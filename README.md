# Entity language terms, ATerm text codec and code generator

This is a Dafny model of the core of the entity-language repository. The repository has three parts.

- **`Yargon.ATerms`.** Its term kinds are Int, Real, String, Cons, List and Placeholder. They are built by `TrivialTermFactory` and `AbstractTermFactory`, and the `TermExtensions` conversions read them back.
  - The ATerm text format has a reader (`ATermReader`, over the cursor helpers in `TextReaderExtensions`) and a writer (`ATermWriter` and `TermTextWriter`, with `StringEscaper`).
- **`Yargon.Terms.ATerms`.** This is the typed term layer: Int, String and `ListTerm<T>` terms, a base equality that looks only at the runtime type and the annotations, and the 32-bit hash codes.
  - `ATermFactory` builds terms either itself or through a table of constructor delegates. It hands every term to an `ITermCache`: `NullTermCache` returns the term it was given, and `SimpleTermCache` interns terms by `Equals`.
- **`EntityLanguage`.** This part holds the module, entity, property and type term nodes, the `CodeGenerator` that turns a module term into C# text, and the plain `Module`/`Entity`/`Property`/`Type` syntax classes with their equality.

How the model is organised

- **One module per source unit.** `Wrappers` is `Option`/`Result`, and `Exceptions` holds the .NET exceptions with the messages the code gives them. `Text` holds the character classes and the Int32 and UTF-16 services of the runtime.
- **The trivial terms are a datatype** (`ATerms`), since they are immutable values. Each term carries the factory object that built it.
- **The reader has two layers.**
  - `ATermParsing` is a functional specification of every reader routine. It works on the input that remains, and gives the value read together with the input left after it.
  - `ATermReader` is a class with one method per routine, working on a `TextReader` cursor. Every method is proved to move the cursor, and to return, exactly what the specification says.
- **The writer is also a class.** It appends to a `StringWriter` sink whose text is a `seq<char>` field, and it is proved against the specification function `TermText`.
- **The typed terms are objects** (class `TypedTerms.Term`), because the caches depend on which instance is which. `SimpleTermCache` is a class whose dictionary is a sequence of entries searched with `Equals`.
- **Garbage collection of a weak reference** is the explicit event `Collect`.
- **The code generator is a class.** Its loops over list terms are methods with invariants, proved against specification functions (`PropertyText`, `EntityText`, `ModuleText`).

## Model

| member | source | states |
|---|---|---|
| Text.HexDigitValue | src/Yargon.ATerms/IO/ATermReader.cs:244 | a hexadecimal digit is worth less than 16, and less than 10 exactly when it is a decimal digit |
| Text.DigitChar | src/Yargon.ATerms/IO/ATermWriter.cs:67 | the character written for a digit value below 10 is a decimal digit that reads back as that value |
| Text.NatText | src/Yargon.ATerms/IO/ATermWriter.cs:67 | the invariant-culture text of a natural number is a non-empty run of decimal digits, with a leading `0` only for zero |
| Text.Int32Text | src/Yargon.ATerms/IO/ATermWriter.cs:67 | `Int32.ToString` starts with `-` exactly for a negative value; a non-negative value is written as its plain decimal digits |
| Text.ParseInt32 | src/Yargon.ATerms/IO/ATermReader.cs:294 | `Int32.Parse` of decimal digits succeeds exactly when their value fits in an Int32, and returns that value; otherwise it raises `OverflowException` |
| Text.TryParseInt32 | src/Yargon.ATerms/IO/ATermReader.cs:244-245 | `Int32.TryParse` succeeds only on a non-empty run of digits of the chosen style; a decimal result is the value of the digits, and so is a hexadecimal one within the Int32 range |
| Text.ConvertFromUtf32 | src/Yargon.ATerms/IO/ATermReader.cs:246 | `Char.ConvertFromUtf32` succeeds exactly for a non-surrogate code point in U+0000..U+10FFFF and gives that one character; otherwise it raises `ArgumentOutOfRangeException("utf32")` |
| Text.Utf16Encode | src/Yargon.ATerms/IO/ATermReader.cs:246 | a character below U+10000 is one non-surrogate code unit equal to it; any other is a high surrogate followed by a low surrogate |
| Text.Utf16RoundTrip | src/Yargon.ATerms/IO/ATermReader.cs:246 | decoding the UTF-16 code units of any scalar value gives that value back |
| Text.DigitsValueOfNatText | src/Yargon.ATerms/IO/ATermWriter.cs:67 | the decimal text of a natural number is all digits, and those digits are worth the number |
| Text.ParseInt32OfText | src/Yargon.ATerms/IO/ATermReader.cs:294 | `Int32.Parse` inverts the writer's text of every non-negative Int32 |
| TextInput.ReadOrFail | src/Yargon.ATerms/IO/TextReaderExtensions.cs:21-32 | fails with the end-of-stream error exactly on empty input; otherwise consumes exactly the first character and returns it |
| TextInput.PeekOrFail | src/Yargon.ATerms/IO/TextReaderExtensions.cs:40-51 | fails exactly on empty input; otherwise returns the character `ReadOrFail` would consume |
| TextInput.ReadExpected | src/Yargon.ATerms/IO/TextReaderExtensions.cs:81-97 | succeeds exactly when a character remains and is expected, or the expected set is empty, and then behaves as `ReadOrFail`; empty input is the end-of-stream error; any other character is a parse error quoting the expectation and that character |
| TextInput.ReadExpectedChar | src/Yargon.ATerms/IO/TextReaderExtensions.cs:62-70 | the one-character overload is the collection overload with no name, whatever name the caller passes |
| TextInput.ReadExpectedOneOf | src/Yargon.ATerms/IO/TextReaderExtensions.cs:107-115 | the `params` overload is the collection overload with no name |
| TextInput.TryPeek | src/Yargon.ATerms/IO/TextReaderExtensions.cs:191-200 | true exactly when a next character exists and passes the predicate |
| TextInput.TryPeekAny | src/Yargon.ATerms/IO/TextReaderExtensions.cs:123-131 | true exactly when input remains |
| TextInput.TryPeekChar | src/Yargon.ATerms/IO/TextReaderExtensions.cs:140-148 | true exactly when the next character is the one given; false at the end of the input |
| TextInput.TryPeekOneOf | src/Yargon.ATerms/IO/TextReaderExtensions.cs:157-182 | true exactly when the next character is in the given set; false at the end of the input |
| TextInput.ReadExpectedCharIgnoresName | src/Yargon.ATerms/IO/TextReaderExtensions.cs:62-70 | a mismatch in the one-character `ReadExpected` gives the same message, quoting only the character, whatever name was passed |
| TextInput.ReadExpectedOneOfMessage | src/Yargon.ATerms/IO/TextReaderExtensions.cs:81-97 | a mismatch when `e` or `E` is expected reports "Expected one of 'e', 'E', got ..." |
| TextReaderExtensions.ReadOrFail | src/Yargon.ATerms/IO/TextReaderExtensions.cs:21-32 | advances the reader by exactly what `TextInput.ReadOrFail` consumes, and returns its result |
| TextReaderExtensions.PeekOrFail | src/Yargon.ATerms/IO/TextReaderExtensions.cs:40-51 | returns `TextInput.PeekOrFail` of the remaining input without changing the reader |
| TextReaderExtensions.ReadExpected | src/Yargon.ATerms/IO/TextReaderExtensions.cs:81-97 | moves the reader and answers as `TextInput.ReadExpected` |
| TextReaderExtensions.ReadExpectedChar | src/Yargon.ATerms/IO/TextReaderExtensions.cs:62-70 | moves the reader and answers as `TextInput.ReadExpectedChar` |
| TextReaderExtensions.ReadExpectedOneOf | src/Yargon.ATerms/IO/TextReaderExtensions.cs:107-115 | moves the reader and answers as `TextInput.ReadExpectedOneOf` |
| TextReaderExtensions.TryPeek | src/Yargon.ATerms/IO/TextReaderExtensions.cs:191-200 | never changes the reader, and answers as `TextInput.TryPeek` |
| TextReaderExtensions.TryPeekAny | src/Yargon.ATerms/IO/TextReaderExtensions.cs:123-131 | never changes the reader, and answers as `TextInput.TryPeekAny` |
| TextReaderExtensions.TryPeekChar | src/Yargon.ATerms/IO/TextReaderExtensions.cs:140-148 | never changes the reader, and answers as `TextInput.TryPeekChar` |
| TextReaderExtensions.TryPeekOneOf | src/Yargon.ATerms/IO/TextReaderExtensions.cs:157-182 | never changes the reader, and answers as `TextInput.TryPeekOneOf` |
| StringEscaper.Escape | src/Yargon.ATerms/IO/StringEscaper.cs:17-36 | the loop's output is `Escaped`: each character replaced by its mapped sequence, or copied when it has none, in input order |
| StringEscaper.EscapedDistributes | src/Yargon.ATerms/IO/StringEscaper.cs:26-35 | escaping a concatenation is the concatenation of the escapings |
| StringEscaper.EscapedIdentity | src/Yargon.ATerms/IO/StringEscaper.cs:27-34 | a string with no mapped character escapes to itself |
| StringEscaper.EscapedSingle | src/Yargon.ATerms/IO/StringEscaper.cs:27-34 | a single character escapes to its own replacement |
| StringEscaper.EscapedCons | src/Yargon.ATerms/IO/StringEscaper.cs:27-34 | the first character's replacement comes first, then the escaping of the rest |
| ATerms.EqualsIsStructural | src/Yargon.ATerms/TrivialTermFactory.Term.cs:70-81 | `Equals` (the base part, then each kind's own comparison) holds exactly when the two terms are the same value: same kind, factory, annotations and contents |
| ATerms.ListEqualsIsStructural | src/Yargon.ATerms/TrivialTermFactory.ListTerm.cs:110-115 | list equality (base part, then heads and tails by `Object.Equals`) holds exactly for identical lists |
| ATerms.SequenceEqualIsStructural | src/Yargon.ATerms/TrivialTermFactory.ConsTerm.cs:72-77 | `SequenceEqual` of subterms or annotations holds exactly for equal sequences, pairwise and in order |
| ATerms.EqualTermsShareKindAndFactory | src/Yargon.ATerms/TrivialTermFactory.Term.cs:70-81 | equal terms have the same runtime class, the same factory and the same annotations |
| ATerms.OperatorsAgreeWithEquality | src/Yargon.ATerms/TrivialTermFactory.IntTerm.cs:73-90 | `==` on two possibly-null terms holds exactly when they are equal (two nulls included), and `!=` exactly when they differ |
| ATerms.EqualTermsHashEqually | src/Yargon.ATerms/TrivialTermFactory.Term.cs:49-59 | equal terms have equal hash codes, for any hash codes the runtime gives factories, strings and floats |
| ATerms.HashIgnoresAnnotations | src/Yargon.ATerms/TrivialTermFactory.Term.cs:49-59 | a term's hash code is the same whatever its own annotations |
| ATerms.ElementsLength | src/Yargon.ATerms/TrivialTermFactory.ListTerm.cs:79-81 | the heads unrolled along a list's tail chain are `Count` many |
| ATerms.IsEmptyIffNil | src/Yargon.ATerms/TrivialTermFactory.ListTerm.cs:17 | `IsEmpty` holds exactly for the empty list, and exactly when `Head` and `Tail` are null |
| ATerms.ListSubTerms | src/Yargon.ATerms/TrivialTermFactory.ListTerm.cs:26-39 | the `SubTerms` while loop collects the heads along the tail chain, in order, and yields `Count` of them |
| ATerms.Index | src/Yargon.ATerms/TrivialTermFactory.Term.cs:22 | the indexer succeeds exactly for an index within `SubTerms` and returns that subterm; any other index raises `ArgumentOutOfRangeException` |
| ATerms.SubTerms | src/Yargon.ATerms/TrivialTermFactory.ListTerm.cs:26-39 | every subterm is structurally smaller than its term, and a list has as many subterms as its `Count` |
| ATerms.SubTermsByKind | src/Yargon.ATerms/TrivialTermFactory.PlaceholderTerm.cs:17-24 | a placeholder's subterms are exactly its template; Int, Real and String terms keep the empty default; a list has `Count` subterms |
| ATerms.Accept | src/Yargon.ATerms/TrivialTermFactory.ConsTerm.cs:109-128 | each kind's `Accept` calls the visit method of that kind (Cons, Int, List, Placeholder, Real, String) |
| TrivialTermFactory.TrivialTermFactory.Owns | src/Yargon.ATerms/TrivialTermFactory.cs:13-21 | true for every trivial term, whichever factory instance built it |
| TrivialTermFactory.TrivialTermFactory.Int | src/Yargon.ATerms/TrivialTermFactory.cs:24-32 | an Int term with exactly the given value and annotations, owned by this factory |
| TrivialTermFactory.TrivialTermFactory.Real | src/Yargon.ATerms/TrivialTermFactory.cs:35-43 | a Real term with exactly the given literal and annotations, owned by this factory |
| TrivialTermFactory.TrivialTermFactory.String | src/Yargon.ATerms/TrivialTermFactory.cs:46-56 | a String term with exactly the given text and annotations, owned by this factory |
| TrivialTermFactory.TrivialTermFactory.ListConsNil | src/Yargon.ATerms/TrivialTermFactory.cs:59-71 | a list cell whose `Head` and `Tail` are the ones given, with `Count` one more than the tail's |
| TrivialTermFactory.TrivialTermFactory.EmptyList | src/Yargon.ATerms/TrivialTermFactory.cs:74-82 | an empty list with null `Head` and `Tail`, carrying the given annotations |
| TrivialTermFactory.TrivialTermFactory.Cons | src/Yargon.ATerms/TrivialTermFactory.cs:85-97 | a Cons term with exactly the given name, subterms and annotations |
| TrivialTermFactory.TrivialTermFactory.Placeholder | src/Yargon.ATerms/TrivialTermFactory.cs:100-110 | a placeholder whose only subterm is the given template |
| TrivialTermFactory.TrivialTermFactory.List | src/Yargon.ATerms/AbstractTermFactory.cs:101-123 | the list's unrolled elements are the input sequence, in order, and `Count` is its length; an empty input gives `EmptyList(annotations)`; otherwise only the outermost cell carries the annotations, and the chain below it is unannotated |
| TrivialTermFactory.TrivialTermFactory.Aggregate | src/Yargon.ATerms/AbstractTermFactory.cs:112-117 | the fold adds one cell of this factory per term, so the count grows by the number of terms, and the last term heads the result |
| TrivialTermFactory.TrivialTermFactory.AggregateReversed | src/Yargon.ATerms/AbstractTermFactory.cs:112-117 | folding `Reverse(s)` onto a seed list prepends `s` to the seed's elements, in order, with unannotated cells |
| TrivialTermFactory.TrivialTermFactory.Tuple | src/Yargon.ATerms/AbstractTermFactory.cs:254-264 | a tuple is a Cons with the empty name and the given subterms and annotations |
| TrivialTermFactory.TrivialTermFactory.IntWithoutAnnotations | src/Yargon.ATerms/AbstractTermFactory.cs:131-134 | an Int term with the given value and no annotations |
| TrivialTermFactory.TrivialTermFactory.RealWithoutAnnotations | src/Yargon.ATerms/AbstractTermFactory.cs:141-144 | a Real term with the given literal and no annotations |
| TrivialTermFactory.TrivialTermFactory.StringWithoutAnnotations | src/Yargon.ATerms/AbstractTermFactory.cs:151-159 | a String term with the given text and no annotations |
| TrivialTermFactory.TrivialTermFactory.ListConsNilWithoutAnnotations | src/Yargon.ATerms/AbstractTermFactory.cs:167-177 | a list cell with the given head and tail and no annotations |
| TrivialTermFactory.TrivialTermFactory.ListWithoutAnnotations | src/Yargon.ATerms/AbstractTermFactory.cs:184-207 | a list of exactly the given elements, with no annotations |
| TrivialTermFactory.TrivialTermFactory.EmptyListWithoutAnnotations | src/Yargon.ATerms/AbstractTermFactory.cs:213-216 | an empty list with no annotations |
| TrivialTermFactory.TrivialTermFactory.TupleWithoutAnnotations | src/Yargon.ATerms/AbstractTermFactory.cs:223-246 | a tuple of the given terms with no annotations |
| TrivialTermFactory.TrivialTermFactory.ConsWithoutAnnotations | src/Yargon.ATerms/AbstractTermFactory.cs:273-302 | a Cons of the given name and terms with no annotations |
| TrivialTermFactory.TrivialTermFactory.PlaceholderWithoutAnnotations | src/Yargon.ATerms/AbstractTermFactory.cs:309-317 | a placeholder of the given template with no annotations |
| TrivialTermFactory.ListIsInjective | src/Yargon.ATerms/AbstractTermFactory.cs:101-123 | two lists built with the same annotations are equal exactly when they were built from equal sequences |
| TermExtensions.AsInt32 | src/Yargon.ATerms/TermExtensions.cs:39-48 | the value exactly when the term is an Int, null otherwise |
| TermExtensions.IsInt32 | src/Yargon.ATerms/TermExtensions.cs:57-65 | true exactly for Int terms |
| TermExtensions.ToInt32 | src/Yargon.ATerms/TermExtensions.cs:19-30 | succeeds exactly when `IsInt32` holds, with the `AsInt32` value; otherwise `InvalidCastException` naming the term's written text and `Int32` |
| TermExtensions.AsSingle | src/Yargon.ATerms/TermExtensions.cs:96-105 | the literal exactly when the term is a Real, null otherwise |
| TermExtensions.IsSingle | src/Yargon.ATerms/TermExtensions.cs:114-122 | true exactly for Real terms |
| TermExtensions.ToSingle | src/Yargon.ATerms/TermExtensions.cs:76-87 | succeeds exactly when `IsSingle` holds, with the `AsSingle` value; otherwise `InvalidCastException` naming the term and `Single` |
| TermExtensions.AsString | src/Yargon.ATerms/TermExtensions.cs:154-163 | the text exactly when the term is a String, null otherwise |
| TermExtensions.IsString | src/Yargon.ATerms/TermExtensions.cs:172-180 | true exactly for String terms |
| TermExtensions.ToString | src/Yargon.ATerms/TermExtensions.cs:134-145 | succeeds exactly when `IsString` holds, with the `AsString` value; otherwise `InvalidCastException` naming the term and `String` |
| TermExtensions.AsCons | src/Yargon.ATerms/TermExtensions.cs:220-236 | a negative arity raises `ArgumentOutOfRangeException("arity")`; otherwise the term itself exactly when it is a Cons with that name and exactly `arity` subterms, null otherwise |
| TermExtensions.IsCons | src/Yargon.ATerms/TermExtensions.cs:247-260 | raises exactly for a negative arity; otherwise true exactly for a Cons with that name and arity |
| TermExtensions.ToCons | src/Yargon.ATerms/TermExtensions.cs:194-209 | a negative arity raises; otherwise the term when it is a Cons of that name and arity, else `InvalidCastException` naming the term and ``name`arity`` |
| TermExtensions.ConversionsAgree | src/Yargon.ATerms/TermExtensions.cs:220-260 | each `Is` test holds exactly when the matching `As` gives a value, and `IsCons` holds exactly when `ToCons` succeeds |
| TermExtensions.ToInt32FailureMessage | src/Yargon.ATerms/TermExtensions.cs:19-30 | the failure message of converting a String term quotes the term as the writer prints it, escaped |
| ATermParsing.ReadWhitespace | src/Yargon.ATerms/IO/ATermReader.cs:531-551 | true exactly when a character remains after the white space; only white space is skipped, and the rest does not start with white space |
| ATermParsing.ReadDigits | src/Yargon.ATerms/IO/ATermReader.cs:425-446 | fails exactly at the end of the input; otherwise splits the input into its leading (possibly empty) run of decimal digits and a rest that does not start with one |
| ATermParsing.ReadIdentifier | src/Yargon.ATerms/IO/ATermReader.cs:392-414 | fails exactly at the end of the input; gives the empty name exactly when the first character cannot start an identifier; otherwise gives the longest identifier at the front |
| ATermParsing.EscapeDigits | src/Yargon.ATerms/IO/ATermReader.cs:233-239 | the digit loop collects its first character `maxLength` times when it is a valid digit, and nothing otherwise |
| ATermParsing.ReadEscapedUnicode | src/Yargon.ATerms/IO/ATermReader.cs:224-247 | fails at the end of the input; fails with the count found when fewer than `minLength` digits are collected; any success is one character, after a valid first digit |
| ATermParsing.ReadEscapedDecimalUnicode | src/Yargon.ATerms/IO/ATermReader.cs:198-201 | delegates to `ReadEscapedUnicode` with the decimal-digit test and integer style |
| ATermParsing.ReadEscapedHexadecimalUnicode | src/Yargon.ATerms/IO/ATermReader.cs:210-213 | delegates to `ReadEscapedUnicode` with the hexadecimal-digit test and hexadecimal style |
| ATermParsing.IsValidIdentifierFirstChar | src/Yargon.ATerms/IO/ATermReader.cs:456-464 | a first identifier character is never a digit or white space, and the ones that are not letters are exactly `_ - + * $` |
| ATermParsing.IsValidIdentifierChar | src/Yargon.ATerms/IO/ATermReader.cs:474-482 | every valid first character and every digit may continue an identifier, white space never |
| ATermParsing.SimpleEscape | src/Yargon.ATerms/IO/ATermReader.cs:141-163 | exactly the letters `n r f t \ ' "` are single-letter escapes, and each stands for one of new line, carriage return, form feed, tab, backslash and the two quotes |
| ATermParsing.ReadEscape | src/Yargon.ATerms/IO/ATermReader.cs:139-175 | a successful escape consumes at least its letter; what each letter decodes to is stated by `SimpleEscapeRead`, `UnrecognizedEscape` and the Unicode-escape lemmas below |
| ATermParsing.ReadStringChars | src/Yargon.ATerms/IO/ATermReader.cs:132-184 | the string loop never reads past its input; `ReadStringCharsText` states what it reads |
| ATermParsing.Read | src/Yargon.ATerms/IO/ATermReader.cs:46-75 | "no term" leaves no input; a term consumes at least one character |
| ATermParsing.ReadList | src/Yargon.ATerms/IO/ATermReader.cs:86-98 | a list consumes at least its opening bracket |
| ATermParsing.ReadTuple | src/Yargon.ATerms/IO/ATermReader.cs:104-111 | a tuple that starts with `(` consumes at least that character |
| ATermParsing.ReadString | src/Yargon.ATerms/IO/ATermReader.cs:122-189 | a string consumes at least its opening quote |
| ATermParsing.ReadFraction | src/Yargon.ATerms/IO/ATermReader.cs:263-275 | without a following `.` nothing is read and the fraction and exponent are empty; a fraction, when read, is all decimal digits |
| ATermParsing.ReadNumber | src/Yargon.ATerms/IO/ATermReader.cs:253-297 | a number consumes at least one character |
| ATermParsing.ReadPlaceholder | src/Yargon.ATerms/IO/ATermReader.cs:308-325 | a placeholder consumes at least its `<` |
| ATermParsing.ReadCons | src/Yargon.ATerms/IO/ATermReader.cs:336-361 | a Cons that starts with a name or `(` consumes at least one character, and the Cons read is named by the identifier in front of it (the empty name before `(`) |
| ATermParsing.ReadAnnotations | src/Yargon.ATerms/IO/ATermReader.cs:368-381 | without an immediately following `{` there are no annotations and nothing is consumed |
| ATermParsing.ReadTermSequence | src/Yargon.ATerms/IO/ATermReader.cs:494-523 | a sequence consumes at least its end character |
| ATermParsing.ReadTermSequenceItems | src/Yargon.ATerms/IO/ATermReader.cs:509-517 | the do-while loop consumes at least the character after its last term |
| ATermParsing.SequenceEnd | src/Yargon.ATerms/IO/ATermReader.cs:519-522 | after the last term the sequence succeeds exactly when the character read is the end character |
| ATermParsing.FromString | src/Yargon.ATerms/IO/TermTextReader.cs:60-70 | `FromString` succeeds exactly when `Read` of the whole string does, and gives the term `Read` gives |
| ATermParsing.ReadTermSequenceItemsStep | src/Yargon.ATerms/IO/ATermReader.cs:509-517 | one pass of the do-while loop: after a term and white space, the end of the input fails; a separator goes round again with the term added; any other character ends the sequence |
| ATermReader.ATermReader.constructor | src/Yargon.ATerms/IO/ATermReader.cs:22-31 | the reader builds terms with the given factory |
| ATermReader.ATermReader.ReadWhitespace | src/Yargon.ATerms/IO/ATermReader.cs:531-551 | leaves the reader after the white space `ATermParsing.ReadWhitespace` skips, and returns its answer |
| ATermReader.ATermReader.ReadDigits | src/Yargon.ATerms/IO/ATermReader.cs:425-446 | moves the reader and answers as `ATermParsing.ReadDigits` |
| ATermReader.ATermReader.ReadIdentifier | src/Yargon.ATerms/IO/ATermReader.cs:392-414 | moves the reader and answers as `ATermParsing.ReadIdentifier` |
| ATermReader.ATermReader.ReadEscapedUnicode | src/Yargon.ATerms/IO/ATermReader.cs:224-247 | answers as `ATermParsing.ReadEscapedUnicode` and does not move the reader, so the digits remain |
| ATermReader.ATermReader.ReadEscapedDecimalUnicode | src/Yargon.ATerms/IO/ATermReader.cs:198-201 | answers as `ATermParsing.ReadEscapedDecimalUnicode` without moving the reader |
| ATermReader.ATermReader.ReadEscapedHexadecimalUnicode | src/Yargon.ATerms/IO/ATermReader.cs:210-213 | answers as `ATermParsing.ReadEscapedHexadecimalUnicode` without moving the reader |
| ATermReader.ATermReader.Read | src/Yargon.ATerms/IO/ATermReader.cs:46-75 | moves the reader and answers as `ATermParsing.Read` |
| ATermReader.ATermReader.ReadList | src/Yargon.ATerms/IO/ATermReader.cs:86-98 | moves the reader and answers as `ATermParsing.ReadList` |
| ATermReader.ATermReader.ReadTuple | src/Yargon.ATerms/IO/ATermReader.cs:104-111 | moves the reader and answers as `ATermParsing.ReadTuple` |
| ATermReader.ATermReader.ReadEscape | src/Yargon.ATerms/IO/ATermReader.cs:139-175 | moves the reader and answers as `ATermParsing.ReadEscape` |
| ATermReader.ATermReader.ReadString | src/Yargon.ATerms/IO/ATermReader.cs:122-189 | the string loop moves the reader and builds the text `ATermParsing.ReadString` gives |
| ATermReader.ATermReader.ReadFraction | src/Yargon.ATerms/IO/ATermReader.cs:263-275 | moves the reader and answers as `ATermParsing.ReadFraction` |
| ATermReader.ATermReader.ReadNumber | src/Yargon.ATerms/IO/ATermReader.cs:253-297 | moves the reader and answers as `ATermParsing.ReadNumber` |
| ATermReader.ATermReader.ReadPlaceholder | src/Yargon.ATerms/IO/ATermReader.cs:308-325 | moves the reader and answers as `ATermParsing.ReadPlaceholder` |
| ATermReader.ATermReader.ReadCons | src/Yargon.ATerms/IO/ATermReader.cs:336-361 | moves the reader and answers as `ATermParsing.ReadCons` |
| ATermReader.ATermReader.ReadAnnotations | src/Yargon.ATerms/IO/ATermReader.cs:368-381 | moves the reader and answers as `ATermParsing.ReadAnnotations` |
| ATermReader.ATermReader.ReadTermSequence | src/Yargon.ATerms/IO/ATermReader.cs:494-523 | moves the reader and answers as `ATermParsing.ReadTermSequence` |
| ATermReader.ATermReader.ReadTermSequenceItems | src/Yargon.ATerms/IO/ATermReader.cs:509-522 | the do-while loop moves the reader and collects the terms `ATermParsing.ReadTermSequenceItems` gives |
| ATermReader.ATermReader.FromString | src/Yargon.ATerms/IO/TermTextReader.cs:60-70 | reading a string through a fresh reader gives `ATermParsing.FromString` |
| ATermReadingFacts.SkipWhitespace | src/Yargon.ATerms/IO/ATermReader.cs:531-551 | a run of white space is skipped up to exactly the first character that is not white space |
| ATermReadingFacts.ReadNothing | src/Yargon.ATerms/IO/ATermReader.cs:53-57 | `Read` gives "no term" (and consumes everything) exactly when only white space remains |
| ATermReadingFacts.ReadAfterWhitespace | src/Yargon.ATerms/IO/ATermReader.cs:53-59 | white space before a term changes nothing that `Read` gives |
| ATermReadingFacts.SimpleEscapeRead | src/Yargon.ATerms/IO/ATermReader.cs:141-163 | the single-letter escapes are exactly `n r f t \ ' "`, and each decodes to one character and consumes just its letter |
| ATermReadingFacts.UnrecognizedEscape | src/Yargon.ATerms/IO/ATermReader.cs:173-174 | any other letter except `u`, `U` and `x` is a parse error naming the escape |
| ATermReadingFacts.ShortUnicodeEscape | src/Yargon.ATerms/IO/ATermReader.cs:164-166 | `\u` and a digit `d` stand for the character `1111 * d`, and leave the digit unread |
| ATermReadingFacts.LongUnicodeEscape | src/Yargon.ATerms/IO/ATermReader.cs:167-169 | `\U0` stands for U+0000; `\U` and any other digit is a code point above U+10FFFF and raises `ArgumentOutOfRangeException` |
| ATermReadingFacts.HexUnicodeEscape | src/Yargon.ATerms/IO/ATermReader.cs:170-172 | `\x` and a hexadecimal digit `d` stand for `0x1111 * d`, except that `d` = 13 gives the surrogate U+DDDD, which raises |
| ATermReadingFacts.MissingUnicodeDigits | src/Yargon.ATerms/IO/ATermReader.cs:240-241 | `\u` or `\U` followed by a non-digit fails, reporting that 4 or 8 digits were expected and none found |
| ATermReadingFacts.PlainStringChar | src/Yargon.ATerms/IO/ATermReader.cs:177-183 | a character other than the quote and the backslash is appended as it is |
| ATermReadingFacts.DigitsAfterEscape | src/Yargon.ATerms/IO/ATermReader.cs:132-184 | the digits a `\u` escape leaves unread are copied into the string as text |
| ATermReadingFacts.EscapedZeroChars | src/Yargon.ATerms/IO/ATermReader.cs:132-184 | the string loop over `\u0041"` gives U+0000 followed by the text `0041` |
| ATermReadingFacts.EscapedLetterAString | src/Yargon.ATerms/IO/ATermReader.cs:122-189 | `ReadString` of `"\u0041"` gives the String term U+0000 `0041` and consumes the whole input |
| ATermReadingFacts.EscapedLetterA | src/Yargon.ATerms/IO/ATermReader.cs:233-239 | `FromString` of `"\u0041"` gives the String term U+0000 `0041`, not `A` |
| ATermReadingFacts.UnknownEscapeInString | src/Yargon.ATerms/IO/ATermReader.cs:173-174 | an unknown escape letter stops the whole string with the error naming it |
| ATermReadingFacts.EscapedStringText | src/Yargon.ATerms/IO/ATermWriter.cs:95-110 | the written text of a string whose first character has a two-character escape begins with the quote and that escape |
| ATermReadingFacts.UnreadableEscapes | src/Yargon.ATerms/IO/ATermWriter.cs:102-103 | the writer escapes vertical tab and backspace as `\v` and `\b`, and reading that text back fails with "Unrecognized escape sequence" |
| ATermReadingFacts.DigitsBefore | src/Yargon.ATerms/IO/ATermReader.cs:425-446 | the digits in front of a non-digit are read up to it |
| ATermReadingFacts.IntegerDropsAnnotations | src/Yargon.ATerms/IO/ATermReader.cs:278-296 | after digits with no `.`, a malformed annotation is an error; well-formed annotations are consumed but the Int is built without them; a value above `Int32.MaxValue` raises `OverflowException` |
| ATermReadingFacts.DotAtEnd | src/Yargon.ATerms/IO/ATermReader.cs:263-267 | digits followed by a `.` at the very end of the input fail with the end-of-stream error |
| ATermReadingFacts.EmptyFraction | src/Yargon.ATerms/IO/ATermReader.cs:263-296 | a `.` with no digits after it (and no exponent) reads the same Int as the digits alone |
| ATermReadingFacts.ExponentOnlyFraction | src/Yargon.ATerms/IO/ATermReader.cs:263-275 | `.e` followed by digits reads an empty fraction and those exponent digits |
| ATermReadingFacts.ExponentWithoutFraction | src/Yargon.ATerms/IO/ATermReader.cs:263-296 | an exponent after an empty fraction is read and then dropped: the number is still the Int of its digits |
| ATermReadingFacts.FractionMakesReal | src/Yargon.ATerms/IO/ATermReader.cs:277-291 | fraction digits make a Real that keeps its annotations, with missing integral digits read as `0` and a missing exponent as `0` |
| ATermReadingFacts.NonDigitNumber | src/Yargon.ATerms/IO/ATermReader.cs:69-70 | a number character that is not a decimal digit starts a number, which then fails with "Expected number" |
| ATermReadingFacts.InvalidStart | src/Yargon.ATerms/IO/ATermReader.cs:74 | a character that is not white space and starts no kind of term is an error naming it |
| ATermReadingFacts.SymbolStartsNoTerm | src/Yargon.ATerms/IO/ATermReader.cs:456-464 | the identifier starts other than letters are exactly `_ - + * $`, and none of them starts a term |
| ATermReadingFacts.NegativeIntRejected | src/Yargon.ATerms/IO/ATermWriter.cs:67 | the text the writer gives a negative Int starts with `-`, and `Read` rejects it |
| ATermReadingFacts.TupleHasEmptyName | src/Yargon.ATerms/IO/ATermReader.cs:104-111 | a term read from input starting with `(` is a Cons with the empty name |
| ATermReadingFacts.BareNameAtEnd | src/Yargon.ATerms/IO/ATermReader.cs:336-361 | a name followed only by white space fails with the end-of-stream error, because a Cons peeks for its `(` |
| ATermReadingFacts.AnnotationsOnlyAfterBrace | src/Yargon.ATerms/IO/ATermReader.cs:368-381 | the reader finds no annotations and consumes nothing exactly when the next character is not `{`, white space included |
| ATermReadingFacts.EmptySequence | src/Yargon.ATerms/IO/ATermReader.cs:500-507 | a sequence whose end character comes first, after any white space, is empty and consumes the end character |
| ATermReadingFacts.FirstItem | src/Yargon.ATerms/IO/ATermReader.cs:500-510 | past the white space, any character other than the end character starts the first term |
| ATermReadingFacts.ItemFails | src/Yargon.ATerms/IO/ATermReader.cs:512 | a term that cannot be read stops the sequence with that term's error |
| ATermReadingFacts.MismatchedClose | src/Yargon.ATerms/IO/ATermReader.cs:509-517 | a closing character of another kind is taken as the start of a term, and fails as "Invalid term" |
| ATermWriter.TermsListTextPrefix | src/Yargon.ATerms/IO/TermTextWriter.cs:159-182 | the text of the first `k` terms is the text of the first `k - 1`, a separator and the `k`-th term's text; one term has no separator |
| ATermWriter.TermText | src/Yargon.ATerms/IO/TermTextWriter.cs:85-109 | the text of a term is never empty; a Cons text is its name and `(`, an Int text starts with `-` exactly for a negative value, a String with `"`, a List with `[` and a Placeholder with `<` |
| ATermWriter.AnnotationsText | src/Yargon.ATerms/IO/ATermWriter.cs:151-164 | the annotations text is empty exactly when there are no annotations, and otherwise starts with `{` and ends with `}` |
| ATermWriter.ATermWriter.ToString | src/Yargon.ATerms/IO/TermTextWriter.cs:47-59 | gives exactly the text `Write` puts into a fresh string sink, `TermText(term)` |
| ATermWriter.ATermWriter.Write | src/Yargon.ATerms/IO/TermTextWriter.cs:85-109 | appends exactly the term's text to the sink, dispatching on its kind; what was written before is kept |
| ATermWriter.ATermWriter.WriteConsTerm | src/Yargon.ATerms/IO/ATermWriter.cs:40-55 | appends the Cons text: name, `(`, the subterms separated by `,`, `)`, then the annotations |
| ATermWriter.ATermWriter.WriteIntTerm | src/Yargon.ATerms/IO/ATermWriter.cs:58-69 | appends the invariant decimal text of the value, then the annotations |
| ATermWriter.ATermWriter.WriteRealTerm | src/Yargon.ATerms/IO/ATermWriter.cs:72-83 | appends the Real term's text, then the annotations |
| ATermWriter.ATermWriter.WriteStringTerm | src/Yargon.ATerms/IO/ATermWriter.cs:86-111 | appends the quoted value escaped with the nine-entry table, then the annotations |
| ATermWriter.ATermWriter.WriteListTerm | src/Yargon.ATerms/IO/ATermWriter.cs:114-127 | appends `[`, the elements separated by `,`, `]`, then the annotations |
| ATermWriter.ATermWriter.WritePlaceholderTerm | src/Yargon.ATerms/IO/ATermWriter.cs:130-143 | appends `<`, the template's text, `>`, then the annotations |
| ATermWriter.ATermWriter.WriteAnnotations | src/Yargon.ATerms/IO/ATermWriter.cs:151-164 | appends nothing for no annotations, otherwise `{`, the annotations separated by `,`, and `}` |
| ATermWriter.ATermWriter.WriteTermsList | src/Yargon.ATerms/IO/TermTextWriter.cs:159-182 | the enumerator loop appends the terms in order with one separator between neighbours, and nothing for no terms |
| ATermWriter.ListOfOneTwoThree | src/Yargon.ATerms/IO/ATermWriter.cs:114-127 | the list of 1, 2 and 3 is written exactly as `[1,2,3]` |
| RoundTrip.SameCanonicalList | src/Yargon.ATerms/AbstractTermFactory.cs:112-121 | two lists in the shape `List` builds, with the same elements, annotations and factory, are the same list |
| RoundTrip.ListOfCanonical | src/Yargon.ATerms/AbstractTermFactory.cs:101-123 | building a list from the elements of a list in that shape gives that list back |
| RoundTrip.EscapeEntry | src/Yargon.ATerms/IO/ATermWriter.cs:96-107 | every escape the writer uses, apart from `\v` and `\b`, is a backslash and a letter the reader decodes back to the character; a character without an entry is copied and is neither the quote nor the backslash |
| RoundTrip.ReadStringCharsText | src/Yargon.ATerms/IO/ATermReader.cs:132-184 | the string loop over the escaped text of `s` and a closing quote gives back `s`, and leaves what follows the quote |
| RoundTrip.ReadText | src/Yargon.ATerms/IO/ATermReader.cs:46-75 | reading the written text of a readable term, followed by a closing character, gives the term back and leaves the rest |
| RoundTrip.ReadIntText | src/Yargon.ATerms/IO/ATermReader.cs:253-297 | the written text of a non-negative, unannotated Int reads back as that Int |
| RoundTrip.ReadStringText | src/Yargon.ATerms/IO/ATermReader.cs:122-189 | the written text of a String without `\v` or `\b` reads back as that String, annotations included |
| RoundTrip.ReadConsText | src/Yargon.ATerms/IO/ATermReader.cs:336-361 | the written text of a readable Cons reads back as that Cons |
| RoundTrip.ReadListText | src/Yargon.ATerms/IO/ATermReader.cs:86-98 | the written text of a readable list reads back as that list |
| RoundTrip.ReadPlaceholderText | src/Yargon.ATerms/IO/ATermReader.cs:308-325 | the written text of a readable placeholder reads back as that placeholder |
| RoundTrip.ReadAnnotationsText | src/Yargon.ATerms/IO/ATermReader.cs:368-381 | the written annotations, empty or braced, read back as those annotations |
| RoundTrip.ReadSequenceText | src/Yargon.ATerms/IO/ATermReader.cs:494-523 | the written terms of a sequence and its end character read back as those terms |
| RoundTrip.ReadItemsText | src/Yargon.ATerms/IO/ATermReader.cs:509-522 | the do-while loop reads one term per separator, in order, and stops at the end character |
| RoundTrip.FromStringOfToString | src/Yargon.ATerms/IO/TermTextReader.cs:60-70 | `FromString` of the text `ToString` gives a readable term is that term |
| TypedTerms.Unchecked | src/EntityLanguage/ModuleATerm.cs:65-69 | `unchecked` Int32 arithmetic: the result differs from the exact value by a multiple of 2^32 |
| TypedTerms.Texts | src/Yargon.Terms.ATerms/ListTerm.cs:59-62 | one text per element, in order: the full name of the element's runtime type, which is what `String.Join<T>` gets from `Object.ToString` |
| TypedTerms.Term.Int | src/Yargon.Terms.ATerms/IntTerm.cs:30-34 | the value, factory and annotations are stored as given |
| TypedTerms.Term.String | src/Yargon.Terms.ATerms/StringTerm.cs:30-39 | the value, factory and annotations are stored as given |
| TypedTerms.Term.List | src/Yargon.Terms.ATerms/ListTerm.cs:37-46 | the elements, all of the element type, are stored in order |
| TypedTerms.Term.Module | src/EntityLanguage/ModuleATerm.cs:33-46 | a module node holds the given string name and list of entities |
| TypedTerms.Term.Entity | src/EntityLanguage/EntityATerm.cs:33-46 | an entity node holds the given string name and list of properties |
| TypedTerms.Term.Property | src/EntityLanguage/PropertyATerm.cs:33-46 | a property node holds the given string name and type node |
| TypedTerms.Term.Type | src/EntityLanguage/TypeATerm.cs:29-39 | a type node holds the given string name |
| TypedTerms.Term.PartCount | src/EntityLanguage/ModuleATerm.cs:89 | the subterm view of a module, entity or property has two elements, and that of a type one |
| TypedTerms.Term.PartAt | src/EntityLanguage/ModuleATerm.cs:92-104 | the view's indexer succeeds exactly below its count, gives the name at index 0, and raises `ArgumentOutOfRangeException` for any other index |
| TypedTerms.Term.ListCount | src/Yargon.Terms.ATerms/ListTerm.cs:28 | `ListTerm<T>.Count` always raises `NotImplementedException` |
| TypedTerms.Term.ListAt | src/Yargon.Terms.ATerms/ListTerm.cs:25 | the indexer of `ListTerm<T>` raises `NotImplementedException` for every index |
| TypedTerms.Term.RuntimeType | src/Yargon.Terms.ATerms/Term.cs:70 | `GetType()` is `StringTerm` exactly for String terms, a `ListTerm<T>` exactly for list terms, and `EntityATerm` and `PropertyATerm` exactly for entity and property nodes |
| TypedTerms.Term.ToString | src/Yargon.Terms.ATerms/Term.cs:75-76 | a String term prints as its value in double quotes, a list starts with `[` and ends with `]`, and every node starts with `Module(` |
| TypedTermFacts.EqualsReflexive | src/Yargon.Terms.ATerms/Term.cs:64-72 | every term equals itself |
| TypedTermFacts.EqualsSameType | src/Yargon.Terms.ATerms/Term.cs:64-72 | equal terms have the same runtime type |
| TypedTermFacts.EqualsSymmetric | src/Yargon.Terms.ATerms/Term.cs:64-72 | `Equals`, with the node overrides, is symmetric |
| TypedTermFacts.EqualsTransitive | src/Yargon.Terms.ATerms/Term.cs:64-72 | `Equals`, with the node overrides, is transitive |
| TypedTermFacts.PayloadIgnored | src/Yargon.Terms.ATerms/Term.cs:69-71 | two Int, String or list terms of one runtime type with equal annotations are equal, whatever values or elements they hold |
| TypedTermFacts.ModuleEqualityIgnoresContents | src/EntityLanguage/ModuleATerm.cs:51-59 | two modules whose annotations, name annotations and definition lists' types and annotations agree are equal, whatever their names and entities |
| TypedTermFacts.HashByType | src/EntityLanguage/ModuleATerm.cs:62-71 | every term's hash code is decided by its runtime type alone: 17 for the leaves and list terms, and a fixed value per node class |
| TypedTermFacts.EqualTermsHashEqually | src/Yargon.Terms.ATerms/Term.cs:45-50 | equal terms have equal hash codes, as a hash-based dictionary requires |
| TypedTermFacts.PartViewConsistent | src/EntityLanguage/ModuleATerm.cs:84-126 | a node's subterm view is a consistent read-only list: `Subterms` has `Count` elements, the indexer gives each of them, and the enumeration yields the same sequence |
| TypedTermFacts.NodeSubterms | src/EntityLanguage/ModuleATerm.cs:96-101 | a node's subterms are its name followed by its definitions, properties or type (a type node has only its name) |
| TypedTermFacts.LeafAndListSubterms | src/Yargon.Terms.ATerms/ListTerm.cs:19-53 | Int and String terms have no subterms; a list's subterms and its enumeration are its elements, in order |
| TypedTermFacts.StringTextUnescaped | src/Yargon.Terms.ATerms/StringTerm.cs:43-46 | a String term prints as its value between double quotes, with nothing escaped |
| TypedTermFacts.IntTextParses | src/Yargon.Terms.ATerms/IntTerm.cs:38-41 | a non-negative Int term prints as invariant decimal digits that parse back to its value |
| TypedTermFacts.JoinLength | src/Yargon.Terms.ATerms/ListTerm.cs:59-62 | `String.Join` adds one separator between neighbouring parts and nothing else |
| TypedTermFacts.JoinAppend | src/Yargon.Terms.ATerms/ListTerm.cs:59-62 | joining one more part appends a separator and that part |
| TypedTermFacts.ShortListTexts | src/Yargon.Terms.ATerms/ListTerm.cs:59-62 | an empty list prints as `[]`; a one-element list prints as its element's runtime type name in brackets, so an Int element of any value gives `[Yargon.Terms.ATerms.IntTerm]` |
| TypedTermFacts.NodeTextsSayModule | src/EntityLanguage/EntityATerm.cs:78-79 | every node, of whichever class, prints `Module(` followed by the runtime type names of its parts: a module gives ``Module(Yargon.Terms.ATerms.StringTerm, Yargon.Terms.ATerms.ListTerm`1[EntityLanguage.IEntityTerm])``, an entity the same with `EntityLanguage.IPropertyTerm`, a property `EntityLanguage.TypeATerm` as its second part, and a type only the name part |
| TypedTermFacts.TypeNameInjective | src/Yargon.Terms.ATerms/ListTerm.cs:59-62 | two runtime types have the same full name exactly when they are the same type, so the printed text tells element types apart |
| TypedTermFacts.ElementTypeNameInjective | src/Yargon.Terms.ATerms/ListTerm.cs:59-62 | two element types have the same name exactly when they are the same interface |
| TypedTermFacts.ListTextIgnoresValues | src/Yargon.Terms.ATerms/ListTerm.cs:59-62 | two lists whose elements have the same runtime types, position by position, print the same text, whatever values they hold |
| TermCaches.NullGetOrStore | src/Yargon.Terms.ATerms/NullTermCache.cs:21-30 | returns its argument, whatever was stored before |
| TermCaches.Lookup | src/Yargon.Terms.ATerms/SimpleTermCache.cs:31 | finds the first entry whose key equals the term, or reports that no key equals it |
| TermCaches.SimpleTermCache.constructor | src/Yargon.Terms.ATerms/SimpleTermCache.cs:14 | a new cache has no entries |
| TermCaches.SimpleTermCache.GetOrStore | src/Yargon.Terms.ATerms/SimpleTermCache.cs:23-36 | keeps the dictionary's invariant; the new entries and the returned term are those of `GetOrStoreSpec` |
| TermCaches.SimpleTermCache.Collect | src/Yargon.Terms.ATerms/SimpleTermCache.cs:14 | clearing one weak reference keeps the invariant and changes nothing else |
| TermCaches.GetOrStoreKeepsValid | src/Yargon.Terms.ATerms/SimpleTermCache.cs:31-35 | storing keeps one entry per class of equal terms with live targets equal to their keys, and returns a term equal to the one stored |
| TermCaches.FirstStore | src/Yargon.Terms.ATerms/SimpleTermCache.cs:31-35 | the first store of a term adds it as key and target, and returns that same instance |
| TermCaches.LaterStore | src/Yargon.Terms.ATerms/SimpleTermCache.cs:31-33 | a later store of an equal term returns the recorded target while it is alive, and changes nothing |
| TermCaches.StoreAfterCollect | src/Yargon.Terms.ATerms/SimpleTermCache.cs:34-35 | once the recorded target has been collected, the entry is re-pointed at the new term, which is returned |
| TermCaches.SameEntryFound | src/Yargon.Terms.ATerms/SimpleTermCache.cs:31 | the lookup of a term finds the one entry whose key it equals |
| TermCaches.GetOrStoreIdempotent | src/Yargon.Terms.ATerms/SimpleTermCache.cs:31-35 | storing the result of a store again returns that same instance and changes nothing |
| TermCaches.TargetsStayKeys | src/Yargon.Terms.ATerms/SimpleTermCache.cs:14-35 | without collection every target stays its own key, and the returned term is a recorded key |
| TermCaches.SecondStringGetsFirst | src/Yargon.Terms.ATerms/SimpleTermCache.cs:31-33 | an unannotated String term stored after another gets the first one back, and its own value is lost |
| TermCaches.NullCacheKeepsInstances | src/Yargon.Terms.ATerms/NullTermCache.cs:21-30 | the null cache never deduplicates: two distinct terms come back distinct |
| TypedTermFactory.ConstructorFailure | test/EntityLanguage.Tests/CodeGeneratorTests.cs:29-35 | a constructor delegate succeeds exactly when there are enough subterms, the first is a String term and the second has the type the node's constructor declares |
| TypedTermFactory.Construct | test/EntityLanguage.Tests/CodeGeneratorTests.cs:29-35 | a delegate raises the first failing cast's exception; otherwise it builds a new node with the subterms as its parts and the annotations given |
| TypedTermFactory.ATermFactory.constructor | src/Yargon.Terms.ATerms/ATermFactory.cs:36-47 | the factory keeps its cache and its own copy of the constructor table |
| TypedTermFactory.ATermFactory.Store | src/Yargon.Terms.ATerms/ATermFactory.cs:65 | hands the term to the cache: the null cache gives it back, the simple cache answers as `GetOrStoreSpec` |
| TypedTermFactory.ATermFactory.Create | src/Yargon.Terms.ATerms/ATermFactory.cs:51-66 | an unregistered type raises `InvalidOperationException` and a failing delegate its exception, leaving the cache untouched; otherwise the new node goes through the cache |
| TypedTermFactory.ATermFactory.Int | src/Yargon.Terms.ATerms/ATermFactory.cs:69-77 | a new Int term owned by this factory, with the value and annotations given, goes through the cache |
| TypedTermFactory.ATermFactory.String | src/Yargon.Terms.ATerms/ATermFactory.cs:80-90 | a new String term owned by this factory goes through the cache |
| TypedTermFactory.ATermFactory.List | src/Yargon.Terms.ATerms/ATermFactory.cs:93-107 | a new `ListTerm<T>` of the elements, owned by this factory, goes through the cache; the answer has the list's runtime type |
| CodeGeneration.CodeGenerator.constructor | src/EntityLanguage/CodeGenerator.cs:13-16 | the generator keeps the factory |
| CodeGeneration.CodeGenerator.ConcatThree | src/EntityLanguage/CodeGenerator.cs:31-40 | flattening three lists of String terms and concatenating gives their values in order |
| CodeGeneration.CodeGenerator.Generate | src/EntityLanguage/CodeGenerator.cs:18-27 | a module, entity or property term gives a String term, and any other term (a type term included) gives null; the text is `GeneratedText` |
| CodeGeneration.CodeGenerator.GenerateModule | src/EntityLanguage/CodeGenerator.cs:29-41 | the header lines, then the entities' texts in order, then `}` |
| CodeGeneration.CodeGenerator.GenerateEntity | src/EntityLanguage/CodeGenerator.cs:43-52 | `public class` and the name, the opening brace, the properties' texts in order, then the closing brace |
| CodeGeneration.CodeGenerator.GenerateProperty | src/EntityLanguage/CodeGenerator.cs:54-59 | `public`, the type's name, a space, the property's name and `;` with a CR LF line end |
| CodeGeneration.CodeGenerator.Concat | src/EntityLanguage/CodeGenerator.cs:61-71 | one unannotated String term holding the list's values concatenated in order |
| CodeGeneration.CodeGenerator.MapEntities | src/EntityLanguage/CodeGenerator.cs:73-78 | one text per entity, in order; concatenated, they are the entities' generated texts |
| CodeGeneration.CodeGenerator.MapProperties | src/EntityLanguage/CodeGenerator.cs:73-78 | one text per property, in order; concatenated, they are the properties' generated texts |
| CodeGeneration.CodeGenerator.Flatten | src/EntityLanguage/CodeGenerator.cs:86-90 | one list holding the sublists' elements, sublist after sublist |
| CodeGeneration.CodeGenerator.ConcatLists | src/EntityLanguage/CodeGenerator.cs:80-84 | one list holding the first list's elements, then the second's |
| CodeGeneration.ConcatValuesSplit | src/EntityLanguage/CodeGenerator.cs:65-68 | concatenating the values of two sequences is concatenating the two results |
| CodeGeneration.ConcatValuesLength | src/EntityLanguage/CodeGenerator.cs:63 | the concatenation's length is the sum of the values' lengths, the `StringBuilder`'s initial capacity |
| GeneratorExample.EntityWithTwoProperties | src/EntityLanguage/CodeGenerator.cs:43-52 | an entity with two properties generates its header, the two properties' texts and the closing brace |
| GeneratorExample.EntityWithoutProperties | src/EntityLanguage/CodeGenerator.cs:43-52 | an entity with no properties generates only its header and braces |
| GeneratorExample.ModuleWithTwoEntities | src/EntityLanguage/CodeGenerator.cs:29-41 | a module with two entities generates the header, the two entities' texts and the footer |
| GeneratorExample.SimpleTest | test/EntityLanguage.Tests/CodeGeneratorTests.cs:16-62 | module `X` with entity `A` (properties `a : A`, `b : B`) and an empty entity `B` generates exactly the C# text the test expects on Windows, with CR LF line ends |
| EntityAst.Type.Equals | src/EntityLanguage/Type.cs:13-17 | true exactly when the other type is not null and has the same name |
| EntityAst.Type.EqualsObject | src/EntityLanguage/Type.cs:32 | true exactly for a `Type` equal to this one; false for null and any other class |
| EntityAst.TypeEq | src/EntityLanguage/Type.cs:41 | `==` holds exactly for equal types or two nulls |
| EntityAst.TypeNe | src/EntityLanguage/Type.cs:50 | `!=` holds exactly when `==` does not |
| EntityAst.Property.Equals | src/EntityLanguage/Property.cs:14-19 | true exactly when the other property is not null, has the same name, and has a type equal by `Type.==` |
| EntityAst.Property.EqualsObject | src/EntityLanguage/Property.cs:35 | true exactly for a `Property` equal to this one |
| EntityAst.PropertyEq | src/EntityLanguage/Property.cs:44 | `==` holds exactly for equal properties or two nulls |
| EntityAst.PropertyNe | src/EntityLanguage/Property.cs:53 | `!=` holds exactly when `==` does not |
| EntityAst.PropertiesEqual | src/EntityLanguage/Entity.cs:19 | `SequenceEqual` of two property lists holds exactly for equal lists, pairwise and in order |
| EntityAst.Entity.Equals | src/EntityLanguage/Entity.cs:15-20 | true exactly when the other entity is not null, has the same name and has sequence-equal properties |
| EntityAst.Entity.EqualsObject | src/EntityLanguage/Entity.cs:36 | true exactly for an `Entity` equal to this one |
| EntityAst.EntityEq | src/EntityLanguage/Entity.cs:45 | `==` holds exactly for equal entities or two nulls |
| EntityAst.EntityNe | src/EntityLanguage/Entity.cs:54 | `!=` holds exactly when `==` does not |
| EntityAst.EntitiesEqual | src/EntityLanguage/Module.cs:19 | `SequenceEqual` of two entity lists holds exactly for equal lists, pairwise and in order |
| EntityAst.Module.Equals | src/EntityLanguage/Module.cs:15-20 | true exactly when the other module is not null, has the same name and has sequence-equal definitions |
| EntityAst.Module.EqualsObject | src/EntityLanguage/Module.cs:35 | true exactly for a `Module` equal to this one |
| EntityAst.ModuleEq | src/EntityLanguage/Module.cs:44 | `==` holds exactly for equal modules or two nulls |
| EntityAst.ModuleNe | src/EntityLanguage/Module.cs:53 | `!=` holds exactly when `==` does not |
| EntityAst.PropertyOrderMatters | src/EntityLanguage/Entity.cs:19 | two entities listing different properties in swapped order are not equal |

## Left out

- Floating point: a Real term keeps the digit strings it was read from (integral part, fraction, exponent). It does not keep a `float`.
  - The `Double.Parse`/`(float)` conversion, the Real term's epsilon equality, its hash and the text `float.ToString` writes are not modelled. The writer's Real text is the literal's digits.
- Streams, files and cultures. `TermTextReader.Read(Stream)`, `TermTextWriter.Write(Stream)`, the `ATermFormat` singleton and the culture argument are not modelled.
  - The model reads from a string, and `StringReader` and `StringWriter` are small classes over a `seq<char>`.
- Character classes: `Char.IsLetter`, `IsDigit`, `IsNumber` and `IsLetterOrDigit` follow the .NET tables on Latin-1 (U+0000..U+00FF) and are taken as false above it. `IsWhiteSpace` is exact.
  - `Char.IsDigit` is true for all of category Nd, but the model accepts ASCII `0`-`9` only. It misses the decimal digits of other scripts, such as U+0660..U+0669, U+06F0..U+06F9 and U+FF10..U+FF19. So on `\u` followed by four Arabic-Indic digits the model reports too few digits, where the source accepts the digit and then fails in `Int32.TryParse` with "Digits don't form a valid Unicode character escape sequence."; and a fraction made of such digits takes another path through `ReadFraction`.
  - The reader's hexadecimal digit test, `Chars.IsHexDigit` of the Virtlink utility library, is not part of this model. It is taken as ASCII `0-9`, `a-f` and `A-F`.
  - The real tables are foreign data.
- Hash codes:
  - The runtime's hash codes of factory objects, strings and floats are parameters (`ATerms.RuntimeHashes`).
  - The plain syntax classes' `GetHashCode` is not modelled. It uses the `List` reference hash, so two equal modules may hash differently.
- Concurrency and garbage collection. `SimpleTermCache` is sequential, and collection of a weak reference happens only through the explicit `Collect`.
- `null` arguments. Every `ArgumentNullException` guard is left out, because Dafny references and values are never null.
  - Null elements inside lists are also left out.
  - Where `null` is a value the code passes around (`Read`'s "no term", `Generate`'s null, the nullable operands of `==`), the model uses `Option`.
- The reference-equality shortcut of every `Equals`. It is folded into structural equality, which is sound because a term or syntax object always equals itself.
- The plain syntax classes are values. Their mutable properties, and aliasing between them, are not modelled.
- `AstBuilder` and the ANTLR parser the tests use. The generated lexer and parser are not part of this model.
  - The generator's test builds its module term directly, with the same shape the parser would give it.
- `TermFactory` and `TermFactoryExtensions` of `Yargon.Terms`. The first only throws `NotImplementedException`, and the second forwards to `ATermFactory`.
- The runtime's text for an `InvalidCastException` raised by a failing cast inside a constructor delegate. The model uses the target interface's name.
- `Map` and `Flatten` of the code generator are modelled for the element types the generator uses them with (entity and property terms, lists of String terms). They are not modelled as generic methods.
- CodeGeneration.CodeGenerator.Generate: the generated text is stated only for a factory with a `NullTermCache`, as in the test.
  - With a `SimpleTermCache`, all unannotated String terms are equal (see `TypedTermFacts.PayloadIgnored`), so the generator's own literals collapse to the first one stored. The model then states only that a String term comes back.
  - The same holds for `GenerateModule`, `GenerateEntity`, `GenerateProperty`, `Concat`, `MapEntities`, `MapProperties`, `Flatten`, `ConcatLists` and `ConcatThree`.
- ATermParsing.Read and the other reading functions carry only consumption facts in their own contracts. What they read is stated by the lemmas of `ATermReadingFacts` and `RoundTrip` about them.

## Behaviour as written

The model follows the code where the code and the design intent part ways.

- **Unicode escapes.** `\u0041` reads as U+0000 followed by the text `0041`. The digit loop peeks without consuming, so it sees the first digit four times and leaves all the digits in the input. In the same way, `\U` and a non-zero digit, and `\x` and the digit `d`, raise.
- **Numbers.**
  - `5.` at the very end of the input fails, because the fraction's digits are peeked for.
  - `5.` followed by another character is the Int 5.
  - An exponent after an empty fraction is read and then dropped.
  - Annotations after an Int are read but not attached to it.
- **Writer output the reader rejects.**
  - Negative Ints are written with a leading `-`, which `Read` does not accept.
  - `\v` and `\b` are written as escapes that `ReadString` rejects.
  - Cons names other than letter-led identifiers are written unescaped.
- **Typed term equality.** Int, String and list terms compare only their runtime type and annotations. So with a `SimpleTermCache`, two unannotated String terms collapse to the first one stored, and two modules are equal whatever their names and entities.
- **The generator's line ends.** The generator writes CR LF as literals. Its test normalises the expected text to `Environment.NewLine` (CodeGeneratorTests.cs:60), which is CR LF only on Windows, so on other platforms the test compares against LF line ends and fails. The model states the Windows expectation.
- **The `\U` escape and a debug assertion.** `ReadEscapedUnicode` asserts `minLength >= 0 && minLength < 8` (ATermReader.cs:228), but the `\U` escape reaches it through `ReadEscapedDecimalUnicode(reader, 8, 8)` (ATermReader.cs:168). A debug build stops on every `\U` escape. The model follows the release build, in which `Debug.Assert` does nothing, and allows a minimum of 8.
- **Typed term text.** `Term.ToString` is declared `public abstract string ToString();` without `override` (Term.cs:76), so it hides `Object.ToString`, and the subclasses' overrides fill the new slot. `String.Join<T>` in `ListTerm<T>.ToString` and the string interpolation in every node's `ToString` call the virtual `Object.ToString`, which gives the runtime type's full name. So a one-element list of an Int prints `[Yargon.Terms.ATerms.IntTerm]`, not the Int's value. The model prints those type names. The interfaces `ITerm`, `IStringTerm` and `IListTerm<T>` are declared in the namespace `Yargon.Terms` (src/Yargon.Terms/ITerm.cs:4), and the entity interfaces in `EntityLanguage`.
