/**
 * What `ATermReader` does at its edges, stated on the reading functions: white space and the end
 * of the input, the escape sequences of strings, the kinds of number, which characters start a
 * term, and how term sequences and annotations end.
 */
module ATermReadingFacts {
  import opened Wrappers
  import opened Exceptions
  import opened Text
  import opened ATerms
  import opened TrivialTermFactory
  import opened TextInput
  import opened ATermParsing
  import opened ATermWriter
  import StringEscaper
  import opened RoundTrip

  // ---------------------------------------------------------------- white space and the end of the input

  /** `ReadWhitespace` stops exactly after a run of white space when the character after it is not white space. */
  lemma SkipWhitespace(ws: string, input: string)
    requires forall i :: 0 <= i < |ws| ==> IsWhiteSpace(ws[i])
    requires input == [] || !IsWhiteSpace(input[0])
    ensures ReadWhitespace(ws + input).1 == input
  {
    var whole := ws + input;
    var rest := ReadWhitespace(whole).1;
    assert whole[|whole| - |input|..] == input;
  }

  /** `Read` finds no term exactly when nothing but white space remains, and then consumes it all. */
  lemma ReadNothing(input: string, f: TrivialTermFactory)
    ensures Read(input, f) == Success((None, [])) <==> forall i :: 0 <= i < |input| ==> IsWhiteSpace(input[i])
  {
  }

  /** White space before a term changes nothing about what `Read` gives. */
  lemma ReadAfterWhitespace(ws: string, input: string, f: TrivialTermFactory)
    requires forall i :: 0 <= i < |ws| ==> IsWhiteSpace(ws[i])
    requires input == [] || !IsWhiteSpace(input[0])
    ensures Read(ws + input, f) == Read(input, f)
  {
    SkipWhitespace(ws, input);
    SkipWhitespace([], input);
    assert [] + input == input;
  }

  // ---------------------------------------------------------------- escape sequences

  /** Each single-letter escape decodes to one character and consumes just its letter. */
  lemma SimpleEscapeRead(c: char, rest: string)
    requires SimpleEscape(c).Some?
    ensures c in "nrft\\'\""
    ensures ReadEscape([c] + rest) == Success(([SimpleEscape(c).value], rest))
  {
    Front(c, rest);
  }

  /** Any escape letter other than the single-letter ones and `u`, `U`, `x` is a parse error. */
  lemma UnrecognizedEscape(c: char, rest: string)
    requires c !in "nrft\\'\"uUx"
    ensures ReadEscape([c] + rest) == Failure(TermParseException("Unrecognized escape sequence: '\\" + [c] + "'."))
  {
    Front(c, rest);
  }

  /** Prefixes of a run of copies of one character are shorter runs. */
  lemma RepeatPrefix(d: char, n: nat)
    requires n > 0
    ensures Repeat(d, n)[..n - 1] == Repeat(d, n - 1) && Repeat(d, n)[n - 1] == d
  {
  }

  /** Four copies of a decimal digit `v` are worth `1111 * v`, eight copies `11111111 * v`. */
  lemma DecimalRepeatValue(d: char)
    requires IsDigit(d)
    ensures AllDigits(Repeat(d, 4), false) && DigitsValue(Repeat(d, 4), false) == 1111 * HexDigitValue(d)
    ensures AllDigits(Repeat(d, 8), false) && DigitsValue(Repeat(d, 8), false) == 11111111 * HexDigitValue(d)
  {
    var v := HexDigitValue(d);
    RepeatPrefix(d, 1);
    assert DigitsValue(Repeat(d, 1), false) == v;
    RepeatPrefix(d, 2);
    assert DigitsValue(Repeat(d, 2), false) == 11 * v;
    RepeatPrefix(d, 3);
    assert DigitsValue(Repeat(d, 3), false) == 111 * v;
    RepeatPrefix(d, 4);
    assert DigitsValue(Repeat(d, 4), false) == 1111 * v;
    RepeatPrefix(d, 5);
    assert DigitsValue(Repeat(d, 5), false) == 11111 * v;
    RepeatPrefix(d, 6);
    assert DigitsValue(Repeat(d, 6), false) == 111111 * v;
    RepeatPrefix(d, 7);
    assert DigitsValue(Repeat(d, 7), false) == 1111111 * v;
    RepeatPrefix(d, 8);
  }

  /** Four copies of a hexadecimal digit `v` are worth `0x1111 * v`. */
  lemma HexRepeatValue(d: char)
    requires IsHexDigit(d)
    ensures AllDigits(Repeat(d, 4), true) && DigitsValue(Repeat(d, 4), true) == 0x1111 * HexDigitValue(d)
  {
    var v := HexDigitValue(d);
    RepeatPrefix(d, 1);
    assert DigitsValue(Repeat(d, 1), true) == v;
    RepeatPrefix(d, 2);
    assert DigitsValue(Repeat(d, 2), true) == 0x11 * v;
    RepeatPrefix(d, 3);
    assert DigitsValue(Repeat(d, 3), true) == 0x111 * v;
    RepeatPrefix(d, 4);
  }

  /**
   * `\u` followed by a digit: the digit loop peeks the same digit four times, so the escape
   * stands for the character `1111 * digit`, and the digits stay in the input.
   */
  lemma ShortUnicodeEscape(d: char, rest: string)
    requires IsDigit(d)
    ensures ReadEscape(['u', d] + rest) == Success(([(1111 * HexDigitValue(d)) as char], [d] + rest))
  {
    DecimalRepeatValue(d);
    assert (['u', d] + rest)[1..] == [d] + rest;
  }

  /** `\U` followed by a digit other than `0` stands for a code point above U+10FFFF, which fails. */
  lemma LongUnicodeEscape(d: char, rest: string)
    requires IsDigit(d)
    ensures d == '0' ==> ReadEscape(['U', d] + rest) == Success(([0 as char], [d] + rest))
    ensures d != '0' ==> ReadEscape(['U', d] + rest) == Failure(ArgumentOutOfRangeException("utf32"))
  {
    DecimalRepeatValue(d);
    assert (['U', d] + rest)[1..] == [d] + rest;
  }

  /**
   * `\x` followed by a hexadecimal digit stands for `0x1111 * digit`; for the digit `d` that is
   * the surrogate U+DDDD, which fails.
   */
  lemma HexUnicodeEscape(d: char, rest: string)
    requires IsHexDigit(d)
    ensures HexDigitValue(d) != 13 ==> ReadEscape(['x', d] + rest) == Success(([(0x1111 * HexDigitValue(d)) as char], [d] + rest))
    ensures HexDigitValue(d) == 13 ==> ReadEscape(['x', d] + rest) == Failure(ArgumentOutOfRangeException("utf32"))
  {
    HexRepeatValue(d);
    assert (['x', d] + rest)[1..] == [d] + rest;
  }

  /** A Unicode escape with no digit after its letter reports how many digits were found: none. */
  lemma MissingUnicodeDigits(c: char, rest: string)
    requires !IsDigit(c)
    ensures ReadEscape(['u', c] + rest) == Failure(TermParseException(TooFewDigits(4, 0)))
    ensures ReadEscape(['U', c] + rest) == Failure(TermParseException(TooFewDigits(8, 0)))
  {
    assert (['u', c] + rest)[1..] == [c] + rest;
    assert (['U', c] + rest)[1..] == [c] + rest;
  }

  /** A character other than the quote or the backslash is copied into the string as it is. */
  lemma PlainStringChar(ch: char, next: char, rest: string, acc: string)
    requires ch != '"' && ch != '\\'
    ensures ReadStringChars(ch, [next] + rest, acc) == ReadStringChars(next, rest, acc + [ch])
  {
    Front(next, rest);
  }

  /** The four digits a `\\u` escape leaves unread are copied into the string. */
  lemma DigitsAfterEscape()
    ensures ReadStringChars('0', "041\"", "\U{0000}") == Success(("\U{0000}0041", []))
  {
    var value := "\U{0000}0041";
    assert "\U{0000}004" + ['1'] == value;
    PlainStringChar('1', '"', [], "\U{0000}004");
    assert ['"'] + [] == "\"";
    PlainStringChar('4', '1', "\"", "\U{0000}00");
    assert ['1'] + "\"" == "1\"" && "\U{0000}00" + ['4'] == "\U{0000}004";
    PlainStringChar('0', '4', "1\"", "\U{0000}0");
    assert ['4'] + "1\"" == "41\"" && "\U{0000}0" + ['0'] == "\U{0000}00";
    PlainStringChar('0', '0', "41\"", "\U{0000}");
    assert ['0'] + "41\"" == "041\"" && "\U{0000}" + ['0'] == "\U{0000}0";
  }

  /** `\\u0` decodes to U+0000 and the string goes on with the digits. */
  lemma EscapedZeroChars()
    ensures ReadStringChars('\\', "u0041\"", []) == Success(("\U{0000}0041", []))
  {
    var nul := "\U{0000}";
    ShortUnicodeEscape('0', "041\"");
    assert ['u', '0'] + "041\"" == "u0041\"";
    assert [(1111 * HexDigitValue('0')) as char] == nul;
    assert ReadOrFail(['0'] + "041\"") == Success(('0', "041\""));
    assert [] + nul == nul;
    DigitsAfterEscape();
  }

  lemma EscapedLetterAString(f: TrivialTermFactory)
    ensures ReadString("\"\\u0041\"", f) == Success((f.String("\U{0000}0041", []), []))
  {
    var text := "\"\\u0041\"";
    EscapedZeroChars();
    assert text[0] == '"' && text[1] == '\\' && text[2..] == "u0041\"";
  }

  /**
   * The string `"\\u0041"` reads as the character U+0000 followed by the text `0041`: the
   * escape consumes only its letter, and the digits are seen four times without being consumed.
   */
  lemma EscapedLetterA(f: TrivialTermFactory)
    ensures FromString("\"\\u0041\"", f) == Success(Some(f.String("\U{0000}0041", [])))
  {
    var text := "\"\\u0041\"";
    SkipWhitespace([], text);
    assert [] + text == text;
    EscapedLetterAString(f);
  }

  /** An escape letter the reader does not know stops the string with an error naming it. */
  lemma UnknownEscapeInString(letter: char, after: string, f: TrivialTermFactory)
    requires letter !in "nrft\\'\"uUx"
    ensures ReadString(['"', '\\', letter] + after, f)
         == Failure(TermParseException("Unrecognized escape sequence: '\\" + [letter] + "'."))
  {
    UnrecognizedEscape(letter, after);
    var input := ['"', '\\', letter] + after;
    assert input[0] == '"' && input[1] == '\\' && input[2..] == [letter] + after;
  }

  /** The written text of a string value that starts with `c`, and its escape. */
  lemma EscapedStringText(c: char, s: string, an: seq<Term>, g: object, rest: string)
    requires c in EscapeTable && |EscapeTable[c]| == 2
    ensures TermText(StringTerm([c] + s, an, g)) + rest
         == ['"', EscapeTable[c][0], EscapeTable[c][1]]
            + (StringEscaper.Escaped(s, EscapeTable) + "\"" + AnnotationsText(an, StringTerm([c] + s, an, g)) + rest)
  {
    var t := StringTerm([c] + s, an, g);
    var e, escaped, annotations := EscapeTable[c], StringEscaper.Escaped(s, EscapeTable), AnnotationsText(an, t);
    StringEscaper.EscapedCons(c, s, EscapeTable);
    assert TermText(t) == "\"" + (e + escaped) + "\"" + annotations;
    TwoCharacterEscape(e, escaped, annotations, rest);
  }

  /** Moving a two-character escape next to the opening quote. */
  lemma TwoCharacterEscape(e: string, escaped: string, annotations: string, rest: string)
    requires |e| == 2
    ensures "\"" + (e + escaped) + "\"" + annotations + rest == ['"', e[0], e[1]] + (escaped + "\"" + annotations + rest)
  {
    assert e == [e[0], e[1]];
    assert "\"" + (e + escaped) == ['"', e[0], e[1]] + escaped;
  }

  /** The writer escapes vertical tab and backspace as `\\v` and `\\b`, escapes the reader does not know. */
  lemma UnreadableEscapes(c: char, s: string, an: seq<Term>, g: object, rest: string, f: TrivialTermFactory)
    requires c == '\U{000B}' || c == '\U{0008}'
    ensures var letter := if c == '\U{000B}' then 'v' else 'b';
      EscapeTable[c] == ['\\', letter] &&
      ReadString(TermText(StringTerm([c] + s, an, g)) + rest, f)
        == Failure(TermParseException("Unrecognized escape sequence: '\\" + [letter] + "'."))
  {
    var letter := if c == '\U{000B}' then 'v' else 'b';
    assert EscapeTable[c] == ['\\', letter];
    EscapedStringText(c, s, an, g, rest);
    UnknownEscapeInString(letter, StringEscaper.Escaped(s, EscapeTable) + "\"" + AnnotationsText(an, StringTerm([c] + s, an, g)) + rest, f);
  }

  // ---------------------------------------------------------------- numbers

  /** The digits in front of a non-digit are read up to it. */
  lemma DigitsBefore(digits: string, rest: string)
    requires AllDigits(digits, false) && (rest == [] || !IsDigit(rest[0])) && digits + rest != []
    ensures ReadDigits(digits + rest) == Success((digits, rest))
  {
    SpanOfPrefix(digits, rest, IsDigit);
  }

  /**
   * Digits with no `.` after them make an Int. Its annotations are read, so a malformed one is an
   * error, but the Int is built without them; a value above `Int32.MaxValue` overflows.
   */
  lemma IntegerDropsAnnotations(digits: string, rest: string, f: TrivialTermFactory)
    requires digits != [] && AllDigits(digits, false)
    requires rest == [] || (!IsDigit(rest[0]) && rest[0] != '.')
    ensures ReadAnnotations(rest, f).Failure? ==> ReadNumber(digits + rest, f) == Failure(ReadAnnotations(rest, f).error)
    ensures ReadAnnotations(rest, f).Success? && DigitsValue(digits, false) <= Int32MaxValue ==>
      ReadNumber(digits + rest, f) == Success((f.IntWithoutAnnotations(DigitsValue(digits, false) as int32), ReadAnnotations(rest, f).value.1))
    ensures ReadAnnotations(rest, f).Success? && DigitsValue(digits, false) > Int32MaxValue ==>
      ReadNumber(digits + rest, f) == Failure(OverflowException)
  {
    DigitsBefore(digits, rest);
  }

  /** At the end of the input a `.` after the digits fails: the fraction's digits are peeked for. */
  lemma DotAtEnd(digits: string, f: TrivialTermFactory)
    requires AllDigits(digits, false)
    ensures ReadNumber(digits + ".", f) == Failure(UnexpectedEndOfStream)
  {
    DigitsBefore(digits, ".");
  }

  /** What `ReadNumber` gives once it has read integral digits and an empty fraction, and `after` remains. */
  function IntNumber(ints: string, after: string, f: TrivialTermFactory): Parsed<Term>
    requires ints != [] && AllDigits(ints, false)
  {
    var annotations :- ReadAnnotations(after, f);
    var value :- ParseInt32(ints);
    Success((f.IntWithoutAnnotations(value), annotations.1))
  }

  /** `ReadNumber` is `IntNumber` when the digits are followed by an empty fraction. */
  lemma IntNumberSteps(input: string, ints: string, afterInts: string, exp: string, after: string, f: TrivialTermFactory)
    requires ints != [] && AllDigits(ints, false)
    requires ReadDigits(input) == Success((ints, afterInts))
    requires ReadFraction(afterInts) == Success((("", exp), after))
    ensures ReadNumber(input, f) == IntNumber(ints, after, f)
  {
  }

  /** A `.` with no digits after it, and no exponent, changes nothing: the number is the Int the digits make. */
  lemma EmptyFraction(digits: string, rest: string, f: TrivialTermFactory)
    requires digits != [] && AllDigits(digits, false)
    requires rest != [] && !IsDigit(rest[0]) && rest[0] != '.' && rest[0] != 'e' && rest[0] != 'E'
    ensures ReadNumber(digits + "." + rest, f) == ReadNumber(digits + rest, f)
  {
    DigitsBefore(digits, "." + rest);
    DigitsBefore(digits, rest);
    DigitsBefore([], rest);
    assert digits + "." + rest == digits + ("." + rest);
    assert ("." + rest)[1..] == rest && [] + rest == rest;
    assert ReadFraction("." + rest) == Success((("", ""), rest));
    IntNumberSteps(digits + ("." + rest), digits, "." + rest, "", rest, f);
    IntNumberSteps(digits + rest, digits, rest, "", rest, f);
  }

  /** What `ReadFraction` reads of a `.` followed directly by an exponent. */
  lemma ExponentOnlyFraction(exp: string, rest: string)
    requires AllDigits(exp, false) && exp + rest != [] && (rest == [] || !IsDigit(rest[0]))
    ensures ReadFraction(".e" + exp + rest) == Success((("", exp), rest))
  {
    var afterDot := ['e'] + (exp + rest);
    var input := ['.'] + afterDot;
    assert ".e" + exp + rest == input;
    assert input[1..] == afterDot && afterDot[1..] == exp + rest;
    DigitsBefore([], afterDot);
    assert [] + afterDot == afterDot;
    assert TryPeekOneOf(afterDot, ['e', 'E']);
    DigitsBefore(exp, rest);
  }

  /** How the digits and the fraction split up the two inputs `ExponentWithoutFraction` compares. */
  lemma ExponentIntParts(digits: string, exp: string, rest: string, number: string)
    requires digits != [] && AllDigits(digits, false) && AllDigits(exp, false) && exp + rest != []
    requires rest == [] || (!IsDigit(rest[0]) && rest[0] != '.')
    requires number == ".e" + exp + rest
    ensures ReadDigits(digits + number) == Success((digits, number))
    ensures ReadFraction(number) == Success((("", exp), rest))
    ensures ReadDigits(digits + rest) == Success((digits, rest))
    ensures ReadFraction(rest) == Success((("", ""), rest))
  {
    ExponentOnlyFraction(exp, rest);
    assert number[0] == '.';
    DigitsBefore(digits, number);
    DigitsBefore(digits, rest);
  }

  /** An exponent after an empty fraction is read and then discarded: the number is still the Int of its digits. */
  lemma ExponentWithoutFraction(digits: string, exp: string, rest: string, f: TrivialTermFactory)
    requires digits != [] && AllDigits(digits, false) && AllDigits(exp, false) && exp + rest != []
    requires rest == [] || (!IsDigit(rest[0]) && rest[0] != '.')
    ensures ReadNumber(digits + ".e" + exp + rest, f) == ReadNumber(digits + rest, f)
  {
    var number := ".e" + exp + rest;
    Regroup4(digits, ".e", exp, rest);
    ExponentIntParts(digits, exp, rest, number);
    IntNumberSteps(digits + number, digits, number, exp, rest, f);
    IntNumberSteps(digits + rest, digits, rest, "", rest, f);
  }

  /** Fraction digits make a Real, which keeps its annotations; missing integral digits read as `0`. */
  lemma FractionMakesReal(ints: string, frac: string, rest: string, f: TrivialTermFactory)
    requires AllDigits(ints, false) && frac != [] && AllDigits(frac, false)
    requires rest == [] || (!IsDigit(rest[0]) && rest[0] != 'e' && rest[0] != 'E')
    ensures ReadAnnotations(rest, f).Success? ==>
      ReadNumber(ints + "." + frac + rest, f)
        == Success((f.Real(RealLiteral(if ints == [] then "0" else ints, frac, "0"), ReadAnnotations(rest, f).value.0),
                    ReadAnnotations(rest, f).value.1))
  {
    var afterDot := frac + rest;
    DigitsBefore(ints, "." + afterDot);
    DigitsBefore(frac, rest);
    assert ints + "." + frac + rest == ints + ("." + afterDot);
    assert ("." + afterDot)[1..] == afterDot;
  }

  /** A number character that is not a decimal digit, such as a superscript, starts a number that is not there. */
  lemma NonDigitNumber(c: char, rest: string, f: TrivialTermFactory)
    requires IsNumber(c) && !IsDigit(c)
    ensures Read([c] + rest, f) == Failure(TermParseException("Expected number, got something else."))
  {
    NoLeadingWhitespace([c] + rest);
    DigitsBefore([], [c] + rest);
    assert [] + ([c] + rest) == [c] + rest;
  }

  // ---------------------------------------------------------------- which characters start a term

  /** A character that is not white space and starts no kind of term is an error that names it. */
  lemma InvalidStart(c: char, rest: string, f: TrivialTermFactory)
    requires !IsWhiteSpace(c) && c != '[' && c != '(' && c != '"' && c != '<' && !IsNumber(c) && !IsLetter(c)
    ensures Read([c] + rest, f) == Failure(TermParseException("Invalid term starting with '" + [c] + "'."))
  {
    NoLeadingWhitespace([c] + rest);
  }

  /** The identifier characters other than letters may appear in a name but cannot start a term. */
  lemma SymbolStartsNoTerm(c: char, rest: string, f: TrivialTermFactory)
    requires IsValidIdentifierFirstChar(c) && !IsLetter(c)
    ensures c in "_-+*$"
    ensures Read([c] + rest, f) == Failure(TermParseException("Invalid term starting with '" + [c] + "'."))
  {
    InvalidStart(c, rest, f);
  }

  /** So the text the writer gives a negative Int, with its leading `-`, is not read back. */
  lemma NegativeIntRejected(v: int32, an: seq<Term>, g: object, rest: string, f: TrivialTermFactory)
    requires v < 0
    ensures Read(TermText(IntTerm(v, an, g)) + rest, f) == Failure(TermParseException("Invalid term starting with '" + ['-'] + "'."))
  {
    var s := TermText(IntTerm(v, an, g));
    assert s[0] == '-';
    assert s + rest == ['-'] + (s[1..] + rest);
    InvalidStart('-', s[1..] + rest, f);
  }

  /** `(` cannot start an identifier, so a tuple is read as a Cons with the empty name. */
  lemma TupleHasEmptyName(input: string, f: TrivialTermFactory)
    requires input != [] && input[0] == '('
    ensures Read(input, f).Success? ==>
      Read(input, f).value.0.Some? && Read(input, f).value.0.value.ConsTerm? && Read(input, f).value.0.value.name == []
  {
    NoLeadingWhitespace(input);
    assert !IsValidIdentifierFirstChar(input[0]);
    assert ReadIdentifier(input) == Success(([], input));
    assert ReadTuple(input, f) == ReadCons(input, f);
    if Read(input, f).Success? {
      assert ReadTuple(input, f).Success? && Read(input, f).value.0 == Some(ReadTuple(input, f).value.0);
    }
  }

  /** A name followed by nothing but white space runs out of input: a Cons peeks for its `(`. */
  lemma BareNameAtEnd(n: string, ws: string, f: TrivialTermFactory)
    requires n != [] && IsLetter(n[0]) && forall i :: 1 <= i < |n| ==> IsValidIdentifierChar(n[i])
    requires forall i :: 0 <= i < |ws| ==> IsWhiteSpace(ws[i])
    ensures Read(n + ws, f) == Failure(UnexpectedEndOfStream)
  {
    SpanOfPrefix(n[1..], ws, IsValidIdentifierChar);
    Front(n[0], n[1..] + ws);
    assert [n[0]] + n[1..] == n;
    Regroup3([n[0]], n[1..], ws);
    assert ReadIdentifier(n + ws) == Success((n, ws));
    SkipWhitespace(ws, []);
    assert ws + [] == ws;
    LetterStart(n[0]);
    NoLeadingWhitespace(n + ws);
  }

  // ---------------------------------------------------------------- annotations and sequences

  /**
   * Annotations are exactly the text from an immediately following `{`: anything else, white
   * space included, leaves the input as it was and gives no annotations.
   */
  lemma AnnotationsOnlyAfterBrace(input: string, f: TrivialTermFactory)
    ensures ReadAnnotations(input, f) == Success(([], input)) <==> !TryPeekChar(input, '{')
  {
    if TryPeekChar(input, '{') {
      assert ReadExpectedChar(input, '{', None) == Success(('{', input[1..]));
      var r := ReadTermSequence(input[1..], ',', '}', f);
      assert r.Success? ==> |r.value.1| < |input|;
    }
  }

  /** A sequence whose end character comes first, after any white space, is empty. */
  lemma EmptySequence(ws: string, separator: char, end: char, rest: string, f: TrivialTermFactory)
    requires forall i :: 0 <= i < |ws| ==> IsWhiteSpace(ws[i])
    requires !IsWhiteSpace(end)
    ensures ReadTermSequence(ws + [end] + rest, separator, end, f) == Success(([], rest))
  {
    SkipWhitespace(ws, [end] + rest);
    assert ws + [end] + rest == ws + ([end] + rest);
    assert ([end] + rest)[1..] == rest;
  }

  /** Past the white space, a character other than the end starts the first term. */
  lemma FirstItem(ws: string, c: char, separator: char, end: char, rest: string, f: TrivialTermFactory)
    requires forall i :: 0 <= i < |ws| ==> IsWhiteSpace(ws[i])
    requires !IsWhiteSpace(c) && c != end
    ensures ReadTermSequence(ws + [c] + rest, separator, end, f) == ReadTermSequenceItems([c] + rest, separator, end, [], f)
  {
    SkipWhitespace(ws, [c] + rest);
    assert ws + [c] + rest == ws + ([c] + rest);
  }

  /** A term that cannot be read stops the sequence with its error. */
  lemma ItemFails(input: string, separator: char, end: char, acc: seq<Term>, f: TrivialTermFactory)
    requires Read(input, f).Failure?
    ensures ReadTermSequenceItems(input, separator, end, acc, f) == Failure(Read(input, f).error)
  {
  }

  /** A character that closes some other sequence is taken for the start of a term, and no term starts with it. */
  lemma MismatchedClose(ws: string, c: char, separator: char, end: char, rest: string, f: TrivialTermFactory)
    requires forall i :: 0 <= i < |ws| ==> IsWhiteSpace(ws[i])
    requires c == ')' || c == ']' || c == '}' || c == '>'
    requires c != end
    ensures ReadTermSequence(ws + [c] + rest, separator, end, f)
         == Failure(TermParseException("Invalid term starting with '" + [c] + "'."))
  {
    FirstItem(ws, c, separator, end, rest, f);
    InvalidStart(c, rest, f);
    ItemFails([c] + rest, separator, end, [], f);
  }
}
