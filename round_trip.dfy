/**
 * Reading back what the writer writes. `ATermReader` recovers a term from the text `ATermWriter`
 * writes for it, leaving whatever follows, when the term is `Readable` by the reader's factory and
 * the text is followed by nothing, a separator or a closing bracket. Terms outside `Readable` do not
 * come back: reals (their float text is not modelled), negative or annotated Ints, strings holding
 * `\v` or `\b`, and cons names that the reader does not start a Cons with.
 */
module RoundTrip {
  import opened Wrappers
  import opened Text
  import opened ATerms
  import opened TrivialTermFactory
  import opened TextInput
  import opened ATermParsing
  import opened ATermWriter
  import StringEscaper

  /** What may follow a term's text: nothing, a separator, or the end of a list, tuple, placeholder or annotations. */
  predicate Closing(rest: string)
  {
    rest == [] || rest[0] == ',' || rest[0] == ')' || rest[0] == ']' || rest[0] == '>' || rest[0] == '}'
  }

  /** A cons name the reader gives back: a tuple's empty name, or a letter followed by identifier characters. */
  predicate ReadableName(n: string)
  {
    n == [] || (IsLetter(n[0]) && forall i :: 1 <= i < |n| ==> IsValidIdentifierChar(n[i]))
  }

  /** A string value without the two characters the writer escapes as `\v` and `\b`. */
  predicate ReadableText(s: string)
  {
    forall i :: 0 <= i < |s| ==> s[i] != '\U{000B}' && s[i] != '\U{0008}'
  }

  /** A list as `AbstractTermFactory.List` builds it: every cell after the first is unannotated. */
  predicate CanonicalList(l: List, f: object)
  {
    l.factory == f && (l.ListCell? ==> UnannotatedChain(l.tail, f))
  }

  /** The terms that survive writing and reading back through factory `f`, checked all the way down. */
  predicate Readable(t: Term, f: TrivialTermFactory)
    decreases t
  {
    match t
    case IntTerm(v, an, g) => g == f && v >= 0 && an == []
    case RealTerm(_, _, _) => false
    case StringTerm(s, an, g) =>
      g == f && ReadableText(s) && forall i :: 0 <= i < |an| ==> Readable(an[i], f)
    case ConsTerm(n, ts, an, g) =>
      g == f && ReadableName(n) && (forall i :: 0 <= i < |ts| ==> Readable(ts[i], f))
      && forall i :: 0 <= i < |an| ==> Readable(an[i], f)
    case ListTerm(l) =>
      ElementsSmaller(l);
      CanonicalList(l, f) && (forall i :: 0 <= i < |Elements(l)| ==> Readable(Elements(l)[i], f))
      && forall i :: 0 <= i < |l.annotations| ==> Readable(l.annotations[i], f)
    case PlaceholderTerm(tp, an, g) =>
      g == f && Readable(tp, f) && forall i :: 0 <= i < |an| ==> Readable(an[i], f)
  }

  // ---------------------------------------------------------------- facts about the pieces

  /** A span stops exactly after a prefix that passes the test when the character after it fails. */
  lemma {:induction false} SpanOfPrefix(p: string, rest: string, test: char -> bool)
    requires forall i :: 0 <= i < |p| ==> test(p[i])
    requires rest == [] || !test(rest[0])
    ensures Span(p + rest, test) == (p, rest)
    decreases |p|
  {
    if p != [] {
      assert (p + rest)[1..] == p[1..] + rest;
      SpanOfPrefix(p[1..], rest, test);
      assert [p[0]] + p[1..] == p;
    } else {
      assert p + rest == rest;
    }
  }

  lemma NoLeadingWhitespace(s: string)
    requires s != [] && !IsWhiteSpace(s[0])
    ensures ReadWhitespace(s) == (true, s)
  {
  }

  /** The text of a readable term is not empty and starts with a character that opens a term. */
  lemma TextStart(t: Term, f: TrivialTermFactory)
    requires Readable(t, f)
    ensures TermText(t) != []
    ensures var c := TermText(t)[0];
      !IsWhiteSpace(c) && c != ',' && c != ')' && c != ']' && c != '>' && c != '}'
  {
    match t
    case IntTerm(v, _, _) =>
      assert TermText(t) == NatText(v as int) + "";
    case StringTerm(_, _, _) =>
    case ConsTerm(n, _, _, _) =>
    case ListTerm(_) =>
    case PlaceholderTerm(_, _, _) =>
  }

  /** Two lists with the same elements, annotations and factory, both canonical, are the same list. */
  lemma {:induction false} SameCanonicalList(a: List, b: List, f: object)
    requires Elements(a) == Elements(b) && a.annotations == b.annotations && a.factory == b.factory
    requires a.ListCell? ==> UnannotatedChain(a.tail, f)
    requires b.ListCell? ==> UnannotatedChain(b.tail, f)
    ensures a == b
  {
    if a.ListCell? {
      assert b.ListCell?;
      assert a.head == Elements(a)[0] == Elements(b)[0] == b.head;
      assert Elements(a.tail) == Elements(a)[1..] == Elements(b)[1..] == Elements(b.tail);
      SameCanonicalList(a.tail, b.tail, f);
    } else {
      assert b.EmptyList?;
    }
  }

  /** Reading builds a list through `List`, which gives back every canonical list. */
  lemma ListOfCanonical(l: List, f: TrivialTermFactory)
    requires CanonicalList(l, f)
    ensures f.List(Elements(l), l.annotations) == l
  {
    SameCanonicalList(f.List(Elements(l), l.annotations), l, f);
  }

  /** The text of a list of terms, split after its first term. */
  lemma {:induction false} TermsListTextFront(terms: seq<Term>, separator: string, parent: Term)
    requires |terms| >= 2
    requires forall i :: 0 <= i < |terms| ==> terms[i] < parent
    ensures TermsListText(terms, separator, parent)
         == TermText(terms[0]) + separator + TermsListText(terms[1..], separator, parent)
    decreases |terms|
  {
    var n := |terms|;
    var init := terms[..n - 1];
    var first := TermText(terms[0]);
    var last := TermText(terms[n - 1]);
    assert TermsListText(terms, separator, parent) == TermsListText(init, separator, parent) + separator + last;
    if n == 2 {
      assert TermsListText(init, separator, parent) == first;
      assert TermsListText(terms[1..], separator, parent) == last;
    } else {
      TermsListTextFront(init, separator, parent);
      assert init[0] == terms[0] && init[1..] == terms[1..][..n - 2];
      var middle := TermsListText(init[1..], separator, parent);
      assert TermsListText(init, separator, parent) == first + separator + middle;
      assert TermsListText(terms[1..], separator, parent) == middle + separator + last;
      Reassociate(first, separator, middle, separator, last);
    }
  }

  // ---------------------------------------------------------------- solver helpers
  // Regroupings of string and sequence concatenation. They model nothing in the reader or the
  // writer; they only keep the round-trip proofs below small.

  lemma Regroup3(a: string, b: string, c: string)
    ensures a + b + c == a + (b + c)
  {
  }

  lemma Regroup4(a: string, b: string, c: string, d: string)
    ensures a + b + c + d == a + (b + c + d)
  {
  }

  lemma Regroup5(a: string, b: string, c: string, d: string, e: string)
    ensures a + b + c + d + e == a + (b + c + d + e)
  {
  }

  lemma Reassociate(a: string, b: string, c: string, d: string, e: string)
    ensures a + b + c + d + e == a + b + (c + d + e)
  {
  }

  lemma Resplit(a: string, b: string, c: string, d: string, e: string)
    ensures (a + b + c) + d + e == a + (b + (c + d + e))
  {
  }

  lemma Front(c: char, s: string)
    ensures ([c] + s)[0] == c && ([c] + s)[1..] == s
  {
  }

  lemma FrontOf(a: string, b: string)
    requires a != []
    ensures (a + b)[0] == a[0] && a + b != []
  {
  }

  lemma Pair(s: string, rest: string)
    requires |s| == 2
    ensures (s + rest)[0] == s[0] && (s + rest)[1..] == [s[1]] + rest
  {
    assert (s + rest)[1..] == s[1..] + rest;
    assert s[1..] == [s[1]];
  }

  lemma AppendFront<T>(acc: seq<T>, xs: seq<T>)
    requires xs != []
    ensures acc + [xs[0]] + xs[1..] == acc + xs
  {
    assert [xs[0]] + xs[1..] == xs;
  }

  lemma AppendOnly<T>(acc: seq<T>, xs: seq<T>)
    requires |xs| == 1
    ensures acc + [xs[0]] == acc + xs
  {
    assert [xs[0]] == xs;
  }

  lemma AppendNothing<T>(a: seq<T>)
    ensures a + [] == a && [] + a == a
  {
  }

  // ---------------------------------------------------------------- dispatch on the first character

  lemma ReadDispatch(input: string, f: TrivialTermFactory, t: Term, rest: string)
    requires input != [] && !IsWhiteSpace(input[0])
    requires input[0] == '[' ==> ReadList(input, f) == Success((t, rest))
    requires input[0] == '(' ==> ReadTuple(input, f) == Success((t, rest))
    requires input[0] == '"' ==> ReadString(input, f) == Success((t, rest))
    requires input[0] == '<' ==> ReadPlaceholder(input, f) == Success((t, rest))
    requires IsDigit(input[0]) ==> ReadNumber(input, f) == Success((t, rest))
    requires IsLetter(input[0]) ==> ReadCons(input, f) == Success((t, rest))
    requires input[0] == '[' || input[0] == '(' || input[0] == '"' || input[0] == '<' || IsDigit(input[0]) || IsLetter(input[0])
    ensures Read(input, f) == Success((Some(t), rest))
  {
    NoLeadingWhitespace(input);
  }

  lemma DispatchList(input: string, f: TrivialTermFactory, t: Term, rest: string)
    requires input != [] && input[0] == '[' && ReadList(input, f) == Success((t, rest))
    ensures Read(input, f) == Success((Some(t), rest))
  {
    ReadDispatch(input, f, t, rest);
  }

  lemma DispatchTuple(input: string, f: TrivialTermFactory, t: Term, rest: string)
    requires input != [] && input[0] == '(' && ReadCons(input, f) == Success((t, rest))
    ensures Read(input, f) == Success((Some(t), rest))
  {
    ReadDispatch(input, f, t, rest);
  }

  lemma DispatchString(input: string, f: TrivialTermFactory, t: Term, rest: string)
    requires input != [] && input[0] == '"' && ReadString(input, f) == Success((t, rest))
    ensures Read(input, f) == Success((Some(t), rest))
  {
    ReadDispatch(input, f, t, rest);
  }

  lemma DispatchPlaceholder(input: string, f: TrivialTermFactory, t: Term, rest: string)
    requires input != [] && input[0] == '<' && ReadPlaceholder(input, f) == Success((t, rest))
    ensures Read(input, f) == Success((Some(t), rest))
  {
    ReadDispatch(input, f, t, rest);
  }

  lemma DispatchNumber(input: string, f: TrivialTermFactory, t: Term, rest: string)
    requires input != [] && IsDigit(input[0]) && ReadNumber(input, f) == Success((t, rest))
    ensures Read(input, f) == Success((Some(t), rest))
  {
    ReadDispatch(input, f, t, rest);
  }

  lemma DispatchCons(input: string, f: TrivialTermFactory, t: Term, rest: string)
    requires input != [] && IsLetter(input[0]) && ReadCons(input, f) == Success((t, rest))
    ensures Read(input, f) == Success((Some(t), rest))
  {
    LetterStart(input[0]);
    ReadDispatch(input, f, t, rest);
  }

  /** A letter starts none of the other kinds of term and is not white space. */
  lemma LetterStart(c: char)
    requires IsLetter(c)
    ensures c != '[' && c != '(' && c != '"' && c != '<' && !IsNumber(c) && !IsWhiteSpace(c)
  {
  }

  /** `ReadTermSequence` once the white space before its first term is known to be absent. */
  lemma SequenceOpen(input: string, separator: char, end: char, f: TrivialTermFactory)
    requires input != [] && !IsWhiteSpace(input[0])
    ensures ReadTermSequence(input, separator, end, f)
         == if input[0] == end then Success(([], input[1..])) else ReadTermSequenceItems(input, separator, end, [], f)
  {
    NoLeadingWhitespace(input);
  }

  /** `ReadList` from what its three parts read. */
  lemma ListSteps(input: string, f: TrivialTermFactory, terms: seq<Term>, afterTerms: string, annotations: seq<Term>, rest: string)
    requires input != [] && input[0] == '['
    requires ReadTermSequence(input[1..], ',', ']', f) == Success((terms, afterTerms))
    requires ReadAnnotations(afterTerms, f) == Success((annotations, rest))
    ensures ReadList(input, f) == Success((ListTerm(f.List(terms, annotations)), rest))
  {
  }

  /** `ReadCons` from what its parts read, when a `(` follows the name. */
  lemma ConsSteps(input: string, f: TrivialTermFactory, name: string, afterName: string, terms: seq<Term>,
                  afterTerms: string, annotations: seq<Term>, rest: string)
    requires ReadIdentifier(input) == Success((name, afterName))
    requires afterName != [] && afterName[0] == '('
    requires ReadTermSequence(afterName[1..], ',', ')', f) == Success((terms, afterTerms))
    requires ReadAnnotations(afterTerms, f) == Success((annotations, rest))
    ensures ReadCons(input, f) == Success((f.Cons(name, terms, annotations), rest))
  {
    NoLeadingWhitespace(afterName);
  }

  /** `ReadPlaceholder` from what its parts read. */
  lemma PlaceholderSteps(input: string, f: TrivialTermFactory, template: Term, afterTemplate: string,
                         annotations: seq<Term>, rest: string)
    requires input != [] && input[0] == '<'
    requires Read(input[1..], f) == Success((Some(template), afterTemplate))
    requires afterTemplate != [] && afterTemplate[0] == '>'
    requires ReadAnnotations(afterTemplate[1..], f) == Success((annotations, rest))
    ensures ReadPlaceholder(input, f) == Success((f.Placeholder(template, annotations), rest))
  {
    NoLeadingWhitespace(afterTemplate);
  }

  /** `ReadString` from what its parts read. */
  lemma StringSteps(input: string, f: TrivialTermFactory, text: string, afterText: string, annotations: seq<Term>, rest: string)
    requires input != [] && input[0] == '"' && input[1..] != []
    requires ReadStringChars(input[1..][0], input[1..][1..], []) == Success((text, afterText))
    requires ReadAnnotations(afterText, f) == Success((annotations, rest))
    ensures ReadString(input, f) == Success((f.String(text, annotations), rest))
  {
  }

  /** `ReadNumber` of decimal digits followed by a closing character. */
  lemma IntSteps(digits: string, rest: string, f: TrivialTermFactory, v: int32)
    requires digits != [] && AllDigits(digits, false) && Closing(rest)
    requires ParseInt32(digits) == Success(v)
    ensures ReadNumber(digits + rest, f) == Success((f.IntWithoutAnnotations(v), rest))
  {
    SpanOfPrefix(digits, rest, IsDigit);
    FrontOf(digits, rest);
    assert ReadDigits(digits + rest) == Success((digits, rest));
    assert ReadFraction(rest) == Success((("", ""), rest));
    assert ReadAnnotations(rest, f) == Success(([], rest));
  }

  // ---------------------------------------------------------------- string contents

  /** Each entry the reader understands: a backslash and the letter `SimpleEscape` decodes back. */
  lemma EscapeEntry(c: char)
    requires c != '\U{000B}' && c != '\U{0008}'
    ensures c in EscapeTable ==>
      |EscapeTable[c]| == 2 && EscapeTable[c][0] == '\\' && SimpleEscape(EscapeTable[c][1]) == Some(c)
    ensures c !in EscapeTable ==> c != '"' && c != '\\' && StringEscaper.Replacement(c, EscapeTable) == [c]
  {
  }

  /** One character of the string: its escape, or itself, is read back as that character. */
  lemma ReadStringCharStep(c: char, next: string, acc: string)
    requires c != '\U{000B}' && c != '\U{0008}'
    requires next != []
    ensures var input := StringEscaper.Replacement(c, EscapeTable) + next;
      input != [] && ReadStringChars(input[0], input[1..], acc) == ReadStringChars(next[0], next[1..], acc + [c])
  {
    EscapeEntry(c);
    var rep := StringEscaper.Replacement(c, EscapeTable);
    assert ReadOrFail(next) == Success((next[0], next[1..]));
    if c in EscapeTable {
      Pair(rep, next);
      Front(rep[1], next);
      assert ReadEscape([rep[1]] + next) == Success(([c], next));
    } else {
      Front(c, next);
    }
  }

  /**
   * The loop of `ReadString` over the escaped text of `s` and the closing quote gives back `s`,
   * leaving what follows the quote.
   */
  lemma {:induction false} ReadStringCharsText(s: string, x: string, acc: string)
    requires ReadableText(s)
    ensures var input := StringEscaper.Escaped(s, EscapeTable) + "\"" + x;
      input != [] && ReadStringChars(input[0], input[1..], acc) == Success((acc + s, x))
    decreases |s|
  {
    var input := StringEscaper.Escaped(s, EscapeTable) + "\"" + x;
    if s == [] {
      assert StringEscaper.Escaped(s, EscapeTable) == [];
      AppendNothing("\"" + x);
      Front('"', x);
      AppendNothing(acc);
    } else {
      var c, tail := s[0], s[1..];
      assert s == [c] + tail;
      StringEscaper.EscapedCons(c, tail, EscapeTable);
      var rep := StringEscaper.Replacement(c, EscapeTable);
      var escapedTail := StringEscaper.Escaped(tail, EscapeTable);
      var next := escapedTail + "\"" + x;
      assert ReadableText(tail) by {
        forall i | 0 <= i < |tail| ensures tail[i] != '\U{000B}' && tail[i] != '\U{0008}' {
          assert tail[i] == s[i + 1];
        }
      }
      Regroup4(rep, escapedTail, "\"", x);
      assert input == rep + next;
      ReadStringCharsText(tail, x, acc + [c]);
      ReadStringCharStep(c, next, acc);
      AppendFront(acc, s);
    }
  }

  // ---------------------------------------------------------------- the round trip

  /** Reading the written text of a readable term gives the term back and leaves what follows. */
  lemma ReadText(t: Term, f: TrivialTermFactory, rest: string, input: string)
    requires Readable(t, f) && Closing(rest)
    requires input == TermText(t) + rest
    ensures Read(input, f) == Success((Some(t), rest))
    decreases t, 4
  {
    match t
    case IntTerm(_, _, _) => ReadIntText(t, f, rest, input);
    case StringTerm(_, _, _) => ReadStringText(t, f, rest, input);
    case ConsTerm(_, _, _, _) => ReadConsText(t, f, rest, input);
    case ListTerm(_) => ReadListText(t, f, rest, input);
    case PlaceholderTerm(_, _, _) => ReadPlaceholderText(t, f, rest, input);
  }

  lemma ReadIntText(t: Term, f: TrivialTermFactory, rest: string, input: string)
    requires t.IntTerm? && Readable(t, f) && Closing(rest)
    requires input == TermText(t) + rest
    ensures Read(input, f) == Success((Some(t), rest))
    decreases t, 3
  {
    IntTextSplit(t, f, rest, input);
    var digits := Int32Text(t.value);
    IntSteps(digits, rest, f, t.value);
    FrontOf(digits, rest);
    DispatchNumber(input, f, t, rest);
  }

  /** An Int text is the decimal digits of its non-negative value, which parse back to the value. */
  lemma IntTextSplit(t: Term, f: TrivialTermFactory, rest: string, input: string)
    requires t.IntTerm? && Readable(t, f)
    requires input == TermText(t) + rest
    ensures input == Int32Text(t.value) + rest && t == f.IntWithoutAnnotations(t.value)
    ensures AllDigits(Int32Text(t.value), false) && ParseInt32(Int32Text(t.value)) == Success(t.value)
  {
    assert TermText(t) == Int32Text(t.value) + "";
    AppendNothing(Int32Text(t.value));
    ParseInt32OfText(t.value);
  }

  lemma ReadStringText(t: Term, f: TrivialTermFactory, rest: string, input: string)
    requires t.StringTerm? && Readable(t, f) && Closing(rest)
    requires input == TermText(t) + rest
    ensures Read(input, f) == Success((Some(t), rest))
    decreases t, 3
  {
    var escaped := StringEscaper.Escaped(t.text, EscapeTable);
    var annotations := AnnotationsText(t.annotations, t);
    var after := annotations + rest;
    var inner := escaped + "\"" + after;
    Regroup5("\"", escaped, "\"", annotations, rest);
    Regroup3(escaped, "\"", annotations);
    assert input == "\"" + inner;
    Front('"', inner);
    ReadStringCharsText(t.text, after, []);
    AppendNothing(t.text);
    ReadAnnotationsText(t.annotations, t, f, rest, after);
    StringSteps(input, f, t.text, after, t.annotations, rest);
    DispatchString(input, f, t, rest);
  }

  /** A readable cons name followed by `(` is read as exactly that name. */
  lemma ReadNameText(n: string, after: string)
    requires ReadableName(n) && after != [] && after[0] == '('
    ensures ReadIdentifier(n + after) == Success((n, after))
  {
    if n == [] {
      AppendNothing(after);
    } else {
      SpanOfPrefix(n[1..], after, IsValidIdentifierChar);
      Front(n[0], n[1..] + after);
      assert [n[0]] + n[1..] == n;
      Regroup3([n[0]], n[1..], after);
    }
  }

  lemma ReadConsText(t: Term, f: TrivialTermFactory, rest: string, input: string)
    requires t.ConsTerm? && Readable(t, f) && Closing(rest)
    requires input == TermText(t) + rest
    ensures Read(input, f) == Success((Some(t), rest))
    decreases t, 3
  {
    var after := AnnotationsText(t.annotations, t) + rest;
    var args := TermsListText(t.subTerms, ",", t) + ")" + after;
    ConsTextSplit(t, rest, input);
    Front('(', args);
    ReadNameText(t.name, "(" + args);
    ReadSequenceText(t.subTerms, ')', t, f, after, args);
    ReadAnnotationsText(t.annotations, t, f, rest, after);
    ConsSteps(input, f, t.name, "(" + args, t.subTerms, after, t.annotations, rest);
    if t.name == [] {
      DispatchTuple(input, f, t, rest);
    } else {
      FrontOf(t.name, "(" + args);
      DispatchCons(input, f, t, rest);
    }
  }

  /** A cons text is its name, `(`, the arguments, `)` and the annotations. */
  lemma ConsTextSplit(t: Term, rest: string, input: string)
    requires t.ConsTerm? && input == TermText(t) + rest
    ensures input == t.name + ("(" + (TermsListText(t.subTerms, ",", t) + ")" + (AnnotationsText(t.annotations, t) + rest)))
  {
    var list := TermsListText(t.subTerms, ",", t);
    var annotations := AnnotationsText(t.annotations, t);
    Regroup5(t.name, "(", list, ")", annotations + rest);
    Regroup5(t.name + "(", list, ")", annotations, rest);
  }

  lemma ReadListText(t: Term, f: TrivialTermFactory, rest: string, input: string)
    requires t.ListTerm? && Readable(t, f) && Closing(rest)
    requires input == TermText(t) + rest
    ensures Read(input, f) == Success((Some(t), rest))
    decreases t, 3
  {
    var l := t.list;
    ElementsSmaller(l);
    var after := AnnotationsText(l.annotations, t) + rest;
    var elements := TermsListText(Elements(l), ",", t) + "]" + after;
    ListTextSplit(t, rest, input);
    Front('[', elements);
    ReadSequenceText(Elements(l), ']', t, f, after, elements);
    ReadAnnotationsText(l.annotations, t, f, rest, after);
    ListSteps(input, f, Elements(l), after, l.annotations, rest);
    ListOfCanonical(l, f);
    DispatchList(input, f, t, rest);
  }

  /** A list text is `[`, the elements, `]` and the annotations. */
  lemma ListTextSplit(t: Term, rest: string, input: string)
    requires t.ListTerm? && input == TermText(t) + rest
    ensures (ElementsSmaller(t.list);
      input == "[" + (TermsListText(Elements(t.list), ",", t) + "]" + (AnnotationsText(t.list.annotations, t) + rest)))
  {
    ElementsSmaller(t.list);
    var list := TermsListText(Elements(t.list), ",", t);
    var annotations := AnnotationsText(t.list.annotations, t);
    Regroup5("[", list, "]", annotations, rest);
    Regroup3(list, "]", annotations + rest);
  }

  lemma ReadPlaceholderText(t: Term, f: TrivialTermFactory, rest: string, input: string)
    requires t.PlaceholderTerm? && Readable(t, f) && Closing(rest)
    requires input == TermText(t) + rest
    ensures Read(input, f) == Success((Some(t), rest))
    decreases t, 3
  {
    var after := AnnotationsText(t.annotations, t) + rest;
    var inner := TermText(t.template) + (">" + after);
    PlaceholderTextSplit(t, rest, input);
    Front('<', inner);
    ReadText(t.template, f, ">" + after, inner);
    Front('>', after);
    ReadAnnotationsText(t.annotations, t, f, rest, after);
    PlaceholderSteps(input, f, t.template, ">" + after, t.annotations, rest);
    DispatchPlaceholder(input, f, t, rest);
  }

  /** A placeholder text is `<`, the template, `>` and the annotations. */
  lemma PlaceholderTextSplit(t: Term, rest: string, input: string)
    requires t.PlaceholderTerm? && input == TermText(t) + rest
    ensures input == "<" + (TermText(t.template) + (">" + (AnnotationsText(t.annotations, t) + rest)))
  {
    var template := TermText(t.template);
    var annotations := AnnotationsText(t.annotations, t);
    Regroup5("<", template, ">", annotations, rest);
    Regroup3(template, ">", annotations + rest);
  }

  /** The annotations text, whether empty or braced, is read back as the annotations. */
  lemma ReadAnnotationsText(annotations: seq<Term>, parent: Term, f: TrivialTermFactory, rest: string, input: string)
    requires forall i :: 0 <= i < |annotations| ==> annotations[i] < parent
    requires forall i :: 0 <= i < |annotations| ==> Readable(annotations[i], f)
    requires Closing(rest)
    requires input == AnnotationsText(annotations, parent) + rest
    ensures ReadAnnotations(input, f) == Success((annotations, rest))
    decreases parent, 2
  {
    if annotations == [] {
      assert AnnotationsText(annotations, parent) == "";
      AppendNothing(rest);
    } else {
      var list := TermsListText(annotations, ",", parent);
      var inner := list + "}" + rest;
      Regroup4("{", list, "}", rest);
      assert input == "{" + inner;
      Front('{', inner);
      ReadSequenceText(annotations, '}', parent, f, rest, inner);
    }
  }

  /** A term sequence's text and its end character are read back as the sequence. */
  lemma ReadSequenceText(terms: seq<Term>, end: char, parent: Term, f: TrivialTermFactory, rest: string, input: string)
    requires forall i :: 0 <= i < |terms| ==> terms[i] < parent
    requires forall i :: 0 <= i < |terms| ==> Readable(terms[i], f)
    requires end == ')' || end == ']' || end == '}'
    requires input == TermsListText(terms, ",", parent) + [end] + rest
    ensures ReadTermSequence(input, ',', end, f) == Success((terms, rest))
    decreases parent, 1
  {
    var list := TermsListText(terms, ",", parent);
    if terms == [] {
      assert list == [];
      AppendNothing([end] + rest);
      Front(end, rest);
      SequenceOpen(input, ',', end, f);
    } else {
      TextStart(terms[0], f);
      var first := TermText(terms[0]);
      if |terms| == 1 {
        assert list == first;
      } else {
        TermsListTextFront(terms, ",", parent);
        FrontOf(first, "," + TermsListText(terms[1..], ",", parent));
        Regroup3(first, ",", TermsListText(terms[1..], ",", parent));
      }
      assert list != [] && list[0] == first[0];
      Regroup3(list, [end], rest);
      FrontOf(list, [end] + rest);
      SequenceOpen(input, ',', end, f);
      ReadItemsText(terms, end, [], parent, f, rest, input);
      AppendNothing(terms);
    }
  }

  /** The do-while loop of `ReadTermSequence` reads one term per separator and stops at the end character. */
  lemma {:induction false} ReadItemsText(terms: seq<Term>, end: char, acc: seq<Term>, parent: Term, f: TrivialTermFactory,
                                         rest: string, input: string)
    requires |terms| >= 1
    requires forall i :: 0 <= i < |terms| ==> terms[i] < parent
    requires forall i :: 0 <= i < |terms| ==> Readable(terms[i], f)
    requires end == ')' || end == ']' || end == '}'
    requires input == TermsListText(terms, ",", parent) + [end] + rest
    ensures ReadTermSequenceItems(input, ',', end, acc, f) == Success((acc + terms, rest))
    decreases parent, 0, |terms|
  {
    if |terms| == 1 {
      LastItemText(terms, end, parent, rest, input);
      ItemsAfterLastText(input, end, acc, f, terms[0], rest);
      AppendOnly(acc, terms);
    } else {
      var tail := TermsListText(terms[1..], ",", parent) + [end] + rest;
      NextItemText(terms, end, parent, rest, input);
      ItemsAfterText(input, end, acc, f, terms[0], tail);
      ReadItemsText(terms[1..], end, acc + [terms[0]], parent, f, rest, tail);
      AppendFront(acc, terms);
    }
  }

  /** The text of a one-term sequence is that term's text. */
  lemma LastItemText(terms: seq<Term>, end: char, parent: Term, rest: string, input: string)
    requires |terms| == 1 && terms[0] < parent
    requires input == TermsListText(terms, ",", parent) + [end] + rest
    ensures input == TermText(terms[0]) + ([end] + rest)
  {
    assert TermsListText(terms, ",", parent) == TermText(terms[0]);
    Regroup3(TermText(terms[0]), [end], rest);
  }

  /** The text of a longer sequence is its first term's text, the separator and the text of the others. */
  lemma NextItemText(terms: seq<Term>, end: char, parent: Term, rest: string, input: string)
    requires |terms| >= 2
    requires forall i :: 0 <= i < |terms| ==> terms[i] < parent
    requires input == TermsListText(terms, ",", parent) + [end] + rest
    ensures input == TermText(terms[0]) + ("," + (TermsListText(terms[1..], ",", parent) + [end] + rest))
  {
    TermsListTextFront(terms, ",", parent);
    Resplit(TermText(terms[0]), ",", TermsListText(terms[1..], ",", parent), [end], rest);
  }

  /** A closing bracket is neither the separator nor white space. */
  lemma EndCharacter(end: char)
    requires end == ')' || end == ']' || end == '}'
    ensures end != ',' && !IsWhiteSpace(end)
  {
  }

  /** A readable term followed by the end character closes the sequence. */
  lemma ItemsAfterLastText(input: string, end: char, acc: seq<Term>, f: TrivialTermFactory, t: Term, rest: string)
    requires end == ')' || end == ']' || end == '}'
    requires Readable(t, f) && input == TermText(t) + ([end] + rest)
    ensures ReadTermSequenceItems(input, ',', end, acc, f) == Success((acc + [t], rest))
    decreases t, 5
  {
    EndCharacter(end);
    ReadText(t, f, [end] + rest, input);
    ItemsAfterLastTerm(input, end, acc, f, t, rest);
  }

  /** A readable term followed by the separator continues the sequence after the separator. */
  lemma ItemsAfterText(input: string, end: char, acc: seq<Term>, f: TrivialTermFactory, t: Term, tail: string)
    requires Readable(t, f) && input == TermText(t) + ("," + tail)
    ensures ReadTermSequenceItems(input, ',', end, acc, f) == ReadTermSequenceItems(tail, ',', end, acc + [t], f)
    decreases t, 5
  {
    ReadText(t, f, "," + tail, input);
    ItemsAfterTerm(input, end, acc, f, t, tail);
  }

  /** A term followed by the end character closes the sequence. */
  lemma ItemsAfterLastTerm(input: string, end: char, acc: seq<Term>, f: TrivialTermFactory, t: Term, rest: string)
    requires end != ',' && !IsWhiteSpace(end)
    requires Read(input, f) == Success((Some(t), [end] + rest))
    ensures ReadTermSequenceItems(input, ',', end, acc, f) == Success((acc + [t], rest))
  {
    ReadTermSequenceItemsStep(input, ',', end, acc, f, Some(t), [end] + rest);
    Front(end, rest);
    NoLeadingWhitespace([end] + rest);
  }

  /** A term followed by the separator continues the sequence after the separator. */
  lemma ItemsAfterTerm(input: string, end: char, acc: seq<Term>, f: TrivialTermFactory, t: Term, tail: string)
    requires Read(input, f) == Success((Some(t), "," + tail))
    ensures ReadTermSequenceItems(input, ',', end, acc, f) == ReadTermSequenceItems(tail, ',', end, acc + [t], f)
  {
    ReadTermSequenceItemsStep(input, ',', end, acc, f, Some(t), "," + tail);
    Front(',', tail);
    NoLeadingWhitespace("," + tail);
  }

  /** `FromString` of the text `ToString` gives for a readable term is that term. */
  lemma FromStringOfToString(t: Term, f: TrivialTermFactory)
    requires Readable(t, f)
    ensures FromString(TermText(t), f) == Success(Some(t))
  {
    AppendNothing(TermText(t));
    ReadText(t, f, [], TermText(t));
  }
}
