/**
 * What `ATermReader` reads, as functions of the input that remains. Every routine returns the
 * value read and the input left after it, or the exception the reader throws. Routines that call
 * each other recursively are ordered by the length of the remaining input and then by a rank.
 */
module ATermParsing {
  import opened Wrappers
  import opened Exceptions
  import opened Text
  import opened ATerms
  import opened TrivialTermFactory
  import opened TextInput

  /**
   * `IsValidIdentifierFirstChar`: a letter or one of `_ - + * $`. No digit and no white space
   * starts an identifier, so a number and a name are told apart by their first character.
   */
  function IsValidIdentifierFirstChar(c: char): (r: bool)
    ensures r ==> !IsDigit(c) && !IsWhiteSpace(c)
    ensures r && !IsLetter(c) <==> c in "_-+*$"
  {
    IsLetter(c) || c == '_' || c == '-' || c == '+' || c == '*' || c == '$'
  }

  /**
   * `IsValidIdentifierChar`: a letter, a digit or one of `_ - + * $`. Every character that can
   * start an identifier can continue it, and white space ends it.
   */
  function IsValidIdentifierChar(c: char): (r: bool)
    ensures IsValidIdentifierFirstChar(c) ==> r
    ensures IsDigit(c) ==> r
    ensures IsWhiteSpace(c) ==> !r
  {
    IsLetterOrDigit(c) || c == '_' || c == '-' || c == '+' || c == '*' || c == '$'
  }

  /** The longest prefix of `input` whose characters all pass `test`, and what follows it. */
  function Span(input: string, test: char -> bool): (r: (string, string))
    ensures r.0 + r.1 == input
    ensures r.1 == [] || !test(r.1[0])
  {
    if input != [] && test(input[0]) then
      var rest := Span(input[1..], test);
      ([input[0]] + rest.0, rest.1)
    else
      ([], input)
  }

  /** Every character of the prefix passes the test. */
  lemma {:induction false} SpanPasses(input: string, test: char -> bool)
    ensures forall i :: 0 <= i < |Span(input, test).0| ==> test(Span(input, test).0[i])
  {
    if input != [] && test(input[0]) {
      SpanPasses(input[1..], test);
    }
  }

  /** Taking one more passing character off the front moves it from the rest to the prefix. */
  lemma SpanStep(acc: string, s: string, test: char -> bool)
    requires s != [] && test(s[0])
    ensures (acc + [s[0]]) + Span(s[1..], test).0 == acc + Span(s, test).0
    ensures Span(s[1..], test).1 == Span(s, test).1
  {
    assert acc + Span(s, test).0 == acc + ([s[0]] + Span(s[1..], test).0);
  }

  /**
   * `ReadWhitespace`: skips white space; true when a character follows it, false when the end of
   * the input was reached.
   */
  function ReadWhitespace(input: string): (r: (bool, string))
    ensures r.0 <==> r.1 != []
    ensures r.1 == [] || !IsWhiteSpace(r.1[0])
    ensures |r.1| <= |input| && input[|input| - |r.1|..] == r.1
    ensures forall i :: 0 <= i < |input| - |r.1| ==> IsWhiteSpace(input[i])
  {
    var s := Span(input, IsWhiteSpace);
    SpanPasses(input, IsWhiteSpace);
    assert input[|s.0|..] == s.1;
    (s.1 != [], s.1)
  }

  /** `ReadDigits`: the digits at the front of the input, possibly none; fails at the end of the input. */
  function ReadDigits(input: string): (r: Parsed<string>)
    ensures r.Failure? <==> input == []
    ensures r.Failure? ==> r.error == UnexpectedEndOfStream
    ensures r.Success? ==> r.value.0 + r.value.1 == input && AllDigits(r.value.0, false)
    ensures r.Success? ==> r.value.1 == [] || !IsDigit(r.value.1[0])
  {
    var _ :- PeekOrFail(input);
    SpanPasses(input, IsDigit);
    Success(Span(input, IsDigit))
  }

  /**
   * `ReadIdentifier`: an identifier start followed by identifier characters, or the empty string
   * when the next character cannot start one; fails at the end of the input.
   */
  function ReadIdentifier(input: string): (r: Parsed<string>)
    ensures r.Failure? <==> input == []
    ensures r.Failure? ==> r.error == UnexpectedEndOfStream
    ensures r.Success? ==> r.value.0 + r.value.1 == input
    ensures r.Success? ==> (r.value.0 == [] <==> !IsValidIdentifierFirstChar(input[0]))
    ensures r.Success? && r.value.0 != [] ==> forall i :: 1 <= i < |r.value.0| ==> IsValidIdentifierChar(r.value.0[i])
    ensures r.Success? && r.value.0 != [] ==> r.value.1 == [] || !IsValidIdentifierChar(r.value.1[0])
  {
    var first :- PeekOrFail(input);
    if IsValidIdentifierFirstChar(first) then
      var rest := Span(input[1..], IsValidIdentifierChar);
      SpanPasses(input[1..], IsValidIdentifierChar);
      assert [input[0]] + rest.0 + rest.1 == input;
      Success(([first] + rest.0, rest.1))
    else
      Success(([], input))
  }

  /** `c` repeated `n` times. */
  function Repeat(c: char, n: nat): (s: string)
    ensures |s| == n && forall i :: 0 <= i < n ==> s[i] == c
  {
    if n == 0 then [] else Repeat(c, n - 1) + [c]
  }

  /**
   * The digits the escape loop collects: it peeks `maxLength` times without consuming, so it sees
   * the first character each time and collects it `maxLength` times, or nothing when it is not a digit.
   */
  function EscapeDigits(first: char, validator: char -> bool, maxLength: nat): (s: string)
    ensures validator(first) ==> s == Repeat(first, maxLength)
    ensures !validator(first) ==> s == []
  {
    if validator(first) then Repeat(first, maxLength) else []
  }

  /** The message of a Unicode escape with fewer digits than it needs. */
  function TooFewDigits(minLength: nat, found: nat): string
  {
    "Expected at least " + NatText(minLength) + " digits to form a Unicode character escape sequence, found " + NatText(found) + "."
  }

  /**
   * `ReadEscapedUnicode`: the character(s) denoted by the digits the loop collects. Consumes
   * nothing, so the digits remain in the input.
   */
  function ReadEscapedUnicode(input: string, validator: char -> bool, hex: bool, minLength: nat, maxLength: nat): (r: Result<string, Exception>)
    requires minLength <= 8 && 0 < maxLength <= 8
    ensures input == [] ==> r == Failure(UnexpectedEndOfStream)
    ensures input != [] && |EscapeDigits(input[0], validator, maxLength)| < minLength ==>
      r == Failure(TermParseException(TooFewDigits(minLength, |EscapeDigits(input[0], validator, maxLength)|)))
    ensures r.Success? ==> input != [] && validator(input[0]) && |r.value| == 1
  {
    var first :- PeekOrFail(input);
    var sb := EscapeDigits(first, validator, maxLength);
    if |sb| < minLength then
      Failure(TermParseException(TooFewDigits(minLength, |sb|)))
    else
      match TryParseInt32(sb, hex)
      case None => Failure(TermParseException("Digits don't form a valid Unicode character escape sequence."))
      case Some(result) => ConvertFromUtf32(result as int)
  }

  function ReadEscapedDecimalUnicode(input: string, minLength: nat, maxLength: nat): (r: Result<string, Exception>)
    requires minLength <= 8 && 0 < maxLength <= 8
    ensures r == ReadEscapedUnicode(input, IsDigit, false, minLength, maxLength)
  {
    ReadEscapedUnicode(input, IsDigit, false, minLength, maxLength)
  }

  function ReadEscapedHexadecimalUnicode(input: string, minLength: nat, maxLength: nat): (r: Result<string, Exception>)
    requires minLength <= 8 && 0 < maxLength <= 8
    ensures r == ReadEscapedUnicode(input, IsHexDigit, true, minLength, maxLength)
  {
    ReadEscapedUnicode(input, IsHexDigit, true, minLength, maxLength)
  }

  /**
   * The character a single-letter escape stands for. Exactly the letters `n r f t \ ' "` have
   * one: new line, carriage return, form feed, tab, backslash and the two quotes.
   */
  function SimpleEscape(c: char): (r: Option<char>)
    ensures r.Some? <==> c in "nrft\\'\""
    ensures r.Some? ==> r.value in "\n\r\U{000C}\t\\'\""
  {
    match c
    case 'n' => Some('\n')
    case 'r' => Some('\r')
    case 'f' => Some('\U{000C}')
    case 't' => Some('\t')
    case '\\' => Some('\\')
    case '\'' => Some('\'')
    case '"' => Some('"')
    case _ => None
  }

  /**
   * One escape sequence after its backslash: the text it appends and the input after the escape
   * letter (a Unicode escape leaves its digits unread).
   */
  function ReadEscape(input: string): (r: Parsed<string>)
    ensures r.Success? ==> |r.value.1| < |input|
  {
    var p :- ReadOrFail(input);
    var ch, rest := p.0, p.1;
    match SimpleEscape(ch)
    case Some(c) => Success(([c], rest))
    case None =>
      if ch == 'u' then
        var s :- ReadEscapedDecimalUnicode(rest, 4, 4);
        Success((s, rest))
      else if ch == 'U' then
        var s :- ReadEscapedDecimalUnicode(rest, 8, 8);
        Success((s, rest))
      else if ch == 'x' then
        var s :- ReadEscapedHexadecimalUnicode(rest, 1, 4);
        Success((s, rest))
      else
        Failure(TermParseException("Unrecognized escape sequence: '\\" + [ch] + "'."))
  }

  /**
   * The loop of `ReadString`: `ch` is the character just read, `acc` the text so far. It stops at
   * the closing quote, which it consumes.
   */
  function ReadStringChars(ch: char, input: string, acc: string): (r: Parsed<string>)
    ensures r.Success? ==> |r.value.1| <= |input|
    decreases |input|
  {
    if ch == '"' then Success((acc, input))
    else
      var step :- if ch == '\\' then ReadEscape(input) else Success(([ch], input));
      var p :- ReadOrFail(step.1);
      ReadStringChars(p.0, p.1, acc + step.0)
  }

  /** The character that tells `Read` which kind of term follows. */
  function Read(input: string, f: TrivialTermFactory): (r: Parsed<Option<Term>>)
    ensures r.Success? ==> |r.value.1| <= |input|
    ensures r.Success? && r.value.0.None? ==> r.value.1 == []
    ensures r.Success? && r.value.0.Some? ==> |r.value.1| < |input|
    decreases |input|, 4
  {
    var ws := ReadWhitespace(input);
    if !ws.0 then Success((None, ws.1))
    else
      // The peek cannot fail here: a character follows the white space.
      var ch := ws.1[0];
      var t :-
        if ch == '[' then ReadList(ws.1, f)
        else if ch == '(' then ReadTuple(ws.1, f)
        else if ch == '"' then ReadString(ws.1, f)
        else if ch == '<' then ReadPlaceholder(ws.1, f)
        else if IsNumber(ch) then ReadNumber(ws.1, f)
        else if IsLetter(ch) then ReadCons(ws.1, f)
        else Failure(TermParseException("Invalid term starting with '" + [ch] + "'."));
      Success((Some(t.0), t.1))
  }

  function ReadList(input: string, f: TrivialTermFactory): (r: Parsed<Term>)
    ensures r.Success? ==> |r.value.1| < |input|
    decreases |input|, 2
  {
    var open :- ReadExpectedChar(input, '[', Some("list"));
    var terms :- ReadTermSequence(open.1, ',', ']', f);
    var annotations :- ReadAnnotations(terms.1, f);
    Success((ListTerm(f.List(terms.0, annotations.0)), annotations.1))
  }

  function ReadTuple(input: string, f: TrivialTermFactory): (r: Parsed<Term>)
    ensures r.Success? ==> |r.value.1| <= |input|
    ensures r.Success? && input != [] && input[0] == '(' ==> |r.value.1| < |input|
    decreases |input|, 3
  {
    ReadCons(input, f)
  }

  function ReadString(input: string, f: TrivialTermFactory): (r: Parsed<Term>)
    ensures r.Success? ==> |r.value.1| < |input|
    decreases |input|, 2
  {
    var open :- ReadExpectedChar(input, '"', Some("string"));
    var first :- ReadOrFail(open.1);
    var text :- ReadStringChars(first.0, first.1, []);
    var annotations :- ReadAnnotations(text.1, f);
    Success((f.String(text.0, annotations.0), annotations.1))
  }

  /** The fraction and exponent digits that follow the integral digits, when a `.` comes next. */
  function ReadFraction(input: string): (r: Parsed<(string, string)>)
    ensures r.Success? ==> |r.value.1| <= |input|
    ensures !TryPeekChar(input, '.') ==> r == Success((("", ""), input))
    ensures r.Success? ==> AllDigits(r.value.0.0, false)
  {
    if TryPeekChar(input, '.') then
      // Each `ReadExpected` here follows a successful peek of the same character, so it succeeds.
      assert ReadExpectedOneOf(input, ['.']) == Success(('.', input[1..]));
      var frac :- ReadDigits(input[1..]);
      if TryPeekOneOf(frac.1, ['e', 'E']) then
        assert ReadExpectedOneOf(frac.1, ['e', 'E']) == Success((frac.1[0], frac.1[1..]));
        var exp :- ReadDigits(frac.1[1..]);
        Success(((frac.0, exp.0), exp.1))
      else
        Success(((frac.0, ""), frac.1))
    else
      Success((("", ""), input))
  }

  function ReadNumber(input: string, f: TrivialTermFactory): (r: Parsed<Term>)
    ensures r.Success? ==> |r.value.1| < |input|
    decreases |input|, 2
  {
    var ints :- ReadDigits(input);
    var fraction :- ReadFraction(ints.1);
    var frac, exp := fraction.0.0, fraction.0.1;
    if ints.0 == [] && frac == [] then
      Failure(TermParseException("Expected number, got something else."))
    else
      var annotations :- ReadAnnotations(fraction.1, f);
      if frac != [] then
        var literal := RealLiteral(if ints.0 == [] then "0" else ints.0, frac, if exp == [] then "0" else exp);
        Success((f.Real(literal, annotations.0), annotations.1))
      else
        var value :- ParseInt32(ints.0);
        Success((f.IntWithoutAnnotations(value), annotations.1))
  }

  function ReadPlaceholder(input: string, f: TrivialTermFactory): (r: Parsed<Term>)
    ensures r.Success? ==> |r.value.1| < |input|
    decreases |input|, 2
  {
    var open :- ReadExpectedChar(input, '<', Some("placeholder start"));
    var template :- Read(open.1, f);
    var ws := ReadWhitespace(template.1);
    var close :- ReadExpectedChar(ws.1, '>', Some("placeholder end"));
    var annotations :- ReadAnnotations(close.1, f);
    Success((f.Placeholder(template.0.value, annotations.0), annotations.1))
  }

  /** A Cons consumes at least one character when it starts with a name or with `(`. */
  function ReadCons(input: string, f: TrivialTermFactory): (r: Parsed<Term>)
    ensures r.Success? ==> |r.value.1| <= |input|
    ensures r.Success? && input != [] && (IsValidIdentifierFirstChar(input[0]) || input[0] == '(') ==> |r.value.1| < |input|
    ensures r.Success? ==>
              r.value.0.ConsTerm? && ReadIdentifier(input).Success? && r.value.0.name == ReadIdentifier(input).value.0
    decreases |input|, 2
  {
    var name :- ReadIdentifier(input);
    var ws := ReadWhitespace(name.1);
    var ch :- PeekOrFail(ws.1);
    var terms :-
      if ch == '(' then
        // The peek has just seen `(`, so reading it succeeds.
        assert ReadExpectedChar(ws.1, '(', None) == Success(('(', ws.1[1..]));
        ReadTermSequence(ws.1[1..], ',', ')', f)
      else
        Success(([], ws.1));
    var annotations :- ReadAnnotations(terms.1, f);
    Success((f.Cons(name.0, terms.0, annotations.0), annotations.1))
  }

  /** Annotations are read only when `{` is the very next character. */
  function ReadAnnotations(input: string, f: TrivialTermFactory): (r: Parsed<seq<Term>>)
    ensures r.Success? ==> |r.value.1| <= |input|
    ensures !TryPeekChar(input, '{') ==> r == Success(([], input))
    decreases |input|, 1
  {
    if !TryPeekChar(input, '{') then Success(([], input))
    else
      var open :- ReadExpectedChar(input, '{', None);
      ReadTermSequence(open.1, ',', '}', f)
  }

  /** `ReadTermSequence`: terms separated by `separator` up to and including `end`. */
  function ReadTermSequence(input: string, separator: char, end: char, f: TrivialTermFactory): (r: Parsed<seq<Term>>)
    ensures r.Success? ==> |r.value.1| < |input|
    decreases |input|, 6
  {
    var ws := ReadWhitespace(input);
    var ch :- PeekOrFail(ws.1);
    if ch == end then
      var close :- ReadExpectedChar(ws.1, end, None);
      Success(([], close.1))
    else
      ReadTermSequenceItems(ws.1, separator, end, [], f)
  }

  /** The do-while loop of `ReadTermSequence`: `acc` holds the terms read so far. */
  function ReadTermSequenceItems(input: string, separator: char, end: char, acc: seq<Term>, f: TrivialTermFactory): (r: Parsed<seq<Term>>)
    ensures r.Success? ==> |r.value.1| < |input|
    decreases |input|, 5
  {
    var term :- Read(input, f);
    var ws := ReadWhitespace(term.1);
    var next :- ReadOrFail(ws.1);
    var terms := acc + [term.0.value];
    if next.0 == separator then ReadTermSequenceItems(next.1, separator, end, terms, f)
    else SequenceEnd(next.0, end, terms, next.1)
  }

  /** After the last term: the character read must be the end character. */
  function SequenceEnd(ch: char, end: char, terms: seq<Term>, rest: string): (r: Parsed<seq<Term>>)
    ensures r.Success? <==> ch == end
  {
    if ch != end then Failure(TermParseException("Term sequence didn't end with '" + [end] + "': '" + [ch] + "'."))
    else Success((terms, rest))
  }

  /** `FromString`: the first term of a string, or nothing when the string holds only white space. */
  function FromString(text: string, f: TrivialTermFactory): (r: Result<Option<Term>, Exception>)
    ensures r.Success? <==> Read(text, f).Success?
    ensures r.Success? ==> r.value == Read(text, f).value.0
  {
    var p :- Read(text, f);
    Success(p.0)
  }

  /** One pass of the `ReadTermSequence` loop, for a read term, the white space after it and the next character. */
  lemma ReadTermSequenceItemsStep(input: string, separator: char, end: char, acc: seq<Term>, f: TrivialTermFactory,
                                  term: Option<Term>, afterTerm: string)
    requires Read(input, f) == Success((term, afterTerm))
    ensures ReadOrFail(ReadWhitespace(afterTerm).1).Failure? ==>
      ReadTermSequenceItems(input, separator, end, acc, f) == Failure(UnexpectedEndOfStream)
    ensures ReadOrFail(ReadWhitespace(afterTerm).1).Success? ==>
      (term.Some? &&
       var next := ReadOrFail(ReadWhitespace(afterTerm).1).value;
       ReadTermSequenceItems(input, separator, end, acc, f) ==
         if next.0 == separator then ReadTermSequenceItems(next.1, separator, end, acc + [term.value], f)
         else SequenceEnd(next.0, end, acc + [term.value], next.1))
  {
  }
}
