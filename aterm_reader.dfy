/**
 * `ATermReader`: the recursive-descent reader, as methods that advance a `TextReader`. Each method
 * is proved to agree with its `ATermParsing` function applied to the input that remained when it
 * was called: the same value, the same remaining input, or the same exception.
 */
module ATermReader {
  import opened Wrappers
  import opened Exceptions
  import opened Text
  import opened ATerms
  import opened TrivialTermFactory
  import opened TextReaderExtensions
  import TextInput
  import P = ATermParsing

  class ATermReader {
    const termFactory: TrivialTermFactory

    constructor(termFactory: TrivialTermFactory)
      ensures this.termFactory == termFactory
    {
      this.termFactory := termFactory;
    }

    /** Skips white space; false when the end of the input was reached. */
    method ReadWhitespace(reader: TextReader) returns (more: bool)
      requires reader.Valid()
      modifies reader
      ensures reader.Valid()
      ensures (more, reader.Remaining()) == P.ReadWhitespace(old(reader.Remaining()))
    {
      ghost var spec := P.ReadWhitespace(reader.Remaining());
      var ch := reader.Peek();
      if ch == -1 {
        return false;
      }
      while IsWhiteSpace(ch as char)
        invariant reader.Valid()
        invariant reader.Remaining() != [] && ch == reader.Remaining()[0] as int
        invariant P.ReadWhitespace(reader.Remaining()) == spec
        decreases |reader.Remaining()|
      {
        var _ := reader.Read();
        ch := reader.Peek();
        if ch == -1 {
          return false;
        }
      }
      return true;
    }

    /** Reads the digits at the front of the input; the first peek fails at the end of the input. */
    method ReadDigits(reader: TextReader) returns (r: Result<string, Exception>)
      requires reader.Valid()
      modifies reader
      ensures reader.Valid()
      ensures TextInput.Agrees(r, P.ReadDigits(old(reader.Remaining())), reader.Remaining())
    {
      ghost var input := reader.Remaining();
      ghost var span := P.Span(input, IsDigit);
      var sb := "";
      var ch :- PeekOrFail(reader);
      while IsDigit(ch)
        invariant reader.Valid()
        invariant reader.Remaining() != [] && ch == reader.Remaining()[0]
        invariant sb + P.Span(reader.Remaining(), IsDigit).0 == span.0
        invariant P.Span(reader.Remaining(), IsDigit).1 == span.1
        decreases |reader.Remaining()|
      {
        P.SpanStep(sb, reader.Remaining(), IsDigit);
        var read := ReadOrFail(reader);
        ch := read.value;
        sb := sb + [ch];
        var chi := reader.Peek();
        if chi == -1 {
          break;
        }
        ch := chi as char;
      }
      assert P.Span(reader.Remaining(), IsDigit).0 == [];
      assert sb == span.0;
      assert reader.Remaining() == span.1;
      assert P.ReadDigits(input) == Success(span);
      return Success(sb);
    }

    /** Reads an identifier, or nothing when the next character cannot start one. */
    method ReadIdentifier(reader: TextReader) returns (r: Result<string, Exception>)
      requires reader.Valid()
      modifies reader
      ensures reader.Valid()
      ensures TextInput.Agrees(r, P.ReadIdentifier(old(reader.Remaining())), reader.Remaining())
    {
      ghost var input := reader.Remaining();
      var sb := "";
      var ch :- PeekOrFail(reader);
      if P.IsValidIdentifierFirstChar(ch) {
        var read := ReadOrFail(reader);
        ch := read.value;
        sb := sb + [ch];
        ghost var span := P.Span(input[1..], P.IsValidIdentifierChar);
        var more := TryPeek(reader, P.IsValidIdentifierChar);
        while more
          invariant reader.Valid()
          invariant more == TextInput.TryPeek(reader.Remaining(), P.IsValidIdentifierChar)
          invariant sb + P.Span(reader.Remaining(), P.IsValidIdentifierChar).0 == [input[0]] + span.0
          invariant P.Span(reader.Remaining(), P.IsValidIdentifierChar).1 == span.1
          decreases |reader.Remaining()|
        {
          P.SpanStep(sb, reader.Remaining(), P.IsValidIdentifierChar);
          read := ReadOrFail(reader);
          ch := read.value;
          sb := sb + [ch];
          more := TryPeek(reader, P.IsValidIdentifierChar);
        }
        assert P.Span(reader.Remaining(), P.IsValidIdentifierChar).0 == [];
        assert sb == [input[0]] + span.0;
        assert reader.Remaining() == span.1;
        assert P.ReadIdentifier(input) == Success(([input[0]] + span.0, span.1));
      }
      return Success(sb);
    }

    /**
     * Collects up to `maxLength` digits by peeking (never consuming) and turns them into the
     * character they denote.
     */
    method ReadEscapedUnicode(reader: TextReader, validator: char -> bool, hex: bool, minLength: nat, maxLength: nat)
      returns (r: Result<string, Exception>)
      requires reader.Valid()
      requires minLength <= 8 && 0 < maxLength <= 8
      ensures r == P.ReadEscapedUnicode(reader.Remaining(), validator, hex, minLength, maxLength)
    {
      var sb := "";
      var i := 0;
      while i < maxLength
        invariant 0 <= i <= maxLength
        invariant reader.Remaining() == [] ==> i == 0 && sb == []
        invariant reader.Remaining() != [] ==> sb == P.Repeat(reader.Remaining()[0], i) && (i > 0 ==> validator(reader.Remaining()[0]))
      {
        var c :- PeekOrFail(reader);
        if !validator(c) {
          break;
        }
        sb := sb + [c];
        i := i + 1;
      }
      assert sb == P.EscapeDigits(reader.Remaining()[0], validator, maxLength);
      if |sb| < minLength {
        return Failure(TermParseException(P.TooFewDigits(minLength, |sb|)));
      }
      var result := TryParseInt32(sb, hex);
      if result.None? {
        return Failure(TermParseException("Digits don't form a valid Unicode character escape sequence."));
      }
      return ConvertFromUtf32(result.value as int);
    }

    method ReadEscapedDecimalUnicode(reader: TextReader, minLength: nat, maxLength: nat) returns (r: Result<string, Exception>)
      requires reader.Valid()
      requires minLength <= 8 && 0 < maxLength <= 8
      ensures r == P.ReadEscapedDecimalUnicode(reader.Remaining(), minLength, maxLength)
    {
      r := ReadEscapedUnicode(reader, IsDigit, false, minLength, maxLength);
    }

    method ReadEscapedHexadecimalUnicode(reader: TextReader, minLength: nat, maxLength: nat) returns (r: Result<string, Exception>)
      requires reader.Valid()
      requires minLength <= 8 && 0 < maxLength <= 8
      ensures r == P.ReadEscapedHexadecimalUnicode(reader.Remaining(), minLength, maxLength)
    {
      r := ReadEscapedUnicode(reader, IsHexDigit, true, minLength, maxLength);
    }
  
    /** The input a method starts from, used as its termination measure. */
    function Left(reader: TextReader): nat
      reads reader
      requires reader.Valid()
    {
      |reader.Remaining()|
    }

    /** `Read`: the next term, or nothing when only white space remains. */
    method Read(reader: TextReader) returns (r: Result<Option<Term>, Exception>)
      requires reader.Valid()
      modifies reader
      ensures reader.Valid()
      ensures TextInput.Agrees(r, P.Read(old(reader.Remaining()), termFactory), reader.Remaining())
      decreases Left(reader), 4
    {
      var more := ReadWhitespace(reader);
      if !more {
        return Success(None);
      }
      var peeked := PeekOrFail(reader);
      var ch := peeked.value;
      var t: Term;
      if ch == '[' {
        t :- ReadList(reader);
      } else if ch == '(' {
        t :- ReadTuple(reader);
      } else if ch == '"' {
        t :- ReadString(reader);
      } else if ch == '<' {
        t :- ReadPlaceholder(reader);
      } else if IsNumber(ch) {
        t :- ReadNumber(reader);
      } else if IsLetter(ch) {
        t :- ReadCons(reader);
      } else {
        return Failure(TermParseException("Invalid term starting with '" + [ch] + "'."));
      }
      return Success(Some(t));
    }

    method ReadList(reader: TextReader) returns (r: Result<Term, Exception>)
      requires reader.Valid()
      modifies reader
      ensures reader.Valid()
      ensures TextInput.Agrees(r, P.ReadList(old(reader.Remaining()), termFactory), reader.Remaining())
      decreases Left(reader), 2
    {
      var _ :- ReadExpectedChar(reader, '[', Some("list"));
      var terms :- ReadTermSequence(reader, ',', ']');
      var annotations :- ReadAnnotations(reader);
      return Success(ListTerm(termFactory.List(terms, annotations)));
    }

    method ReadTuple(reader: TextReader) returns (r: Result<Term, Exception>)
      requires reader.Valid()
      modifies reader
      ensures reader.Valid()
      ensures TextInput.Agrees(r, P.ReadTuple(old(reader.Remaining()), termFactory), reader.Remaining())
      decreases Left(reader), 3
    {
      r := ReadCons(reader);
    }

    /** The escape sequence after a backslash inside a string literal. */
    method ReadEscape(reader: TextReader) returns (r: Result<string, Exception>)
      requires reader.Valid()
      modifies reader
      ensures reader.Valid()
      ensures TextInput.Agrees(r, P.ReadEscape(old(reader.Remaining())), reader.Remaining())
    {
      var ch :- ReadOrFail(reader);
      match ch {
        case 'n' => return Success("\n");
        case 'r' => return Success("\r");
        case 'f' => return Success("\U{000C}");
        case 't' => return Success("\t");
        case '\\' => return Success("\\");
        case '\'' => return Success("'");
        case '"' => return Success("\"");
        case 'u' => r := ReadEscapedDecimalUnicode(reader, 4, 4);
        case 'U' => r := ReadEscapedDecimalUnicode(reader, 8, 8);
        case 'x' => r := ReadEscapedHexadecimalUnicode(reader, 1, 4);
        case _ =>
          return Failure(TermParseException("Unrecognized escape sequence: '\\" + [ch] + "'."));
      }
    }

    method ReadString(reader: TextReader) returns (r: Result<Term, Exception>)
      requires reader.Valid()
      modifies reader
      ensures reader.Valid()
      ensures TextInput.Agrees(r, P.ReadString(old(reader.Remaining()), termFactory), reader.Remaining())
      decreases Left(reader), 2
    {
      ghost var input := reader.Remaining();
      var _ :- ReadExpectedChar(reader, '"', Some("string"));
      var sb := "";
      var ch :- ReadOrFail(reader);
      ghost var loop := P.ReadStringChars(ch, reader.Remaining(), sb);
      while ch != '"'
        invariant reader.Valid()
        invariant |reader.Remaining()| < |input|
        invariant P.ReadStringChars(ch, reader.Remaining(), sb) == loop
        decreases |reader.Remaining()|
      {
        if ch == '\\' {
          var s :- ReadEscape(reader);
          sb := sb + s;
        } else {
          sb := sb + [ch];
        }
        ch :- ReadOrFail(reader);
      }
      var annotations :- ReadAnnotations(reader);
      return Success(termFactory.String(sb, annotations));
    }

    /** The optional fractional part `.digits` and exponent `e digits` of a number. */
    method ReadFraction(reader: TextReader) returns (r: Result<(string, string), Exception>)
      requires reader.Valid()
      modifies reader
      ensures reader.Valid()
      ensures TextInput.Agrees(r, P.ReadFraction(old(reader.Remaining())), reader.Remaining())
    {
      var frac := "";
      var exp := "";
      var dot := TryPeekChar(reader, '.');
      if dot {
        var _ := ReadExpectedOneOf(reader, ['.']);
        frac :- ReadDigits(reader);
        var e := TryPeekOneOf(reader, ['e', 'E']);
        if e {
          var _ := ReadExpectedOneOf(reader, ['e', 'E']);
          exp :- ReadDigits(reader);
        }
      }
      return Success((frac, exp));
    }

    method ReadNumber(reader: TextReader) returns (r: Result<Term, Exception>)
      requires reader.Valid()
      modifies reader
      ensures reader.Valid()
      ensures TextInput.Agrees(r, P.ReadNumber(old(reader.Remaining()), termFactory), reader.Remaining())
      decreases Left(reader), 2
    {
      var ints :- ReadDigits(reader);
      var fraction :- ReadFraction(reader);
      var frac, exp := fraction.0, fraction.1;
      if ints == [] && frac == [] {
        return Failure(TermParseException("Expected number, got something else."));
      }
      var annotations :- ReadAnnotations(reader);
      if frac != [] {
        var literal := RealLiteral(if ints == [] then "0" else ints, frac, if exp == [] then "0" else exp);
        return Success(termFactory.Real(literal, annotations));
      }
      var value :- ParseInt32(ints);
      return Success(termFactory.IntWithoutAnnotations(value));
    }

    method ReadPlaceholder(reader: TextReader) returns (r: Result<Term, Exception>)
      requires reader.Valid()
      modifies reader
      ensures reader.Valid()
      ensures TextInput.Agrees(r, P.ReadPlaceholder(old(reader.Remaining()), termFactory), reader.Remaining())
      decreases Left(reader), 2
    {
      var _ :- ReadExpectedChar(reader, '<', Some("placeholder start"));
      var template :- Read(reader);
      var _ := ReadWhitespace(reader);
      var _ :- ReadExpectedChar(reader, '>', Some("placeholder end"));
      var annotations :- ReadAnnotations(reader);
      return Success(termFactory.Placeholder(template.value, annotations));
    }

    method ReadCons(reader: TextReader) returns (r: Result<Term, Exception>)
      requires reader.Valid()
      modifies reader
      ensures reader.Valid()
      ensures TextInput.Agrees(r, P.ReadCons(old(reader.Remaining()), termFactory), reader.Remaining())
      decreases Left(reader), 2
    {
      var name :- ReadIdentifier(reader);
      var _ := ReadWhitespace(reader);
      var ch :- PeekOrFail(reader);
      var terms: seq<Term> := [];
      if ch == '(' {
        var _ := ReadExpectedChar(reader, '(', None);
        terms :- ReadTermSequence(reader, ',', ')');
      }
      var annotations :- ReadAnnotations(reader);
      return Success(termFactory.Cons(name, terms, annotations));
    }

    method ReadAnnotations(reader: TextReader) returns (r: Result<seq<Term>, Exception>)
      requires reader.Valid()
      modifies reader
      ensures reader.Valid()
      ensures TextInput.Agrees(r, P.ReadAnnotations(old(reader.Remaining()), termFactory), reader.Remaining())
      decreases Left(reader), 1
    {
      var open := TryPeekChar(reader, '{');
      if !open {
        return Success([]);
      }
      var _ := ReadExpectedChar(reader, '{', None);
      r := ReadTermSequence(reader, ',', '}');
    }

    method ReadTermSequence(reader: TextReader, separator: char, end: char) returns (r: Result<seq<Term>, Exception>)
      requires reader.Valid()
      modifies reader
      ensures reader.Valid()
      ensures TextInput.Agrees(r, P.ReadTermSequence(old(reader.Remaining()), separator, end, termFactory), reader.Remaining())
      decreases Left(reader), 6
    {
      ghost var input := reader.Remaining();
      var _ := ReadWhitespace(reader);
      var ch :- PeekOrFail(reader);
      if ch == end {
        var _ := ReadExpectedChar(reader, end, None);
        return Success([]);
      }
      r := ReadTermSequenceItems(reader, separator, end);
    }

    /** The do-while loop of `ReadTermSequence`, entered when the next character is not the end character. */
    method ReadTermSequenceItems(reader: TextReader, separator: char, end: char) returns (r: Result<seq<Term>, Exception>)
      requires reader.Valid()
      modifies reader
      ensures reader.Valid()
      ensures TextInput.Agrees(r, P.ReadTermSequenceItems(old(reader.Remaining()), separator, end, [], termFactory), reader.Remaining())
      decreases Left(reader), 5
    {
      ghost var input := reader.Remaining();
      ghost var loop := P.ReadTermSequenceItems(input, separator, end, [], termFactory);
      var terms: seq<Term> := [];
      var more := true;
      var ch := end;
      while more
        invariant reader.Valid()
        invariant |reader.Remaining()| <= |input|
        invariant more ==> P.ReadTermSequenceItems(reader.Remaining(), separator, end, terms, termFactory) == loop
        invariant !more ==> loop == P.SequenceEnd(ch, end, terms, reader.Remaining())
        decreases more, |reader.Remaining()|
      {
        ghost var before := reader.Remaining();
        var term :- Read(reader);
        P.ReadTermSequenceItemsStep(before, separator, end, terms, termFactory, term, reader.Remaining());
        var _ := ReadWhitespace(reader);
        ch :- ReadOrFail(reader);
        terms := terms + [term.value];
        more := ch == separator;
      }
      if ch != end {
        return Failure(TermParseException("Term sequence didn't end with '" + [end] + "': '" + [ch] + "'."));
      }
      return Success(terms);
    }

    /** `TermTextReader.FromString`: reads the first term of a string through a fresh reader. */
    method FromString(text: string) returns (r: Result<Option<Term>, Exception>)
      ensures r == P.FromString(text, termFactory)
    {
      var reader := new TextReader(text);
      r := Read(reader);
    }
  }
}
