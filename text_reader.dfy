/**
 * A `TextReader` over a string (the character cursor the reader works on) and the
 * `TextReaderExtensions` methods on it. Each method is proved against its `TextInput` counterpart
 * applied to the input that remained when it was called.
 */
module TextReaderExtensions {
  import opened Wrappers
  import opened Exceptions
  import TextInput

  /** The text being read and the position of the next character; `Read`/`Peek` give -1 at the end. */
  class TextReader {
    const text: string
    var position: nat

    predicate Valid()
      reads this
    {
      position <= |text|
    }

    /** The input that has not been read yet. */
    function Remaining(): string
      reads this
      requires Valid()
    {
      text[position..]
    }

    constructor(text: string)
      ensures Valid() && this.text == text && Remaining() == text
    {
      this.text := text;
      position := 0;
    }

    method Peek() returns (ch: int)
      requires Valid()
      ensures Remaining() == [] ==> ch == -1
      ensures Remaining() != [] ==> ch == Remaining()[0] as int
    {
      if position == |text| {
        ch := -1;
      } else {
        ch := text[position] as int;
      }
    }

    method Read() returns (ch: int)
      requires Valid()
      modifies this
      ensures Valid()
      ensures old(Remaining()) == [] ==> ch == -1 && Remaining() == []
      ensures old(Remaining()) != [] ==> ch == old(Remaining())[0] as int && Remaining() == old(Remaining())[1..]
    {
      if position == |text| {
        ch := -1;
      } else {
        ch := text[position] as int;
        position := position + 1;
      }
    }
  }

  method ReadOrFail(reader: TextReader) returns (r: Result<char, Exception>)
    requires reader.Valid()
    modifies reader
    ensures reader.Valid()
    ensures TextInput.Agrees(r, TextInput.ReadOrFail(old(reader.Remaining())), reader.Remaining())
  {
    var ch := reader.Read();
    if ch == -1 {
      return Failure(EndOfStreamException("Unexpected end of stream."));
    }
    return Success(ch as char);
  }

  method PeekOrFail(reader: TextReader) returns (r: Result<char, Exception>)
    requires reader.Valid()
    ensures r == TextInput.PeekOrFail(reader.Remaining())
  {
    var ch := reader.Peek();
    if ch == -1 {
      return Failure(EndOfStreamException("Unexpected end of stream."));
    }
    return Success(ch as char);
  }

  /** `ReadExpected(collection, name)`. */
  method ReadExpected(reader: TextReader, expected: seq<char>, expectedName: Option<string>) returns (r: Result<char, Exception>)
    requires reader.Valid()
    modifies reader
    ensures reader.Valid()
    ensures TextInput.Agrees(r, TextInput.ReadExpected(old(reader.Remaining()), expected, expectedName), reader.Remaining())
  {
    var ch :- ReadOrFail(reader);
    if ch !in expected && |expected| > 0 {
      var expectedText := TextInput.ExpectedText(expected, expectedName);
      return Failure(TermParseException("Expected " + expectedText + ", got '" + [ch] + "' character."));
    }
    return Success(ch);
  }

  /** `ReadExpected(char, name)`: passes no name on. */
  method ReadExpectedChar(reader: TextReader, expected: char, expectedName: Option<string>) returns (r: Result<char, Exception>)
    requires reader.Valid()
    modifies reader
    ensures reader.Valid()
    ensures TextInput.Agrees(r, TextInput.ReadExpectedChar(old(reader.Remaining()), expected, expectedName), reader.Remaining())
  {
    r := ReadExpected(reader, [expected], None);
  }

  /** `ReadExpected(params char[])`. */
  method ReadExpectedOneOf(reader: TextReader, expected: seq<char>) returns (r: Result<char, Exception>)
    requires reader.Valid()
    modifies reader
    ensures reader.Valid()
    ensures TextInput.Agrees(r, TextInput.ReadExpectedOneOf(old(reader.Remaining()), expected), reader.Remaining())
  {
    r := ReadExpected(reader, expected, None);
  }

  /** `TryPeek(predicate)`: never advances the reader. */
  method TryPeek(reader: TextReader, test: char -> bool) returns (b: bool)
    requires reader.Valid()
    ensures b == TextInput.TryPeek(reader.Remaining(), test)
  {
    var chi := reader.Peek();
    return chi != -1 && test(chi as char);
  }

  method TryPeekAny(reader: TextReader) returns (b: bool)
    requires reader.Valid()
    ensures b == TextInput.TryPeekAny(reader.Remaining())
  {
    b := TryPeek(reader, _ => true);
  }

  method TryPeekChar(reader: TextReader, expected: char) returns (b: bool)
    requires reader.Valid()
    ensures b == TextInput.TryPeekChar(reader.Remaining(), expected)
  {
    b := TryPeek(reader, c => c == expected);
  }

  method TryPeekOneOf(reader: TextReader, expected: seq<char>) returns (b: bool)
    requires reader.Valid()
    ensures b == TextInput.TryPeekOneOf(reader.Remaining(), expected)
  {
    b := TryPeek(reader, c => c in expected);
  }
}
