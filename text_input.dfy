/**
 * The cursor primitives of `TextReaderExtensions` stated on the input that remains to be read.
 * A primitive that consumes gives the character it read and the input that remains after it.
 */
module TextInput {
  import opened Wrappers
  import opened Exceptions

  /** A value read from the input, with the input that remains, or the exception thrown. */
  type Parsed<T> = Result<(T, string), Exception>

  /** A reader-level result `r` and the remaining input agree with a specification result. */
  predicate Agrees<T(==)>(r: Result<T, Exception>, spec: Parsed<T>, remaining: string)
  {
    match spec
    case Success(p) => r == Success(p.0) && remaining == p.1
    case Failure(e) => r == Failure(e)
  }

  /** `ReadOrFail`: consumes exactly one character; at the end of the input it throws. */
  function ReadOrFail(input: string): (r: Parsed<char>)
    ensures input == [] <==> r.Failure?
    ensures r.Failure? ==> r.error == UnexpectedEndOfStream
    ensures r.Success? ==> [r.value.0] + r.value.1 == input
  {
    if input == [] then Failure(UnexpectedEndOfStream) else Success((input[0], input[1..]))
  }

  /** `PeekOrFail`: the next character, consuming nothing; at the end of the input it throws. */
  function PeekOrFail(input: string): (r: Result<char, Exception>)
    ensures input == [] <==> r.Failure?
    ensures r.Failure? ==> r.error == UnexpectedEndOfStream
    ensures r.Success? ==> ReadOrFail(input).Success? && r.value == ReadOrFail(input).value.0
  {
    if input == [] then Failure(UnexpectedEndOfStream) else Success(input[0])
  }

  /** The characters quoted and joined with `, `, as in `one of 'e', 'E'`. */
  function QuotedList(cs: seq<char>): string
  {
    if |cs| == 0 then ""
    else if |cs| == 1 then "'" + [cs[0]] + "'"
    else QuotedList(cs[..|cs| - 1]) + ", " + "'" + [cs[|cs| - 1]] + "'"
  }

  /** How a `ReadExpected` error names what was expected. */
  function ExpectedText(expected: seq<char>, expectedName: Option<string>): string
  {
    match expectedName
    case Some(name) => name
    case None => if |expected| == 1 then "'" + [expected[0]] + "'" else "one of " + QuotedList(expected)
  }

  /**
   * `ReadExpected(collection, name)`: consumes one character and throws a parse error unless it is
   * one of the expected characters. An empty collection accepts any character.
   */
  function ReadExpected(input: string, expected: seq<char>, expectedName: Option<string>): (r: Parsed<char>)
    ensures input == [] ==> r == Failure(UnexpectedEndOfStream)
    ensures r.Success? <==> input != [] && (input[0] in expected || expected == [])
    ensures r.Success? ==> r == ReadOrFail(input)
    ensures input != [] && r.Failure? ==>
      r.error == TermParseException("Expected " + ExpectedText(expected, expectedName) + ", got '" + [input[0]] + "' character.")
  {
    var p :- ReadOrFail(input);
    if p.0 !in expected && |expected| > 0 then
      Failure(TermParseException("Expected " + ExpectedText(expected, expectedName) + ", got '" + [p.0] + "' character."))
    else
      Success(p)
  }

  /** `ReadExpected(char, name)`: the name is not passed on, so the message always quotes the character. */
  function ReadExpectedChar(input: string, expected: char, expectedName: Option<string>): (r: Parsed<char>)
    ensures r == ReadExpected(input, [expected], None)
  {
    ReadExpected(input, [expected], None)
  }

  /** `ReadExpected(params char[])`: no name is given. */
  function ReadExpectedOneOf(input: string, expected: seq<char>): (r: Parsed<char>)
    ensures r == ReadExpected(input, expected, None)
  {
    ReadExpected(input, expected, None)
  }

  /** `TryPeek(predicate)`: whether a next character exists and satisfies the predicate; nothing is consumed. */
  function TryPeek(input: string, test: char -> bool): (r: bool)
    ensures r <==> PeekOrFail(input).Success? && test(PeekOrFail(input).value)
  {
    input != [] && test(input[0])
  }

  /** `TryPeek()`: whether any character remains. */
  function TryPeekAny(input: string): (r: bool)
    ensures r <==> input != []
  {
    TryPeek(input, _ => true)
  }

  /** `TryPeek(char)`. */
  function TryPeekChar(input: string, expected: char): (r: bool)
    ensures r <==> input != [] && input[0] == expected
  {
    TryPeek(input, c => c == expected)
  }

  /** `TryPeek(params char[])` and `TryPeek(collection)`. */
  function TryPeekOneOf(input: string, expected: seq<char>): (r: bool)
    ensures r <==> input != [] && input[0] in expected
  {
    TryPeek(input, c => c in expected)
  }

  /** The single-character `ReadExpected` behaves the same whatever name it is given. */
  lemma ReadExpectedCharIgnoresName(input: string, expected: char, name: Option<string>)
    requires input != [] && input[0] != expected
    ensures ReadExpectedChar(input, expected, name) == Failure(TermParseException("Expected '" + [expected] + "', got '" + [input[0]] + "' character."))
  {
    var q := "'" + [expected] + "'";
    assert ExpectedText([expected], None) == q;
    var tail := ", got '" + [input[0]] + "' character.";
    assert "Expected " + q + ", got '" + [input[0]] + "' character." == "Expected " + q + tail;
    assert "Expected " + q + tail == "Expected '" + [expected] + "', got '" + [input[0]] + "' character.";
  }

  /** The message of a two-character `ReadExpected` lists both characters. */
  lemma ReadExpectedOneOfMessage(input: string)
    requires input != [] && input[0] !in "eE"
    ensures ReadExpectedOneOf(input, "eE") == Failure(TermParseException("Expected one of 'e', 'E', got '" + [input[0]] + "' character."))
  {
    var e := "eE";
    assert e[..1] == "e";
    assert QuotedList(e[..1]) == "'e'";
    assert QuotedList(e) == "'e', 'E'";
    var tail := ", got '" + [input[0]] + "' character.";
    assert ExpectedText(e, None) == "one of 'e', 'E'";
    assert "Expected " + ExpectedText(e, None) + ", got '" + [input[0]] + "' character." == "Expected one of 'e', 'E'" + tail;
    assert "Expected one of 'e', 'E'" + tail == "Expected one of 'e', 'E', got '" + [input[0]] + "' character.";
    assert ReadOrFail(input).Success? && ReadOrFail(input).value.0 !in e;
  }
}
