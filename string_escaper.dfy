/** `StringEscaper.Escape`: replace every character that has an escape sequence in a table. */
module StringEscaper {

  /** What one character becomes: its mapped sequence, or itself. */
  function Replacement(c: char, sequences: map<char, string>): string
  {
    if c in sequences then sequences[c] else [c]
  }

  /** The escaped text: the replacements of the characters, in order. */
  function Escaped(input: string, sequences: map<char, string>): string
  {
    if input == [] then [] else Escaped(input[..|input| - 1], sequences) + Replacement(input[|input| - 1], sequences)
  }

  /** The `foreach` loop appending to a `StringBuilder`. */
  method Escape(input: string, sequences: map<char, string>) returns (r: string)
    ensures r == Escaped(input, sequences)
  {
    r := [];
    for i := 0 to |input|
      invariant r == Escaped(input[..i], sequences)
    {
      var ch := input[i];
      if ch in sequences {
        r := r + sequences[ch];
      } else {
        r := r + [ch];
      }
      assert input[..i + 1][..i] == input[..i];
    }
    assert input[..|input|] == input;
  }

  /** Escaping distributes over concatenation. */
  lemma {:induction false} EscapedDistributes(a: string, b: string, sequences: map<char, string>)
    ensures Escaped(a + b, sequences) == Escaped(a, sequences) + Escaped(b, sequences)
    decreases |b|
  {
    if b != [] {
      var init, last := b[..|b| - 1], b[|b| - 1];
      assert (a + b)[..|a + b| - 1] == a + init;
      EscapedDistributes(a, init, sequences);
    } else {
      assert a + b == a;
    }
  }

  /** A string in which no character is mapped escapes to itself. */
  lemma {:induction false} EscapedIdentity(input: string, sequences: map<char, string>)
    requires forall i :: 0 <= i < |input| ==> input[i] !in sequences
    ensures Escaped(input, sequences) == input
    decreases |input|
  {
    if input != [] {
      EscapedIdentity(input[..|input| - 1], sequences);
      assert input == input[..|input| - 1] + [input[|input| - 1]];
    }
  }

  /** Each character is replaced by its own replacement, in place: escaping one character. */
  lemma EscapedSingle(c: char, sequences: map<char, string>)
    ensures Escaped([c], sequences) == Replacement(c, sequences)
  {
    assert [c][..0] == [];
  }

  /** Escaping prepends the first character's replacement to the escaping of the rest. */
  lemma EscapedCons(c: char, rest: string, sequences: map<char, string>)
    ensures Escaped([c] + rest, sequences) == Replacement(c, sequences) + Escaped(rest, sequences)
  {
    EscapedDistributes([c], rest, sequences);
    EscapedSingle(c, sequences);
  }
}
