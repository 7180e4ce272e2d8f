/**
 * `ATermWriter` and its base `TermTextWriter`: terms written as ATerm text into a `TextWriter`.
 * The functions give the text each routine writes; the methods write it into a string sink.
 */
module ATermWriter {
  import opened Text
  import opened ATerms
  import StringEscaper

  /** The nine-entry escape table of `WriteStringTerm`, including `\v` and `\b`. */
  const EscapeTable: map<char, string> := map[
    '\n' := "\\n",
    '\r' := "\\r",
    '\U{000C}' := "\\f",
    '\t' := "\\t",
    '\U{000B}' := "\\v",
    '\U{0008}' := "\\b",
    '\\' := "\\\\",
    '\'' := "\\'",
    '"' := "\\\""]

  /** The text of a real literal; float formatting is not modelled. */
  function RealText(lit: RealLiteral): string
  {
    lit.integral + "." + lit.fraction + (if lit.exponent == "" then "" else "e" + lit.exponent)
  }

  /**
   * The text `Write(term, writer)` writes. It is never empty, and its first character tells the
   * kind of term: a Cons starts with its name, unescaped, followed by `(`; an Int starts with `-`
   * exactly when it is negative; a String starts with `"`, a list with `[` and a placeholder
   * with `<`.
   */
  function TermText(t: Term): (r: string)
    ensures |r| > 0
    ensures t.ConsTerm? ==> |r| > |t.name| && r[..|t.name|] == t.name && r[|t.name|] == '('
    ensures t.IntTerm? ==> (r[0] == '-' <==> t.value < 0)
    ensures t.StringTerm? ==> r[0] == '"'
    ensures t.ListTerm? ==> r[0] == '['
    ensures t.PlaceholderTerm? ==> r[0] == '<'
    decreases t, 3
  {
    match t
    case ConsTerm(n, ts, an, _) =>
      n + "(" + TermsListText(ts, ",", t) + ")" + AnnotationsText(an, t)
    case IntTerm(v, an, _) =>
      Int32Text(v) + AnnotationsText(an, t)
    case RealTerm(lit, an, _) =>
      RealText(lit) + AnnotationsText(an, t)
    case StringTerm(s, an, _) =>
      "\"" + StringEscaper.Escaped(s, EscapeTable) + "\"" + AnnotationsText(an, t)
    case ListTerm(l) =>
      ElementsSmaller(l);
      "[" + TermsListText(Elements(l), ",", t) + "]" + AnnotationsText(l.annotations, t)
    case PlaceholderTerm(tp, an, _) =>
      "<" + TermText(tp) + ">" + AnnotationsText(an, t)
  }

  /** `WriteAnnotations`: nothing for no annotations, otherwise `{` + the comma-separated annotations + `}`. */
  function AnnotationsText(annotations: seq<Term>, ghost parent: Term): (r: string)
    requires forall i :: 0 <= i < |annotations| ==> annotations[i] < parent
    ensures r == "" <==> annotations == []
    ensures annotations != [] ==> r[0] == '{' && r[|r| - 1] == '}'
    decreases parent, 1
  {
    if |annotations| == 0 then "" else "{" + TermsListText(annotations, ",", parent) + "}"
  }

  /** `WriteTermsList`: the terms in order, with the separator between consecutive terms. */
  function TermsListText(terms: seq<Term>, separator: string, ghost parent: Term): string
    requires forall i :: 0 <= i < |terms| ==> terms[i] < parent
    decreases parent, 0, |terms|
  {
    if |terms| == 0 then ""
    else if |terms| == 1 then TermText(terms[0])
    else TermsListText(terms[..|terms| - 1], separator, parent) + separator + TermText(terms[|terms| - 1])
  }

  /** The text of a prefix of `terms` grows by one separator and one term per step. */
  lemma TermsListTextPrefix(terms: seq<Term>, k: nat, separator: string, parent: Term)
    requires 1 <= k <= |terms|
    requires forall i :: 0 <= i < |terms| ==> terms[i] < parent
    ensures k == 1 ==> TermsListText(terms[..k], separator, parent) == TermText(terms[0])
    ensures k > 1 ==>
      TermsListText(terms[..k], separator, parent) ==
      TermsListText(terms[..k - 1], separator, parent) + separator + TermText(terms[k - 1])
  {
    assert terms[..k][..k - 1] == terms[..k - 1];
  }

  /** One pass of `WriteTermsList`'s loop: the text so far grows by a separator and the next term. */
  lemma TermsListTextStep(start: string, before: string, after: string, terms: seq<Term>, i: nat, separator: string, parent: Term)
    requires 1 <= i < |terms|
    requires forall j :: 0 <= j < |terms| ==> terms[j] < parent
    requires before == start + TermsListText(terms[..i], separator, parent)
    requires after == before + separator + TermText(terms[i])
    ensures after == start + TermsListText(terms[..i + 1], separator, parent)
  {
    TermsListTextPrefix(terms, i + 1, separator, parent);
    AppendStep(start, before, after, TermsListText(terms[..i], separator, parent), separator, TermText(terms[i]), TermsListText(terms[..i + 1], separator, parent));
  }

  // ---------------------------------------------------------------- solver helpers
  // Regroupings of string concatenation. They model nothing in the writer; they only keep the
  // writing methods' proofs small.

  lemma AppendStep(start: string, before: string, after: string, done: string, separator: string, next: string, total: string)
    requires before == start + done
    requires after == before + separator + next
    requires total == done + separator + next
    ensures after == start + total
  {
  }

  lemma Concatenated3(start: string, a: string, b: string, c: string)
    ensures start + a + b + c == start + (a + b + c)
  {
  }

  lemma Concatenated4(start: string, a: string, b: string, c: string, d: string)
    ensures start + a + b + c + d == start + (a + b + c + d)
  {
  }

  lemma Concatenated5(start: string, a: string, b: string, c: string, d: string, e: string)
    ensures start + a + b + c + d + e == start + (a + b + c + d + e)
  {
  }

  // ---------------------------------------------------------------- writing

  /** A `StringWriter`: the sink the writer appends characters to. */
  class StringWriter {
    var text: string

    constructor()
      ensures text == []
    {
      text := [];
    }

    method Write(s: string)
      modifies this
      ensures text == old(text) + s
    {
      text := text + s;
    }
  }

  class ATermWriter {

    constructor()
    {
    }

    /** `TermTextWriter.ToString(term)`: what `Write` produces into a fresh string sink. */
    method ToString(term: Term) returns (s: string)
      ensures s == TermText(term)
    {
      var writer := new StringWriter();
      Write(term, writer);
      s := writer.text;
    }

    /** `TermTextWriter.Write`: the kind dispatch, in the order Cons, Int, Real, String, List, Placeholder. */
    method Write(term: Term, writer: StringWriter)
      modifies writer
      ensures writer.text == old(writer.text) + TermText(term)
      decreases term, 3
    {
      if term.ConsTerm? {
        WriteConsTerm(term, writer);
      } else if term.IntTerm? {
        WriteIntTerm(term, writer);
      } else if term.RealTerm? {
        WriteRealTerm(term, writer);
      } else if term.StringTerm? {
        WriteStringTerm(term, writer);
      } else if term.ListTerm? {
        WriteListTerm(term, writer);
      } else {
        WritePlaceholderTerm(term, writer);
      }
    }

    method WriteConsTerm(term: Term, writer: StringWriter)
      requires term.ConsTerm?
      modifies writer
      ensures writer.text == old(writer.text) + TermText(term)
      decreases term, 2
    {
      ghost var start := writer.text;
      writer.Write(term.name);
      writer.Write("(");
      WriteTermsList(term.subTerms, ",", writer, term);
      writer.Write(")");
      WriteAnnotations(term.annotations, writer, term);
      Concatenated5(start, term.name, "(", TermsListText(term.subTerms, ",", term), ")", AnnotationsText(term.annotations, term));
    }

    method WriteIntTerm(term: Term, writer: StringWriter)
      requires term.IntTerm?
      modifies writer
      ensures writer.text == old(writer.text) + TermText(term)
      decreases term, 2
    {
      writer.Write(Int32Text(term.value));
      WriteAnnotations(term.annotations, writer, term);
    }

    method WriteRealTerm(term: Term, writer: StringWriter)
      requires term.RealTerm?
      modifies writer
      ensures writer.text == old(writer.text) + TermText(term)
      decreases term, 2
    {
      writer.Write(RealText(term.literal));
      WriteAnnotations(term.annotations, writer, term);
    }

    method WriteStringTerm(term: Term, writer: StringWriter)
      requires term.StringTerm?
      modifies writer
      ensures writer.text == old(writer.text) + TermText(term)
      decreases term, 2
    {
      ghost var start := writer.text;
      writer.Write("\"");
      var escaped := StringEscaper.Escape(term.text, EscapeTable);
      writer.Write(escaped);
      writer.Write("\"");
      WriteAnnotations(term.annotations, writer, term);
      Concatenated4(start, "\"", escaped, "\"", AnnotationsText(term.annotations, term));
    }

    method WriteListTerm(term: Term, writer: StringWriter)
      requires term.ListTerm?
      modifies writer
      ensures writer.text == old(writer.text) + TermText(term)
      decreases term, 2
    {
      ghost var start := writer.text;
      writer.Write("[");
      var elements := ListSubTerms(term.list);
      ElementsSmaller(term.list);
      WriteTermsList(elements, ",", writer, term);
      writer.Write("]");
      WriteAnnotations(term.list.annotations, writer, term);
      Concatenated4(start, "[", TermsListText(elements, ",", term), "]", AnnotationsText(term.list.annotations, term));
    }

    method WritePlaceholderTerm(term: Term, writer: StringWriter)
      requires term.PlaceholderTerm?
      modifies writer
      ensures writer.text == old(writer.text) + TermText(term)
      decreases term, 2
    {
      ghost var start := writer.text;
      writer.Write("<");
      Write(term.template, writer);
      writer.Write(">");
      WriteAnnotations(term.annotations, writer, term);
      Concatenated4(start, "<", TermText(term.template), ">", AnnotationsText(term.annotations, term));
    }

    method WriteAnnotations(annotations: seq<Term>, writer: StringWriter, ghost parent: Term)
      requires forall i :: 0 <= i < |annotations| ==> annotations[i] < parent
      modifies writer
      ensures writer.text == old(writer.text) + AnnotationsText(annotations, parent)
      decreases parent, 1
    {
      if |annotations| == 0 {
        return;
      }
      ghost var start := writer.text;
      writer.Write("{");
      WriteTermsList(annotations, ",", writer, parent);
      writer.Write("}");
      Concatenated3(start, "{", TermsListText(annotations, ",", parent), "}");
    }

    /** The enumerator loop: the first term, then a separator before each later term. */
    method WriteTermsList(terms: seq<Term>, separator: string, writer: StringWriter, ghost parent: Term)
      requires forall i :: 0 <= i < |terms| ==> terms[i] < parent
      modifies writer
      ensures writer.text == old(writer.text) + TermsListText(terms, separator, parent)
      decreases parent, 0
    {
      ghost var start := writer.text;
      if |terms| == 0 {
        return;
      }
      Write(terms[0], writer);
      TermsListTextPrefix(terms, 1, separator, parent);
      var i := 1;
      while i < |terms|
        invariant 1 <= i <= |terms|
        invariant writer.text == start + TermsListText(terms[..i], separator, parent)
      {
        ghost var before := writer.text;
        writer.Write(separator);
        Write(terms[i], writer);
        TermsListTextStep(start, before, writer.text, terms, i, separator, parent);
        i := i + 1;
      }
      assert terms[..i] == terms;
    }
  }

  /** The list 1, 2, 3 is written exactly as `[1,2,3]`. */
  lemma ListOfOneTwoThree(f: object)
    ensures TermText(ListTerm(ListCell(IntTerm(1, [], f), ListCell(IntTerm(2, [], f), ListCell(IntTerm(3, [], f), EmptyList([], f), [], f), [], f), [], f)))
         == "[1,2,3]"
  {
    var empty := EmptyList([], f);
    var three := ListCell(IntTerm(3, [], f), empty, [], f);
    var two := ListCell(IntTerm(2, [], f), three, [], f);
    var one := ListCell(IntTerm(1, [], f), two, [], f);
    var t := ListTerm(one);
    assert Elements(empty) == [];
    assert Elements(three) == [IntTerm(3, [], f)];
    assert Elements(two) == [IntTerm(2, [], f), IntTerm(3, [], f)];
    var es := Elements(one);
    assert es == [IntTerm(1, [], f), IntTerm(2, [], f), IntTerm(3, [], f)];
    assert NatText(1) == "1" && NatText(2) == "2" && NatText(3) == "3";
    ElementsSmaller(one);
    TermsListTextPrefix(es, 1, ",", t);
    TermsListTextPrefix(es, 2, ",", t);
    TermsListTextPrefix(es, 3, ",", t);
    assert es[..3] == es;
    assert TermsListText(es, ",", t) == "1,2,3";
  }
}
