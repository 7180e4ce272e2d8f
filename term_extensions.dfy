/**
 * `TermExtensions`: conversions from a term to a CLR value (`As*` gives nothing when the term
 * has another kind, `To*` throws `InvalidCastException` with the term's ATerm text, `Is*` tests).
 */
module TermExtensions {
  import opened Wrappers
  import opened Exceptions
  import opened Text
  import opened ATerms
  import ATermWriter
  import StringEscaper

  /** `AsInt32`: the value of an Int term, or nothing. */
  function AsInt32(term: Term): (r: Option<int32>)
    ensures r.Some? <==> term.IntTerm?
    ensures term.IntTerm? ==> r == Some(term.value)
  {
    if term.IntTerm? then Some(term.value) else None
  }

  function IsInt32(term: Term): (r: bool)
    ensures r <==> term.IntTerm?
  {
    term.IntTerm?
  }

  function ToInt32(term: Term): (r: Result<int32, Exception>)
    ensures r.Success? <==> IsInt32(term)
    ensures r.Success? ==> Some(r.value) == AsInt32(term)
    ensures r.Failure? ==> r.error == InvalidCastException("Can't cast term " + ATermWriter.TermText(term) + " to Int32.")
  {
    match AsInt32(term)
    case None => Failure(InvalidCastException("Can't cast term " + ATermWriter.TermText(term) + " to Int32."))
    case Some(v) => Success(v)
  }

  /** `AsSingle`: the literal of a Real term, or nothing (the float itself is not modelled). */
  function AsSingle(term: Term): (r: Option<RealLiteral>)
    ensures r.Some? <==> term.RealTerm?
    ensures term.RealTerm? ==> r == Some(term.literal)
  {
    if term.RealTerm? then Some(term.literal) else None
  }

  function IsSingle(term: Term): (r: bool)
    ensures r <==> term.RealTerm?
  {
    term.RealTerm?
  }

  function ToSingle(term: Term): (r: Result<RealLiteral, Exception>)
    ensures r.Success? <==> IsSingle(term)
    ensures r.Success? ==> Some(r.value) == AsSingle(term)
    ensures r.Failure? ==> r.error == InvalidCastException("Can't cast term " + ATermWriter.TermText(term) + " to Single.")
  {
    match AsSingle(term)
    case None => Failure(InvalidCastException("Can't cast term " + ATermWriter.TermText(term) + " to Single."))
    case Some(v) => Success(v)
  }

  /** `AsString`: the text of a String term, or nothing. */
  function AsString(term: Term): (r: Option<string>)
    ensures r.Some? <==> term.StringTerm?
    ensures term.StringTerm? ==> r == Some(term.text)
  {
    if term.StringTerm? then Some(term.text) else None
  }

  function IsString(term: Term): (r: bool)
    ensures r <==> term.StringTerm?
  {
    term.StringTerm?
  }

  function ToString(term: Term): (r: Result<string, Exception>)
    ensures r.Success? <==> IsString(term)
    ensures r.Success? ==> Some(r.value) == AsString(term)
    ensures r.Failure? ==> r.error == InvalidCastException("Can't cast term " + ATermWriter.TermText(term) + " to String.")
  {
    match AsString(term)
    case None => Failure(InvalidCastException("Can't cast term " + ATermWriter.TermText(term) + " to String."))
    case Some(v) => Success(v)
  }

  /** `AsCons`: a negative arity is refused; otherwise the term itself when it is a Cons of that name and arity. */
  function AsCons(term: Term, name: string, arity: int32): (r: Result<Option<Term>, Exception>)
    ensures arity < 0 <==> r == Failure(ArgumentOutOfRangeException("arity"))
    ensures r.Success? ==> (r.value.Some? <==> term.ConsTerm? && term.name == name && |term.subTerms| == arity as int)
    ensures r.Success? && r.value.Some? ==> r.value.value == term
  {
    if arity < 0 then Failure(ArgumentOutOfRangeException("arity"))
    else if term.ConsTerm? && term.name == name && |term.subTerms| == arity as int then Success(Some(term))
    else Success(None)
  }

  function IsCons(term: Term, name: string, arity: int32): (r: Result<bool, Exception>)
    ensures arity < 0 <==> r.Failure?
    ensures r.Failure? ==> r.error == ArgumentOutOfRangeException("arity")
    ensures r.Success? ==> (r.value <==> term.ConsTerm? && term.name == name && |term.subTerms| == arity as int)
  {
    if arity < 0 then Failure(ArgumentOutOfRangeException("arity"))
    else Success(term.ConsTerm? && term.name == name && |term.subTerms| == arity as int)
  }

  /** The message names the expected constructor as ``name`arity``, the arity in decimal. */
  function ToCons(term: Term, name: string, arity: int32): (r: Result<Term, Exception>)
    ensures arity < 0 ==> r == Failure(ArgumentOutOfRangeException("arity"))
    ensures arity >= 0 && r.Success? ==> r.value == term && term.ConsTerm? && term.name == name && |term.subTerms| == arity as int
    ensures arity >= 0 && r.Failure? ==>
      r.error == InvalidCastException("Can't cast term " + ATermWriter.TermText(term) + " to " + name + "`" + Int32Text(arity) + ".")
  {
    var found :- AsCons(term, name, arity);
    match found
    case None => Failure(InvalidCastException("Can't cast term " + ATermWriter.TermText(term) + " to " + name + "`" + Int32Text(arity) + "."))
    case Some(c) => Success(c)
  }

  /** The three forms of each conversion agree: `Is` holds exactly when `As` gives a value and `To` succeeds with it. */
  lemma ConversionsAgree(term: Term, name: string, arity: int32)
    ensures IsInt32(term) <==> AsInt32(term).Some?
    ensures IsString(term) <==> AsString(term).Some?
    ensures IsSingle(term) <==> AsSingle(term).Some?
    ensures arity >= 0 ==> (IsCons(term, name, arity) == Success(true) <==> AsCons(term, name, arity).value.Some?)
    ensures arity >= 0 ==> (IsCons(term, name, arity) == Success(true) <==> ToCons(term, name, arity).Success?)
    ensures ToString(term).Failure? ==> ToString(term).error.InvalidCastException?
  {
  }

  /** A failed Int conversion names the term as the writer prints it, here an escaped, quoted string. */
  lemma ToInt32FailureMessage(s: string, f: object)
    ensures ToInt32(StringTerm(s, [], f)) == Failure(InvalidCastException("Can't cast term \"" + StringEscaper.Escaped(s, ATermWriter.EscapeTable) + "\" to Int32."))
  {
    var t := StringTerm(s, [], f);
    assert ATermWriter.AnnotationsText([], t) == "";
    var e := StringEscaper.Escaped(s, ATermWriter.EscapeTable);
    assert ATermWriter.TermText(t) == "\"" + e + "\"";
    assert "Can't cast term " + ("\"" + e + "\"") + " to Int32." == "Can't cast term \"" + e + "\" to Int32.";
  }
}
