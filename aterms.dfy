/**
 * The terms built by the trivial term factory: Int, Real, String, Cons, List (an empty list or a
 * head/tail cell) and Placeholder. Every term carries its annotations and the factory that built it.
 * Terms are immutable values, so they are modelled as a datatype.
 */
module ATerms {
  import opened Wrappers
  import opened Exceptions
  import opened Text

  /** The digits a real term was read from; the float value itself is not modelled. */
  datatype RealLiteral = RealLiteral(integral: string, fraction: string, exponent: string)

  datatype Term =
    | IntTerm(value: int32, annotations: seq<Term>, factory: object)
    | RealTerm(literal: RealLiteral, annotations: seq<Term>, factory: object)
    | StringTerm(text: string, annotations: seq<Term>, factory: object)
    | ConsTerm(name: string, subTerms: seq<Term>, annotations: seq<Term>, factory: object)
    | ListTerm(list: List)
    | PlaceholderTerm(template: Term, annotations: seq<Term>, factory: object)
  {
    function Annotations(): seq<Term>
    {
      if ListTerm? then list.annotations else annotations
    }

    function Factory(): object
    {
      if ListTerm? then list.factory else factory
    }

    /** `ConsTerm.IsTuple`. */
    predicate IsTuple()
      requires ConsTerm?
    {
      name == ""
    }
  }

  /** A list term: the empty list, or a cell with a head term and a tail list. */
  datatype List =
    | EmptyList(annotations: seq<Term>, factory: object)
    | ListCell(head: Term, tail: List, annotations: seq<Term>, factory: object)
  {
    /** `ListTerm.Count`, fixed at construction: 0 for the empty list, `tail.Count + 1` for a cell. */
    function Count(): nat
    {
      if EmptyList? then 0 else tail.Count() + 1
    }

    /** `ListTerm.IsEmpty`. */
    predicate IsEmpty()
    {
      Count() == 0
    }

    /** `ListTerm.Head`, null (`None`) for the empty list. */
    function Head(): Option<Term>
    {
      if EmptyList? then None else Some(head)
    }

    /** `ListTerm.Tail`, null (`None`) for the empty list. */
    function Tail(): Option<List>
    {
      if EmptyList? then None else Some(tail)
    }
  }

  /** The runtime class of a term, as `GetType()` tells them apart. */
  datatype Kind = IntKind | RealKind | StringKind | ConsKind | ListKind | PlaceholderKind

  function KindOf(t: Term): Kind
  {
    match t
    case IntTerm(_, _, _) => IntKind
    case RealTerm(_, _, _) => RealKind
    case StringTerm(_, _, _) => StringKind
    case ConsTerm(_, _, _, _) => ConsKind
    case ListTerm(_) => ListKind
    case PlaceholderTerm(_, _, _) => PlaceholderKind
  }

  // ---------------------------------------------------------------- equality

  /**
   * `Term.Equals(ITerm)` followed by each kind's own comparison. The reference shortcut is
   * absorbed: a term is always structurally equal to itself. Annotations and subterms are
   * compared with `SequenceEqual`, which calls `Equals` on each pair in order.
   */
  predicate Equals(a: Term, b: Term)
  {
    match a
    case IntTerm(v, an, f) =>
      b.IntTerm? && f == b.factory && SequenceEqual(an, b.annotations) && v == b.value
    case RealTerm(lit, an, f) =>
      b.RealTerm? && f == b.factory && SequenceEqual(an, b.annotations) && lit == b.literal
    case StringTerm(s, an, f) =>
      b.StringTerm? && f == b.factory && SequenceEqual(an, b.annotations) && s == b.text
    case ConsTerm(n, ts, an, f) =>
      b.ConsTerm? && f == b.factory && SequenceEqual(an, b.annotations)
      && n == b.name && SequenceEqual(ts, b.subTerms)
    case ListTerm(l) =>
      b.ListTerm? && ListEquals(l, b.list)
    case PlaceholderTerm(tp, an, f) =>
      b.PlaceholderTerm? && f == b.factory && SequenceEqual(an, b.annotations) && Equals(tp, b.template)
  }

  /** `ListTerm.Equals`: the base part, then `Object.Equals` on the heads and on the tails (null equals null). */
  predicate ListEquals(a: List, b: List)
  {
    match a
    case EmptyList(an, f) =>
      f == b.factory && SequenceEqual(an, b.annotations) && b.EmptyList?
    case ListCell(h, tl, an, f) =>
      f == b.factory && SequenceEqual(an, b.annotations) && b.ListCell? && Equals(h, b.head) && ListEquals(tl, b.tail)
  }

  /** `Enumerable.SequenceEqual` with the default comparer. */
  predicate SequenceEqual(xs: seq<Term>, ys: seq<Term>)
  {
    if xs == [] then ys == []
    else ys != [] && Equals(xs[0], ys[0]) && SequenceEqual(xs[1..], ys[1..])
  }

  /** The source's equality is exactly structural equality of the model. */
  lemma {:induction false} EqualsIsStructural(a: Term, b: Term)
    ensures Equals(a, b) <==> a == b
  {
    match a
    case IntTerm(_, an, _) =>
      if b.IntTerm? { SequenceEqualIsStructural(an, b.annotations); }
    case RealTerm(_, an, _) =>
      if b.RealTerm? { SequenceEqualIsStructural(an, b.annotations); }
    case StringTerm(_, an, _) =>
      if b.StringTerm? { SequenceEqualIsStructural(an, b.annotations); }
    case ConsTerm(_, ts, an, _) =>
      if b.ConsTerm? {
        SequenceEqualIsStructural(an, b.annotations);
        SequenceEqualIsStructural(ts, b.subTerms);
      }
    case ListTerm(l) =>
      if b.ListTerm? { ListEqualsIsStructural(l, b.list); }
    case PlaceholderTerm(tp, an, _) =>
      if b.PlaceholderTerm? {
        SequenceEqualIsStructural(an, b.annotations);
        EqualsIsStructural(tp, b.template);
      }
  }

  lemma {:induction false} ListEqualsIsStructural(a: List, b: List)
    ensures ListEquals(a, b) <==> a == b
  {
    match a
    case EmptyList(an, _) =>
      SequenceEqualIsStructural(an, b.annotations);
    case ListCell(h, tl, an, _) =>
      SequenceEqualIsStructural(an, b.annotations);
      if b.ListCell? {
        EqualsIsStructural(h, b.head);
        ListEqualsIsStructural(tl, b.tail);
      }
  }

  lemma {:induction false} SequenceEqualIsStructural(xs: seq<Term>, ys: seq<Term>)
    ensures SequenceEqual(xs, ys) <==> xs == ys
  {
    if xs != [] && ys != [] {
      EqualsIsStructural(xs[0], ys[0]);
      SequenceEqualIsStructural(xs[1..], ys[1..]);
      if xs[0] == ys[0] && xs[1..] == ys[1..] {
        assert xs == [xs[0]] + xs[1..];
        assert ys == [ys[0]] + ys[1..];
      }
    }
  }

  /** `Equals` is false between terms of different runtime classes, and between different factories. */
  lemma EqualTermsShareKindAndFactory(a: Term, b: Term)
    requires Equals(a, b)
    ensures KindOf(a) == KindOf(b)
    ensures a.Factory() == b.Factory()
    ensures a.Annotations() == b.Annotations()
  {
    EqualsIsStructural(a, b);
  }

  /** `==` on each kind is `Object.Equals`, and `!=` its negation. */
  predicate OperatorEquals(left: Option<Term>, right: Option<Term>)
  {
    match left
    case None => right.None?
    case Some(l) => right.Some? && Equals(l, right.value)
  }

  lemma OperatorsAgreeWithEquality(left: Option<Term>, right: Option<Term>)
    ensures OperatorEquals(left, right) <==> left == right
    ensures !OperatorEquals(left, right) <==> left != right
  {
    if left.Some? && right.Some? {
      EqualsIsStructural(left.value, right.value);
    }
  }

  // ---------------------------------------------------------------- hashing

  /** Unchecked 32-bit two's-complement arithmetic. */
  function Wrap(x: int): int32
  {
    ((x + 0x8000_0000) % 0x1_0000_0000 - 0x8000_0000) as int32
  }

  /** The hash codes the terms take from the runtime: the factory's, a string's and a float's. */
  datatype RuntimeHashes = RuntimeHashes(ofObject: object -> int32, ofString: string -> int32, ofReal: RealLiteral -> int32)

  /** `Term.GetHashCode`: `17 * 29 + Factory.GetHashCode()`; the annotations are not used. */
  function BaseHash(f: object, h: RuntimeHashes): int32
  {
    Wrap(17 * 29 + h.ofObject(f) as int)
  }

  function HashCode(t: Term, h: RuntimeHashes): int32
    decreases t
  {
    match t
    case IntTerm(v, _, f) => Wrap(BaseHash(f, h) as int * 29 + v as int)
    case RealTerm(lit, _, f) => Wrap(BaseHash(f, h) as int * 29 + h.ofReal(lit) as int)
    case StringTerm(s, _, f) => Wrap(BaseHash(f, h) as int * 29 + h.ofString(s) as int)
    case ConsTerm(n, ts, _, f) => FoldHash(Wrap(BaseHash(f, h) as int * 29 + h.ofString(n) as int), ts, h)
    case ListTerm(l) => ListHashCode(l, h)
    case PlaceholderTerm(tp, _, f) => Wrap(BaseHash(f, h) as int * 29 + HashCode(tp, h) as int)
  }

  /** The hash of a list folds in the head's and the tail's hash, 0 for null. */
  function ListHashCode(l: List, h: RuntimeHashes): int32
  {
    match l
    case EmptyList(_, f) => Wrap(Wrap(BaseHash(f, h) as int * 29) as int * 29)
    case ListCell(hd, tl, _, f) => Wrap(Wrap(BaseHash(f, h) as int * 29 + HashCode(hd, h) as int) as int * 29 + ListHashCode(tl, h) as int)
  }

  /** `Aggregate(hash, (current, term) => current * 29 + term.GetHashCode())`. */
  function FoldHash(seed: int32, ts: seq<Term>, h: RuntimeHashes): int32
    decreases ts
  {
    if ts == [] then seed else FoldHash(Wrap(seed as int * 29 + HashCode(ts[0], h) as int), ts[1..], h)
  }

  /** Equal terms have equal hash codes. */
  lemma EqualTermsHashEqually(a: Term, b: Term, h: RuntimeHashes)
    requires Equals(a, b)
    ensures HashCode(a, h) == HashCode(b, h)
  {
    EqualsIsStructural(a, b);
  }

  /** The same term with other annotations. */
  function WithAnnotations(t: Term, annotations: seq<Term>): (r: Term)
    ensures KindOf(r) == KindOf(t) && r.Factory() == t.Factory() && r.Annotations() == annotations
  {
    match t
    case IntTerm(v, _, f) => IntTerm(v, annotations, f)
    case RealTerm(lit, _, f) => RealTerm(lit, annotations, f)
    case StringTerm(s, _, f) => StringTerm(s, annotations, f)
    case ConsTerm(n, ts, _, f) => ConsTerm(n, ts, annotations, f)
    case ListTerm(EmptyList(_, f)) => ListTerm(EmptyList(annotations, f))
    case ListTerm(ListCell(hd, tl, _, f)) => ListTerm(ListCell(hd, tl, annotations, f))
    case PlaceholderTerm(tp, _, f) => PlaceholderTerm(tp, annotations, f)
  }

  /** A hash code does not depend on the annotations of the term itself. */
  lemma HashIgnoresAnnotations(t: Term, annotations: seq<Term>, h: RuntimeHashes)
    ensures HashCode(WithAnnotations(t, annotations), h) == HashCode(t, h)
  {
  }

  // ---------------------------------------------------------------- subterms

  /** The heads along the tail chain, in order. */
  function Elements(l: List): seq<Term>
  {
    if l.EmptyList? then [] else [l.head] + Elements(l.tail)
  }

  lemma {:induction false} ElementsLength(l: List)
    ensures |Elements(l)| == l.Count()
  {
    if l.ListCell? {
      ElementsLength(l.tail);
    }
  }

  /** The elements of a list are smaller than the list, so recursion over them terminates. */
  lemma {:induction false} ElementsSmaller(l: List)
    ensures forall i :: 0 <= i < |Elements(l)| ==> Elements(l)[i] < l
  {
    if l.ListCell? {
      ElementsSmaller(l.tail);
    }
  }

  /** `ListTerm.IsEmpty` holds exactly for the empty list, whose `Head` and `Tail` are null. */
  lemma IsEmptyIffNil(l: List)
    ensures l.IsEmpty() <==> l.EmptyList?
    ensures l.IsEmpty() <==> l.Head().None? && l.Tail().None?
  {
  }

  /** The `SubTerms` getter of a list: the while loop that walks the tail chain collecting heads. */
  method ListSubTerms(l: List) returns (result: seq<Term>)
    ensures result == Elements(l)
    ensures |result| == l.Count()
  {
    result := [];
    var current := l;
    while !current.IsEmpty()
      invariant result + Elements(current) == Elements(l)
      decreases current
    {
      result := result + [current.head];
      current := current.tail;
    }
    ElementsLength(l);
  }

  /**
   * `SubTerms`: the children of a Cons, the elements of a List, the template of a Placeholder,
   * otherwise none. Every subterm is structurally smaller than its term, and a list has `Count`.
   */
  function SubTerms(t: Term): (r: seq<Term>)
    ensures forall i :: 0 <= i < |r| ==> r[i] < t
    ensures t.ListTerm? ==> |r| == t.list.Count()
  {
    match t
    case ConsTerm(_, ts, _, _) => ts
    case ListTerm(l) =>
      ElementsSmaller(l);
      ElementsLength(l);
      Elements(l)
    case PlaceholderTerm(tp, _, _) => [tp]
    case _ => []
  }

  /** The indexer `this[index]`, which is `SubTerms[index]`; an index out of range raises. */
  function Index(t: Term, index: int): (r: Result<Term, Exception>)
    ensures r.Success? <==> 0 <= index < |SubTerms(t)|
    ensures r.Success? ==> r.value == SubTerms(t)[index]
    ensures r.Failure? ==> r.error == ArgumentOutOfRangeException("index")
  {
    if 0 <= index < |SubTerms(t)| then Success(SubTerms(t)[index]) else Failure(ArgumentOutOfRangeException("index"))
  }

  /** A placeholder's only subterm is its template; Int, Real and String terms have none. */
  lemma SubTermsByKind(t: Term)
    ensures t.PlaceholderTerm? ==> SubTerms(t) == [t.template]
    ensures t.IntTerm? || t.RealTerm? || t.StringTerm? ==> SubTerms(t) == []
  {
  }

  // ---------------------------------------------------------------- visitors

  /** An `ITermVisitor<TResult>`: one function per visit method. */
  datatype Visitor<R> = Visitor(
    visitTerm: Term -> R,
    visitCons: Term -> R,
    visitInt: Term -> R,
    visitList: Term -> R,
    visitPlaceholder: Term -> R,
    visitReal: Term -> R,
    visitString: Term -> R)

  /** `Accept`: every kind overrides the base, so each calls its own visit method and `VisitTerm` is never reached. */
  function Accept<R>(t: Term, v: Visitor<R>): (r: R)
    ensures t.ConsTerm? ==> r == v.visitCons(t)
    ensures t.IntTerm? ==> r == v.visitInt(t)
    ensures t.ListTerm? ==> r == v.visitList(t)
    ensures t.PlaceholderTerm? ==> r == v.visitPlaceholder(t)
    ensures t.RealTerm? ==> r == v.visitReal(t)
    ensures t.StringTerm? ==> r == v.visitString(t)
  {
    match t
    case ConsTerm(_, _, _, _) => v.visitCons(t)
    case IntTerm(_, _, _) => v.visitInt(t)
    case ListTerm(_) => v.visitList(t)
    case PlaceholderTerm(_, _, _) => v.visitPlaceholder(t)
    case RealTerm(_, _, _) => v.visitReal(t)
    case StringTerm(_, _, _) => v.visitString(t)
  }
}
