/**
 * `TrivialTermFactory` and the conveniences it inherits from `AbstractTermFactory`.
 * Each builder returns a fresh immutable term carrying exactly its arguments, with this factory
 * as `Factory`. Children are not checked for ownership.
 */
module TrivialTermFactory {
  import opened Wrappers
  import opened Text
  import opened ATerms

  /** `Enumerable.Reverse`. */
  function Reverse(s: seq<Term>): (r: seq<Term>)
    ensures |r| == |s|
  {
    if s == [] then [] else [s[|s| - 1]] + Reverse(s[..|s| - 1])
  }

  /** Every cell of the chain, and the empty list ending it, is unannotated and built by `f`. */
  predicate UnannotatedChain(l: List, f: object)
  {
    l.annotations == [] && l.factory == f && (l.ListCell? ==> UnannotatedChain(l.tail, f))
  }

  class TrivialTermFactory {

    constructor()
    {
    }

    /** `Owns`: a type test that holds for every trivial term, whichever factory built it. */
    function Owns(t: Term): (r: bool)
      ensures r
    {
      true
    }

    function Int(value: int32, annotations: seq<Term>): (r: Term)
      ensures r.IntTerm? && r.value == value
      ensures r.Annotations() == annotations && r.Factory() == this
    {
      IntTerm(value, annotations, this)
    }

    function Real(literal: RealLiteral, annotations: seq<Term>): (r: Term)
      ensures r.RealTerm? && r.literal == literal
      ensures r.Annotations() == annotations && r.Factory() == this
    {
      RealTerm(literal, annotations, this)
    }

    function String(value: string, annotations: seq<Term>): (r: Term)
      ensures r.StringTerm? && r.text == value
      ensures r.Annotations() == annotations && r.Factory() == this
    {
      StringTerm(value, annotations, this)
    }

    function ListConsNil(head: Term, tail: List, annotations: seq<Term>): (r: List)
      ensures r.Head() == Some(head) && r.Tail() == Some(tail)
      ensures r.Count() == tail.Count() + 1
      ensures r.annotations == annotations && r.factory == this
    {
      ListCell(head, tail, annotations, this)
    }

    function EmptyList(annotations: seq<Term>): (r: List)
      ensures r.IsEmpty() && r.Head().None? && r.Tail().None?
      ensures r.annotations == annotations && r.factory == this
    {
      ATerms.EmptyList(annotations, this)
    }

    function Cons(name: string, terms: seq<Term>, annotations: seq<Term>): (r: Term)
      ensures r.ConsTerm? && r.name == name && SubTerms(r) == terms
      ensures r.Annotations() == annotations && r.Factory() == this
    {
      ConsTerm(name, terms, annotations, this)
    }

    function Placeholder(template: Term, annotations: seq<Term>): (r: Term)
      ensures r.PlaceholderTerm? && SubTerms(r) == [template]
      ensures r.Annotations() == annotations && r.Factory() == this
    {
      PlaceholderTerm(template, annotations, this)
    }

    /**
     * `Aggregate(seed, (current, term) => ListConsNil(term, current))`: each term becomes a new
     * outermost cell of this factory, so the last term heads the result.
     */
    function Aggregate(ts: seq<Term>, seed: List): (r: List)
      ensures r.Count() == seed.Count() + |ts|
      ensures ts != [] ==> r.ListCell? && r.head == ts[|ts| - 1] && r.factory == this
    {
      if ts == [] then seed else Aggregate(ts[1..], ListConsNil(ts[0], seed, []))
    }

    /**
     * `AbstractTermFactory.List`: the empty sequence gives an empty list carrying the annotations;
     * otherwise the elements after the first are folded right-to-left onto an unannotated empty list,
     * and the first element heads the outermost cell, the only one carrying the annotations.
     */
    function List(terms: seq<Term>, annotations: seq<Term>): (r: List)
      ensures Elements(r) == terms
      ensures r.Count() == |terms|
      ensures r.annotations == annotations && r.factory == this
      ensures terms == [] ==> r == EmptyList(annotations)
      ensures terms != [] ==> r.ListCell? && UnannotatedChain(r.tail, this)
    {
      if |terms| > 0 then
        var tail := Aggregate(Reverse(terms[1..]), EmptyList([]));
        AggregateReversed(terms[1..], EmptyList([]));
        ElementsLength(ListConsNil(terms[0], tail, annotations));
        ListConsNil(terms[0], tail, annotations)
      else
        EmptyList(annotations)
    }

    /** Folding the reversed sequence prepends the sequence, in order, with unannotated cells. */
    lemma {:induction false} AggregateReversed(s: seq<Term>, seed: List)
      ensures Elements(Aggregate(Reverse(s), seed)) == s + Elements(seed)
      ensures UnannotatedChain(seed, this) ==> UnannotatedChain(Aggregate(Reverse(s), seed), this)
      decreases |s|
    {
      if s != [] {
        var last, init := s[|s| - 1], s[..|s| - 1];
        var cell := ListConsNil(last, seed, []);
        assert Reverse(s) == [last] + Reverse(init);
        assert Aggregate(Reverse(s), seed) == Aggregate(Reverse(init), cell);
        AggregateReversed(init, cell);
        assert s == init + [last];
      }
    }

    /** `Tuple(terms, annotations)`: a Cons with the empty name. */
    function Tuple(terms: seq<Term>, annotations: seq<Term>): (r: Term)
      ensures r.ConsTerm? && r.IsTuple() && SubTerms(r) == terms
      ensures r.Annotations() == annotations && r.Factory() == this
    {
      Cons("", terms, annotations)
    }

    // The overloads without annotations pass the empty annotation list.

    function IntWithoutAnnotations(value: int32): (r: Term)
      ensures r.IntTerm? && r.value == value && r.Annotations() == [] && r.Factory() == this
    {
      Int(value, [])
    }

    function RealWithoutAnnotations(literal: RealLiteral): (r: Term)
      ensures r.RealTerm? && r.literal == literal && r.Annotations() == [] && r.Factory() == this
    {
      Real(literal, [])
    }

    function StringWithoutAnnotations(value: string): (r: Term)
      ensures r.StringTerm? && r.text == value && r.Annotations() == [] && r.Factory() == this
    {
      String(value, [])
    }

    function ListConsNilWithoutAnnotations(head: Term, tail: List): (r: List)
      ensures r.Head() == Some(head) && r.Tail() == Some(tail) && r.annotations == [] && r.factory == this
    {
      ListConsNil(head, tail, [])
    }

    function ListWithoutAnnotations(terms: seq<Term>): (r: List)
      ensures Elements(r) == terms && r.annotations == [] && r.factory == this
    {
      List(terms, [])
    }

    function EmptyListWithoutAnnotations(): (r: List)
      ensures r.IsEmpty() && r.annotations == [] && r.factory == this
    {
      EmptyList([])
    }

    function TupleWithoutAnnotations(terms: seq<Term>): (r: Term)
      ensures r.ConsTerm? && r.IsTuple() && SubTerms(r) == terms && r.Annotations() == []
    {
      Tuple(terms, [])
    }

    function ConsWithoutAnnotations(name: string, terms: seq<Term>): (r: Term)
      ensures r.ConsTerm? && r.name == name && SubTerms(r) == terms && r.Annotations() == []
    {
      Cons(name, terms, [])
    }

    function PlaceholderWithoutAnnotations(template: Term): (r: Term)
      ensures r.PlaceholderTerm? && SubTerms(r) == [template] && r.Annotations() == []
    {
      Placeholder(template, [])
    }
  }

  /** Building the same list twice gives equal terms, and lists of different sequences differ. */
  lemma ListIsInjective(f: TrivialTermFactory, xs: seq<Term>, ys: seq<Term>, annotations: seq<Term>)
    ensures Equals(ListTerm(f.List(xs, annotations)), ListTerm(f.List(ys, annotations))) <==> xs == ys
  {
    EqualsIsStructural(ListTerm(f.List(xs, annotations)), ListTerm(f.List(ys, annotations)));
    if f.List(xs, annotations) == f.List(ys, annotations) {
      assert Elements(f.List(xs, annotations)) == Elements(f.List(ys, annotations));
    }
  }
}
