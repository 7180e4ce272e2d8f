/**
 * `CodeGenerator` of the entity language: C# source text generated from a module, entity or
 * property term, built as String and List terms through the generator's term factory and
 * concatenated at the end.
 *
 * The texts are specified by `ModuleText`, `EntityText` and `PropertyText`. The generator
 * produces them when its factory has a `NullTermCache`, as in the generator's test; with a
 * `SimpleTermCache` the factory hands back earlier String terms in place of new ones (String
 * terms are equal whatever their values), and only the shape of the result is stated.
 */
module CodeGeneration {
  import opened Wrappers
  import opened TypedTerms
  import opened TypedTermFacts
  import opened TypedTermFactory

  // ---------------------------------------------------------------- the generated texts

  /** The value of a String term. */
  function Value(t: Term): string
    requires t.payload.StringValue?
  {
    t.payload.text
  }

  /** Whether every term is a String term. */
  predicate AllStrings(ts: seq<Term>)
  {
    forall i :: 0 <= i < |ts| ==> ts[i].payload.StringValue?
  }

  /** The values of String terms, concatenated in order. */
  function ConcatValues(ts: seq<Term>): string
    requires AllStrings(ts)
  {
    if ts == [] then "" else ConcatValues(ts[..|ts| - 1]) + Value(ts[|ts| - 1])
  }

  /** The text of a property: `\t\tpublic <type> <name>;` and a CR LF. */
  function PropertyText(p: Term): string
    requires p.Valid() && p.payload.PropertyParts?
  {
    assert p.payload.propertyType.Valid();
    "\t\tpublic " + Value(p.payload.propertyType.payload.name) + " " + Value(p.payload.name) + ";\r\n"
  }

  /** Whether every term is a valid property term. */
  ghost predicate AllProperties(ps: seq<Term>)
  {
    forall i :: 0 <= i < |ps| ==> ps[i].Valid() && ps[i].payload.PropertyParts?
  }

  /** The texts of some properties, in order. */
  function PropertiesText(ps: seq<Term>): string
    requires AllProperties(ps)
  {
    if ps == [] then "" else PropertiesText(ps[..|ps| - 1]) + PropertyText(ps[|ps| - 1])
  }

  /** The text of an entity: its class header, its properties' texts in order, and the closing brace. */
  function EntityText(e: Term): string
    requires e.Valid() && e.payload.EntityParts?
  {
    ElementsOf(e.payload.properties, PropertyTerms);
    "\tpublic class " + Value(e.payload.name) + "\r\n" + "\t{\r\n"
    + PropertiesText(e.payload.properties.payload.elements) + "\t}\r\n"
  }

  /** Whether every term is a valid entity term. */
  ghost predicate AllEntities(es: seq<Term>)
  {
    forall i :: 0 <= i < |es| ==> es[i].Valid() && es[i].payload.EntityParts?
  }

  /** The texts of some entities, in order. */
  function EntitiesText(es: seq<Term>): string
    requires AllEntities(es)
  {
    if es == [] then "" else EntitiesText(es[..|es| - 1]) + EntityText(es[|es| - 1])
  }

  const ModuleHeader := "using System;\r\n" + "\r\n" + "namespace Entities\r\n" + "{\r\n"
  const ModuleFooter := "}\r\n"

  /** The text of a module: the `using` line and the namespace, its entities' texts in order, and the closing brace. */
  function ModuleText(m: Term): string
    requires m.Valid() && m.payload.ModuleParts?
  {
    ElementsOf(m.payload.definitions, EntityTerms);
    ModuleHeader + EntitiesText(m.payload.definitions.payload.elements) + ModuleFooter
  }

  /** What `Generate(term)` produces: the text of a module, entity or property, and nothing for any other term. */
  function GeneratedText(t: Term): Option<string>
    requires t.Valid()
  {
    match t.payload
    case ModuleParts(_, _) => Some(ModuleText(t))
    case EntityParts(_, _) => Some(EntityText(t))
    case PropertyParts(_, _) => Some(PropertyText(t))
    case _ => None
  }

  // ---------------------------------------------------------------- the generator

  class CodeGenerator {
    const factory: ATermFactory

    /** `CodeGenerator(factory)`. */
    constructor (factory: ATermFactory)
      ensures this.factory == factory
    {
      this.factory := factory;
    }

    /** `factory.String(value)`, as the generator calls it: with no annotations. */
    method NewString(value: string) returns (r: Term)
      requires factory.Valid()
      modifies factory.Footprint()
      ensures factory.Valid() && r.Valid() && r.payload.StringValue? && r.annotations == []
      ensures factory.cache.NullCache? ==> r.payload.text == value
    {
      r := factory.String(value, []);
    }

    /** `factory.List(elements)` of String terms, as the generator calls it: with no annotations. */
    method NewStringList(elements: seq<Term>) returns (r: Term)
      requires factory.Valid()
      requires forall i :: 0 <= i < |elements| ==> elements[i].Valid() && elements[i].payload.StringValue?
      modifies factory.Footprint()
      ensures factory.Valid() && r.Valid() && r.RuntimeType() == ListTermType(StringTerms)
      ensures factory.cache.NullCache? ==> r.payload.elements == elements
    {
      r := factory.List(StringTerms, elements, []);
    }

    /** `factory.List(first, middle, last)` of lists of String terms, as the generator calls it: with no annotations. */
    method NewThreeLists(first: Term, middle: Term, last: Term) returns (r: Term)
      requires factory.Valid()
      requires first.Valid() && first.IsA(ListsOf(StringTerms))
      requires middle.Valid() && middle.IsA(ListsOf(StringTerms))
      requires last.Valid() && last.IsA(ListsOf(StringTerms))
      modifies factory.Footprint()
      ensures factory.Valid() && r.Valid() && r.RuntimeType() == ListTermType(ListsOf(StringTerms))
      ensures factory.cache.NullCache? ==> r.payload.elements == [first, middle, last]
    {
      r := factory.List(ListsOf(StringTerms), [first, middle, last], []);
    }

    /**
     * `Concat(Factory, Flatten(Factory, Factory.List(first, middle, last)))`, the last step of
     * generating a module or an entity: one String term holding the values of the three lists.
     */
    method ConcatThree(first: Term, middle: Term, last: Term) returns (r: Term)
      requires factory.Valid()
      requires first.Valid() && first.RuntimeType() == ListTermType(StringTerms)
      requires middle.Valid() && middle.RuntimeType() == ListTermType(StringTerms)
      requires last.Valid() && last.RuntimeType() == ListTermType(StringTerms)
      modifies factory.Footprint()
      ensures factory.Valid() && r.Valid() && r.payload.StringValue?
      ensures factory.cache.NullCache? ==>
                r.payload.text == ConcatValues(first.payload.elements) + ConcatValues(middle.payload.elements)
                                  + ConcatValues(last.payload.elements)
    {
      var parts := NewThreeLists(first, middle, last);
      var flat := Flatten(parts);
      r := Concat(flat);
      if factory.cache.NullCache? {
        FlattenThree(first, middle, last);
      }
    }

    /** `Generate(ITerm)`: a module, entity or property term is generated; any other term gives null. */
    method Generate(t: Term) returns (r: Option<Term>)
      requires factory.Valid() && t.Valid()
      modifies factory.Footprint()
      ensures factory.Valid()
      ensures r.Some? <==> GeneratedText(t).Some?
      ensures r.Some? ==> r.value.Valid() && r.value.payload.StringValue?
      ensures r.Some? && factory.cache.NullCache? ==> Some(r.value.payload.text) == GeneratedText(t)
    {
      match t.payload
      case ModuleParts(_, _) =>
        var m := GenerateModule(t);
        r := Some(m);
      case EntityParts(_, _) =>
        var e := GenerateEntity(t);
        r := Some(e);
      case PropertyParts(_, _) =>
        var p := GenerateProperty(t);
        r := Some(p);
      case _ =>
        r := None;
    }

    /** `Generate(IModuleTerm)`. */
    method GenerateModule(m: Term) returns (r: Term)
      requires factory.Valid() && m.Valid() && m.payload.ModuleParts?
      modifies factory.Footprint()
      ensures factory.Valid() && r.Valid() && r.payload.StringValue?
      ensures factory.cache.NullCache? ==> r.payload.text == ModuleText(m)
    {
      var header := NewString(ModuleHeader);
      var first := NewStringList([header]);
      var entities := MapEntities(m.payload.definitions);
      var footer := NewString(ModuleFooter);
      var last := NewStringList([footer]);
      r := ConcatThree(first, entities, last);
      if factory.cache.NullCache? {
        ConcatValuesOne(header);
        ConcatValuesOne(footer);
      }
    }

    /** `Generate(IEntityTerm)`. */
    method GenerateEntity(e: Term) returns (r: Term)
      requires factory.Valid() && e.Valid() && e.payload.EntityParts?
      modifies factory.Footprint()
      ensures factory.Valid() && r.Valid() && r.payload.StringValue?
      ensures factory.cache.NullCache? ==> r.payload.text == EntityText(e)
    {
      var classKeyword := NewString("\tpublic class ");
      var lineEnd := NewString("\r\n");
      var open := NewString("\t{\r\n");
      var first := NewStringList([classKeyword, e.payload.name, lineEnd, open]);
      var properties := MapProperties(e.payload.properties);
      var close := NewString("\t}\r\n");
      var last := NewStringList([close]);
      r := ConcatThree(first, properties, last);
      if factory.cache.NullCache? {
        ConcatValuesFour(classKeyword, e.payload.name, lineEnd, open);
        ConcatValuesOne(close);
      }
    }

    /** `Generate(IPropertyTerm)`. */
    method GenerateProperty(p: Term) returns (r: Term)
      requires factory.Valid() && p.Valid() && p.payload.PropertyParts?
      modifies factory.Footprint()
      ensures factory.Valid() && r.Valid() && r.payload.StringValue?
      ensures factory.cache.NullCache? ==> r.payload.text == PropertyText(p)
    {
      var publicKeyword := NewString("\t\tpublic ");
      var space := NewString(" ");
      var semicolon := NewString(";\r\n");
      var parts := NewStringList([publicKeyword, p.payload.propertyType.payload.name, space, p.payload.name, semicolon]);
      r := Concat(parts);
      if factory.cache.NullCache? {
        ConcatValuesFive(publicKeyword, p.payload.propertyType.payload.name, space, p.payload.name, semicolon);
      }
    }

    /** `Concat(factory, strs)`: one String term holding the values of the list's String terms, in order. */
    method Concat(strs: Term) returns (r: Term)
      requires factory.Valid() && strs.Valid() && strs.IsA(ListsOf(StringTerms))
      modifies factory.Footprint()
      ensures factory.Valid() && r.Valid() && r.payload.StringValue? && r.annotations == []
      ensures factory.cache.NullCache? ==> r.payload.text == ConcatValues(strs.payload.elements)
    {
      var values := strs.ListEnumeration();
      ElementsOf(strs, StringTerms);
      var sb := "";
      var i := 0;
      while i < |values|
        invariant 0 <= i <= |values|
        invariant sb == ConcatValues(values[..i])
      {
        assert values[..i + 1][..i] == values[..i];
        sb := sb + values[i].payload.text;
        i := i + 1;
      }
      assert values[..|values|] == values;
      r := NewString(sb);
    }

    /** `Map(factory, definitions, Generate)`: the texts of a module's entities, as a list of String terms in order. */
    method MapEntities(list: Term) returns (r: Term)
      requires factory.Valid() && list.Valid() && list.IsA(ListsOf(EntityTerms))
      modifies factory.Footprint()
      ensures factory.Valid() && r.Valid() && r.RuntimeType() == ListTermType(StringTerms)
      ensures factory.cache.NullCache? ==> |r.payload.elements| == |list.payload.elements|
      ensures factory.cache.NullCache? ==>
                ConcatValues(r.payload.elements) == EntitiesText(list.payload.elements)
    {
      var es := list.ListEnumeration();
      ElementsOf(list, EntityTerms);
      var texts: seq<Term> := [];
      var i := 0;
      while i < |es|
        invariant 0 <= i <= |es| && |texts| == i
        invariant factory.Valid()
        invariant forall k :: 0 <= k < i ==> texts[k].Valid() && texts[k].payload.StringValue?
        invariant factory.cache.NullCache? ==> ConcatValues(texts) == EntitiesText(es[..i])
      {
        var text := GenerateEntity(es[i]);
        if factory.cache.NullCache? {
          EntitiesTextStep(es, i, texts, text);
        }
        texts := texts + [text];
        i := i + 1;
      }
      assert es[..|es|] == es;
      r := NewStringList(texts);
    }

    /** `Map(factory, properties, Generate)`: the texts of an entity's properties, as a list of String terms in order. */
    method MapProperties(list: Term) returns (r: Term)
      requires factory.Valid() && list.Valid() && list.IsA(ListsOf(PropertyTerms))
      modifies factory.Footprint()
      ensures factory.Valid() && r.Valid() && r.RuntimeType() == ListTermType(StringTerms)
      ensures factory.cache.NullCache? ==> |r.payload.elements| == |list.payload.elements|
      ensures factory.cache.NullCache? ==>
                ConcatValues(r.payload.elements) == PropertiesText(list.payload.elements)
    {
      var ps := list.ListEnumeration();
      ElementsOf(list, PropertyTerms);
      var texts: seq<Term> := [];
      var i := 0;
      while i < |ps|
        invariant 0 <= i <= |ps| && |texts| == i
        invariant factory.Valid()
        invariant forall k :: 0 <= k < i ==> texts[k].Valid() && texts[k].payload.StringValue?
        invariant factory.cache.NullCache? ==> ConcatValues(texts) == PropertiesText(ps[..i])
      {
        var text := GenerateProperty(ps[i]);
        if factory.cache.NullCache? {
          PropertiesTextStep(ps, i, texts, text);
        }
        texts := texts + [text];
        i := i + 1;
      }
      assert ps[..|ps|] == ps;
      r := NewStringList(texts);
    }

    /** `Flatten(factory, lists)`: one list holding the elements of the sublists, in order. */
    method Flatten(lists: Term) returns (r: Term)
      requires factory.Valid() && lists.Valid() && lists.IsA(ListsOf(ListsOf(StringTerms)))
      modifies factory.Footprint()
      ensures factory.Valid() && r.Valid() && r.IsA(ListsOf(StringTerms))
      ensures factory.cache.NullCache? ==> r.payload.elements == FlattenElements(lists.payload.elements)
    {
      var ls := lists.ListEnumeration();
      ElementsOf(lists, ListsOf(StringTerms));
      var elements: seq<Term> := [];
      var i := 0;
      while i < |ls|
        invariant 0 <= i <= |ls|
        invariant elements == FlattenElements(ls[..i])
      {
        assert ls[..i + 1][..i] == ls[..i];
        elements := elements + ls[i].payload.elements;
        i := i + 1;
      }
      assert ls[..|ls|] == ls;
      FlattenedStrings(ls);
      r := NewStringList(elements);
    }

    /** `Concat<T>(factory, list1, list2)`: one list holding the elements of both lists, in order. */
    method ConcatLists(elementType: ElementType, list1: Term, list2: Term) returns (r: Term)
      requires factory.Valid() && list1.Valid() && list2.Valid()
      requires list1.IsA(ListsOf(elementType)) && list2.IsA(ListsOf(elementType))
      modifies factory.Footprint()
      ensures factory.Valid() && r.Valid() && r.RuntimeType() == ListTermType(elementType)
      ensures factory.cache.NullCache? ==> r.payload.elements == list1.payload.elements + list2.payload.elements
    {
      var elements := list1.ListEnumeration() + list2.ListEnumeration();
      forall i | 0 <= i < |elements|
        ensures elements[i].Valid() && elements[i].IsA(elementType)
      {
        if i < |list1.payload.elements| {
          ElementConverts(list1, i, elementType);
        } else {
          ElementConverts(list2, i - |list1.payload.elements|, elementType);
        }
      }
      r := factory.List(elementType, elements, []);
    }
  }

  /** One more entity's text appends to the texts of the entities before it. */
  lemma EntitiesTextStep(es: seq<Term>, i: nat, texts: seq<Term>, text: Term)
    requires AllEntities(es) && i < |es| && AllStrings(texts) && text.payload.StringValue?
    requires ConcatValues(texts) == EntitiesText(es[..i]) && Value(text) == EntityText(es[i])
    ensures AllStrings(texts + [text])
    ensures ConcatValues(texts + [text]) == EntitiesText(es[..i + 1])
  {
    assert es[..i + 1][..i] == es[..i];
    ConcatValuesAppend(texts, text);
  }

  /** One more property's text appends to the texts of the properties before it. */
  lemma PropertiesTextStep(ps: seq<Term>, i: nat, texts: seq<Term>, text: Term)
    requires AllProperties(ps) && i < |ps| && AllStrings(texts) && text.payload.StringValue?
    requires ConcatValues(texts) == PropertiesText(ps[..i]) && Value(text) == PropertyText(ps[i])
    ensures AllStrings(texts + [text])
    ensures ConcatValues(texts + [text]) == PropertiesText(ps[..i + 1])
  {
    assert ps[..i + 1][..i] == ps[..i];
    ConcatValuesAppend(texts, text);
  }

  // ---------------------------------------------------------------- lists of lists

  /** Whether every term is a list of String terms. */
  ghost predicate AllStringLists(ls: seq<Term>)
  {
    forall i :: 0 <= i < |ls| ==> ls[i].Valid() && ls[i].IsA(ListsOf(StringTerms))
  }

  /** The elements of some lists, in order. */
  function FlattenElements(ls: seq<Term>): seq<Term>
    requires forall i :: 0 <= i < |ls| ==> ls[i].payload.ListElements?
  {
    if ls == [] then [] else FlattenElements(ls[..|ls| - 1]) + ls[|ls| - 1].payload.elements
  }

  /** The elements of lists of String terms are valid String terms. */
  lemma {:induction false} FlattenedStrings(ls: seq<Term>)
    requires AllStringLists(ls)
    ensures forall i :: 0 <= i < |FlattenElements(ls)| ==>
              FlattenElements(ls)[i].Valid() && FlattenElements(ls)[i].IsA(StringTerms)
    decreases |ls|
  {
    if ls != [] {
      FlattenedStrings(ls[..|ls| - 1]);
    }
  }

  /** The elements of a list that converts to `IListTerm<e>` are valid terms of type `e`. */
  lemma ElementsOf(list: Term, e: ElementType)
    requires list.Valid() && list.IsA(ListsOf(e))
    ensures forall i :: 0 <= i < |list.payload.elements| ==>
              list.payload.elements[i].Valid() && list.payload.elements[i].IsA(e)
  {
    forall i | 0 <= i < |list.payload.elements|
      ensures list.payload.elements[i].Valid() && list.payload.elements[i].IsA(e)
    {
      ElementConverts(list, i, e);
    }
  }

  /** An element of a list converts to any type the list's element type converts to. */
  lemma ElementConverts(list: Term, i: nat, e: ElementType)
    requires list.Valid() && list.IsA(ListsOf(e)) && i < |list.payload.elements|
    ensures list.payload.elements[i].Valid() && list.payload.elements[i].IsA(e)
  {
    var x := list.payload.elements[i];
    var from := list.payload.elementType;
    assert x.IsA(from);
    ConversionKeepsIsA(x, from, e);
  }

  /** A term of one element type is a term of every type that type converts to. */
  lemma {:induction false} ConversionKeepsIsA(x: Term, from: ElementType, to: ElementType)
    requires x.IsA(from) && ConvertsTo(from, to)
    ensures x.IsA(to)
  {
    if to != AnyTerms && from != to {
      ConversionTransitive(x.payload.elementType, from.element, to.element);
    }
  }

  /** Conversions between element types compose. */
  lemma {:induction false} ConversionTransitive(a: ElementType, b: ElementType, c: ElementType)
    requires ConvertsTo(a, b) && ConvertsTo(b, c)
    ensures ConvertsTo(a, c)
    decreases c
  {
    if c != AnyTerms && a != b && b != c && a != c {
      ConversionTransitive(a.element, b.element, c.element);
    }
  }

  // ---------------------------------------------------------------- concatenation

  /** Concatenating the values of two sequences of String terms is concatenating the two results. */
  lemma {:induction false} ConcatValuesSplit(a: seq<Term>, b: seq<Term>)
    requires AllStrings(a) && AllStrings(b)
    ensures AllStrings(a + b)
    ensures ConcatValues(a + b) == ConcatValues(a) + ConcatValues(b)
    decreases |b|
  {
    if b == [] {
      assert a + b == a;
    } else {
      var b', x := b[..|b| - 1], b[|b| - 1];
      assert b == b' + [x];
      assert a + b == (a + b') + [x];
      ConcatValuesSplit(a, b');
      ConcatValuesAppend(a + b', x);
      ConcatValuesAppend(b', x);
    }
  }

  /** The concatenation has the length `StringBuilder`'s initial capacity sums up: the total of the values' lengths. */
  lemma {:induction false} ConcatValuesLength(ts: seq<Term>)
    requires AllStrings(ts)
    ensures |ConcatValues(ts)| == TotalValueLength(ts)
    decreases |ts|
  {
    if ts != [] {
      ConcatValuesSplit([ts[0]], ts[1..]);
      assert [ts[0]] + ts[1..] == ts;
      ConcatValuesOne(ts[0]);
      ConcatValuesLength(ts[1..]);
    }
  }

  /** `strs.Sum(s => s.Value.Length)`. */
  function TotalValueLength(ts: seq<Term>): nat
    requires AllStrings(ts)
  {
    if ts == [] then 0 else |Value(ts[0])| + TotalValueLength(ts[1..])
  }

  /** One more String term appends its value. */
  lemma ConcatValuesAppend(ts: seq<Term>, x: Term)
    requires AllStrings(ts) && x.payload.StringValue?
    ensures AllStrings(ts + [x])
    ensures ConcatValues(ts + [x]) == ConcatValues(ts) + Value(x)
  {
    assert (ts + [x])[..|ts|] == ts;
  }

  lemma ConcatValuesOne(a: Term)
    requires a.payload.StringValue?
    ensures ConcatValues([a]) == Value(a)
  {
    ConcatValuesAppend([], a);
    assert [] + [a] == [a];
  }

  lemma ConcatValuesFour(a: Term, b: Term, c: Term, d: Term)
    requires a.payload.StringValue? && b.payload.StringValue? && c.payload.StringValue? && d.payload.StringValue?
    ensures ConcatValues([a, b, c, d]) == Value(a) + Value(b) + Value(c) + Value(d)
  {
    ConcatValuesOne(a);
    ConcatValuesAppend([a], b);
    assert [a] + [b] == [a, b];
    ConcatValuesAppend([a, b], c);
    assert [a, b] + [c] == [a, b, c];
    ConcatValuesAppend([a, b, c], d);
    assert [a, b, c] + [d] == [a, b, c, d];
  }

  lemma ConcatValuesFive(a: Term, b: Term, c: Term, d: Term, e: Term)
    requires a.payload.StringValue? && b.payload.StringValue? && c.payload.StringValue?
    requires d.payload.StringValue? && e.payload.StringValue?
    ensures ConcatValues([a, b, c, d, e]) == Value(a) + Value(b) + Value(c) + Value(d) + Value(e)
  {
    ConcatValuesFour(a, b, c, d);
    ConcatValuesAppend([a, b, c, d], e);
    assert [a, b, c, d] + [e] == [a, b, c, d, e];
  }

  /** Flattening three lists of String terms and concatenating their values concatenates the three lists' values. */
  lemma FlattenThree(first: Term, middle: Term, last: Term)
    requires first.Valid() && first.IsA(ListsOf(StringTerms))
    requires middle.Valid() && middle.IsA(ListsOf(StringTerms))
    requires last.Valid() && last.IsA(ListsOf(StringTerms))
    ensures AllStrings(FlattenElements([first, middle, last]))
    ensures ConcatValues(FlattenElements([first, middle, last]))
            == ConcatValues(first.payload.elements) + ConcatValues(middle.payload.elements) + ConcatValues(last.payload.elements)
  {
    var a, b, c := first.payload.elements, middle.payload.elements, last.payload.elements;
    ElementsOf(first, StringTerms);
    ElementsOf(middle, StringTerms);
    ElementsOf(last, StringTerms);
    assert [first, middle, last][..2] == [first, middle];
    assert [first, middle][..1] == [first];
    assert FlattenElements([first]) == a;
    assert FlattenElements([first, middle, last]) == a + b + c;
    ConcatValuesSplit(a, b);
    ConcatValuesSplit(a + b, c);
  }
}
