/**
 * The typed term layer of `Yargon.Terms.ATerms` and the term nodes of the entity language:
 * `IntTerm`, `StringTerm`, `ListTerm<T>`, `ModuleATerm`, `EntityATerm`, `PropertyATerm` and
 * `TypeATerm`, all derived from the abstract `Term`.
 *
 * Terms are immutable, but they are compared by identity as well as by `Equals` (a term cache
 * hands back "the same instance"), so each term is an object of class `Term` whose fields are
 * constants. The concrete class of a term is recorded in its `payload`.
 *
 * The base equality compares only the runtime type and the annotations, never the payload, and
 * `IntTerm`, `StringTerm` and `ListTerm<T>` do not override it. The entity nodes add their parts,
 * which are themselves compared with that base equality.
 */
module TypedTerms {
  import opened Wrappers
  import opened Exceptions
  import opened Text

  /** The static element type `T` of a `ListTerm<T>`; it is part of the list's runtime type. */
  datatype ElementType =
    | AnyTerms                        // ITerm
    | StringTerms                     // IStringTerm
    | EntityTerms                     // IEntityTerm
    | PropertyTerms                   // IPropertyTerm
    | ListsOf(element: ElementType)   // IListTerm<T>

  /** An implicit reference conversion: every term is an `ITerm`, and `IListTerm<out T>` is covariant. */
  predicate ConvertsTo(from: ElementType, to: ElementType)
  {
    to == AnyTerms || from == to || (from.ListsOf? && to.ListsOf? && ConvertsTo(from.element, to.element))
  }

  /** The value of `GetType()`: the concrete class, with the type argument of a list. */
  datatype RuntimeType =
    | IntTermType
    | StringTermType
    | ListTermType(element: ElementType)
    | ModuleATermType
    | EntityATermType
    | PropertyATermType
    | TypeATermType

  /** What a term holds besides its factory and annotations, one case per concrete class. */
  datatype Payload =
    | IntValue(number: int32)
    | StringValue(text: string)
    | ListElements(elementType: ElementType, elements: seq<Term>)
    | ModuleParts(name: Term, definitions: Term)
    | EntityParts(name: Term, properties: Term)
    | PropertyParts(name: Term, propertyType: Term)
    | TypeParts(name: Term)

  /** `unchecked` 32-bit two's-complement arithmetic: the value of `x` modulo 2^32. */
  function Unchecked(x: int): (r: int32)
    ensures (r as int - x) % 0x1_0000_0000 == 0
  {
    var m := x % 0x1_0000_0000;
    if m < 0x8000_0000 then m as int32 else (m - 0x1_0000_0000) as int32
  }

  /** The largest height among some terms. */
  ghost function MaxHeight(ts: seq<Term>): (h: nat)
    ensures forall i :: 0 <= i < |ts| ==> ts[i].height <= h
  {
    if ts == [] then 0
    else
      var rest := MaxHeight(ts[1..]);
      assert forall i :: 1 <= i < |ts| ==> ts[i] == ts[1..][i - 1];
      if ts[0].height > rest then ts[0].height else rest
  }

  /** `String.Join(separator, parts)`. */
  function Join(separator: string, parts: seq<string>): string
  {
    if parts == [] then ""
    else if |parts| == 1 then parts[0]
    else parts[0] + separator + Join(separator, parts[1..])
  }

  /** The sum of the lengths of some strings. */
  function TotalLength(parts: seq<string>): nat
  {
    if parts == [] then 0 else |parts[0]| + TotalLength(parts[1..])
  }

  /**
   * The full name `Type.ToString()` gives the static element type of a list, an interface. The
   * entity nodes' interfaces are in `EntityLanguage`; `ITerm`, `IStringTerm` and `IListTerm<T>`
   * are in `Yargon.Terms`.
   */
  function ElementTypeName(e: ElementType): (s: string)
    ensures |s| > 0
  {
    match e
    case AnyTerms => "Yargon.Terms.ITerm"
    case StringTerms => "Yargon.Terms.IStringTerm"
    case EntityTerms => "EntityLanguage.IEntityTerm"
    case PropertyTerms => "EntityLanguage.IPropertyTerm"
    case ListsOf(x) => "Yargon.Terms.IListTerm`1[" + ElementTypeName(x) + "]"
  }

  /**
   * `Object.ToString()` of a term, which no term class overrides: the full name of its runtime
   * type, with the type argument of a list in brackets.
   */
  function TypeName(t: RuntimeType): (s: string)
    ensures |s| > 0
  {
    match t
    case IntTermType => "Yargon.Terms.ATerms.IntTerm"
    case StringTermType => "Yargon.Terms.ATerms.StringTerm"
    case ListTermType(e) => "Yargon.Terms.ATerms.ListTerm`1[" + ElementTypeName(e) + "]"
    case ModuleATermType => "EntityLanguage.ModuleATerm"
    case EntityATermType => "EntityLanguage.EntityATerm"
    case PropertyATermType => "EntityLanguage.PropertyATerm"
    case TypeATermType => "EntityLanguage.TypeATerm"
  }

  /**
   * The texts `String.Join<T>` takes of the elements of a list: each element's `Object.ToString`,
   * in order, which is the name of its runtime type and says nothing about its value.
   */
  function Texts(ts: seq<Term>): (r: seq<string>)
    ensures |r| == |ts|
    ensures forall i :: 0 <= i < |ts| ==> r[i] == TypeName(ts[i].RuntimeType())
  {
    if ts == [] then [] else [TypeName(ts[0].RuntimeType())] + Texts(ts[1..])
  }

  class Term {
    /** `Term.Factory`: the factory that created the term. */
    const factory: object
    const payload: Payload
    /** `Term.Annotations`. */
    const annotations: seq<Term>
    /** One more than the height of the tallest part or annotation; the termination measure. */
    ghost const height: nat

    /** `IntTerm(factory, value, annotations)`: the value is stored as given. */
    constructor Int(factory: object, value: int32, annotations: seq<Term>)
      requires forall i :: 0 <= i < |annotations| ==> annotations[i].Valid()
      ensures this.factory == factory && payload == IntValue(value) && this.annotations == annotations
      ensures Valid()
    {
      this.factory := factory;
      this.payload := IntValue(value);
      this.annotations := annotations;
      this.height := 1 + MaxHeight(annotations);
    }

    /** `StringTerm(factory, value, annotations)`: the value is stored as given. */
    constructor String(factory: object, value: string, annotations: seq<Term>)
      requires forall i :: 0 <= i < |annotations| ==> annotations[i].Valid()
      ensures this.factory == factory && payload == StringValue(value) && this.annotations == annotations
      ensures Valid()
    {
      this.factory := factory;
      this.payload := StringValue(value);
      this.annotations := annotations;
      this.height := 1 + MaxHeight(annotations);
    }

    /** `ListTerm<T>(factory, elements, annotations)`; every element is a `T`. */
    constructor List(factory: object, elementType: ElementType, elements: seq<Term>, annotations: seq<Term>)
      requires forall i :: 0 <= i < |annotations| ==> annotations[i].Valid()
      requires forall i :: 0 <= i < |elements| ==> elements[i].Valid() && elements[i].IsA(elementType)
      ensures this.factory == factory && payload == ListElements(elementType, elements)
      ensures this.annotations == annotations
      ensures Valid()
    {
      this.factory := factory;
      this.payload := ListElements(elementType, elements);
      this.annotations := annotations;
      var a := MaxHeight(annotations);
      var e := MaxHeight(elements);
      this.height := 1 + (if a > e then a else e);
    }

    /** `ModuleATerm(factory, name, definitions, annotations)`. */
    constructor Module(factory: object, name: Term, definitions: Term, annotations: seq<Term>)
      requires forall i :: 0 <= i < |annotations| ==> annotations[i].Valid()
      requires name.Valid() && name.IsA(StringTerms)
      requires definitions.Valid() && definitions.IsA(ListsOf(EntityTerms))
      ensures this.factory == factory && payload == ModuleParts(name, definitions)
      ensures this.annotations == annotations
      ensures Valid()
    {
      this.factory := factory;
      this.payload := ModuleParts(name, definitions);
      this.annotations := annotations;
      var a := MaxHeight(annotations);
      var p := if name.height > definitions.height then name.height else definitions.height;
      this.height := 1 + (if a > p then a else p);
    }

    /** `EntityATerm(factory, name, properties, annotations)`. */
    constructor Entity(factory: object, name: Term, properties: Term, annotations: seq<Term>)
      requires forall i :: 0 <= i < |annotations| ==> annotations[i].Valid()
      requires name.Valid() && name.IsA(StringTerms)
      requires properties.Valid() && properties.IsA(ListsOf(PropertyTerms))
      ensures this.factory == factory && payload == EntityParts(name, properties)
      ensures this.annotations == annotations
      ensures Valid()
    {
      this.factory := factory;
      this.payload := EntityParts(name, properties);
      this.annotations := annotations;
      var a := MaxHeight(annotations);
      var p := if name.height > properties.height then name.height else properties.height;
      this.height := 1 + (if a > p then a else p);
    }

    /** `PropertyATerm(factory, name, type, annotations)`. */
    constructor Property(factory: object, name: Term, propertyType: Term, annotations: seq<Term>)
      requires forall i :: 0 <= i < |annotations| ==> annotations[i].Valid()
      requires name.Valid() && name.IsA(StringTerms)
      requires propertyType.Valid() && propertyType.payload.TypeParts?
      ensures this.factory == factory && payload == PropertyParts(name, propertyType)
      ensures this.annotations == annotations
      ensures Valid()
    {
      this.factory := factory;
      this.payload := PropertyParts(name, propertyType);
      this.annotations := annotations;
      var a := MaxHeight(annotations);
      var p := if name.height > propertyType.height then name.height else propertyType.height;
      this.height := 1 + (if a > p then a else p);
    }

    /** `TypeATerm(factory, name, annotations)`. */
    constructor Type(factory: object, name: Term, annotations: seq<Term>)
      requires forall i :: 0 <= i < |annotations| ==> annotations[i].Valid()
      requires name.Valid() && name.IsA(StringTerms)
      ensures this.factory == factory && payload == TypeParts(name)
      ensures this.annotations == annotations
      ensures Valid()
    {
      this.factory := factory;
      this.payload := TypeParts(name);
      this.annotations := annotations;
      var a := MaxHeight(annotations);
      this.height := 1 + (if a > name.height then a else name.height);
    }

    /**
     * Every part and annotation is lower and itself valid, and every part has the static type
     * the constructor's parameter declares.
     */
    ghost predicate Valid()
      decreases height
    {
      (forall i :: 0 <= i < |annotations| ==> annotations[i].height < height && annotations[i].Valid())
      && match payload
         case IntValue(_) => true
         case StringValue(_) => true
         case ListElements(e, es) =>
           forall i :: 0 <= i < |es| ==> es[i].height < height && es[i].Valid() && es[i].IsA(e)
         case ModuleParts(n, d) =>
           n.height < height && d.height < height && n.Valid() && d.Valid()
           && n.IsA(StringTerms) && d.IsA(ListsOf(EntityTerms))
         case EntityParts(n, p) =>
           n.height < height && p.height < height && n.Valid() && p.Valid()
           && n.IsA(StringTerms) && p.IsA(ListsOf(PropertyTerms))
         case PropertyParts(n, t) =>
           n.height < height && t.height < height && n.Valid() && t.Valid()
           && n.IsA(StringTerms) && t.payload.TypeParts?
         case TypeParts(n) =>
           n.height < height && n.Valid() && n.IsA(StringTerms)
    }

    /**
     * `GetType()`. It agrees with the interface tests: a String term is exactly an `IStringTerm`,
     * an entity node an `IEntityTerm`, a property node an `IPropertyTerm`, and every list, of
     * whatever element type, an `IListTerm<ITerm>`.
     */
    function RuntimeType(): (t: RuntimeType)
      ensures t == StringTermType <==> IsA(StringTerms)
      ensures t == EntityATermType <==> IsA(EntityTerms)
      ensures t == PropertyATermType <==> IsA(PropertyTerms)
      ensures t.ListTermType? <==> IsA(ListsOf(AnyTerms))
    {
      match payload
      case IntValue(_) => IntTermType
      case StringValue(_) => StringTermType
      case ListElements(e, _) => ListTermType(e)
      case ModuleParts(_, _) => ModuleATermType
      case EntityParts(_, _) => EntityATermType
      case PropertyParts(_, _) => PropertyATermType
      case TypeParts(_) => TypeATermType
    }

    /** Whether the term converts to the interface `e` (`term is T`). */
    predicate IsA(e: ElementType)
    {
      match e
      case AnyTerms => true
      case StringTerms => payload.StringValue?
      case EntityTerms => payload.EntityParts?
      case PropertyTerms => payload.PropertyParts?
      case ListsOf(x) => payload.ListElements? && ConvertsTo(payload.elementType, x)
    }

    /** One of the entity language's four term nodes, which expose their parts through a subterm view. */
    predicate IsNode()
    {
      payload.ModuleParts? || payload.EntityParts? || payload.PropertyParts? || payload.TypeParts?
    }

    /** `SubtermCollection.Count` of a node: two parts, or one for a type term. */
    function PartCount(): (n: nat)
      requires IsNode()
      ensures n == (if payload.TypeParts? then 1 else 2)
    {
      if payload.TypeParts? then 1 else 2
    }

    /** `SubtermCollection[index]` of a node: the name at index 0, the second part at index 1. */
    function PartAt(index: int): (r: Result<Term, Exception>)
      requires IsNode()
      ensures r.Success? <==> 0 <= index < PartCount()
      ensures r.Success? && index == 0 ==> r.value == payload.name
      ensures r.Failure? ==> r.error == ArgumentOutOfRangeException("index")
    {
      match payload
      case ModuleParts(n, d) => if index == 0 then Success(n) else if index == 1 then Success(d) else Failure(ArgumentOutOfRangeException("index"))
      case EntityParts(n, p) => if index == 0 then Success(n) else if index == 1 then Success(p) else Failure(ArgumentOutOfRangeException("index"))
      case PropertyParts(n, t) => if index == 0 then Success(n) else if index == 1 then Success(t) else Failure(ArgumentOutOfRangeException("index"))
      case TypeParts(n) => if index == 0 then Success(n) else Failure(ArgumentOutOfRangeException("index"))
    }

    /** The subterm view's enumerator: `this[0]`, then `this[1]` for the two-part nodes. */
    function PartEnumeration(): seq<Term>
      requires IsNode()
    {
      if payload.TypeParts? then [PartAt(0).value] else [PartAt(0).value, PartAt(1).value]
    }

    /**
     * `Subterms`: empty for Int and String terms, the stored elements of a list, and the subterm
     * view of a node.
     */
    function Subterms(): seq<Term>
    {
      match payload
      case IntValue(_) => []
      case StringValue(_) => []
      case ListElements(_, es) => es
      case _ => PartEnumeration()
    }

    /** `ListTerm<T>.Count`: not implemented. */
    function ListCount(): (r: Result<nat, Exception>)
      requires payload.ListElements?
      ensures r == Failure(NotImplementedException)
    {
      Failure(NotImplementedException)
    }

    /** `ListTerm<T>[index]`: not implemented, whatever the index. */
    function ListAt(index: int): (r: Result<Term, Exception>)
      requires payload.ListElements?
      ensures r == Failure(NotImplementedException)
    {
      Failure(NotImplementedException)
    }

    /** `ListTerm<T>.GetEnumerator()`: the enumerator of the stored elements. */
    function ListEnumeration(): seq<Term>
      requires payload.ListElements?
    {
      payload.elements
    }

    /**
     * `Term.Equals(Term)`, the private base equality: the same object, or another term of the
     * same runtime type whose annotations are pairwise equal in order. Neither the payload nor
     * the factory is compared.
     */
    function BaseEquals(other: Term?): bool
      requires Valid()
      requires other != null ==> other.Valid()
      decreases height, 0
    {
      this == other
      || (other != null && other.RuntimeType() == RuntimeType()
          && |annotations| == |other.annotations|
          && forall i :: 0 <= i < |annotations| ==> annotations[i].Equals(other.annotations[i]))
    }

    /**
     * The virtual `Equals(object)`. Int, String and List terms keep the base equality. A node
     * is equal only to a node of its own class (`obj as ModuleATerm`): the same object, or one
     * that is base-equal with equal parts.
     */
    function Equals(other: Term?): bool
      requires Valid()
      requires other != null ==> other.Valid()
      decreases height, 1
    {
      match payload
      case ModuleParts(n, d) =>
        other != null && other.payload.ModuleParts?
        && (this == other
            || (BaseEquals(other) && n.Equals(other.payload.name) && d.Equals(other.payload.definitions)))
      case EntityParts(n, p) =>
        other != null && other.payload.EntityParts?
        && (this == other
            || (BaseEquals(other) && n.Equals(other.payload.name) && p.Equals(other.payload.properties)))
      case PropertyParts(n, t) =>
        other != null && other.payload.PropertyParts?
        && (this == other
            || (BaseEquals(other) && n.Equals(other.payload.name) && t.Equals(other.payload.propertyType)))
      case TypeParts(n) =>
        other != null && other.payload.TypeParts?
        && (this == other || (BaseEquals(other) && n.Equals(other.payload.name)))
      case _ => BaseEquals(other)
    }

    /**
     * `GetHashCode`: the base class's constant 17; a node starts from 17 and folds in each part's
     * hash as `hash * 29 + part`, in unchecked 32-bit arithmetic.
     */
    function HashCode(): int32
      requires Valid()
      decreases height
    {
      match payload
      case ModuleParts(n, d) => Unchecked(Unchecked(17 * 29 + n.HashCode() as int) as int * 29 + d.HashCode() as int)
      case EntityParts(n, p) => Unchecked(Unchecked(17 * 29 + n.HashCode() as int) as int * 29 + p.HashCode() as int)
      case PropertyParts(n, t) => Unchecked(Unchecked(17 * 29 + n.HashCode() as int) as int * 29 + t.HashCode() as int)
      case TypeParts(n) => Unchecked(17 * 29 + n.HashCode() as int)
      case _ => 17
    }

    /**
     * `Term.ToString`, which hides `Object.ToString` instead of overriding it: the invariant
     * decimal text of an Int and the unescaped value in double quotes for a String. A list and
     * the nodes format their parts through `Object.ToString` (`String.Join<T>` and string
     * interpolation), so each part shows as its runtime type name. Every node class prints
     * `Module(`.
     */
    function ToString(): (r: string)
      ensures payload.StringValue? ==> |r| == |payload.text| + 2 && r[0] == '"' && r[|r| - 1] == '"'
      ensures payload.ListElements? ==> |r| >= 2 && r[0] == '[' && r[|r| - 1] == ']'
      ensures IsNode() ==> |r| > 7 && r[..7] == "Module("
    {
      match payload
      case IntValue(v) => Int32Text(v)
      case StringValue(s) => "\"" + s + "\""
      case ListElements(_, es) => "[" + Join(", ", Texts(es)) + "]"
      case ModuleParts(n, d) => "Module(" + TypeName(n.RuntimeType()) + ", " + TypeName(d.RuntimeType()) + ")"
      case EntityParts(n, p) => "Module(" + TypeName(n.RuntimeType()) + ", " + TypeName(p.RuntimeType()) + ")"
      case PropertyParts(n, t) => "Module(" + TypeName(n.RuntimeType()) + ", " + TypeName(t.RuntimeType()) + ")"
      case TypeParts(n) => "Module(" + TypeName(n.RuntimeType()) + ")"
    }
  }
}
