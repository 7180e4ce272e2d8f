/**
 * `ATermFactory` of `Yargon.Terms.ATerms`: it builds Int, String and List terms itself, and
 * every other kind of term through a table from an interface type to a constructor delegate.
 * Every term it builds is handed to its term cache, and the cache's answer is returned.
 *
 * The delegates are the four of the entity language (module, entity, property and type
 * terms), each casting its subterms to the parameter types of the node's constructor.
 */
module TypedTermFactory {
  import opened Wrappers
  import opened Exceptions
  import opened Text
  import opened TypedTerms
  import opened TypedTermFacts
  import opened TermCaches

  /** The factory's `ITermCache`. */
  datatype TermCache = NullCache | SimpleCache(store: SimpleTermCache)

  /** A `System.Type` key of the constructor table; `name` is its `Type.Name`. */
  datatype TypeKey = TypeKey(name: string)

  /** The constructor delegates of the entity language: `(f, s, a) => new ModuleATerm(f, (IStringTerm)s[0], ...)` and so on. */
  datatype TermConstructor = NewModuleTerm | NewEntityTerm | NewPropertyTerm | NewTypeTerm

  /** The message of `Create`'s `InvalidOperationException` for a type with no constructor. */
  function NoConstructorMessage(t: TypeKey): string
  {
    "No constructor for type " + t.name + " is known."
  }

  /**
   * A cast of one subterm in a delegate: reading `s[index]` past the end raises
   * `ArgumentOutOfRangeException`; a term that does not implement the target interface raises
   * `InvalidCastException`, whose message here is the target interface's name.
   */
  function CastSubterm(s: seq<Term>, index: nat, target: ElementType, targetName: string): Option<Exception>
  {
    if index >= |s| then Some(ArgumentOutOfRangeException("index"))
    else if !s[index].IsA(target) then Some(InvalidCastException(targetName))
    else None
  }

  /** The exception a delegate raises for the subterms `s`, in the order it reads them; `None` when the casts succeed. */
  function ConstructorFailure(ctor: TermConstructor, s: seq<Term>): (r: Option<Exception>)
    ensures r.None? <==> |s| >= Arity(ctor) && s[0].IsA(StringTerms) && SecondPartFits(ctor, s)
  {
    var name := CastSubterm(s, 0, StringTerms, "IStringTerm");
    if name.Some? then name
    else match ctor
      case NewModuleTerm => CastSubterm(s, 1, ListsOf(EntityTerms), "IListTerm`1")
      case NewEntityTerm => CastSubterm(s, 1, ListsOf(PropertyTerms), "IListTerm`1")
      case NewPropertyTerm =>
        if |s| < 2 then Some(ArgumentOutOfRangeException("index"))
        else if !s[1].payload.TypeParts? then Some(InvalidCastException("ITypeTerm"))
        else None
      case NewTypeTerm => None
  }

  /** How many subterms a delegate reads. */
  function Arity(ctor: TermConstructor): nat
  {
    if ctor == NewTypeTerm then 1 else 2
  }

  /** Whether the second subterm has the type the node's constructor declares for it. */
  predicate SecondPartFits(ctor: TermConstructor, s: seq<Term>)
    requires |s| >= Arity(ctor)
  {
    match ctor
    case NewModuleTerm => s[1].IsA(ListsOf(EntityTerms))
    case NewEntityTerm => s[1].IsA(ListsOf(PropertyTerms))
    case NewPropertyTerm => s[1].payload.TypeParts?
    case NewTypeTerm => true
  }

  /** The payload of the node a delegate builds from subterms whose casts succeed. */
  function ConstructedPayload(ctor: TermConstructor, s: seq<Term>): Payload
    requires |s| >= Arity(ctor)
  {
    match ctor
    case NewModuleTerm => ModuleParts(s[0], s[1])
    case NewEntityTerm => EntityParts(s[0], s[1])
    case NewPropertyTerm => PropertyParts(s[0], s[1])
    case NewTypeTerm => TypeParts(s[0])
  }

  /** Calling a constructor delegate: the casts, then the node's constructor. */
  method Construct(ctor: TermConstructor, factory: object, subterms: seq<Term>, annotations: seq<Term>)
    returns (r: Result<Term, Exception>)
    requires forall i :: 0 <= i < |subterms| ==> subterms[i].Valid()
    requires forall i :: 0 <= i < |annotations| ==> annotations[i].Valid()
    ensures r.Failure? <==> ConstructorFailure(ctor, subterms).Some?
    ensures r.Failure? ==> r.error == ConstructorFailure(ctor, subterms).value
    ensures r.Success? ==> fresh(r.value) && r.value.Valid() && r.value.factory == factory
    ensures r.Success? ==> r.value.payload == ConstructedPayload(ctor, subterms) && r.value.annotations == annotations
  {
    var failure := ConstructorFailure(ctor, subterms);
    if failure.Some? {
      return Failure(failure.value);
    }
    var t: Term;
    if ctor == NewModuleTerm {
      t := new Term.Module(factory, subterms[0], subterms[1], annotations);
    } else if ctor == NewEntityTerm {
      t := new Term.Entity(factory, subterms[0], subterms[1], annotations);
    } else if ctor == NewPropertyTerm {
      t := new Term.Property(factory, subterms[0], subterms[1], annotations);
    } else {
      t := new Term.Type(factory, subterms[0], annotations);
    }
    r := Success(t);
  }

  class ATermFactory {
    const cache: TermCache
    /** The factory's own copy of the constructor table (a map value, so the caller's later edits cannot reach it). */
    const constructors: map<TypeKey, TermConstructor>

    /** `ATermFactory(cache, constructors)`. */
    constructor (cache: TermCache, constructors: map<TypeKey, TermConstructor>)
      ensures this.cache == cache && this.constructors == constructors
    {
      this.cache := cache;
      this.constructors := constructors;
    }

    /** The objects the factory's cache changes. */
    function Footprint(): set<object>
    {
      if cache.SimpleCache? then {cache.store} else {}
    }

    ghost predicate Valid()
      reads Footprint()
    {
      cache.SimpleCache? ==> cache.store.Valid()
    }

    /** `cache.GetOrStore(term)`. */
    method Store(term: Term) returns (r: Term)
      requires Valid() && term.Valid()
      modifies Footprint()
      ensures Valid() && r.Valid() && r.Equals(term)
      ensures cache.NullCache? ==> r == term
      ensures cache.SimpleCache? ==>
        Stored(cache.store.entries, r) == GetOrStoreSpec(old(cache.store.entries), term)
    {
      match cache
      case NullCache =>
        r := NullGetOrStore(term);
      case SimpleCache(store) =>
        GetOrStoreKeepsValid(store.entries, term);
        r := store.GetOrStore(term);
    }

    /**
     * `Create(type, subterms, annotations)`: a type missing from the table raises
     * `InvalidOperationException`; otherwise the delegate's term goes through the cache. When
     * the delegate fails, or the type is missing, the cache is not touched.
     */
    method Create(key: TypeKey, subterms: seq<Term>, annotations: seq<Term>) returns (r: Result<Term, Exception>)
      requires Valid()
      requires forall i :: 0 <= i < |subterms| ==> subterms[i].Valid()
      requires forall i :: 0 <= i < |annotations| ==> annotations[i].Valid()
      modifies Footprint()
      ensures Valid()
      ensures key !in constructors ==>
        r == Failure(InvalidOperationException(NoConstructorMessage(key))) && unchanged(Footprint())
      ensures key in constructors && ConstructorFailure(constructors[key], subterms).Some? ==>
        r == Failure(ConstructorFailure(constructors[key], subterms).value) && unchanged(Footprint())
      ensures key in constructors && ConstructorFailure(constructors[key], subterms).None? ==>
                r.Success? && r.value.Valid()
      ensures key in constructors && ConstructorFailure(constructors[key], subterms).None? ==>
                exists t: Term ::
                  fresh(t) && t.Valid() && t.factory == this && t.annotations == annotations
                  && t.payload == ConstructedPayload(constructors[key], subterms)
                  && (cache.NullCache? ==> r == Success(t))
                  && (cache.SimpleCache? ==> r.Success? && Stored(cache.store.entries, r.value) == GetOrStoreSpec(old(cache.store.entries), t))
    {
      if key !in constructors {
        return Failure(InvalidOperationException(NoConstructorMessage(key)));
      }
      var built := Construct(constructors[key], this, subterms, annotations);
      if built.Failure? {
        return Failure(built.error);
      }
      var t := built.value;
      var stored := Store(t);
      r := Success(stored);
    }

    /** `Int(value, annotations)`: a new Int term owned by this factory, through the cache. */
    method Int(value: int32, annotations: seq<Term>) returns (r: Term)
      requires Valid()
      requires forall i :: 0 <= i < |annotations| ==> annotations[i].Valid()
      modifies Footprint()
      ensures Valid() && r.Valid() && r.payload.IntValue? && (annotations == [] ==> r.annotations == [])
      ensures
        exists t: Term ::
          fresh(t) && t.Valid() && t.factory == this && t.annotations == annotations
          && t.payload == IntValue(value)
          && (cache.NullCache? ==> r == t)
          && (cache.SimpleCache? ==> Stored(cache.store.entries, r) == GetOrStoreSpec(old(cache.store.entries), t))
    {
      var t := new Term.Int(this, value, annotations);
      r := Store(t);
      StoredKeepsShape(t, r);
    }

    /** `String(value, annotations)`: a new String term owned by this factory, through the cache. */
    method String(value: string, annotations: seq<Term>) returns (r: Term)
      requires Valid()
      requires forall i :: 0 <= i < |annotations| ==> annotations[i].Valid()
      modifies Footprint()
      ensures Valid() && r.Valid() && r.payload.StringValue? && (annotations == [] ==> r.annotations == [])
      ensures cache.NullCache? ==> fresh(r) && r.factory == this && r.payload == StringValue(value)
      ensures
        exists t: Term ::
          fresh(t) && t.Valid() && t.factory == this && t.annotations == annotations
          && t.payload == StringValue(value)
          && (cache.NullCache? ==> r == t)
          && (cache.SimpleCache? ==> Stored(cache.store.entries, r) == GetOrStoreSpec(old(cache.store.entries), t))
    {
      var t := new Term.String(this, value, annotations);
      r := Store(t);
      StoredKeepsShape(t, r);
    }

    /** `List<T>(elements, annotations)`: a new `ListTerm<T>` owned by this factory, through the cache. */
    method List(elementType: ElementType, elements: seq<Term>, annotations: seq<Term>) returns (r: Term)
      requires Valid()
      requires forall i :: 0 <= i < |elements| ==> elements[i].Valid() && elements[i].IsA(elementType)
      requires forall i :: 0 <= i < |annotations| ==> annotations[i].Valid()
      modifies Footprint()
      ensures Valid() && r.Valid() && r.RuntimeType() == ListTermType(elementType)
      ensures annotations == [] ==> r.annotations == []
      ensures cache.NullCache? ==> fresh(r) && r.factory == this && r.payload == ListElements(elementType, elements)
      ensures
        exists t: Term ::
          fresh(t) && t.Valid() && t.factory == this && t.annotations == annotations
          && t.payload == ListElements(elementType, elements)
          && (cache.NullCache? ==> r == t)
          && (cache.SimpleCache? ==> Stored(cache.store.entries, r) == GetOrStoreSpec(old(cache.store.entries), t))
    {
      var t := new Term.List(this, elementType, elements, annotations);
      r := Store(t);
      StoredKeepsShape(t, r);
    }
  }

  /**
   * The term a cache answers for a new term has the new term's runtime type, and no
   * annotations when the new term has none: the answer is equal to the new term.
   */
  lemma StoredKeepsShape(t: Term, r: Term)
    requires t.Valid() && r.Valid() && r.Equals(t)
    ensures r.RuntimeType() == t.RuntimeType()
    ensures t.annotations == [] ==> r.annotations == []
  {
    EqualsSameType(r, t);
  }
}
