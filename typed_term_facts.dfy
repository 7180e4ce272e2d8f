/**
 * What the typed terms' equality, hash, text and subterm views promise: `Equals` is an
 * equivalence, equal terms hash equally, every hash is fixed by the runtime type alone, and
 * the payload of an Int, String or List term (and so the name and contents of any node) takes
 * no part in equality.
 */
module TypedTermFacts {
  import opened Wrappers
  import opened Exceptions
  import opened Text
  import opened TypedTerms

  // ---------------------------------------------------------------- equality

  /** Every term is equal to itself. */
  lemma EqualsReflexive(t: Term)
    requires t.Valid()
    ensures t.Equals(t)
  {
  }

  /** Equal terms have the same runtime type: `Equals` never relates two classes. */
  lemma EqualsSameType(a: Term, b: Term)
    requires a.Valid() && b.Valid()
    ensures a.Equals(b) ==> a.RuntimeType() == b.RuntimeType()
  {
    if a.Equals(b) && !a.IsNode() {
      assert a.BaseEquals(b);
    }
  }

  /** `Equals` is symmetric. */
  lemma {:induction false} EqualsSymmetric(a: Term, b: Term)
    requires a.Valid() && b.Valid()
    ensures a.Equals(b) ==> b.Equals(a)
    decreases a.height
  {
    if a.Equals(b) && a != b {
      assert a.BaseEquals(b);
      forall i | 0 <= i < |b.annotations|
        ensures b.annotations[i].Equals(a.annotations[i])
      {
        EqualsSymmetric(a.annotations[i], b.annotations[i]);
      }
      assert b.BaseEquals(a);
      match a.payload
      case ModuleParts(n, d) =>
        EqualsSymmetric(n, b.payload.name);
        EqualsSymmetric(d, b.payload.definitions);
      case EntityParts(n, p) =>
        EqualsSymmetric(n, b.payload.name);
        EqualsSymmetric(p, b.payload.properties);
      case PropertyParts(n, ty) =>
        EqualsSymmetric(n, b.payload.name);
        EqualsSymmetric(ty, b.payload.propertyType);
      case TypeParts(n) =>
        EqualsSymmetric(n, b.payload.name);
      case _ =>
    }
  }

  /** `Equals` is transitive. */
  lemma {:induction false} EqualsTransitive(a: Term, b: Term, c: Term)
    requires a.Valid() && b.Valid() && c.Valid()
    ensures a.Equals(b) && b.Equals(c) ==> a.Equals(c)
    decreases a.height
  {
    if a.Equals(b) && b.Equals(c) && a != b && b != c && a != c {
      assert a.BaseEquals(b) && b.BaseEquals(c);
      forall i | 0 <= i < |a.annotations|
        ensures a.annotations[i].Equals(c.annotations[i])
      {
        EqualsTransitive(a.annotations[i], b.annotations[i], c.annotations[i]);
      }
      assert a.BaseEquals(c);
      match a.payload
      case ModuleParts(n, d) =>
        EqualsTransitive(n, b.payload.name, c.payload.name);
        EqualsTransitive(d, b.payload.definitions, c.payload.definitions);
      case EntityParts(n, p) =>
        EqualsTransitive(n, b.payload.name, c.payload.name);
        EqualsTransitive(p, b.payload.properties, c.payload.properties);
      case PropertyParts(n, ty) =>
        EqualsTransitive(n, b.payload.name, c.payload.name);
        EqualsTransitive(ty, b.payload.propertyType, c.payload.propertyType);
      case TypeParts(n) =>
        EqualsTransitive(n, b.payload.name, c.payload.name);
      case _ =>
    }
  }

  /**
   * An Int, String or List term equals every other term of its runtime type that carries the
   * same annotations, whatever values or elements the two hold: `IntTerm`, `StringTerm` and
   * `ListTerm<T>` keep the base equality, which never looks at the payload.
   */
  lemma PayloadIgnored(a: Term, b: Term)
    requires a.Valid() && b.Valid() && !a.IsNode()
    requires a.RuntimeType() == b.RuntimeType() && a.annotations == b.annotations
    ensures a.Equals(b)
  {
    forall i | 0 <= i < |a.annotations|
      ensures a.annotations[i].Equals(b.annotations[i])
    {
      EqualsReflexive(a.annotations[i]);
    }
  }

  /**
   * Two modules are equal when their annotations, their names' annotations and their
   * definition lists' annotations and element types agree: the module names and the entities
   * are never compared, because a `StringTerm` name and a `ListTerm` of definitions only have
   * the base equality.
   */
  lemma ModuleEqualityIgnoresContents(a: Term, b: Term)
    requires a.Valid() && b.Valid() && a.payload.ModuleParts? && b.payload.ModuleParts?
    requires a.annotations == b.annotations
    requires a.payload.name.annotations == b.payload.name.annotations
    requires a.payload.definitions.RuntimeType() == b.payload.definitions.RuntimeType()
    requires a.payload.definitions.annotations == b.payload.definitions.annotations
    ensures a.Equals(b)
  {
    PayloadIgnored(a.payload.name, b.payload.name);
    PayloadIgnored(a.payload.definitions, b.payload.definitions);
    forall i | 0 <= i < |a.annotations|
      ensures a.annotations[i].Equals(b.annotations[i])
    {
      EqualsReflexive(a.annotations[i]);
    }
  }

  // ---------------------------------------------------------------- hash codes

  /** The hash each runtime type has: 17 from the base class, then `17 * 29 + 17` and so on. */
  function TypeHash(t: RuntimeType): int32
  {
    match t
    case ModuleATermType => 14807
    case EntityATermType => 14807
    case PropertyATermType => 15300
    case TypeATermType => 510
    case _ => 17
  }

  /** The hash of a node with two parts, from its parts' hashes. */
  lemma TwoPartHash(first: int32, second: int32)
    ensures first == 17 && second == 17 ==> Unchecked(Unchecked(17 * 29 + first as int) as int * 29 + second as int) == 14807
    ensures first == 17 && second == 510 ==> Unchecked(Unchecked(17 * 29 + first as int) as int * 29 + second as int) == 15300
  {
    assert Unchecked(17 * 29 + 17) as int == 17 * 29 + 17;
    assert Unchecked(510 * 29 + 17) as int == 510 * 29 + 17;
    assert Unchecked(510 * 29 + 510) as int == 510 * 29 + 510;
  }

  /** A term's hash depends on nothing but its runtime type. */
  lemma {:induction false} HashByType(t: Term)
    requires t.Valid()
    ensures t.HashCode() == TypeHash(t.RuntimeType())
    decreases t.height
  {
    if t.IsNode() {
      var parts := t.Subterms();
      forall i | 0 <= i < |parts|
        ensures parts[i].HashCode() == TypeHash(parts[i].RuntimeType())
      {
        HashByType(parts[i]);
      }
      NodeHash(t);
    }
  }

  /** A node's hash, once its parts' hashes are known to follow their runtime types. */
  lemma NodeHash(t: Term)
    requires t.Valid() && t.IsNode()
    requires forall i :: 0 <= i < |t.Subterms()| ==> t.Subterms()[i].HashCode() == TypeHash(t.Subterms()[i].RuntimeType())
    ensures t.HashCode() == TypeHash(t.RuntimeType())
  {
    var parts := t.Subterms();
    assert parts[0].HashCode() == 17;
    if |parts| == 2 {
      TwoPartHash(parts[0].HashCode(), parts[1].HashCode());
    } else {
      assert Unchecked(17 * 29 + 17) as int == 17 * 29 + 17;
    }
  }

  /** Equal terms have equal hash codes, as a hash-based dictionary requires. */
  lemma EqualTermsHashEqually(a: Term, b: Term)
    requires a.Valid() && b.Valid()
    ensures a.Equals(b) ==> a.HashCode() == b.HashCode()
  {
    EqualsSameType(a, b);
    HashByType(a);
    HashByType(b);
  }

  // ---------------------------------------------------------------- subterms

  /**
   * The subterm view of a node is a consistent read-only list: `Subterms` has `Count` elements,
   * `this[i]` is element `i` for every index below `Count`, and the enumeration is `Subterms`.
   */
  lemma PartViewConsistent(t: Term)
    requires t.IsNode()
    ensures |t.Subterms()| == t.PartCount()
    ensures forall i :: 0 <= i < t.PartCount() ==> t.PartAt(i) == Success(t.Subterms()[i])
    ensures t.Subterms() == t.PartEnumeration()
  {
  }

  /** A node's subterms are its name followed by its second part, if it has one. */
  lemma NodeSubterms(t: Term)
    requires t.IsNode()
    ensures t.payload.ModuleParts? ==> t.Subterms() == [t.payload.name, t.payload.definitions]
    ensures t.payload.EntityParts? ==> t.Subterms() == [t.payload.name, t.payload.properties]
    ensures t.payload.PropertyParts? ==> t.Subterms() == [t.payload.name, t.payload.propertyType]
    ensures t.payload.TypeParts? ==> t.Subterms() == [t.payload.name]
  {
  }

  /** Int and String terms have no subterms; a list's subterms and enumeration are its elements. */
  lemma LeafAndListSubterms(t: Term)
    ensures t.payload.IntValue? || t.payload.StringValue? ==> t.Subterms() == []
    ensures t.payload.ListElements? ==> t.Subterms() == t.ListEnumeration() == t.payload.elements
  {
  }

  // ---------------------------------------------------------------- texts

  /** A String term's text is its value between double quotes, with no character escaped. */
  lemma StringTextUnescaped(t: Term)
    requires t.Valid() && t.payload.StringValue?
    ensures |t.ToString()| == |t.payload.text| + 2
    ensures t.ToString()[0] == '"' && t.ToString()[|t.ToString()| - 1] == '"'
    ensures t.ToString()[1..|t.ToString()| - 1] == t.payload.text
  {
  }

  /** A non-negative Int term's text parses back to its value. */
  lemma IntTextParses(t: Term)
    requires t.Valid() && t.payload.IntValue? && t.payload.number >= 0
    ensures AllDigits(t.ToString(), false)
    ensures ParseInt32(t.ToString()) == Success(t.payload.number)
  {
    ParseInt32OfText(t.payload.number);
  }

  /** `String.Join` adds one separator between each two parts and nothing else. */
  lemma {:induction false} JoinLength(separator: string, parts: seq<string>)
    ensures |Join(separator, parts)| == TotalLength(parts) + (if parts == [] then 0 else (|parts| - 1) * |separator|)
    decreases |parts|
  {
    if |parts| > 1 {
      JoinLength(separator, parts[1..]);
    }
  }

  /** Joining one more part appends a separator and that part. */
  lemma {:induction false} JoinAppend(separator: string, parts: seq<string>, last: string)
    requires parts != []
    ensures Join(separator, parts + [last]) == Join(separator, parts) + separator + last
    decreases |parts|
  {
    if |parts| > 1 {
      assert (parts + [last])[1..] == parts[1..] + [last];
      JoinAppend(separator, parts[1..], last);
    } else {
      assert (parts + [last])[1..] == [last];
    }
  }

  /**
   * Different runtime types have different names, so `Object.ToString` tells the classes, and
   * the element types of lists, apart.
   */
  lemma {:induction false} TypeNameInjective(a: RuntimeType, b: RuntimeType)
    ensures TypeName(a) == TypeName(b) <==> a == b
  {
    if a.ListTermType? && b.ListTermType? {
      var prefix := "Yargon.Terms.ATerms.ListTerm`1[";
      assert TypeName(a)[..|prefix|] == prefix && TypeName(b)[..|prefix|] == prefix;
      if TypeName(a) == TypeName(b) {
        assert TypeName(a)[|prefix|..|TypeName(a)| - 1] == ElementTypeName(a.element);
        assert TypeName(b)[|prefix|..|TypeName(b)| - 1] == ElementTypeName(b.element);
        ElementTypeNameInjective(a.element, b.element);
      }
    } else if TypeName(a) == TypeName(b) {
      // Names of different classes already differ within their first 24 characters.
      assert TypeName(a)[..24] == TypeName(b)[..24];
    }
  }

  /** Different interface types have different names. */
  lemma {:induction false} ElementTypeNameInjective(a: ElementType, b: ElementType)
    ensures ElementTypeName(a) == ElementTypeName(b) <==> a == b
  {
    if a.ListsOf? && b.ListsOf? {
      var prefix := "Yargon.Terms.IListTerm`1[";
      assert ElementTypeName(a)[..|prefix|] == prefix && ElementTypeName(b)[..|prefix|] == prefix;
      if ElementTypeName(a) == ElementTypeName(b) {
        assert ElementTypeName(a)[|prefix|..|ElementTypeName(a)| - 1] == ElementTypeName(a.element);
        assert ElementTypeName(b)[|prefix|..|ElementTypeName(b)| - 1] == ElementTypeName(b.element);
        ElementTypeNameInjective(a.element, b.element);
      }
    } else if ElementTypeName(a) == ElementTypeName(b) {
      assert ElementTypeName(a)[..16] == ElementTypeName(b)[..16];
    }
  }

  /**
   * An empty list prints as `[]`, and a one-element list as its element's runtime type name in
   * brackets: a list holding the Int 5 prints `[Yargon.Terms.ATerms.IntTerm]`.
   */
  lemma ShortListTexts(t: Term)
    requires t.Valid() && t.payload.ListElements? && |t.payload.elements| <= 1
    ensures t.payload.elements == [] ==> t.ToString() == "[]"
    ensures |t.payload.elements| == 1 ==> t.ToString() == "[" + TypeName(t.payload.elements[0].RuntimeType()) + "]"
    ensures |t.payload.elements| == 1 && t.payload.elements[0].payload.IntValue? ==>
              t.ToString() == "[" + TypeName(IntTermType) + "]"
  {
    if |t.payload.elements| == 1 {
      assert Texts(t.payload.elements) == [TypeName(t.payload.elements[0].RuntimeType())];
    }
  }

  /**
   * A list's text shows only its elements' runtime types: two lists whose elements have the same
   * classes, position by position, print the same, whatever values the elements hold.
   */
  lemma ListTextIgnoresValues(a: Term, b: Term)
    requires a.payload.ListElements? && b.payload.ListElements?
    requires |a.payload.elements| == |b.payload.elements|
    requires forall i :: 0 <= i < |a.payload.elements| ==>
               a.payload.elements[i].RuntimeType() == b.payload.elements[i].RuntimeType()
    ensures a.ToString() == b.ToString()
  {
    assert Texts(a.payload.elements) == Texts(b.payload.elements);
  }

  /**
   * Every node prints as `Module(` and its parts' runtime type names, whatever its class and
   * whatever its name and contents: the three other classes copy the module's text. A module
   * prints `Module(Yargon.Terms.ATerms.StringTerm, Yargon.Terms.ATerms.ListTerm`1[EntityLanguage.IEntityTerm])`.
   */
  lemma NodeTextsSayModule(t: Term)
    requires t.Valid() && t.IsNode()
    ensures t.payload.ModuleParts? ==>
              t.ToString() == "Module(" + TypeName(StringTermType) + ", " + TypeName(ListTermType(EntityTerms)) + ")"
    ensures t.payload.EntityParts? ==>
              t.ToString() == "Module(" + TypeName(StringTermType) + ", " + TypeName(ListTermType(PropertyTerms)) + ")"
    ensures t.payload.PropertyParts? ==>
              t.ToString() == "Module(" + TypeName(StringTermType) + ", " + TypeName(TypeATermType) + ")"
    ensures t.payload.TypeParts? ==> t.ToString() == "Module(" + TypeName(StringTermType) + ")"
  {
    assert t.payload.name.RuntimeType() == StringTermType;
    match t.payload
    case ModuleParts(_, d) => assert d.RuntimeType() == ListTermType(EntityTerms);
    case EntityParts(_, p) => assert p.RuntimeType() == ListTermType(PropertyTerms);
    case PropertyParts(_, ty) => assert ty.RuntimeType() == TypeATermType;
    case TypeParts(_) =>
  }
}
