/**
 * The plain syntax tree of the entity language: `Module`, `Entity`, `Property` and `Type`, with
 * the equality each class defines: `Equals(T other)`, the `Equals(object)` override, and the
 * `==` and `!=` operators, which go through `Object.Equals`.
 *
 * A `null` reference is `None`. An object of any of the four classes, or of any other class, is
 * an `AstObject`, which is what `Equals(object)` receives.
 */
module EntityAst {
  import opened Wrappers

  /** A non-null object handed to `Equals(object)`. */
  datatype AstObject =
    | ModuleObject(m: Module)
    | EntityObject(e: Entity)
    | PropertyObject(p: Property)
    | TypeObject(t: Type)
    | OtherObject

  datatype Type = Type(name: string)
  {
    /** `Equals(Type other)`: `other` is not null and has the same name. */
    function Equals(other: Option<Type>): (r: bool)
      ensures r <==> other == Some(this)
    {
      other.Some? && name == other.value.name
    }

    /** `Equals(object obj)`: `Equals(obj as Type)`. */
    function EqualsObject(obj: Option<AstObject>): (r: bool)
      ensures r <==> obj == Some(TypeObject(this))
    {
      Equals(if obj.Some? && obj.value.TypeObject? then Some(obj.value.t) else None)
    }
  }

  /** `Type == Type`: `Object.Equals(left, right)`: two nulls are equal, a null equals nothing else. */
  function TypeEq(left: Option<Type>, right: Option<Type>): (r: bool)
    ensures r <==> left == right
  {
    if left.None? || right.None? then left.None? && right.None?
    else left.value.EqualsObject(Some(TypeObject(right.value)))
  }

  /** `Type != Type`: the negation of `==`. */
  function TypeNe(left: Option<Type>, right: Option<Type>): (r: bool)
    ensures r <==> left != right
  {
    !TypeEq(left, right)
  }

  datatype Property = Property(name: string, propertyType: Option<Type>)
  {
    /** `Equals(Property other)`: `other` is not null, with the same name, and types equal by `==`. */
    function Equals(other: Option<Property>): (r: bool)
      ensures r <==> other == Some(this)
    {
      other.Some? && name == other.value.name && TypeEq(propertyType, other.value.propertyType)
    }

    /** `Equals(object obj)`: `Equals(obj as Property)`. */
    function EqualsObject(obj: Option<AstObject>): (r: bool)
      ensures r <==> obj == Some(PropertyObject(this))
    {
      Equals(if obj.Some? && obj.value.PropertyObject? then Some(obj.value.p) else None)
    }
  }

  /** `Property == Property`: `Object.Equals(left, right)`. */
  function PropertyEq(left: Option<Property>, right: Option<Property>): (r: bool)
    ensures r <==> left == right
  {
    if left.None? || right.None? then left.None? && right.None?
    else left.value.EqualsObject(Some(PropertyObject(right.value)))
  }

  /** `Property != Property`: the negation of `==`. */
  function PropertyNe(left: Option<Property>, right: Option<Property>): (r: bool)
    ensures r <==> left != right
  {
    !PropertyEq(left, right)
  }

  /**
   * `SequenceEqual` over two lists of properties with the default comparer, which calls
   * `Equals(object)` on each pair: the same length and pairwise equal elements.
   */
  function PropertiesEqual(a: seq<Property>, b: seq<Property>): (r: bool)
    ensures r <==> a == b
  {
    if a == [] then b == []
    else b != [] && a[0].EqualsObject(Some(PropertyObject(b[0]))) && PropertiesEqual(a[1..], b[1..])
  }

  datatype Entity = Entity(name: string, properties: seq<Property>)
  {
    /** `Equals(Entity other)`: `other` is not null, with the same name and sequence-equal properties. */
    function Equals(other: Option<Entity>): (r: bool)
      ensures r <==> other == Some(this)
    {
      other.Some? && name == other.value.name && PropertiesEqual(properties, other.value.properties)
    }

    /** `Equals(object obj)`: `Equals(obj as Entity)`. */
    function EqualsObject(obj: Option<AstObject>): (r: bool)
      ensures r <==> obj == Some(EntityObject(this))
    {
      Equals(if obj.Some? && obj.value.EntityObject? then Some(obj.value.e) else None)
    }
  }

  /** `Entity == Entity`: `Object.Equals(left, right)`. */
  function EntityEq(left: Option<Entity>, right: Option<Entity>): (r: bool)
    ensures r <==> left == right
  {
    if left.None? || right.None? then left.None? && right.None?
    else left.value.EqualsObject(Some(EntityObject(right.value)))
  }

  /** `Entity != Entity`: the negation of `==`. */
  function EntityNe(left: Option<Entity>, right: Option<Entity>): (r: bool)
    ensures r <==> left != right
  {
    !EntityEq(left, right)
  }

  /** `SequenceEqual` over two lists of entities with the default comparer. */
  function EntitiesEqual(a: seq<Entity>, b: seq<Entity>): (r: bool)
    ensures r <==> a == b
  {
    if a == [] then b == []
    else b != [] && a[0].EqualsObject(Some(EntityObject(b[0]))) && EntitiesEqual(a[1..], b[1..])
  }

  datatype Module = Module(name: string, definitions: seq<Entity>)
  {
    /** `Equals(Module other)`: `other` is not null, with the same name and sequence-equal definitions. */
    function Equals(other: Option<Module>): (r: bool)
      ensures r <==> other == Some(this)
    {
      other.Some? && name == other.value.name && EntitiesEqual(definitions, other.value.definitions)
    }

    /** `Equals(object obj)`: `Equals(obj as Module)`. */
    function EqualsObject(obj: Option<AstObject>): (r: bool)
      ensures r <==> obj == Some(ModuleObject(this))
    {
      Equals(if obj.Some? && obj.value.ModuleObject? then Some(obj.value.m) else None)
    }
  }

  /** `Module == Module`: `Object.Equals(left, right)`. */
  function ModuleEq(left: Option<Module>, right: Option<Module>): (r: bool)
    ensures r <==> left == right
  {
    if left.None? || right.None? then left.None? && right.None?
    else left.value.EqualsObject(Some(ModuleObject(right.value)))
  }

  /** `Module != Module`: the negation of `==`. */
  function ModuleNe(left: Option<Module>, right: Option<Module>): (r: bool)
    ensures r <==> left != right
  {
    !ModuleEq(left, right)
  }

  // ---------------------------------------------------------------- properties

  /**
   * Two entities with the same name but properties listed in a different order are not
   * equal: `SequenceEqual` compares positions, not contents.
   */
  lemma PropertyOrderMatters(name: string, p: Property, q: Property)
    requires p != q
    ensures !Entity(name, [p, q]).Equals(Some(Entity(name, [q, p])))
  {
    assert [p, q][0] != [q, p][0];
  }
}
