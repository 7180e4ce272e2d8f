/**
 * The code generator's test: module `X` with entity `A` (properties `a : A` and `b : B`) and an
 * empty entity `B`, built by a factory with a `NullTermCache` and the entity language's
 * constructor table, generates the expected C# text.
 */
module GeneratorExample {
  import opened Wrappers
  import opened TypedTerms
  import opened TypedTermFactory
  import opened CodeGeneration

  /** The constructor table of the test: one delegate per node interface. */
  const EntityLanguageConstructors: map<TypeKey, TermConstructor> :=
    map[TypeKey("IModuleTerm") := NewModuleTerm, TypeKey("IEntityTerm") := NewEntityTerm,
        TypeKey("IPropertyTerm") := NewPropertyTerm, TypeKey("ITypeTerm") := NewTypeTerm]

  /** The text the test expects on Windows, where `Environment.NewLine` is CR LF. */
  const ExpectedText :=
    "using System;\r\n" + "\r\n" + "namespace Entities\r\n" + "{\r\n"
    + "\tpublic class A\r\n" + "\t{\r\n" + "\t\tpublic A a;\r\n" + "\t\tpublic B b;\r\n" + "\t}\r\n"
    + "\tpublic class B\r\n" + "\t{\r\n" + "\t}\r\n"
    + "}\r\n"

  /** The texts of two properties are their texts one after the other. */
  lemma TwoPropertiesText(p: Term, q: Term)
    requires AllProperties([p, q])
    ensures p.Valid() && p.payload.PropertyParts? && q.Valid() && q.payload.PropertyParts?
    ensures PropertiesText([p, q]) == PropertyText(p) + PropertyText(q)
  {
    assert [p, q][0] == p && [p, q][1] == q;
    assert [p, q][..1] == [p] && [p][..0] == [];
    assert PropertiesText([p]) == PropertyText(p);
  }

  /** The texts of two entities are their texts one after the other. */
  lemma TwoEntitiesText(e: Term, f: Term)
    requires AllEntities([e, f])
    ensures e.Valid() && e.payload.EntityParts? && f.Valid() && f.payload.EntityParts?
    ensures EntitiesText([e, f]) == EntityText(e) + EntityText(f)
  {
    assert [e, f][0] == e && [e, f][1] == f;
    assert [e, f][..1] == [e] && [e][..0] == [];
    assert EntitiesText([e]) == EntityText(e);
  }

  /** An entity with two properties: its header, the two properties' texts, and the closing brace. */
  lemma EntityWithTwoProperties(e: Term, p: Term, q: Term)
    requires e.Valid() && e.payload.EntityParts? && e.payload.properties.payload.elements == [p, q]
    ensures p.Valid() && p.payload.PropertyParts? && q.Valid() && q.payload.PropertyParts?
    ensures EntityText(e)
            == "\tpublic class " + Value(e.payload.name) + "\r\n" + "\t{\r\n" + PropertyText(p) + PropertyText(q) + "\t}\r\n"
  {
    ElementsOf(e.payload.properties, PropertyTerms);
    TwoPropertiesText(p, q);
  }

  /** An entity with no properties: its header and the closing brace. */
  lemma EntityWithoutProperties(e: Term)
    requires e.Valid() && e.payload.EntityParts? && e.payload.properties.payload.elements == []
    ensures EntityText(e) == "\tpublic class " + Value(e.payload.name) + "\r\n" + "\t{\r\n" + "\t}\r\n"
  {
  }

  /** A module with two entities: the header, the two entities' texts, and the closing brace. */
  lemma ModuleWithTwoEntities(m: Term, e: Term, f: Term)
    requires m.Valid() && m.payload.ModuleParts? && m.payload.definitions.payload.elements == [e, f]
    ensures e.Valid() && e.payload.EntityParts? && f.Valid() && f.payload.EntityParts?
    ensures ModuleText(m) == ModuleHeader + EntityText(e) + EntityText(f) + ModuleFooter
  {
    ElementsOf(m.payload.definitions, EntityTerms);
    TwoEntitiesText(e, f);
  }

  /** The expected text, piece by piece as the generator puts it together. */
  lemma ExpectedPieces()
    ensures ExpectedText
            == ModuleHeader
               + ("\tpublic class " + "A" + "\r\n" + "\t{\r\n"
                  + ("\t\tpublic " + "A" + " " + "a" + ";\r\n") + ("\t\tpublic " + "B" + " " + "b" + ";\r\n")
                  + "\t}\r\n")
               + ("\tpublic class " + "B" + "\r\n" + "\t{\r\n" + "\t}\r\n")
               + ModuleFooter
  {
    assert "\tpublic class " + "A" + "\r\n" == "\tpublic class A\r\n";
    assert "\tpublic class " + "B" + "\r\n" == "\tpublic class B\r\n";
    assert "\t\tpublic " + "A" + " " + "a" + ";\r\n" == "\t\tpublic A a;\r\n";
    assert "\t\tpublic " + "B" + " " + "b" + ";\r\n" == "\t\tpublic B b;\r\n";
  }

  /** The property term `name : typeName`, as the test's parser would build it. */
  method NewProperty(factory: ATermFactory, name: string, typeName: string) returns (p: Term)
    ensures p.Valid() && p.payload.PropertyParts?
    ensures PropertyText(p) == "\t\tpublic " + typeName + " " + name + ";\r\n"
  {
    var nameTerm := new Term.String(factory, name, []);
    var typeNameTerm := new Term.String(factory, typeName, []);
    var typeTerm := new Term.Type(factory, typeNameTerm, []);
    p := new Term.Property(factory, nameTerm, typeTerm, []);
  }

  /** The entity term `entity name { properties }`. */
  method NewEntity(factory: ATermFactory, name: string, properties: seq<Term>) returns (e: Term)
    requires forall i :: 0 <= i < |properties| ==> properties[i].Valid() && properties[i].payload.PropertyParts?
    ensures e.Valid() && e.payload.EntityParts?
    ensures Value(e.payload.name) == name && e.payload.properties.payload.elements == properties
  {
    var nameTerm := new Term.String(factory, name, []);
    var list := new Term.List(factory, PropertyTerms, properties, []);
    e := new Term.Entity(factory, nameTerm, list, []);
  }

  /** The module term `module name` followed by `definitions`. */
  method NewModule(factory: ATermFactory, name: string, definitions: seq<Term>) returns (m: Term)
    requires forall i :: 0 <= i < |definitions| ==> definitions[i].Valid() && definitions[i].payload.EntityParts?
    ensures m.Valid() && m.payload.ModuleParts?
    ensures Value(m.payload.name) == name && m.payload.definitions.payload.elements == definitions
  {
    var nameTerm := new Term.String(factory, name, []);
    var list := new Term.List(factory, EntityTerms, definitions, []);
    m := new Term.Module(factory, nameTerm, list, []);
  }

  /**
   * `CodeGeneratorTests.SimpleTest`: the module of the test's source text, built directly in
   * place of parsing it, generates the expected text.
   */
  method SimpleTest() returns (result: Option<Term>)
    ensures result.Some? && result.value.payload.StringValue?
    ensures result.value.payload.text == ExpectedText
  {
    var factory := new ATermFactory(NullCache, EntityLanguageConstructors);
    var a := NewProperty(factory, "a", "A");
    var b := NewProperty(factory, "b", "B");
    var entityA := NewEntity(factory, "A", [a, b]);
    var entityB := NewEntity(factory, "B", []);
    var moduleX := NewModule(factory, "X", [entityA, entityB]);

    var generator := new CodeGenerator(factory);
    result := generator.Generate(moduleX);

    ModuleWithTwoEntities(moduleX, entityA, entityB);
    EntityWithTwoProperties(entityA, a, b);
    EntityWithoutProperties(entityB);
    ExpectedPieces();
  }
}
