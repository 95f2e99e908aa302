/** The relationship resolver: which properties of a schema definition point
    at another schema, and whether they hold one reference or a list of them.
    A stored schema keeps its definition in the `schema` field; the model
    holds that definition already parsed. */
module Relationships {
  import opened Results
  import opened Json

  datatype Relationship = Relationship(schemaId: Value, isArray: bool)

  /** `prop.type === 'object' && prop.schemaId` */
  predicate IsObjectRef(prop: Value)
  {
    Prop(prop, "type") == Str("object") && Truthy(Prop(prop, "schemaId"))
  }

  /** `prop.type === 'array' && prop.items?.schemaId` */
  predicate IsArrayRef(prop: Value)
  {
    Prop(prop, "type") == Str("array") && Truthy(Prop(Prop(prop, "items"), "schemaId"))
  }

  /** One turn of the resolver's loop. */
  function RelationshipOf(prop: Value): Option<Relationship>
  {
    if IsObjectRef(prop) then Some(Relationship(Prop(prop, "schemaId"), false))
    else if IsArrayRef(prop) then Some(Relationship(Prop(Prop(prop, "items"), "schemaId"), true))
    else None
  }

  /** `JSON.parse(schema.schema)`: only a missing definition fails to parse. */
  function ParseDefinition(schema: Doc): Result<Value>
  {
    if Field(schema, "schema") == Undefined then Failure(NotJson("undefined"))
    else Success(schema["schema"])
  }

  /** `Object.entries(v)`: throws on null and undefined, and otherwise
      gives the own entries (an array's under its index names). */
  function Entries(v: Value): Result<Doc>
  {
    if Nullish(v) then Failure(NullishToObject) else Success(OwnEntries(v))
  }

  /** `Object.entries(JSON.parse(schema.schema).properties)` */
  function DefinitionProperties(schema: Doc): Result<Doc>
  {
    match ParseDefinition(schema)
    case Failure(e) => Failure(e)
    case Success(definition) =>
      match Member(definition, "properties")
      case Failure(e) => Failure(e)
      case Success(properties) => Entries(properties)
  }

  /** Reading `prop.type` throws when a property definition is null. */
  predicate HasNullProperty(properties: Doc)
  {
    exists key :: key in properties && Nullish(properties[key])
  }

  function RelationshipsOf(properties: Doc): map<string, Relationship>
  {
    map key | key in properties && RelationshipOf(properties[key]).Some? :: RelationshipOf(properties[key]).value
  }

  /** `getSchemaRelationships(schema)` */
  function SchemaRelationships(schema: Doc): Result<map<string, Relationship>>
  {
    match DefinitionProperties(schema)
    case Failure(e) => Failure(e)
    case Success(properties) =>
      if HasNullProperty(properties) then Failure(ReadOfNullish("null", "type"))
      else Success(RelationshipsOf(properties))
  }

  /** A property is a relationship exactly when it is an `object` with a
      `schemaId` (one reference) or an `array` whose `items` has one (a list
      of references); the `schemaId` is copied as it is. */
  lemma RelationshipsCharacterized(properties: Doc)
    ensures RelationshipsOf(properties).Keys <= properties.Keys
    ensures forall key :: key in RelationshipsOf(properties) <==>
      key in properties && (IsObjectRef(properties[key]) || IsArrayRef(properties[key]))
    ensures forall key :: key in properties && IsObjectRef(properties[key]) ==>
      RelationshipsOf(properties)[key] == Relationship(Prop(properties[key], "schemaId"), false)
    ensures forall key :: key in properties && IsArrayRef(properties[key]) ==>
      RelationshipsOf(properties)[key] == Relationship(Prop(Prop(properties[key], "items"), "schemaId"), true)
  {
  }

  /** A definition whose `properties` is an array is read by index: an
      array holding a reference gives the relationship "0", and one holding
      null throws on reading `type`. */
  lemma ArrayPropertiesByIndex(ref: Value)
    requires IsObjectRef(ref)
    ensures SchemaRelationships(map["schema" := Obj(map["properties" := Arr([ref])])])
      == Success(map["0" := Relationship(Prop(ref, "schemaId"), false)])
    ensures SchemaRelationships(map["schema" := Obj(map["properties" := Arr([Null])])])
      == Failure(ReadOfNullish("null", "type"))
  {
    assert IndexName(0) == "0";
    var entries := OwnEntries(Arr([ref]));
    assert entries.Keys == {"0"} && entries["0"] == ref;
    assert RelationshipsOf(entries) == map["0" := Relationship(Prop(ref, "schemaId"), false)];
    assert OwnEntries(Arr([Null]))["0"] == Null;
  }

  /** The resolver on a plain object property, an object reference and an
      array reference. */
  lemma ResolverExample()
    ensures RelationshipsOf(map[
      "fieldA" := Obj(map["type" := Str("object")]),
      "fieldB" := Obj(map["type" := Str("object"), "schemaId" := Str("S1")]),
      "fieldC" := Obj(map["type" := Str("array"), "items" := Obj(map["schemaId" := Str("S2")])])])
      == map["fieldB" := Relationship(Str("S1"), false), "fieldC" := Relationship(Str("S2"), true)]
  {
    var properties := map[
      "fieldA" := Obj(map["type" := Str("object")]),
      "fieldB" := Obj(map["type" := Str("object"), "schemaId" := Str("S1")]),
      "fieldC" := Obj(map["type" := Str("array"), "items" := Obj(map["schemaId" := Str("S2")])])];
    assert RelationshipOf(properties["fieldA"]).None?;
    assert RelationshipOf(properties["fieldB"]) == Some(Relationship(Str("S1"), false));
    assert RelationshipOf(properties["fieldC"]) == Some(Relationship(Str("S2"), true));
  }
}
