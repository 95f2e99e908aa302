/** The schema registry: create, read, update, delete and list schema
    documents in the `schema` collection, and record which collection backs a
    schema. The SchemaBuilder collaborator is not part of this model; its two
    entry points are abstract functions the service is constructed with. */
module SchemaServiceActivity {
  import opened Results
  import opened Json
  import opened FirebaseClientActivity

  /** `this.COLLECTION_NAME` */
  const CollectionName: string := "schema"

  /** Where a SchemaBuilder chain starts. */
  datatype BuilderBase =
    | NewSchema(uuid: string, schemaName: Value)   // new SchemaBuilder(uuid, schemaName)
    | FromExisting(existing: Doc)                  // SchemaBuilder.fromExisting(existing)

  /** What a SchemaBuilder chain is given before `build()`: its start, the
      properties, and `required` / `additionalProperties` only when the
      service passed them on. */
  datatype BuilderInput = BuilderInput(
    base: BuilderBase,
    properties: Value,
    required: Option<Value>,
    additionalProperties: Option<Value>)

  /** `SchemaBuilder.validateSchema(definition)`: the checked definition, or the error it throws. */
  type DefinitionValidator = Value -> Result<Value>
  /** The builder chain ending in `build()`. */
  type SchemaBuild = BuilderInput -> Result<Doc>

  /** The builder calls applied to a validated definition: `addProperties`
      always, `addRequired` when `required` is truthy, and
      `setAdditionalProperties` when `additionalProperties` is not undefined. */
  function BuilderInputFor(base: BuilderBase, validated: Value): (r: Result<BuilderInput>)
    ensures r.Failure? <==> Nullish(validated)
    ensures r.Success? ==> r.value.base == base && r.value.properties == Prop(validated, "properties")
    ensures r.Success? ==> (r.value.required.Some? <==> Truthy(Prop(validated, "required")))
    ensures r.Success? && r.value.required.Some? ==> r.value.required.value == Prop(validated, "required")
    ensures r.Success? ==> (r.value.additionalProperties.Some? <==> Prop(validated, "additionalProperties") != Undefined)
    ensures r.Success? && r.value.additionalProperties.Some? ==>
      r.value.additionalProperties.value == Prop(validated, "additionalProperties")
  {
    match Member(validated, "properties")
    case Failure(e) => Failure(e)
    case Success(properties) =>
      var required := Prop(validated, "required");
      var additional := Prop(validated, "additionalProperties");
      Success(BuilderInput(
        base,
        properties,
        if Truthy(required) then Some(required) else None,
        if additional != Undefined then Some(additional) else None))
  }

  /** The schema document `createSchema` builds for `data` under `uuid`. */
  function BuiltSchema(validate: DefinitionValidator, build: SchemaBuild, data: Doc, uuid: string): Result<Doc>
  {
    match validate(Field(data, "schema"))
    case Failure(e) => Failure(e)
    case Success(validated) =>
      match BuilderInputFor(NewSchema(uuid, Field(data, "schemaName")), validated)
      case Failure(e) => Failure(e)
      case Success(input) => build(input)
  }

  /** The schema `updateSchema` builds when the update carries a definition. */
  function RebuiltSchema(validate: DefinitionValidator, build: SchemaBuild, existing: Doc, definition: Value): Result<Doc>
  {
    match validate(definition)
    case Failure(e) => Failure(e)
    case Success(validated) =>
      match BuilderInputFor(FromExisting(existing), validated)
      case Failure(e) => Failure(e)
      case Success(input) => build(input)
  }

  /** `{ ...existingSchema, ...updateData, lastUpdatedAt: now }` */
  function MetadataUpdate(existing: Doc, updateData: Doc, now: string): Doc
  {
    existing + updateData + map["lastUpdatedAt" := Str(now)]
  }

  /** The merge `updateSchemaTableRef` asks the store for. */
  function TableRefPatch(tableRef: Value, now: string): Doc
  {
    map["tableRef" := tableRef, "lastUpdatedAt" := Str(now), "isTableInitialized" := Bool(true)]
  }

  /** The document `updateSchemaTableRef` leaves in the registry and returns. */
  function TableRefUpdated(db: Db, uuid: Value, tableRef: Value, now: string): Result<Doc>
  {
    match PathOf(uuid)
    case None => Failure(InvalidPath("documentPath"))
    case Some(id) =>
      match Lookup(CollectionOf(db, CollectionName), id)
      case None => Failure(NoDocumentToUpdate(CollectionName, id))
      case Some(existing) => Success(existing + TableRefPatch(tableRef, now))
  }

  /** The metadata update stores exactly what it returns: every existing
      field the update does not name, every field it names, and the fresh
      `lastUpdatedAt` whatever the caller sent for it. */
  lemma MetadataUpdateStored(existing: Doc, updateData: Doc, now: string)
    ensures existing + MetadataUpdate(existing, updateData, now) == MetadataUpdate(existing, updateData, now)
    ensures MetadataUpdate(existing, updateData, now)["lastUpdatedAt"] == Str(now)
    ensures forall k :: k in updateData && k != "lastUpdatedAt" ==> MetadataUpdate(existing, updateData, now)[k] == updateData[k]
    ensures forall k :: k in existing && k !in updateData && k != "lastUpdatedAt" ==>
      MetadataUpdate(existing, updateData, now)[k] == existing[k]
    ensures MetadataUpdate(existing, updateData, now).Keys == existing.Keys + updateData.Keys + {"lastUpdatedAt"}
  {
    var updated := MetadataUpdate(existing, updateData, now);
    assert (existing + updated).Keys == updated.Keys;
  }

  /** After `updateSchemaTableRef` the schema has the table reference, is
      marked initialized, carries the new time, and keeps every other field. */
  lemma TableRefUpdateEffect(db: Db, uuid: Value, tableRef: Value, now: string)
    requires TableRefUpdated(db, uuid, tableRef, now).Success?
    ensures PathOf(uuid).Some? && Lookup(CollectionOf(db, CollectionName), PathOf(uuid).value).Some?
    ensures var d := TableRefUpdated(db, uuid, tableRef, now).value;
      var existing := Lookup(CollectionOf(db, CollectionName), PathOf(uuid).value).value;
      && d["tableRef"] == tableRef
      && d["isTableInitialized"] == Bool(true)
      && d["lastUpdatedAt"] == Str(now)
      && d.Keys == existing.Keys + {"tableRef", "isTableInitialized", "lastUpdatedAt"}
      && (forall k :: k in existing && k !in {"tableRef", "isTableInitialized", "lastUpdatedAt"} ==> d[k] == existing[k])
  {
  }

  /** Deleting a schema touches no data collection. */
  lemma DeleteDoesNotCascade(db: Db, id: string, name: string)
    requires name != CollectionName
    ensures CollectionOf(DeleteIn(db, CollectionName, id), name) == CollectionOf(db, name)
  {
  }

  class SchemaService {
    const store: DocumentStore
    const validateSchema: DefinitionValidator
    const buildSchema: SchemaBuild

    constructor (store: DocumentStore, validateSchema: DefinitionValidator, buildSchema: SchemaBuild)
      ensures this.store == store && this.validateSchema == validateSchema && this.buildSchema == buildSchema
    {
      this.store := store;
      this.validateSchema := validateSchema;
      this.buildSchema := buildSchema;
    }

    /** `createSchema(data)` with `uuid` the fresh id it draws. */
    method CreateSchema(data: Doc, uuid: string) returns (r: Result<Doc>)
      requires store.Valid() && uuid != ""
      modifies store
      ensures store.Valid()
      ensures r.Failure? ==> r.error.CreateSchemaFailed? && store.collections == old(store.collections)
      ensures match BuiltSchema(validateSchema, buildSchema, data, uuid)
        case Failure(e) => r == Failure(CreateSchemaFailed(e))
        case Success(schema) =>
          r == Success(schema) && store.collections == SetIn(old(store.collections), CollectionName, uuid, schema)
    {
      match validateSchema(Field(data, "schema")) {
        case Failure(e) =>
          r := Failure(CreateSchemaFailed(e));
        case Success(validated) =>
          match BuilderInputFor(NewSchema(uuid, Field(data, "schemaName")), validated) {
            case Failure(e) =>
              r := Failure(CreateSchemaFailed(e));
            case Success(input) =>
              match buildSchema(input) {
                case Failure(e) =>
                  r := Failure(CreateSchemaFailed(e));
                case Success(schema) =>
                  var written := store.CreateDocument(Str(CollectionName), schema, Str(uuid));
                  match written {
                    case Fail(e) => r := Failure(CreateSchemaFailed(e));
                    case Pass => r := Success(schema);
                  }
              }
          }
      }
    }

    /** `getSchema({uuid})`: None (null) exactly when no registry document has that id. */
    method GetSchema(uuid: Value) returns (r: Result<Option<Doc>>)
      ensures r == ReadDocument(store.collections, Str(CollectionName), uuid)
      ensures r.Failure? <==> PathOf(uuid).None?
      ensures r.Success? ==> (r.value.None? <==> PathOf(uuid).value !in Ids(CollectionOf(store.collections, CollectionName)))
    {
      r := store.GetDocument(Str(CollectionName), uuid);
    }

    /** `updateSchema({uuid, updateData})` at time `now`. */
    method UpdateSchema(uuid: Value, updateData: Doc, now: string) returns (r: Result<Doc>)
      requires store.Valid()
      modifies store
      ensures store.Valid()
      ensures r.Failure? ==> r.error.UpdateSchemaFailed? && store.collections == old(store.collections)
      ensures match ReadDocument(old(store.collections), Str(CollectionName), uuid)
        case Failure(e) => r == Failure(UpdateSchemaFailed(e))
        case Success(None) => r == Failure(UpdateSchemaFailed(SchemaNotFound))
        case Success(Some(existing)) =>
          if Truthy(Field(updateData, "schema")) then
            match RebuiltSchema(validateSchema, buildSchema, existing, updateData["schema"])
            case Failure(e) => r == Failure(UpdateSchemaFailed(e))
            case Success(updated) =>
              r == Success(updated) &&
              store.collections == SetIn(old(store.collections), CollectionName, PathOf(uuid).value, existing + updated)
          else
            r == Success(MetadataUpdate(existing, updateData, now)) &&
            store.collections == SetIn(old(store.collections), CollectionName, PathOf(uuid).value, MetadataUpdate(existing, updateData, now))
    {
      var found := GetSchema(uuid);
      match found {
        case Failure(e) =>
          r := Failure(UpdateSchemaFailed(e));
        case Success(None) =>
          r := Failure(UpdateSchemaFailed(SchemaNotFound));
        case Success(Some(existing)) =>
          var updated: Doc;
          if Truthy(Field(updateData, "schema")) {
            match RebuiltSchema(validateSchema, buildSchema, existing, updateData["schema"]) {
              case Failure(e) =>
                return Failure(UpdateSchemaFailed(e));
              case Success(rebuilt) =>
                updated := rebuilt;
            }
          } else {
            updated := MetadataUpdate(existing, updateData, now);
            MetadataUpdateStored(existing, updateData, now);
          }
          var written := store.UpdateDocument(Str(CollectionName), uuid, updated);
          match written {
            case Fail(e) => r := Failure(UpdateSchemaFailed(e));
            case Pass => r := Success(updated);
          }
      }
    }

    /** `deleteSchema({uuid})`: removes only the registry document. */
    method DeleteSchema(uuid: Value) returns (r: Outcome)
      requires store.Valid()
      modifies store
      ensures store.Valid()
      ensures r.Pass? <==> PathOf(uuid).Some?
      ensures r.Pass? ==> store.collections == DeleteIn(old(store.collections), CollectionName, PathOf(uuid).value)
      ensures r.Fail? ==> store.collections == old(store.collections)
    {
      r := store.DeleteDocument(Str(CollectionName), uuid);
    }

    /** `getAllSchemas()` */
    method GetAllSchemas() returns (r: Result<seq<Doc>>)
      ensures r == Success(Listing(CollectionOf(store.collections, CollectionName)))
    {
      r := store.GetAllDocuments(Str(CollectionName));
    }

    /** `updateSchemaTableRef({uuid, tableRef})` at time `now`: a merge
        update of the registry document, then a re-read of it. */
    method UpdateSchemaTableRef(uuid: Value, tableRef: Value, now: string) returns (r: Result<Doc>)
      requires store.Valid()
      modifies store
      ensures store.Valid()
      ensures match TableRefUpdated(old(store.collections), uuid, tableRef, now)
        case Failure(e) => r == Failure(e) && store.collections == old(store.collections)
        case Success(d) =>
          r == Success(d) && store.collections == SetIn(old(store.collections), CollectionName, PathOf(uuid).value, d)
    {
      var written := store.UpdateDocument(Str(CollectionName), uuid, TableRefPatch(tableRef, now));
      if written.Fail? {
        return Failure(written.error);
      }
      var id := PathOf(uuid).value;
      LookupPut(CollectionOf(old(store.collections), CollectionName), id,
        Lookup(CollectionOf(old(store.collections), CollectionName), id).value + TableRefPatch(tableRef, now), id);
      var updated := GetSchema(uuid);
      match updated {
        case Failure(e) => r := Failure(e);
        case Success(None) => r := Failure(UpdatedSchemaUnreadable);
        case Success(Some(d)) => r := Success(d);
      }
    }
  }
}
