/** The schema-driven data service: records of any registered schema live in
    the collection named by the schema's `schemaName`; references between
    records are checked on create and stored as `{uuid, _ref: true}` stubs. */
module DataServiceActivity {
  import opened Results
  import opened Json
  import opened FirebaseClientActivity
  import opened Relationships
  import opened SchemaServiceActivity
  import opened DataServiceRules

  class DataService {
    const store: DocumentStore
    const schemaService: SchemaService
    /** `this.ajv.compile(schema)(data)` */
    const structuralCheck: StructuralCheck

    /** Both services share one store. */
    ghost predicate Valid()
      reads this, store
    {
      schemaService.store == store && store.Valid()
    }

    constructor (schemaService: SchemaService, structuralCheck: StructuralCheck)
      ensures this.store == schemaService.store
      ensures this.schemaService == schemaService && this.structuralCheck == structuralCheck
    {
      this.store := schemaService.store;
      this.schemaService := schemaService;
      this.structuralCheck := structuralCheck;
    }

    /** `getSchemaById(schemaId)`: the first registered schema with that
        `uuid`, with its definition parsed. */
    method GetSchemaById(schemaId: Value) returns (r: Result<Doc>)
      ensures r == SchemaById(store.collections, schemaId)
    {
      var schemas := store.GetAllDocuments(Str(CollectionName));
      match schemas {
        case Failure(e) =>
          r := Failure(e);
        case Success(all) =>
          match FirstByUuid(all, schemaId) {
            case None =>
              r := Failure(NotFoundSchema(schemaId));
            case Some(i) =>
              match ParseDefinition(all[i]) {
                case Failure(e) =>
                  r := Failure(e);
                case Success(definition) =>
                  r := Success(all[i]["parsedSchema" := definition]);
              }
          }
      }
    }

    /** `getSchemaRelationships(schema)`: fills the result property by property. */
    method GetSchemaRelationships(schema: Doc) returns (r: Result<map<string, Relationship>>)
      ensures r == SchemaRelationships(schema)
    {
      match DefinitionProperties(schema) {
        case Failure(e) =>
          r := Failure(e);
        case Success(properties) =>
          var relationships: map<string, Relationship> := map[];
          var remaining := properties.Keys;
          while remaining != {}
            invariant remaining <= properties.Keys
            invariant forall key :: key in properties && key !in remaining ==> !Nullish(properties[key])
            invariant forall key :: key in properties && key !in remaining ==>
              (key in relationships <==> RelationshipOf(properties[key]).Some?)
            invariant forall key :: key in relationships ==>
              key in properties && key !in remaining && relationships[key] == RelationshipOf(properties[key]).value
            decreases remaining
          {
            var key :| key in remaining;
            var prop := properties[key];
            if Nullish(prop) {
              return Failure(ReadOfNullish("null", "type"));
            }
            if IsObjectRef(prop) {
              relationships := relationships[key := Relationship(Prop(prop, "schemaId"), false)];
            } else if IsArrayRef(prop) {
              relationships := relationships[key := Relationship(Prop(Prop(prop, "items"), "schemaId"), true)];
            }
            remaining := remaining - {key};
          }
          assert relationships == RelationshipsOf(properties);
          r := Success(relationships);
      }
    }

    /** `validateNestedData(data, schemaId)`: the structural check, then every
        reference of every present relationship field. Fields are visited in
        no particular order, so a failure is that of some failing field. */
    method ValidateNestedData(data: Doc, schemaId: Value) returns (r: Outcome)
      ensures (match Prevalidate(store.collections, structuralCheck, data, schemaId)
        case Failure(e) => r == Fail(e)
        case Success(rels) =>
          && (r.Pass? <==> ReferencesResolve(store.collections, data, rels))
          && (r.Fail? ==> exists field :: field in rels && FieldCheck(store.collections, data, field, rels[field]) == r))
    {
      var schema := GetSchemaById(schemaId);
      match schema {
        case Failure(e) =>
          r := Fail(e);
        case Success(found) =>
          var relationships := GetSchemaRelationships(found);
          match relationships {
            case Failure(e) =>
              r := Fail(e);
            case Success(rels) =>
              match structuralCheck(ValidationSchema(Field(found, "schema")), Obj(data)) {
                case Uncompilable(message) =>
                  r := Fail(Thrown(message));
                case Reject(text) =>
                  r := Fail(ValidationFailed(text));
                case Accept =>
                  r := ValidateReferences(data, rels);
              }
          }
      }
    }

    /** The outer loop of `validateNestedData`, over the relationship fields. */
    method ValidateReferences(data: Doc, rels: map<string, Relationship>) returns (r: Outcome)
      ensures r.Pass? <==> ReferencesResolve(store.collections, data, rels)
      ensures r.Fail? ==> exists field :: field in rels && FieldCheck(store.collections, data, field, rels[field]) == r
    {
      var remaining := rels.Keys;
      while remaining != {}
        invariant remaining <= rels.Keys
        invariant forall field :: field in rels && field !in remaining ==> FieldCheck(store.collections, data, field, rels[field]).Pass?
        decreases remaining
      {
        var field :| field in remaining;
        var checked := ValidateField(data, field, rels[field]);
        if checked.Fail? {
          return checked;
        }
        remaining := remaining - {field};
      }
      r := Pass;
    }

    /** One turn of the outer loop of `validateNestedData`: every item of a
        present relationship field, in order, must reference a stored record. */
    method ValidateField(data: Doc, field: string, relationship: Relationship) returns (r: Outcome)
      ensures r == FieldCheck(store.collections, data, field, relationship)
    {
      var value := Read(data, field);
      if Truthy(value) {
        var nestedData := FieldItems(value);
        var i := 0;
        while i < |nestedData|
          invariant 0 <= i <= |nestedData|
          invariant FieldCheck(store.collections, data, field, relationship) == ItemsCheck(store.collections, field, relationship, nestedData[i..])
        {
          var item := nestedData[i];
          assert nestedData[i..][1..] == nestedData[i + 1..];
          match Member(item, "uuid") {
            case Failure(e) =>
              return Fail(e);
            case Success(uuid) =>
              var referencedData := GetData(relationship.schemaId, uuid);
              match referencedData {
                case Failure(e) =>
                  return Fail(e);
                case Success(None) =>
                  return Fail(MissingReference(field, uuid));
                case Success(Some(_)) =>
              }
          }
          i := i + 1;
        }
      }
      r := Pass;
    }

    /** `getChildSchemaData(parentSchemaId, fieldName)`, with the guard
        restricted to the parent's own relationship fields. */
    method GetChildSchemaData(parentSchemaId: Value, fieldName: string) returns (r: Result<seq<Doc>>)
      ensures r == ChildSchemaData(store.collections, parentSchemaId, fieldName)
    {
      var parentSchema := GetSchemaById(parentSchemaId);
      if parentSchema.Failure? {
        return Failure(parentSchema.error);
      }
      var relationships := GetSchemaRelationships(parentSchema.value);
      if relationships.Failure? {
        return Failure(relationships.error);
      }
      if fieldName !in relationships.value {
        return Failure(NoChildSchema(fieldName));
      }
      r := GetAllData(relationships.value[fieldName].schemaId);
    }

    /** The reference-normalising loop of `createData`: each present
        relationship field becomes a stub or a list of stubs. */
    method NormalizeReferences(data: Doc, rels: map<string, Relationship>) returns (r: Result<Doc>)
      ensures Normalizes(data, rels) ==> r == Success(NormalizedData(data, rels))
      ensures !Normalizes(data, rels) ==> r.Failure? && exists field :: (field in rels && field in data &&
        Truthy(data[field]) && Normalized(data[field], rels[field]) == Failure(r.error))
    {
      var processedData := data;
      var remaining := rels.Keys;
      while remaining != {}
        invariant remaining <= rels.Keys
        invariant processedData.Keys == data.Keys
        invariant forall field :: field in rels && field !in remaining && field in data && Truthy(data[field]) ==>
          Normalized(data[field], rels[field]).Success? && processedData[field] == Normalized(data[field], rels[field]).value
        invariant forall field :: field in data && !(field in rels && field !in remaining && Truthy(data[field])) ==>
          processedData[field] == data[field]
        decreases remaining
      {
        var field :| field in remaining;
        if Truthy(Field(data, field)) {
          var normalized := Normalized(data[field], rels[field]);
          if normalized.Failure? {
            return Failure(normalized.error);
          }
          processedData := processedData[field := normalized.value];
        }
        remaining := remaining - {field};
      }
      assert processedData == NormalizedData(data, rels);
      r := Success(processedData);
    }

    /** `createData(schemaId, data)` with `uuid` and `timestamp` the fresh id
        and the time it draws: nothing is written unless every check passes,
        and then exactly the returned document, under the fresh id. */
    method CreateData(schemaId: Value, data: Doc, uuid: string, timestamp: string) returns (r: Result<Doc>)
      requires Valid() && uuid != ""
      modifies store
      ensures Valid()
      ensures Prevalidate(old(store.collections), structuralCheck, data, schemaId).Failure? ==>
        r == Failure(Prevalidate(old(store.collections), structuralCheck, data, schemaId).error)
      ensures Prevalidate(old(store.collections), structuralCheck, data, schemaId).Success? ==>
        var rels := Prevalidate(old(store.collections), structuralCheck, data, schemaId).value;
        !ReferencesResolve(old(store.collections), data, rels) ==>
          r.Failure? && exists field :: field in rels && FieldCheck(old(store.collections), data, field, rels[field]) == Fail(r.error)
      ensures r.Failure? ==> store.collections == old(store.collections)
      ensures r.Success? <==> CreatedDocument(old(store.collections), structuralCheck, schemaId, data, uuid, timestamp).Some?
      ensures r.Success? ==>
        var (name, document) := CreatedDocument(old(store.collections), structuralCheck, schemaId, data, uuid, timestamp).value;
        r.value == document && store.collections == SetIn(old(store.collections), name, uuid, document)
    {
      ghost var db := store.collections;
      CreatedDocumentSteps(db, structuralCheck, schemaId, data, uuid, timestamp);
      var schema := GetSchemaById(schemaId);
      if schema.Failure? {
        return Failure(schema.error);
      }
      var valid := ValidateNestedData(data, schemaId);
      if valid.Fail? {
        return Failure(valid.error);
      }
      var relationships := GetSchemaRelationships(schema.value);
      var rels: map<string, Relationship>;
      match relationships {
        case Failure(e) =>
          return Failure(e);
        case Success(found) =>
          rels := found;
      }
      r := StoreNormalized(schemaId, schema.value, rels, data, uuid, timestamp);
    }

    /** The end of `createData`: the reference stubs, the stamped fields, and
        the one write. */
    method StoreNormalized(schemaId: Value, schema: Doc, rels: map<string, Relationship>, data: Doc, uuid: string, timestamp: string)
      returns (r: Result<Doc>)
      requires Valid() && uuid != ""
      modifies store
      ensures Valid()
      ensures !Normalizes(data, rels) || PathOf(Field(schema, "schemaName")).None? ==>
        r.Failure? && store.collections == old(store.collections)
      ensures Normalizes(data, rels) && PathOf(Field(schema, "schemaName")).Some? ==>
        var document := NewDocument(NormalizedData(data, rels), uuid, timestamp, schemaId);
        r == Success(document) &&
        store.collections == SetIn(old(store.collections), PathOf(Field(schema, "schemaName")).value, uuid, document)
    {
      var processedData := NormalizeReferences(data, rels);
      if processedData.Failure? {
        return Failure(processedData.error);
      }
      var document := NewDocument(processedData.value, uuid, timestamp, schemaId);
      var written := store.CreateDocument(Field(schema, "schemaName"), document, Str(uuid));
      if written.Fail? {
        return Failure(written.error);
      }
      r := Success(document);
    }

    /** `getData(schemaId, uuid)`: null (None) when the collection has no such record. */
    method GetData(schemaId: Value, uuid: Value) returns (r: Result<Option<Doc>>)
      ensures r == DataById(store.collections, schemaId, uuid)
    {
      var schema := GetSchemaById(schemaId);
      if schema.Failure? {
        return Failure(schema.error);
      }
      r := store.GetDocument(Field(schema.value, "schemaName"), uuid);
    }

    /** The `reduce` of `updateData`: the input keys that are declared. */
    method FilterDeclared(data: Doc, allowedProperties: set<string>) returns (r: Doc)
      ensures r == DeclaredOnly(data, allowedProperties)
    {
      var validData: Doc := map[];
      var remaining := data.Keys;
      while remaining != {}
        invariant remaining <= data.Keys
        invariant validData.Keys == (data.Keys - remaining) * allowedProperties
        invariant forall key :: key in validData ==> validData[key] == data[key]
        decreases remaining
      {
        var key :| key in remaining;
        if key in allowedProperties {
          validData := validData[key := data[key]];
        }
        remaining := remaining - {key};
      }
      r := validData;
    }

    /** `updateData(schemaId, uuid, data)`: a merge of the declared keys only,
        with no structural or reference check. */
    method UpdateData(schemaId: Value, uuid: Value, data: Doc) returns (r: Outcome)
      requires Valid()
      modifies store
      ensures Valid()
      ensures match UpdatePatch(old(store.collections), schemaId, data)
        case Failure(e) => r == Fail(e) && store.collections == old(store.collections)
        case Success((name, patch)) =>
          match AfterUpdate(old(store.collections), name, uuid, patch)
          case Failure(e) => r == Fail(e) && store.collections == old(store.collections)
          case Success(after) => r == Pass && store.collections == after
    {
      var schema := GetSchemaById(schemaId);
      if schema.Failure? {
        return Fail(schema.error);
      }
      var schemaObj: Value;
      match ParseDefinition(schema.value) {
        case Failure(e) =>
          return Fail(e);
        case Success(definition) =>
          schemaObj := definition;
      }
      var allowedProperties := DeclaredKeys(schemaObj);
      if allowedProperties.Failure? {
        return Fail(allowedProperties.error);
      }
      var validData := FilterDeclared(data, allowedProperties.value);
      r := store.UpdateDocument(Field(schema.value, "schemaName"), uuid, validData);
    }

    /** `deleteData(schemaId, uuid)` */
    method DeleteData(schemaId: Value, uuid: Value) returns (r: Outcome)
      requires Valid()
      modifies store
      ensures Valid()
      ensures match SchemaById(old(store.collections), schemaId)
        case Failure(e) => r == Fail(e) && store.collections == old(store.collections)
        case Success(schema) =>
          match AfterDelete(old(store.collections), Field(schema, "schemaName"), uuid)
          case Failure(e) => r == Fail(e) && store.collections == old(store.collections)
          case Success(after) => r == Pass && store.collections == after
    {
      var schema := GetSchemaById(schemaId);
      if schema.Failure? {
        return Fail(schema.error);
      }
      r := store.DeleteDocument(Field(schema.value, "schemaName"), uuid);
    }

    /** `getAllData(schemaId)` */
    method GetAllData(schemaId: Value) returns (r: Result<seq<Doc>>)
      ensures r == AllData(store.collections, schemaId)
    {
      var schema := GetSchemaById(schemaId);
      if schema.Failure? {
        return Failure(schema.error);
      }
      r := store.GetAllDocuments(Field(schema.value, "schemaName"));
    }

    /** `createTableForSchema(schemaId)` at time `timestamp`. */
    method CreateTableForSchema(schemaId: Value, timestamp: string) returns (r: Outcome)
      requires Valid()
      modifies store
      ensures Valid()
      ensures (r, store.collections) == TableBootstrap(old(store.collections), schemaId, timestamp)
    {
      var schemas := store.GetAllDocuments(Str(CollectionName));
      var all: seq<Doc>;
      match schemas {
        case Failure(e) =>
          return Fail(CreateTableFailed(e));
        case Success(listed) =>
          all := listed;
      }
      var found := FirstByUuid(all, schemaId);
      if found.None? {
        return Fail(CreateTableFailed(NotFoundSchema(schemaId)));
      }
      var schema := all[found.value];
      var written := store.CreateDocument(Field(schema, "schemaName"), MetadataDoc(schema, timestamp), Str(MetadataId));
      if written.Fail? {
        return Fail(CreateTableFailed(written.error));
      }
      var updated := UpdateSchemaWithTableRef(Field(schema, "uuid"), Field(schema, "schemaName"), timestamp);
      if updated.Fail? {
        return Fail(CreateTableFailed(updated.error));
      }
      r := Pass;
    }

    /** `updateSchemaWithTableRef(schemaId, tableName)`: the PUT to the
        registry's table-reference endpoint, as a direct call. */
    method UpdateSchemaWithTableRef(schemaId: Value, tableName: Value, now: string) returns (r: Outcome)
      requires Valid()
      modifies store
      ensures Valid()
      ensures match TableRefWrite(old(store.collections), schemaId, tableName, now)
        case Failure(e) => r == Fail(e) && store.collections == old(store.collections)
        case Success(after) => r == Pass && store.collections == after
    {
      if !Truthy(schemaId) || !Truthy(tableName) {
        return Fail(RequestFailed("400"));
      }
      var response := schemaService.UpdateSchemaTableRef(schemaId, tableName, now);
      if response.Failure? {
        return Fail(RequestFailed("500"));
      }
      r := Pass;
    }

    /** `searchChildData(childSchemaId, query)` */
    method SearchChildData(childSchemaId: Value, query: string) returns (r: Result<seq<Doc>>)
      ensures AllData(store.collections, childSchemaId).Failure? ==> r == Failure(AllData(store.collections, childSchemaId).error)
      ensures AllData(store.collections, childSchemaId).Success? ==>
        r == Success(MatchingRecords(AllData(store.collections, childSchemaId).value, query))
    {
      var allData := GetAllData(childSchemaId);
      if allData.Failure? {
        return Failure(allData.error);
      }
      r := Success(MatchingRecords(allData.value, query));
    }

    /** `createTable(schemaId)` at time `now`: records `data_<id>` as the
        schema's table reference and returns it. */
    method CreateTable(schemaId: Value, now: string) returns (r: Result<string>)
      requires Valid()
      modifies store
      ensures Valid()
      ensures match ReadDocument(old(store.collections), Str(CollectionName), schemaId)
        case Failure(e) => r == Failure(e) && store.collections == old(store.collections)
        case Success(None) => r == Failure(SchemaNotFound) && store.collections == old(store.collections)
        case Success(Some(_)) =>
          match TableRefUpdated(old(store.collections), schemaId, Str(TableRefFor(schemaId)), now)
          case Failure(e) => r == Failure(e) && store.collections == old(store.collections)
          case Success(d) =>
            r == Success(TableRefFor(schemaId)) &&
            store.collections == SetIn(old(store.collections), CollectionName, PathOf(schemaId).value, d)
    {
      var schema := schemaService.GetSchema(schemaId);
      if schema.Failure? {
        return Failure(schema.error);
      }
      if schema.value.None? {
        return Failure(SchemaNotFound);
      }
      var tableRef := TableRefFor(schemaId);
      var updated := schemaService.UpdateSchemaTableRef(schemaId, Str(tableRef), now);
      if updated.Failure? {
        return Failure(updated.error);
      }
      r := Success(tableRef);
    }
  }
}
