/** What the generic data service computes, as functions of the store's
    state: the schema a request names, whether the references a record makes
    resolve, the record a create stores, the patch an update writes, the
    records a search returns, and what bootstrapping a table writes. The
    `DataService` class in `DataServiceActivity` is proved against these. */
module DataServiceRules {
  import opened Results
  import opened Json
  import opened FirebaseClientActivity
  import opened Relationships
  import SchemaServiceActivity

  // ---- schema lookup ----

  /** `docs.find(s => s.uuid === schemaId)`, as the index of the first match. */
  function FirstByUuid(docs: seq<Doc>, schemaId: Value): (r: Option<nat>)
    ensures r.Some? ==> r.value < |docs| && StrictEquals(Field(docs[r.value], "uuid"), schemaId)
    ensures r.Some? ==> forall j :: 0 <= j < r.value ==> !StrictEquals(Field(docs[j], "uuid"), schemaId)
    ensures r.None? ==> forall j :: 0 <= j < |docs| ==> !StrictEquals(Field(docs[j], "uuid"), schemaId)
    decreases |docs|
  {
    if |docs| == 0 then None
    else if StrictEquals(Field(docs[0], "uuid"), schemaId) then Some(0)
    else
      match FirstByUuid(docs[1..], schemaId)
      case None => None
      case Some(k) => Some(k + 1)
  }

  /** Appending a document behind an existing match does not change which
      schema is found. */
  lemma {:induction false} FirstByUuidAppend(docs: seq<Doc>, d: Doc, schemaId: Value)
    requires FirstByUuid(docs, schemaId).Some?
    ensures FirstByUuid(docs + [d], schemaId) == FirstByUuid(docs, schemaId)
    decreases |docs|
  {
    if !StrictEquals(Field(docs[0], "uuid"), schemaId) {
      assert (docs + [d])[1..] == docs[1..] + [d];
      FirstByUuidAppend(docs[1..], d, schemaId);
    }
  }

  function NotFoundSchema(schemaId: Value): Error
  {
    SchemaIdNotFound(ToStr(schemaId))
  }

  /** The registry as `getAllDocuments('schema')` lists it. */
  function Registry(db: Db): seq<Doc>
  {
    Listing(CollectionOf(db, SchemaServiceActivity.CollectionName))
  }

  /** The first listed registry document whose `uuid` is `schemaId`. */
  function RegistryEntry(db: Db, schemaId: Value): (r: Result<Doc>)
    ensures r.Failure? <==> forall j :: 0 <= j < |Registry(db)| ==> !StrictEquals(Field(Registry(db)[j], "uuid"), schemaId)
    ensures r.Failure? ==> r.error == NotFoundSchema(schemaId)
    ensures r.Success? ==> StrictEquals(Field(r.value, "uuid"), schemaId)
    ensures r.Success? ==> exists i :: (0 <= i < |Registry(db)| && Registry(db)[i] == r.value &&
      forall j :: 0 <= j < i ==> !StrictEquals(Field(Registry(db)[j], "uuid"), schemaId))
  {
    match FirstByUuid(Registry(db), schemaId)
    case None => Failure(NotFoundSchema(schemaId))
    case Some(i) => Success(Registry(db)[i])
  }

  /** `getSchemaById(schemaId)`: the registry entry with its definition
      parsed into `parsedSchema`. */
  function SchemaById(db: Db, schemaId: Value): Result<Doc>
  {
    match RegistryEntry(db, schemaId)
    case Failure(e) => Failure(e)
    case Success(schema) =>
      match ParseDefinition(schema)
      case Failure(e) => Failure(e)
      case Success(definition) => Success(schema["parsedSchema" := definition])
  }

  /** `getData(schemaId, uuid)`: a read in the collection named by the schema. */
  function DataById(db: Db, schemaId: Value, uuid: Value): Result<Option<Doc>>
  {
    match SchemaById(db, schemaId)
    case Failure(e) => Failure(e)
    case Success(schema) => ReadDocument(db, Field(schema, "schemaName"), uuid)
  }

  /** `getAllData(schemaId)` */
  function AllData(db: Db, schemaId: Value): Result<seq<Doc>>
  {
    match SchemaById(db, schemaId)
    case Failure(e) => Failure(e)
    case Success(schema) => ReadAll(db, Field(schema, "schemaName"))
  }

  /** A record of a data collection is listed with its document id. */
  lemma AllDataListsCollection(db: Db, schemaId: Value)
    requires AllData(db, schemaId).Success?
    ensures SchemaById(db, schemaId).Success?
    ensures PathOf(Field(SchemaById(db, schemaId).value, "schemaName")).Some?
    ensures var c := CollectionOf(db, PathOf(Field(SchemaById(db, schemaId).value, "schemaName")).value);
      var all := AllData(db, schemaId).value;
      |all| == |c| && forall i :: 0 <= i < |c| ==> "id" in all[i] && c[i].1.Keys <= all[i].Keys
  {
    var c := CollectionOf(db, PathOf(Field(SchemaById(db, schemaId).value, "schemaName")).value);
    forall i | 0 <= i < |c|
      ensures "id" in Listing(c)[i] && c[i].1.Keys <= Listing(c)[i].Keys
    {
      ListingTagsIds(c, i);
    }
  }

  // ---- referential integrity ----

  /** `Array.isArray(v) ? v : [v]` */
  function FieldItems(v: Value): seq<Value>
  {
    if v.Arr? then v.elems else [v]
  }

  function MissingReference(field: string, uuid: Value): Error
  {
    ReferenceNotFound(field, ToStr(uuid))
  }

  /** One turn of the inner loop: `item.uuid` must name a record of the
      referenced schema's collection. */
  function ReferenceCheck(db: Db, field: string, rel: Relationship, item: Value): Outcome
  {
    match Member(item, "uuid")
    case Failure(e) => Fail(e)
    case Success(uuid) =>
      match DataById(db, rel.schemaId, uuid)
      case Failure(e) => Fail(e)
      case Success(None) => Fail(MissingReference(field, uuid))
      case Success(Some(_)) => Pass
  }

  /** The items of one field in order, stopping at the first that fails. */
  function ItemsCheck(db: Db, field: string, rel: Relationship, items: seq<Value>): Outcome
    decreases |items|
  {
    if |items| == 0 then Pass
    else
      match ReferenceCheck(db, field, rel, items[0])
      case Fail(e) => Fail(e)
      case Pass => ItemsCheck(db, field, rel, items[1..])
  }

  /** A relationship field is checked only when its value is truthy. */
  function FieldCheck(db: Db, data: Doc, field: string, rel: Relationship): Outcome
  {
    var v := Read(data, field);
    if Truthy(v) then ItemsCheck(db, field, rel, FieldItems(v)) else Pass
  }

  predicate ReferencesResolve(db: Db, data: Doc, rels: map<string, Relationship>)
  {
    forall field :: field in rels ==> FieldCheck(db, data, field, rels[field]).Pass?
  }

  /** A relationship field the request leaves out, but whose name every
      object inherits (`toString`, `constructor`, ...), reads as that
      inherited member: truthy and without a `uuid`, so its check looks up
      document `undefined`, which Firestore refuses (or the referenced
      schema is not found first). */
  lemma InheritedRelationshipFieldFails(db: Db, data: Doc, field: string, rel: Relationship)
    requires field !in data && field in InheritedMembers
    ensures DataById(db, rel.schemaId, Undefined).Failure?
    ensures FieldCheck(db, data, field, rel) == Fail(DataById(db, rel.schemaId, Undefined).error)
  {
    var v := Read(data, field);
    assert FieldItems(v) == [v];
    assert ItemsCheck(db, field, rel, [v]) == ReferenceCheck(db, field, rel, v);
  }

  /** Once every reference resolves, every relationship field that reads
      truthy is an own field of the request. */
  lemma ResolvedFieldsAreOwn(db: Db, data: Doc, rels: map<string, Relationship>)
    requires ReferencesResolve(db, data, rels)
    ensures forall field :: field in rels && Truthy(Read(data, field)) ==> field in data
  {
    forall field | field in rels && Truthy(Read(data, field)) ensures field in data {
      if field !in data {
        InheritedRelationshipFieldFails(db, data, field, rels[field]);
      }
    }
  }

  /** A reference resolves exactly when the item is an object or value with a
      `uuid` that is a valid document id, the referenced schema is registered
      and names a valid collection, and that collection holds the id. */
  lemma ReferenceCheckMeaning(db: Db, field: string, rel: Relationship, item: Value)
    ensures ReferenceCheck(db, field, rel, item).Pass? <==>
      && !Nullish(item)
      && SchemaById(db, rel.schemaId).Success?
      && PathOf(Field(SchemaById(db, rel.schemaId).value, "schemaName")).Some?
      && PathOf(Prop(item, "uuid")).Some?
      && PathOf(Prop(item, "uuid")).value in
           Ids(CollectionOf(db, PathOf(Field(SchemaById(db, rel.schemaId).value, "schemaName")).value))
  {
    if !Nullish(item) && SchemaById(db, rel.schemaId).Success?
      && PathOf(Field(SchemaById(db, rel.schemaId).value, "schemaName")).Some?
      && PathOf(Prop(item, "uuid")).Some?
    {
      LookupFindsIds(CollectionOf(db, PathOf(Field(SchemaById(db, rel.schemaId).value, "schemaName")).value),
        PathOf(Prop(item, "uuid")).value);
    }
  }

  /** The items of a field pass exactly when each one does; a failure is
      that of the first item that fails. */
  lemma {:induction false} ItemsCheckMeaning(db: Db, field: string, rel: Relationship, items: seq<Value>)
    ensures ItemsCheck(db, field, rel, items).Pass? <==>
      forall j :: 0 <= j < |items| ==> ReferenceCheck(db, field, rel, items[j]).Pass?
    ensures ItemsCheck(db, field, rel, items).Fail? ==> exists j :: (0 <= j < |items| &&
      ReferenceCheck(db, field, rel, items[j]) == ItemsCheck(db, field, rel, items) &&
      forall k :: 0 <= k < j ==> ReferenceCheck(db, field, rel, items[k]).Pass?)
    decreases |items|
  {
    if |items| > 0 {
      ItemsCheckMeaning(db, field, rel, items[1..]);
      if ReferenceCheck(db, field, rel, items[0]).Pass? {
        assert forall j :: 1 <= j < |items| ==> items[j] == items[1..][j - 1];
        if ItemsCheck(db, field, rel, items).Fail? {
          var j :| 0 <= j < |items[1..]| &&
            ReferenceCheck(db, field, rel, items[1..][j]) == ItemsCheck(db, field, rel, items[1..]) &&
            forall k :: 0 <= k < j ==> ReferenceCheck(db, field, rel, items[1..][k]).Pass?;
          assert ReferenceCheck(db, field, rel, items[j + 1]) == ItemsCheck(db, field, rel, items);
        }
      }
    }
  }

  // ---- structural validation ----

  /** What Ajv reports for one call of the compiled validator. */
  datatype Verdict =
    | Accept
    | Reject(errorsText: string)      // `validate(data)` is false; `ajv.errorsText(validate.errors)`
    | Uncompilable(message: string)   // `ajv.compile` throws on the schema

  /** Ajv: the verdict on `data` under a validation schema. */
  type StructuralCheck = (Value, Value) -> Verdict

  /** The validation schema built from a definition: its properties and
      required list, with undeclared fields always refused. */
  function ValidationSchema(definition: Value): (r: Value)
    ensures Prop(r, "type") == Str("object")
    ensures Prop(r, "properties") == Prop(definition, "properties")
    ensures Prop(r, "additionalProperties") == Bool(false)
    ensures Prop(r, "required") == if Truthy(Prop(definition, "required")) then Prop(definition, "required") else Arr([])
  {
    Obj(map[
      "type" := Str("object"),
      "properties" := Prop(definition, "properties"),
      "required" := Or(Prop(definition, "required"), Arr([])),
      "additionalProperties" := Bool(false)])
  }

  /** `validateNestedData` up to its reference loop: the relationships to
      check, once the schema is found and the structural check accepts. */
  function Prevalidate(db: Db, check: StructuralCheck, data: Doc, schemaId: Value): Result<map<string, Relationship>>
  {
    match SchemaById(db, schemaId)
    case Failure(e) => Failure(e)
    case Success(schema) =>
      match SchemaRelationships(schema)
      case Failure(e) => Failure(e)
      case Success(rels) =>
        match check(ValidationSchema(Field(schema, "schema")), Obj(data))
        case Uncompilable(message) => Failure(Thrown(message))
        case Reject(text) => Failure(ValidationFailed(text))
        case Accept => Success(rels)
  }

  // ---- the record a create stores ----

  /** `{ uuid, _ref: true }` */
  function Stub(uuid: Value): Value
  {
    Obj(map["uuid" := uuid, "_ref" := Bool(true)])
  }

  /** The TypeError of `data[field].map` on a value that is not an array. */
  const NotMappable: Error := NotAFunction("data[field].map")

  /** The replacement for one present relationship field. */
  function Normalized(v: Value, rel: Relationship): Result<Value>
  {
    if !rel.isArray then Success(Stub(Prop(v, "uuid")))
    else if !v.Arr? then Failure(NotMappable)
    else if exists i :: 0 <= i < |v.elems| && Nullish(v.elems[i]) then Failure(ReadOfNullish("null", "uuid"))
    else Success(Arr(seq(|v.elems|, i requires 0 <= i < |v.elems| => Stub(Prop(v.elems[i], "uuid")))))
  }

  predicate Normalizes(data: Doc, rels: map<string, Relationship>)
  {
    forall field :: field in rels && field in data && Truthy(data[field]) ==> Normalized(data[field], rels[field]).Success?
  }

  /** `processedData` after the loop: each present relationship field
      replaced, everything else copied. */
  function NormalizedData(data: Doc, rels: map<string, Relationship>): Doc
    requires Normalizes(data, rels)
  {
    map field | field in data ::
      if field in rels && Truthy(data[field]) then Normalized(data[field], rels[field]).value else data[field]
  }

  /** The fields `createData` stamps over the processed record. */
  const Stamped: set<string> := {"uuid", "createdAt", "lastUpdatedAt", "_schemaId"}

  function NewDocument(processed: Doc, uuid: string, timestamp: string, schemaId: Value): Doc
  {
    processed + map[
      "uuid" := Str(uuid),
      "createdAt" := Str(timestamp),
      "lastUpdatedAt" := Str(timestamp),
      "_schemaId" := schemaId]
  }

  /** The collection and document `createData` writes, or None when it
      throws instead. */
  function CreatedDocument(db: Db, check: StructuralCheck, schemaId: Value, data: Doc, uuid: string, timestamp: string): Option<(string, Doc)>
  {
    match Prevalidate(db, check, data, schemaId)
    case Failure(_) => None
    case Success(rels) =>
      if !ReferencesResolve(db, data, rels) || !Normalizes(data, rels) then None
      else
        var name := Field(SchemaById(db, schemaId).value, "schemaName");
        if PathOf(name).None? || uuid == "" then None
        else Some((PathOf(name).value, NewDocument(NormalizedData(data, rels), uuid, timestamp, schemaId)))
  }

  /** How `CreatedDocument` decides, step by step. */
  lemma CreatedDocumentSteps(db: Db, check: StructuralCheck, schemaId: Value, data: Doc, uuid: string, timestamp: string)
    ensures Prevalidate(db, check, data, schemaId).Failure? ==>
      CreatedDocument(db, check, schemaId, data, uuid, timestamp).None?
    ensures Prevalidate(db, check, data, schemaId).Success? ==>
      && SchemaById(db, schemaId).Success?
      && SchemaRelationships(SchemaById(db, schemaId).value) == Prevalidate(db, check, data, schemaId)
    ensures Prevalidate(db, check, data, schemaId).Success? ==>
      var rels := Prevalidate(db, check, data, schemaId).value;
      var name := Field(SchemaById(db, schemaId).value, "schemaName");
      CreatedDocument(db, check, schemaId, data, uuid, timestamp) ==
        if !ReferencesResolve(db, data, rels) || !Normalizes(data, rels) || PathOf(name).None? || uuid == "" then None
        else Some((PathOf(name).value, NewDocument(NormalizedData(data, rels), uuid, timestamp, schemaId)))
  {
  }

  /** The stored record: fresh id, equal creation and update times, the
      schema it belongs to, reference stubs in place of present relationship
      fields (an array keeps its length and order), and every other field as
      given; absent relationship fields stay absent. */
  lemma CreatedDocumentShape(data: Doc, rels: map<string, Relationship>, uuid: string, timestamp: string, schemaId: Value)
    requires Normalizes(data, rels)
    ensures var d := NewDocument(NormalizedData(data, rels), uuid, timestamp, schemaId);
      && d.Keys == data.Keys + Stamped
      && d["uuid"] == Str(uuid)
      && d["createdAt"] == Str(timestamp)
      && d["lastUpdatedAt"] == d["createdAt"]
      && d["_schemaId"] == schemaId
      && (forall f :: f in data && f !in Stamped && (f !in rels || !Truthy(data[f])) ==> d[f] == data[f])
      && (forall f :: f in data && f !in Stamped && f in rels && Truthy(data[f]) && !rels[f].isArray ==>
            d[f] == Stub(Prop(data[f], "uuid")))
      && (forall f :: f in data && f !in Stamped && f in rels && Truthy(data[f]) && rels[f].isArray ==>
            data[f].Arr? && d[f].Arr? && |d[f].elems| == |data[f].elems| &&
            forall i :: 0 <= i < |data[f].elems| ==> d[f].elems[i] == Stub(Prop(data[f].elems[i], "uuid")))
  {
    var p := NormalizedData(data, rels);
    var d := NewDocument(p, uuid, timestamp, schemaId);
    forall f | f in data && f !in Stamped && f in rels && Truthy(data[f]) && rels[f].isArray
      ensures data[f].Arr? && d[f].Arr? && |d[f].elems| == |data[f].elems|
      ensures forall i :: 0 <= i < |data[f].elems| ==> d[f].elems[i] == Stub(Prop(data[f].elems[i], "uuid"))
    {
      assert d[f] == p[f] == Normalized(data[f], rels[f]).value;
    }
  }

  /** A schema without relationships stores the record as given. */
  lemma NoRelationshipsKeepsData(data: Doc)
    ensures Normalizes(data, map[])
    ensures NormalizedData(data, map[]) == data
  {
  }

  /** A created record can be read back under its fresh id, including when
      the schema's collection is the registry itself. */
  lemma CreateThenGet(db: Db, check: StructuralCheck, schemaId: Value, data: Doc, uuid: string, timestamp: string)
    requires CreatedDocument(db, check, schemaId, data, uuid, timestamp).Some?
    requires uuid !in Ids(CollectionOf(db, CreatedDocument(db, check, schemaId, data, uuid, timestamp).value.0))
    ensures var (name, d) := CreatedDocument(db, check, schemaId, data, uuid, timestamp).value;
      DataById(SetIn(db, name, uuid, d), schemaId, Str(uuid)) == Success(Some(d))
  {
    var (name, d) := CreatedDocument(db, check, schemaId, data, uuid, timestamp).value;
    var after := SetIn(db, name, uuid, d);
    var c := CollectionOf(db, name);
    LookupFindsIds(c, uuid);
    if name == SchemaServiceActivity.CollectionName {
      PutFreshAppends(c, uuid, d);
      ListingAppend(c, uuid, d);
      FirstByUuidAppend(Registry(db), Tagged(uuid, d), schemaId);
      assert Registry(after) == Registry(db) + [Tagged(uuid, d)];
      assert (Registry(db) + [Tagged(uuid, d)])[FirstByUuid(Registry(db), schemaId).value]
        == Registry(db)[FirstByUuid(Registry(db), schemaId).value];
    }
    assert SchemaById(after, schemaId) == SchemaById(db, schemaId);
    LookupPut(c, uuid, d, uuid);
  }

  // ---- the patch an update writes ----

  /** `Object.keys(schemaObj.properties || {})`: an object's own keys, the
      index names of an array or a non-empty string, and none otherwise. */
  function DeclaredKeys(definition: Value): (r: Result<set<string>>)
    ensures r.Failure? <==> Nullish(definition)
    ensures r.Success? && Prop(definition, "properties").Obj? ==> r.value == Prop(definition, "properties").fields.Keys
    ensures r.Success? && Prop(definition, "properties").Arr? ==> r.value == IndexKeys(|Prop(definition, "properties").elems|)
    ensures r.Success? && Prop(definition, "properties").Str? ==> r.value == IndexKeys(|Prop(definition, "properties").s|)
    ensures r.Success? && !(Prop(definition, "properties").Obj? || Prop(definition, "properties").Arr? || Prop(definition, "properties").Str?)
      ==> r.value == {}
  {
    match Member(definition, "properties")
    case Failure(e) => Failure(e)
    case Success(properties) => Success(OwnEntries(Or(properties, Obj(map[]))).Keys)
  }

  /** A string `properties` declares its index names. */
  lemma StringPropertiesDeclareIndices()
    ensures DeclaredKeys(Obj(map["properties" := Str("ab")])) == Success({"0", "1"})
  {
    IndexKeysOfTwo();
  }

  /** `data` restricted to the declared keys. */
  function DeclaredOnly(data: Doc, allowed: set<string>): (r: Doc)
    ensures r.Keys == data.Keys * allowed
    ensures forall k :: k in r ==> r[k] == data[k]
  {
    map k | k in data && k in allowed :: data[k]
  }

  /** The collection (as named by the schema) and the patch `updateData` writes. */
  function UpdatePatch(db: Db, schemaId: Value, data: Doc): Result<(Value, Doc)>
  {
    match SchemaById(db, schemaId)
    case Failure(e) => Failure(e)
    case Success(schema) =>
      match ParseDefinition(schema)
      case Failure(e) => Failure(e)
      case Success(definition) =>
        match DeclaredKeys(definition)
        case Failure(e) => Failure(e)
        case Success(allowed) => Success((Field(schema, "schemaName"), DeclaredOnly(data, allowed)))
  }

  /** After `updateData` the record holds every declared field of the input
      and keeps every other field it had: undeclared input keys are dropped
      without an error. */
  lemma UpdateDataEffect(db: Db, schemaId: Value, uuid: Value, data: Doc)
    requires UpdatePatch(db, schemaId, data).Success?
    requires AfterUpdate(db, UpdatePatch(db, schemaId, data).value.0, uuid, UpdatePatch(db, schemaId, data).value.1).Success?
    ensures var (name, patch) := UpdatePatch(db, schemaId, data).value;
      PathOf(name).Some? && PathOf(uuid).Some? &&
      var c, id := PathOf(name).value, PathOf(uuid).value;
      var after := AfterUpdate(db, name, uuid, patch).value;
      Lookup(CollectionOf(db, c), id).Some? && Lookup(CollectionOf(after, c), id).Some? &&
      var before, now := Lookup(CollectionOf(db, c), id).value, Lookup(CollectionOf(after, c), id).value;
      && now.Keys == before.Keys + patch.Keys
      && patch.Keys <= data.Keys
      && (forall k :: k in patch ==> now[k] == data[k])
      && (forall k :: k in before && k !in patch ==> now[k] == before[k])
  {
    var (name, patch) := UpdatePatch(db, schemaId, data).value;
    UpdateMerges(db, PathOf(name).value, PathOf(uuid).value, patch, PathOf(uuid).value);
  }

  /** Keys the definition does not declare never reach the store. */
  lemma UndeclaredKeysDropped()
    ensures DeclaredKeys(Obj(map["properties" := Obj(map["a" := Obj(map[]), "b" := Obj(map[])])])) == Success({"a", "b"})
    ensures DeclaredOnly(map["a" := Num(1), "z" := Num(9)], {"a", "b"}) == map["a" := Num(1)]
  {
    var r := DeclaredOnly(map["a" := Num(1), "z" := Num(9)], {"a", "b"});
    assert r.Keys == {"a"};
    assert map["a" := Obj(map[]), "b" := Obj(map[])].Keys == {"a", "b"};
  }

  // ---- child data ----


  /** `relationships[fieldName]` and then `.schemaId`, as written: an
      inherited member passes the truthiness guard and has no `schemaId`. */
  function ChildSchemaIdAsWritten(rels: map<string, Relationship>, fieldName: string): Option<Value>
  {
    if fieldName in rels then Some(rels[fieldName].schemaId)
    else if fieldName in InheritedMembers then Some(Undefined)
    else None
  }

  /** `getChildSchemaData(parentSchemaId, fieldName)` as written. */
  function ChildSchemaDataAsWritten(db: Db, parentSchemaId: Value, fieldName: string): Result<seq<Doc>>
  {
    match SchemaById(db, parentSchemaId)
    case Failure(e) => Failure(e)
    case Success(parent) =>
      match SchemaRelationships(parent)
      case Failure(e) => Failure(e)
      case Success(rels) =>
        match ChildSchemaIdAsWritten(rels, fieldName)
        case None => Failure(NoChildSchema(fieldName))
        case Some(childSchemaId) => AllData(db, childSchemaId)
  }

  /** `getChildSchemaData` with the guard it evidently intends: only the
      parent's own relationship fields lead to a child schema. */
  function ChildSchemaData(db: Db, parentSchemaId: Value, fieldName: string): Result<seq<Doc>>
  {
    match SchemaById(db, parentSchemaId)
    case Failure(e) => Failure(e)
    case Success(parent) =>
      match SchemaRelationships(parent)
      case Failure(e) => Failure(e)
      case Success(rels) =>
        if fieldName in rels then AllData(db, rels[fieldName].schemaId)
        else Failure(NoChildSchema(fieldName))
  }

  /** The intended lookup fails with "No child schema found" exactly for a
      field that is not a relationship of the parent, and otherwise lists the
      whole collection of the referenced schema. */
  lemma ChildSchemaDataMeaning(db: Db, parentSchemaId: Value, fieldName: string)
    requires SchemaById(db, parentSchemaId).Success?
    requires SchemaRelationships(SchemaById(db, parentSchemaId).value).Success?
    ensures var rels := SchemaRelationships(SchemaById(db, parentSchemaId).value).value;
      && (fieldName !in rels ==> ChildSchemaData(db, parentSchemaId, fieldName) == Failure(NoChildSchema(fieldName)))
      && (fieldName in rels ==> ChildSchemaData(db, parentSchemaId, fieldName) == AllData(db, rels[fieldName].schemaId))
  {
  }

  /** As written, a parent with no field `constructor` does not report the
      missing child schema: when every registered schema has a `uuid`, the
      request fails looking for a schema with id `undefined` instead. */
  lemma InheritedFieldNamePassesGuard(db: Db, parentSchemaId: Value)
    requires SchemaById(db, parentSchemaId).Success?
    requires SchemaRelationships(SchemaById(db, parentSchemaId).value).Success?
    requires "constructor" !in SchemaRelationships(SchemaById(db, parentSchemaId).value).value
    requires forall j :: 0 <= j < |Registry(db)| ==> Field(Registry(db)[j], "uuid").Str?
    ensures ChildSchemaData(db, parentSchemaId, "constructor") == Failure(NoChildSchema("constructor"))
    ensures ChildSchemaDataAsWritten(db, parentSchemaId, "constructor") == Failure(SchemaIdNotFound("undefined"))
  {
    var rels := SchemaRelationships(SchemaById(db, parentSchemaId).value).value;
    assert "constructor" in InheritedMembers;
    assert ChildSchemaIdAsWritten(rels, "constructor") == Some(Undefined);
    assert RegistryEntry(db, Undefined).Failure?;
    assert ToStr(Undefined) == "undefined";
    assert AllData(db, Undefined) == Failure(SchemaIdNotFound("undefined"));
  }

  // ---- search ----

  /** `Object.values(item).some(value => String(value).toLowerCase().includes(query.toLowerCase()))` */
  predicate Matches(item: Doc, query: string)
  {
    exists key :: key in item && Includes(Lower(ToStr(item[key])), Lower(query))
  }

  /** `allData.filter(item => Matches(item, query))` */
  function MatchingRecords(docs: seq<Doc>, query: string): seq<Doc>
    decreases |docs|
  {
    if |docs| == 0 then []
    else (if Matches(docs[0], query) then [docs[0]] else []) + MatchingRecords(docs[1..], query)
  }

  /** `a` is `b` with some elements left out, the rest in their order. */
  predicate IsSubsequence(a: seq<Doc>, b: seq<Doc>)
    decreases |b|
  {
    if |b| == 0 then |a| == 0
    else (|a| > 0 && a[0] == b[0] && IsSubsequence(a[1..], b[1..])) || IsSubsequence(a, b[1..])
  }

  /** The search keeps exactly the matching records, each as often as it is
      stored, in their original order. */
  lemma {:induction false} MatchingRecordsMeaning(docs: seq<Doc>, query: string)
    ensures forall d :: d in MatchingRecords(docs, query) <==> d in docs && Matches(d, query)
    ensures forall d :: multiset(MatchingRecords(docs, query))[d] == if Matches(d, query) then multiset(docs)[d] else 0
    ensures IsSubsequence(MatchingRecords(docs, query), docs)
    decreases |docs|
  {
    if |docs| > 0 {
      MatchingRecordsMeaning(docs[1..], query);
      var rest := MatchingRecords(docs[1..], query);
      assert forall d :: d in docs <==> d == docs[0] || d in docs[1..];
      assert docs == [docs[0]] + docs[1..];
      assert multiset(docs) == multiset{docs[0]} + multiset(docs[1..]);
      if Matches(docs[0], query) {
        assert MatchingRecords(docs, query) == [docs[0]] + rest;
        assert MatchingRecords(docs, query)[1..] == rest;
      } else {
        assert MatchingRecords(docs, query) == rest;
      }
    }
  }

  /** A record holding a nested object (a reference stub, say) matches the
      query "Object" whatever it holds, since such a value prints as
      "[object Object]". */
  lemma NestedObjectMatchesObjectQuery(item: Doc, key: string)
    requires key in item && item[key].Obj?
    ensures Matches(item, "Object")
  {
    var printed := Lower(ToStr(item[key]));
    assert printed == "[object object]";
    assert Lower("Object") == "object";
    assert printed[1..7] == "object";
    IncludesAt(printed, "object", 1);
  }

  // ---- table bootstrap ----

  const MetadataId: string := "_metadata"

  /** The sentinel document a new table starts with. */
  function MetadataDoc(schema: Doc, timestamp: string): Doc
  {
    map[MetadataId := Obj(map[
      "schemaId" := Field(schema, "uuid"),
      "schemaName" := Field(schema, "schemaName"),
      "createdAt" := Str(timestamp),
      "lastUpdatedAt" := Str(timestamp),
      "isInitialized" := Bool(true)])]
  }

  /** What `updateSchemaWithTableRef` sees of the `updateSchemaTableRef` HTTP
      endpoint: a 400 for a falsy id or table, a 500 for any failure of the
      registry update, and the updated schema otherwise. */
  function TableRefWrite(db: Db, uuid: Value, tableRef: Value, now: string): Result<Db>
  {
    if !Truthy(uuid) || !Truthy(tableRef) then Failure(RequestFailed("400"))
    else
      match SchemaServiceActivity.TableRefUpdated(db, uuid, tableRef, now)
      case Failure(_) => Failure(RequestFailed("500"))
      case Success(d) => Success(SetIn(db, SchemaServiceActivity.CollectionName, PathOf(uuid).value, d))
  }

  /** `createTableForSchema(schemaId)`: its outcome, and the store after it.
      A failed table reference leaves the sentinel written. */
  function TableBootstrap(db: Db, schemaId: Value, timestamp: string): (Outcome, Db)
  {
    match RegistryEntry(db, schemaId)
    case Failure(e) => (Fail(CreateTableFailed(e)), db)
    case Success(schema) =>
      match AfterCreate(db, Field(schema, "schemaName"), Str(MetadataId), MetadataDoc(schema, timestamp))
      case Failure(e) => (Fail(CreateTableFailed(e)), db)
      case Success(seeded) =>
        match TableRefWrite(seeded, Field(schema, "uuid"), Field(schema, "schemaName"), timestamp)
        case Failure(e) => (Fail(CreateTableFailed(e)), seeded)
        case Success(after) => (Pass, after)
  }

  /** After a bootstrap the registry entry of the schema points at its data
      collection and is marked initialized, and that collection holds the
      sentinel (unless the sentinel itself was the registry entry). */
  lemma TableBootstrapEffect(db: Db, schemaId: Value, timestamp: string)
    requires TableBootstrap(db, schemaId, timestamp).0.Pass?
    ensures RegistryEntry(db, schemaId).Success?
    ensures var schema := RegistryEntry(db, schemaId).value;
      PathOf(Field(schema, "schemaName")).Some? && PathOf(Field(schema, "uuid")).Some? &&
      var name, id := PathOf(Field(schema, "schemaName")).value, PathOf(Field(schema, "uuid")).value;
      var after := TableBootstrap(db, schemaId, timestamp).1;
      && StrictEquals(Field(schema, "uuid"), schemaId)
      && Lookup(CollectionOf(after, SchemaServiceActivity.CollectionName), id).Some?
      && var entry := Lookup(CollectionOf(after, SchemaServiceActivity.CollectionName), id).value;
      && "tableRef" in entry && entry["tableRef"] == Str(name)
      && "isTableInitialized" in entry && entry["isTableInitialized"] == Bool(true)
      && (name != SchemaServiceActivity.CollectionName || id != MetadataId ==>
            Lookup(CollectionOf(after, name), MetadataId) == Some(MetadataDoc(schema, timestamp)))
  {
    var schema := RegistryEntry(db, schemaId).value;
    var name, id := PathOf(Field(schema, "schemaName")).value, PathOf(Field(schema, "uuid")).value;
    var seeded := SetIn(db, name, MetadataId, MetadataDoc(schema, timestamp));
    var d := SchemaServiceActivity.TableRefUpdated(seeded, Field(schema, "uuid"), Field(schema, "schemaName"), timestamp).value;
    var reg := SchemaServiceActivity.CollectionName;
    LookupPut(CollectionOf(seeded, reg), id, d, id);
    LookupPut(CollectionOf(db, name), MetadataId, MetadataDoc(schema, timestamp), MetadataId);
    if name != reg {
      assert CollectionOf(TableBootstrap(db, schemaId, timestamp).1, name) == CollectionOf(seeded, name);
    } else if id != MetadataId {
      LookupPut(CollectionOf(seeded, reg), id, d, MetadataId);
    }
  }

  /** `data_${schemaId}`: the reference `createTable` records. */
  function TableRefFor(schemaId: Value): string
  {
    "data_" + ToStr(schemaId)
  }
}
