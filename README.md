# Schema registry, data service and API-execution builder, in Dafny

This project models the back end of a schema-driven data service kept in Firestore.

- **Schema registry** (`SchemaService`). The `schema` collection holds JSON-schema definitions. Each has a `uuid`, a `schemaName` and a `schema` definition. The registry creates, reads, updates, deletes and lists them, and records which table backs a schema.
- **Data service** (`DataService`). It stores records of any registered schema in the collection named by the schema's `schemaName`. Before storing a record it checks it in two ways:
  - a structural check, standing in for Ajv;
  - every reference the record makes (a property of type `object` with a `schemaId`, or an `array` whose `items` carry one) must name an existing record of the referenced schema.

  References are stored as `{uuid, _ref: true}` stubs. Updates keep only the properties the definition declares. The service also lists the records behind a relationship field, searches records by a case-insensitive substring, and bootstraps a table: a `_metadata` sentinel document plus a table reference in the registry.
- **Document store** (`firebaseClientActivity`). A thin wrapper over Firestore, modelled as an in-memory store of named collections.
- **API-execution builder** (`ApiExecutionBuilder`). It records one outgoing API call:
  - it starts in status `Started`;
  - the request details are filled in with defaults;
  - the call then ends `Completed`, with the response details, or `Failed`;
  - `build` returns a plain copy with `undefined` replaced by `null`.

## Layout

| file | module | what it holds |
|---|---|---|
| `results.dfy` | `Results` | `Option`, and `Result`/`Outcome` for operations that can throw. `Error` names every error the core throws. `Message` renders each one as the text JavaScript would show. |
| `json.dfy` | `Json` | JavaScript values. Property reads (`v?.k` and the throwing `v.k`), truthiness, `\|\|`, `===`, `String(v)`, `toLowerCase`, `includes`. |
| `firebase_client.dfy` | `FirebaseClientActivity` | The store as functions on its state, their lemmas, and the `DocumentStore` class with one method per wrapper operation. |
| `relationships.dfy` | `Relationships` | `getSchemaRelationships` as a function, with its characterisation. |
| `schema_service.dfy` | `SchemaServiceActivity` | The registry's rules, and the `SchemaService` class. |
| `data_rules.dfy` | `DataServiceRules` | What the data service computes, as functions of the store's state, and the lemmas about them. |
| `data_service.dfy` | `DataServiceActivity` | The `DataService` class, with each method proved against those functions. |
| `api_execution_builder.dfy` | `ApiExecution` | The execution record, its steps as functions, their lemmas, and the `ApiExecutionBuilder` class. |

The store state is a map from collection name to a sequence of `(id, document)` pairs with distinct ids. `set` replaces a document in place or appends it. `update` merges into an existing document and fails with `NOT_FOUND` when there is none. `delete` removes a document. A listing tags each document with its `id`.

Firestore accepts a path only if it is a non-empty string. Otherwise it throws `Value for argument "collectionPath"` (or `"documentPath"`) `is not a valid resource path`.

Collaborators that are not part of this model are parameters of the classes:
- Ajv becomes `structuralCheck`, which accepts, rejects with an error text, or fails to compile.
- SchemaBuilder becomes `validateSchema` and `buildSchema`.
- `JSON.stringify` becomes `stringify`.
- Fresh ids and clock readings are passed in as method arguments.

## Model

| member | source | states |
|---|---|---|
| Results.WrappedMessages | acbda/activities/DataManagmentService/schemaServiceActivity.js:60-63 | The create-schema, update-schema and create-table wrappers put "Failed to create schema: ", "Failed to update schema: " or "Failed to create table: " in front of the cause's message. |
| Json.Lower | acbda/activities/DataManagmentService/dataServiceActivity.js:260 | Lowering maps each ASCII capital to its small letter and keeps every other character, so the length is kept and no ASCII capital is left. |
| Json.IncludesAt | acbda/activities/DataManagmentService/dataServiceActivity.js:260 | `s.includes(q)` holds when `q` occurs at some offset of `s`. |
| Json.IncludesHasOffset | acbda/activities/DataManagmentService/dataServiceActivity.js:260 | If `s.includes(q)` holds, there is an offset where `q` occurs. With IncludesAt this gives both directions. |
| Json.Read | acbda/activities/DataManagmentService/dataServiceActivity.js:79-80 | `data[field]` gives an own field's value. The name of a member every plain object inherits (`constructor`, `toString`, …) gives a truthy non-array value whose `uuid` reads as `undefined`. Any other name gives `undefined`. |
| Json.OwnEntries | acbda/activities/DataManagmentService/dataServiceActivity.js:45 | `Object.entries` of an object gives its fields. Of an array, it gives one entry per element, keyed `"0"`, `"1"`, …. Of a string, it gives one entry per character, holding that character. Of `undefined`, null, a boolean or a number, it gives nothing. |
| Json.IndexEntries | acbda/activities/DataManagmentService/dataServiceActivity.js:45 | The entries of a list are keyed exactly by the names of its indices, and each index holds its element. |
| Json.NatToStringInjective | acbda/activities/DataManagmentService/dataServiceActivity.js:45 | Distinct indices have distinct names, so no entry of an array or string hides another. |
| Relationships.RelationshipsCharacterized | acbda/activities/DataManagmentService/dataServiceActivity.js:41-54 | A property is a relationship exactly when it is an `object` with a truthy `schemaId`, or an `array` whose `items` has one. The `schemaId` is copied and `isArray` is set accordingly. No other key appears. |
| Relationships.ResolverExample | acbda/activities/DataManagmentService/dataServiceActivity.js:45-51 | On a plain object property, an object reference and an array reference, the resolver yields exactly the two references. |
| Relationships.ArrayPropertiesByIndex | acbda/activities/DataManagmentService/dataServiceActivity.js:43-51 | When `properties` is an array, its elements are read as properties keyed by index: an object reference at index 0 becomes the relationship `"0"`. A null element throws `Cannot read properties of null (reading 'type')`. |
| FirebaseClientActivity.Listing | acbda/activities/DataManagmentService/firebaseClientActivity.js:51-62 | A listing has one document per stored document. Its contents are given by ListingTagsIds and ListingAppend. |
| FirebaseClientActivity.LookupPut | acbda/activities/DataManagmentService/firebaseClientActivity.js:14-21 | After `set`, reading that id gives the new document. Every other id reads as before. |
| FirebaseClientActivity.LookupRemove | acbda/activities/DataManagmentService/firebaseClientActivity.js:42-49 | After `delete`, that id reads as missing. Every other id reads as before. |
| FirebaseClientActivity.LookupFindsIds | acbda/activities/DataManagmentService/firebaseClientActivity.js:23-31 | A read finds a document exactly when its id is stored. |
| FirebaseClientActivity.PutFreshAppends | acbda/activities/DataManagmentService/firebaseClientActivity.js:14-21 | Setting a new id appends the document at the end of the collection. |
| FirebaseClientActivity.PutIds | acbda/activities/DataManagmentService/firebaseClientActivity.js:14-21 | After `set`, the stored ids are the old ones plus the new id. |
| FirebaseClientActivity.RemoveIds | acbda/activities/DataManagmentService/firebaseClientActivity.js:42-49 | After `delete`, the stored ids are the old ones minus that id. |
| FirebaseClientActivity.PutKeepsDistinct | acbda/activities/DataManagmentService/firebaseClientActivity.js:14-21 | `set` never stores one id twice. |
| FirebaseClientActivity.RemoveKeepsDistinct | acbda/activities/DataManagmentService/firebaseClientActivity.js:42-49 | `delete` keeps ids distinct. |
| FirebaseClientActivity.ListingAppend | acbda/activities/DataManagmentService/firebaseClientActivity.js:56-58 | A document appended to a collection is listed last, tagged with its id. |
| FirebaseClientActivity.ListingTagsIds | acbda/activities/DataManagmentService/firebaseClientActivity.js:57 | A listed document carries an `id`: the document's own `id` field if it has one (the spread comes last), otherwise its document id. It also keeps every field of the stored document. |
| FirebaseClientActivity.SetKeepsWellFormed | acbda/activities/DataManagmentService/firebaseClientActivity.js:14-21 | `set` preserves the store invariant (distinct ids in every collection). |
| FirebaseClientActivity.DeleteKeepsWellFormed | acbda/activities/DataManagmentService/firebaseClientActivity.js:42-49 | `delete` preserves the store invariant. |
| FirebaseClientActivity.UpdateMerges | acbda/activities/DataManagmentService/firebaseClientActivity.js:33-40 | A successful `update` found a stored document and replaced it with the document merged with the patch. Every other id and every other collection is unchanged. |
| FirebaseClientActivity.DocumentStore.constructor | acbda/activities/DataManagmentService/firebaseClientActivity.js:5 | A new store is empty and well formed. |
| FirebaseClientActivity.DocumentStore.CreateDocument | acbda/activities/DataManagmentService/firebaseClientActivity.js:14-21 | An invalid collection path is reported first, then an invalid document path; either leaves the store unchanged. Otherwise the document is stored under that id, overwriting any old one. |
| FirebaseClientActivity.DocumentStore.GetDocument | acbda/activities/DataManagmentService/firebaseClientActivity.js:23-31 | A read fails on an invalid path. Otherwise it returns the stored document, or null exactly when the id is not stored. |
| FirebaseClientActivity.DocumentStore.UpdateDocument | acbda/activities/DataManagmentService/firebaseClientActivity.js:33-40 | The same path checks as a create. A missing document raises `5 NOT_FOUND: No document to update: <collection>/<id>` (Firestore names the full resource path; see Left out) and leaves the store unchanged. Otherwise the patch is merged into the stored document. |
| FirebaseClientActivity.DocumentStore.DeleteDocument | acbda/activities/DataManagmentService/firebaseClientActivity.js:42-49 | The same path checks. Otherwise the id is removed; a missing id is not an error. |
| FirebaseClientActivity.DocumentStore.GetAllDocuments | acbda/activities/DataManagmentService/firebaseClientActivity.js:51-67 | The loop builds the listing of the collection, each document tagged with its id. Every failure becomes `Failed to retrieve documents`. |
| SchemaServiceActivity.BuilderInputFor | acbda/activities/DataManagmentService/schemaServiceActivity.js:41-53 | Reading `properties` of a null or undefined validated definition throws. Otherwise the builder gets its properties; `required` only when it is truthy; `additionalProperties` exactly when it is not `undefined`. |
| SchemaServiceActivity.MetadataUpdateStored | acbda/activities/DataManagmentService/schemaServiceActivity.js:103-111 | A metadata update returns a document that keeps every existing field it does not name. It takes every field it names and a fresh `lastUpdatedAt`. Merging it over the stored document stores exactly what is returned. |
| SchemaServiceActivity.TableRefUpdateEffect | acbda/activities/DataManagmentService/schemaServiceActivity.js:130-142 | A successful table-reference update found the registry document. The document it returns has the new `tableRef`, `isTableInitialized: true` and a fresh `lastUpdatedAt`, and every other field unchanged. |
| SchemaServiceActivity.DeleteDoesNotCascade | acbda/activities/DataManagmentService/schemaServiceActivity.js:120-122 | Deleting a schema leaves every other collection, including the schema's data, untouched. |
| SchemaServiceActivity.SchemaService.constructor | acbda/activities/DataManagmentService/schemaServiceActivity.js:25-27 | The service is bound to its store and its SchemaBuilder entry points. |
| SchemaServiceActivity.SchemaService.CreateSchema | acbda/activities/DataManagmentService/schemaServiceActivity.js:36-65 | A built schema is stored under the fresh uuid in `schema` and returned. Any failure, of the builder or of the store, is wrapped as "Failed to create schema: …" and leaves the store unchanged. |
| SchemaServiceActivity.SchemaService.GetSchema | acbda/activities/DataManagmentService/schemaServiceActivity.js:67-71 | Fails exactly on an invalid id. Otherwise gives null exactly when no registry document has that id. |
| SchemaServiceActivity.SchemaService.UpdateSchema | acbda/activities/DataManagmentService/schemaServiceActivity.js:73-118 | A missing schema fails with "Failed to update schema: Schema not found". A truthy `schema` field rebuilds the definition through the builder. Otherwise the metadata update is merged and returned. Every failure is wrapped and leaves the store unchanged. |
| SchemaServiceActivity.SchemaService.DeleteSchema | acbda/activities/DataManagmentService/schemaServiceActivity.js:120-122 | Succeeds exactly on a valid id and then removes only that registry document. |
| SchemaServiceActivity.SchemaService.GetAllSchemas | acbda/activities/DataManagmentService/schemaServiceActivity.js:124-128 | Lists the whole registry. |
| SchemaServiceActivity.SchemaService.UpdateSchemaTableRef | acbda/activities/DataManagmentService/schemaServiceActivity.js:130-147 | Merges `{tableRef, lastUpdatedAt, isTableInitialized: true}` into the registry document, then re-reads it and returns it. The store's errors pass through unwrapped. |
| DataServiceRules.FirstByUuid | acbda/activities/DataManagmentService/dataServiceActivity.js:26-27 | `find(s => s.uuid === schemaId)`: the index of the first document whose `uuid` is strictly equal to the id; none exactly when no document matches. |
| DataServiceRules.FirstByUuidAppend | acbda/activities/DataManagmentService/dataServiceActivity.js:26-27 | Appending a document does not change the first match once there is one. |
| DataServiceRules.RegistryEntry | acbda/activities/DataManagmentService/dataServiceActivity.js:26-30 | The lookup fails with `Schema with id <id> not found` exactly when no registry document matches. Otherwise it returns the first matching document. |
| DataServiceRules.AllDataListsCollection | acbda/activities/DataManagmentService/dataServiceActivity.js:195-198 | A successful `getAllData` found the schema and a valid collection name. It returns one record per stored document, each carrying `id` and all of its fields. |
| DataServiceRules.ReferenceCheckMeaning | acbda/activities/DataManagmentService/dataServiceActivity.js:81-85 | A reference resolves exactly when: the item is not null, the referenced schema is registered with a valid collection name, and that collection holds a document with that `uuid`. A field is read as `data[field]` is, inherited members included. |
| DataServiceRules.ItemsCheckMeaning | acbda/activities/DataManagmentService/dataServiceActivity.js:80-86 | A field's items pass exactly when every item resolves. A failure is that of the first item that does not. |
| DataServiceRules.ValidationSchema | acbda/activities/DataManagmentService/dataServiceActivity.js:62-67 | The structural schema is an `object`. It has the definition's properties, its `required` list or `[]`, and `additionalProperties: false`. |
| DataServiceRules.CreatedDocumentSteps | acbda/activities/DataManagmentService/dataServiceActivity.js:114-150 | A create stores nothing when validation fails. Otherwise it stores the new document under the schema's name, exactly when every reference resolves, every relationship field can be normalised and the name is a valid collection. |
| DataServiceRules.CreatedDocumentShape | acbda/activities/DataManagmentService/dataServiceActivity.js:124-147 | The created record has the request's fields plus `uuid`, `createdAt` and `lastUpdatedAt` (equal) and `_schemaId`. A relationship field becomes a `{uuid, _ref: true}` stub, or a list of stubs in order. Every other field is copied. |
| DataServiceRules.NoRelationshipsKeepsData | acbda/activities/DataManagmentService/dataServiceActivity.js:124-139 | Without relationships, processing keeps the request data as it is. |
| DataServiceRules.CreateThenGet | acbda/activities/DataManagmentService/dataServiceActivity.js:157-160 | After a create under a fresh id, `getData(schemaId, uuid)` returns exactly the created document. This holds even when the schema's collection is the registry itself. |
| DataServiceRules.DeclaredKeys | acbda/activities/DataManagmentService/dataServiceActivity.js:171-172 | A missing definition throws. Otherwise the allowed keys are `Object.keys(properties \|\| {})`: the fields of an object, the indices `"0"`, `"1"`, … of an array or a string, and none for any other value. |
| DataServiceRules.StringPropertiesDeclareIndices | acbda/activities/DataManagmentService/dataServiceActivity.js:172 | A string `properties` of length two declares exactly the keys `"0"` and `"1"`. |
| DataServiceRules.DeclaredOnly | acbda/activities/DataManagmentService/dataServiceActivity.js:175-180 | The patch keeps exactly the declared keys of the data, with their values. |
| DataServiceRules.UpdateDataEffect | acbda/activities/DataManagmentService/dataServiceActivity.js:162-188 | A successful update found the record. Afterwards the record holds every declared field of the request and keeps every other stored field. Undeclared request fields never reach the store. |
| DataServiceRules.UndeclaredKeysDropped | acbda/activities/DataManagmentService/dataServiceActivity.js:172-180 | With `a` and `b` declared, the update patch for `{a, z}` is `{a}`. |
| DataServiceRules.ChildSchemaDataMeaning | acbda/activities/DataManagmentService/dataServiceActivity.js:97-112 | The corrected lookup fails with `No child schema found for field <f>` exactly for a field that is not a relationship of the parent. Otherwise it lists the referenced schema's whole collection. |
| DataServiceRules.InheritedFieldNamePassesGuard | acbda/activities/DataManagmentService/dataServiceActivity.js:102-107 | As written, the field name `constructor` passes the guard. The call then fails with `Schema with id undefined not found` instead of reporting the missing child schema. |
| DataServiceRules.MatchingRecordsMeaning | acbda/activities/DataManagmentService/dataServiceActivity.js:254-262 | The search keeps exactly the records one of whose values, printed and lower-cased, contains the lower-cased query. Each kept record appears as often as it is stored, and the kept records stay in their original order. |
| DataServiceRules.NestedObjectMatchesObjectQuery | acbda/activities/DataManagmentService/dataServiceActivity.js:258-262 | A record with a nested object, a reference stub say, matches the query "Object" whatever it holds. Such a value prints as `[object Object]`. |
| DataServiceRules.TableBootstrapEffect | acbda/activities/DataManagmentService/dataServiceActivity.js:200-236 | A successful bootstrap found the schema. Its registry entry then has `tableRef` equal to the schema name and `isTableInitialized: true`, and the data collection holds the `_metadata` sentinel. |
| DataServiceActivity.DataService.constructor | acbda/activities/DataManagmentService/dataServiceActivity.js:9-15 | The data service shares the registry's store and holds the structural check. |
| DataServiceActivity.DataService.GetSchemaById | acbda/activities/DataManagmentService/dataServiceActivity.js:24-39 | Returns the first registry document with that `uuid`, with its definition under `parsedSchema`. A missing schema or definition fails. |
| DataServiceActivity.DataService.GetSchemaRelationships | acbda/activities/DataManagmentService/dataServiceActivity.js:41-54 | The loop collects exactly the relationships of the definition's properties. A null property throws. |
| DataServiceActivity.DataService.ValidateNestedData | acbda/activities/DataManagmentService/dataServiceActivity.js:56-95 | The schema lookup, the relationships and the structural check run first; their errors pass through. After that the call passes exactly when every reference of every truthy relationship field resolves. A failure is that of some failing field. |
| DataServiceActivity.DataService.ValidateReferences | acbda/activities/DataManagmentService/dataServiceActivity.js:78-88 | The loop over relationship fields passes exactly when every field passes, and otherwise reports a failing field's error. |
| DataServiceActivity.DataService.ValidateField | acbda/activities/DataManagmentService/dataServiceActivity.js:79-87 | The loop over one field's items gives the field's check: pass, or the first failing item's error. |
| DataServiceActivity.DataService.GetChildSchemaData | acbda/activities/DataManagmentService/dataServiceActivity.js:97-112 | Behaves as the corrected lookup: only the parent's own relationship fields lead to a child schema. |
| DataServiceActivity.DataService.NormalizeReferences | acbda/activities/DataManagmentService/dataServiceActivity.js:123-139 | The loop yields the normalised data when every relationship field can be normalised. Otherwise it fails with the error of such a field: `.map` on a non-array, or reading `uuid` of a null item. |
| DataServiceActivity.DataService.CreateData | acbda/activities/DataManagmentService/dataServiceActivity.js:114-155 | A validation failure is returned as it is. When the structural check passed but a reference does not resolve, the error is that of some relationship field's check. The call succeeds exactly when a document is created; it then returns that document and the store gains exactly it under the schema's name. Any failure leaves the store unchanged. |
| DataServiceActivity.DataService.StoreNormalized | acbda/activities/DataManagmentService/dataServiceActivity.js:141-150 | Builds the new document and writes it under the schema's name. It fails, with the store unchanged, when a field cannot be normalised or the name is not a valid collection. |
| DataServiceActivity.DataService.GetData | acbda/activities/DataManagmentService/dataServiceActivity.js:157-160 | A read in the collection the schema names. |
| DataServiceActivity.DataService.FilterDeclared | acbda/activities/DataManagmentService/dataServiceActivity.js:175-180 | The reduce keeps exactly the declared keys of the data. |
| DataServiceActivity.DataService.UpdateData | acbda/activities/DataManagmentService/dataServiceActivity.js:162-188 | Merges the declared part of the data into the record, and fails as the schema lookup, the definition or the store fails; a failure leaves the store unchanged. |
| DataServiceActivity.DataService.DeleteData | acbda/activities/DataManagmentService/dataServiceActivity.js:190-193 | Removes the record from the schema's collection, or fails as the lookup or the store does. |
| DataServiceActivity.DataService.GetAllData | acbda/activities/DataManagmentService/dataServiceActivity.js:195-198 | Lists the collection the schema names. |
| DataServiceActivity.DataService.CreateTableForSchema | acbda/activities/DataManagmentService/dataServiceActivity.js:200-236 | The outcome and the new store are those of the bootstrap. Every error is wrapped as "Failed to create table: …". A failed table-reference write leaves the sentinel in place. |
| DataServiceActivity.DataService.UpdateSchemaWithTableRef | acbda/activities/DataManagmentService/dataServiceActivity.js:238-251 | The table-reference endpoint answers 400 for a falsy id or table name, 500 for any failure of the registry update, and otherwise performs it. |
| DataServiceActivity.DataService.SearchChildData | acbda/activities/DataManagmentService/dataServiceActivity.js:254-267 | Returns the matching records of the schema's collection, or the lookup's error. |
| DataServiceActivity.DataService.CreateTable | acbda/activities/DataManagmentService/dataServiceActivity.js:269-280 | A missing schema fails with `Schema not found`. Otherwise the registry records `data_<id>` as the table reference, and that name is returned. |
| DataServiceRules.InheritedRelationshipFieldFails | acbda/activities/DataManagmentService/dataServiceActivity.js:79-85 | A relationship field named after an inherited member (`toString`, say) that the data does not hold still reads as truthy. Its one item has no `uuid`, so the lookup `getData(schemaId, undefined)` fails and so does the check. |
| DataServiceRules.ResolvedFieldsAreOwn | acbda/activities/DataManagmentService/dataServiceActivity.js:79-87 | When every reference resolves, every relationship field that reads as truthy is an own field of the data. So the later normalisation, which reads own fields, sees the same fields. |
| ApiExecution.InitialRecord | acbda/builder/ApiExecutionBuilder.js:5-23 | A new record is `Started` at its start time and has its id. Time taken and response size are 0; `queryParams` and `headers` are empty lists. It has no `response-status` and no undefined field. |
| ApiExecution.InitialNulls | acbda/builder/ApiExecutionBuilder.js:10-20 | Every other request and response field of a new record is null. |
| ApiExecution.RequestDetailsDefaults | acbda/builder/ApiExecutionBuilder.js:26-39 | Throws exactly on a null or undefined request. Otherwise each field takes the request's value when truthy, and else its default: `GET`, the empty url, `[]`, or null. |
| ApiExecution.RequestDetailsKeep | acbda/builder/ApiExecutionBuilder.js:27-37 | The request columns are added and every other column (id, start time, status, response) is unchanged. |
| ApiExecution.ResponseDetailsEffect | acbda/builder/ApiExecutionBuilder.js:41-53 | Throws exactly on a null or undefined response. Otherwise the record becomes `Completed`, with `response-status` the given status or 500, and headers defaulting to `{}` and the body to null. The time taken is measured from the start, and the size is the length of the serialized data. |
| ApiExecution.ResponseDetailsKeep | acbda/builder/ApiExecutionBuilder.js:42-51 | The response columns are added and every other column (id, start time, request) is unchanged. |
| ApiExecution.ErrorEffect | acbda/builder/ApiExecutionBuilder.js:55-65 | The record becomes `Failed`, with response body and headers null and the time measured from the start. The request fields, id and start time are unchanged. |
| ApiExecution.Lifecycle | acbda/builder/ApiExecutionBuilder.js:5-65 | Filling in the request keeps `Started`. Then a response makes the record `Completed` and an error makes it `Failed`. |
| ApiExecution.RequestStaysDefined | acbda/builder/ApiExecutionBuilder.js:29-36 | Filling in the request never writes `undefined`. |
| ApiExecution.ResponseStaysDefined | acbda/builder/ApiExecutionBuilder.js:44-50 | Filling in the response never writes `undefined`. |
| ApiExecution.ErrorStaysDefined | acbda/builder/ApiExecutionBuilder.js:58-62 | Recording an error never writes `undefined`. |
| ApiExecution.ApiExecutionBuilder.constructor | acbda/builder/ApiExecutionBuilder.js:5-24 | A new builder holds the initial record. |
| ApiExecution.ApiExecutionBuilder.SetRequestDetails | acbda/builder/ApiExecutionBuilder.js:26-39 | Replaces the record by the request step and returns the builder itself, or throws and leaves the record unchanged. |
| ApiExecution.ApiExecutionBuilder.SetResponseDetails | acbda/builder/ApiExecutionBuilder.js:41-53 | Replaces the record by the response step and returns the builder itself, or throws and leaves the record unchanged. |
| ApiExecution.ApiExecutionBuilder.SetError | acbda/builder/ApiExecutionBuilder.js:55-65 | Replaces the record by the error step and returns the builder itself. |
| ApiExecution.ApiExecutionBuilder.Build | acbda/builder/ApiExecutionBuilder.js:67-72 | The copy has the same fields and no undefined value. `undefined` becomes null and every other value is kept. On a record the builder produced, the copy is the record itself. |

## Behaviour of the code worth knowing

- The structural check always forbids additional properties (`additionalProperties: false`), whatever the stored definition says.
- Records live in the collection named by `schemaName`. `createTable` records `data_<id>` as the table reference, but no operation reads or writes that collection.
- An update of a record keeps every key the definition declares, so it may overwrite `uuid` or `createdAt` when the definition declares them.

## Left out

- Property enumeration order of JavaScript objects is not modelled: loops over object keys visit them in an unspecified order.
- DataServiceActivity.DataService.ValidateNestedData: when several relationship fields fail, it states only that the error is that of some failing field, not of the first in key order, because key order is not modelled.
- DataServiceActivity.DataService.ValidateReferences: weaker in the same way, for the same reason.
- DataServiceActivity.DataService.NormalizeReferences: weaker in the same way, for the same reason.
- DataServiceActivity.DataService.CreateData: when the call fails after validation passed, it states only that it fails and leaves the store unchanged, not which error it throws. That happens when a field cannot be normalised, when the schema name is not a valid collection, or when a schema lookup fails between the steps.
- DataServiceActivity.DataService.StoreNormalized: on failure it states only that it fails and leaves the store unchanged.
- DataServiceActivity.DataService.NormalizeReferences: it reads own fields of the data only, where `data[field]` would also see inherited members. Inside `createData` the two agree, because normalisation runs only after every reference resolved (DataServiceRules.ResolvedFieldsAreOwn). Called on its own with such a field name, the model adds nothing for it, where the code would add the stub `{uuid: undefined, _ref: true}` or throw at `.map`.
- DataServiceActivity.DataService.CreateTableForSchema: one clock reading stands for both the sentinel's timestamps and the registry's `lastUpdatedAt`. The code reads the clock again when it writes the table reference (schemaServiceActivity.js:135).
- FirebaseClientActivity.DocumentStore.UpdateDocument: the `NOT_FOUND` text abbreviates the resource path. Firestore writes `projects/<project>/databases/(default)/documents/<collection>/<id>`; the project id is not part of the model.
- Inherited members are modelled by name only: `data[field]` on such a name gives a stand-in object, not the actual function, and its own properties other than `uuid` are not modelled.
- Firestore orders a listing by document id. The model lists in insertion order.
- Firestore path syntax is reduced to "a non-empty string". Left out: slashes, reserved ids, rejection of an empty update, `undefined` field values, and dotted field paths in updates.
- Firestore errors other than an invalid path and a missing document (network, permissions) are not modelled.
- Asynchrony, concurrency between requests, logging, and the `getInstance` singletons are left out.
- `uuidv4` and the clock become method parameters.
  - `setResponseDetails` and `setError` read the clock twice; the model uses one reading.
  - A `Date` is held as its `getTime()` in milliseconds; ISO timestamps are opaque strings.
- `updateSchemaWithTableRef` is modelled as a direct call of the registry's table-reference handler (schemaServiceActivity.js:222-235), not an HTTP PUT.
  - The handler's 400 and 500 replies are the errors axios raises: `Request failed with status code 400` and `Request failed with status code 500`.
  - Its `response.data` check never fails, because the handler always returns the updated schema.
- The other HTTP handlers of the registry are not part of this model.
- Ajv, SchemaBuilder and `JSON.stringify` are abstract functions; so are the text of Ajv's `errorsText` and the messages SchemaBuilder throws.
- A stored `schema` definition is held already parsed. Only a missing one fails to parse (`"undefined" is not valid JSON`).
- Numbers are integers. Floating point and its `String` rendering are not modelled.
- Json.Lower: lowers ASCII letters only. JavaScript's `toLowerCase` also lowers other letters and can change the length (`"\u0130".toLowerCase()` is two code units).
- ApiExecution.WithResponse: the response size is the length of the serialized data counted in Unicode scalar values. JavaScript's `length` counts UTF-16 code units, so a character outside the Basic Multilingual Plane counts once here and twice in the code.
- Json.OwnEntries: a string gives one entry per Unicode scalar value. `Object.entries` gives one per UTF-16 code unit, so a character outside the Basic Multilingual Plane yields one index key here and two, each holding half a surrogate pair, in the code.
- DataServiceActivity.DataService.SearchChildData: the query is a string. A missing query, on which `toLowerCase` throws, is not modelled.
- Assigning the key `__proto__` to a plain object sets its prototype, in `getSchemaRelationships`, the update filter and `build`. The model treats it as an ordinary key.
- Message texts follow V8's wording. Values parsed from JSON never hold `undefined`, so a nullish definition property or array item reads as `null` in `Cannot read properties of null (reading '…')`.
- ApiExecution.ApiExecutionBuilder.Build returns the record keyed by the columns of `ApiExecutionSchema`, not by property-name strings. `ColumnName` gives each column's property name.
- The status `In-Progress` exists but no builder step writes it.
- acbda/builders/ApiExecutionBuilder.js (a second builder made of one-field setters) is not part of this model.

## Findings

| source | as written | input that shows it | evidently intended | confidence | as-written member | corrected member |
|---|---|---|---|---|---|---|
| acbda/activities/DataManagmentService/dataServiceActivity.js:102 | `!relationships[fieldName]` also sees the members every plain object inherits (`constructor`, `toString`, `__proto__`, …). For such a name the guard passes and the child schema id becomes `undefined`. | `getChildSchemaData(parent, "constructor")` on a parent without a `constructor` field, with every registered schema having a string `uuid`. It fails with `Schema with id undefined not found`. | Only the parent's own relationship fields lead to a child schema. Any other name fails with `No child schema found for field constructor`. | not executed | DataServiceRules.InheritedFieldNamePassesGuard | DataServiceRules.ChildSchemaDataMeaning |

`DataServiceRules.ChildSchemaDataAsWritten` models the guard as written. `DataServiceRules.ChildSchemaData` is the corrected lookup, and `DataService.GetChildSchemaData` is proved against it.
