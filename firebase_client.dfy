/** The document store behind both services (a thin wrapper over Firestore),
    kept in memory: each collection is a sequence of (document id, document)
    entries in listing order. A collection nobody has written to reads as
    empty. */
module FirebaseClientActivity {
  import opened Results
  import opened Json

  type Collection = seq<(string, Doc)>
  type Db = map<string, Collection>

  function CollectionOf(db: Db, name: string): Collection
  {
    if name in db then db[name] else []
  }

  function Ids(c: Collection): set<string>
  {
    set i | 0 <= i < |c| :: c[i].0
  }

  predicate DistinctIds(c: Collection)
  {
    forall i, j :: 0 <= i < j < |c| ==> c[i].0 != c[j].0
  }

  predicate WellFormed(db: Db)
  {
    forall name :: name in db ==> DistinctIds(db[name])
  }

  /** The document stored under `id`, if any. */
  function Lookup(c: Collection, id: string): Option<Doc>
  {
    if c == [] then None
    else if c[0].0 == id then Some(c[0].1)
    else Lookup(c[1..], id)
  }

  /** `doc(id).set(d)`: replaces the document in place, or appends it. */
  function Put(c: Collection, id: string, d: Doc): Collection
  {
    if c == [] then [(id, d)]
    else if c[0].0 == id then [(id, d)] + c[1..]
    else [c[0]] + Put(c[1..], id, d)
  }

  /** `doc(id).delete()`: missing documents are not an error. */
  function Remove(c: Collection, id: string): Collection
  {
    if c == [] then []
    else if c[0].0 == id then Remove(c[1..], id)
    else [c[0]] + Remove(c[1..], id)
  }

  /** `{ id: doc.id, ...doc.data() }`: a stored `id` field wins over the tag. */
  function Tagged(id: string, d: Doc): Doc
  {
    map["id" := Str(id)] + d
  }

  /** What `getAllDocuments` returns for one collection. */
  function Listing(c: Collection): (r: seq<Doc>)
    ensures |r| == |c|
  {
    seq(|c|, i requires 0 <= i < |c| => Tagged(c[i].0, c[i].1))
  }

  /** Firestore accepts a collection or document path only when it is a
      non-empty string. */
  function PathOf(v: Value): Option<string>
  {
    if v.Str? && v.s != "" then Some(v.s) else None
  }

  // ---- the store's operations on a whole database state ----

  function SetIn(db: Db, collection: string, id: string, d: Doc): Db
  {
    db[collection := Put(CollectionOf(db, collection), id, d)]
  }

  function DeleteIn(db: Db, collection: string, id: string): Db
  {
    db[collection := Remove(CollectionOf(db, collection), id)]
  }

  /** `doc(id).update(patch)`: merges `patch` over the stored document and
      fails when there is none. */
  function UpdateIn(db: Db, collection: string, id: string, patch: Doc): Result<Db>
  {
    match Lookup(CollectionOf(db, collection), id)
    case None => Failure(NoDocumentToUpdate(collection, id))
    case Some(d) => Success(SetIn(db, collection, id, d + patch))
  }

  /** `getDocument(collection, uuid)` */
  function ReadDocument(db: Db, collection: Value, uuid: Value): Result<Option<Doc>>
  {
    if PathOf(collection).None? then Failure(InvalidPath("collectionPath"))
    else if PathOf(uuid).None? then Failure(InvalidPath("documentPath"))
    else Success(Lookup(CollectionOf(db, PathOf(collection).value), PathOf(uuid).value))
  }

  /** `getAllDocuments(collectionName)`; every failure is reported alike. */
  function ReadAll(db: Db, collection: Value): Result<seq<Doc>>
  {
    if PathOf(collection).None? then Failure(RetrieveFailed)
    else Success(Listing(CollectionOf(db, PathOf(collection).value)))
  }

  /** The database after `createDocument(collection, data, uuid)`, or the
      error it throws: an invalid collection path is reported first. */
  function AfterCreate(db: Db, collection: Value, uuid: Value, data: Doc): Result<Db>
  {
    if PathOf(collection).None? then Failure(InvalidPath("collectionPath"))
    else if PathOf(uuid).None? then Failure(InvalidPath("documentPath"))
    else Success(SetIn(db, PathOf(collection).value, PathOf(uuid).value, data))
  }

  /** The database after `updateDocument(collection, uuid, data)`. */
  function AfterUpdate(db: Db, collection: Value, uuid: Value, data: Doc): Result<Db>
  {
    if PathOf(collection).None? then Failure(InvalidPath("collectionPath"))
    else if PathOf(uuid).None? then Failure(InvalidPath("documentPath"))
    else UpdateIn(db, PathOf(collection).value, PathOf(uuid).value, data)
  }

  /** The database after `deleteDocument(collection, uuid)`. */
  function AfterDelete(db: Db, collection: Value, uuid: Value): Result<Db>
  {
    if PathOf(collection).None? then Failure(InvalidPath("collectionPath"))
    else if PathOf(uuid).None? then Failure(InvalidPath("documentPath"))
    else Success(DeleteIn(db, PathOf(collection).value, PathOf(uuid).value))
  }

  // ---- properties of the store ----

  /** A set is visible to the next read of that id and to no other id. */
  lemma {:induction false} LookupPut(c: Collection, id: string, d: Doc, other: string)
    ensures Lookup(Put(c, id, d), other) == if other == id then Some(d) else Lookup(c, other)
  {
    if c != [] && c[0].0 != id {
      assert Put(c, id, d)[1..] == Put(c[1..], id, d);
      LookupPut(c[1..], id, d, other);
    }
  }

  /** A delete hides exactly that id. */
  lemma {:induction false} LookupRemove(c: Collection, id: string, other: string)
    ensures Lookup(Remove(c, id), other) == if other == id then None else Lookup(c, other)
  {
    if c != [] {
      LookupRemove(c[1..], id, other);
      if c[0].0 != id {
        assert Remove(c, id)[1..] == Remove(c[1..], id);
      }
    }
  }

  lemma {:induction false} LookupFindsIds(c: Collection, id: string)
    ensures Lookup(c, id).Some? <==> id in Ids(c)
  {
    if c != [] {
      LookupFindsIds(c[1..], id);
      assert Ids(c) == {c[0].0} + Ids(c[1..]) by {
        forall x | x in Ids(c) ensures x in {c[0].0} + Ids(c[1..]) {
          var i :| 0 <= i < |c| && c[i].0 == x;
          if i > 0 { assert c[1..][i - 1].0 == x; }
        }
      }
    }
  }

  /** Setting a fresh id appends it at the end of the listing order. */
  lemma {:induction false} PutFreshAppends(c: Collection, id: string, d: Doc)
    requires Lookup(c, id).None?
    ensures Put(c, id, d) == c + [(id, d)]
  {
    if c != [] {
      PutFreshAppends(c[1..], id, d);
      assert c == [c[0]] + c[1..];
    }
  }

  lemma {:induction false} PutIds(c: Collection, id: string, d: Doc)
    ensures Ids(Put(c, id, d)) == Ids(c) + {id}
  {
    if c != [] {
      var p := Put(c, id, d);
      IdsCons(c);
      IdsCons(p);
      if c[0].0 != id {
        PutIds(c[1..], id, d);
        assert p[0] == c[0] && p[1..] == Put(c[1..], id, d);
      } else {
        assert p[0].0 == id && p[1..] == c[1..];
      }
    } else {
      assert Put(c, id, d)[0].0 == id;
    }
  }

  lemma {:induction false} RemoveIds(c: Collection, id: string)
    ensures Ids(Remove(c, id)) == Ids(c) - {id}
  {
    if c != [] {
      RemoveIds(c[1..], id);
      IdsCons(c);
      if c[0].0 != id {
        IdsCons(Remove(c, id));
        assert Remove(c, id)[1..] == Remove(c[1..], id);
      }
    }
  }

  lemma IdsCons(c: Collection)
    requires c != []
    ensures Ids(c) == {c[0].0} + Ids(c[1..])
  {
    forall x | x in Ids(c) ensures x in {c[0].0} + Ids(c[1..]) {
      var i :| 0 <= i < |c| && c[i].0 == x;
      if i > 0 { assert c[1..][i - 1].0 == x; }
    }
    forall x | x in Ids(c[1..]) ensures x in Ids(c) {
      var i :| 0 <= i < |c[1..]| && c[1..][i].0 == x;
      assert c[i + 1].0 == x;
    }
  }

  lemma DistinctCons(c: Collection)
    requires c != []
    ensures DistinctIds(c) <==> c[0].0 !in Ids(c[1..]) && DistinctIds(c[1..])
  {
    if DistinctIds(c) {
      forall x | x in Ids(c[1..]) ensures x != c[0].0 {
        var i :| 0 <= i < |c[1..]| && c[1..][i].0 == x;
        assert c[i + 1].0 == x;
      }
    }
    if c[0].0 !in Ids(c[1..]) && DistinctIds(c[1..]) {
      forall i, j | 0 <= i < j < |c| ensures c[i].0 != c[j].0 {
        if i == 0 {
          assert c[1..][j - 1].0 == c[j].0;
        } else {
          assert c[1..][i - 1] == c[i] && c[1..][j - 1] == c[j];
        }
      }
    }
  }

  /** Every document id occurs at most once in a collection, after any set. */
  lemma {:induction false} PutKeepsDistinct(c: Collection, id: string, d: Doc)
    requires DistinctIds(c)
    ensures DistinctIds(Put(c, id, d))
  {
    if c != [] {
      DistinctCons(c);
      var p := Put(c, id, d);
      DistinctCons(p);
      if c[0].0 == id {
        assert p[1..] == c[1..];
      } else {
        assert p[1..] == Put(c[1..], id, d);
        PutKeepsDistinct(c[1..], id, d);
        PutIds(c[1..], id, d);
        LookupFindsIds(c, id);
      }
    }
  }

  /** ... and after any delete. */
  lemma {:induction false} RemoveKeepsDistinct(c: Collection, id: string)
    requires DistinctIds(c)
    ensures DistinctIds(Remove(c, id))
  {
    if c != [] {
      DistinctCons(c);
      RemoveKeepsDistinct(c[1..], id);
      if c[0].0 != id {
        var p := Remove(c, id);
        assert p[1..] == Remove(c[1..], id);
        RemoveIds(c[1..], id);
        DistinctCons(p);
      }
    }
  }

  /** The listing of a collection grown by one entry is the old listing
      followed by that entry, tagged. */
  lemma ListingAppend(c: Collection, id: string, d: Doc)
    ensures Listing(c + [(id, d)]) == Listing(c) + [Tagged(id, d)]
  {
  }

  /** Each listed document carries `id`; it is the document id unless the
      stored document has its own `id` field. */
  lemma ListingTagsIds(c: Collection, i: nat)
    requires i < |c|
    ensures "id" in Listing(c)[i]
    ensures Listing(c)[i]["id"] == if "id" in c[i].1 then c[i].1["id"] else Str(c[i].0)
    ensures forall k :: k in c[i].1 ==> k in Listing(c)[i] && Listing(c)[i][k] == c[i].1[k]
  {
  }

  lemma SetKeepsWellFormed(db: Db, collection: string, id: string, d: Doc)
    requires WellFormed(db)
    ensures WellFormed(SetIn(db, collection, id, d))
  {
    PutKeepsDistinct(CollectionOf(db, collection), id, d);
  }

  lemma DeleteKeepsWellFormed(db: Db, collection: string, id: string)
    requires WellFormed(db)
    ensures WellFormed(DeleteIn(db, collection, id))
  {
    RemoveKeepsDistinct(CollectionOf(db, collection), id);
  }

  /** An update changes only the named document, and that one by merging. */
  lemma UpdateMerges(db: Db, collection: string, id: string, patch: Doc, other: string)
    requires UpdateIn(db, collection, id, patch).Success?
    ensures Lookup(CollectionOf(db, collection), id).Some?
    ensures var after := UpdateIn(db, collection, id, patch).value;
      Lookup(CollectionOf(after, collection), other) ==
        if other == id then Some(Lookup(CollectionOf(db, collection), id).value + patch)
        else Lookup(CollectionOf(db, collection), other)
    ensures forall name :: name != collection ==>
      CollectionOf(UpdateIn(db, collection, id, patch).value, name) == CollectionOf(db, name)
  {
    var d := Lookup(CollectionOf(db, collection), id).value;
    LookupPut(CollectionOf(db, collection), id, d + patch, other);
  }

  /** The in-memory Firestore client shared by both services. */
  class DocumentStore {
    var collections: Db

    ghost predicate Valid()
      reads this
    {
      WellFormed(collections)
    }

    constructor ()
      ensures Valid() && collections == map[]
    {
      collections := map[];
    }

    /** `createDocument(collection, data, uuid)`: an unconditional overwrite. */
    method CreateDocument(collection: Value, data: Doc, uuid: Value) returns (r: Outcome)
      requires Valid()
      modifies this
      ensures Valid()
      ensures match AfterCreate(old(collections), collection, uuid, data)
        case Failure(e) => r == Fail(e) && collections == old(collections)
        case Success(after) => r == Pass && collections == after
    {
      match AfterCreate(collections, collection, uuid, data) {
        case Failure(e) =>
          r := Fail(e);
        case Success(after) =>
          SetKeepsWellFormed(collections, PathOf(collection).value, PathOf(uuid).value, data);
          collections := after;
          r := Pass;
      }
    }

    /** `getDocument(collection, uuid)`: null (None) when missing. */
    method GetDocument(collection: Value, uuid: Value) returns (r: Result<Option<Doc>>)
      ensures r == ReadDocument(collections, collection, uuid)
      ensures r.Success? ==> (r.value.Some? <==> PathOf(uuid).value in Ids(CollectionOf(collections, PathOf(collection).value)))
    {
      match (PathOf(collection), PathOf(uuid)) {
        case (None, _) =>
          r := Failure(InvalidPath("collectionPath"));
        case (Some(_), None) =>
          r := Failure(InvalidPath("documentPath"));
        case (Some(c), Some(id)) =>
          var entries := CollectionOf(collections, c);
          LookupFindsIds(entries, id);
          r := Success(Lookup(entries, id));
      }
    }

    /** `updateDocument(collection, uuid, data)`: merge, failing when absent. */
    method UpdateDocument(collection: Value, uuid: Value, data: Doc) returns (r: Outcome)
      requires Valid()
      modifies this
      ensures Valid()
      ensures match AfterUpdate(old(collections), collection, uuid, data)
        case Failure(e) => r == Fail(e) && collections == old(collections)
        case Success(after) => r == Pass && collections == after
    {
      match AfterUpdate(collections, collection, uuid, data) {
        case Failure(e) =>
          r := Fail(e);
        case Success(after) =>
          var c, id := PathOf(collection).value, PathOf(uuid).value;
          SetKeepsWellFormed(collections, c, id, Lookup(CollectionOf(collections, c), id).value + data);
          collections := after;
          r := Pass;
      }
    }

    /** `deleteDocument(collection, uuid)` */
    method DeleteDocument(collection: Value, uuid: Value) returns (r: Outcome)
      requires Valid()
      modifies this
      ensures Valid()
      ensures match AfterDelete(old(collections), collection, uuid)
        case Failure(e) => r == Fail(e) && collections == old(collections)
        case Success(after) => r == Pass && collections == after
    {
      match AfterDelete(collections, collection, uuid) {
        case Failure(e) =>
          r := Fail(e);
        case Success(after) =>
          DeleteKeepsWellFormed(collections, PathOf(collection).value, PathOf(uuid).value);
          collections := after;
          r := Pass;
      }
    }

    /** `getAllDocuments(collectionName)`: every document, tagged with its id. */
    method GetAllDocuments(collectionName: Value) returns (r: Result<seq<Doc>>)
      ensures r == ReadAll(collections, collectionName)
    {
      var c := PathOf(collectionName);
      if c.None? {
        r := Failure(RetrieveFailed);
      } else {
        var entries := CollectionOf(collections, c.value);
        var documents: seq<Doc> := [];
        var i := 0;
        while i < |entries|
          invariant 0 <= i <= |entries|
          invariant documents == Listing(entries[..i])
        {
          documents := documents + [Tagged(entries[i].0, entries[i].1)];
          i := i + 1;
        }
        assert entries[..i] == entries;
        r := Success(documents);
      }
    }
  }
}
