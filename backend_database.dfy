/**
 * The generic document helpers of the backend package: serialization of a
 * stored document, insertion with timestamps, and filtered reads.
 */
module BackendDatabase {
  import opened Wrappers
  import opened ObjectIds
  import opened Documents
  import opened Errors
  import opened Sequences

  /**
   * `_serialize(doc)`: None stays None; otherwise a copy in which `_id`, when
   * present, is replaced by `id` = str(_id).
   */
  function Serialize(doc: Option<Doc>): (r: Option<Doc>)
    ensures doc.None? <==> r.None?
    ensures doc.Some? && "_id" !in doc.value ==> r == doc
    ensures doc.Some? && "_id" in doc.value ==>
              && "_id" !in r.value && "id" in r.value && r.value["id"] == VStr(Str(doc.value["_id"]))
              && (forall k :: k in r.value <==> k == "id" || (k in doc.value && k != "_id"))
              && (forall k :: k in doc.value && k != "_id" && k != "id" ==> r.value[k] == doc.value[k])
  {
    match doc
    case None => None
    case Some(d) => Some(if "_id" in d then RenameId(d) else d)
  }

  /** `{**data, "created_at": now, "updated_at": now}`: the timestamps win over any in `data`. */
  function Stamped(data: Doc, now: int): (p: Doc)
    ensures p.Keys == data.Keys + {"created_at", "updated_at"}
    ensures p["created_at"] == VTime(now) && p["updated_at"] == VTime(now)
    ensures forall k :: k in data && k != "created_at" && k != "updated_at" ==> p[k] == data[k]
  {
    data["created_at" := VTime(now)]["updated_at" := VTime(now)]
  }

  /**
   * An equality filter: every field of `filter` is present in `d` with the
   * same value, except that a None in the filter also matches a missing field.
   */
  predicate Matches(d: Doc, filter: Doc) {
    forall k :: k in filter ==> (k in d && d[k] == filter[k]) || (filter[k] == VNull && k !in d)
  }

  /** `find(filter)`: the matching documents in store order. */
  function Matching(docs: seq<Doc>, filter: Doc): (r: seq<Doc>)
    ensures forall d :: d in r <==> d in docs && Matches(d, filter)
    ensures Subsequence(r, docs)
    ensures |r| <= |docs|
  {
    if docs == [] then []
    else
      SubsequenceCons(Matches(docs[0], filter), docs, Matching(docs[1..], filter));
      (if Matches(docs[0], filter) then [docs[0]] else []) + Matching(docs[1..], filter)
  }

  /** A None in the filter matches a document that lacks the field. */
  lemma NullMatchesMissing(id: Oid)
    ensures Matching([map["_id" := VOid(id)]], map["author" := VNull]) == [map["_id" := VOid(id)]]
  {
  }

  /** `filter_dict or {}`. */
  function EffectiveFilter(filter: Option<Doc>): (r: Doc)
    ensures forall d :: Matches(d, r) <==> filter.None? || Matches(d, filter.value)
  {
    if filter.None? then map[] else filter.value
  }

  /** How many of `n` matching documents `if limit: cursor.limit(limit)` lets through. */
  function Limited(limit: Option<int>, n: nat): (k: nat)
    ensures limit.None? || limit.value == 0 ==> k == n
    ensures limit.Some? && limit.value > 0 ==> k == if limit.value < n then limit.value else n
    ensures k <= n
  {
    if limit.None? || limit.value == 0 then n
    else
      var m := if limit.value < 0 then -limit.value else limit.value;
      if m < n then m else n
  }

  /** Every document has an `_id`, and no two share one. */
  ghost predicate UniqueIds(docs: seq<Doc>) {
    && (forall i :: 0 <= i < |docs| ==> "_id" in docs[i])
    && (forall i, j :: 0 <= i < j < |docs| ==> docs[i]["_id"] != docs[j]["_id"])
  }

  /** Appending a document whose `_id` no stored document has keeps the ids unique. */
  lemma AppendUnique(docs: seq<Doc>, d: Doc)
    requires UniqueIds(docs) && "_id" in d
    requires forall i :: 0 <= i < |docs| ==> docs[i]["_id"] != d["_id"]
    ensures UniqueIds(docs + [d])
  {
  }

  /** The collections of one database, by name; a missing name is an empty collection. */
  class DocumentDb {
    var collections: map<string, seq<Doc>>

    function Collection(name: string): seq<Doc>
      reads this
    {
      if name in collections then collections[name] else []
    }

    /** Every stored document has an `_id`, and no two in a collection share one. */
    ghost predicate Valid()
      reads this
    {
      forall name :: name in collections ==> UniqueIds(collections[name])
    }

    predicate IdTaken(name: string, id: Value)
      reads this
    {
      exists d :: d in Collection(name) && "_id" in d && d["_id"] == id
    }

    constructor ()
      ensures Valid() && collections == map[]
    {
      collections := map[];
    }

    /**
     * `create_document(collection_name, data)`: inserts `data` stamped with
     * `now`, taking the driver's fresh `newId` as `_id` unless `data` brings
     * one, and returns the stored document (datetimes kept to the
     * millisecond) serialized.
     */
    method CreateDocument(name: string, data: Doc, now: int, newId: Oid) returns (r: Result<Doc, PyError>)
      requires Valid()
      requires !IdTaken(name, VOid(newId))
      modifies this
      ensures Valid()
      ensures var payload := Stamped(data, now);
              var stored := StoredDoc(if "_id" in payload then payload else payload["_id" := VOid(newId)]);
              if "_id" in data && old(IdTaken(name, AsStored(data["_id"]))) then
                r == Err(DuplicateKeyError) && collections == old(collections)
              else
                && r == Ok(Serialize(Some(stored)).value)
                && collections == old(collections)[name := old(Collection(name)) + [stored]]
    {
      var payload := Stamped(data, now);
      if "_id" in data && IdTaken(name, AsStored(data["_id"])) {
        return Err(DuplicateKeyError);
      }
      var stored := StoredDoc(if "_id" in payload then payload else payload["_id" := VOid(newId)]);
      var docs := Collection(name);
      assert "_id" in stored;
      forall i | 0 <= i < |docs| ensures docs[i]["_id"] != stored["_id"] {
        assert docs[i] in docs;
      }
      AppendUnique(docs, stored);
      collections := collections[name := docs + [stored]];
      r := Ok(Serialize(Some(stored)).value);
    }

    /**
     * `get_documents(collection_name, filter_dict, limit)`: the matching
     * documents in store order, at most |limit| of them when limit is
     * non-zero, each serialized.
     */
    function GetDocuments(name: string, filter: Option<Doc>, limit: Option<int>): (r: seq<Doc>)
      reads this
      requires Valid()
      ensures var found := Matching(Collection(name), EffectiveFilter(filter));
              && |r| == Limited(limit, |found|)
              && forall i :: 0 <= i < |r| ==> "_id" in found[i] && r[i] == RenameId(found[i])
      ensures forall i :: 0 <= i < |r| ==> "id" in r[i] && "_id" !in r[i]
    {
      var found := Matching(Collection(name), EffectiveFilter(filter));
      assert forall i :: 0 <= i < |found| ==> "_id" in found[i] by {
        forall i | 0 <= i < |found| ensures "_id" in found[i] {
          assert found[i] in found;
        }
      }
      seq(Limited(limit, |found|), i requires 0 <= i < Limited(limit, |found|) => RenameId(found[i]))
    }
  }

  /** With no filter every document matches. */
  lemma {:induction false} MatchingEverything(docs: seq<Doc>)
    ensures Matching(docs, EffectiveFilter(None)) == docs
  {
    if docs != [] {
      MatchingEverything(docs[1..]);
    }
  }

  /** A filter of None reads exactly what the empty filter reads. */
  lemma NoFilterIsEmptyFilter(db: DocumentDb, name: string, limit: Option<int>)
    requires db.Valid()
    ensures db.GetDocuments(name, None, limit) == db.GetDocuments(name, Some(map[]), limit)
  {
  }

  /** Without a limit (None or 0) every stored document comes back, in store order. */
  lemma {:induction false} UnlimitedReadsAll(db: DocumentDb, name: string, limit: Option<int>)
    requires db.Valid()
    requires limit.None? || limit == Some(0)
    ensures var r := db.GetDocuments(name, None, limit);
            |r| == |db.Collection(name)|
            && forall i :: 0 <= i < |r| ==> r[i] == Serialize(Some(db.Collection(name)[i])).value
  {
    MatchingEverything(db.Collection(name));
  }
}
