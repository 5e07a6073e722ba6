/**
 * The root service variant: its serializer, which also renders datetimes
 * as ISO strings, and its five endpoints, which check the id format before
 * touching the store.
 */
module RootApi {
  import opened Wrappers
  import opened ObjectIds
  import opened Documents
  import opened Errors
  import opened Sorting
  import opened IdeaStore
  import RootSchemas

  /** The value serialize_doc leaves in a field: a datetime becomes its isoformat() string. */
  function IsoValue(v: Value): (w: Value)
    ensures v.VTime? ==> w == VIso(v.t)
    ensures !v.VTime? ==> w == v
  {
    if v.VTime? then VIso(v.t) else v
  }

  /** The dictionary serialize_doc returns for `d`. */
  function SerializedDoc(d: Doc): (r: Doc)
    ensures "_id" in d ==> "_id" !in r && "id" in r && r["id"] == VStr(Str(d["_id"]))
    ensures "_id" in d ==> forall k :: k in r <==> k == "id" || (k in d && k != "_id")
    ensures "_id" in d ==> r.Keys == d.Keys - {"_id"} + {"id"}
    ensures "_id" !in d ==> r.Keys == d.Keys
    ensures forall k :: k in d && k != "_id" && !(k == "id" && "_id" in d) ==> r[k] == IsoValue(d[k])
    ensures forall k :: k in r ==> !r[k].VTime?
  {
    var base := if "_id" in d then RenameId(d) else d;
    map k | k in base :: IsoValue(base[k])
  }

  /**
   * `serialize_doc(doc)`: on a copy, `_id` becomes `id` = str(_id), then
   * every datetime value is replaced, field by field, by its ISO string.
   */
  method SerializeDoc(doc: Doc) returns (r: Doc)
    ensures r == SerializedDoc(doc)
  {
    r := doc;
    if "_id" in r {
      r := RenameId(r);
    }
    ghost var base := r;
    var pending := r.Keys;
    while pending != {}
      invariant pending <= base.Keys
      invariant r.Keys == base.Keys
      invariant forall k :: k in r ==> r[k] == if k in pending then base[k] else IsoValue(base[k])
      decreases pending
    {
      var k :| k in pending;
      if r[k].VTime? {
        r := r[k := VIso(r[k].t)];
      }
      pending := pending - {k};
    }
  }

  /** Serializing an already serialized document changes nothing. */
  lemma SerializedDocIdempotent(d: Doc)
    ensures SerializedDoc(SerializedDoc(d)) == SerializedDoc(d)
  {
    var r := SerializedDoc(d);
    assert "_id" !in r;
  }

  // Request bodies: no length bounds are declared.

  datatype CreateIdeaRequest = CreateIdeaRequest(title: string, description: Option<string>)

  datatype CreateCommentRequest = CreateCommentRequest(author: Option<string>, content: string)

  /** POST /ideas: builds the schema model with votes=0 and stores it unstripped. */
  method CreateIdea(db: Store, payload: CreateIdeaRequest, now: int, newId: Oid) returns (r: Doc)
    requires db.Valid() && newId !in db.ideas
    modifies db
    ensures db.Valid()
    ensures db.ideas == old(db.ideas)[newId := StoredIdea(Idea(payload.title, payload.description, 0, now, now))]
    ensures db.order == old(db.order) + [newId] && db.comments == old(db.comments)
    ensures r == SerializedDoc(IdeaDoc(newId, db.ideas[newId]))
  {
    var fields := map["title" := VStr(payload.title), "description" := OptionalText(payload.description),
                      "votes" := VInt(0)];
    RootSchemas.IdeaFromArguments(payload.title, payload.description);
    var idea := RootSchemas.ParseIdea(fields).value;
    db.InsertIdea(newId, Idea(idea.title, idea.description, idea.votes, now, now));
    r := SerializeDoc(IdeaDoc(newId, db.ideas[newId]));
  }

  /** A created idea always starts with votes = 0 and created_at = updated_at = `now` to the millisecond. */
  lemma CreatedIdeaShape(id: Oid, payload: CreateIdeaRequest, now: int)
    ensures var d := SerializedDoc(IdeaDoc(id, StoredIdea(Idea(payload.title, payload.description, 0, now, now))));
            && d["id"] == VStr(id) && d["votes"] == VInt(0)
            && d["created_at"] == d["updated_at"] == VIso(BsonTime(now))
            && d["title"] == VStr(payload.title)
  {
  }

  // GET /ideas

  /**
   * The created_at bound: 7 days back for "week", 30 for "month", none for
   * any other text; truncated to milliseconds as the query is encoded.
   */
  function Since(range: string, now: int): (r: Option<int>)
    ensures r.None? <==> range != "week" && range != "month"
    ensures r.Some? ==> var back := now - (if range == "month" then 30 else 7) * Day;
                        r.value % 1000 == 0 && r.value <= back < r.value + 1000
  {
    if range == "week" then Some(BsonTime(now - 7 * Day))
    else if range == "month" then Some(BsonTime(now - 30 * Day))
    else None
  }

  /** `x.get("votes", 0)`. */
  function VotesKey(d: Doc): seq<int> {
    [GetNum(d, "votes", 0)]
  }

  /** `x.get("comments_count", 0)`. */
  function CommentsKey(d: Doc): seq<int> {
    [GetNum(d, "comments_count", 0)]
  }

  /** "comments" sorts by comment count; any other text by votes. */
  function SortKey(sort: string): Doc -> seq<int> {
    if sort == "comments" then CommentsKey else VotesKey
  }

  /** An idea as the listing returns it: serialized, with its comment count. */
  function IdeaView(id: Oid, idea: Idea, count: nat): (d: Doc)
    ensures "id" in d && d["id"] == VStr(id)
    ensures "votes" in d && d["votes"] == VInt(idea.votes)
    ensures "comments_count" in d && d["comments_count"] == VInt(count)
  {
    SerializedDoc(IdeaDoc(id, idea))["comments_count" := VInt(count)]
  }

  /** A listed idea has exactly the seven output fields, its timestamps as ISO strings. */
  lemma IdeaViewFields(id: Oid, idea: Idea, count: nat)
    ensures var d := IdeaView(id, idea, count);
            && d.Keys == {"id", "title", "description", "votes", "created_at", "updated_at", "comments_count"}
            && d["title"] == VStr(idea.title) && d["description"] == OptionalText(idea.description)
            && d["created_at"] == VIso(idea.createdAt) && d["updated_at"] == VIso(idea.updatedAt)
  {
    var s := SerializedDoc(IdeaDoc(id, idea));
    assert s.Keys == {"id", "title", "description", "votes", "created_at", "updated_at"};
  }

  /** The listing sorts on the primary key alone. */
  lemma SortKeyOfView(id: Oid, idea: Idea, count: nat)
    ensures SortKey("votes")(IdeaView(id, idea, count)) == [idea.votes]
    ensures SortKey("comments")(IdeaView(id, idea, count)) == [count]
  {
  }

  function IdeaViews(ids: seq<Oid>, ideas: map<Oid, Idea>, cs: seq<Comment>): (r: seq<Doc>)
    requires forall id :: id in ids ==> id in ideas
    ensures |r| == |ids|
    ensures forall i :: 0 <= i < |ids| ==> r[i] == IdeaView(ids[i], ideas[ids[i]], Count(cs, ids[i]))
  {
    seq(|ids|, i requires 0 <= i < |ids| => IdeaView(ids[i], ideas[ids[i]], Count(cs, ids[i])))
  }

  lemma IdOfSerialized(id: Oid, idea: Idea)
    ensures "id" in SerializedDoc(IdeaDoc(id, idea)) && SerializedDoc(IdeaDoc(id, idea))["id"] == VStr(id)
  {
  }

  /** `counts.get(id, 0)` is the comment count of the id: ids without comments have no row. */
  lemma CountLookup(ids: seq<Oid>, cs: seq<Comment>, counts: map<string, nat>, i: int)
    requires 0 <= i < |ids|
    requires forall k :: k in counts <==> k in IdTexts(ids) && Count(cs, k) > 0
    requires forall k :: k in counts ==> counts[k] == Count(cs, k)
    ensures (if ids[i] in counts then counts[ids[i]] else 0) == Count(cs, ids[i])
  {
    assert ids[i] in IdTexts(ids);
  }

  /** One iteration of the `enriched` loop: `serialize_doc(i)` with `counts.get(s["id"], 0)`. */
  method ListedIdea(id: Oid, idea: Idea, counts: map<string, nat>) returns (view: Doc)
    ensures view == IdeaView(id, idea, if id in counts then counts[id] else 0)
  {
    var s := SerializeDoc(IdeaDoc(id, idea));
    IdOfSerialized(id, idea);
    var key := s["id"];
    var count := if key.VStr? && key.s in counts then counts[key.s] else 0;
    view := s["comments_count" := VInt(count)];
  }

  /** The `enriched` loop: each idea serialized, with `counts.get(s["id"], 0)`. */
  method Enrich(ids: seq<Oid>, ideas: map<Oid, Idea>, cs: seq<Comment>, counts: map<string, nat>)
    returns (items: seq<Doc>)
    requires forall id :: id in ids ==> id in ideas
    requires forall k :: k in counts <==> k in IdTexts(ids) && Count(cs, k) > 0
    requires forall k :: k in counts ==> counts[k] == Count(cs, k)
    ensures items == IdeaViews(ids, ideas, cs)
  {
    ghost var views := IdeaViews(ids, ideas, cs);
    items := [];
    var i := 0;
    while i < |ids|
      invariant 0 <= i <= |ids|
      invariant items == views[..i]
    {
      var id := ids[i];
      var view := ListedIdea(id, ideas[id], counts);
      assert view == views[i] by {
        CountLookup(ids, cs, counts, i);
      }
      PrefixStep(views, i);
      items := items + [view];
      i := i + 1;
    }
    assert views[..i] == views;
  }

  /** GET /ideas?range=...&sort=... */
  method ListIdeas(db: Store, range: string, sort: string, now: int) returns (r: seq<Doc>)
    requires db.Valid()
    ensures var views := IdeaViews(Selected(db.order, db.ideas, Since(range, now)), db.ideas, db.comments);
            && multiset(r) == multiset(views)
            && SortedDesc(r, SortKey(sort))
            && (forall k :: WithKey(r, SortKey(sort), k) == WithKey(views, SortKey(sort), k))
            && r == SortDesc(views, SortKey(sort))
  {
    var ideas := Selected(db.order, db.ideas, Since(range, now));
    var counts: map<string, nat> := if |ideas| > 0 then Aggregate(db.comments, IdTexts(ideas)) else map[];
    var enriched := Enrich(ideas, db.ideas, db.comments, counts);
    var key := SortKey(sort);
    SortDescSorted(enriched, key);
    forall k ensures WithKey(SortDesc(enriched, key), key, k) == WithKey(enriched, key, k) {
      SortDescStable(enriched, key, k);
    }
    r := SortDesc(enriched, key);
  }

  /** POST /ideas/{idea_id}/upvote. */
  method UpvoteIdea(db: Store, ideaId: string, now: int) returns (r: Result<Doc, Failure>)
    requires db.Valid()
    modifies db
    ensures db.Valid()
    ensures db.order == old(db.order) && db.comments == old(db.comments)
    ensures !IsValidOid(ideaId) ==> r == Err(InvalidIdeaId) && db.ideas == old(db.ideas)
    ensures IsValidOid(ideaId) ==>
              var id := ParseOid(ideaId).value;
              if id !in old(db.ideas) then
                r == Err(IdeaNotFound) && db.ideas == old(db.ideas)
              else
                && db.ideas == old(db.ideas)[id := Upvoted(old(db.ideas)[id], BsonTime(now))]
                && db.ideas[id].votes == old(db.ideas)[id].votes + 1
                && db.ideas[id].updatedAt == BsonTime(now)
                && r == Ok(SerializedDoc(IdeaDoc(id, db.ideas[id])))
  {
    var oid := ParseOid(ideaId);
    if oid.None? {
      return Err(InvalidIdeaId);
    }
    var result := db.IncrementVotes(oid.value, now);
    if result.None? {
      return Err(IdeaNotFound);
    }
    var s := SerializeDoc(IdeaDoc(oid.value, result.value));
    r := Ok(s);
  }

  /** `.sort("created_at", -1)`, applied to the stored comments before serialization. */
  function CommentKey(c: Comment): seq<int> {
    [c.createdAt]
  }

  /** A comment as the endpoints return it. */
  function CommentView(c: Comment): Doc {
    SerializedDoc(CommentDoc(c))
  }

  /** A returned comment has the six stored fields, `id` for `_id` and its timestamps as ISO strings. */
  lemma CommentViewFields(c: Comment)
    ensures var d := CommentView(c);
            && d.Keys == {"id", "idea_id", "author", "content", "created_at", "updated_at"}
            && d["id"] == VStr(c.id) && d["idea_id"] == VStr(c.ideaId)
            && d["author"] == OptionalText(c.author) && d["content"] == VStr(c.content)
            && d["created_at"] == VIso(c.createdAt) && d["updated_at"] == VIso(c.updatedAt)
  {
  }

  /** The comments as the endpoint returns them, each one serialized. */
  function CommentViews(cs: seq<Comment>): (r: seq<Doc>)
    ensures |r| == |cs|
    ensures forall i :: 0 <= i < |cs| ==> r[i] == CommentView(cs[i])
  {
    seq(|cs|, i requires 0 <= i < |cs| => CommentView(cs[i]))
  }

  /** `[serialize_doc(c) for c in comments]`. */
  method SerializeComments(cs: seq<Comment>) returns (out: seq<Doc>)
    ensures out == CommentViews(cs)
  {
    ghost var views := CommentViews(cs);
    out := [];
    var i := 0;
    while i < |cs|
      invariant 0 <= i <= |cs|
      invariant out == views[..i]
    {
      var s := SerializeDoc(CommentDoc(cs[i]));
      PrefixStep(views, i);
      out := out + [s];
      i := i + 1;
    }
    assert views[..i] == views;
  }

  /** GET /ideas/{idea_id}/comments. */
  method GetComments(db: Store, ideaId: string) returns (r: Result<seq<Doc>, Failure>)
    requires db.Valid()
    ensures !IsValidOid(ideaId) ==> r == Err(InvalidIdeaId)
    ensures IsValidOid(ideaId) ==>
              var found := SortDesc(CommentsFor(db.comments, ideaId), CommentKey);
              && r.Ok? && |r.value| == |found| == Count(db.comments, ideaId)
              && multiset(found) == multiset(CommentsFor(db.comments, ideaId))
              && SortedDesc(found, CommentKey)
              && r.value == CommentViews(found)
  {
    if ParseOid(ideaId).None? {
      return Err(InvalidIdeaId);
    }
    var comments := SortDesc(CommentsFor(db.comments, ideaId), CommentKey);
    SortDescSorted(CommentsFor(db.comments, ideaId), CommentKey);
    var out := SerializeComments(comments);
    r := Ok(out);
  }

  /** Every comment GetComments returns belongs to the idea asked for, and they come newest first. */
  lemma CommentsOfIdeaNewestFirst(cs: seq<Comment>, ideaId: string)
    ensures var found := SortDesc(CommentsFor(cs, ideaId), CommentKey);
            && (forall c :: c in found <==> c in cs && c.ideaId == ideaId)
            && (forall i, j :: 0 <= i < j < |found| ==> found[j].createdAt <= found[i].createdAt)
  {
    var found := SortDesc(CommentsFor(cs, ideaId), CommentKey);
    SortDescMembers(CommentsFor(cs, ideaId), CommentKey);
    SortDescSorted(CommentsFor(cs, ideaId), CommentKey);
    forall i, j | 0 <= i < j < |found| ensures found[j].createdAt <= found[i].createdAt {
      assert KeyLe(CommentKey(found[j]), CommentKey(found[i]));
    }
  }

  /** POST /ideas/{idea_id}/comments: 400, then 404, and only then an insert; content is stored as sent. */
  method AddComment(db: Store, ideaId: string, payload: CreateCommentRequest, now: int, newId: Oid)
    returns (r: Result<Doc, Failure>)
    requires db.Valid() && db.FreshCommentId(newId)
    modifies db
    ensures db.Valid()
    ensures db.ideas == old(db.ideas) && db.order == old(db.order)
    ensures !IsValidOid(ideaId) ==> r == Err(InvalidIdeaId) && db.comments == old(db.comments)
    ensures IsValidOid(ideaId) && ParseOid(ideaId).value !in db.ideas ==>
              r == Err(IdeaNotFound) && db.comments == old(db.comments)
    ensures IsValidOid(ideaId) && ParseOid(ideaId).value in db.ideas ==>
              var c := StoredComment(Comment(newId, ideaId, payload.author, payload.content, now, now));
              && db.comments == old(db.comments) + [c]
              && r == Ok(CommentView(c))
  {
    var oid := ParseOid(ideaId);
    if oid.None? {
      return Err(InvalidIdeaId);
    }
    if oid.value !in db.ideas {
      return Err(IdeaNotFound);
    }
    var fields := map["idea_id" := VStr(ideaId), "author" := OptionalText(payload.author),
                      "content" := VStr(payload.content)];
    RootSchemas.CommentFromArguments(ideaId, payload.author, payload.content);
    var comment := RootSchemas.ParseComment(fields).value;
    var stored := Comment(newId, comment.ideaId, comment.author, comment.content, now, now);
    db.InsertComment(stored);
    var s := SerializeDoc(CommentDoc(db.comments[|db.comments| - 1]));
    r := Ok(s);
  }

  /** Every stored idea reads back as a valid schema Idea: votes never go below 0. */
  lemma StoredIdeasMeetSchema(db: Store)
    requires db.Valid()
    ensures forall id :: id in db.ideas ==>
              RootSchemas.ParseIdea(IdeaDoc(id, db.ideas[id]))
              == Some(RootSchemas.Idea(db.ideas[id].title, db.ideas[id].description, db.ideas[id].votes))
  {
  }
}
