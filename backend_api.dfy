/**
 * The backend service variant: its id validation, its serializer, its
 * request models and its five endpoints over the idea and comment
 * collections.
 */
module BackendApi {
  import opened Wrappers
  import opened ObjectIds
  import opened Documents
  import opened Errors
  import opened Text
  import opened Sorting
  import opened IdeaStore
  import BackendDatabase

  const InvalidObjectId := ValueError("Invalid ObjectId")

  /** `PyObjectId.validate(v)`: an ObjectId passes as it is, anything else is parsed from `str(v)`. */
  function ValidateObjectId(v: Value): (r: Result<Oid, PyError>)
    ensures v.VOid? ==> r == Ok(v.oid)
    ensures !v.VOid? ==> (r.Ok? <==> IsValidOid(Str(v)))
    ensures !v.VOid? && r.Ok? ==> r.value == LowerHex(Str(v))
    ensures r.Err? ==> r.error == InvalidObjectId
  {
    if v.VOid? then Ok(v.oid)
    else
      match ParseOid(Str(v))
      case Some(o) => Ok(o)
      case None => Err(InvalidObjectId)
  }

  /** Validating the text of an id yields that id. */
  lemma ValidateIdText(o: Oid)
    ensures ValidateObjectId(VStr(o)) == Ok(o)
  {
    ParseOidOfText(o);
  }

  /**
   * `serialize_id(doc)`: None and {} come back as they are; any other
   * document must hold `_id`, which is replaced by `id` = str(_id) in a copy.
   */
  function SerializeId(doc: Option<Doc>): (r: Result<Option<Doc>, PyError>)
    ensures doc.None? || doc == Some(map[]) ==> r == Ok(doc)
    ensures doc.Some? && doc.value != map[] && "_id" !in doc.value ==> r == Err(KeyError("_id"))
    ensures doc.Some? && "_id" in doc.value ==>
              && r.Ok? && r.value.Some?
              && "_id" !in r.value.value && "id" in r.value.value
              && r.value.value["id"] == VStr(Str(doc.value["_id"]))
              && (forall k :: k in r.value.value <==> k == "id" || (k in doc.value && k != "_id"))
              && (forall k :: k in doc.value && k != "_id" && k != "id" ==> r.value.value[k] == doc.value[k])
  {
    match doc
    case None => Ok(None)
    case Some(d) =>
      if d == map[] then Ok(doc)
      else if "_id" in d then Ok(Some(RenameId(d)))
      else Err(KeyError("_id"))
  }

  /**
   * On a stored document, which always has `_id`, serialize_id and the
   * database helpers' `_serialize` agree; they differ only on `{}`, which
   * `_serialize` returns unchanged, and on a non-empty document without
   * `_id`, where serialize_id raises.
   */
  lemma SerializersAgreeOnStoredDocs(d: Doc)
    ensures "_id" in d ==> SerializeId(Some(d)) == Ok(BackendDatabase.Serialize(Some(d)))
    ensures d != map[] && "_id" !in d ==>
              SerializeId(Some(d)).Err? && BackendDatabase.Serialize(Some(d)) == Some(d)
  {
  }

  /** A stored document after `serialize_id`. */
  function Serialized(d: Doc): Doc
    requires "_id" in d
  {
    SerializeId(Some(d)).value.value
  }

  // Request bodies and their declared constraints, checked on the text as sent.

  datatype IdeaCreate = IdeaCreate(title: string, description: Option<string>)

  datatype CommentCreate = CommentCreate(author: Option<string>, content: string)

  predicate IdeaCreateValid(p: IdeaCreate) {
    && 1 <= |p.title| <= 200
    && (p.description.None? || |p.description.value| <= 2000)
  }

  predicate CommentCreateValid(p: CommentCreate) {
    && (p.author.None? || |p.author.value| <= 100)
    && 1 <= |p.content| <= 2000
  }

  /** `x.strip() if x else None`: None and "" become None. */
  function StripOptional(x: Option<string>): (r: Option<string>)
    ensures x.None? || x == Some("") ==> r.None?
    ensures x.Some? && x.value != "" ==> r == Some(Strip(x.value))
  {
    if x.None? || x.value == "" then None else Some(Strip(x.value))
  }

  /** The document create_idea inserts: stripped text, no votes, both timestamps `now`. */
  function NewIdea(p: IdeaCreate, now: int): (r: Idea)
    ensures r.title == Strip(p.title) && r.description == StripOptional(p.description)
    ensures r.votes == 0 && r.createdAt == now && r.updatedAt == now
  {
    Idea(Strip(p.title), StripOptional(p.description), 0, now, now)
  }

  /** The document add_comment inserts: stripped text, both timestamps `now`. */
  function NewComment(id: Oid, ideaId: string, p: CommentCreate, now: int): (r: Comment)
    ensures r.id == id && r.ideaId == ideaId
    ensures r.author == StripOptional(p.author) && r.content == Strip(p.content)
    ensures r.createdAt == now && r.updatedAt == now
  {
    Comment(id, ideaId, StripOptional(p.author), Strip(p.content), now, now)
  }

  /** An idea as the endpoints return it: serialized, with its comment count. */
  function IdeaView(id: Oid, idea: Idea, count: nat): (d: Doc)
    ensures "id" in d && d["id"] == VStr(id)
    ensures "votes" in d && d["votes"] == VInt(idea.votes)
    ensures "comments_count" in d && d["comments_count"] == VInt(count)
    ensures "created_at" in d && d["created_at"] == VTime(idea.createdAt)
  {
    var s := Serialized(IdeaDoc(id, idea));
    assert s.Keys == {"id", "title", "description", "votes", "created_at", "updated_at"};
    s["comments_count" := VInt(count)]
  }

  /** The returned idea has exactly the seven output fields, holding the stored values. */
  lemma IdeaViewFields(id: Oid, idea: Idea, count: nat)
    ensures var d := IdeaView(id, idea, count);
            && d.Keys == {"id", "title", "description", "votes", "created_at", "updated_at", "comments_count"}
            && d["title"] == VStr(idea.title) && d["description"] == OptionalText(idea.description)
            && d["updated_at"] == VTime(idea.updatedAt)
  {
    var s := Serialized(IdeaDoc(id, idea));
    assert s.Keys == {"id", "title", "description", "votes", "created_at", "updated_at"};
  }

  /** A comment as the endpoints return it. */
  function CommentView(c: Comment): (d: Doc)
    ensures "id" in d && d["id"] == VStr(c.id)
    ensures "idea_id" in d && d["idea_id"] == VStr(c.ideaId)
  {
    var stored := CommentDoc(c);
    assert "idea_id" in stored && stored["idea_id"] == VStr(c.ideaId);
    Serialized(stored)
  }

  /** The returned comment has exactly the six output fields, holding the stored values. */
  lemma CommentViewFields(c: Comment)
    ensures var d := CommentView(c);
            && d.Keys == {"id", "idea_id", "author", "content", "created_at", "updated_at"}
            && d["author"] == OptionalText(c.author) && d["content"] == VStr(c.content)
            && d["created_at"] == VTime(c.createdAt) && d["updated_at"] == VTime(c.updatedAt)
  {
    var s := Serialized(CommentDoc(c));
    assert s.Keys == {"id", "idea_id", "author", "content", "created_at", "updated_at"};
  }

  /** POST /ideas. */
  method CreateIdea(db: Store, payload: IdeaCreate, now: int, newId: Oid) returns (r: Result<Doc, Failure>)
    requires db.Valid() && newId !in db.ideas
    modifies db
    ensures db.Valid() && db.comments == old(db.comments)
    ensures !IdeaCreateValid(payload) ==>
              r == Err(RequestValidationError) && db.ideas == old(db.ideas) && db.order == old(db.order)
    ensures IdeaCreateValid(payload) ==>
              && db.ideas == old(db.ideas)[newId := StoredIdea(NewIdea(payload, now))]
              && db.order == old(db.order) + [newId]
              && r == Ok(IdeaView(newId, StoredIdea(NewIdea(payload, now)), 0))
  {
    if !IdeaCreateValid(payload) {
      return Err(RequestValidationError);
    }
    var doc := NewIdea(payload, now);
    db.InsertIdea(newId, doc);
    var saved := db.ideas[newId];
    var serialized := SerializeId(Some(IdeaDoc(newId, saved))).value.value;
    r := Ok(serialized["comments_count" := VInt(0)]);
  }

  // GET /ideas

  datatype Range = All | Month | Week

  datatype SortBy = Votes | Comments

  /** `Literal["all", "month", "week"]`. */
  function ParseRange(s: string): (r: Option<Range>)
    ensures r.Some? <==> s in {"all", "month", "week"}
    ensures r == Some(All) <==> s == "all"
    ensures r == Some(Month) <==> s == "month"
    ensures r == Some(Week) <==> s == "week"
  {
    if s == "all" then Some(All)
    else if s == "month" then Some(Month)
    else if s == "week" then Some(Week)
    else None
  }

  /** `Literal["votes", "comments"]`. */
  function ParseSort(s: string): (r: Option<SortBy>)
    ensures r.Some? <==> s in {"votes", "comments"}
    ensures r == Some(Votes) <==> s == "votes"
    ensures r == Some(Comments) <==> s == "comments"
  {
    if s == "votes" then Some(Votes)
    else if s == "comments" then Some(Comments)
    else None
  }

  /**
   * The lower bound on created_at: none for all, 30 days back for month, 7
   * days back otherwise, truncated to milliseconds as the query is encoded.
   */
  function Since(range: Range, now: int): (r: Option<int>)
    ensures r.None? <==> range == All
    ensures r.Some? ==> var back := now - (if range == Month then 30 else 7) * Day;
                        r.value % 1000 == 0 && r.value <= back < r.value + 1000
  {
    if range == All then None
    else if range == Month then Some(BsonTime(now - 30 * Day))
    else Some(BsonTime(now - 7 * Day))
  }

  /** `x["created_at"]`; listed documents always carry it. */
  function CreatedAt(d: Doc): int {
    GetNum(d, "created_at", 0)
  }

  /** `(x.get("votes", 0), x["created_at"])`. */
  function VotesKey(d: Doc): seq<int> {
    [GetNum(d, "votes", 0), CreatedAt(d)]
  }

  /** `(x.get("comments_count", 0), x["created_at"])`. */
  function CommentsKey(d: Doc): seq<int> {
    [GetNum(d, "comments_count", 0), CreatedAt(d)]
  }

  function SortKey(sort: SortBy): Doc -> seq<int> {
    if sort == Votes then VotesKey else CommentsKey
  }

  /** The listing sorts ideas by (votes, created_at) or (comments_count, created_at). */
  lemma SortKeyOfView(id: Oid, idea: Idea, count: nat)
    ensures SortKey(Votes)(IdeaView(id, idea, count)) == [idea.votes, idea.createdAt]
    ensures SortKey(Comments)(IdeaView(id, idea, count)) == [count, idea.createdAt]
  {
  }

  /** The views of the given ideas, in the given order, each with its comment count. */
  function IdeaViews(ids: seq<Oid>, ideas: map<Oid, Idea>, cs: seq<Comment>): (r: seq<Doc>)
    requires forall id :: id in ids ==> id in ideas
    ensures |r| == |ids|
    ensures forall i :: 0 <= i < |ids| ==> r[i] == IdeaView(ids[i], ideas[ids[i]], Count(cs, ids[i]))
  {
    seq(|ids|, i requires 0 <= i < |ids| => IdeaView(ids[i], ideas[ids[i]], Count(cs, ids[i])))
  }

  /** Recording the row of `key` keeps the row loop's invariant with `key` no longer pending. */
  lemma CountsStep(ids: seq<Oid>, rows: map<string, nat>, start: map<Oid, nat>, counts: map<Oid, nat>,
                   pending: set<string>, key: Oid)
    requires key in pending && key in ids && pending <= rows.Keys
    requires forall id :: id in start <==> id in ids
    requires forall id :: id in counts <==> id in ids
    requires forall id :: id in counts ==> counts[id] == if id in rows && id !in pending then rows[id] else start[id]
    ensures forall id :: id in counts[key := rows[key]] <==> id in ids
    ensures forall id :: id in counts[key := rows[key]] ==>
              counts[key := rows[key]][id] == if id in rows && id !in pending - {key} then rows[id] else start[id]
  {
  }

  /**
   * The `for row in aggregate(...)` loop: each row whose key parses back to
   * an ObjectId overwrites the count of that id (rows that do not parse are skipped).
   */
  method ApplyRows(ids: seq<Oid>, start: map<Oid, nat>, rows: map<string, nat>) returns (counts: map<Oid, nat>)
    requires forall id :: id in start <==> id in ids
    requires forall k :: k in rows ==> k in IdTexts(ids)
    ensures forall id :: id in counts <==> id in ids
    ensures forall id :: id in counts ==> counts[id] == if id in rows then rows[id] else start[id]
  {
    counts := start;
    var pending := rows.Keys;
    while pending != {}
      invariant pending <= rows.Keys
      invariant forall id :: id in counts <==> id in ids
      invariant forall id :: id in counts ==> counts[id] == if id in rows && id !in pending then rows[id] else start[id]
      decreases pending
    {
      var key :| key in pending;
      assert IsOidText(key) && key in IdTexts(ids);
      ParseOidOfText(key);
      var parsed := ParseOid(key);
      if parsed.Some? {
        assert parsed.value == key;
        CountsStep(ids, rows, start, counts, pending, parsed.value);
        counts := counts[parsed.value := rows[parsed.value]];
      }
      pending := pending - {key};
    }
  }

  /**
   * The `counts` dictionary of list_ideas: 0 for every listed id, then the
   * aggregated count for each row of the pipeline.
   */
  method CountComments(ids: seq<Oid>, cs: seq<Comment>) returns (counts: map<Oid, nat>)
    ensures forall id :: id in counts <==> id in ids
    ensures forall id :: id in counts ==> counts[id] == Count(cs, id)
  {
    counts := map id | id in ids :: 0;
    if |ids| > 0 {
      var rows := Aggregate(cs, IdTexts(ids));
      counts := ApplyRows(ids, counts, rows);
      assert forall id :: id in counts ==> id in IdTexts(ids);
    }
  }

  /** `counts.get(i["_id"], 0)` is the idea's number of comments. */
  lemma CountLookup(ids: seq<Oid>, cs: seq<Comment>, counts: map<Oid, nat>, i: int)
    requires 0 <= i < |ids|
    requires forall id :: id in counts <==> id in ids
    requires forall id :: id in counts ==> counts[id] == Count(cs, id)
    ensures ids[i] in counts && counts[ids[i]] == Count(cs, ids[i])
  {
  }

  /** The `items` loop of list_ideas: each listed idea serialized, with `counts.get(_id, 0)`. */
  method Enrich(ids: seq<Oid>, ideas: map<Oid, Idea>, cs: seq<Comment>, counts: map<Oid, nat>)
    returns (items: seq<Doc>)
    requires forall id :: id in ids ==> id in ideas
    requires forall id :: id in counts <==> id in ids
    requires forall id :: id in counts ==> counts[id] == Count(cs, id)
    ensures items == IdeaViews(ids, ideas, cs)
  {
    ghost var views := IdeaViews(ids, ideas, cs);
    items := [];
    var i := 0;
    while i < |ids|
      invariant 0 <= i <= |ids|
      invariant items == views[..i]
    {
      var id := ids[i];
      var count := if id in counts then counts[id] else 0;
      var s := SerializeId(Some(IdeaDoc(id, ideas[id]))).value.value;
      var view := s["comments_count" := VInt(count)];
      assert view == views[i] by {
        CountLookup(ids, cs, counts, i);
      }
      PrefixStep(views, i);
      items := items + [view];
      i := i + 1;
    }
    assert views[..i] == views;
  }

  /** GET /ideas?range=...&sort=... */
  method ListIdeas(db: Store, range: string, sort: string, now: int) returns (r: Result<seq<Doc>, Failure>)
    requires db.Valid()
    ensures ParseRange(range).None? || ParseSort(sort).None? ==> r == Err(RequestValidationError)
    ensures ParseRange(range).Some? && ParseSort(sort).Some? ==>
              var views := IdeaViews(Selected(db.order, db.ideas, Since(ParseRange(range).value, now)), db.ideas, db.comments);
              && r.Ok?
              && multiset(r.value) == multiset(views)
              && SortedDesc(r.value, SortKey(ParseSort(sort).value))
              && r.value == SortDesc(views, SortKey(ParseSort(sort).value))
  {
    var rangeArg, sortArg := ParseRange(range), ParseSort(sort);
    if rangeArg.None? || sortArg.None? {
      return Err(RequestValidationError);
    }
    var ideas := Selected(db.order, db.ideas, Since(rangeArg.value, now));
    var counts := CountComments(ideas, db.comments);
    var items := Enrich(ideas, db.ideas, db.comments, counts);
    var key := SortKey(sortArg.value);
    SortDescSorted(items, key);
    r := Ok(SortDesc(items, key));
  }

  /** POST /ideas/{idea_id}/upvote. */
  method UpvoteIdea(db: Store, ideaId: string, now: int) returns (r: Result<Doc, Failure>)
    requires db.Valid()
    modifies db
    ensures db.Valid()
    ensures db.order == old(db.order) && db.comments == old(db.comments)
    ensures !IsValidOid(ideaId) ==> r == Err(Uncaught(InvalidObjectId)) && db.ideas == old(db.ideas)
    ensures IsValidOid(ideaId) ==>
              var id := ParseOid(ideaId).value;
              if id !in old(db.ideas) then
                r == Err(IdeaNotFound) && db.ideas == old(db.ideas)
              else
                && db.ideas == old(db.ideas)[id := Upvoted(old(db.ideas)[id], BsonTime(now))]
                && db.ideas[id].votes == old(db.ideas)[id].votes + 1
                && db.ideas[id].updatedAt == BsonTime(now)
                && r == Ok(IdeaView(id, db.ideas[id], Count(db.comments, ideaId)))
  {
    var validated := ValidateObjectId(VStr(ideaId));
    if validated.Err? {
      return Err(Uncaught(validated.error));
    }
    var res := db.IncrementVotes(validated.value, now);
    if res.None? {
      return Err(IdeaNotFound);
    }
    var count := Count(db.comments, ideaId);
    var s := SerializeId(Some(IdeaDoc(validated.value, res.value))).value.value;
    r := Ok(s["comments_count" := VInt(count)]);
  }

  /** `[created_at]`: the key of `.sort("created_at", DESCENDING)`. */
  function CreatedKey(d: Doc): seq<int> {
    [CreatedAt(d)]
  }

  function CommentViews(cs: seq<Comment>): (r: seq<Doc>)
    ensures |r| == |cs|
    ensures forall i :: 0 <= i < |cs| ==> r[i] == CommentView(cs[i])
  {
    seq(|cs|, i requires 0 <= i < |cs| => CommentView(cs[i]))
  }

  /** Distinct ids give distinct views. */
  lemma ViewsDistinct(ids: seq<Oid>, ideas: map<Oid, Idea>, cs: seq<Comment>)
    requires forall id :: id in ids ==> id in ideas
    requires Distinct(ids)
    ensures Distinct(IdeaViews(ids, ideas, cs))
  {
    var views := IdeaViews(ids, ideas, cs);
    forall i, j | 0 <= i < j < |views| ensures views[i] != views[j] {
      assert views[i]["id"] == VStr(ids[i]) && views[j]["id"] == VStr(ids[j]);
    }
  }

  /** The views are exactly those of the selected ideas, each with its own comment count. */
  lemma ViewsOfIds(ids: seq<Oid>, ideas: map<Oid, Idea>, cs: seq<Comment>)
    requires forall id :: id in ids ==> id in ideas
    ensures forall id :: id in ids ==> IdeaView(id, ideas[id], Count(cs, id)) in IdeaViews(ids, ideas, cs)
    ensures forall d :: d in IdeaViews(ids, ideas, cs) ==>
              exists id :: id in ids && d == IdeaView(id, ideas[id], Count(cs, id))
  {
    var views := IdeaViews(ids, ideas, cs);
    forall id | id in ids ensures IdeaView(id, ideas[id], Count(cs, id)) in views {
      var i :| 0 <= i < |ids| && ids[i] == id;
      assert views[i] in views;
    }
    forall d | d in views ensures exists id :: id in ids && d == IdeaView(id, ideas[id], Count(cs, id)) {
      var i :| 0 <= i < |views| && views[i] == d;
      assert ids[i] in ids;
    }
  }

  /** The listing holds one entry per selected idea, each with its own comment count. */
  lemma ListingOnePerIdea(ids: seq<Oid>, ideas: map<Oid, Idea>, cs: seq<Comment>, key: Doc -> seq<int>)
    requires forall id :: id in ids ==> id in ideas
    requires Distinct(ids)
    ensures var r := SortDesc(IdeaViews(ids, ideas, cs), key);
            && |r| == |ids|
            && (forall id :: id in ids ==> IdeaView(id, ideas[id], Count(cs, id)) in r)
            && (forall d :: d in r ==> exists id :: id in ids && d == IdeaView(id, ideas[id], Count(cs, id)))
            && Distinct(r)
  {
    var views := IdeaViews(ids, ideas, cs);
    SortDescMembers(views, key);
    ViewsOfIds(ids, ideas, cs);
    ViewsDistinct(ids, ideas, cs);
    DistinctPermutation(views, SortDesc(views, key));
  }

  /**
   * Equal votes fall back to created_at, newest first: A (5 votes, created
   * at 1), B (5 votes, created at 2) and C (3 votes) list as B, A, C.
   */
  lemma TieBreakOnCreatedAt<T>(A: T, B: T, C: T, key: T -> seq<int>)
    requires key(A) == [5, 1] && key(B) == [5, 2] && key(C) == [3, 3]
    ensures SortDesc([A, B, C], key) == [B, A, C]
  {
    ExampleKeyOrder();
    var sc := SortDesc([C], key);
    SortDescCons([C], key);
    InsertFront(C, [], key);
    assert sc == [C];
    var sbc := SortDesc([B, C], key);
    SortDescCons([B, C], key);
    InsertFront(B, [C], key);
    assert sbc == [B, C];
    SortDescCons([A, B, C], key);
    InsertPast(A, [B, C], key);
    InsertFront(A, [C], key);
  }

  /** How the three keys of the example compare as tuples. */
  lemma ExampleKeyOrder()
    ensures KeyLe([3, 3], [5, 2]) && KeyLe([3, 3], [5, 1]) && !KeyLe([5, 2], [5, 1])
  {
    assert [5, 2][1..] == [2] && [5, 1][1..] == [1];
  }

  /** The week window keeps an idea created 6 days ago and drops one created 8 days ago. */
  lemma WeekWindow(now: int, a: Oid, b: Oid, older: Idea, newer: Idea)
    requires a != b && older.createdAt == now - 8 * Day && newer.createdAt == now - 6 * Day
    ensures Selected([a, b], map[a := older, b := newer], Since(Week, now)) == [b]
  {
    assert [a, b][1..] == [b] && [b][1..] == [];
  }

  /**
   * A created idea: votes 0, comments_count 0, created_at = updated_at =
   * `now` to the millisecond, the title stripped, and a description that is
   * absent or empty stored as None.
   */
  lemma CreatedIdeaShape(id: Oid, p: IdeaCreate, now: int)
    ensures var d := IdeaView(id, StoredIdea(NewIdea(p, now)), 0);
            && d["votes"] == VInt(0) && d["comments_count"] == VInt(0)
            && d["created_at"] == d["updated_at"] == VTime(BsonTime(now))
            && d["title"] == VStr(Strip(p.title))
            && (p.description.None? || p.description == Some("") ==> d["description"] == VNull)
            && (p.description.Some? && p.description.value != "" ==>
                  d["description"] == VStr(Strip(p.description.value)))
  {
    IdeaViewFields(id, StoredIdea(NewIdea(p, now)), 0);
  }

  /** Title lengths 0 and 201 are refused, 1 and 200 accepted. */
  lemma TitleLengthBoundary(t1: string, t200: string, t201: string)
    requires |t1| == 1 && |t200| == 200 && |t201| == 201
    ensures !IdeaCreateValid(IdeaCreate("", None))
    ensures IdeaCreateValid(IdeaCreate(t1, None)) && IdeaCreateValid(IdeaCreate(t200, None))
    ensures !IdeaCreateValid(IdeaCreate(t201, None))
  {
  }

  /** Content lengths 0 and 2001 are refused, 1 and 2000 accepted; an author may be 100 long but not 101. */
  lemma CommentLengthBoundary(c1: string, c2000: string, c2001: string, a100: string, a101: string)
    requires |c1| == 1 && |c2000| == 2000 && |c2001| == 2001 && |a100| == 100 && |a101| == 101
    ensures !CommentCreateValid(CommentCreate(None, ""))
    ensures CommentCreateValid(CommentCreate(None, c1)) && CommentCreateValid(CommentCreate(Some(a100), c2000))
    ensures !CommentCreateValid(CommentCreate(None, c2001)) && !CommentCreateValid(CommentCreate(Some(a101), c1))
  {
  }

  /**
   * After one comment on an idea that had none, the listing shows a count of
   * 1 for that idea and leaves every other idea's count as it was.
   */
  lemma CommentShowsInListing(ids: seq<Oid>, ideas: map<Oid, Idea>, cs: seq<Comment>, c: Comment)
    requires forall id :: id in ids ==> id in ideas
    requires Count(cs, c.ideaId) == 0
    ensures forall i :: 0 <= i < |ids| ==>
              IdeaViews(ids, ideas, cs + [c])[i]["comments_count"]
              == VInt(if ids[i] == c.ideaId then 1 else Count(cs, ids[i]))
  {
    forall i | 0 <= i < |ids| ensures Count(cs + [c], ids[i]) == if ids[i] == c.ideaId then 1 else Count(cs, ids[i]) {
      CountAppend(cs, c, ids[i]);
    }
  }

  /** A title of spaces passes the length check and is stored as the empty string. */
  lemma WhitespaceTitleStoredEmpty(now: int)
    ensures IdeaCreateValid(IdeaCreate("   ", None))
    ensures NewIdea(IdeaCreate("   ", None), now).title == ""
  {
    StripEmptyIff("   ");
  }

  /** Every view of a comment found for `ideaId` names that idea. */
  lemma ViewsOfIdea(cs: seq<Comment>, ideaId: string)
    ensures forall d :: d in CommentViews(CommentsFor(cs, ideaId)) ==> "idea_id" in d && d["idea_id"] == VStr(ideaId)
  {
    var matching := CommentsFor(cs, ideaId);
    var views := CommentViews(matching);
    forall i | 0 <= i < |views| ensures views[i]["idea_id"] == VStr(ideaId) {
      assert matching[i] in matching;
    }
  }

  /**
   * GET /ideas/{idea_id}/comments: the comments whose idea_id is exactly the
   * text given, newest first. No check that the idea exists.
   */
  function ListComments(db: Store, ideaId: string): (r: seq<Doc>)
    reads db
    ensures |r| == Count(db.comments, ideaId)
    ensures multiset(r) == multiset(CommentViews(CommentsFor(db.comments, ideaId)))
    ensures SortedDesc(r, CreatedKey)
    ensures forall d :: d in r ==> "idea_id" in d && d["idea_id"] == VStr(ideaId)
  {
    var views := CommentViews(CommentsFor(db.comments, ideaId));
    ViewsOfIdea(db.comments, ideaId);
    SortDescSorted(views, CreatedKey);
    SortDescMembers(views, CreatedKey);
    SortDesc(views, CreatedKey)
  }

  /** POST /ideas/{idea_id}/comments. */
  method AddComment(db: Store, ideaId: string, payload: CommentCreate, now: int, newId: Oid)
    returns (r: Result<Doc, Failure>)
    requires db.Valid() && db.FreshCommentId(newId)
    modifies db
    ensures db.Valid()
    ensures db.ideas == old(db.ideas) && db.order == old(db.order)
    ensures !CommentCreateValid(payload) ==> r == Err(RequestValidationError) && db.comments == old(db.comments)
    ensures CommentCreateValid(payload) && !IsValidOid(ideaId) ==>
              r == Err(Uncaught(InvalidObjectId)) && db.comments == old(db.comments)
    ensures CommentCreateValid(payload) && IsValidOid(ideaId) && ParseOid(ideaId).value !in db.ideas ==>
              r == Err(IdeaNotFound) && db.comments == old(db.comments)
    ensures CommentCreateValid(payload) && IsValidOid(ideaId) && ParseOid(ideaId).value in db.ideas ==>
              && db.comments == old(db.comments) + [StoredComment(NewComment(newId, ideaId, payload, now))]
              && r == Ok(CommentView(StoredComment(NewComment(newId, ideaId, payload, now))))
  {
    if !CommentCreateValid(payload) {
      return Err(RequestValidationError);
    }
    var validated := ValidateObjectId(VStr(ideaId));
    if validated.Err? {
      return Err(Uncaught(validated.error));
    }
    if validated.value !in db.ideas {
      return Err(IdeaNotFound);
    }
    var doc := NewComment(newId, ideaId, payload, now);
    db.InsertComment(doc);
    var saved := db.comments[|db.comments| - 1];
    r := Ok(SerializeId(Some(CommentDoc(saved))).value.value);
  }
}
