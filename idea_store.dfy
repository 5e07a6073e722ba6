/**
 * The two collections behind the ideas board, "idea" and "comment", and the
 * queries both service variants run against them.
 */
module IdeaStore {
  import opened Wrappers
  import opened ObjectIds
  import opened Documents
  import opened Sequences

  /** One day, in the microseconds that timestamps count; a whole number of milliseconds. */
  const Day: int := 86_400_000_000

  /** A stored idea, without its `_id` (the key it is stored under). */
  datatype Idea = Idea(
    title: string,
    description: Option<string>,
    votes: int,
    createdAt: int,
    updatedAt: int)

  /** A stored comment. `ideaId` is the text the client sent, not an ObjectId. */
  datatype Comment = Comment(
    id: Oid,
    ideaId: string,
    author: Option<string>,
    content: string,
    createdAt: int,
    updatedAt: int)

  /** An idea as the collection keeps it: both timestamps truncated to whole milliseconds. */
  function StoredIdea(idea: Idea): (r: Idea)
    ensures r.createdAt == BsonTime(idea.createdAt) && r.updatedAt == BsonTime(idea.updatedAt)
    ensures r.title == idea.title && r.description == idea.description && r.votes == idea.votes
  {
    idea.(createdAt := BsonTime(idea.createdAt), updatedAt := BsonTime(idea.updatedAt))
  }

  /** A comment as the collection keeps it: both timestamps truncated to whole milliseconds. */
  function StoredComment(c: Comment): (r: Comment)
    ensures r.createdAt == BsonTime(c.createdAt) && r.updatedAt == BsonTime(c.updatedAt)
    ensures r.id == c.id && r.ideaId == c.ideaId && r.author == c.author && r.content == c.content
  {
    c.(createdAt := BsonTime(c.createdAt), updatedAt := BsonTime(c.updatedAt))
  }

  /** The document the "idea" collection holds for `idea` under `id`. */
  function IdeaDoc(id: Oid, idea: Idea): (d: Doc)
    ensures d.Keys == {"_id", "title", "description", "votes", "created_at", "updated_at"}
    ensures d["_id"] == VOid(id) && d["votes"] == VInt(idea.votes)
    ensures d["created_at"] == VTime(idea.createdAt) && d["updated_at"] == VTime(idea.updatedAt)
  {
    map["_id" := VOid(id), "title" := VStr(idea.title),
        "description" := OptionalText(idea.description), "votes" := VInt(idea.votes),
        "created_at" := VTime(idea.createdAt), "updated_at" := VTime(idea.updatedAt)]
  }

  /** The document the "comment" collection holds for `c`. */
  function CommentDoc(c: Comment): (d: Doc)
    ensures d.Keys == {"_id", "idea_id", "author", "content", "created_at", "updated_at"}
    ensures d["_id"] == VOid(c.id) && d["idea_id"] == VStr(c.ideaId)
    ensures d["created_at"] == VTime(c.createdAt) && d["updated_at"] == VTime(c.updatedAt)
  {
    map["_id" := VOid(c.id), "idea_id" := VStr(c.ideaId),
        "author" := OptionalText(c.author), "content" := VStr(c.content),
        "created_at" := VTime(c.createdAt), "updated_at" := VTime(c.updatedAt)]
  }

  predicate Distinct<T(==)>(s: seq<T>) {
    forall i, j :: 0 <= i < j < |s| ==> s[i] != s[j]
  }

  lemma {:induction false} DistinctOccursOnce<T>(s: seq<T>, x: T)
    requires Distinct(s)
    ensures multiset(s)[x] <= 1
  {
    if s != [] {
      assert s == [s[0]] + s[1..];
      assert Distinct(s[1..]) by {
        forall i, j | 0 <= i < j < |s[1..]| ensures s[1..][i] != s[1..][j] {
          assert s[1..][i] == s[i + 1] && s[1..][j] == s[j + 1];
        }
      }
      DistinctOccursOnce(s[1..], x);
      if s[0] == x {
        assert x !in s[1..];
      }
    }
  }

  /** A reordering of a sequence without duplicates has none either. */
  lemma DistinctPermutation<T>(a: seq<T>, b: seq<T>)
    requires multiset(a) == multiset(b) && Distinct(a)
    ensures Distinct(b)
  {
    forall i, j | 0 <= i < j < |b| ensures b[i] != b[j] {
      if b[i] == b[j] {
        assert b == b[..j] + [b[j]] + b[j + 1..];
        assert b[i] in b[..j];
        assert multiset(b)[b[j]] >= 2;
        DistinctOccursOnce(a, b[j]);
        assert false;
      }
    }
  }

  /** A prefix one longer is the shorter prefix and the next element. */
  lemma PrefixStep<T>(s: seq<T>, i: int)
    requires 0 <= i < |s|
    ensures s[..i + 1] == s[..i] + [s[i]]
  {
  }

  /** `find({"idea_id": s})` over the comments, in store order. */
  function CommentsFor(cs: seq<Comment>, s: string): (r: seq<Comment>)
    ensures forall c :: c in r <==> c in cs && c.ideaId == s
    ensures |r| <= |cs|
    ensures Subsequence(r, cs)
  {
    if cs == [] then []
    else
      assert cs == cs[..|cs| - 1] + [cs[|cs| - 1]];
      SubsequenceSnoc(cs[|cs| - 1].ideaId == s, CommentsFor(cs[..|cs| - 1], s), cs[..|cs| - 1], cs[|cs| - 1]);
      CommentsFor(cs[..|cs| - 1], s) + (if cs[|cs| - 1].ideaId == s then [cs[|cs| - 1]] else [])
  }

  /** `count_documents({"idea_id": s})`. */
  function Count(cs: seq<Comment>, s: string): (n: nat)
    ensures n <= |cs|
  {
    |CommentsFor(cs, s)|
  }

  /** A count is zero exactly when no comment names the idea. */
  lemma CountZeroIff(cs: seq<Comment>, s: string)
    ensures Count(cs, s) == 0 <==> forall c :: c in cs ==> c.ideaId != s
  {
    if Count(cs, s) > 0 {
      assert CommentsFor(cs, s)[0] in CommentsFor(cs, s);
    }
  }

  /** Appending a comment adds one to its own idea's count and changes no other count. */
  lemma CountAppend(cs: seq<Comment>, c: Comment, s: string)
    ensures Count(cs + [c], s) == Count(cs, s) + (if c.ideaId == s then 1 else 0)
  {
    assert (cs + [c])[..|cs|] == cs;
  }

  /** Every count over a non-empty list is the count over all but its last comment, plus that one. */
  lemma CountLast(cs: seq<Comment>)
    requires cs != []
    ensures forall k :: Count(cs, k) == Count(cs[..|cs| - 1], k) + (if cs[|cs| - 1].ideaId == k then 1 else 0)
  {
    var init, last := cs[..|cs| - 1], cs[|cs| - 1];
    assert cs == init + [last];
    forall k ensures Count(cs, k) == Count(init, k) + (if last.ideaId == k then 1 else 0) {
      CountAppend(init, last, k);
    }
  }

  /** The `$match: {"idea_id": {"$in": keys}}` stage. */
  function MatchIn(cs: seq<Comment>, keys: set<string>): (r: seq<Comment>)
    ensures forall c :: c in r <==> c in cs && c.ideaId in keys
    ensures Subsequence(r, cs)
  {
    if cs == [] then []
    else
      var init := cs[..|cs| - 1];
      var last := cs[|cs| - 1];
      assert cs == init + [last];
      SubsequenceSnoc(last.ideaId in keys, MatchIn(init, keys), init, last);
      MatchIn(init, keys) + (if last.ideaId in keys then [last] else [])
  }

  /** The `$match` stage keeps every comment of a listed id, and none of any other id. */
  lemma {:induction false} MatchInCount(cs: seq<Comment>, keys: set<string>)
    ensures forall k :: Count(MatchIn(cs, keys), k) == if k in keys then Count(cs, k) else 0
    decreases |cs|
  {
    if cs != [] {
      var init := cs[..|cs| - 1];
      var last := cs[|cs| - 1];
      MatchInCount(init, keys);
      CountLast(cs);
      if last.ideaId in keys {
        forall k { CountAppend(MatchIn(init, keys), last, k); }
      } else {
        assert MatchIn(cs, keys) == MatchIn(init, keys);
      }
    }
  }

  /**
   * The `$group: {"_id": "$idea_id", "count": {"$sum": 1}}` stage, as one
   * pass over the comments: a row per idea_id that occurs, holding its count.
   */
  function GroupCounts(cs: seq<Comment>): (rows: map<string, nat>)
    ensures forall k :: k in rows <==> Count(cs, k) > 0
    ensures forall k :: k in rows ==> rows[k] == Count(cs, k)
  {
    if cs == [] then map[]
    else
      var init := cs[..|cs| - 1];
      var last := cs[|cs| - 1];
      var rest := GroupCounts(init);
      CountLast(cs);
      var rows := rest[last.ideaId := (if last.ideaId in rest then rest[last.ideaId] else 0) + 1];
      assert rows[last.ideaId] == Count(cs, last.ideaId);
      rows
  }

  /** The whole aggregation pipeline: the comment count of every key that has comments. */
  function Aggregate(cs: seq<Comment>, keys: set<string>): (rows: map<string, nat>)
    ensures forall k :: k in rows <==> k in keys && Count(cs, k) > 0
    ensures forall k :: k in rows ==> rows[k] == Count(cs, k)
  {
    MatchInCount(cs, keys);
    GroupCounts(MatchIn(cs, keys))
  }

  /** `[str(iid) for iid in idea_ids]`, as the set `$in` tests against. */
  function IdTexts(ids: seq<Oid>): (r: set<string>)
    ensures forall s :: s in r <==> exists id :: id in ids && s == id
  {
    set s: string | s in ids
  }

  /** The `created_at >= since` filter, or no filter when `since` is None. */
  predicate InWindow(createdAt: int, since: Option<int>) {
    since.None? || createdAt >= since.value
  }

  /** `find(filter)` on the ideas: the ids in store order whose idea passes the time filter. */
  function Selected(order: seq<Oid>, ideas: map<Oid, Idea>, since: Option<int>): (r: seq<Oid>)
    ensures forall id :: id in r <==> id in order && id in ideas && InWindow(ideas[id].createdAt, since)
    ensures Subsequence(r, order)
    ensures Distinct(order) ==> Distinct(r)
    ensures |r| <= |order|
  {
    if order == [] then []
    else
      var id := order[0];
      var rest := Selected(order[1..], ideas, since);
      assert Distinct(order) ==> id !in order[1..];
      SubsequenceCons(id in ideas && InWindow(ideas[id].createdAt, since), order, rest);
      (if id in ideas && InWindow(ideas[id].createdAt, since) then [id] else []) + rest
  }

  /** The `$inc` of votes and `$set` of updated_at that an upvote applies. */
  function Upvoted(idea: Idea, now: int): (r: Idea)
    ensures r.votes == idea.votes + 1 && r.updatedAt == now
    ensures r.title == idea.title && r.description == idea.description && r.createdAt == idea.createdAt
  {
    idea.(votes := idea.votes + 1, updatedAt := now)
  }

  /**
   * The database: ideas by id, the order in which the idea collection
   * returns them (insertion order), and the comments in insertion order.
   */
  class Store {
    var ideas: map<Oid, Idea>
    var order: seq<Oid>
    var comments: seq<Comment>

    ghost predicate Valid()
      reads this
    {
      && Distinct(order)
      && (forall id :: id in ideas <==> id in order)
      && (forall id :: id in ideas ==> ideas[id].votes >= 0)
      && (forall i, j :: 0 <= i < j < |comments| ==> comments[i].id != comments[j].id)
      && (forall id :: id in ideas ==> ideas[id].createdAt % 1000 == 0 && ideas[id].updatedAt % 1000 == 0)
      && (forall i :: 0 <= i < |comments| ==> comments[i].createdAt % 1000 == 0 && comments[i].updatedAt % 1000 == 0)
    }

    constructor ()
      ensures Valid()
      ensures ideas == map[] && order == [] && comments == []
    {
      ideas, order, comments := map[], [], [];
    }

    /** No stored comment has this id: what the driver's fresh ObjectId guarantees. */
    predicate FreshCommentId(id: Oid)
      reads this
    {
      forall c :: c in comments ==> c.id != id
    }

    /** `insert_one` on the idea collection. */
    method InsertIdea(id: Oid, idea: Idea)
      requires Valid()
      requires id !in ideas && idea.votes >= 0
      modifies this
      ensures Valid()
      ensures ideas == old(ideas)[id := StoredIdea(idea)]
      ensures order == old(order) + [id]
      ensures comments == old(comments)
    {
      ideas := ideas[id := StoredIdea(idea)];
      order := order + [id];
    }

    /**
     * `find_one_and_update({"_id": id}, {"$inc": {"votes": 1}, "$set":
     * {"updated_at": now}}, return_document=True)`, one atomic step.
     */
    method IncrementVotes(id: Oid, now: int) returns (r: Option<Idea>)
      requires Valid()
      modifies this
      ensures Valid()
      ensures id !in old(ideas) ==> r.None? && ideas == old(ideas)
      ensures id in old(ideas) ==>
                r == Some(Upvoted(old(ideas)[id], BsonTime(now))) && ideas == old(ideas)[id := r.value]
      ensures order == old(order) && comments == old(comments)
    {
      if id in ideas {
        var updated := Upvoted(ideas[id], BsonTime(now));
        ideas := ideas[id := updated];
        r := Some(updated);
      } else {
        r := None;
      }
    }

    /** `insert_one` on the comment collection. */
    method InsertComment(c: Comment)
      requires Valid() && FreshCommentId(c.id)
      modifies this
      ensures Valid()
      ensures comments == old(comments) + [StoredComment(c)]
      ensures ideas == old(ideas) && order == old(order)
    {
      comments := comments + [StoredComment(c)];
    }
  }
}
