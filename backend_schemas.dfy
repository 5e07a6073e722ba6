/**
 * The pydantic models of the backend package's schema module: an Idea or a
 * Comment built from a dictionary, with the declared defaults and length
 * bounds.
 */
module BackendSchemas {
  import opened Wrappers
  import opened Documents

  datatype Idea = Idea(title: string, description: Option<string>, votes: int, createdAt: int, updatedAt: int)

  datatype Comment = Comment(ideaId: string, author: Option<string>, content: string, createdAt: int, updatedAt: int)

  /** `title: str = Field(min_length=1, max_length=200)`. */
  predicate TitleOk(title: string) {
    1 <= |title| <= 200
  }

  /** `description: Optional[str] = Field(default=None, max_length=2000)`. */
  predicate DescriptionOk(description: Option<string>) {
    description.None? || |description.value| <= 2000
  }

  /** `author: Optional[str] = Field(default=None, max_length=100)`. */
  predicate AuthorOk(author: Option<string>) {
    author.None? || |author.value| <= 100
  }

  /** `content: str = Field(min_length=1, max_length=2000)`. */
  predicate ContentOk(content: string) {
    1 <= |content| <= 2000
  }

  /** `Idea(**d)`: the model, or None where pydantic raises a ValidationError. */
  function ParseIdea(d: Doc): (r: Option<Idea>)
    ensures r.Some? ==> TitleOk(r.value.title) && DescriptionOk(r.value.description)
  {
    match (RequiredText(d, "title"), OptionalTextField(d, "description"), IntFieldOr(d, "votes", 0),
           RequiredTime(d, "created_at"), RequiredTime(d, "updated_at"))
    case (Some(title), Some(description), Some(votes), Some(createdAt), Some(updatedAt)) =>
      if TitleOk(title) && DescriptionOk(description)
      then Some(Idea(title, description, votes, createdAt, updatedAt))
      else None
    case _ => None
  }

  /** `Comment(**d)`: the model, or None where pydantic raises a ValidationError. */
  function ParseComment(d: Doc): (r: Option<Comment>)
    ensures r.Some? ==> AuthorOk(r.value.author) && ContentOk(r.value.content)
  {
    match (RequiredText(d, "idea_id"), OptionalTextField(d, "author"), RequiredText(d, "content"),
           RequiredTime(d, "created_at"), RequiredTime(d, "updated_at"))
    case (Some(ideaId), Some(author), Some(content), Some(createdAt), Some(updatedAt)) =>
      if AuthorOk(author) && ContentOk(content)
      then Some(Comment(ideaId, author, content, createdAt, updatedAt))
      else None
    case _ => None
  }

  /** An Idea is accepted exactly when every field meets its declaration. */
  lemma ParseIdeaIff(d: Doc)
    ensures ParseIdea(d).Some? <==>
              && "title" in d && IsText(d["title"]) && 1 <= |Str(d["title"])| <= 200
              && ("description" !in d || d["description"].VNull?
                  || (IsText(d["description"]) && |Str(d["description"])| <= 2000))
              && ("votes" !in d || d["votes"].VInt? || (d["votes"].VStr? && DecimalText(d["votes"].s)))
              && "created_at" in d && (d["created_at"].VTime? || d["created_at"].VIso? || (d["created_at"].VInt? && UnixInRange(d["created_at"].i)))
              && "updated_at" in d && (d["updated_at"].VTime? || d["updated_at"].VIso? || (d["updated_at"].VInt? && UnixInRange(d["updated_at"].i)))
  {
  }

  /**
   * Absent fields take their declared defaults; votes have no lower bound;
   * a decimal string counts as its number and a Unix timestamp as its instant.
   */
  lemma IdeaDefaults(d: Doc)
    requires ParseIdea(d).Some?
    ensures "description" !in d ==> ParseIdea(d).value.description.None?
    ensures "votes" !in d ==> ParseIdea(d).value.votes == 0
    ensures "votes" in d && d["votes"].VInt? ==> ParseIdea(d).value.votes == d["votes"].i
    ensures "votes" in d && d["votes"].VStr? ==> ParseIdea(d).value.votes == DecimalValue(d["votes"].s)
    ensures d["created_at"].VInt? ==> ParseIdea(d).value.createdAt == UnixInstant(d["created_at"].i)
    ensures !d["created_at"].VInt? ==> ParseIdea(d).value.createdAt == d["created_at"].t
  {
  }

  /** A Comment is accepted exactly when every field meets its declaration. */
  lemma ParseCommentIff(d: Doc)
    ensures ParseComment(d).Some? <==>
              && "idea_id" in d && IsText(d["idea_id"])
              && ("author" !in d || d["author"].VNull?
                  || (IsText(d["author"]) && |Str(d["author"])| <= 100))
              && "content" in d && IsText(d["content"]) && 1 <= |Str(d["content"])| <= 2000
              && "created_at" in d && (d["created_at"].VTime? || d["created_at"].VIso? || (d["created_at"].VInt? && UnixInRange(d["created_at"].i)))
              && "updated_at" in d && (d["updated_at"].VTime? || d["updated_at"].VIso? || (d["updated_at"].VInt? && UnixInRange(d["updated_at"].i)))
  {
  }

  /** Any Python str is a `str`: a datetime's ISO text passes as a title and as comment content. */
  lemma IsoTextAccepted(t: int)
    requires -100_000_000_000_000_000 < t < 1_000_000_000_000_000_000
    ensures ParseIdea(map["title" := VIso(t), "created_at" := VTime(0), "updated_at" := VTime(0)])
            == Some(Idea(Str(VIso(t)), None, 0, 0, 0))
    ensures ParseComment(map["idea_id" := VIso(t), "content" := VIso(t),
                             "created_at" := VTime(0), "updated_at" := VTime(0)])
            == Some(Comment(Str(VIso(t)), None, Str(VIso(t)), 0, 0))
  {
    IsoTextLength(t);
  }

  /** A Unix timestamp naming an instant before 1600 or after 9999 is refused. */
  lemma OutOfRangeTimestampRefused()
    ensures ParseIdea(map["title" := VStr("x"), "created_at" := VInt(-20_000_000_000),
                          "updated_at" := VTime(0)]).None?
    ensures ParseComment(map["idea_id" := VStr("i"), "content" := VStr("c"), "created_at" := VTime(0),
                             "updated_at" := VInt(1_000_000_000_000_000)]).None?
  {
  }

  /** A negative vote count passes this schema. */
  lemma NegativeVotesAccepted()
    ensures ParseIdea(map["title" := VStr("x"), "votes" := VInt(-1),
                          "created_at" := VTime(0), "updated_at" := VTime(0)]).Some?
  {
  }

  /** Lax validation: votes given as text and timestamps given as ISO text or Unix seconds are converted. */
  lemma CoercedIdea()
    ensures ParseIdea(map["title" := VStr("x"), "votes" := VStr("+3"),
                          "created_at" := VIso(5), "updated_at" := VInt(2)])
            == Some(Idea("x", None, 3, 5, 2_000_000))
  {
  }
}
