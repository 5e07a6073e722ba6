/**
 * The pydantic models of the root schema module: an Idea or a Comment built
 * from a dictionary, with the declared required fields, defaults and the
 * non-negative vote count.
 */
module RootSchemas {
  import opened Wrappers
  import opened Documents

  datatype Idea = Idea(title: string, description: Option<string>, votes: int)

  datatype Comment = Comment(ideaId: string, author: Option<string>, content: string)

  /** `Idea(**d)`: title required, description defaulting to None, votes defaulting to 0 with `ge=0`. */
  function ParseIdea(d: Doc): (r: Option<Idea>)
    ensures r.Some? ==> r.value.votes >= 0
  {
    match (RequiredText(d, "title"), OptionalTextField(d, "description"), IntFieldOr(d, "votes", 0))
    case (Some(title), Some(description), Some(votes)) =>
      if votes >= 0 then Some(Idea(title, description, votes)) else None
    case _ => None
  }

  /** `Comment(**d)`: idea_id and content required, author defaulting to None. */
  function ParseComment(d: Doc): (r: Option<Comment>)
    ensures r.Some? ==> && "idea_id" in d && IsText(d["idea_id"]) && r.value.ideaId == Str(d["idea_id"])
                        && "content" in d && IsText(d["content"]) && r.value.content == Str(d["content"])
                        && r.value.author == (if "author" !in d || d["author"].VNull? then None
                                              else Some(Str(d["author"])))
  {
    match (RequiredText(d, "idea_id"), OptionalTextField(d, "author"), RequiredText(d, "content"))
    case (Some(ideaId), Some(author), Some(content)) => Some(Comment(ideaId, author, content))
    case _ => None
  }

  /**
   * An Idea is accepted exactly when its title is a string and the optional
   * fields are well typed, votes being an int or a decimal string, >= 0.
   */
  lemma ParseIdeaIff(d: Doc)
    ensures ParseIdea(d).Some? <==>
              && "title" in d && IsText(d["title"])
              && ("description" !in d || d["description"].VNull? || IsText(d["description"]))
              && ("votes" !in d || (d["votes"].VInt? && d["votes"].i >= 0)
                  || (d["votes"].VStr? && DecimalText(d["votes"].s) && DecimalValue(d["votes"].s) >= 0))
  {
  }

  /** Absent fields take their declared defaults. */
  lemma IdeaDefaults(d: Doc)
    requires ParseIdea(d).Some?
    ensures ParseIdea(d).value.title == Str(d["title"])
    ensures "description" !in d ==> ParseIdea(d).value.description.None?
    ensures "votes" !in d ==> ParseIdea(d).value.votes == 0
    ensures "votes" in d && d["votes"].VStr? ==> ParseIdea(d).value.votes == DecimalValue(d["votes"].s)
  {
  }

  /** A vote count of "-0" is zero and passes `ge=0`; "-1" does not. */
  lemma SignedVoteText()
    ensures ParseIdea(map["title" := VStr("x"), "votes" := VStr("-0")]) == Some(Idea("x", None, 0))
    ensures ParseIdea(map["title" := VStr("x"), "votes" := VStr("-1")]).None?
  {
  }

  /** Any Python str is a `str`: a datetime's ISO text passes as a title and as comment content. */
  lemma IsoTextAccepted(t: int)
    ensures ParseIdea(map["title" := VIso(t)]) == Some(Idea(Str(VIso(t)), None, 0))
    ensures ParseComment(map["idea_id" := VIso(t), "content" := VIso(t)])
            == Some(Comment(Str(VIso(t)), None, Str(VIso(t))))
  {
  }

  /** A Comment is accepted exactly when idea_id and content are strings and author is absent, None or a string. */
  lemma ParseCommentIff(d: Doc)
    ensures ParseComment(d).Some? <==>
              && "idea_id" in d && IsText(d["idea_id"])
              && "content" in d && IsText(d["content"])
              && ("author" !in d || d["author"].VNull? || IsText(d["author"]))
    ensures ParseComment(d).Some? && "author" !in d ==> ParseComment(d).value.author.None?
  {
  }

  /** The keyword arguments the service passes always build a model, unchanged. */
  lemma IdeaFromArguments(title: string, description: Option<string>)
    ensures ParseIdea(map["title" := VStr(title), "description" := OptionalText(description), "votes" := VInt(0)])
            == Some(Idea(title, description, 0))
  {
  }

  lemma CommentFromArguments(ideaId: string, author: Option<string>, content: string)
    ensures ParseComment(map["idea_id" := VStr(ideaId), "author" := OptionalText(author), "content" := VStr(content)])
            == Some(Comment(ideaId, author, content))
  {
  }
}
