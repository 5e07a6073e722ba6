# Ideas board: a verified model of the store semantics

The ideas board is a small HTTP service where people post ideas, upvote them
and comment on them. The code base carries two near-identical variants of the
service: the backend package (`backend/main.py` with its `database.py` and
`schemas.py`) and a root variant (`main.py` with `schemas.py`). This project
models both variants on one in-memory store:
- a map of ideas keyed by ObjectId;
- the order in which the idea collection returns them;
- the sequence of comments.

It then proves what each endpoint does to that store and what it returns.
The two variants are kept apart wherever their code differs.

Modules, one concept each:

- `Wrappers`: `Option` and `Result`.
- `Errors`: the Python exceptions the code can raise, and the HTTP status the framework answers for each.
- `Text`: Python's `str.strip()`, over the full set of characters `str.isspace()` accepts.
- `ObjectIds`: the textual face of a bson ObjectId. A valid id is 24 hex digits in either case, and `str()` gives the lower-case text.
- `Documents`: stored documents as dictionaries from field names to values, the `_id` to `id` rename, what BSON keeps of a datetime, and the field readers pydantic applies, with their lax conversions of text to numbers and of numbers to datetimes.
- `Sequences`: the subsequence relation, which states that a filter keeps its input's order.
- `Sorting`: Python's stable `list.sort(key=..., reverse=True)` with tuple keys, as a pure insertion sort. It comes with proofs of sortedness, permutation and stability.
- `IdeaStore`: the typed idea and comment records, the stored documents built from them, comment counting and the `$match`/`$group` aggregation, the created_at window, and the `Store` class whose methods perform the three writes the services issue.
- `BackendDatabase`: `backend/database.py`, a generic collection store with `_serialize`, `create_document` and `get_documents`.
- `BackendSchemas` and `RootSchemas`: the two schema modules as partial constructors from a dictionary.
- `BackendApi`: the endpoints of `backend/main.py`.
- `RootApi`: the endpoints of `main.py`.

Model conventions:
- Time is an integer count of microseconds since 1970-01-01 UTC, the resolution of a Python datetime. The handlers take `now` as a parameter.
- MongoDB keeps a datetime to the millisecond. Every datetime the model writes to a collection is truncated by `BsonTime`, and so is the `$gte` bound of a listing's query. The `Valid` invariant of the `Store` keeps every stored timestamp a whole number of milliseconds.
- A datetime value is `VTime(t)`. Its ISO string is `VIso(t)`, which is injective because it is a distinct constructor.
- The fresh ObjectId the driver assigns on insert is a parameter, required not to be taken.
- A root handler returns the dictionary the Python function returns. A backend handler builds an `IdeaOut` or `CommentOut` from a dictionary (`backend/main.py:111`, `:156`, `:172`, `:178`, `:197`). The model returns that dictionary, whose keys are exactly the output model's fields (`BackendApi.IdeaViewFields`, `BackendApi.CommentViewFields`).

The model follows the code where it departs from the intended API:
- The backend variant answers a malformed idea id with a `ValueError` that escapes the handler, which gives status 500 rather than the intended 400 (`backend/main.py:162`, `:184`).
- The backend checks title and content lengths before stripping. A title of spaces is accepted and stored as the empty string (`BackendApi.WhitespaceTitleStoredEmpty`).
- The root variant declares no length bounds on its request bodies. It sorts its listing on the primary key alone, so ties keep store order rather than newest first.
- The root variant's comment listing checks the id's format but not that the idea exists. The backend's checks neither.

## Model

| member | source | states |
|---|---|---|
| Errors.StatusCode | backend/main.py:166-167 | an HTTPException answers its own status, a request validation error 422, any other escaping exception 500 |
| Text.LeadEnd | backend/main.py:101 | the first position from k on that holds no whitespace, with only whitespace between k and it |
| Text.TrailStart | backend/main.py:101 | the start of the whitespace run that ends at k, no earlier than lo |
| Text.Strip | backend/main.py:101 | the result is a contiguous slice of the input with only whitespace before and after it, and it neither starts nor ends with whitespace |
| Text.StripIdempotent | backend/main.py:101 | stripping twice gives what stripping once gives |
| Text.StripEmptyIff | backend/main.py:101 | the stripped text is empty exactly when the input is all whitespace |
| ObjectIds.ParseOid | main.py:119-122 | `ObjectId(s)` succeeds exactly on 24 hex digits of either case, and yields the lower-cased text |
| ObjectIds.ParseOidOfText | backend/main.py:137-141 | parsing `str(oid)` gives `oid` back, so every aggregation row keyed by an idea's id maps back to it |
| ObjectIds.ParseOidCaseInsensitive | main.py:120 | two valid texts name the same id exactly when they agree up to letter case |
| ObjectIds.UpperCaseIdIsNotItsText | backend/main.py:169 | an upper-case id parses but differs from the id's own text, so a raw-text comment lookup can miss |
| Documents.OptionalText | backend/main.py:102 | an absent optional string is stored as None, a present one as that string |
| Documents.RenameId | backend/main.py:44-45 | the copy has no `_id`, has `id` = str(_id), and keeps every other field |
| Documents.GetNum | backend/main.py:152 | `x.get(k, default)`: the default when the field is absent, the stored int or datetime instant otherwise |
| Documents.TextValue | schemas.py:24 | `str` validation accepts exactly a Python str, plain text or the ISO text of a datetime, as that text |
| Documents.IsoTextLength | backend/schemas.py:7 | the text standing for a datetime's ISO rendering has 1 to 19 characters, so it meets every declared length bound as the real 19 to 32 character text does |
| Documents.RequiredText | schemas.py:24 | a required str field reads exactly when present and a Python str, as that text |
| Documents.OptionalTextField | schemas.py:25 | an optional str field reads as None when absent or None, as the text when a Python str, and fails otherwise |
| Documents.DecimalValue | schemas.py:26 | the number a signed decimal literal writes, never negative without a minus sign and never positive with one |
| Documents.DigitsRoundTrip | schemas.py:26 | the decimal digits of a natural number are digits and read back as that number |
| Documents.DecimalOfIntText | schemas.py:26 | lax int validation reads `str(i)` back as `i` |
| Documents.IntValue | schemas.py:26 | of the modelled conversions, lax int validation accepts exactly an int, as itself, or a string holding a signed decimal literal, as its number |
| Documents.UnixInstant | backend/schemas.py:10-11 | a Unix timestamp counts seconds when at most 2e10 in magnitude and milliseconds beyond that |
| Documents.TimeValue | backend/schemas.py:10-11 | of the modelled conversions, lax datetime validation accepts exactly a datetime, its ISO text, or a Unix timestamp naming an instant from 1600 to 9999, giving the instant each names |
| Documents.UnixRangeEdges | backend/schemas.py:10-11 | a timestamp of seconds before 1600 or of milliseconds after 9999 is out of range; the first second of 1600 and the last millisecond of 9999 are in range |
| Documents.IntFieldOr | schemas.py:26 | an int field reads as its default when absent, as its value when an int or a decimal string, and fails otherwise |
| Documents.RequiredTime | backend/schemas.py:10-11 | a required datetime field reads exactly when present and a datetime, its ISO text or an in-range Unix timestamp |
| Documents.BsonTime | backend/main.py:107-108 | the instant BSON keeps: a whole millisecond, at most the given instant and less than a millisecond before it |
| Documents.AsStored | backend/database.py:28-29 | a stored datetime loses its microseconds; every other value is stored as it is |
| Documents.StoredDoc | backend/database.py:28-29 | a stored document has the same fields, each value as the driver stores it |
| Sorting.KeyLe | backend/main.py:152 | Python's `<=` on tuples of numbers: lexicographic, and a proper prefix is smaller |
| Sorting.KeyLeReflexive | backend/main.py:152 | every key tuple is at most itself |
| Sorting.KeyLeTotal | backend/main.py:152 | any two key tuples are comparable |
| Sorting.KeyLeTransitive | backend/main.py:152 | tuple order is transitive |
| Sorting.KeyLeAntisymmetric | backend/main.py:152 | two tuples each at most the other are equal |
| Sorting.Insert | backend/main.py:152 | inserting adds exactly the one element to the multiset |
| Sorting.SortDesc | backend/main.py:152-154 | the sorted list is a permutation of the input |
| Sorting.SortDescMembers | backend/main.py:152-154 | sorting keeps exactly the elements it was given |
| Sorting.InsertSorted | backend/main.py:152 | inserting into a non-increasing list keeps it non-increasing |
| Sorting.SortDescSorted | backend/main.py:152-154 | the sorted list is non-increasing in its key |
| Sorting.WithKey | main.py:110-113 | keeps exactly the elements with the given key, as a subsequence of the input, so in their input order |
| Sorting.InsertStable | main.py:110-113 | inserting keeps the relative order of the elements with each key |
| Sorting.SortDescStable | main.py:110-113 | elements with equal keys keep their input order |
| IdeaStore.StoredIdea | backend/main.py:107-108 | the collection keeps an idea's fields, with both timestamps truncated to the millisecond |
| IdeaStore.StoredComment | backend/main.py:195-196 | the collection keeps a comment's fields, with both timestamps truncated to the millisecond |
| IdeaStore.IdeaDoc | backend/main.py:100-106 | the stored idea document holds exactly `_id`, title, description, votes and both timestamps |
| IdeaStore.CommentDoc | backend/main.py:188-194 | the stored comment document holds exactly `_id`, idea_id, author, content and both timestamps |
| IdeaStore.DistinctPermutation | backend/main.py:143-147 | a reordering of a duplicate-free list is duplicate-free |
| IdeaStore.CommentsFor | backend/main.py:177 | `find({"idea_id": s})` yields exactly the comments whose idea_id is the text s, in their stored order |
| IdeaStore.Count | backend/main.py:169 | `count_documents({"idea_id": s})` is at most the number of comments |
| IdeaStore.CountZeroIff | backend/main.py:169 | an idea's count is zero exactly when no comment names it |
| IdeaStore.CountAppend | backend/main.py:169 | one more comment raises its own idea's count by one and no other count |
| IdeaStore.CountLast | backend/main.py:133-134 | every count over a list is the count over all but its last comment, plus one for that comment's own idea_id |
| IdeaStore.MatchIn | backend/main.py:133 | the `$match` stage keeps exactly the comments whose idea_id is listed, in their stored order |
| IdeaStore.MatchInCount | backend/main.py:133 | after the `$match` stage every listed id keeps all its comments and any other id has none |
| IdeaStore.GroupCounts | backend/main.py:134 | the `$group` stage has a row exactly for each idea_id that occurs, holding its count |
| IdeaStore.Aggregate | backend/main.py:132-136 | the pipeline yields a row exactly for each listed id with comments, holding its count |
| IdeaStore.IdTexts | backend/main.py:133 | `[str(iid) for iid in idea_ids]` holds exactly the listed ids' texts |
| IdeaStore.InWindow | backend/main.py:124 | `{"created_at": {"$gte": start}}`: no bound holds every idea, a bound holds those created at or after it |
| IdeaStore.Selected | backend/main.py:117-126 | the selected ideas are exactly the stored ones inside the created_at window, as a subsequence of the store order and without repeats |
| IdeaStore.Upvoted | backend/main.py:163 | votes rise by one, updated_at becomes now, and the other fields stay |
| IdeaStore.Store.InsertIdea | backend/main.py:107 | the idea, its timestamps to the millisecond, is added under its new id at the end of the store order, and nothing else changes |
| IdeaStore.Store.IncrementVotes | backend/main.py:161-165 | an absent id changes nothing and yields None; otherwise only that idea is upvoted, updated_at being now to the millisecond, and the updated record is returned |
| IdeaStore.Store.InsertComment | backend/main.py:195 | the comment, its timestamps to the millisecond, is appended, and nothing else changes |
| BackendDatabase.Serialize | backend/database.py:15-21 | None stays None, a document without `_id` comes back equal, otherwise `_id` becomes `id` and the rest is kept |
| BackendDatabase.Stamped | backend/database.py:26 | the payload holds every field of data, with created_at = updated_at = now overriding any given |
| BackendDatabase.Matching | backend/database.py:35 | exactly the documents that agree with every field of the filter, a None in the filter also matching an absent field, as a subsequence of the store order |
| BackendDatabase.NullMatchesMissing | backend/database.py:35 | a filter `{"author": None}` matches a document that has no author field |
| BackendDatabase.EffectiveFilter | backend/database.py:35 | `filter_dict or {}`: the filter of None matches every document, a given filter exactly the documents it matches |
| BackendDatabase.Limited | backend/database.py:36-37 | None or 0 lets every match through, and a positive limit at most that many |
| BackendDatabase.DocumentDb.CreateDocument | backend/database.py:24-30 | the stamped payload, its datetimes to the millisecond, is appended under a fresh `_id` and returned serialized as read back; a taken `_id` raises and writes nothing |
| BackendDatabase.DocumentDb.GetDocuments | backend/database.py:33-38 | the limited prefix of the matching documents, each serialized with `id` and no `_id` |
| BackendDatabase.MatchingEverything | backend/database.py:35 | with no filter every document matches |
| BackendDatabase.NoFilterIsEmptyFilter | backend/database.py:35 | a filter of None reads what the empty filter reads |
| BackendDatabase.UnlimitedReadsAll | backend/database.py:33-38 | without a limit every stored document comes back serialized, in store order |
| BackendSchemas.ParseIdea | backend/schemas.py:6-11 | a built Idea has a title of length 1..200 and a description that is None or at most 2000 long |
| BackendSchemas.ParseIdeaIff | backend/schemas.py:6-11 | an Idea is built exactly when the title is a str (plain or ISO text) of length 1..200, the description absent, None or a str of at most 2000, votes absent, an int or a decimal string, and both timestamps a datetime, ISO text or Unix timestamp from 1600 to 9999 |
| BackendSchemas.IdeaDefaults | backend/schemas.py:8-11 | absent description is None, absent votes is 0, given votes are kept or read from their text, a Unix created_at becomes its instant |
| BackendSchemas.CoercedIdea | backend/schemas.py:9-11 | votes "+3", an ISO created_at and a Unix updated_at of 2 seconds build the Idea with 3 votes and those instants |
| BackendSchemas.IsoTextAccepted | backend/schemas.py:7-17 | the ISO text of any datetime is a valid title, idea_id and content, kept as that text |
| BackendSchemas.NegativeVotesAccepted | backend/schemas.py:9 | votes have no lower bound: -1 is accepted |
| BackendSchemas.ParseComment | backend/schemas.py:14-19 | a built Comment has an author that is None or at most 100 long and content of length 1..2000 |
| BackendSchemas.ParseCommentIff | backend/schemas.py:14-19 | a Comment is built exactly when idea_id is a str (plain or ISO text), author absent, None or a str of at most 100, content a str of length 1..2000, and both timestamps a datetime, ISO text or Unix timestamp from 1600 to 9999 |
| BackendSchemas.OutOfRangeTimestampRefused | backend/schemas.py:10-19 | a created_at of seconds in 1336 or an updated_at of milliseconds in about 33658 makes the model fail |
| RootSchemas.ParseIdea | schemas.py:19-26 | a built Idea has votes >= 0 |
| RootSchemas.ParseIdeaIff | schemas.py:19-26 | an Idea is built exactly when the title is a str (plain or ISO text), the description absent, None or a str, and votes absent, a non-negative int, or a decimal string of a non-negative number |
| RootSchemas.IdeaDefaults | schemas.py:24-26 | the title is the text given, absent description is None, absent votes is 0, and votes given as text are read as their number |
| RootSchemas.SignedVoteText | schemas.py:26 | votes "-0" read as 0 and pass `ge=0`; votes "-1" are refused |
| RootSchemas.IsoTextAccepted | schemas.py:24-35 | the ISO text of any datetime is a valid title, idea_id and content, kept as that text |
| RootSchemas.ParseComment | schemas.py:28-35 | a built Comment holds the idea_id and content texts given, and the author text given or None when absent or None |
| RootSchemas.ParseCommentIff | schemas.py:28-35 | a Comment is built exactly when idea_id and content are str values (plain or ISO text) and author is absent, None or a str; absent author is None |
| RootSchemas.IdeaFromArguments | main.py:75 | the arguments create_idea passes always build the model, unchanged, with votes 0 |
| RootSchemas.CommentFromArguments | main.py:156 | the arguments add_comment passes always build the model, unchanged |
| BackendApi.ValidateObjectId | backend/main.py:31-38 | an ObjectId passes, a valid text parses to its id, and anything else raises ValueError("Invalid ObjectId") |
| BackendApi.ValidateIdText | backend/main.py:33-36 | validating `str(oid)` gives `oid` |
| BackendApi.SerializeId | backend/main.py:41-46 | None and `{}` pass through, a document without `_id` raises KeyError, otherwise `_id` becomes `id` and the rest is kept |
| BackendApi.SerializersAgreeOnStoredDocs | backend/main.py:41-46 | on a document with `_id` serialize_id and `_serialize` agree; without it they part ways |
| BackendApi.IdeaCreateValid | backend/main.py:50-52 | the idea body's declared bounds: a title of length 1..200 and a description None or at most 2000 long |
| BackendApi.CommentCreateValid | backend/main.py:65-67 | the comment body's declared bounds: an author None or at most 100 long and content of length 1..2000 |
| BackendApi.StripOptional | backend/main.py:102 | None and "" become None; any other text is stripped |
| BackendApi.NewIdea | backend/main.py:100-106 | the inserted idea has the stripped title, the stripped description or None, votes 0 and both timestamps now |
| BackendApi.NewComment | backend/main.py:188-194 | the inserted comment has the idea_id as sent, the stripped author or None, the stripped content and both timestamps now |
| BackendApi.IdeaView | backend/main.py:108-111 | the returned idea carries its id's text, its votes, its created_at and the given comment count |
| BackendApi.IdeaViewFields | backend/main.py:108-111 | the returned idea has exactly the seven output fields, title, description and updated_at as stored |
| BackendApi.CommentView | backend/main.py:196-197 | the returned comment carries its id's text and the idea_id it was stored with |
| BackendApi.CommentViewFields | backend/main.py:196-197 | the returned comment has exactly the six output fields, author, content and both timestamps as stored |
| BackendApi.CreateIdea | backend/main.py:97-111 | an invalid body is 422 with no write; otherwise the stripped idea is stored with votes 0 and both timestamps now to the millisecond, and returned as read back with comments_count 0 |
| BackendApi.CreatedIdeaShape | backend/main.py:99-110 | a created idea shows votes 0, comments_count 0, created_at = updated_at = now to the millisecond, the stripped title, and None for an absent or empty description |
| BackendApi.TitleLengthBoundary | backend/main.py:51 | titles of length 0 and 201 are refused, 1 and 200 accepted |
| BackendApi.CommentLengthBoundary | backend/main.py:66-67 | content of length 0 and 2001 is refused, 1 and 2000 accepted; an author of 100 passes and one of 101 does not |
| BackendApi.WhitespaceTitleStoredEmpty | backend/main.py:101 | a title of spaces passes the bound and is stored as "" |
| BackendApi.ParseRange | backend/main.py:115 | exactly "all", "month" and "week" are accepted, each as its own range |
| BackendApi.ParseSort | backend/main.py:115 | exactly "votes" and "comments" are accepted, each as its own sort order |
| BackendApi.Since | backend/main.py:118-124 | no bound for all; otherwise a whole millisecond at most 30 (month) or 7 (week) days before now and less than a millisecond earlier |
| BackendApi.VotesKey | backend/main.py:152 | the key `(x.get("votes", 0), x["created_at"])` |
| BackendApi.CommentsKey | backend/main.py:154 | the key `(x.get("comments_count", 0), x["created_at"])` |
| BackendApi.SortKey | backend/main.py:151-154 | "votes" sorts by the votes key, "comments" by the comments key |
| BackendApi.SortKeyOfView | backend/main.py:151-154 | a listed idea sorts by (votes, created_at) or by (comments_count, created_at) |
| BackendApi.IdeaViews | backend/main.py:143-147 | one view per selected idea, in order, each with that idea's comment count |
| BackendApi.ApplyRows | backend/main.py:135-141 | after the row loop every listed id has a count, that of its row when there is one and its starting count otherwise |
| BackendApi.CountComments | backend/main.py:129-141 | the counts map has a key for exactly the listed ids, and each holds that idea's number of comments, 0 when it has none |
| BackendApi.Enrich | backend/main.py:143-147 | the loop, serializing each idea and setting its comments_count from the counts, builds exactly the views of the listed ideas |
| BackendApi.ListIdeas | backend/main.py:114-156 | an unaccepted range or sort is 422; otherwise the result is a permutation of the views of the ideas in the window, non-increasing in the chosen key pair |
| BackendApi.ViewsDistinct | backend/main.py:143-147 | distinct ideas give distinct views |
| BackendApi.ViewsOfIds | backend/main.py:143-147 | the views are exactly those of the listed ideas, each with its own count |
| BackendApi.ListingOnePerIdea | backend/main.py:126-156 | the sorted listing has one entry per selected idea, no other entry and no repeat |
| BackendApi.TieBreakOnCreatedAt | backend/main.py:152 | ideas with keys (5,1), (5,2) and (3,3) list as the second, the first, the third |
| BackendApi.WeekWindow | backend/main.py:118-124 | the week window keeps an idea created 6 days ago and drops one created 8 days ago |
| BackendApi.CommentShowsInListing | backend/main.py:129-146 | after a first comment on an idea, its listed count is 1 and every other idea's count is unchanged |
| BackendApi.UpvoteIdea | backend/main.py:159-172 | a malformed id is 500 and an absent id 404, neither writing; otherwise only that idea is upvoted, updated_at now to the millisecond, and returned with its comment count |
| BackendApi.CreatedKey | backend/main.py:177 | the key of `.sort("created_at", DESCENDING)`: the created_at alone |
| BackendApi.CommentViews | backend/main.py:178 | one returned comment per found comment, in order |
| BackendApi.ViewsOfIdea | backend/main.py:177-178 | every comment view found for an idea names it |
| BackendApi.ListComments | backend/main.py:175-178 | exactly the comments whose idea_id is the given text, newest first |
| BackendApi.AddComment | backend/main.py:181-197 | an invalid body is 422, a malformed id 500 and an absent idea 404, none writing; otherwise the stripped comment is appended with both timestamps now to the millisecond and returned as read back |
| RootApi.IsoValue | main.py:31-32 | a datetime becomes its ISO string and any other value is kept |
| RootApi.SerializedDoc | main.py:25-33 | `_id`, when present, becomes `id` = str(_id); no datetime is left; every other field is kept, converted to ISO if a datetime |
| RootApi.SerializeDoc | main.py:25-33 | the loop over the fields computes exactly the serialized document |
| RootApi.SerializedDocIdempotent | main.py:25-33 | serializing a serialized document changes nothing |
| RootApi.CreateIdea | main.py:73-79 | the idea is stored as sent with votes 0 and both timestamps now to the millisecond, and returned serialized as read back |
| RootApi.CreatedIdeaShape | main.py:75-79 | a created idea shows votes 0, created_at = updated_at = now to the millisecond and the title as sent |
| RootApi.Since | main.py:85-89 | "week" and "month" bound created_at by a whole millisecond at most 7 or 30 days before now and less than a millisecond earlier; any other text gives no bound |
| RootApi.VotesKey | main.py:113 | the key `x.get("votes", 0)` |
| RootApi.CommentsKey | main.py:111 | the key `x.get("comments_count", 0)` |
| RootApi.SortKey | main.py:110-113 | "comments" sorts by the comments key and any other text by the votes key |
| RootApi.IdeaView | main.py:105-108 | a listed idea carries its id's text, its votes and the given comment count |
| RootApi.IdeaViewFields | main.py:105-108 | a listed idea has exactly the seven output fields, title and description as stored and both timestamps as ISO strings |
| RootApi.SortKeyOfView | main.py:110-113 | a listed idea sorts by votes alone or by comments_count alone |
| RootApi.IdeaViews | main.py:104-108 | one view per selected idea, in order, each with that idea's comment count |
| RootApi.CountLookup | main.py:100-107 | `counts.get(id, 0)` is the idea's number of comments |
| RootApi.ListedIdea | main.py:105-108 | one iteration of the enriched loop builds the idea's view, counting through the serialized `id` |
| RootApi.Enrich | main.py:104-108 | the loop builds exactly the views of the listed ideas |
| RootApi.ListIdeas | main.py:81-115 | the result is a permutation of the views of the ideas in the window, non-increasing in the chosen single key, and ties keep store order |
| RootApi.UpvoteIdea | main.py:117-131 | a malformed id is 400 and an absent id 404, neither writing; otherwise only that idea is upvoted, updated_at now to the millisecond, and returned serialized |
| RootApi.CommentKey | main.py:141 | the key of `.sort("created_at", -1)`: the created_at alone |
| RootApi.CommentView | main.py:142 | a returned comment is the stored comment document serialized |
| RootApi.CommentViewFields | main.py:142 | a returned comment has exactly the six fields, `id` for `_id`, author and content as stored and both timestamps as ISO strings |
| RootApi.CommentViews | main.py:142 | one serialized document per comment, in order |
| RootApi.SerializeComments | main.py:142 | the list comprehension computes exactly the serialized comments |
| RootApi.GetComments | main.py:134-142 | a malformed id is 400; otherwise exactly the idea's comments, sorted newest first and serialized one by one |
| RootApi.CommentsOfIdeaNewestFirst | main.py:141 | the found comments are exactly those of the idea, in non-increasing created_at |
| RootApi.AddComment | main.py:144-159 | a malformed id is 400, then an absent idea 404, neither writing; otherwise the comment is appended as sent with both timestamps now to the millisecond, and returned serialized as read back |
| RootApi.StoredIdeasMeetSchema | schemas.py:26 | every idea the store holds reads back as a valid schema Idea, since votes never go below 0 |

## Left out

- FastAPI application setup, routing, CORS middleware and response-model coercion: framework plumbing that computes nothing about the store.
- The `/` and `/test` health endpoints: database pings and environment introspection.
- MongoClient construction, index creation, environment lookups and the `uvicorn` entry point: I/O.
- Atomicity of `find_one_and_update` under concurrent upvotes: a database guarantee. Each upvote is one atomic state change of the store.
- The clock: `datetime.utcnow()` and `datetime.now(timezone.utc)` are the parameter `now`. The difference between naive and aware datetimes is not modelled.
- Documents.Str: calendar rendering of datetimes by `str()` and `isoformat()` is not modelled. `VIso(t)` stands for the ISO string, and a decimal instant stands for `str()` of a datetime, which no endpoint reaches. Where ISO text is read as a `str` field, the decimal text takes its place; `Documents.IsoTextLength` shows that the length bounds decide alike for both.
- bson ObjectId internals (timestamp, counter, 12-byte form): only the 24-hex-digit text is modelled. The fresh id of an insert is a parameter. `ObjectId(s)` decodes the text with `bytes.fromhex`, which skips ASCII whitespace, so some texts of 24 characters that contain blanks are also accepted; the model refuses every text that is not 24 hex digits.
- The aggregation pipeline's internals: the model keeps only its result, a count per idea_id.
- The `create_document` that `main.py` imports comes from a root `database` module that is not part of this model. The root handlers are modelled as inserting the schema model with created_at = updated_at = now under a fresh id, and as reading it back with its timestamps kept to the millisecond.
- BackendApi.ListComments: comments with equal created_at come in store order. MongoDB promises no order for such ties, so the model picks one.
- RootApi.GetComments: the same holds for ties on created_at.
- BackendApi.ListIdeas: ideas whose whole key pair ties keep the order `find()` returned them in. With no sort MongoDB returns its natural order, which the model takes to be insertion order.
- RootApi.ListIdeas: ties on the single sort key keep the order `find()` returned them in, taken to be insertion order as above.
- Documents.IntValue: its "accepts exactly" is over the modelled conversions only. Text with surrounding whitespace or `_` separators, floats without a fractional part and bools are also accepted by lax int validation and are refused by the model.
- Documents.TimeValue: its "accepts exactly" is over the modelled conversions only. Other date and time text and floats are also accepted by lax datetime validation and are refused by the model. The range of Unix timestamps follows pydantic 2 and is checked on whole seconds, floored; how pydantic rounds a millisecond timestamp within the first second of 1600 is not modelled. Pydantic 1 instead keeps dividing a large timestamp by 1000 and clamps it to the datetime range, so it accepts some timestamps the model refuses.
- Documents.OptionalTextField: pydantic 1 also turns a number into its text for an optional `str` field, while pydantic 2 refuses it. The model refuses it, as for Documents.RequiredText.
- Documents.IntFieldOr: lax int validation also accepts text with surrounding whitespace or `_` separators, floats without a fractional part and bools. None of these is modelled, and the model refuses them. The model accepts only an int or a signed string of ASCII digits.
- Documents.RequiredTime: reads through Documents.TimeValue and has its gaps, including the pydantic 1 handling of out-of-range timestamps. Lax datetime validation also accepts other date and time text (date-only forms, other layouts, numbers written as text) and floats. None of these is modelled, and the model refuses them. The model accepts a datetime, its ISO text `VIso(t)`, and an int Unix timestamp naming an instant from 1600 to 9999. Whether the resulting datetime is aware or naive is not modelled.
- Documents.RequiredText: pydantic 1 also turns a number into its text for a `str` field, while pydantic 2 refuses it. The model refuses it. The installed pydantic version is not part of the code base.
- BackendSchemas.ParseIdea: inherits the unmodelled coercions of Documents.IntFieldOr, Documents.RequiredTime and Documents.RequiredText. An input of those kinds that pydantic accepts is refused.
- BackendSchemas.ParseIdeaIff: its "exactly when" is over the modelled coercions only, as for BackendSchemas.ParseIdea.
- BackendSchemas.ParseComment: inherits the unmodelled coercions of Documents.RequiredTime and Documents.RequiredText.
- BackendSchemas.ParseCommentIff: its "exactly when" is over the modelled coercions only, as for BackendSchemas.ParseComment.
- RootSchemas.ParseIdea: inherits the unmodelled coercions of Documents.IntFieldOr and Documents.RequiredText.
- RootSchemas.ParseIdeaIff: its "exactly when" is over the modelled coercions only, as for RootSchemas.ParseIdea.
- RootSchemas.ParseComment: inherits the pydantic 1 number-to-text conversion of Documents.RequiredText and Documents.OptionalTextField, which the model refuses.
- RootSchemas.ParseCommentIff: its "exactly when" is over the modelled conversions only, as for RootSchemas.ParseComment.
- The output models `IdeaOut` and `CommentOut` of the backend: the model returns the dictionary each is built from, and does not model the pydantic object.
- Query-parameter defaults (`range="all"`, `sort="votes"`): the framework fills them in before the handler runs.
- Filter operators other than equality in `get_documents`: none is used by the services.
- Unicode beyond what `str.isspace()` needs: strings are sequences of characters, with no normalisation.
