/**
 * The forum comment route (`POST`): it creates one comment linked to
 * `threadId`, with no check of its own that the thread exists. A body the
 * store rejects becomes a 500 reply, and nothing is written.
 */
module CommentsRoute {
  import opened Wrappers
  import opened Json
  import opened Http
  import opened Schema

  const CREATE_FAILED := "Failed to create comment"

  datatype CommentDraft = CommentDraft(content: string, author: string, threadId: Id)

  /** The body's `content`, `author` and `threadId`, when all three are strings. */
  function Draft(body: Body): (r: Option<CommentDraft>)
    ensures r.Some? <==> Field(body, "content").Str? && Field(body, "author").Str? && Field(body, "threadId").Str?
    ensures r.Some? ==>
      && Field(body, "content") == Str(r.value.content)
      && Field(body, "author") == Str(r.value.author)
      && Field(body, "threadId") == Str(r.value.threadId)
  {
    match (StringField(body, "content"), StringField(body, "author"), StringField(body, "threadId"))
    case (Some(content), Some(author), Some(threadId)) => Some(CommentDraft(content, author, threadId))
    case _ => None
  }

  /** The comment row created from a draft; counters start at 0. */
  function NewComment(d: CommentDraft, id: Id): Comment {
    Comment(id, d.content, d.author, d.threadId, 0, 0)
  }

  /** The store accepts the insert: well-typed fields, an existing thread (foreign key) and an unused id. */
  ghost predicate Accepted(db: Database, body: Body, freshId: Id)
    reads db
  {
    && Draft(body).Some?
    && Draft(body).value.threadId in Keys(db.threads, ThreadKey)
    && freshId !in Keys(db.comments, CommentKey)
  }

  /**
   * `POST`: insert exactly one comment with the body's content, author and
   * thread, and reply 201 with it. The parent thread is not touched. A
   * rejected insert replies 500 and inserts nothing.
   */
  method Post(db: Database, body: Body, freshId: Id) returns (r: Reply<Comment>)
    requires db.Valid()
    modifies db`comments
    ensures db.Valid()
    ensures db.threads == old(db.threads)
    ensures old(Accepted(db, body, freshId)) ==>
      var c := NewComment(Draft(body).value, freshId);
      db.comments == old(db.comments) + [c] && r == Success(CREATED, c)
    ensures !old(Accepted(db, body, freshId)) ==>
      r == Failure(SERVER_ERROR, CREATE_FAILED) && db.comments == old(db.comments)
  {
    var draft := Draft(body);
    if draft.None?
       || FindBy(db.threads, ThreadKey, draft.value.threadId).None?
       || FindBy(db.comments, CommentKey, freshId).Some?
    {
      return Failure(SERVER_ERROR, CREATE_FAILED);
    }
    var c := NewComment(draft.value, freshId);
    db.CreateComment(c);
    r := Success(CREATED, c);
  }
}
