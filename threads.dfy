/**
 * The forum thread route (`POST`): it creates a thread and one tag row per
 * entry of `body.tags`, with no validation of its own. Anything the store
 * rejects becomes a 500 reply, and nothing is written.
 */
module ThreadsRoute {
  import opened Wrappers
  import opened Json
  import opened Http
  import opened Schema

  const CREATE_FAILED := "Failed to create thread"

  /** The fields the handler passes to the store. */
  datatype ThreadDraft = ThreadDraft(title: string, content: string, author: string, municipalityId: Id, tags: seq<string>)

  /** The created thread as the route returns it, with its tag rows and (no) comments included. */
  datatype ThreadWithRelations = ThreadWithRelations(thread: ForumThread, tags: seq<ThreadTag>, comments: seq<Comment>)

  /** `items` as strings, when every item is a string. */
  function Strings(items: seq<Value>): (r: Option<seq<string>>)
    ensures r.Some? ==> |r.value| == |items| && forall i :: 0 <= i < |items| ==> items[i] == Str(r.value[i])
    ensures r.None? ==> exists i :: 0 <= i < |items| && !items[i].Str?
  {
    if items == [] then Some([])
    else
      match Strings(items[..|items| - 1])
      case None => None
      case Some(init) =>
        if items[|items| - 1].Str? then Some(init + [items[|items| - 1].s]) else None
  }

  /**
   * The body's fields as the store accepts them: `title`, `content`,
   * `author` and `municipalityId` strings, and `tags` an array of strings
   * (a missing or non-array `tags` makes `body.tags.map` throw).
   */
  function Draft(body: Body): (r: Option<ThreadDraft>)
    ensures r.Some? ==>
      && Field(body, "title") == Str(r.value.title)
      && Field(body, "content") == Str(r.value.content)
      && Field(body, "author") == Str(r.value.author)
      && Field(body, "municipalityId") == Str(r.value.municipalityId)
      && Field(body, "tags") == Arr(seq(|r.value.tags|, i requires 0 <= i < |r.value.tags| => Str(r.value.tags[i])))
    ensures r.None? ==>
      || !Field(body, "title").Str? || !Field(body, "content").Str? || !Field(body, "author").Str?
      || !Field(body, "municipalityId").Str? || !Field(body, "tags").Arr?
      || exists i :: 0 <= i < |Field(body, "tags").items| && !Field(body, "tags").items[i].Str?
  {
    var tags := Field(body, "tags");
    if StringField(body, "title").Some? && StringField(body, "content").Some? && StringField(body, "author").Some?
       && StringField(body, "municipalityId").Some? && tags.Arr? && Strings(tags.items).Some?
    then
      var names := Strings(tags.items).value;
      assert tags == Arr(seq(|names|, i requires 0 <= i < |names| => Str(names[i])));
      Some(ThreadDraft(StringField(body, "title").value, StringField(body, "content").value,
                       StringField(body, "author").value, StringField(body, "municipalityId").value, names))
    else
      None
  }

  /** The thread row created from a draft; counters start at 0. */
  function NewThread(d: ThreadDraft, id: Id): ForumThread {
    ForumThread(id, d.title, d.content, d.author, d.municipalityId, 0, 0)
  }

  /** `tags: { create: names.map(name => ({ name })) }`: one row per name, duplicates included, in order. */
  function TagRows(names: seq<string>, threadId: Id): (r: seq<ThreadTag>)
    ensures |r| == |names|
    ensures forall i :: 0 <= i < |names| ==> r[i].name == names[i] && r[i].threadId == threadId
  {
    seq(|names|, i requires 0 <= i < |names| => ThreadTag(names[i], threadId))
  }

  /** The store accepts the nested create: well-typed fields, an existing municipality and an unused id. */
  ghost predicate Accepted(db: Database, body: Body, freshId: Id)
    reads db
  {
    && Draft(body).Some?
    && Draft(body).value.municipalityId in Keys(db.municipalities, MunicipalityKey)
    && freshId !in Keys(db.threads, ThreadKey)
  }

  /**
   * `POST`: insert exactly one thread with the body's fields and, with it,
   * one tag row per element of `tags`; reply 201 with the created thread.
   * There is no check of its own: a body the store rejects gives 500 and
   * writes nothing. `freshId` is the id the store generates.
   */
  method Post(db: Database, body: Body, freshId: Id) returns (r: Reply<ThreadWithRelations>)
    requires db.Valid()
    modifies db`threads, db`tags
    ensures db.Valid()
    ensures old(Accepted(db, body, freshId)) ==>
      var t := NewThread(Draft(body).value, freshId);
      var rows := TagRows(Draft(body).value.tags, freshId);
      && db.threads == old(db.threads) + [t]
      && db.tags == old(db.tags) + rows
      && r == Success(CREATED, ThreadWithRelations(t, rows, []))
    ensures !old(Accepted(db, body, freshId)) ==>
      r == Failure(SERVER_ERROR, CREATE_FAILED) && db.threads == old(db.threads) && db.tags == old(db.tags)
  {
    var draft := Draft(body);
    if draft.None?
       || FindBy(db.municipalities, MunicipalityKey, draft.value.municipalityId).None?
       || FindBy(db.threads, ThreadKey, freshId).Some?
    {
      return Failure(SERVER_ERROR, CREATE_FAILED);
    }
    var t := NewThread(draft.value, freshId);
    var rows := TagRows(draft.value.tags, freshId);
    db.CreateThread(t, rows);
    r := Success(CREATED, ThreadWithRelations(t, rows, []));
  }
}
