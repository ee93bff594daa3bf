/**
 * The agenda items route. `GET` lists agenda items, optionally those of one
 * meeting, lowest `order` first, one page at a time. `POST` validates the
 * body, checks that the meeting exists and stores the item with its content
 * trimmed and its order parsed as an integer.
 */
module AgendaItemsRoute {
  import opened Wrappers
  import opened Text
  import opened Json
  import opened Http
  import opened Seqs
  import opened Listing
  import opened Schema

  const FETCH_FAILED := "Failed to fetch agenda items"
  const MISSING_FIELDS := "Missing required fields: content, order, and meetingId are required"
  const MEETING_NOT_FOUND := "Meeting not found"
  const CREATE_FAILED := "Failed to create agenda item"

  datatype Query = Query(meetingId: Option<string>, limit: Option<string>, offset: Option<string>)

  // ---------------------------------------------------------------------------
  // GET

  /** The `where` clause: the meeting filter applies only when `meetingId` is given. */
  predicate Matches(q: Query, a: AgendaItem) {
    Given(q.meetingId) ==> a.meetingId == q.meetingId.value
  }

  /** The agenda items the `where` clause selects, in table order. */
  function Matching(items: seq<AgendaItem>, q: Query): (r: seq<AgendaItem>)
    ensures forall a :: a in r <==> a in items && Matches(q, a)
    ensures forall a :: multiset(r)[a] == if Matches(q, a) then multiset(items)[a] else 0
  {
    Filter(items, a => Matches(q, a))
  }

  /** `orderBy: { order: 'asc' }`. */
  predicate LowerOrderFirst(a: AgendaItem, b: AgendaItem) {
    a.order <= b.order
  }

  lemma LowerOrderFirstTotal()
    ensures TotalPreorder(LowerOrderFirst)
  {
  }

  /** The matching items, lowest `order` first: a reordering of the matches. */
  function Ordered(items: seq<AgendaItem>, q: Query): (r: seq<AgendaItem>)
    ensures multiset(r) == multiset(Matching(items, q))
    ensures forall i, j :: 0 <= i < j < |r| ==> r[i].order <= r[j].order
  {
    LowerOrderFirstTotal();
    SortBy(Matching(items, q), LowerOrderFirst)
  }

  /**
   * `GET`: the page `offset`..`offset + limit` of the matching items, lowest
   * order first, with the count of all matches. A page parameter that is
   * not a natural number gives 500.
   */
  function Get(items: seq<AgendaItem>, q: Query): (r: Reply<Page<AgendaItem>>)
    ensures PageBounds(q.limit, q.offset).None? ==> r == Failure(SERVER_ERROR, FETCH_FAILED)
    ensures PageBounds(q.limit, q.offset).Some? ==>
      var limit, offset := PageBounds(q.limit, q.offset).value.0, PageBounds(q.limit, q.offset).value.1;
      var total := |Matching(items, q)|;
      && r.status == OK && r.payload.Data?
      && r.payload.value.pagination == Pagination(total, limit, offset, offset + limit < total)
      && r.payload.value.items == SkipTake(Ordered(items, q), offset, limit)
      && |r.payload.value.items| <= limit
      && (forall a :: a in r.payload.value.items ==> a in items && Matches(q, a))
  {
    match PageBounds(q.limit, q.offset)
    case None => Failure(SERVER_ERROR, FETCH_FAILED)
    case Some((limit, offset)) =>
      LowerOrderFirstTotal();
      var p := Paginate(Matching(items, q), LowerOrderFirst, limit, offset);
      assert p.items == SkipTake(Ordered(items, q), offset, limit);
      Success(OK, p)
  }

  // ---------------------------------------------------------------------------
  // POST

  /** The 400 check: content, order and meetingId are all truthy. */
  predicate HasRequiredFields(body: Body) {
    Truthy(Field(body, "content")) && Truthy(Field(body, "order")) && Truthy(Field(body, "meetingId"))
  }

  datatype AgendaItemDraft = AgendaItemDraft(content: string, order: int, meetingId: Id)

  /** The row data: `content.trim()` (content must be a string), `parseInt(order)` (not NaN) and the meeting id. */
  function Draft(body: Body): (r: Option<AgendaItemDraft>)
    ensures r.Some? <==>
      Field(body, "content").Str? && ParseIntValue(Field(body, "order")).Some? && Field(body, "meetingId").Str?
    ensures r.Some? ==>
      && r.value.content == Trim(Field(body, "content").s)
      && r.value.order == ParseIntValue(Field(body, "order")).value
      && r.value.meetingId == Field(body, "meetingId").s
  {
    match (StringField(body, "content"), ParseIntValue(Field(body, "order")), StringField(body, "meetingId"))
    case (Some(content), Some(order), Some(mid)) => Some(AgendaItemDraft(Trim(content), order, mid))
    case _ => None
  }

  function NewAgendaItem(d: AgendaItemDraft, id: Id): AgendaItem {
    AgendaItem(id, d.content, d.order, d.meetingId)
  }

  /** The body passes the 400 and 404 checks and the store accepts the insert. */
  ghost predicate Accepted(db: Database, body: Body, freshId: Id)
    reads db
  {
    && HasRequiredFields(body)
    && Draft(body).Some?
    && Draft(body).value.meetingId in Keys(db.meetings, MeetingKey)
    && freshId !in Keys(db.agendaItems, AgendaItemKey)
  }

  /**
   * `POST`: 400 unless content, order and meetingId are truthy; 500 when
   * `meetingId` is not a string; 404 when no meeting has that id; otherwise
   * insert the item and reply 201, or 500 when the insert fails.
   */
  method Post(db: Database, body: Body, freshId: Id) returns (r: Reply<AgendaItem>)
    requires db.Valid()
    modifies db`agendaItems
    ensures db.Valid()
    ensures !old(Accepted(db, body, freshId)) ==> db.agendaItems == old(db.agendaItems)
    ensures !HasRequiredFields(body) ==> r == Failure(BAD_REQUEST, MISSING_FIELDS)
    ensures HasRequiredFields(body) && !Field(body, "meetingId").Str? ==> r == Failure(SERVER_ERROR, CREATE_FAILED)
    ensures (HasRequiredFields(body) && Field(body, "meetingId").Str?
             && Field(body, "meetingId").s !in Keys(db.meetings, MeetingKey)) ==>
      r == Failure(NOT_FOUND, MEETING_NOT_FOUND)
    ensures (HasRequiredFields(body) && Field(body, "meetingId").Str?
             && Field(body, "meetingId").s in Keys(db.meetings, MeetingKey)
             && !old(Accepted(db, body, freshId))) ==>
      r == Failure(SERVER_ERROR, CREATE_FAILED)
    ensures old(Accepted(db, body, freshId)) ==>
      var a := NewAgendaItem(Draft(body).value, freshId);
      db.agendaItems == old(db.agendaItems) + [a] && r == Success(CREATED, a)
  {
    if !HasRequiredFields(body) {
      return Failure(BAD_REQUEST, MISSING_FIELDS);
    }
    var mid := StringField(body, "meetingId");
    if mid.None? {
      return Failure(SERVER_ERROR, CREATE_FAILED);
    }
    if FindBy(db.meetings, MeetingKey, mid.value).None? {
      return Failure(NOT_FOUND, MEETING_NOT_FOUND);
    }
    var draft := Draft(body);
    if draft.None? || FindBy(db.agendaItems, AgendaItemKey, freshId).Some? {
      return Failure(SERVER_ERROR, CREATE_FAILED);
    }
    var a := NewAgendaItem(draft.value, freshId);
    db.CreateAgendaItem(a);
    r := Success(CREATED, a);
  }

  /**
   * `order` 0 as a number is falsy and answered 400, while the text "0"
   * passes the check and is stored as order 0.
   */
  lemma ZeroOrderOnlyAsText(body: Body)
    requires Truthy(Field(body, "content")) && Truthy(Field(body, "meetingId"))
    ensures !HasRequiredFields(body["order" := Num(0)])
    ensures HasRequiredFields(body["order" := Str("0")])
    ensures Field(body, "content").Str? && Field(body, "meetingId").Str? ==>
      Draft(body["order" := Str("0")]).Some? && Draft(body["order" := Str("0")]).value.order == 0
  {
    assert Field(body["order" := Str("0")], "content") == Field(body, "content");
    assert Field(body["order" := Str("0")], "meetingId") == Field(body, "meetingId");
    assert Field(body["order" := Num(0)], "order") == Num(0);
    ZeroTextIsTruthy();
  }
}
