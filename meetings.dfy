/**
 * The meetings route. `GET` lists meetings filtered by municipality,
 * committee and status, latest date first, one page at a time, each with
 * its agenda ordered by `order`. `POST` validates the body, checks that the
 * municipality exists and stores a meeting with trimmed text fields.
 */
module MeetingsRoute {
  import opened Wrappers
  import opened Text
  import opened Json
  import opened Http
  import opened Seqs
  import opened Listing
  import opened Schema
  import AgendaItemsRoute

  const FETCH_FAILED := "Failed to fetch meetings"
  const MISSING_FIELDS := "Missing required fields: title, date, time, committee, status, and municipalityId are required"
  const MUNICIPALITY_NOT_FOUND := "Municipality not found"
  const CREATE_FAILED := "Failed to create meeting"

  /** The query string: each parameter absent (None) or present as text. */
  datatype Query = Query(
    municipalityId: Option<string>, committee: Option<string>, status: Option<string>,
    limit: Option<string>, offset: Option<string>)

  /** A listed meeting with its agenda items included. */
  datatype MeetingWithAgenda = MeetingWithAgenda(meeting: Meeting, agenda: seq<AgendaItem>)

  // ---------------------------------------------------------------------------
  // GET

  /** The `where` clause: each filter applies only when its parameter is given. */
  predicate Matches(q: Query, m: Meeting) {
    && (Given(q.municipalityId) ==> m.municipalityId == q.municipalityId.value)
    && (Given(q.committee) ==> m.committee == q.committee.value)
    && (Given(q.status) ==> m.status == q.status.value)
  }

  /** The meetings the `where` clause selects, in table order. */
  function Matching(meetings: seq<Meeting>, q: Query): (r: seq<Meeting>)
    ensures forall m :: m in r <==> m in meetings && Matches(q, m)
    ensures forall m :: multiset(r)[m] == if Matches(q, m) then multiset(meetings)[m] else 0
    ensures IsSubseq(r, meetings)
  {
    Filter(meetings, m => Matches(q, m))
  }

  /** `orderBy: { date: 'desc' }`. */
  predicate LaterFirst(a: Meeting, b: Meeting) {
    a.date >= b.date
  }

  lemma LaterFirstTotal()
    ensures TotalPreorder(LaterFirst)
  {
  }

  /** The agenda included with a meeting: every item of that meeting, once per row, lowest `order` first. */
  function AgendaOf(items: seq<AgendaItem>, meetingId: Id): (r: seq<AgendaItem>)
    ensures forall a :: multiset(r)[a] == if a.meetingId == meetingId then multiset(items)[a] else 0
    ensures forall a :: a in r <==> a in items && a.meetingId == meetingId
    ensures forall i, j :: 0 <= i < j < |r| ==> r[i].order <= r[j].order
  {
    AgendaItemsRoute.LowerOrderFirstTotal();
    var own := Filter(items, (a: AgendaItem) => a.meetingId == meetingId);
    var r := SortBy(own, AgendaItemsRoute.LowerOrderFirst);
    assert forall a :: a in r <==> a in multiset(own);
    r
  }

  /**
   * The agenda included with a meeting is what the agenda items route lists
   * for `meetingId` set to that meeting's id, before paging.
   */
  lemma AgendaIsAgendaItemsListing(items: seq<AgendaItem>, meetingId: Id)
    requires meetingId != ""
    ensures AgendaOf(items, meetingId) == AgendaItemsRoute.Ordered(items, AgendaItemsRoute.Query(Some(meetingId), None, None))
  {
    var q := AgendaItemsRoute.Query(Some(meetingId), None, None);
    FilterSame(items, (a: AgendaItem) => a.meetingId == meetingId, a => AgendaItemsRoute.Matches(q, a));
  }

  /** The matching meetings, latest first: a reordering of the matches. */
  function Ordered(meetings: seq<Meeting>, q: Query): (r: seq<Meeting>)
    ensures multiset(r) == multiset(Matching(meetings, q))
    ensures forall i, j :: 0 <= i < j < |r| ==> r[i].date >= r[j].date
  {
    LaterFirstTotal();
    SortBy(Matching(meetings, q), LaterFirst)
  }

  /** Each meeting of a page with its agenda. */
  function WithAgendas(page: seq<Meeting>, items: seq<AgendaItem>): (r: seq<MeetingWithAgenda>)
    ensures |r| == |page|
    ensures forall i :: 0 <= i < |page| ==> r[i] == MeetingWithAgenda(page[i], AgendaOf(items, page[i].id))
  {
    seq(|page|, i requires 0 <= i < |page| => MeetingWithAgenda(page[i], AgendaOf(items, page[i].id)))
  }

  /**
   * `GET`: the page `offset`..`offset + limit` of the matching meetings,
   * latest first, with the count of all matches. A page parameter that is
   * not a natural number gives 500.
   */
  function Get(meetings: seq<Meeting>, agendaItems: seq<AgendaItem>, q: Query): (r: Reply<Page<MeetingWithAgenda>>)
    ensures PageBounds(q.limit, q.offset).None? ==> r == Failure(SERVER_ERROR, FETCH_FAILED)
    ensures PageBounds(q.limit, q.offset).Some? ==>
      var limit, offset := PageBounds(q.limit, q.offset).value.0, PageBounds(q.limit, q.offset).value.1;
      var total := |Matching(meetings, q)|;
      var shown := SkipTake(Ordered(meetings, q), offset, limit);
      && r.status == OK && r.payload.Data?
      && r.payload.value.pagination == Pagination(total, limit, offset, offset + limit < total)
      && |r.payload.value.items| == |shown| <= limit
      && r.payload.value.items == WithAgendas(shown, agendaItems)
      && (forall m :: m in shown ==> m in meetings && Matches(q, m))
  {
    match PageBounds(q.limit, q.offset)
    case None => Failure(SERVER_ERROR, FETCH_FAILED)
    case Some((limit, offset)) =>
      LaterFirstTotal();
      var p := Paginate(Matching(meetings, q), LaterFirst, limit, offset);
      assert p.items == SkipTake(Ordered(meetings, q), offset, limit);
      Success(OK, Page(WithAgendas(p.items, agendaItems), p.pagination))
  }

  /** Without a municipality, committee or status filter every meeting matches, and `total` counts the whole table. */
  lemma NoFilterMatchesAll(meetings: seq<Meeting>, q: Query)
    requires !Given(q.municipalityId) && !Given(q.committee) && !Given(q.status)
    ensures Matching(meetings, q) == meetings
  {
    FilterAll(meetings, m => Matches(q, m));
  }

  // ---------------------------------------------------------------------------
  // POST

  /** The 400 check: title, date, time, committee, status and municipalityId are all truthy. */
  predicate HasRequiredFields(body: Body) {
    && Truthy(Field(body, "title")) && Truthy(Field(body, "date")) && Truthy(Field(body, "time"))
    && Truthy(Field(body, "committee")) && Truthy(Field(body, "status")) && Truthy(Field(body, "municipalityId"))
  }

  datatype MeetingDraft = MeetingDraft(
    title: string, date: int, time: string, committee: string, status: string, municipalityId: Id)

  /**
   * The row data the handler builds: the four text fields trimmed (which
   * needs strings), `new Date(date)` through `parseDate` (None for an
   * invalid date), and the municipality id as given.
   */
  function Draft(body: Body, parseDate: Value -> Option<int>): (r: Option<MeetingDraft>)
    ensures r.Some? <==>
      && Field(body, "title").Str? && Field(body, "time").Str? && Field(body, "committee").Str?
      && Field(body, "status").Str? && Field(body, "municipalityId").Str? && parseDate(Field(body, "date")).Some?
    ensures r.Some? ==>
      && r.value.title == Trim(Field(body, "title").s)
      && r.value.date == parseDate(Field(body, "date")).value
      && r.value.time == Trim(Field(body, "time").s)
      && r.value.committee == Trim(Field(body, "committee").s)
      && r.value.status == Trim(Field(body, "status").s)
      && r.value.municipalityId == Field(body, "municipalityId").s
  {
    match (StringField(body, "title"), parseDate(Field(body, "date")), StringField(body, "time"),
           StringField(body, "committee"), StringField(body, "status"), StringField(body, "municipalityId"))
    case (Some(title), Some(date), Some(time), Some(committee), Some(status), Some(mid)) =>
      Some(MeetingDraft(Trim(title), date, Trim(time), Trim(committee), Trim(status), mid))
    case _ => None
  }

  function NewMeeting(d: MeetingDraft, id: Id): Meeting {
    Meeting(id, d.title, d.date, d.time, d.committee, d.status, d.municipalityId)
  }

  /** The body passes the 400 and 404 checks and the store accepts the insert. */
  ghost predicate Accepted(db: Database, body: Body, parseDate: Value -> Option<int>, freshId: Id)
    reads db
  {
    && HasRequiredFields(body)
    && Draft(body, parseDate).Some?
    && Draft(body, parseDate).value.municipalityId in Keys(db.municipalities, MunicipalityKey)
    && freshId !in Keys(db.meetings, MeetingKey)
  }

  /**
   * `POST`: 400 unless the required fields are truthy; 500 when
   * `municipalityId` is not a string (the lookup rejects it); 404 when no
   * municipality has that id; otherwise insert the meeting and reply 201, or
   * 500 when the insert fails. Only an accepted body writes anything.
   */
  method Post(db: Database, body: Body, parseDate: Value -> Option<int>, freshId: Id) returns (r: Reply<Meeting>)
    requires db.Valid()
    modifies db`meetings
    ensures db.Valid()
    ensures !old(Accepted(db, body, parseDate, freshId)) ==> db.meetings == old(db.meetings)
    ensures !HasRequiredFields(body) ==> r == Failure(BAD_REQUEST, MISSING_FIELDS)
    ensures HasRequiredFields(body) && !Field(body, "municipalityId").Str? ==> r == Failure(SERVER_ERROR, CREATE_FAILED)
    ensures (HasRequiredFields(body) && Field(body, "municipalityId").Str?
             && Field(body, "municipalityId").s !in Keys(db.municipalities, MunicipalityKey)) ==>
      r == Failure(NOT_FOUND, MUNICIPALITY_NOT_FOUND)
    ensures (HasRequiredFields(body) && Field(body, "municipalityId").Str?
             && Field(body, "municipalityId").s in Keys(db.municipalities, MunicipalityKey)
             && !old(Accepted(db, body, parseDate, freshId))) ==>
      r == Failure(SERVER_ERROR, CREATE_FAILED)
    ensures old(Accepted(db, body, parseDate, freshId)) ==>
      var m := NewMeeting(Draft(body, parseDate).value, freshId);
      db.meetings == old(db.meetings) + [m] && r == Success(CREATED, m)
  {
    if !HasRequiredFields(body) {
      return Failure(BAD_REQUEST, MISSING_FIELDS);
    }
    var mid := StringField(body, "municipalityId");
    if mid.None? {
      return Failure(SERVER_ERROR, CREATE_FAILED);
    }
    if FindBy(db.municipalities, MunicipalityKey, mid.value).None? {
      return Failure(NOT_FOUND, MUNICIPALITY_NOT_FOUND);
    }
    var draft := Draft(body, parseDate);
    if draft.None? || FindBy(db.meetings, MeetingKey, freshId).Some? {
      return Failure(SERVER_ERROR, CREATE_FAILED);
    }
    var m := NewMeeting(draft.value, freshId);
    db.CreateMeeting(m);
    r := Success(CREATED, m);
  }

  /**
   * The 400 check runs before the trim: a title of white space only is
   * truthy, so it passes validation and is stored as the empty string.
   */
  lemma BlankTitlePassesAndIsStoredEmpty(body: Body, parseDate: Value -> Option<int>)
    requires HasRequiredFields(body) && Draft(body, parseDate).Some?
    requires SpaceBetween(Field(body, "title").s, 0, |Field(body, "title").s|)
    ensures Draft(body, parseDate).value.title == ""
  {
    TrimAllSpace(Field(body, "title").s);
  }

  /** The stored text fields carry no surrounding white space, so trimming them again changes nothing. */
  lemma StoredTextIsTrimmed(body: Body, parseDate: Value -> Option<int>)
    requires Draft(body, parseDate).Some?
    ensures var d := Draft(body, parseDate).value;
      Trim(d.title) == d.title && Trim(d.time) == d.time && Trim(d.committee) == d.committee && Trim(d.status) == d.status
  {
    TrimIdempotent(Field(body, "title").s);
    TrimIdempotent(Field(body, "time").s);
    TrimIdempotent(Field(body, "committee").s);
    TrimIdempotent(Field(body, "status").s);
  }
}
