/**
 * The towns route. `GET` reads every municipality ordered by name, trying
 * the read up to three times and waiting 1000 ms, then 2000 ms, between
 * failed attempts. `POST` validates the body, refuses a slug already in use
 * with 409 and otherwise stores the new town.
 */
module TownsRoute {
  import opened Wrappers
  import opened Text
  import opened Json
  import opened Http
  import opened Seqs
  import opened Schema

  const MAX_RETRIES: nat := 3
  const FETCH_FAILED := "Failed to fetch towns after multiple attempts"
  const UNKNOWN_ERROR := "Unknown error"
  const MISSING_FIELDS := "Missing required fields"
  const SLUG_TAKEN := "A town with this slug already exists"
  const CREATE_FAILED := "Failed to create town"

  // ---------------------------------------------------------------------------
  // GET

  /**
   * What one attempt at reading the table does: it returns the rows, or it
   * throws, with a message when the thrown value is an `Error`.
   */
  datatype Attempt = Returned | Threw(message: Option<string>)

  /** `orderBy: { name: 'asc' }`. */
  predicate NameFirst(a: Municipality, b: Municipality) {
    LexLe(a.name, b.name)
  }

  lemma NameFirstTotal()
    ensures TotalPreorder(NameFirst)
  {
    forall a: Municipality, b: Municipality ensures NameFirst(a, b) || NameFirst(b, a) {
      LexLeTotal(a.name, b.name);
    }
    forall a: Municipality, b: Municipality, c: Municipality | NameFirst(a, b) && NameFirst(b, c)
      ensures NameFirst(a, c)
    {
      LexLeTransitive(a.name, b.name, c.name);
    }
  }

  /** Every town, ordered by name: a reordering of the table. */
  function ByName(towns: seq<Municipality>): (r: seq<Municipality>)
    ensures multiset(r) == multiset(towns)
    ensures forall i, j :: 0 <= i < j < |r| ==> LexLe(r[i].name, r[j].name)
  {
    NameFirstTotal();
    SortBy(towns, NameFirst)
  }

  /** The waits before attempts 2 .. n + 1: `1000 * attempt` ms after each failed attempt. */
  function Delays(n: nat): (r: seq<nat>)
    ensures |r| == n
    ensures forall i :: 0 <= i < n ==> r[i] == 1000 * (i + 1)
  {
    if n == 0 then [] else Delays(n - 1) + [1000 * n]
  }

  /** The `details` of the final 500: the last error's message, or "Unknown error" when it was not an `Error`. */
  function Details(a: Attempt): string {
    if a.Threw? && a.message.Some? then a.message.value else UNKNOWN_ERROR
  }

  /**
   * `GET`: attempt `k` (1 to 3) has outcome `outcome(k)`. The first attempt
   * that returns gives 200 with the towns by name, after waiting 1000 ms
   * after each earlier failure; when all three throw, the reply is 500 with
   * the last error's message, after waits of 1000 and 2000 ms. `waits` lists
   * the waits in order.
   */
  method Get(db: Database, outcome: nat -> Attempt) returns (r: Reply<seq<Municipality>>, waits: seq<nat>)
    ensures r.status == OK <==> exists k :: 1 <= k <= MAX_RETRIES && outcome(k).Returned?
    ensures forall k :: 1 <= k <= MAX_RETRIES && outcome(k).Returned? && (forall j :: 1 <= j < k ==> outcome(j).Threw?) ==>
      r == Success(OK, ByName(db.municipalities)) && waits == Delays(k - 1)
    ensures (forall j :: 1 <= j <= MAX_RETRIES ==> outcome(j).Threw?) ==>
      r == Reply(SERVER_ERROR, Error(FETCH_FAILED, Some(Details(outcome(MAX_RETRIES))))) && waits == Delays(MAX_RETRIES - 1)
  {
    var attempt := 1;
    var lastError: Attempt := Threw(None);
    waits := [];
    while attempt <= MAX_RETRIES
      invariant 1 <= attempt <= MAX_RETRIES + 1
      invariant forall j :: 1 <= j < attempt ==> outcome(j).Threw?
      invariant waits == Delays(if attempt <= MAX_RETRIES then attempt - 1 else MAX_RETRIES - 1)
      invariant attempt > 1 ==> lastError == outcome(attempt - 1)
    {
      if outcome(attempt).Returned? {
        return Success(OK, ByName(db.municipalities)), waits;
      }
      lastError := outcome(attempt);
      if attempt < MAX_RETRIES {
        waits := waits + [1000 * attempt];
      }
      attempt := attempt + 1;
    }
    r := Reply(SERVER_ERROR, Error(FETCH_FAILED, Some(Details(lastError))));
  }

  // ---------------------------------------------------------------------------
  // POST

  /**
   * The 400 check: name, state, zipCode, population and slug are truthy and
   * coordinates is present (any value but `undefined`, `null` included).
   */
  predicate HasRequiredFields(body: Body) {
    && Truthy(Field(body, "name")) && Truthy(Field(body, "state")) && Truthy(Field(body, "zipCode"))
    && Truthy(Field(body, "population")) && Field(body, "coordinates") != Undefined && Truthy(Field(body, "slug"))
  }

  /** `isServiced || false`: false for a falsy value, the value itself otherwise, which the store takes only as a boolean. */
  function ServicedFlag(v: Value): (r: Option<bool>)
    ensures Falsy(v) ==> r == Some(false)
    ensures Truthy(v) ==> (r.Some? <==> v == Bool(true)) && (r.Some? ==> r.value)
  {
    if Falsy(v) then Some(false) else if v.Bool? then Some(v.b) else None
  }

  datatype TownDraft = TownDraft(name: string, state: string, zipCode: string, population: int, isServiced: bool, slug: string)

  /**
   * The row data: name, state, zipCode and slug as given (strings), the
   * parsed population, the serviced flag, and `coordinates[0]` readable
   * (it throws on `null`).
   */
  function Draft(body: Body): (r: Option<TownDraft>)
    ensures r.Some? <==>
      && Field(body, "name").Str? && Field(body, "state").Str? && Field(body, "zipCode").Str?
      && ParseIntValue(Field(body, "population")).Some? && ServicedFlag(Field(body, "isServiced")).Some?
      && Field(body, "coordinates") != Null && Field(body, "coordinates") != Undefined && Field(body, "slug").Str?
    ensures r.Some? ==>
      && Field(body, "name") == Str(r.value.name) && Field(body, "state") == Str(r.value.state)
      && Field(body, "zipCode") == Str(r.value.zipCode) && Field(body, "slug") == Str(r.value.slug)
      && r.value.population == ParseIntValue(Field(body, "population")).value
      && r.value.isServiced == ServicedFlag(Field(body, "isServiced")).value
  {
    var coordinates := Field(body, "coordinates");
    match (StringField(body, "name"), StringField(body, "state"), StringField(body, "zipCode"),
           ParseIntValue(Field(body, "population")), ServicedFlag(Field(body, "isServiced")), StringField(body, "slug"))
    case (Some(name), Some(state), Some(zip), Some(population), Some(serviced), Some(slug)) =>
      if coordinates == Null || coordinates == Undefined then None
      else Some(TownDraft(name, state, zip, population, serviced, slug))
    case _ => None
  }

  function NewTown(d: TownDraft, id: Id): Municipality {
    Municipality(id, d.name, d.state, d.zipCode, d.population, d.isServiced, d.slug)
  }

  /** The body passes the 400 and 409 checks and the store accepts the insert. */
  ghost predicate Accepted(db: Database, body: Body, freshId: Id)
    reads db
  {
    && HasRequiredFields(body)
    && Draft(body).Some?
    && Draft(body).value.slug !in Keys(db.municipalities, SlugKey)
    && freshId !in Keys(db.municipalities, MunicipalityKey)
  }

  /**
   * `POST`: 400 unless the required fields are present; 500 when the slug
   * is not a string (the lookup rejects it); 409 when a town already has
   * that slug; otherwise insert the town and reply 201, or 500 when the
   * insert fails. Slugs stay unique.
   */
  method Post(db: Database, body: Body, freshId: Id) returns (r: Reply<Municipality>)
    requires db.Valid()
    modifies db`municipalities
    ensures db.Valid()
    ensures !old(Accepted(db, body, freshId)) ==> db.municipalities == old(db.municipalities)
    ensures !HasRequiredFields(body) ==> r == Failure(BAD_REQUEST, MISSING_FIELDS)
    ensures HasRequiredFields(body) && !Field(body, "slug").Str? ==> r == Failure(SERVER_ERROR, CREATE_FAILED)
    ensures (HasRequiredFields(body) && Field(body, "slug").Str?
             && Field(body, "slug").s in old(Keys(db.municipalities, SlugKey))) ==>
      r == Failure(CONFLICT, SLUG_TAKEN)
    ensures (HasRequiredFields(body) && Field(body, "slug").Str?
             && Field(body, "slug").s !in old(Keys(db.municipalities, SlugKey))
             && !old(Accepted(db, body, freshId))) ==>
      r == Failure(SERVER_ERROR, CREATE_FAILED)
    ensures old(Accepted(db, body, freshId)) ==>
      var m := NewTown(Draft(body).value, freshId);
      db.municipalities == old(db.municipalities) + [m] && r == Success(CREATED, m)
  {
    if !HasRequiredFields(body) {
      return Failure(BAD_REQUEST, MISSING_FIELDS);
    }
    var slug := StringField(body, "slug");
    if slug.None? {
      return Failure(SERVER_ERROR, CREATE_FAILED);
    }
    if FindBy(db.municipalities, SlugKey, slug.value).Some? {
      return Failure(CONFLICT, SLUG_TAKEN);
    }
    var draft := Draft(body);
    if draft.None? || FindBy(db.municipalities, MunicipalityKey, freshId).Some? {
      return Failure(SERVER_ERROR, CREATE_FAILED);
    }
    var m := NewTown(draft.value, freshId);
    db.CreateMunicipality(m);
    r := Success(CREATED, m);
  }

  /** A town stored from an accepted body makes its slug taken, which is the condition `Post` answers with 409. */
  lemma SlugTakenAfterCreate(towns: seq<Municipality>, body: Body, freshId: Id)
    requires Draft(body).Some?
    ensures Field(body, "slug").s in Keys(towns + [NewTown(Draft(body).value, freshId)], SlugKey)
  {
    var m := NewTown(Draft(body).value, freshId);
    assert m in towns + [m];
  }

  /**
   * The same body posted twice: when the first `POST` creates the town, the
   * second is answered 409 and stores nothing, whatever id the store offers.
   */
  method PostTwice(db: Database, body: Body, firstId: Id, secondId: Id) returns (first: Reply<Municipality>, second: Reply<Municipality>)
    requires db.Valid()
    modifies db`municipalities
    ensures db.Valid()
    ensures first.status == CREATED ==> second == Failure(CONFLICT, SLUG_TAKEN)
    ensures first.status == CREATED ==> |db.municipalities| == |old(db.municipalities)| + 1
  {
    ghost var before := db.municipalities;
    first := Post(db, body, firstId);
    if first.status == CREATED {
      SlugTakenAfterCreate(before, body, firstId);
    }
    ghost var middle := db.municipalities;
    second := Post(db, body, secondId);
    if first.status == CREATED {
      assert db.municipalities == middle;
    }
  }
}
