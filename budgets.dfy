/**
 * The budgets route. `GET` lists budgets filtered by municipality and year,
 * latest year first, one page at a time, each with its categories largest
 * amount first. `POST` validates the body, checks that the municipality
 * exists and stores the budget with its year and total parsed as numbers.
 */
module BudgetsRoute {
  import opened Wrappers
  import opened Text
  import opened Json
  import opened Http
  import opened Seqs
  import opened Listing
  import opened Schema
  import BudgetCategoriesRoute

  const FETCH_FAILED := "Failed to fetch budgets"
  const MISSING_FIELDS := "Missing required fields: year, totalBudget, and municipalityId are required"
  const MUNICIPALITY_NOT_FOUND := "Municipality not found"
  const CREATE_FAILED := "Failed to create budget"

  datatype Query = Query(municipalityId: Option<string>, year: Option<string>, limit: Option<string>, offset: Option<string>)

  /** A listed budget with its categories included. */
  datatype BudgetWithCategories = BudgetWithCategories(budget: Budget, categories: seq<BudgetCategory>)

  // ---------------------------------------------------------------------------
  // GET

  /** A given `year` parameter must parse as an integer; NaN makes the query fail. */
  predicate YearParses(q: Query) {
    Given(q.year) ==> ParseInt(q.year.value).Some?
  }

  /** The `where` clause: each filter applies only when its parameter is given. */
  predicate Matches(q: Query, b: Budget) {
    && (Given(q.municipalityId) ==> b.municipalityId == q.municipalityId.value)
    && (Given(q.year) ==> ParseInt(q.year.value) == Some(b.year))
  }

  /** The budgets the `where` clause selects, in table order. */
  function Matching(budgets: seq<Budget>, q: Query): (r: seq<Budget>)
    ensures forall b :: b in r <==> b in budgets && Matches(q, b)
    ensures forall b :: multiset(r)[b] == if Matches(q, b) then multiset(budgets)[b] else 0
  {
    Filter(budgets, b => Matches(q, b))
  }

  /** `orderBy: { year: 'desc' }`. */
  predicate LaterYearFirst(a: Budget, b: Budget) {
    a.year >= b.year
  }

  lemma LaterYearFirstTotal()
    ensures TotalPreorder(LaterYearFirst)
  {
  }

  /** The matching budgets, latest year first: a reordering of the matches. */
  function Ordered(budgets: seq<Budget>, q: Query): (r: seq<Budget>)
    ensures multiset(r) == multiset(Matching(budgets, q))
    ensures forall i, j :: 0 <= i < j < |r| ==> r[i].year >= r[j].year
  {
    LaterYearFirstTotal();
    SortBy(Matching(budgets, q), LaterYearFirst)
  }

  /** The categories included with a budget: every category of that budget, largest amount first. */
  function CategoriesOf(categories: seq<BudgetCategory>, budgetId: Id): (r: seq<BudgetCategory>)
    ensures forall c :: multiset(r)[c] == if c.budgetId == budgetId then multiset(categories)[c] else 0
    ensures forall c :: c in r <==> c in categories && c.budgetId == budgetId
    ensures forall i, j :: 0 <= i < j < |r| ==> r[i].amount >= r[j].amount
  {
    BudgetCategoriesRoute.LargerAmountFirstTotal();
    var own := Filter(categories, (c: BudgetCategory) => c.budgetId == budgetId);
    var r := SortBy(own, BudgetCategoriesRoute.LargerAmountFirst);
    assert forall c :: c in r <==> c in multiset(own);
    r
  }

  /**
   * The categories included with a budget are what the budget categories
   * route lists for `budgetId` set to that budget's id, before paging.
   */
  lemma CategoriesAreCategoriesListing(categories: seq<BudgetCategory>, budgetId: Id)
    requires budgetId != ""
    ensures CategoriesOf(categories, budgetId)
         == BudgetCategoriesRoute.Ordered(categories, BudgetCategoriesRoute.Query(Some(budgetId), None, None))
  {
    var q := BudgetCategoriesRoute.Query(Some(budgetId), None, None);
    FilterSame(categories, (c: BudgetCategory) => c.budgetId == budgetId, c => BudgetCategoriesRoute.Matches(q, c));
  }

  /** Each budget of a page with its categories. */
  function WithCategories(page: seq<Budget>, categories: seq<BudgetCategory>): (r: seq<BudgetWithCategories>)
    ensures |r| == |page|
    ensures forall i :: 0 <= i < |page| ==> r[i] == BudgetWithCategories(page[i], CategoriesOf(categories, page[i].id))
  {
    seq(|page|, i requires 0 <= i < |page| => BudgetWithCategories(page[i], CategoriesOf(categories, page[i].id)))
  }

  /**
   * `GET`: the page `offset`..`offset + limit` of the matching budgets,
   * latest year first, with the count of all matches. A page parameter that
   * is not a natural number, or a `year` that is not an integer, gives 500.
   */
  function Get(budgets: seq<Budget>, categories: seq<BudgetCategory>, q: Query): (r: Reply<Page<BudgetWithCategories>>)
    ensures PageBounds(q.limit, q.offset).None? || !YearParses(q) ==> r == Failure(SERVER_ERROR, FETCH_FAILED)
    ensures PageBounds(q.limit, q.offset).Some? && YearParses(q) ==>
      var limit, offset := PageBounds(q.limit, q.offset).value.0, PageBounds(q.limit, q.offset).value.1;
      var total := |Matching(budgets, q)|;
      var shown := SkipTake(Ordered(budgets, q), offset, limit);
      && r.status == OK && r.payload.Data?
      && r.payload.value.pagination == Pagination(total, limit, offset, offset + limit < total)
      && r.payload.value.items == WithCategories(shown, categories)
      && |shown| <= limit
      && (forall b :: b in shown ==> b in budgets && Matches(q, b))
  {
    match PageBounds(q.limit, q.offset)
    case None => Failure(SERVER_ERROR, FETCH_FAILED)
    case Some((limit, offset)) =>
      if !YearParses(q) then Failure(SERVER_ERROR, FETCH_FAILED)
      else
        LaterYearFirstTotal();
        var p := Paginate(Matching(budgets, q), LaterYearFirst, limit, offset);
        assert p.items == SkipTake(Ordered(budgets, q), offset, limit);
        Success(OK, Page(WithCategories(p.items, categories), p.pagination))
  }

  /** A given year selects exactly the budgets of that year. */
  lemma YearFilterSelectsThatYear(budgets: seq<Budget>, q: Query, year: int)
    requires q.year == Some(ShowInt(year)) && !Given(q.municipalityId)
    ensures forall b :: b in Matching(budgets, q) <==> b in budgets && b.year == year
  {
    ParseShowInt(year);
  }

  // ---------------------------------------------------------------------------
  // POST

  /** The 400 check: year, totalBudget and municipalityId are all truthy. */
  predicate HasRequiredFields(body: Body) {
    Truthy(Field(body, "year")) && Truthy(Field(body, "totalBudget")) && Truthy(Field(body, "municipalityId"))
  }

  datatype BudgetDraft = BudgetDraft(year: int, totalBudget: int, municipalityId: Id)

  /** The row data: the parsed year and total (neither NaN) and the municipality id. */
  function Draft(body: Body): (r: Option<BudgetDraft>)
    ensures r.Some? <==>
      && ParseIntValue(Field(body, "year")).Some? && ParseIntValue(Field(body, "totalBudget")).Some?
      && Field(body, "municipalityId").Str?
    ensures r.Some? ==>
      && r.value.year == ParseIntValue(Field(body, "year")).value
      && r.value.totalBudget == ParseIntValue(Field(body, "totalBudget")).value
      && r.value.municipalityId == Field(body, "municipalityId").s
  {
    match (ParseIntValue(Field(body, "year")), ParseIntValue(Field(body, "totalBudget")), StringField(body, "municipalityId"))
    case (Some(year), Some(total), Some(mid)) => Some(BudgetDraft(year, total, mid))
    case _ => None
  }

  function NewBudget(d: BudgetDraft, id: Id): Budget {
    Budget(id, d.year, d.totalBudget, d.municipalityId)
  }

  /** The body passes the 400 and 404 checks and the store accepts the insert. */
  ghost predicate Accepted(db: Database, body: Body, freshId: Id)
    reads db
  {
    && HasRequiredFields(body)
    && Draft(body).Some?
    && Draft(body).value.municipalityId in Keys(db.municipalities, MunicipalityKey)
    && freshId !in Keys(db.budgets, BudgetKey)
  }

  /**
   * `POST`: 400 unless year, totalBudget and municipalityId are truthy; 500
   * when `municipalityId` is not a string; 404 when no municipality has that
   * id; otherwise insert the budget and reply 201, or 500 when the insert fails.
   */
  method Post(db: Database, body: Body, freshId: Id) returns (r: Reply<Budget>)
    requires db.Valid()
    modifies db`budgets
    ensures db.Valid()
    ensures !old(Accepted(db, body, freshId)) ==> db.budgets == old(db.budgets)
    ensures !HasRequiredFields(body) ==> r == Failure(BAD_REQUEST, MISSING_FIELDS)
    ensures HasRequiredFields(body) && !Field(body, "municipalityId").Str? ==> r == Failure(SERVER_ERROR, CREATE_FAILED)
    ensures (HasRequiredFields(body) && Field(body, "municipalityId").Str?
             && Field(body, "municipalityId").s !in Keys(db.municipalities, MunicipalityKey)) ==>
      r == Failure(NOT_FOUND, MUNICIPALITY_NOT_FOUND)
    ensures (HasRequiredFields(body) && Field(body, "municipalityId").Str?
             && Field(body, "municipalityId").s in Keys(db.municipalities, MunicipalityKey)
             && !old(Accepted(db, body, freshId))) ==>
      r == Failure(SERVER_ERROR, CREATE_FAILED)
    ensures old(Accepted(db, body, freshId)) ==>
      var b := NewBudget(Draft(body).value, freshId);
      db.budgets == old(db.budgets) + [b] && r == Success(CREATED, b)
  {
    if !HasRequiredFields(body) {
      return Failure(BAD_REQUEST, MISSING_FIELDS);
    }
    var mid := StringField(body, "municipalityId");
    if mid.None? {
      return Failure(SERVER_ERROR, CREATE_FAILED);
    }
    if FindBy(db.municipalities, MunicipalityKey, mid.value).None? {
      return Failure(NOT_FOUND, MUNICIPALITY_NOT_FOUND);
    }
    var draft := Draft(body);
    if draft.None? || FindBy(db.budgets, BudgetKey, freshId).Some? {
      return Failure(SERVER_ERROR, CREATE_FAILED);
    }
    var b := NewBudget(draft.value, freshId);
    db.CreateBudget(b);
    r := Success(CREATED, b);
  }

  /** A total of 0 as a number is answered 400, while the text "0" passes the check and is stored as 0. */
  lemma ZeroTotalOnlyAsText(body: Body)
    requires Truthy(Field(body, "year")) && Truthy(Field(body, "municipalityId"))
    ensures !HasRequiredFields(body["totalBudget" := Num(0)])
    ensures HasRequiredFields(body["totalBudget" := Str("0")])
    ensures ParseIntValue(Field(body, "year")).Some? && Field(body, "municipalityId").Str? ==>
      Draft(body["totalBudget" := Str("0")]).Some? && Draft(body["totalBudget" := Str("0")]).value.totalBudget == 0
  {
    assert Field(body["totalBudget" := Str("0")], "year") == Field(body, "year");
    assert Field(body["totalBudget" := Str("0")], "municipalityId") == Field(body, "municipalityId");
    assert Field(body["totalBudget" := Num(0)], "totalBudget") == Num(0);
    ZeroTextIsTruthy();
  }
}
