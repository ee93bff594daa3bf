/**
 * The budget categories route. `GET` lists categories, optionally those of
 * one budget, largest amount first, one page at a time. `POST` validates the
 * body, checks that the budget exists and stores the category with trimmed
 * name and colour.
 */
module BudgetCategoriesRoute {
  import opened Wrappers
  import opened Text
  import opened Json
  import opened Http
  import opened Seqs
  import opened Listing
  import opened Schema

  const FETCH_FAILED := "Failed to fetch budget categories"
  const MISSING_FIELDS := "Missing required fields: name, amount, color, and budgetId are required"
  const BUDGET_NOT_FOUND := "Budget not found"
  const CREATE_FAILED := "Failed to create budget category"

  datatype Query = Query(budgetId: Option<string>, limit: Option<string>, offset: Option<string>)

  // ---------------------------------------------------------------------------
  // GET

  /** The `where` clause: the budget filter applies only when `budgetId` is given. */
  predicate Matches(q: Query, c: BudgetCategory) {
    Given(q.budgetId) ==> c.budgetId == q.budgetId.value
  }

  /** The categories the `where` clause selects, in table order. */
  function Matching(categories: seq<BudgetCategory>, q: Query): (r: seq<BudgetCategory>)
    ensures forall c :: c in r <==> c in categories && Matches(q, c)
    ensures forall c :: multiset(r)[c] == if Matches(q, c) then multiset(categories)[c] else 0
  {
    Filter(categories, c => Matches(q, c))
  }

  /** `orderBy: { amount: 'desc' }`. */
  predicate LargerAmountFirst(a: BudgetCategory, b: BudgetCategory) {
    a.amount >= b.amount
  }

  lemma LargerAmountFirstTotal()
    ensures TotalPreorder(LargerAmountFirst)
  {
  }

  /** The matching categories, largest amount first: a reordering of the matches. */
  function Ordered(categories: seq<BudgetCategory>, q: Query): (r: seq<BudgetCategory>)
    ensures multiset(r) == multiset(Matching(categories, q))
    ensures forall i, j :: 0 <= i < j < |r| ==> r[i].amount >= r[j].amount
  {
    LargerAmountFirstTotal();
    SortBy(Matching(categories, q), LargerAmountFirst)
  }

  /**
   * `GET`: the page `offset`..`offset + limit` of the matching categories,
   * largest amount first, with the count of all matches. A page parameter
   * that is not a natural number gives 500.
   */
  function Get(categories: seq<BudgetCategory>, q: Query): (r: Reply<Page<BudgetCategory>>)
    ensures PageBounds(q.limit, q.offset).None? ==> r == Failure(SERVER_ERROR, FETCH_FAILED)
    ensures PageBounds(q.limit, q.offset).Some? ==>
      var limit, offset := PageBounds(q.limit, q.offset).value.0, PageBounds(q.limit, q.offset).value.1;
      var total := |Matching(categories, q)|;
      && r.status == OK && r.payload.Data?
      && r.payload.value.pagination == Pagination(total, limit, offset, offset + limit < total)
      && r.payload.value.items == SkipTake(Ordered(categories, q), offset, limit)
      && |r.payload.value.items| <= limit
      && (forall c :: c in r.payload.value.items ==> c in categories && Matches(q, c))
  {
    match PageBounds(q.limit, q.offset)
    case None => Failure(SERVER_ERROR, FETCH_FAILED)
    case Some((limit, offset)) =>
      LargerAmountFirstTotal();
      var p := Paginate(Matching(categories, q), LargerAmountFirst, limit, offset);
      assert p.items == SkipTake(Ordered(categories, q), offset, limit);
      Success(OK, p)
  }

  // ---------------------------------------------------------------------------
  // POST

  /** The 400 check: name, amount, color and budgetId are all truthy. */
  predicate HasRequiredFields(body: Body) {
    && Truthy(Field(body, "name")) && Truthy(Field(body, "amount"))
    && Truthy(Field(body, "color")) && Truthy(Field(body, "budgetId"))
  }

  datatype CategoryDraft = CategoryDraft(name: string, amount: int, color: string, budgetId: Id)

  /** The row data: trimmed name and colour (both must be strings), the parsed amount and the budget id. */
  function Draft(body: Body): (r: Option<CategoryDraft>)
    ensures r.Some? <==>
      && Field(body, "name").Str? && ParseIntValue(Field(body, "amount")).Some?
      && Field(body, "color").Str? && Field(body, "budgetId").Str?
    ensures r.Some? ==>
      && r.value.name == Trim(Field(body, "name").s)
      && r.value.amount == ParseIntValue(Field(body, "amount")).value
      && r.value.color == Trim(Field(body, "color").s)
      && r.value.budgetId == Field(body, "budgetId").s
  {
    match (StringField(body, "name"), ParseIntValue(Field(body, "amount")), StringField(body, "color"), StringField(body, "budgetId"))
    case (Some(name), Some(amount), Some(color), Some(bid)) => Some(CategoryDraft(Trim(name), amount, Trim(color), bid))
    case _ => None
  }

  function NewCategory(d: CategoryDraft, id: Id): BudgetCategory {
    BudgetCategory(id, d.name, d.amount, d.color, d.budgetId)
  }

  /** The body passes the 400 and 404 checks and the store accepts the insert. */
  ghost predicate Accepted(db: Database, body: Body, freshId: Id)
    reads db
  {
    && HasRequiredFields(body)
    && Draft(body).Some?
    && Draft(body).value.budgetId in Keys(db.budgets, BudgetKey)
    && freshId !in Keys(db.categories, CategoryKey)
  }

  /**
   * `POST`: 400 unless name, amount, color and budgetId are truthy; 500 when
   * `budgetId` is not a string; 404 when no budget has that id; otherwise
   * insert the category and reply 201, or 500 when the insert fails.
   */
  method Post(db: Database, body: Body, freshId: Id) returns (r: Reply<BudgetCategory>)
    requires db.Valid()
    modifies db`categories
    ensures db.Valid()
    ensures !old(Accepted(db, body, freshId)) ==> db.categories == old(db.categories)
    ensures !HasRequiredFields(body) ==> r == Failure(BAD_REQUEST, MISSING_FIELDS)
    ensures HasRequiredFields(body) && !Field(body, "budgetId").Str? ==> r == Failure(SERVER_ERROR, CREATE_FAILED)
    ensures (HasRequiredFields(body) && Field(body, "budgetId").Str?
             && Field(body, "budgetId").s !in Keys(db.budgets, BudgetKey)) ==>
      r == Failure(NOT_FOUND, BUDGET_NOT_FOUND)
    ensures (HasRequiredFields(body) && Field(body, "budgetId").Str?
             && Field(body, "budgetId").s in Keys(db.budgets, BudgetKey)
             && !old(Accepted(db, body, freshId))) ==>
      r == Failure(SERVER_ERROR, CREATE_FAILED)
    ensures old(Accepted(db, body, freshId)) ==>
      var c := NewCategory(Draft(body).value, freshId);
      db.categories == old(db.categories) + [c] && r == Success(CREATED, c)
  {
    if !HasRequiredFields(body) {
      return Failure(BAD_REQUEST, MISSING_FIELDS);
    }
    var bid := StringField(body, "budgetId");
    if bid.None? {
      return Failure(SERVER_ERROR, CREATE_FAILED);
    }
    if FindBy(db.budgets, BudgetKey, bid.value).None? {
      return Failure(NOT_FOUND, BUDGET_NOT_FOUND);
    }
    var draft := Draft(body);
    if draft.None? || FindBy(db.categories, CategoryKey, freshId).Some? {
      return Failure(SERVER_ERROR, CREATE_FAILED);
    }
    var c := NewCategory(draft.value, freshId);
    db.CreateCategory(c);
    r := Success(CREATED, c);
  }

  /**
   * The amount check is truthiness only: an amount of 0 is answered 400,
   * while a negative amount passes validation and is stored as given.
   */
  lemma OnlyZeroAmountRejected(body: Body, amount: int)
    requires Truthy(Field(body, "name")) && Truthy(Field(body, "color")) && Truthy(Field(body, "budgetId"))
    ensures !HasRequiredFields(body["amount" := Num(0)])
    ensures amount != 0 ==> HasRequiredFields(body["amount" := Num(amount)])
    ensures amount < 0 && Field(body, "name").Str? && Field(body, "color").Str? && Field(body, "budgetId").Str? ==>
      Draft(body["amount" := Num(amount)]).Some? && Draft(body["amount" := Num(amount)]).value.amount == amount
  {
    var b := body["amount" := Num(amount)];
    assert Field(b, "name") == Field(body, "name") && Field(b, "color") == Field(body, "color");
    assert Field(b, "budgetId") == Field(body, "budgetId") && Field(b, "amount") == Num(amount);
    assert Field(body["amount" := Num(0)], "amount") == Num(0);
  }
}
