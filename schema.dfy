/**
 * The relational store behind the API routes, as in-memory tables.
 *
 * Municipalities own budgets (which own budget categories), meetings (which
 * own agenda items) and forum threads (which own tag rows and comments).
 * Timestamps and latitude/longitude are not part of the model.
 */
module Schema {
  import opened Wrappers

  type Id = string

  datatype Municipality = Municipality(
    id: Id, name: string, state: string, zipCode: string,
    population: int, isServiced: bool, slug: string)

  datatype Budget = Budget(id: Id, year: int, totalBudget: int, municipalityId: Id)

  datatype BudgetCategory = BudgetCategory(id: Id, name: string, amount: int, color: string, budgetId: Id)

  datatype Meeting = Meeting(
    id: Id, title: string, date: int, time: string,
    committee: string, status: string, municipalityId: Id)

  datatype AgendaItem = AgendaItem(id: Id, content: string, order: int, meetingId: Id)

  datatype ForumThread = ForumThread(
    id: Id, title: string, content: string, author: string,
    municipalityId: Id, upvotes: int, downvotes: int)

  /** A tag is a child row of one thread, not shared between threads. */
  datatype ThreadTag = ThreadTag(name: string, threadId: Id)

  datatype Comment = Comment(id: Id, content: string, author: string, threadId: Id, upvotes: int, downvotes: int)

  // Keys of the tables, as named functions so that every use denotes the same key.
  function MunicipalityKey(m: Municipality): Id { m.id }
  function SlugKey(m: Municipality): string { m.slug }
  function BudgetKey(b: Budget): Id { b.id }
  function CategoryKey(c: BudgetCategory): Id { c.id }
  function MeetingKey(m: Meeting): Id { m.id }
  function AgendaItemKey(a: AgendaItem): Id { a.id }
  function ThreadKey(t: ForumThread): Id { t.id }
  function CommentKey(c: Comment): Id { c.id }

  /** No two rows share a key. */
  predicate UniqueKeys<T>(rows: seq<T>, key: T -> string) {
    forall i, j :: 0 <= i < j < |rows| ==> key(rows[i]) != key(rows[j])
  }

  /** The keys present in a table. */
  ghost function Keys<T>(rows: seq<T>, key: T -> string): set<string> {
    set r | r in rows :: key(r)
  }

  /** `findUnique({ where: { key: k } })`: the row with key `k`, if any. */
  function FindBy<T>(rows: seq<T>, key: T -> string, k: string): (r: Option<T>)
    ensures r.Some? ==> r.value in rows && key(r.value) == k
    ensures r.None? <==> k !in Keys(rows, key)
  {
    if rows == [] then None
    else if key(rows[0]) == k then Some(rows[0])
    else
      var r := FindBy(rows[1..], key, k);
      assert rows == [rows[0]] + rows[1..];
      r
  }

  /** Within a table whose keys are unique, the row found is the one row with that key. */
  lemma FindByUnique<T>(rows: seq<T>, key: T -> string, i: nat)
    requires UniqueKeys(rows, key) && i < |rows|
    ensures FindBy(rows, key, key(rows[i])) == Some(rows[i])
  {
    var r := FindBy(rows, key, key(rows[i]));
    var j :| 0 <= j < |rows| && rows[j] == r.value;
    assert key(rows[j]) == key(rows[i]);
  }

  /** Adding a row whose key is new keeps the keys unique and adds exactly that key. */
  lemma AppendFreshKey<T>(rows: seq<T>, key: T -> string, row: T)
    requires UniqueKeys(rows, key) && key(row) !in Keys(rows, key)
    ensures UniqueKeys(rows + [row], key)
    ensures Keys(rows + [row], key) == Keys(rows, key) + {key(row)}
  {
    var s := rows + [row];
    forall i, j | 0 <= i < j < |s| ensures key(s[i]) != key(s[j]) {
      if j == |rows| {
        assert s[i] in rows;
      } else {
        assert s[i] == rows[i] && s[j] == rows[j];
      }
    }
  }

  /** A table rewritten row by row without touching keys has the same keys. */
  lemma SameKeys<T>(rows: seq<T>, rows': seq<T>, key: T -> string)
    requires |rows| == |rows'|
    requires forall i :: 0 <= i < |rows| ==> key(rows'[i]) == key(rows[i])
    ensures Keys(rows', key) == Keys(rows, key)
    ensures UniqueKeys(rows', key) == UniqueKeys(rows, key)
  {
    forall k | k in Keys(rows', key) ensures k in Keys(rows, key) {
      var r :| r in rows' && key(r) == k;
      var i :| 0 <= i < |rows'| && rows'[i] == r;
      assert rows[i] in rows;
    }
    forall k | k in Keys(rows, key) ensures k in Keys(rows', key) {
      var r :| r in rows && key(r) == k;
      var i :| 0 <= i < |rows| && rows[i] == r;
      assert rows'[i] in rows';
    }
  }

  /** The database: one table per model, and the constraints the schema enforces. */
  class Database {
    var municipalities: seq<Municipality>
    var budgets: seq<Budget>
    var categories: seq<BudgetCategory>
    var meetings: seq<Meeting>
    var agendaItems: seq<AgendaItem>
    var threads: seq<ForumThread>
    var tags: seq<ThreadTag>
    var comments: seq<Comment>

    /** Primary keys and municipality slugs are unique, and every foreign key names an existing row. */
    ghost predicate Valid()
      reads this
    {
      && MunicipalitiesValid() && BudgetsValid() && CategoriesValid() && MeetingsValid()
      && AgendaItemsValid() && ThreadsValid() && TagsValid() && CommentsValid()
    }

    // One predicate per table, reading only that table and the one its
    // foreign key points to, so that a write to one table leaves the others'
    // constraints established.

    ghost predicate MunicipalitiesValid()
      reads this`municipalities
    {
      UniqueKeys(municipalities, MunicipalityKey) && UniqueKeys(municipalities, SlugKey)
    }

    ghost predicate BudgetsValid()
      reads this`budgets, this`municipalities
    {
      && UniqueKeys(budgets, BudgetKey)
      && forall b :: b in budgets ==> b.municipalityId in Keys(municipalities, MunicipalityKey)
    }

    ghost predicate CategoriesValid()
      reads this`categories, this`budgets
    {
      && UniqueKeys(categories, CategoryKey)
      && forall c :: c in categories ==> c.budgetId in Keys(budgets, BudgetKey)
    }

    ghost predicate MeetingsValid()
      reads this`meetings, this`municipalities
    {
      && UniqueKeys(meetings, MeetingKey)
      && forall m :: m in meetings ==> m.municipalityId in Keys(municipalities, MunicipalityKey)
    }

    ghost predicate AgendaItemsValid()
      reads this`agendaItems, this`meetings
    {
      && UniqueKeys(agendaItems, AgendaItemKey)
      && forall a :: a in agendaItems ==> a.meetingId in Keys(meetings, MeetingKey)
    }

    ghost predicate ThreadsValid()
      reads this`threads, this`municipalities
    {
      && UniqueKeys(threads, ThreadKey)
      && forall t :: t in threads ==> t.municipalityId in Keys(municipalities, MunicipalityKey)
    }

    ghost predicate TagsValid()
      reads this`tags, this`threads
    {
      forall g :: g in tags ==> g.threadId in Keys(threads, ThreadKey)
    }

    ghost predicate CommentsValid()
      reads this`comments, this`threads
    {
      && UniqueKeys(comments, CommentKey)
      && forall c :: c in comments ==> c.threadId in Keys(threads, ThreadKey)
    }

    // The inserts a successful `create` performs. Each requires what the
    // store checks (an unused key, an existing parent row) and keeps every
    // constraint.

    method CreateMunicipality(m: Municipality)
      requires Valid()
      requires m.id !in Keys(municipalities, MunicipalityKey) && m.slug !in Keys(municipalities, SlugKey)
      modifies this`municipalities
      ensures Valid() && municipalities == old(municipalities) + [m]
    {
      AppendFreshKey(municipalities, MunicipalityKey, m);
      AppendFreshKey(municipalities, SlugKey, m);
      municipalities := municipalities + [m];
    }

    method CreateBudget(b: Budget)
      requires Valid()
      requires b.id !in Keys(budgets, BudgetKey) && b.municipalityId in Keys(municipalities, MunicipalityKey)
      modifies this`budgets
      ensures Valid() && budgets == old(budgets) + [b]
    {
      AppendFreshKey(budgets, BudgetKey, b);
      budgets := budgets + [b];
    }

    method CreateCategory(c: BudgetCategory)
      requires Valid()
      requires c.id !in Keys(categories, CategoryKey) && c.budgetId in Keys(budgets, BudgetKey)
      modifies this`categories
      ensures Valid() && categories == old(categories) + [c]
    {
      AppendFreshKey(categories, CategoryKey, c);
      categories := categories + [c];
    }

    method CreateMeeting(m: Meeting)
      requires Valid()
      requires m.id !in Keys(meetings, MeetingKey) && m.municipalityId in Keys(municipalities, MunicipalityKey)
      modifies this`meetings
      ensures Valid() && meetings == old(meetings) + [m]
    {
      AppendFreshKey(meetings, MeetingKey, m);
      meetings := meetings + [m];
    }

    method CreateAgendaItem(a: AgendaItem)
      requires Valid()
      requires a.id !in Keys(agendaItems, AgendaItemKey) && a.meetingId in Keys(meetings, MeetingKey)
      modifies this`agendaItems
      ensures Valid() && agendaItems == old(agendaItems) + [a]
    {
      AppendFreshKey(agendaItems, AgendaItemKey, a);
      agendaItems := agendaItems + [a];
    }

    /** A thread together with its tag rows (a nested create). */
    method CreateThread(t: ForumThread, rows: seq<ThreadTag>)
      requires Valid()
      requires t.id !in Keys(threads, ThreadKey) && t.municipalityId in Keys(municipalities, MunicipalityKey)
      requires forall g :: g in rows ==> g.threadId == t.id
      modifies this`threads, this`tags
      ensures Valid() && threads == old(threads) + [t] && tags == old(tags) + rows
    {
      AppendFreshKey(threads, ThreadKey, t);
      threads := threads + [t];
      tags := tags + rows;
    }

    method CreateComment(c: Comment)
      requires Valid()
      requires c.id !in Keys(comments, CommentKey) && c.threadId in Keys(threads, ThreadKey)
      modifies this`comments
      ensures Valid() && comments == old(comments) + [c]
    {
      AppendFreshKey(comments, CommentKey, c);
      comments := comments + [c];
    }

    /** An empty database. */
    constructor ()
      ensures Valid()
      ensures municipalities == [] && budgets == [] && categories == [] && meetings == []
      ensures agendaItems == [] && threads == [] && tags == [] && comments == []
    {
      municipalities, budgets, categories, meetings := [], [], [], [];
      agendaItems, threads, tags, comments := [], [], [], [];
    }
  }
}
