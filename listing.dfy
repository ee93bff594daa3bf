/**
 * The list pattern every collection GET shares: an optional equality filter,
 * a fixed ordering, then `skip: offset, take: limit`, with a pagination
 * block `{ total, limit, offset, hasMore }` where `total` counts every row
 * that passes the filter and `hasMore` is `offset + limit < total`.
 */
module Listing {
  import opened Wrappers
  import Text
  import opened Seqs

  datatype Pagination = Pagination(total: nat, limit: nat, offset: nat, hasMore: bool)

  datatype Page<T> = Page(items: seq<T>, pagination: Pagination)

  /** The default page size, used when `limit` is missing or empty. */
  const DEFAULT_LIMIT: nat := 50
  /** The default offset, used when `offset` is missing or empty. */
  const DEFAULT_OFFSET: nat := 0

  /**
   * `parseInt(searchParams.get(name) || default)`: a missing or empty query
   * parameter gives the default; otherwise the parameter is parsed (None for NaN).
   */
  function PageParam(raw: Option<string>, default: nat): (r: Option<int>)
    ensures raw == None || raw == Some("") ==> r == Some(default)
    ensures raw.Some? && raw.value != "" ==> r == Text.ParseInt(raw.value)
  {
    if raw == None || raw == Some("") then Some(default) else Text.ParseInt(raw.value)
  }

  /** A query parameter filters only when it is present and not empty. */
  predicate Given(param: Option<string>) {
    param.Some? && param.value != ""
  }

  /** Both page parameters, when both parse to natural numbers. */
  function PageBounds(limit: Option<string>, offset: Option<string>): (r: Option<(nat, nat)>)
    ensures r.Some? <==>
      && PageParam(limit, DEFAULT_LIMIT).Some? && PageParam(limit, DEFAULT_LIMIT).value >= 0
      && PageParam(offset, DEFAULT_OFFSET).Some? && PageParam(offset, DEFAULT_OFFSET).value >= 0
    ensures r.Some? ==> r.value == (PageParam(limit, DEFAULT_LIMIT).value, PageParam(offset, DEFAULT_OFFSET).value)
  {
    match (PageParam(limit, DEFAULT_LIMIT), PageParam(offset, DEFAULT_OFFSET))
    case (Some(l), Some(o)) => if l >= 0 && o >= 0 then Some((l, o)) else None
    case _ => None
  }

  /**
   * The page of the matching rows ordered by `le`: the ordered matches from
   * position `offset` on, at most `limit` of them, with `total` the number
   * of matches and `hasMore` set when `offset + limit < total`.
   */
  function Paginate<T(!new)>(matching: seq<T>, le: (T, T) -> bool, limit: nat, offset: nat): (p: Page<T>)
    requires TotalPreorder(le)
    ensures p.pagination == Pagination(|matching|, limit, offset, offset + limit < |matching|)
    ensures p.items == SkipTake(SortBy(matching, le), offset, limit)
    ensures |p.items| <= limit
    ensures forall x :: x in p.items ==> x in matching
    ensures SortedBy(p.items, le)
  {
    var ordered := SortBy(matching, le);
    var items := SkipTake(ordered, offset, limit);
    assert forall x :: x in items ==> x in multiset(ordered);
    Page(items, Pagination(|matching|, limit, offset, offset + limit < |matching|))
  }

  /** When `hasMore` is set the page is full, and the page after it (offset advanced by limit) is not empty. */
  lemma HasMoreMeansFullPage<T(!new)>(matching: seq<T>, le: (T, T) -> bool, limit: nat, offset: nat)
    requires TotalPreorder(le)
    requires Paginate(matching, le, limit, offset).pagination.hasMore
    ensures |Paginate(matching, le, limit, offset).items| == limit
    ensures |Paginate(matching, le, 1, offset + limit).items| == 1
  {
  }

  /**
   * When `hasMore` is clear the page holds every remaining match: the page
   * after it is empty.
   */
  lemma NoMoreMeansRestShown<T(!new)>(matching: seq<T>, le: (T, T) -> bool, limit: nat, offset: nat)
    requires TotalPreorder(le)
    requires !Paginate(matching, le, limit, offset).pagination.hasMore
    ensures var p := Paginate(matching, le, limit, offset);
      offset + |p.items| >= p.pagination.total && Paginate(matching, le, 1, offset + limit).items == []
  {
  }

  /** Consecutive pages tile the ordered matches: page (offset, a) followed by page (offset + a, b) is page (offset, a + b). */
  lemma ConsecutivePages<T(!new)>(matching: seq<T>, le: (T, T) -> bool, offset: nat, a: nat, b: nat)
    requires TotalPreorder(le)
    ensures Paginate(matching, le, a, offset).items + Paginate(matching, le, b, offset + a).items
         == Paginate(matching, le, a + b, offset).items
  {
    PagesTile(SortBy(matching, le), offset, a, b);
  }

  /** The worked example: 12 matches, limit 5, offset 10 give the last 2 matches and `hasMore` false. */
  lemma LastPageExample<T(!new)>(matching: seq<T>, le: (T, T) -> bool)
    requires TotalPreorder(le) && |matching| == 12
    ensures var p := Paginate(matching, le, 5, 10);
      |p.items| == 2 && !p.pagination.hasMore && p.pagination.total == 12
  {
  }
}
