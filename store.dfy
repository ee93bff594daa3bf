/**
 * The client-side municipality store: the loaded municipalities, the
 * selected one and the search query, three setters that each replace one
 * field, and the search filter over the list.
 */
module MunicipalityStore {
  import opened Wrappers
  import opened Text
  import opened Seqs
  import opened Schema

  /**
   * The search predicate: the name or the state contains the query ignoring
   * letter case, or the zip code contains the query exactly as typed.
   */
  predicate MatchesQuery(m: Municipality, query: string) {
    || Contains(Lower(m.name), Lower(query))
    || Contains(Lower(m.state), Lower(query))
    || Contains(m.zipCode, query)
  }

  /**
   * `getFilteredMunicipalities` on a given list and query: the whole list
   * for an empty query, otherwise the matching entries in their original
   * order, each as often as in the list.
   */
  function FilterTowns(towns: seq<Municipality>, query: string): (r: seq<Municipality>)
    ensures query == "" ==> r == towns
    ensures forall m :: m in r <==> m in towns && (query == "" || MatchesQuery(m, query))
    ensures forall m :: multiset(r)[m] == if query == "" || MatchesQuery(m, query) then multiset(towns)[m] else 0
    ensures IsSubseq(r, towns)
  {
    if query == "" then
      IsSubseqRefl(towns);
      towns
    else
      Filter(towns, m => MatchesQuery(m, query))
  }

  /** Every municipality is found by its own (non-empty) name, typed in any letter case. */
  lemma FoundByOwnName(towns: seq<Municipality>, m: Municipality, typed: string)
    requires m in towns && m.name != "" && Lower(typed) == Lower(m.name)
    ensures m in FilterTowns(towns, typed)
  {
    ContainsMiddle([], Lower(m.name), []);
    assert [] + Lower(m.name) + [] == Lower(m.name);
  }

  /** Typing more narrows the result: whatever matches `query + more` matches `query`. */
  lemma LongerQueryNarrows(towns: seq<Municipality>, query: string, more: string)
    requires query != ""
    ensures forall m :: m in FilterTowns(towns, query + more) ==> m in FilterTowns(towns, query)
  {
    LowerConcat(query, more);
    forall m | MatchesQuery(m, query + more) ensures MatchesQuery(m, query) {
      if Contains(Lower(m.name), Lower(query + more)) {
        ContainsPrefix(Lower(m.name), Lower(query), Lower(more));
      } else if Contains(Lower(m.state), Lower(query + more)) {
        ContainsPrefix(Lower(m.state), Lower(query), Lower(more));
      } else {
        ContainsPrefix(m.zipCode, query, more);
      }
    }
  }

  /**
   * Letter case in the query matters only for the zip code: an entry that
   * matches by name or state matches the lower-cased query as well.
   */
  lemma NameAndStateIgnoreCase(m: Municipality, query: string)
    requires Contains(Lower(m.name), Lower(query)) || Contains(Lower(m.state), Lower(query))
    ensures MatchesQuery(m, Lower(query))
  {
    LowerIdempotent(query);
  }

  /** The store's state and setters. */
  class Store {
    var municipalities: seq<Municipality>
    var selectedMunicipality: Option<Municipality>
    var searchQuery: string

    /** The initial state: no municipalities, no selection, an empty query. */
    constructor ()
      ensures municipalities == [] && selectedMunicipality == None && searchQuery == ""
    {
      municipalities, selectedMunicipality, searchQuery := [], None, "";
    }

    /** `setMunicipalities`: replaces the list only. */
    method SetMunicipalities(towns: seq<Municipality>)
      modifies this
      ensures municipalities == towns
      ensures selectedMunicipality == old(selectedMunicipality) && searchQuery == old(searchQuery)
    {
      municipalities := towns;
    }

    /** `setSelectedMunicipality`: replaces the selection only (None is `null`). */
    method SetSelectedMunicipality(m: Option<Municipality>)
      modifies this
      ensures selectedMunicipality == m
      ensures municipalities == old(municipalities) && searchQuery == old(searchQuery)
    {
      selectedMunicipality := m;
    }

    /** `setSearchQuery`: replaces the query only. */
    method SetSearchQuery(query: string)
      modifies this
      ensures searchQuery == query
      ensures municipalities == old(municipalities) && selectedMunicipality == old(selectedMunicipality)
    {
      searchQuery := query;
    }

    /**
     * `getFilteredMunicipalities`: the stored list filtered by the stored
     * query. It reads the store and changes nothing.
     */
    function FilteredMunicipalities(): (r: seq<Municipality>)
      reads this
      ensures searchQuery == "" ==> r == municipalities
      ensures forall m :: m in r <==> m in municipalities && (searchQuery == "" || MatchesQuery(m, searchQuery))
      ensures IsSubseq(r, municipalities)
    {
      FilterTowns(municipalities, searchQuery)
    }
  }
}
