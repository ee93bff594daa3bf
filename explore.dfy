/**
 * The explore page: a search box that selects the first matching
 * municipality, a list to pick one from, and a launch button that opens the
 * selected town's page when it is serviced and shows an error otherwise.
 */
module ExplorePage {
  import opened Wrappers
  import opened Seqs
  import opened Schema
  import opened MunicipalityStore

  /** The path the launch navigates to for a town. */
  function TownPath(slug: string): string {
    "/towns/" + slug
  }

  /** The page: the shared store plus its own error and loading flags and the pending navigation. */
  class Explore {
    const store: Store
    var showError: bool
    var isLoading: bool
    /** The location the page has scheduled to navigate to, if any. */
    var navigation: Option<string>

    constructor (store: Store)
      ensures this.store == store
      ensures !showError && !isLoading && navigation == None
    {
      this.store := store;
      showError, isLoading, navigation := false, false, None;
    }

    /**
     * `handleSearchChange`: store the query and clear the error; an empty
     * query clears the selection, a non-empty one selects its first match
     * and keeps the selection when nothing matches.
     */
    method HandleSearchChange(query: string)
      modifies this, store
      ensures store.searchQuery == query && !showError
      ensures store.municipalities == old(store.municipalities)
      ensures isLoading == old(isLoading) && navigation == old(navigation)
      ensures query == "" ==> store.selectedMunicipality == None
      ensures query != "" && FilterTowns(store.municipalities, query) != [] ==>
        store.selectedMunicipality == Some(FilterTowns(store.municipalities, query)[0])
      ensures query != "" && FilterTowns(store.municipalities, query) == [] ==>
        store.selectedMunicipality == old(store.selectedMunicipality)
    {
      store.SetSearchQuery(query);
      showError := false;
      if query != "" {
        var filtered := Filter(store.municipalities, m => MatchesQuery(m, query));
        if |filtered| > 0 {
          store.SetSelectedMunicipality(Some(filtered[0]));
        }
      } else {
        store.SetSelectedMunicipality(None);
      }
    }

    /** `handleMunicipalitySelect`: select `m`, show "name, state" in the search box and clear the error. */
    method HandleMunicipalitySelect(m: Municipality)
      modifies this, store
      ensures store.selectedMunicipality == Some(m)
      ensures store.searchQuery == m.name + ", " + m.state
      ensures !showError
      ensures store.municipalities == old(store.municipalities)
      ensures isLoading == old(isLoading) && navigation == old(navigation)
    {
      store.SetSelectedMunicipality(Some(m));
      store.SetSearchQuery(m.name + ", " + m.state);
      showError := false;
    }

    /**
     * `handleLaunch`: nothing without a selection; the error for a town that
     * is not serviced; otherwise start loading and schedule navigation to
     * the town's page.
     */
    method HandleLaunch()
      modifies this
      ensures old(store.selectedMunicipality).None? ==>
        showError == old(showError) && isLoading == old(isLoading) && navigation == old(navigation)
      ensures old(store.selectedMunicipality).Some? && !old(store.selectedMunicipality).value.isServiced ==>
        showError && isLoading == old(isLoading) && navigation == old(navigation)
      ensures old(store.selectedMunicipality).Some? && old(store.selectedMunicipality).value.isServiced ==>
        isLoading && showError == old(showError)
        && navigation == Some(TownPath(old(store.selectedMunicipality).value.slug))
    {
      var selected := store.selectedMunicipality;
      if selected.None? {
        return;
      }
      if !selected.value.isServiced {
        showError := true;
        return;
      }
      isLoading := true;
      navigation := Some(TownPath(selected.value.slug));
    }
  }

  /**
   * After a non-empty search the page selects the first entry of the
   * store's own filtered list: the page and the store apply the same search,
   * so the selection is the earliest municipality in the list that matches.
   */
  lemma SearchSelectsFirstMatch(towns: seq<Municipality>, query: string, i: nat)
    requires query != "" && i < |towns| && MatchesQuery(towns[i], query)
    requires forall j :: 0 <= j < i ==> !MatchesQuery(towns[j], query)
    ensures FilterTowns(towns, query) != [] && FilterTowns(towns, query)[0] == towns[i]
  {
    FilterFirst(towns, m => MatchesQuery(m, query), i);
  }
}
