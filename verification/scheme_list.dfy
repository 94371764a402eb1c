/** The scheme list page: a case-insensitive search over the loaded
    schemes, the filter selects that drive the store, and the filter panel
    toggle. */
module SchemeList {
  import opened Common
  import opened Records
  import SchemeStore

  /** A scheme matches a search term when the lowered term occurs in its
      lowered title, description or ministry. */
  predicate Matches(s: Scheme, term: string)
  {
    var t := Lower(term);
    Contains(Lower(s.title), t) || Contains(Lower(s.description), t) || Contains(Lower(s.ministry), t)
  }

  /** `filteredSchemes`: the schemes matching the search term, in store
      order. */
  function FilteredSchemes(schemes: seq<Scheme>, term: string): (r: seq<Scheme>)
    ensures |r| <= |schemes|
    ensures forall i :: 0 <= i < |r| ==> r[i] in schemes && Matches(r[i], term)
    ensures forall i :: 0 <= i < |schemes| && Matches(schemes[i], term) ==> schemes[i] in r
  {
    Filter(schemes, (s: Scheme) => Matches(s, term))
  }

  /** The result keeps the store's order. */
  lemma FilteredIsSubsequence(schemes: seq<Scheme>, term: string)
    ensures IsSubsequence(FilteredSchemes(schemes, term), schemes)
  {
    FilterIsSubsequence(schemes, (s: Scheme) => Matches(s, term));
  }

  /** An empty search keeps every scheme. */
  lemma EmptySearchKeepsAll(schemes: seq<Scheme>)
    ensures FilteredSchemes(schemes, "") == schemes
  {
    forall s | s in schemes ensures Matches(s, "") {
      assert "" <= Lower(s.title);
    }
    FilterAll(schemes, (s: Scheme) => Matches(s, ""));
  }

  /** Terms that differ only in letter case select the same schemes. */
  lemma {:induction false} SearchIgnoresCase(schemes: seq<Scheme>, t1: string, t2: string)
    requires Lower(t1) == Lower(t2)
    ensures FilteredSchemes(schemes, t1) == FilteredSchemes(schemes, t2)
  {
    if |schemes| > 0 {
      SearchIgnoresCase(schemes[1..], t1, t2);
    }
  }

  /** The category is not searched: whatever a scheme's category says, it
      matches exactly when it matches without it, so a scheme that mentions
      the term only in its category is filtered out. */
  lemma CategoryIsNotSearched(schemes: seq<Scheme>, s: Scheme, c: string, term: string)
    ensures Matches(s.(category := c), term) <==> Matches(s, term)
    ensures !Matches(s, term) ==> s.(category := c) !in FilteredSchemes(schemes, term)
  {
  }

  /** The page-local state: the search box and whether the filter panel is
      open. */
  datatype Page = Page(searchTerm: string, showFilters: bool)

  /** `toggleFilters`. */
  function ToggleFilters(p: Page): (p': Page)
    ensures p'.showFilters == !p.showFilters && p'.searchTerm == p.searchTerm
  {
    p.(showFilters := !p.showFilters)
  }

  /** `handleFilterChange(key, value)`: the store's filters with `key` set
      to `value`, handed to `setFilters`, which refetches. */
  function HandleFilterChange(s: SchemeStore.State, key: string, value: Value, reply: Reply<Option<seq<Scheme>>>)
    : (r: SchemeStore.Fetched)
    ensures r.state.filters.Keys == s.filters.Keys + {key}
    ensures r.state.filters[key] == value
    ensures forall k :: k in s.filters && k != key ==> r.state.filters[k] == s.filters[k]
    ensures r.query == r.state.filters
  {
    SchemeStore.SetFilters(s, s.filters[key := value], reply)
  }

  /** Choosing an "All ..." option sets the filter to the empty string: the
      key stays in the filters but no longer restricts the query, and the
      other conditions are kept. */
  lemma ChoosingAllDropsTheCondition(s: SchemeStore.State, key: string, reply: Reply<Option<seq<Scheme>>>)
    ensures var r := HandleFilterChange(s, key, Text(""), reply);
      && key in r.state.filters
      && key !in SchemeStore.QueryConditions(r.query)
      && forall k :: k in s.filters && k != key && Truthy(s.filters[k]) ==>
           k in SchemeStore.QueryConditions(r.query) && SchemeStore.QueryConditions(r.query)[k] == s.filters[k]
  {
  }
}
