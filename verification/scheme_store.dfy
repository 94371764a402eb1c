/** The client-side scheme store: the scheme list, the scheme being viewed,
    the recommendations, and the filters that drive refetching. */
module SchemeStore {
  import opened Common
  import opened Records

  const ListError := "Failed to fetch schemes"
  const DetailError := "Failed to fetch scheme details"

  /** Scheme filters keyed by column name (`region`, `category`, `ministry`,
      `income_limit`, ...). Absent keys are unset. */
  type Filters = Row

  datatype State = State(
    schemes: seq<Scheme>,
    current: Option<Scheme>,
    recommended: seq<Scheme>,
    filters: Filters,
    isLoading: bool,
    error: Option<string>)

  const Initial := State([], None, [], map[], false, None)

  /** A store action's new state together with the filters it asked the
      backend to list schemes with. */
  datatype Fetched = Fetched(state: State, query: Filters)

  /** The equality conditions the list query applies: every filter whose
      value is truthy. Empty strings, zeros and nulls filter nothing. */
  function QueryConditions(f: Filters): (c: Filters)
    ensures c.Keys <= f.Keys
    ensures forall k :: k in c ==> c[k] == f[k] && Truthy(f[k])
    ensures forall k :: k in f && Truthy(f[k]) ==> k in c
  {
    map k | k in f && Truthy(f[k]) :: f[k]
  }

  /** `fetchSchemes(filters)`: a successful reply replaces the list (an
      empty list for `null`); a failed one keeps it and sets a fixed
      message. */
  function FetchSchemes(s: State, filters: Filters, reply: Reply<Option<seq<Scheme>>>): (r: Fetched)
    ensures r.query == filters
    ensures !r.state.isLoading
    ensures reply.Ok? ==> r.state.schemes == OrEmpty(reply.data) && r.state.error == None
    ensures reply.Err? ==> r.state.schemes == s.schemes && r.state.error == Some(ListError)
    ensures r.state.filters == s.filters && r.state.current == s.current && r.state.recommended == s.recommended
  {
    var started := s.(isLoading := true, error := None);
    match reply
    case Ok(data) => Fetched(started.(schemes := OrEmpty(data), isLoading := false), filters)
    case Err(_) => Fetched(started.(isLoading := false, error := Some(ListError)), filters)
  }

  /** `fetchSchemeById`: a successful reply sets the current scheme (to
      `None` when the reply had no data); a failed one keeps it. */
  function FetchSchemeById(s: State, reply: Reply<Option<Scheme>>): (s': State)
    ensures !s'.isLoading
    ensures reply.Ok? ==> s'.current == reply.data && s'.error == None
    ensures reply.Err? ==> s'.current == s.current && s'.error == Some(DetailError)
    ensures s'.schemes == s.schemes && s'.filters == s.filters && s'.recommended == s.recommended
  {
    var started := s.(isLoading := true, error := None);
    match reply
    case Ok(data) => started.(current := data, isLoading := false)
    case Err(_) => started.(isLoading := false, error := Some(DetailError))
  }

  /** `setFilters(f)`: overlay `f` on the stored filters, then fetch with the
      merged filters. */
  function SetFilters(s: State, f: Filters, reply: Reply<Option<seq<Scheme>>>): (r: Fetched)
    ensures r.state.filters.Keys == s.filters.Keys + f.Keys
    ensures forall k :: k in f ==> r.state.filters[k] == f[k]
    ensures forall k :: k in s.filters && k !in f ==> r.state.filters[k] == s.filters[k]
    ensures r.query == r.state.filters
  {
    FetchSchemes(s.(filters := s.filters + f), s.filters + f, reply)
  }

  /** Applying the same `setFilters` argument twice leaves the same filters
      as applying it once. */
  lemma SetFiltersIdempotent(s: State, f: Filters, r1: Reply<Option<seq<Scheme>>>, r2: Reply<Option<seq<Scheme>>>)
    ensures SetFilters(SetFilters(s, f, r1).state, f, r2).state.filters == SetFilters(s, f, r1).state.filters
  {
  }

  /** `clearFilters`: drop every filter and fetch unfiltered. */
  function ClearFilters(s: State, reply: Reply<Option<seq<Scheme>>>): (r: Fetched)
    ensures r.state.filters == map[] && r.query == map[]
    ensures QueryConditions(r.query) == map[]
  {
    FetchSchemes(s.(filters := map[]), map[], reply)
  }

  /** `setRecommendedSchemes`: only the recommendations change. */
  function SetRecommendedSchemes(s: State, schemes: seq<Scheme>): (s': State)
    ensures s'.recommended == schemes
    ensures s'.schemes == s.schemes && s'.current == s.current && s'.filters == s.filters
    ensures s'.isLoading == s.isLoading && s'.error == s.error
  {
    s.(recommended := schemes)
  }
}
