/** The client-side authentication store: the signed-in user, their profile
    and role, and the session lifecycle (initialize, set, clear). */
module AuthStore {
  import opened Common
  import opened Records

  const InitFallback := "Failed to initialize authentication"

  datatype State = State(
    user: Option<User>,
    profile: Option<Profile>,
    role: Option<UserRole>,
    isLoading: bool,
    error: Option<string>,
    isAuthenticated: bool)

  /** The store before `initialize` has run: loading, nobody signed in. */
  const Initial := State(None, None, None, true, None, false)

  /** The lifecycle invariant: authenticated exactly when a user is set. */
  predicate Consistent(s: State)
  {
    s.isAuthenticated <==> s.user.Some?
  }

  /** The replies `initialize` may receive: the current user (an error here
      stands for a rejected call), the profile lookup, and the insert of a
      new profile that follows a failed lookup. */
  datatype InitReplies = InitReplies(
    currentUser: Reply<Option<User>>,
    lookup: Reply<Option<Profile>>,
    create: Reply<Option<Profile>>)

  /** A user is signed in and their profile was either found or created. */
  predicate SignsIn(r: InitReplies)
  {
    r.currentUser.Ok? && r.currentUser.data.Some? && (r.lookup.Ok? || r.create.Ok?)
  }

  /** The new state and the profile row `initialize` inserted, if any. */
  datatype Initialized = Initialized(state: State, created: Option<Profile>)

  /** `initialize`. */
  function Initialize(s: State, r: InitReplies): (out: Initialized)
    // nobody signed in: everything is cleared
    ensures r.currentUser == Ok(None) ==>
      out.state == s.(user := None, profile := None, role := None, isAuthenticated := false, isLoading := false, error := None)
    // a user: their profile, looked up or newly created with their id, and the public role
    ensures r.currentUser.Ok? && r.currentUser.data.Some? && r.lookup.Ok? ==>
      out.state.user == r.currentUser.data && out.state.profile == r.lookup.data && out.created == None
    ensures r.currentUser.Ok? && r.currentUser.data.Some? && r.lookup.Err? ==>
      out.created == Some(map["id" := Text(r.currentUser.data.value.id)])
    ensures r.currentUser.Ok? && r.currentUser.data.Some? && r.lookup.Err? && r.create.Ok? ==>
      out.state.user == r.currentUser.data && out.state.profile == r.create.data
    ensures SignsIn(r) ==>
      out.state.role == Some(PublicUser) && out.state.isAuthenticated && out.state.error == None
    // a failure: only loading and the error change
    ensures !SignsIn(r) && r.currentUser != Ok(None) ==>
      out.state == s.(isLoading := false, error := out.state.error) && out.state.error.Some?
    // the stored error is the failed call's message, or the fallback
    ensures r.currentUser.Err? ==> out.state.error == Some(ErrorText(r.currentUser.message, InitFallback))
    ensures r.currentUser.Ok? && r.currentUser.data.Some? && r.lookup.Err? && r.create.Err? ==>
      out.state.error == Some(ErrorText(r.create.message, InitFallback))
    ensures !out.state.isLoading
  {
    var started := s.(isLoading := true, error := None);
    match r.currentUser
    case Err(message) => Initialized(started.(isLoading := false, error := Some(ErrorText(message, InitFallback))), None)
    case Ok(None) =>
      Initialized(started.(user := None, profile := None, role := None, isAuthenticated := false, isLoading := false), None)
    case Ok(Some(u)) =>
      match r.lookup
      case Ok(profile) =>
        Initialized(started.(user := Some(u), profile := profile, role := Some(PublicUser), isAuthenticated := true, isLoading := false), None)
      case Err(_) =>
        var row: Profile := map["id" := Text(u.id)];
        match r.create
        case Err(message) =>
          Initialized(started.(isLoading := false, error := Some(ErrorText(message, InitFallback))), Some(row))
        case Ok(profile) =>
          Initialized(started.(user := Some(u), profile := profile, role := Some(PublicUser), isAuthenticated := true, isLoading := false), Some(row))
  }

  /** `setUser`: authenticated exactly when the user is non-null. */
  function SetUser(s: State, user: Option<User>): (s': State)
    ensures s'.user == user
    ensures s'.isAuthenticated <==> user.Some?
    ensures s'.profile == s.profile && s'.role == s.role && s'.isLoading == s.isLoading && s'.error == s.error
  {
    s.(user := user, isAuthenticated := user.Some?)
  }

  /** `setProfile`, `setRole`, `setError`: each sets its own field and
      nothing else. */
  function SetProfile(s: State, profile: Option<Profile>): (s': State)
    ensures s'.profile == profile
    ensures s'.user == s.user && s'.role == s.role && s'.isLoading == s.isLoading && s'.error == s.error && s'.isAuthenticated == s.isAuthenticated
  {
    s.(profile := profile)
  }

  function SetRole(s: State, role: Option<UserRole>): (s': State)
    ensures s'.role == role
    ensures s'.user == s.user && s'.profile == s.profile && s'.isLoading == s.isLoading && s'.error == s.error && s'.isAuthenticated == s.isAuthenticated
  {
    s.(role := role)
  }

  function SetError(s: State, error: Option<string>): (s': State)
    ensures s'.error == error
    ensures s'.user == s.user && s'.profile == s.profile && s'.role == s.role && s'.isLoading == s.isLoading && s'.isAuthenticated == s.isAuthenticated
  {
    s.(error := error)
  }

  /** `clearAuth`: sign-out. Loading is left as it was. */
  function ClearAuth(s: State): (s': State)
    ensures s'.user.None? && s'.profile.None? && s'.role.None? && s'.error.None? && !s'.isAuthenticated
    ensures s'.isLoading == s.isLoading
  {
    s.(user := None, profile := None, role := None, isAuthenticated := false, error := None)
  }

  /** One action on the store. */
  datatype Action =
    | Init(replies: InitReplies)
    | SetUserTo(user: Option<User>)
    | SetProfileTo(profile: Option<Profile>)
    | SetRoleTo(role: Option<UserRole>)
    | SetErrorTo(error: Option<string>)
    | Clear

  function Step(s: State, a: Action): State
  {
    match a
    case Init(r) => Initialize(s, r).state
    case SetUserTo(u) => SetUser(s, u)
    case SetProfileTo(p) => SetProfile(s, p)
    case SetRoleTo(role) => SetRole(s, role)
    case SetErrorTo(e) => SetError(s, e)
    case Clear => ClearAuth(s)
  }

  function Run(s: State, actions: seq<Action>): State
    decreases |actions|
  {
    if |actions| == 0 then s else Run(Step(s, actions[0]), actions[1..])
  }

  /** Every action keeps the lifecycle invariant. */
  lemma StepKeepsConsistent(s: State, a: Action)
    requires Consistent(s)
    ensures Consistent(Step(s, a))
  {
  }

  /** From any consistent state (the initial one among them), every
      sequence of store actions leaves the store authenticated exactly when
      a user is set. */
  lemma {:induction false} RunKeepsConsistent(s: State, actions: seq<Action>)
    requires Consistent(s)
    ensures Consistent(Run(s, actions))
    decreases |actions|
  {
    if |actions| > 0 {
      StepKeepsConsistent(s, actions[0]);
      RunKeepsConsistent(Step(s, actions[0]), actions[1..]);
    }
  }

  /** The store is created consistent, loading and signed out, and stays
      consistent through every sequence of actions. */
  lemma {:induction false} InitialRunsConsistent(actions: seq<Action>)
    ensures Initial.isLoading && !Initial.isAuthenticated
    ensures Consistent(Run(Initial, actions))
  {
    RunKeepsConsistent(Initial, actions);
  }
}
