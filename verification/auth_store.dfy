/** The auth session store: the current identity, a loading flag, an error
    message, and whether the first auth-state report has arrived. Also the
    module-level guard that registers the auth-state listener at most once. */
module AuthStore {
  import opened Common
  import opened Records
  import Feed

  datatype State = State(user: Option<User>, loading: bool, error: Option<string>, isInitialized: bool)

  /** Before the first report: no user, loading, not initialised. */
  function Initial(): (s: State)
    ensures s.user == None && s.loading && s.error == None && !s.isInitialized
  {
    State(None, true, None, false)
  }

  /** `setUser(u)`: records the identity and marks the session as determined. */
  function SetUser(s: State, u: Option<User>): (r: State)
    ensures r.user == u && !r.loading && r.error == None && r.isInitialized
  {
    State(u, false, None, true)
  }

  /** `setLoading(b)`: only `loading` changes. */
  function SetLoading(s: State, b: bool): (r: State)
    ensures r.loading == b
    ensures r.user == s.user && r.error == s.error && r.isInitialized == s.isInitialized
  {
    s.(loading := b)
  }

  /** `setError(e)`: only `error` changes. */
  function SetError(s: State, e: Option<string>): (r: State)
    ensures r.error == e
    ensures r.user == s.user && r.loading == s.loading && r.isInitialized == s.isInitialized
  {
    s.(error := e)
  }

  /** `clearError()`: only `error` changes, to null. */
  function ClearError(s: State): (r: State)
    ensures r.error == None
    ensures r.user == s.user && r.loading == s.loading && r.isInitialized == s.isInitialized
  {
    s.(error := None)
  }

  /** The result of the backend's sign-out call. */
  datatype SignOutOutcome = SignedOut | SignOutFailed(message: string)

  /** What `logout` returns; a failure carries the raw error message. */
  datatype LogoutResult = LogoutOk | LogoutFailed(error: string)

  const LogoutFallback: string := "Failed to logout"

  /** The state `logout` publishes before awaiting the sign-out call. */
  function LogoutPending(s: State): (r: State)
    ensures r.loading && r.error == None
    ensures r.user == s.user && r.isInitialized == s.isInitialized
  {
    s.(loading := true, error := None)
  }

  /** `logout()` once sign-out has settled. On success the user is gone; on
      failure the user stays and the message (or a fallback when it is empty)
      is recorded. Either way `loading` ends false. */
  function Logout(s: State, outcome: SignOutOutcome): (r: (State, LogoutResult))
    ensures !r.0.loading && r.0.isInitialized == s.isInitialized
    ensures outcome.SignedOut? ==> r.0.user == None && r.0.error == None && r.1 == LogoutOk
    ensures outcome.SignOutFailed? ==>
      && r.0.user == s.user
      && r.0.error.Some? && r.0.error.value != ""
      && (outcome.message != "" ==> r.0.error == Some(outcome.message))
      && (outcome.message == "" ==> r.0.error == Some(LogoutFallback))
      && r.1 == LogoutFailed(outcome.message)
  {
    var pending := LogoutPending(s);
    match outcome
    case SignedOut => (pending.(user := None, loading := false), LogoutOk)
    case SignOutFailed(msg) =>
      (pending.(loading := false, error := Some(if msg != "" then msg else LogoutFallback)),
       LogoutFailed(msg))
  }

  /** `isAuthenticated()`. */
  predicate IsAuthenticated(s: State) {
    s.isInitialized && s.user.Some?
  }

  /** `getUserId()`: the uid when there is a user with a non-empty uid. */
  function GetUserId(s: State): (r: Option<string>)
    ensures r.Some? <==> s.user.Some? && s.user.value.uid != ""
    ensures r.Some? ==> r.value == s.user.value.uid
  {
    if s.user.Some? && s.user.value.uid != "" then Some(s.user.value.uid) else None
  }

  /** `getUserEmail()`: the email when there is a user with a non-empty email. */
  function GetUserEmail(s: State): (r: Option<string>)
    ensures r.Some? <==> s.user.Some? && s.user.value.email != ""
    ensures r.Some? ==> r.value == s.user.value.email
  {
    if s.user.Some? && s.user.value.email != "" then Some(s.user.value.email) else None
  }

  const AuthErrorText: string := "Authentication error occurred"

  /** The auth-state listener's success callback. */
  function OnAuthStateChanged(s: State, reported: Option<User>): (r: State)
    ensures r.user == reported && !r.loading && r.error == None && r.isInitialized
    ensures IsAuthenticated(r) <==> reported.Some?
  {
    SetUser(s, reported)
  }

  /** The auth-state listener's error callback: `setError` followed by
      `setUser(null)`. */
  function OnAuthError(s: State): (r: State)
    ensures r.user == None && !r.loading && r.isInitialized
  {
    SetUser(SetError(s, Some(AuthErrorText)), None)
  }

  /** The identity queries read back what `setUser` stored, and report
      nothing before the first report or after a successful logout. */
  lemma UserQueriesRoundTrip(s: State, u: User)
    ensures GetUserId(SetUser(s, Some(u))) == (if u.uid != "" then Some(u.uid) else None)
    ensures GetUserEmail(SetUser(s, Some(u))) == (if u.email != "" then Some(u.email) else None)
    ensures IsAuthenticated(SetUser(s, Some(u)))
    ensures var out := Logout(s, SignedOut).0;
      GetUserId(out) == None && GetUserEmail(out) == None && !IsAuthenticated(out)
    ensures !IsAuthenticated(Initial()) && GetUserId(Initial()) == None
  {
  }

  /** The error callback's message is overwritten at once: it ends with no
      user, not loading, initialised, and no error. */
  lemma AuthErrorMessageIsLost(s: State)
    ensures OnAuthError(s) == State(None, false, None, true)
    ensures !IsAuthenticated(OnAuthError(s))
  {
  }

  /** Every action on the store. */
  datatype Action =
    | DoSetUser(u: Option<User>)
    | DoSetLoading(b: bool)
    | DoSetError(e: Option<string>)
    | DoClearError
    | DoLogout(outcome: SignOutOutcome)
    | AuthChanged(reported: Option<User>)
    | AuthFailed

  function Apply(s: State, a: Action): State {
    match a
    case DoSetUser(u) => SetUser(s, u)
    case DoSetLoading(b) => SetLoading(s, b)
    case DoSetError(e) => SetError(s, e)
    case DoClearError => ClearError(s)
    case DoLogout(o) => Logout(s, o).0
    case AuthChanged(u) => OnAuthStateChanged(s, u)
    case AuthFailed => OnAuthError(s)
  }

  function ApplyAll(s: State, acts: seq<Action>): State
    decreases |acts|
  {
    if acts == [] then s else ApplyAll(Apply(s, acts[0]), acts[1..])
  }

  /** Once the session is determined it never becomes undetermined again. */
  lemma {:induction false} InitializedIsSticky(s: State, acts: seq<Action>)
    requires s.isInitialized
    ensures ApplyAll(s, acts).isInitialized
    decreases |acts|
  {
    if acts != [] {
      InitializedIsSticky(Apply(s, acts[0]), acts[1..]);
    }
  }

  /** Initialisation happens exactly when the first auth-state report (or
      another `setUser`) is applied: the other actions keep it false. */
  lemma {:induction false} InitializedOnlyBySetUser(s: State, acts: seq<Action>)
    requires !s.isInitialized
    requires forall k | 0 <= k < |acts| ::
      !acts[k].DoSetUser? && !acts[k].AuthChanged? && !acts[k].AuthFailed?
    ensures !ApplyAll(s, acts).isInitialized
    decreases |acts|
  {
    if acts != [] {
      InitializedOnlyBySetUser(Apply(s, acts[0]), acts[1..]);
    }
  }

  /** The module-level guard around the auth-state listener: the stored
      unsubscribe handle and the backend's listener registry. */
  datatype Listener = Listener(unsubscribe: Option<Feed.Handle>, registry: Feed.Registry<()>)

  /** Before the module runs `initializeAuthListener()`. */
  function NoListener(): Listener {
    Listener(None, Feed.Empty())
  }

  ghost predicate ListenerInv(l: Listener) {
    Feed.WellFormed(l.registry) && l.registry.live.Keys == Feed.Slot(l.unsubscribe)
  }

  /** `initializeAuthListener()`: does nothing when a handle is stored,
      otherwise registers one listener and stores its handle. */
  function InitializeAuthListener(l: Listener): (r: Listener)
    ensures l.unsubscribe.Some? ==> r == l
    ensures l.unsubscribe == None ==>
      && r.unsubscribe.Some?
      && r.registry.live.Keys == l.registry.live.Keys + {r.unsubscribe.value}
    ensures ListenerInv(l) ==> ListenerInv(r) && |r.registry.live| == 1
  {
    if l.unsubscribe.Some? then l
    else
      var (reg', h) := Feed.Subscribe(l.registry, ());
      Listener(Some(h), reg')
  }

  /** `cleanupAuthListener()`: unregisters the stored handle, if any, and
      resets it to null. */
  function CleanupAuthListener(l: Listener): (r: Listener)
    ensures r.unsubscribe == None
    ensures l.unsubscribe == None ==> r == l
    ensures ListenerInv(l) ==> ListenerInv(r) && r.registry.live == map[]
  {
    if l.unsubscribe.Some? then Listener(None, Feed.Cancel(l.registry, l.unsubscribe.value))
    else l
  }

  /** At module load nothing is registered, and the load-time call to
      `initializeAuthListener` registers exactly one listener. */
  lemma ModuleLoadRegistersOne()
    ensures ListenerInv(NoListener()) && NoListener().registry.live == map[]
    ensures var l := InitializeAuthListener(NoListener());
      ListenerInv(l) && l.unsubscribe.Some? && l.registry.live.Keys == {l.unsubscribe.value}
  {
  }

  datatype ListenerCall = Initialize | Cleanup

  function CallAll(l: Listener, calls: seq<ListenerCall>): Listener
    decreases |calls|
  {
    if calls == [] then l
    else
      var l' := if calls[0].Initialize? then InitializeAuthListener(l) else CleanupAuthListener(l);
      CallAll(l', calls[1..])
  }

  /** However often initialisation and cleanup are called, at most one
      auth-state listener is ever registered, and it is the stored one. */
  lemma {:induction false} AtMostOneAuthListener(l: Listener, calls: seq<ListenerCall>)
    requires ListenerInv(l)
    ensures var r := CallAll(l, calls);
      ListenerInv(r) && |r.registry.live| <= 1
    decreases |calls|
  {
    if calls != [] {
      var l' := if calls[0].Initialize? then InitializeAuthListener(l) else CleanupAuthListener(l);
      AtMostOneAuthListener(l', calls[1..]);
    }
    var r := CallAll(l, calls);
    assert |r.registry.live| == |r.registry.live.Keys|;
  }
}
