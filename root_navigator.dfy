/**
 * `RootNavigator`: mounts nothing while `useAuthState` is loading, then
 * exactly one of the `Main` tree (authenticated) and the `Auth` tree.
 */
module RootNavigator {
  import opened Common
  import opened AuthState
  import AuthContext

  datatype RootScreen = Auth | Main

  /** The root stack's content: `None` is the `return null` of the loading gap. */
  function Render(flags: Flags): (mounted: Option<RootScreen>)
    ensures mounted.None? <==> flags.isLoading
    ensures mounted == Some(Main) <==> !flags.isLoading && flags.isAuthenticated
    ensures mounted == Some(Auth) <==> !flags.isLoading && !flags.isAuthenticated
  {
    if flags.isLoading then None
    else if flags.isAuthenticated then Some(Main)
    else Some(Auth)
  }

  /**
   * The application's start: the router first renders with the hook's initial
   * flags, then again once the status check has settled.
   */
  method StartUp(outcome: Settled) returns (first: Option<RootScreen>, settled: Option<RootScreen>)
    ensures first == None
    ensures settled == if outcome.Fulfilled? then Some(Main) else Some(Auth)
  {
    var hook := new AuthStateHook();
    first := Render(hook.Current());
    hook.CheckAuthStatus(outcome);
    settled := Render(hook.Current());
  }

  /**
   * The router reads only the hook's flags, never the session store: after
   * both have started successfully, a successful logout through the store
   * empties the session while the `Main` tree stays mounted.
   */
  method LogoutLeavesMainMounted(loadedAt: int) returns (session: AuthContext.Session, mounted: Option<RootScreen>)
    ensures session.user.None? && !session.isAuthenticated
    ensures mounted == Some(Main)
  {
    var auth := new AuthContext.AuthProvider(loadedAt);
    var hook := new AuthStateHook();
    auth.InitializeAuth(Fulfilled);
    hook.CheckAuthStatus(Fulfilled);
    var _ := auth.Logout(Fulfilled);
    session := auth.State();
    mounted := Render(hook.Current());
  }
}
