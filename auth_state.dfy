/**
 * `useAuthState`: the two flags the root router reads, and the start-up
 * status check that settles them. It is separate from the session store in
 * AuthContext: nothing connects the two.
 */
module AuthState {
  import opened Common

  datatype Flags = Flags(isAuthenticated: bool, isLoading: bool)

  /** Not authenticated, loading until the status check settles. */
  const InitialFlags: Flags := Flags(false, true)

  /** `checkAuthStatus`: authenticated exactly when the check succeeded; loading ends either way. */
  function CheckAuthStatusStep(outcome: Settled): Flags {
    Flags(outcome.Fulfilled?, false)
  }

  class AuthStateHook {
    var isAuthenticated: bool
    var isLoading: bool

    function Current(): Flags
      reads this
    {
      Flags(isAuthenticated, isLoading)
    }

    constructor ()
      ensures Current() == InitialFlags
    {
      isAuthenticated := false;
      isLoading := true;
    }

    /** The effect run on mount: the try block sets the flag, the catch clears it, `finally` ends loading. */
    method CheckAuthStatus(outcome: Settled)
      modifies this
      ensures Current() == CheckAuthStatusStep(outcome)
      ensures isAuthenticated <==> outcome.Fulfilled?
      ensures !isLoading
    {
      if outcome.Fulfilled? {
        isAuthenticated := true;
      } else {
        isAuthenticated := false;
      }
      isLoading := false;
    }

    /** The exposed setter: overwrites the flag and nothing else. */
    method SetIsAuthenticated(value: bool)
      modifies this
      ensures isAuthenticated == value && isLoading == old(isLoading)
    {
      isAuthenticated := value;
    }
  }
}
