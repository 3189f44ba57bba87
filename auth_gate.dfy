/**
 * The authentication gate of the workout-plans page: on mount it checks the stored auth state and
 * the token's expiry claim, and either sends the user to the login page or shows the content.
 */
module AuthGate {
  import opened Common

  /** What the stored auth state says; the token may be absent. */
  datatype AuthState = AuthState(isAuthenticated: bool, token: Option<string>)

  /**
   * Decoding the token's payload segment: it fails, or yields the payload and its `exp` claim, a
   * NumericDate in seconds (section 4.1.4 of RFC 7519) that may be absent.
   */
  datatype Payload = Malformed | Decoded(exp: Option<int>)

  datatype Decision = RedirectToLogin | Proceed

  /**
   * The decision checkAuth reaches. A missing `exp` multiplies to NaN, and a comparison with NaN
   * is false, so such a token never counts as expired.
   */
  function AuthDecision(auth: AuthState, decode: string -> Payload, now: int): Decision {
    if !auth.isAuthenticated then RedirectToLogin
    else if Truthy(auth.token) then
      match decode(auth.token.value)
      case Malformed => RedirectToLogin
      case Decoded(exp) => if exp.Some? && exp.value * 1000 < now then RedirectToLogin else Proceed
    else Proceed
  }

  /**
   * The cases of the decision: unauthenticated, malformed and expired tokens are refused; a token
   * that expires at the current millisecond is still accepted; without a token the expiry check
   * is skipped.
   */
  lemma DecisionCases(auth: AuthState, decode: string -> Payload, now: int)
    ensures !auth.isAuthenticated ==> AuthDecision(auth, decode, now) == RedirectToLogin
    ensures auth.isAuthenticated && !Truthy(auth.token) ==> AuthDecision(auth, decode, now) == Proceed
    ensures auth.isAuthenticated && Truthy(auth.token) && decode(auth.token.value) == Malformed ==>
      AuthDecision(auth, decode, now) == RedirectToLogin
    ensures auth.isAuthenticated && Truthy(auth.token) && decode(auth.token.value) == Decoded(None) ==>
      AuthDecision(auth, decode, now) == Proceed
    ensures auth.isAuthenticated && Truthy(auth.token) && decode(auth.token.value).Decoded? && decode(auth.token.value).exp.Some? ==>
      (AuthDecision(auth, decode, now) == Proceed <==> decode(auth.token.value).exp.value * 1000 >= now)
  {
  }

  /** A token accepted now was accepted at every earlier moment: expiry only moves one way. */
  lemma AcceptedEarlier(auth: AuthState, decode: string -> Payload, now: int, earlier: int)
    requires earlier <= now && AuthDecision(auth, decode, now) == Proceed
    ensures AuthDecision(auth, decode, earlier) == Proceed
  {
  }

  /** What the page renders: the spinner while loading, nothing when not authenticated, else the section. */
  datatype View = Spinner | Nothing | Content

  /** The page's state: its two flags and the address the router was last told to open. */
  class WorkoutPlansPage {
    var isLoading: bool
    var isAuthenticated: bool
    var redirectedTo: Option<string>

    constructor()
      ensures isLoading && !isAuthenticated && redirectedTo.None?
    {
      isLoading := true;
      isAuthenticated := false;
      redirectedTo := None;
    }

    function Render(): View
      reads this
    {
      if isLoading then Spinner else if !isAuthenticated then Nothing else Content
    }

    /**
     * checkAuth: each failed check redirects to /login and returns at once, leaving both flags
     * as they were; only when every check passes do the flags change.
     */
    method CheckAuth(auth: AuthState, decode: string -> Payload, now: int)
      modifies this
      ensures AuthDecision(auth, decode, now) == Proceed ==>
        isAuthenticated && !isLoading && redirectedTo == old(redirectedTo)
      ensures AuthDecision(auth, decode, now) == RedirectToLogin ==>
        redirectedTo == Some("/login") && isLoading == old(isLoading) && isAuthenticated == old(isAuthenticated)
    {
      if !auth.isAuthenticated {
        redirectedTo := Some("/login");
        return;
      }
      if Truthy(auth.token) {
        var payload := decode(auth.token.value);
        if payload.Malformed? {
          redirectedTo := Some("/login");
          return;
        }
        var isExpired := payload.exp.Some? && payload.exp.value * 1000 < now;
        if isExpired {
          redirectedTo := Some("/login");
          return;
        }
      }
      isAuthenticated := true;
      isLoading := false;
    }
  }

  /**
   * Mounting the page: the section is shown exactly when the decision is to proceed; otherwise
   * the spinner stays up while the router leaves for /login.
   */
  method Mount(auth: AuthState, decode: string -> Payload, now: int) returns (view: View, redirect: Option<string>)
    ensures view == Content <==> AuthDecision(auth, decode, now) == Proceed
    ensures view != Content ==> view == Spinner && redirect == Some("/login")
    ensures view == Content ==> redirect.None?
  {
    var page := new WorkoutPlansPage();
    page.CheckAuth(auth, decode, now);
    view := page.Render();
    redirect := page.redirectedTo;
  }
}
