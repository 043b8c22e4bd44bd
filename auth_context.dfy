/** The session provider (client/src/context/AuthContext.jsx): the signed-in
    user, the loading flag and the token cookie, driven by startup, sign-in,
    sign-up, logout and the OAuth round trip. Every remote call is a reply
    passed in; cookie writes, remote calls, `setUser`, navigation and logging
    are appended to an event log in the order the code performs them. */
module AuthContext {
  import opened Optional
  import opened SearchParams

  /** The profile `getProfile` returns as `data`. */
  datatype Profile = Profile(id: nat, login: string, email: string, avatarUrl: Option<string>)

  /** The token cookie: its value and its lifetime in seconds. */
  datatype Cookie = Cookie(value: string, lifetimeSeconds: nat)

  /** `expires: 480 / (60 * 60 * 24)` days. */
  const TokenLifetimeSeconds: nat := 480

  const OAuthBase: string := "https://film-catalog-8re5.onrender.com/v1/auth/"

  /** A remote call that either resolves or rejects with a message. */
  datatype Outcome = Succeeded | Failed(message: string)

  /** How `getProfile` settles: rejected, or resolved with `data` (possibly
      null). */
  datatype ProfileReply = ProfileFailed(message: string) | ProfileLoaded(data: Option<Profile>)

  /** The `data` of a sign-in or OAuth reply: missing (so destructuring it
      throws), or an object whose `access_token` may be missing. */
  datatype TokenBody = NoBody | Body(accessToken: Option<string>)

  /** How `signIn` / `OAuthCallback` settles. */
  datatype TokenReply = TokenFailed(message: string) | TokenLoaded(body: TokenBody)

  /** Why a handler threw: a rejected call, or destructuring a missing body. */
  datatype Failure = Remote(message: string) | MissingBody

  /** How a handler's promise settles for its caller. */
  datatype Completion = Returned | Threw(reason: Failure)

  datatype Api = GetProfile | SignIn | SignUp | Logout | OAuthExchange(provider: string, params: Query)

  datatype AuthEvent =
    | CookieSet(cookie: Cookie)
    | CookieRemoved
    | Called(api: Api)
    | UserSet(user: Option<Profile>)
      /** `navigate(path, { state: { email } })`; `email` only for sign-up. */
    | NavigatedTo(path: string, email: Option<string>)
      /** `window.location.href = url` */
    | RedirectedTo(url: string)
    | ErrorLogged

  datatype AuthState = AuthState(user: Option<Profile>, isLoading: bool, cookie: Option<Cookie>, events: seq<AuthEvent>)

  /** The `access_token` the body carries when it is a non-empty string. */
  predicate HasToken(body: TokenBody) {
    body.Body? && body.accessToken.Some? && body.accessToken.value != ""
  }

  /** What a successful token reply does, in order: store the cookie, fetch
      the profile, then set the user and go to "/profile". */
  function TokenEvents(token: string, profile: ProfileReply): (es: seq<AuthEvent>)
    ensures |es| >= 2 && es[..2] == [CookieSet(Cookie(token, TokenLifetimeSeconds)), Called(GetProfile)]
    ensures profile.ProfileLoaded? <==> |es| == 4
    ensures profile.ProfileFailed? ==> |es| == 2
    ensures profile.ProfileLoaded? ==> es[2] == UserSet(profile.data) && es[3] == NavigatedTo("/profile", None)
  {
    [CookieSet(Cookie(token, TokenLifetimeSeconds)), Called(GetProfile)]
      + match profile
        case ProfileLoaded(data) => [UserSet(data), NavigatedTo("/profile", None)]
        case ProfileFailed(_) => []
  }

  /** The user after startup: the profile when a non-empty token is stored and
      the profile loads, no user otherwise. */
  function UserAtStartup(cookie: Option<Cookie>, profile: ProfileReply): (u: Option<Profile>)
    ensures (cookie.None? || cookie.value.value == "") ==> u.None?
    ensures u.Some? ==> profile.ProfileLoaded? && u == profile.data
    ensures cookie.Some? && cookie.value.value != "" && profile.ProfileLoaded? ==> u == profile.data
  {
    if cookie.Some? && cookie.value.value != "" then
      match profile
      case ProfileLoaded(data) => data
      case ProfileFailed(_) => None
    else None
  }

  /** A token whose profile loads leaves exactly this trail, in this order:
      the cookie, the profile request, the user, the navigation. */
  lemma SignInTrail(token: string, profile: ProfileReply)
    requires profile.ProfileLoaded?
    ensures var es := TokenEvents(token, profile);
      && es == [CookieSet(Cookie(token, 480)), Called(GetProfile), UserSet(profile.data), NavigatedTo("/profile", None)]
  {
    var es := TokenEvents(token, profile);
    assert es == es[..2] + [es[2], es[3]];
  }

  class AuthProvider {
    var user: Option<Profile>
    var isLoading: bool
    var cookie: Option<Cookie>
    var events: seq<AuthEvent>

    function State(): AuthState
      reads this
    {
      AuthState(user, isLoading, cookie, events)
    }

    /** The provider mounts with no user, loading, and whatever token cookie
      the browser already holds. */
    constructor(stored: Option<Cookie>)
      ensures State() == AuthState(None, true, stored, [])
    {
      user, isLoading, cookie, events := None, true, stored, [];
    }

    /** The startup check (lines 13-30): fetch the profile only when a
      non-empty token is stored; any failure means no user; loading ends in
      every case and nothing escapes. */
    method CheckAuth(profile: ProfileReply)
      modifies this
      ensures State() == old(State()).(user := UserAtStartup(old(cookie), profile), isLoading := false,
                                       events := old(events)
                                         + (if old(cookie).Some? && old(cookie).value.value != "" then [Called(GetProfile)] else [])
                                         + [UserSet(UserAtStartup(old(cookie), profile))])
    {
      isLoading := true;
      if cookie.Some? && cookie.value.value != "" {
        events := events + [Called(GetProfile)];
        match profile {
          case ProfileLoaded(data) =>
            user := data;
          case ProfileFailed(_) =>
            user := None;
        }
      } else {
        user := None;
      }
      events := events + [UserSet(user)];
      isLoading := false;
    }

    /** The token branch shared by sign-in (lines 40-46) and the OAuth
      callback (lines 96-102): without a non-empty `access_token` nothing
      happens; with one, the cookie is written for 480 seconds before the
      profile is fetched, and the user is set and "/profile" opened only
      when the profile loads. A missing body or a failed profile throws,
      the cookie staying written in the latter case. */
    method AcceptToken(body: TokenBody, profile: ProfileReply) returns (c: Completion)
      modifies this
      ensures body.NoBody? ==> c == Threw(MissingBody) && State() == old(State())
      ensures body.Body? && !HasToken(body) ==> c == Returned && State() == old(State())
      ensures HasToken(body) ==>
                && cookie == Some(Cookie(body.accessToken.value, TokenLifetimeSeconds))
                && isLoading == old(isLoading)
                && events == old(events) + TokenEvents(body.accessToken.value, profile)
                && (profile.ProfileLoaded? ==> c == Returned && user == profile.data)
                && (profile.ProfileFailed? ==> c == Threw(Remote(profile.message)) && user == old(user))
    {
      match body {
        case NoBody =>
          return Threw(MissingBody);
        case Body(token) =>
          if token.None? || token.value == "" {
            return Returned;
          }
          var value := token.value;
          cookie := Some(Cookie(value, TokenLifetimeSeconds));
          events := events + [CookieSet(Cookie(value, TokenLifetimeSeconds)), Called(GetProfile)];
          match profile {
            case ProfileFailed(message) =>
              return Threw(Remote(message));
            case ProfileLoaded(data) =>
              user := data;
              events := events + [UserSet(data), NavigatedTo("/profile", None)];
              return Returned;
          }
      }
    }

    /** `handleSignIn` (lines 36-52): every failure is rethrown to the
      caller, and loading is false afterwards on every path. */
    method HandleSignIn(reply: TokenReply, profile: ProfileReply) returns (c: Completion)
      modifies this
      ensures !isLoading
      ensures reply.TokenFailed? ==>
                c == Threw(Remote(reply.message)) && user == old(user) && cookie == old(cookie)
                && events == old(events) + [Called(SignIn)]
      ensures reply.TokenLoaded? && !HasToken(reply.body) ==>
                user == old(user) && cookie == old(cookie) && events == old(events) + [Called(SignIn)]
                && c == (if reply.body.NoBody? then Threw(MissingBody) else Returned)
      ensures reply.TokenLoaded? && HasToken(reply.body) ==>
                && cookie == Some(Cookie(reply.body.accessToken.value, TokenLifetimeSeconds))
                && events == old(events) + [Called(SignIn)] + TokenEvents(reply.body.accessToken.value, profile)
                && user == (if profile.ProfileLoaded? then profile.data else old(user))
                && c == (if profile.ProfileLoaded? then Returned else Threw(Remote(profile.message)))
    {
      isLoading := true;
      events := events + [Called(SignIn)];
      match reply {
        case TokenFailed(message) =>
          c := Threw(Remote(message));
        case TokenLoaded(body) =>
          c := AcceptToken(body, profile);
      }
      isLoading := false;
    }

    /** `handleSignUp` (lines 54-64): on success open "/confirm-email"
      carrying exactly the submitted email; the user is never touched;
      failures are rethrown; loading is false afterwards. The form is an
      object, so each of its keys appears once. */
    method HandleSignUp(form: Query, outcome: Outcome) returns (c: Completion)
      requires Distinct(KeysOf(form))
      modifies this
      ensures State() == old(State()).(isLoading := false,
                                       events := old(events) + [Called(SignUp)]
                                         + (if outcome.Succeeded? then [NavigatedTo("/confirm-email", Get(form, "email"))] else []))
      ensures c == (if outcome.Succeeded? then Returned else Threw(Remote(outcome.message)))
    {
      isLoading := true;
      events := events + [Called(SignUp)];
      match outcome {
        case Succeeded =>
          events := events + [NavigatedTo("/confirm-email", Get(form, "email"))];
          c := Returned;
        case Failed(message) =>
          c := Threw(Remote(message));
      }
      isLoading := false;
    }

    /** `handleLogout` (lines 67-79): the cookie goes before the remote call;
      only when the call succeeds is "/auth" opened and then the user
      cleared; a failure is rethrown with the user unchanged; loading is
      false afterwards. */
    method HandleLogout(outcome: Outcome) returns (c: Completion)
      modifies this
      ensures cookie.None? && !isLoading
      ensures outcome.Succeeded? ==>
                c == Returned && user.None?
                && events == old(events) + [CookieRemoved, Called(Logout), NavigatedTo("/auth", None), UserSet(None)]
      ensures outcome.Failed? ==>
                c == Threw(Remote(outcome.message)) && user == old(user)
                && events == old(events) + [CookieRemoved, Called(Logout)]
    {
      isLoading := true;
      cookie := None;
      events := events + [CookieRemoved, Called(Logout)];
      match outcome {
        case Succeeded =>
          events := events + [NavigatedTo("/auth", None)];
          user := None;
          events := events + [UserSet(None)];
          c := Returned;
        case Failed(message) =>
          c := Threw(Remote(message));
      }
      isLoading := false;
    }

    /** `handleOAuth` (lines 82-84): leave for the provider's sign-in page. */
    method HandleOAuth(provider: string)
      modifies this
      ensures State() == old(State()).(events := old(events) + [RedirectedTo(OAuthBase + provider)])
    {
      events := events + [RedirectedTo(OAuthBase + provider)];
    }

    /** `handleOAuthCallback` (lines 87-107): every query pair of the current
      location is forwarded to the exchange; a token is handled as in
      sign-in; any failure clears the user and is logged, never thrown; the
      loading flag is never touched. */
    method HandleOAuthCallback(provider: string, location: Query, reply: TokenReply, profile: ProfileReply)
      returns (params: Query)
      modifies this
      ensures Distinct(KeysOf(params)) && KeysOf(params) == FirstKeys(location, {})
      ensures forall k :: Get(params, k) == LastValue(location, k)
      ensures isLoading == old(isLoading)
      ensures reply.TokenFailed? || (reply.TokenLoaded? && reply.body.NoBody?) ==>
                && user.None? && cookie == old(cookie)
                && events == old(events) + [Called(OAuthExchange(provider, params)), UserSet(None), ErrorLogged]
      ensures reply.TokenLoaded? && reply.body.Body? && !HasToken(reply.body) ==>
                State() == old(State()).(events := old(events) + [Called(OAuthExchange(provider, params))])
      ensures reply.TokenLoaded? && HasToken(reply.body) ==>
                && cookie == Some(Cookie(reply.body.accessToken.value, TokenLifetimeSeconds))
                && events == old(events) + [Called(OAuthExchange(provider, params))]
                     + TokenEvents(reply.body.accessToken.value, profile)
                     + (if profile.ProfileFailed? then [UserSet(None), ErrorLogged] else [])
                && user == (if profile.ProfileLoaded? then profile.data else None)
    {
      params := CopyEntries(location, {});
      events := events + [Called(OAuthExchange(provider, params))];
      var c: Completion;
      match reply {
        case TokenFailed(message) =>
          c := Threw(Remote(message));
        case TokenLoaded(body) =>
          c := AcceptToken(body, profile);
      }
      if c.Threw? {
        user := None;
        events := events + [UserSet(None), ErrorLogged];
      }
    }
  }
}
