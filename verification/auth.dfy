/** The session store of src/contexts/AuthContext.jsx: the reducer over
    `{ user, token, loading }`, its two process-wide side effects (the
    persisted token and the default `Authorization` header), and the
    startup effect that validates a persisted token. */
module AuthContext {
  import opened Common

  /** The reducer's state `{ user, token, loading }`. */
  datatype AuthState = AuthState(user: Option<User>, token: Option<string>, loading: bool)

  /** The LOGIN payload `{ token, user }`; either may be missing. */
  datatype LoginPayload = LoginPayload(token: Option<string>, user: Option<User>)

  /** The dispatched actions; `Other` is any action type the reducer
      does not know. */
  datatype Action = Login(payload: LoginPayload) | Logout | SetLoading(value: bool) | Other(kind: string)

  /** The whole session: the reducer's state, the token persisted in
      local storage and the default `Authorization` header. */
  datatype Session = Session(state: AuthState, stored: Option<string>, header: Option<string>)

  /** How a possibly missing token is written into storage or a template
      string: a present token is written as it is, a missing one
      (`undefined`) as the text "undefined", which is itself a truthy
      token when it is read back from storage. */
  function TokenText(t: Option<string>): (r: string)
    ensures t.Some? ==> r == t.value
    ensures t.None? ==> r == "undefined" && Truthy(Some(r))
  {
    match t
    case Some(v) => v
    case None => "undefined"
  }

  /** The `Authorization` header value for a token: the scheme word
      "Bearer", one space, then the token unchanged. */
  function Bearer(token: string): (h: string)
    ensures |h| == 7 + |token| && h[..7] == "Bearer " && h[7..] == token
  {
    "Bearer " + token
  }

  /** The state that `authReducer` returns: LOGIN takes user and token
      from the payload, LOGOUT clears both, and both end loading;
      SET_LOADING changes `loading` alone; any other action returns the
      state it was given. */
  function Reduce(s: AuthState, a: Action): (r: AuthState)
    ensures a.Login? ==> r.user == a.payload.user && r.token == a.payload.token && !r.loading
    ensures a.Logout? ==> r.user.None? && r.token.None? && !r.loading && Coherent(r)
    ensures a.SetLoading? ==> r.user == s.user && r.token == s.token && r.loading == a.value
    ensures a.Other? ==> r == s
  {
    match a
    case Login(p) => s.(user := p.user, token := p.token, loading := false)
    case Logout => s.(user := None, token := None, loading := false)
    case SetLoading(b) => s.(loading := b)
    case Other(_) => s
  }

  /** One dispatch: the reducer's new state together with the writes it
      performs on storage and on the default header. LOGIN persists its
      token (as text) and points the header at it, LOGOUT removes both,
      the other actions write neither; a dispatch that is well formed
      keeps storage and header in sync with the state. */
  function Step(w: Session, a: Action): (r: Session)
    ensures r.state == Reduce(w.state, a)
    ensures a.Login? ==> r.stored == Some(TokenText(a.payload.token))
                         && r.header == Some(Bearer(TokenText(a.payload.token)))
    ensures a.Logout? ==> r.stored.None? && r.header.None?
    ensures a.SetLoading? || a.Other? ==> r.stored == w.stored && r.header == w.header
    ensures WellFormed(a) && InSync(w) ==> InSync(r)
  {
    match a
    case Login(p) => Session(Reduce(w.state, a), Some(TokenText(p.token)), Some(Bearer(TokenText(p.token))))
    case Logout => Session(Reduce(w.state, a), None, None)
    case SetLoading(_) => w.(state := Reduce(w.state, a))
    case Other(_) => w
  }

  /** A run of dispatches, in order. */
  function StepAll(w: Session, acts: seq<Action>): Session
    decreases |acts|
  {
    if acts == [] then w else StepAll(Step(w, acts[0]), acts[1..])
  }

  /** Storage and header agree with the state's token: the persisted
      token is the state's token, and the header carries it as a bearer
      credential (and is absent when there is no token). */
  predicate InSync(w: Session) {
    && w.stored == w.state.token
    && w.header == (if w.state.token.Some? then Some(Bearer(w.state.token.value)) else None)
  }

  /** A user is present exactly when a token is. */
  predicate Coherent(s: AuthState) {
    s.user.Some? <==> s.token.Some?
  }

  /** An action the reducer applies with a present token, if it is a LOGIN. */
  predicate WellFormed(a: Action) {
    a.Login? ==> a.payload.token.Some?
  }

  /** LOGIN sets user and token from the payload and clears `loading`,
      persists that same token and sets the header to carry it: state,
      storage and header agree afterwards. */
  lemma LoginAgrees(w: Session, p: LoginPayload)
    requires p.token.Some?
    ensures Step(w, Login(p)).state == AuthState(p.user, p.token, false)
    ensures Step(w, Login(p)).stored == p.token
    ensures Step(w, Login(p)).header == Some("Bearer " + p.token.value)
    ensures InSync(Step(w, Login(p)))
  {
  }

  /** LOGIN with a missing token still writes storage and header, with
      the text "undefined" in them, while the state's token is missing:
      storage and state then disagree. */
  lemma LoginWithoutToken(w: Session, u: Option<User>)
    ensures Step(w, Login(LoginPayload(None, u))).stored == Some("undefined")
    ensures Step(w, Login(LoginPayload(None, u))).state.token.None?
    ensures !InSync(Step(w, Login(LoginPayload(None, u))))
  {
  }

  /** LOGOUT clears user and token, clears `loading`, removes the
      persisted token and deletes the header. */
  lemma LogoutClears(w: Session)
    ensures Step(w, Logout) == Session(AuthState(None, None, false), None, None)
    ensures InSync(Step(w, Logout)) && Coherent(Step(w, Logout).state)
  {
  }

  /** SET_LOADING changes only `loading`; storage and header are left as
      they were. */
  lemma SetLoadingOnlyLoading(w: Session, b: bool)
    ensures Step(w, SetLoading(b)).state.loading == b
    ensures Step(w, SetLoading(b)).state.user == w.state.user
    ensures Step(w, SetLoading(b)).state.token == w.state.token
    ensures Step(w, SetLoading(b)).stored == w.stored
    ensures Step(w, SetLoading(b)).header == w.header
  {
  }

  /** An unknown action returns the state unchanged and has no side
      effects. */
  lemma UnknownIsNoOp(w: Session, kind: string)
    ensures Step(w, Other(kind)) == w
  {
  }

  /** LOGIN and LOGOUT forget the session they start from; hence applying
      either twice is the same as applying it once. */
  lemma LoginLogoutIdempotent(w1: Session, w2: Session, a: Action)
    requires a.Login? || a.Logout?
    ensures Step(w1, a) == Step(w2, a)
    ensures Step(Step(w1, a), a) == Step(w1, a)
  {
  }

  /** After LOGIN with both a user and a token, or after LOGOUT, a user is
      present exactly when a token is. */
  lemma CoherentAfterLoginLogout(w: Session, a: Action)
    requires a.Logout? || (a.Login? && a.payload.user.Some? && a.payload.token.Some?)
    ensures Coherent(Step(w, a).state)
  {
  }

  /** Storage and header stay in agreement with the state over any run of
      dispatches in which every LOGIN carries a token. */
  lemma {:induction false} InSyncPreserved(w: Session, acts: seq<Action>)
    requires InSync(w)
    requires forall i :: 0 <= i < |acts| ==> WellFormed(acts[i])
    ensures InSync(StepAll(w, acts))
    decreases |acts|
  {
    if acts != [] {
      assert WellFormed(acts[0]);
      InSyncPreserved(Step(w, acts[0]), acts[1..]);
    }
  }

  /** Whatever happened before, the session after a run that ends with a
      LOGIN or a LOGOUT is the one that last action produces on its own:
      the transition table has no stray intermediate states. */
  lemma {:induction false} LastLoginOrLogoutWins(w: Session, acts: seq<Action>, any: Session)
    requires acts != [] && (acts[|acts| - 1].Login? || acts[|acts| - 1].Logout?)
    ensures StepAll(w, acts) == Step(any, acts[|acts| - 1])
    decreases |acts|
  {
    if |acts| > 1 {
      LastLoginOrLogoutWins(Step(w, acts[0]), acts[1..], any);
    }
  }

  /** The outcome of `GET /auth/me`: the profile in the response (possibly
      `null`), or a rejection. */
  datatype Identity = Verified(profile: Option<User>) | Rejected

  /** The action the startup effect dispatches for a given state token and
      identity outcome. */
  function StartupAction(token: Option<string>, identity: Identity): (a: Action)
    ensures forall s :: !Reduce(s, a).loading
    ensures Truthy(token) && identity.Verified? ==> a == Login(LoginPayload(token, identity.profile))
    ensures Truthy(token) && identity.Rejected? ==> a == Logout
    ensures !Truthy(token) ==> a == SetLoading(false)
    ensures Truthy(token) ==> WellFormed(a)
  {
    if Truthy(token) then
      match identity
      case Verified(profile) => Login(LoginPayload(token, profile))
      case Rejected => Logout
    else SetLoading(false)
  }

  /** A validation of the persisted token leaves the session in sync and
      out of loading, whatever the server answers. */
  lemma StartupSettles(w: Session, identity: Identity)
    requires Truthy(w.state.token)
    ensures InSync(Step(w, StartupAction(w.state.token, identity)))
    ensures !Step(w, StartupAction(w.state.token, identity)).state.loading
    ensures identity.Rejected? ==> Step(w, StartupAction(w.state.token, identity)).stored.None?
  {
  }

  /** The provider: the reducer's state plus the two process-wide values
      it writes. */
  class AuthStore {
    var state: AuthState
    var storedToken: Option<string>
    var authHeader: Option<string>

    function Snapshot(): Session
      reads this
    {
      Session(state, storedToken, authHeader)
    }

    /** `initialState`: no user, the persisted token (if any), loading.
        The header starts as the API client configured it. */
    constructor (persisted: Option<string>, header: Option<string>)
      ensures state == AuthState(None, persisted, true)
      ensures storedToken == persisted && authHeader == header
    {
      state := AuthState(None, persisted, true);
      storedToken := persisted;
      authHeader := header;
    }

    /** `dispatch(action)`: storage and header are written first, then
        the reducer's state replaces the old one. */
    method Dispatch(a: Action)
      modifies this
      ensures Snapshot() == Step(old(Snapshot()), a)
      ensures WellFormed(a) && old(InSync(Snapshot())) ==> InSync(Snapshot())
    {
      match a {
        case Login(p) =>
          storedToken := Some(TokenText(p.token));
          authHeader := Some(Bearer(TokenText(p.token)));
        case Logout =>
          storedToken := None;
          authHeader := None;
        case SetLoading(_) =>
        case Other(_) =>
      }
      state := Reduce(state, a);
    }

    /** The startup effect: with a truthy token, set the header, ask the
        server who the token belongs to, and log in with that same token
        or log out; without one, just leave the loading state. Returns the
        header in force when the identity call was made (none when no call
        was made). */
    method ValidateSession(identity: Identity) returns (sentHeader: Option<string>)
      modifies this
      ensures !state.loading
      ensures Truthy(old(state.token)) ==> sentHeader == Some(Bearer(old(state.token).value))
      ensures Truthy(old(state.token)) && identity.Verified? ==>
                state == AuthState(identity.profile, old(state.token), false)
                && storedToken == old(state.token) && authHeader == sentHeader
      ensures Truthy(old(state.token)) && identity.Rejected? ==>
                state == AuthState(None, None, false) && storedToken.None? && authHeader.None?
      ensures !Truthy(old(state.token)) ==>
                sentHeader.None? && state == old(state).(loading := false)
                && storedToken == old(storedToken) && authHeader == old(authHeader)
      ensures Truthy(old(state.token)) ==> InSync(Snapshot())
    {
      var token := state.token;
      if Truthy(token) {
        authHeader := Some(Bearer(token.value));
        sentHeader := authHeader;
      } else {
        sentHeader := None;
      }
      Dispatch(StartupAction(token, identity));
    }
  }
}
