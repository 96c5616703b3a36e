/**
 * The Google OAuth routes (`api/server/connectors/google_oauth.js`): a module-level `tokenStore`
 * map holds both the pending login `state` values and, under `google_<userId>`, the tokens of
 * each connected user. A state is recorded at login and consumed once at the callback, as the
 * CSRF protection of section 10.12 of RFC 6749 describes; the token exchange itself is simulated.
 */
module GoogleOAuth {
  import opened Wrappers
  import opened Strings

  /** An entry of `tokenStore`: a pending login, or the (mock) tokens of a connected user. */
  datatype TokenEntry =
    | PendingState(userId: string, timestamp: nat)
    | Tokens(accessToken: string, refreshToken: string, expiresIn: nat, timestamp: nat)

  type TokenStore = map<string, TokenEntry>

  /** `!!x` for a query parameter: present and not the empty string. */
  predicate Given(x: Option<string>) {
    x.Some? && x.value != ""
  }

  /** `${userId}_${Date.now()}_${random}`, with the nine random base-36 characters as `suffix`. */
  function StateFor(userId: string, now: nat, suffix: string): (r: string)
    ensures StartsWith(r, userId + "_")
  {
    var r := userId + "_" + DecimalString(now) + "_" + suffix;
    assert r[..|userId + "_"|] == userId + "_";
    r
  }

  /** `google_${userId}`. */
  function TokenKey(userId: string): (r: string)
    ensures StartsWith(r, "google_")
  {
    "google_" + userId
  }

  /** `stateData.userId`: a token entry has no `userId` field, which reads `undefined`. */
  function UserIdOf(e: TokenEntry): string {
    match e
    case PendingState(userId, _) => userId
    case Tokens(_, _, _, _) => "undefined"
  }

  /** The simulated result of the code exchange. */
  function MockTokens(now: nat): TokenEntry {
    Tokens("mock_access_token_" + DecimalString(now), "mock_refresh_token_" + DecimalString(now), 3600, now)
  }

  /** How a callback request ends. */
  datatype CallbackOutcome = OAuthError | MissingCodeOrState | InvalidState | Connected

  /** The HTTP status of each outcome; a successful callback answers with an HTML page. */
  function StatusCode(o: CallbackOutcome): (r: nat)
    ensures r == 200 <==> o == Connected
  {
    if o == Connected then 200 else 400
  }

  /** The map after login records `state`; nothing else changes. */
  function AfterLogin(store: TokenStore, userId: string, now: nat, suffix: string): (r: TokenStore)
    ensures StateFor(userId, now, suffix) in r && r[StateFor(userId, now, suffix)] == PendingState(userId, now)
    ensures forall k :: k != StateFor(userId, now, suffix) ==> (k in r <==> k in store) && (k in store ==> r[k] == store[k])
  {
    store[StateFor(userId, now, suffix) := PendingState(userId, now)]
  }

  /**
   * The callback on the map: an `error` parameter, then a missing `code` or `state`, then an
   * unknown `state`, each answer 400 with the map unchanged; otherwise the state is deleted and
   * the tokens are stored for the user it names.
   */
  function AfterCallback(store: TokenStore, code: Option<string>, state: Option<string>, error: Option<string>, now: nat):
    (r: (CallbackOutcome, TokenStore))
    ensures r.0 != Connected ==> r.1 == store
    ensures Given(error) ==> r.0 == OAuthError
    ensures !Given(error) && (!Given(code) || !Given(state)) ==> r.0 == MissingCodeOrState
    ensures !Given(error) && Given(code) && Given(state) && state.value !in store ==> r.0 == InvalidState
    ensures r.0 == Connected <==> !Given(error) && Given(code) && Given(state) && state.value in store
    ensures r.0 == Connected ==>
      var u := UserIdOf(store[state.value]);
      && TokenKey(u) in r.1 && r.1[TokenKey(u)] == MockTokens(now)
      && (state.value != TokenKey(u) ==> state.value !in r.1)
      && forall k :: k != state.value && k != TokenKey(u) ==> (k in r.1 <==> k in store) && (k in store ==> r.1[k] == store[k])
  {
    if Given(error) then (OAuthError, store)
    else if !Given(code) || !Given(state) then (MissingCodeOrState, store)
    else if state.value !in store then (InvalidState, store)
    else
      var stateData := store[state.value];
      (Connected, (store - {state.value})[TokenKey(UserIdOf(stateData)) := MockTokens(now)])
  }

  /** `connected: !!tokenStore.get('google_' + userId)`. */
  predicate IsConnected(store: TokenStore, userId: string) {
    TokenKey(userId) in store
  }

  /** A callback carrying the state of a login connects the user who logged in and consumes the state. */
  lemma LoginThenCallback(store: TokenStore, userId: string, now: nat, suffix: string, code: string, later: nat)
    requires code != ""
    ensures var state := StateFor(userId, now, suffix);
      var r := AfterCallback(AfterLogin(store, userId, now, suffix), Some(code), Some(state), None, later);
      && r.0 == Connected && IsConnected(r.1, userId) && r.1[TokenKey(userId)] == MockTokens(later)
      && (state != TokenKey(userId) ==> state !in r.1)
  {
    assert StateFor(userId, now, suffix) != "";
  }

  /** A state is good for one callback: replaying it is rejected, unless the tokens landed under that very key. */
  lemma ReplayRejected(store: TokenStore, code: string, state: string, now: nat, later: nat)
    requires code != "" && state != ""
    requires state in store && state != TokenKey(UserIdOf(store[state]))
    ensures var first := AfterCallback(store, Some(code), Some(state), None, now);
      first.0 == Connected && AfterCallback(first.1, Some(code), Some(state), None, later).0 == InvalidState
  {
  }

  /** A user's own token key passes the state check: the tokens move to `google_undefined`. */
  lemma TokenKeyAcceptedAsState(store: TokenStore, userId: string, code: string, now: nat)
    requires code != "" && TokenKey(userId) in store && store[TokenKey(userId)].Tokens?
    ensures var r := AfterCallback(store, Some(code), Some(TokenKey(userId)), None, now);
      r.0 == Connected && TokenKey("undefined") in r.1 && (userId != "undefined" ==> !IsConnected(r.1, userId))
  {
  }

  /** Disconnecting is idempotent and leaves pending states alone. */
  lemma DisconnectIdempotent(store: TokenStore, userId: string)
    ensures (store - {TokenKey(userId)}) - {TokenKey(userId)} == store - {TokenKey(userId)}
    ensures !IsConnected(store - {TokenKey(userId)}, userId)
    ensures forall k :: k in store && k != TokenKey(userId) ==> k in store - {TokenKey(userId)}
  {
  }

  class GoogleOAuthRouter {
    /** `tokenStore`. */
    var tokenStore: TokenStore

    constructor()
      ensures tokenStore == map[]
    {
      tokenStore := map[];
    }

    /** `GET /google/login`: records a fresh state and answers it (the authorisation URL is not modelled). */
    method Login(userId: string, now: nat, suffix: string) returns (state: string)
      modifies this
      ensures state == StateFor(userId, now, suffix) && StartsWith(state, userId + "_")
      ensures tokenStore == AfterLogin(old(tokenStore), userId, now, suffix)
    {
      state := StateFor(userId, now, suffix);
      tokenStore := tokenStore[state := PendingState(userId, now)];
    }

    /** `GET /google/callback`. */
    method Callback(code: Option<string>, state: Option<string>, error: Option<string>, now: nat)
      returns (outcome: CallbackOutcome, status: nat)
      modifies this
      ensures (outcome, tokenStore) == AfterCallback(old(tokenStore), code, state, error, now)
      ensures status == StatusCode(outcome)
    {
      if Given(error) {
        return OAuthError, 400;
      }
      if !Given(code) || !Given(state) {
        return MissingCodeOrState, 400;
      }
      if state.value !in tokenStore {
        return InvalidState, 400;
      }
      var stateData := tokenStore[state.value];
      tokenStore := tokenStore - {state.value};
      tokenStore := tokenStore[TokenKey(UserIdOf(stateData)) := MockTokens(now)];
      return Connected, 200;
    }

    /** `GET /google/status`. */
    method Status(userId: string) returns (connected: bool)
      ensures connected <==> TokenKey(userId) in tokenStore
    {
      connected := TokenKey(userId) in tokenStore;
    }

    /** `DELETE /google/disconnect`. */
    method Disconnect(userId: string)
      modifies this
      ensures tokenStore == old(tokenStore) - {TokenKey(userId)}
    {
      tokenStore := tokenStore - {TokenKey(userId)};
    }
  }
}
