/**
 * The rube.app routes (`api/server/connectors/rube.js`): a module-level `rubeConnections` map
 * from `rube_<userId>` to the linked API key; the OAuth login and callback are scaffolds that
 * never touch it.
 */
module RubeRoutes {
  import opened Wrappers
  import opened Strings
  import opened JsonValue
  import GoogleOAuth

  /** A linked key and the time it was linked. */
  datatype Connection = Connection(apiKey: string, timestamp: nat)

  /** `rube_${userId}`. */
  function ConnectionKey(userId: string): string {
    "rube_" + userId
  }

  /** `apiKey` passes the check `!apiKey || typeof apiKey !== 'string'` exactly when it is a non-empty string. */
  predicate ValidApiKey(apiKey: Option<Json>) {
    apiKey.Some? && apiKey.value.JStr? && apiKey.value.s != ""
  }

  /** The state `POST /rube/login` answers with, in the same form as the Google login's. */
  function LoginState(userId: string, now: nat, suffix: string): (r: string)
    ensures StartsWith(r, userId + "_")
  {
    GoogleOAuth.StateFor(userId, now, suffix)
  }

  /** The status `GET /rube/callback` answers: 400 on an `error`, or on a missing `code` or `state`. */
  function CallbackStatus(code: Option<string>, state: Option<string>, error: Option<string>): (r: nat)
    ensures r == 200 <==> !GoogleOAuth.Given(error) && GoogleOAuth.Given(code) && GoogleOAuth.Given(state)
    ensures r != 200 ==> r == 400
  {
    if GoogleOAuth.Given(error) then 400
    else if !GoogleOAuth.Given(code) || !GoogleOAuth.Given(state) then 400
    else 200
  }

  class RubeRouter {
    /** `rubeConnections`. */
    var rubeConnections: map<string, Connection>

    constructor()
      ensures rubeConnections == map[]
    {
      rubeConnections := map[];
    }

    /** `POST /rube/link`: 400 and no change for a bad key, otherwise the key replaces any earlier one. */
    method Link(userId: string, apiKey: Option<Json>, now: nat) returns (status: nat)
      modifies this
      ensures !ValidApiKey(apiKey) ==> status == 400 && rubeConnections == old(rubeConnections)
      ensures ValidApiKey(apiKey) ==>
        status == 200 && rubeConnections == old(rubeConnections)[ConnectionKey(userId) := Connection(apiKey.value.s, now)]
    {
      if apiKey.None? || !Truthy(apiKey.value) || !apiKey.value.JStr? {
        return 400;
      }
      rubeConnections := rubeConnections[ConnectionKey(userId) := Connection(apiKey.value.s, now)];
      return 200;
    }

    /** `GET /rube/status`: connected exactly when a key is linked. */
    method Status(userId: string) returns (connected: bool)
      ensures connected <==> ConnectionKey(userId) in rubeConnections
    {
      connected := ConnectionKey(userId) in rubeConnections;
    }

    /** `DELETE /rube/disconnect`: removes the key; removing twice is removing once. */
    method Disconnect(userId: string)
      modifies this
      ensures rubeConnections == old(rubeConnections) - {ConnectionKey(userId)}
      ensures ConnectionKey(userId) !in rubeConnections
    {
      rubeConnections := rubeConnections - {ConnectionKey(userId)};
    }
  }

  /** Linking, then disconnecting, leaves every other user's link as it was. */
  lemma LinkThenDisconnect(m: map<string, Connection>, userId: string, key: string, now: nat)
    ensures (m[ConnectionKey(userId) := Connection(key, now)] - {ConnectionKey(userId)}) == m - {ConnectionKey(userId)}
  {
  }

  /** Keys of different users never share a slot. */
  lemma ConnectionKeyInjective(u1: string, u2: string)
    requires u1 != u2
    ensures ConnectionKey(u1) != ConnectionKey(u2)
  {
    assert ConnectionKey(u1)[5..] == u1 && ConnectionKey(u2)[5..] == u2;
  }
}
