/**
 * The rube.app API-key connector (`api/server/services/Connectors/Rube.js`), kept in the shared
 * connector registry under the provider name "rube".
 */
module RubeConnector {
  import opened Wrappers
  import opened JsonValue
  import opened Connectors

  const Provider: string := "rube"

  /** `connectorData.metadata.authType` on data whose `metadata` is `null` or missing throws a `TypeError`. */
  datatype StatusError = TypeError

  /** The data `connectRubeAPIKey` stores. */
  function ApiKeyData(apiKey: string): (r: Object)
    ensures r.Keys == {"apiKey", "metadata"}
    ensures r["apiKey"] == JStr(apiKey)
    ensures r["metadata"] == JObj(map["authType" := JStr("api-key")])
    ensures Member(r["metadata"], "authType") == Some(JStr("api-key"))
  {
    map["apiKey" := JStr(apiKey), "metadata" := JObj(map["authType" := JStr("api-key")])]
  }

  /** The answer of `getRubeStatus`; `None` is a field that reads `undefined`. */
  datatype RubeStatus = NotConnected | Connected(authType: Option<Json>, connectedAt: Option<Json>)

  /** `getRubeStatus(userId)` on the registry. */
  function StatusOf(s: Registry, userId: string): (r: Result<RubeStatus, StatusError>)
    ensures Lookup(s, userId, Provider).None? ==> r == Ok(NotConnected)
    ensures r == Ok(NotConnected) ==> !IsConnected(s, userId, Provider)
    ensures r.Err? ==> var d := Lookup(s, userId, Provider).value;
      "metadata" !in d || d["metadata"] == JNull
  {
    match Lookup(s, userId, Provider)
    case None => Ok(NotConnected)
    case Some(d) =>
      if "metadata" !in d || d["metadata"] == JNull then Err(TypeError)
      else Ok(Connected(Member(d["metadata"], "authType"), Field(d, "connectedAt")))
  }

  /** After connecting with a key, the status reports the "api-key" method and the time of connection. */
  lemma StatusAfterConnect(s: Registry, userId: string, apiKey: string, now: string)
    ensures StatusOf(WithConnector(s, userId, Provider, ApiKeyData(apiKey), now), userId)
         == Ok(Connected(Some(JStr("api-key")), Some(JStr(now))))
  {
    StoreThenGet(s, userId, Provider, ApiKeyData(apiKey), now);
  }

  /** After a disconnect, the status is not connected. */
  lemma StatusAfterDisconnect(s: Registry, userId: string)
    ensures StatusOf(WithoutConnector(s, userId, Provider), userId) == Ok(NotConnected)
  {
    RemoveThenGet(s, userId, Provider);
  }

  /** `connectRubeAPIKey(userId, apiKey)`: the key is stored without validation. */
  method ConnectRubeAPIKey(store: ConnectorStore, userId: string, apiKey: string, now: string)
    modifies store
    ensures store.registry == WithConnector(old(store.registry), userId, Provider, ApiKeyData(apiKey), now)
  {
    store.StoreConnectorData(userId, Provider, ApiKeyData(apiKey), now);
  }

  /** `getRubeStatus(userId)`. */
  method GetRubeStatus(store: ConnectorStore, userId: string) returns (r: Result<RubeStatus, StatusError>)
    ensures r == StatusOf(store.registry, userId)
  {
    var connectorData := store.GetConnectorData(userId, Provider);
    if connectorData.None? {
      return Ok(NotConnected);
    }
    var d := connectorData.value;
    if "metadata" !in d || d["metadata"] == JNull {
      return Err(TypeError);
    }
    return Ok(Connected(Member(d["metadata"], "authType"), Field(d, "connectedAt")));
  }

  /** `disconnectRube(userId)`. */
  method DisconnectRube(store: ConnectorStore, userId: string)
    modifies store
    ensures store.registry == WithoutConnector(old(store.registry), userId, Provider)
  {
    store.RemoveConnectorData(userId, Provider);
  }
}
