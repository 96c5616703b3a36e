/**
 * The Google Cloud service-account connector (`api/server/services/Connectors/GoogleCloud.js`),
 * kept in the shared connector registry under the provider name "google-cloud".
 */
module GoogleCloudConnector {
  import opened Wrappers
  import opened JsonValue
  import opened OrderedMap
  import opened Connectors

  const Provider: string := "google-cloud"

  /** The error thrown for a service account without the required fields. */
  datatype UploadError = InvalidServiceAccount

  /** `connectorData.metadata.x` on data whose `metadata` is `null` or missing throws a `TypeError`. */
  datatype StatusError = TypeError

  /** `project_id`, `private_key` and `client_email` are all present and truthy. */
  predicate ValidServiceAccount(sa: Object) {
    HasTruthy(sa, "project_id") && HasTruthy(sa, "private_key") && HasTruthy(sa, "client_email")
  }

  /** The data an upload stores: the whole service account and its project and client e-mail. */
  function ServiceAccountData(sa: Object): (r: Object)
    requires ValidServiceAccount(sa)
    ensures r.Keys == {"serviceAccount", "metadata"}
    ensures r["serviceAccount"] == JObj(sa)
    ensures r["metadata"] == JObj(map["projectId" := sa["project_id"], "clientEmail" := sa["client_email"]])
    ensures Member(r["metadata"], "projectId") == Some(sa["project_id"])
    ensures Member(r["metadata"], "clientEmail") == Some(sa["client_email"])
  {
    map["serviceAccount" := JObj(sa),
        "metadata" := JObj(map["projectId" := sa["project_id"], "clientEmail" := sa["client_email"]])]
  }

  /** The answer of `getGoogleCloudStatus`; `None` is a field that reads `undefined`. */
  datatype GoogleCloudStatus =
    | NotConnected
    | Connected(projectId: Option<Json>, clientEmail: Option<Json>, connectedAt: Option<Json>)

  /** `getGoogleCloudStatus(userId)` on the registry. */
  function StatusOf(s: Registry, userId: string): (r: Result<GoogleCloudStatus, StatusError>)
    ensures Lookup(s, userId, Provider).None? ==> r == Ok(NotConnected)
    ensures r == Ok(NotConnected) ==> !IsConnected(s, userId, Provider)
    ensures r.Err? ==> var d := Lookup(s, userId, Provider).value;
      "metadata" !in d || d["metadata"] == JNull
  {
    match Lookup(s, userId, Provider)
    case None => Ok(NotConnected)
    case Some(d) =>
      if "metadata" !in d || d["metadata"] == JNull then Err(TypeError)
      else Ok(Connected(Member(d["metadata"], "projectId"), Member(d["metadata"], "clientEmail"), Field(d, "connectedAt")))
  }

  /** `getGoogleCloudCredentials(userId)`: `connectorData?.serviceAccount || null`. */
  function CredentialsOf(s: Registry, userId: string): (r: Option<Json>)
    ensures r.Some? ==> Truthy(r.value) && Lookup(s, userId, Provider).Some?
    ensures r.Some? ==> Field(Lookup(s, userId, Provider).value, "serviceAccount") == r
  {
    match Lookup(s, userId, Provider)
    case None => None
    case Some(d) => if HasTruthy(d, "serviceAccount") then Some(d["serviceAccount"]) else None
  }

  /** After an upload, the status reports the account's project and e-mail and the time of the upload. */
  lemma StatusAfterUpload(s: Registry, userId: string, sa: Object, now: string)
    requires ValidServiceAccount(sa)
    ensures StatusOf(WithConnector(s, userId, Provider, ServiceAccountData(sa), now), userId)
         == Ok(Connected(Some(sa["project_id"]), Some(sa["client_email"]), Some(JStr(now))))
    ensures CredentialsOf(WithConnector(s, userId, Provider, ServiceAccountData(sa), now), userId) == Some(JObj(sa))
  {
    StoreThenGet(s, userId, Provider, ServiceAccountData(sa), now);
  }

  /** After a disconnect, the status is not connected and there are no credentials. */
  lemma StatusAfterDisconnect(s: Registry, userId: string)
    ensures StatusOf(WithoutConnector(s, userId, Provider), userId) == Ok(NotConnected)
    ensures CredentialsOf(WithoutConnector(s, userId, Provider), userId) == None
  {
    RemoveThenGet(s, userId, Provider);
  }

  /** `uploadGoogleCloudServiceAccount(userId, serviceAccountData)`: validate, then store. */
  method UploadGoogleCloudServiceAccount(store: ConnectorStore, userId: string, sa: Object, now: string)
    returns (r: Result<(), UploadError>)
    modifies store
    ensures !ValidServiceAccount(sa) ==> r == Err(InvalidServiceAccount) && store.registry == old(store.registry)
    ensures ValidServiceAccount(sa) ==>
      r == Ok(()) && store.registry == WithConnector(old(store.registry), userId, Provider, ServiceAccountData(sa), now)
  {
    if !HasTruthy(sa, "project_id") || !HasTruthy(sa, "private_key") || !HasTruthy(sa, "client_email") {
      return Err(InvalidServiceAccount);
    }
    store.StoreConnectorData(userId, Provider, ServiceAccountData(sa), now);
    return Ok(());
  }

  /** `getGoogleCloudCredentials(userId)`. */
  method GetGoogleCloudCredentials(store: ConnectorStore, userId: string) returns (r: Option<Json>)
    ensures r == CredentialsOf(store.registry, userId)
  {
    var connectorData := store.GetConnectorData(userId, Provider);
    if connectorData.None? || !HasTruthy(connectorData.value, "serviceAccount") {
      return None;
    }
    return Some(connectorData.value["serviceAccount"]);
  }

  /** `getGoogleCloudStatus(userId)`. */
  method GetGoogleCloudStatus(store: ConnectorStore, userId: string) returns (r: Result<GoogleCloudStatus, StatusError>)
    ensures r == StatusOf(store.registry, userId)
  {
    var connectorData := store.GetConnectorData(userId, Provider);
    if connectorData.None? {
      return Ok(NotConnected);
    }
    var d := connectorData.value;
    if "metadata" !in d || d["metadata"] == JNull {
      return Err(TypeError);
    }
    return Ok(Connected(Member(d["metadata"], "projectId"), Member(d["metadata"], "clientEmail"), Field(d, "connectedAt")));
  }

  /** `disconnectGoogleCloud(userId)`: only the "google-cloud" entry of that user goes. */
  method DisconnectGoogleCloud(store: ConnectorStore, userId: string)
    modifies store
    ensures store.registry == WithoutConnector(old(store.registry), userId, Provider)
  {
    store.RemoveConnectorData(userId, Provider);
  }
}
