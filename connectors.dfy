/**
 * The in-memory connector registry (`api/server/services/Connectors/index.js`): per user, an
 * object from provider name to the data stored for it, kept in a module-level `Map`.
 */
module Connectors {
  import opened Wrappers
  import opened JsonValue
  import opened OrderedMap

  /** `connectorStore`: user id to that user's providers, in the order they were first stored. */
  type Registry = map<string, Entries<Object>>

  /** `connectorStore.get(userId) || {}`. */
  function ProvidersOf(s: Registry, userId: string): (r: Entries<Object>)
    ensures userId !in s ==> r == []
  {
    if userId in s then s[userId] else []
  }

  /** `getConnectorData(userId, provider)`, with `None` for `null`; stored data is an object, so never falsy. */
  function Lookup(s: Registry, userId: string, provider: string): (r: Option<Object>)
    ensures r.Some? <==> userId in s && provider in Keys(s[userId])
  {
    Get(ProvidersOf(s, userId), provider)
  }

  /** `isConnectorConnected(userId, provider)`: `getConnectorData` is not `null`. */
  predicate IsConnected(s: Registry, userId: string, provider: string) {
    Lookup(s, userId, provider).Some?
  }

  /** What `storeConnectorData` stores: the given fields and `connectedAt`, which overrides one in the data. */
  function Stamped(data: Object, now: string): (r: Object)
    ensures "connectedAt" in r && r["connectedAt"] == JStr(now)
    ensures forall k :: k != "connectedAt" ==> (k in r <==> k in data) && (k in data ==> r[k] == data[k])
  {
    data["connectedAt" := JStr(now)]
  }

  /** The registry after `storeConnectorData(userId, provider, data)`. */
  function WithConnector(s: Registry, userId: string, provider: string, data: Object, now: string): Registry {
    s[userId := Put(ProvidersOf(s, userId), provider, Stamped(data, now))]
  }

  /** The registry after `removeConnectorData(userId, provider)`; an unknown user is left alone. */
  function WithoutConnector(s: Registry, userId: string, provider: string): Registry {
    if userId in s then s[userId := Remove(s[userId], provider)] else s
  }

  /** A store is read back stamped, and no other (user, provider) pair sees it. */
  lemma StoreThenGet(s: Registry, userId: string, provider: string, data: Object, now: string)
    ensures Lookup(WithConnector(s, userId, provider, data, now), userId, provider) == Some(Stamped(data, now))
    ensures forall u, p :: (u != userId || p != provider) ==>
      Lookup(WithConnector(s, userId, provider, data, now), u, p) == Lookup(s, u, p)
    ensures IsConnected(WithConnector(s, userId, provider, data, now), userId, provider)
  {
  }

  /** A second store replaces the first wholesale: nothing of the earlier data survives. */
  lemma StoreReplaces(s: Registry, userId: string, provider: string, first: Object, now1: string,
                      second: Object, now2: string)
    ensures Lookup(WithConnector(WithConnector(s, userId, provider, first, now1), userId, provider, second, now2),
                   userId, provider) == Some(Stamped(second, now2))
  {
  }

  /** After a removal the pair is absent, and every other pair reads as before. */
  lemma RemoveThenGet(s: Registry, userId: string, provider: string)
    ensures Lookup(WithoutConnector(s, userId, provider), userId, provider) == None
    ensures !IsConnected(WithoutConnector(s, userId, provider), userId, provider)
    ensures forall u, p :: (u != userId || p != provider) ==>
      Lookup(WithoutConnector(s, userId, provider), u, p) == Lookup(s, u, p)
  {
  }

  /** Removing a pair that is not stored changes nothing at all. */
  lemma RemoveAbsentNoOp(s: Registry, userId: string, provider: string)
    requires Lookup(s, userId, provider).None?
    ensures WithoutConnector(s, userId, provider) == s
  {
    if userId in s {
      RemoveAbsent(s[userId], provider);
    }
  }

  /** Removing what was just stored, if nothing was stored there before, reads as the original registry. */
  lemma RemoveUndoesStore(s: Registry, userId: string, provider: string, data: Object, now: string)
    requires Lookup(s, userId, provider).None?
    ensures forall u, p :: Lookup(WithoutConnector(WithConnector(s, userId, provider, data, now), userId, provider), u, p)
                        == Lookup(s, u, p)
  {
  }

  /** One entry of `getConnectedServices`. */
  datatype ServiceStatus = ServiceStatus(provider: string, connected: bool, connectedAt: Option<Json>, metadata: Json)

  /** The entry `getConnectedServices` builds for one provider: connected, with `metadata || {}`. */
  function StatusOf(provider: string, data: Object): (r: ServiceStatus)
    ensures r.provider == provider && r.connected
    ensures r.connectedAt == Field(data, "connectedAt")
    ensures HasTruthy(data, "metadata") ==> r.metadata == data["metadata"]
    ensures !HasTruthy(data, "metadata") ==> r.metadata == JObj(map[])
  {
    ServiceStatus(provider, true, Field(data, "connectedAt"), FieldOr(data, "metadata", JObj(map[])))
  }

  class ConnectorStore {
    /** `connectorStore`. */
    var registry: Registry

    constructor()
      ensures registry == map[]
    {
      registry := map[];
    }

    /** `getConnectedServices(userId)`: one entry per stored provider, in key order. */
    method GetConnectedServices(userId: string) returns (connectors: seq<ServiceStatus>)
      ensures |connectors| == |ProvidersOf(registry, userId)|
      ensures forall i :: 0 <= i < |connectors| ==>
        connectors[i] == StatusOf(ProvidersOf(registry, userId)[i].0, ProvidersOf(registry, userId)[i].1)
      ensures forall i :: 0 <= i < |connectors| ==> connectors[i].provider == Keys(ProvidersOf(registry, userId))[i]
      ensures userId !in registry ==> connectors == []
    {
      var userConnectors := ProvidersOf(registry, userId);
      connectors := [];
      var i := 0;
      while i < |userConnectors|
        invariant 0 <= i <= |userConnectors|
        invariant |connectors| == i
        invariant forall j :: 0 <= j < i ==> connectors[j] == StatusOf(userConnectors[j].0, userConnectors[j].1)
      {
        var (provider, data) := userConnectors[i];
        connectors := connectors + [StatusOf(provider, data)];
        i := i + 1;
      }
    }

    /** `storeConnectorData(userId, provider, data)`. */
    method StoreConnectorData(userId: string, provider: string, data: Object, now: string)
      modifies this
      ensures registry == WithConnector(old(registry), userId, provider, data, now)
    {
      if userId !in registry {
        registry := registry[userId := []];
      }
      var userConnectors := registry[userId];
      registry := registry[userId := Put(userConnectors, provider, Stamped(data, now))];
    }

    /** `getConnectorData(userId, provider)`. */
    method GetConnectorData(userId: string, provider: string) returns (r: Option<Object>)
      ensures r == Lookup(registry, userId, provider)
    {
      if userId !in registry {
        return None;
      }
      r := Get(registry[userId], provider);
    }

    /** `removeConnectorData(userId, provider)`. */
    method RemoveConnectorData(userId: string, provider: string)
      modifies this
      ensures registry == WithoutConnector(old(registry), userId, provider)
    {
      if userId in registry {
        registry := registry[userId := Remove(registry[userId], provider)];
      }
    }

    /** `isConnectorConnected(userId, provider)`. */
    method IsConnectorConnected(userId: string, provider: string) returns (r: bool)
      ensures r <==> userId in registry && provider in Keys(registry[userId])
      ensures r == IsConnected(registry, userId, provider)
    {
      var data := GetConnectorData(userId, provider);
      r := data.Some?;
    }
  }
}
