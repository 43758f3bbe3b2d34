/** The secrets key-value store: the choice of backend made at start-up
    (`ProvideService`), the contract every backend honours
    (`SecretsKVStore`), and the handle bound to one key (`FixedKVStore`). */
module SecretsKV {
  import opened Common

  /** Organisation id that makes a listing match every organisation. */
  const AllOrganizations: int64 := -1

  /** Go's time.Duration counts nanoseconds. */
  const Second: nat := 1_000_000_000
  const Minute: nat := 60 * Second

  /** The cache wrapped around every store handed out at start-up. */
  const CacheTTL: nat := 5 * Second
  const CacheSweepInterval: nat := 5 * Minute

  // ---------------------------------------------------------------------
  // Backend selection
  // ---------------------------------------------------------------------

  /** The `(bool, error)` pair returned by a yes/no check. */
  datatype Check = Check(answer: bool, err: Option<Error>)

  /** The collaborators `ProvideService` may consult, in the order it may
      consult them. */
  datatype Probe = ShouldUseRemoteSecretsPlugin | GetPlugin | IsPluginErrorFatal

  /** An opaque client of the remote secrets plugin. */
  datatype PluginClient = PluginClient(handle: nat)

  /** The two implementations of the store. */
  datatype Backend = SQLBackend | PluginBackend(client: PluginClient)

  /** The caching decorator around a backend, with its entry lifetime and
      sweep period in nanoseconds. */
  datatype CachedKVStore = CachedKVStore(inner: Backend, ttl: nat, sweepInterval: nat)

  /** What `ProvideService` returns, Go style: a store or an error, plus the
      collaborators it consulted on the way. */
  datatype Provision = Provision(store: Option<CachedKVStore>, err: Option<Error>, probes: seq<Probe>)

  /** Backend selection at start-up. `remote` is the answer of
      ShouldUseRemoteSecretsPlugin, `plugin` what GetPlugin would return and
      `fatal` what isPluginErrorFatal would return; the latter two are only
      consulted where the source calls them, as `probes` records. */
  function ProvideService(remote: Check, plugin: Result<PluginClient, Error>, fatal: Check): (r: Provision)
    // exactly one of a store and an error
    ensures r.store.Some? <==> r.err.None?
    // a store is never handed out without the cache around it
    ensures r.store.Some? ==> r.store.value.ttl == CacheTTL && r.store.value.sweepInterval == CacheSweepInterval
    // a clean "use the plugin": the plugin if it can be had, else SQL, never an error
    ensures remote == Check(true, None) ==>
      r.store.Some? && r.store.value.inner == (if plugin.Success? then PluginBackend(plugin.value) else SQLBackend)
    // a clean "do not use the plugin": SQL
    ensures remote == Check(false, None) ==> r.store == Some(CachedKVStore(SQLBackend, CacheTTL, CacheSweepInterval))
    // a failed check: SQL exactly when the failure is known not to be fatal
    ensures remote.err.Some? ==> (r.store.Some? <==> fatal == Check(false, None))
    ensures remote.err.Some? && r.store.Some? ==> r.store.value.inner == SQLBackend
    // the error of the fatality check wins over the original one
    ensures remote.err.Some? && r.err.Some? ==> r.err == (if fatal.err.Some? then fatal.err else remote.err)
    // the plugin is used only after a clean "yes" and a successful GetPlugin
    ensures r.store.Some? && r.store.value.inner.PluginBackend? ==>
      remote == Check(true, None) && plugin == Success(r.store.value.inner.client)
    // GetPlugin only after a clean "yes", isPluginErrorFatal only after a failed check
    ensures r.probes == [ShouldUseRemoteSecretsPlugin] +
      (if remote.err.None? && remote.answer then [GetPlugin]
       else if remote.err.Some? then [IsPluginErrorFatal] else [])
  {
    if remote.err.None? && remote.answer then
      var inner := if plugin.Failure? then SQLBackend else PluginBackend(plugin.value);
      Provision(Some(CachedKVStore(inner, CacheTTL, CacheSweepInterval)), None,
                [ShouldUseRemoteSecretsPlugin, GetPlugin])
    else if remote.err.Some? then
      if fatal.answer || fatal.err.Some? then
        Provision(None, if fatal.err.Some? then fatal.err else remote.err,
                  [ShouldUseRemoteSecretsPlugin, IsPluginErrorFatal])
      else
        Provision(Some(CachedKVStore(SQLBackend, CacheTTL, CacheSweepInterval)), None,
                  [ShouldUseRemoteSecretsPlugin, IsPluginErrorFatal])
    else
      Provision(Some(CachedKVStore(SQLBackend, CacheTTL, CacheSweepInterval)), None,
                [ShouldUseRemoteSecretsPlugin])
  }

  // ---------------------------------------------------------------------
  // The store contract
  // ---------------------------------------------------------------------

  /** A secret is addressed by organisation, namespace and type. */
  datatype Key = Key(orgId: int64, namespace: string, typ: string)

  /** The five calls of the store interface, with their arguments. */
  datatype Call =
    | GetCall(key: Key)
    | SetCall(key: Key, value: string)
    | DelCall(key: Key)
    | KeysCall(key: Key)
    | RenameCall(key: Key, newNamespace: string)

  /** What a call returned. */
  datatype Reply = Found(value: string, found: bool) | Listed(keys: seq<Key>) | Done | Failed(err: Error)

  /** One call to the store and its reply, as the store saw them. */
  datatype Exchange = Exchange(call: Call, reply: Reply)

  function GetReply(value: string, found: bool, err: Option<Error>): Reply {
    if err.Some? then Failed(err.value) else Found(value, found)
  }

  function KeysReply(keys: seq<Key>, err: Option<Error>): Reply {
    if err.Some? then Failed(err.value) else Listed(keys)
  }

  function WriteReply(err: Option<Error>): Reply {
    if err.Some? then Failed(err.value) else Done
  }

  /** A listing query matches keys of its namespace and type, in its
      organisation or, for AllOrganizations, in any. */
  predicate Matches(query: Key, k: Key) {
    && k.namespace == query.namespace
    && k.typ == query.typ
    && (query.orgId == AllOrganizations || k.orgId == query.orgId)
  }

  /** Renaming a namespace moves the secret: the old key ceases to exist and
      the new key holds the value; nothing else changes. */
  function Move(entries: map<Key, string>, k: Key, newNamespace: string): (r: map<Key, string>)
    ensures k in entries ==> k.(namespace := newNamespace) in r && r[k.(namespace := newNamespace)] == entries[k]
    ensures k in entries && newNamespace != k.namespace ==> k !in r
    ensures k !in entries ==> r == entries
    ensures forall j :: j != k && j != k.(namespace := newNamespace) ==>
      (j in r <==> j in entries) && (j in r ==> r[j] == entries[j])
  {
    if k in entries then (entries - {k})[k.(namespace := newNamespace) := entries[k]] else entries
  }

  /** Renaming to a free namespace and back restores the secrets exactly. */
  lemma MoveBack(entries: map<Key, string>, k: Key, newNamespace: string)
    requires k in entries && k.(namespace := newNamespace) !in entries
    ensures Move(Move(entries, k, newNamespace), k.(namespace := newNamespace), k.namespace) == entries
  {
    var moved := Move(entries, k, newNamespace);
    var k2 := k.(namespace := newNamespace);
    assert k2.(namespace := k.namespace) == k;
    var back := Move(moved, k2, k.namespace);
    assert back.Keys == entries.Keys;
  }

  /** A store honouring the SecretsKVStore interface. Which backend it is
      does not show: any call may fail, and a failed call leaves the stored
      secrets as they were. `log` records every call with its reply. */
  class SecretsKVStore {
    var entries: map<Key, string>
    var log: seq<Exchange>

    constructor (initial: map<Key, string>)
      ensures entries == initial && log == []
    {
      entries := initial;
      log := [];
    }

    method Get(orgId: int64, namespace: string, typ: string) returns (value: string, found: bool, err: Option<Error>)
      modifies this
      ensures entries == old(entries)
      ensures log == old(log) + [Exchange(GetCall(Key(orgId, namespace, typ)), GetReply(value, found, err))]
      ensures err.None? ==> found == (Key(orgId, namespace, typ) in entries)
      ensures err.None? && found ==> value == entries[Key(orgId, namespace, typ)]
    {
      var k := Key(orgId, namespace, typ);
      err := *;
      if err.None? && k in entries {
        value, found := entries[k], true;
      } else {
        value, found := "", false;
      }
      log := log + [Exchange(GetCall(k), GetReply(value, found, err))];
    }

    method Set(orgId: int64, namespace: string, typ: string, value: string) returns (err: Option<Error>)
      modifies this
      ensures entries == if err.None? then old(entries)[Key(orgId, namespace, typ) := value] else old(entries)
      ensures log == old(log) + [Exchange(SetCall(Key(orgId, namespace, typ), value), WriteReply(err))]
    {
      var k := Key(orgId, namespace, typ);
      err := *;
      if err.None? {
        entries := entries[k := value];
      }
      log := log + [Exchange(SetCall(k, value), WriteReply(err))];
    }

    method Del(orgId: int64, namespace: string, typ: string) returns (err: Option<Error>)
      modifies this
      ensures entries == if err.None? then old(entries) - {Key(orgId, namespace, typ)} else old(entries)
      ensures log == old(log) + [Exchange(DelCall(Key(orgId, namespace, typ)), WriteReply(err))]
    {
      var k := Key(orgId, namespace, typ);
      err := *;
      if err.None? {
        entries := entries - {k};
      }
      log := log + [Exchange(DelCall(k), WriteReply(err))];
    }

    method Keys(orgId: int64, namespace: string, typ: string) returns (keys: seq<Key>, err: Option<Error>)
      modifies this
      ensures entries == old(entries)
      ensures log == old(log) + [Exchange(KeysCall(Key(orgId, namespace, typ)), KeysReply(keys, err))]
      ensures err.None? ==> forall k :: k in keys <==> k in entries && Matches(Key(orgId, namespace, typ), k)
    {
      var query := Key(orgId, namespace, typ);
      err := *;
      keys := [];
      if err.None? {
        var rest := set k | k in entries && Matches(query, k);
        while rest != {}
          invariant rest <= entries.Keys
          invariant forall k :: k in keys <==> k in entries && Matches(query, k) && k !in rest
          invariant forall k :: k in rest ==> Matches(query, k)
          decreases rest
        {
          var k :| k in rest;
          keys := keys + [k];
          rest := rest - {k};
        }
      }
      log := log + [Exchange(KeysCall(query), KeysReply(keys, err))];
    }

    method Rename(orgId: int64, namespace: string, typ: string, newNamespace: string) returns (err: Option<Error>)
      modifies this
      ensures entries == if err.None? then Move(old(entries), Key(orgId, namespace, typ), newNamespace) else old(entries)
      ensures log == old(log) + [Exchange(RenameCall(Key(orgId, namespace, typ), newNamespace), WriteReply(err))]
    {
      var k := Key(orgId, namespace, typ);
      err := *;
      if err.None? {
        entries := Move(entries, k, newNamespace);
      }
      log := log + [Exchange(RenameCall(k, newNamespace), WriteReply(err))];
    }
  }

  // ---------------------------------------------------------------------
  // The handle bound to one key
  // ---------------------------------------------------------------------

  /** A store handle with organisation, namespace and type fixed. Every call
      is forwarded to `kvStore` with the bound key, and its reply is handed
      back unchanged; only a successful Rename moves the handle. */
  class FixedKVStore {
    const kvStore: SecretsKVStore
    var OrgId: int64
    var Namespace: string
    var Type: string

    /** The key the handle is bound to. */
    function Bound(): Key
      reads this
    {
      Key(OrgId, Namespace, Type)
    }

    constructor With(kv: SecretsKVStore, orgId: int64, namespace: string, typ: string)
      ensures kvStore == kv && Bound() == Key(orgId, namespace, typ)
    {
      kvStore := kv;
      OrgId := orgId;
      Namespace := namespace;
      Type := typ;
    }

    method Get() returns (value: string, found: bool, err: Option<Error>)
      modifies kvStore
      ensures kvStore.log == old(kvStore.log) + [Exchange(GetCall(Bound()), GetReply(value, found, err))]
      ensures kvStore.entries == old(kvStore.entries)
      ensures err.None? ==> found == (Bound() in kvStore.entries)
      ensures err.None? && found ==> value == kvStore.entries[Bound()]
    {
      value, found, err := kvStore.Get(OrgId, Namespace, Type);
    }

    method Set(value: string) returns (err: Option<Error>)
      modifies kvStore
      ensures kvStore.log == old(kvStore.log) + [Exchange(SetCall(Bound(), value), WriteReply(err))]
      ensures kvStore.entries == if err.None? then old(kvStore.entries)[Bound() := value] else old(kvStore.entries)
    {
      err := kvStore.Set(OrgId, Namespace, Type, value);
    }

    method Del() returns (err: Option<Error>)
      modifies kvStore
      ensures kvStore.log == old(kvStore.log) + [Exchange(DelCall(Bound()), WriteReply(err))]
      ensures kvStore.entries == if err.None? then old(kvStore.entries) - {Bound()} else old(kvStore.entries)
    {
      err := kvStore.Del(OrgId, Namespace, Type);
    }

    method Keys() returns (keys: seq<Key>, err: Option<Error>)
      modifies kvStore
      ensures kvStore.log == old(kvStore.log) + [Exchange(KeysCall(Bound()), KeysReply(keys, err))]
      ensures kvStore.entries == old(kvStore.entries)
      ensures err.None? ==> forall k :: k in keys <==> k in kvStore.entries && Matches(Bound(), k)
    {
      keys, err := kvStore.Keys(OrgId, Namespace, Type);
    }

    method Rename(newNamespace: string) returns (err: Option<Error>)
      modifies this`Namespace, kvStore
      ensures kvStore.log == old(kvStore.log) + [Exchange(RenameCall(old(Bound()), newNamespace), WriteReply(err))]
      ensures kvStore.entries ==
        if err.None? then Move(old(kvStore.entries), old(Bound()), newNamespace) else old(kvStore.entries)
      ensures Namespace == if err.None? then newNamespace else old(Namespace)
      ensures OrgId == old(OrgId) && Type == old(Type)
    {
      err := kvStore.Rename(OrgId, Namespace, Type, newNamespace);
      if err.Some? {
        return;
      }
      Namespace := newNamespace;
    }
  }
}
