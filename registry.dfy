/**
 * `ModelRegistry`: the in-memory list of active providers, built from the
 * configured providers, and the operations that keep it in step with the
 * `providers` table. Provider classes are not modelled: the catalogue of known
 * types, whether a class rejects a configuration, and a provider's own
 * `getModelList` / `loadChatModel` / `loadEmbeddingModel` are parameters.
 */
module Registry {
  import opened Wrappers
  import opened Json
  import opened ProviderTypes
  import opened ProviderStore
  import opened ServerRegistry

  /** A provider object built by `createProviderInstance`. */
  datatype ProviderInstance = ProviderInstance(providerType: string, id: string, name: string, config: JsonValue)

  /** The `providers` map of provider classes by type, and whether constructing one throws
      (the message it throws with) for a configuration. */
  datatype ProviderCatalog = ProviderCatalog(known: set<string>, rejects: (string, JsonValue) -> Option<string>)

  /** `ActiveProvider`: a configured provider together with its provider object. */
  datatype ActiveProvider = ActiveProvider(info: ConfigProvider, provider: ProviderInstance)

  /** `MinimalProvider`: what `getActiveProviders` reports per provider. */
  datatype MinimalProvider = MinimalProvider(id: string, name: string, chatModels: seq<ModelEntry>,
                                             embeddingModels: seq<ModelEntry>)

  const InvalidProviderId := "Invalid provider id"

  const InvalidProviderType := "Invalid provider type"

  function InstanceOf(p: ConfigProvider): ProviderInstance {
    ProviderInstance(p.providerType, p.id, p.name, p.config)
  }

  /** Whether initialisation keeps a configured provider: its type is known and its class
      accepts its configuration. */
  predicate Admits(catalog: ProviderCatalog, p: ConfigProvider) {
    p.providerType in catalog.known && catalog.rejects(p.providerType, p.config).None?
  }

  // ---------------------------------------------------------------------------
  // Initialisation.

  /** The active providers `initializeActiveProviders` builds, in configuration order. */
  function Initialized(configured: seq<ConfigProvider>, catalog: ProviderCatalog): (r: seq<ActiveProvider>)
    ensures |r| <= |configured|
  {
    if configured == [] then []
    else
      var p := configured[|configured| - 1];
      Initialized(configured[..|configured| - 1], catalog)
        + (if Admits(catalog, p) then [ActiveProvider(p, InstanceOf(p))] else [])
  }

  /** Initialisation keeps exactly the admitted providers, each with its own provider object;
      unknown types and throwing constructors are skipped without failing. */
  lemma {:induction false} InitializedExact(configured: seq<ConfigProvider>, catalog: ProviderCatalog)
    ensures forall a :: a in Initialized(configured, catalog) ==>
      a.info in configured && Admits(catalog, a.info) && a.provider == InstanceOf(a.info)
    ensures forall p :: p in configured && Admits(catalog, p) ==>
      ActiveProvider(p, InstanceOf(p)) in Initialized(configured, catalog)
  {
    if configured != [] {
      var n := |configured| - 1;
      InitializedExact(configured[..n], catalog);
      assert configured == configured[..n] + [configured[n]];
    }
  }

  /** Admitted providers become active in configuration order. */
  lemma {:induction false} InitializedOrder(configured: seq<ConfigProvider>, catalog: ProviderCatalog, i: nat, j: nat)
    requires i < j < |configured| && Admits(catalog, configured[i]) && Admits(catalog, configured[j])
    ensures Precedes(Initialized(configured, catalog),
                     ActiveProvider(configured[i], InstanceOf(configured[i])),
                     ActiveProvider(configured[j], InstanceOf(configured[j])))
  {
    var n := |configured| - 1;
    var p := configured[..n];
    var last := configured[n];
    var tail := if Admits(catalog, last) then [ActiveProvider(last, InstanceOf(last))] else [];
    assert Initialized(configured, catalog) == Initialized(p, catalog) + tail;
    assert p[i] == configured[i];
    if j == n {
      InitializedExact(p, catalog);
      PrecedesLast(Initialized(p, catalog), ActiveProvider(configured[i], InstanceOf(configured[i])),
                   ActiveProvider(last, InstanceOf(last)));
    } else {
      assert p[j] == configured[j];
      InitializedOrder(p, catalog, i, j);
      PrecedesAppend(Initialized(p, catalog), tail, ActiveProvider(configured[i], InstanceOf(configured[i])),
                     ActiveProvider(configured[j], InstanceOf(configured[j])));
    }
  }

  /** When every configured provider is admitted, the active list is the configured list in order. */
  lemma {:induction false} InitializedAllAdmitted(configured: seq<ConfigProvider>, catalog: ProviderCatalog)
    requires forall i :: 0 <= i < |configured| ==> Admits(catalog, configured[i])
    ensures |Initialized(configured, catalog)| == |configured|
    ensures forall i :: 0 <= i < |configured| ==> Initialized(configured, catalog)[i].info == configured[i]
  {
    if configured != [] {
      var n := |configured| - 1;
      InitializedAllAdmitted(configured[..n], catalog);
    }
  }

  /** `initializeActiveProviders`: the `forEach` that pushes each provider it can construct. */
  method InitializeActiveProviders(configured: seq<ConfigProvider>, catalog: ProviderCatalog)
    returns (active: seq<ActiveProvider>)
    ensures active == Initialized(configured, catalog)
  {
    active := [];
    var i := 0;
    while i < |configured|
      invariant 0 <= i <= |configured|
      invariant active == Initialized(configured[..i], catalog)
    {
      var p := configured[i];
      assert configured[..i + 1][..i] == configured[..i];
      if p.providerType in catalog.known && catalog.rejects(p.providerType, p.config).None? {
        active := active + [ActiveProvider(p, InstanceOf(p))];
      }
      i := i + 1;
    }
    assert configured[..i] == configured;
  }

  // ---------------------------------------------------------------------------
  // Listing.

  /** One provider's entry in `getActiveProviders`: its models, or the error sentinel
      (one chat model keyed 'error' named by the message, no embedding model). */
  function Minimal(p: ActiveProvider, listModels: ProviderInstance -> Result<ModelList, string>): (m: MinimalProvider)
    ensures m.id == p.info.id && m.name == p.info.name
    ensures listModels(p.provider).Success? ==>
      m.chatModels == listModels(p.provider).value.chat && m.embeddingModels == listModels(p.provider).value.embedding
    ensures listModels(p.provider).Failure? ==>
      m.chatModels == [ModelEntry(listModels(p.provider).error, "error")] && m.embeddingModels == []
  {
    match listModels(p.provider)
    case Success(list) => MinimalProvider(p.info.id, p.info.name, list.chat, list.embedding)
    case Failure(e) => MinimalProvider(p.info.id, p.info.name, [ModelEntry(e, "error")], [])
  }

  /** Each active provider's entry, in list order. */
  function MinimalAll(ps: seq<ActiveProvider>, listModels: ProviderInstance -> Result<ModelList, string>)
    : (r: seq<MinimalProvider>)
    ensures |r| == |ps| && forall i :: 0 <= i < |ps| ==> r[i] == Minimal(ps[i], listModels)
  {
    seq(|ps|, i requires 0 <= i < |ps| => Minimal(ps[i], listModels))
  }

  /** `s` read in the order `order` gives. */
  function Picked<T>(s: seq<T>, order: seq<nat>): (r: seq<T>)
    requires forall k :: 0 <= k < |order| ==> order[k] < |s|
    ensures |r| == |order| && forall k :: 0 <= k < |order| ==> r[k] == s[order[k]]
  {
    seq(|order|, k requires 0 <= k < |order| => s[order[k]])
  }

  /** Reading a sequence in a completion order yields the same elements, each as often. */
  lemma {:induction false} PickedPermutes<T>(s: seq<T>, order: seq<nat>)
    requires IsCompletionOrder(order, |s|)
    ensures forall k :: 0 <= k < |order| ==> order[k] < |s|
    ensures multiset(Picked(s, order)) == multiset(s)
  {
    CompletionOrderCovers(order, |s|);
    if s != [] {
      var n: nat := |s| - 1;
      assert n in order;
      var k :| 0 <= k < |order| && order[k] == n;
      var rest := order[..k] + order[k + 1..];
      RemoveAtMultiset(order, k);
      IndicesSnoc(n);
      MultisetCancel(multiset(rest), multiset(Indices(n)), n);
      CompletionOrderCovers(rest, n);
      PickedRemoveAt(s, order, k, rest);
      PickedPermutes(s[..n], rest);
      assert s == s[..n] + [s[n]];
    }
  }

  lemma RemoveAtMultiset(order: seq<nat>, k: nat)
    requires k < |order|
    ensures multiset(order) == multiset(order[..k] + order[k + 1..]) + multiset{order[k]}
  {
    assert order == order[..k] + [order[k]] + order[k + 1..];
  }

  lemma MultisetCancel<T>(a: multiset<T>, b: multiset<T>, x: T)
    requires a + multiset{x} == b + multiset{x}
    ensures a == b
  {
    assert forall y :: a[y] == (a + multiset{x})[y] - (if y == x then 1 else 0);
    assert forall y :: b[y] == (b + multiset{x})[y] - (if y == x then 1 else 0);
  }

  lemma IndicesSnoc(n: nat)
    ensures multiset(Indices(n + 1)) == multiset(Indices(n)) + multiset{n}
  {
    assert Indices(n + 1) == Indices(n) + [n];
  }

  /** Dropping the position that reads the last element drops that element once. */
  lemma PickedRemoveAt<T>(s: seq<T>, order: seq<nat>, k: nat, rest: seq<nat>)
    requires s != [] && k < |order| && order[k] == |s| - 1 && rest == order[..k] + order[k + 1..]
    requires forall j :: 0 <= j < |order| ==> order[j] < |s|
    requires forall j :: 0 <= j < |rest| ==> rest[j] < |s| - 1
    ensures multiset(Picked(s, order)) == multiset(Picked(s[..|s| - 1], rest)) + multiset{s[|s| - 1]}
  {
    var q := Picked(s[..|s| - 1], rest);
    assert Picked(s, order) == q[..k] + [s[|s| - 1]] + q[k..];
    assert q == q[..k] + q[k..];
  }

  function Indices(n: nat): (r: seq<nat>)
    ensures |r| == n && forall i :: 0 <= i < n ==> r[i] == i
  {
    seq(n, i => i)
  }

  /** The order in which the concurrent model-list calls complete: each provider exactly once. */
  predicate IsCompletionOrder(order: seq<nat>, n: nat) {
    multiset(order) == multiset(Indices(n))
  }

  /** A completion order covers every provider, and only real ones. */
  lemma CompletionOrderCovers(order: seq<nat>, n: nat)
    requires IsCompletionOrder(order, n)
    ensures |order| == n
    ensures forall k :: 0 <= k < |order| ==> order[k] < n
    ensures forall i :: 0 <= i < n ==> i in order
  {
    assert |order| == |multiset(order)| == |multiset(Indices(n))| == n;
    forall k | 0 <= k < |order|
      ensures order[k] < n
    {
      assert order[k] in multiset(order);
      assert order[k] in multiset(Indices(n));
      assert order[k] in Indices(n);
    }
    forall i | 0 <= i < n
      ensures i in order
    {
      assert Indices(n)[i] == i;
      assert i in multiset(Indices(n));
      assert i in multiset(order);
    }
  }

  /** The active providers carrying this id. */
  function IndexOfProvider(ps: seq<ActiveProvider>, providerId: string): Option<nat> {
    FirstWhere(ps, (p: ActiveProvider) => p.info.id == providerId)
  }

  /** `activeProviders.filter((p) => p.id !== providerId)`. */
  function WithoutProvider(ps: seq<ActiveProvider>, providerId: string): (r: seq<ActiveProvider>)
    ensures forall p :: p in r <==> p in ps && p.info.id != providerId
  {
    if ps == [] then []
    else (if ps[0].info.id != providerId then [ps[0]] else []) + WithoutProvider(ps[1..], providerId)
  }

  /** Removing a provider keeps the others in their order. */
  lemma {:induction false} WithoutProviderOrder(ps: seq<ActiveProvider>, providerId: string, i: nat, j: nat)
    requires i < j < |ps| && ps[i].info.id != providerId && ps[j].info.id != providerId
    ensures Precedes(WithoutProvider(ps, providerId), ps[i], ps[j])
  {
    var tail := ps[1..];
    var rest := WithoutProvider(tail, providerId);
    var head := if ps[0].info.id != providerId then [ps[0]] else [];
    assert WithoutProvider(ps, providerId) == head + rest;
    assert tail[j - 1] == ps[j];
    if i == 0 {
      assert ps[j] in tail;
      PrecedesHead(ps[0], rest, ps[j]);
    } else {
      assert tail[i - 1] == ps[i];
      WithoutProviderOrder(tail, providerId, i - 1, j - 1);
      PrecedesPrepend(head, rest, ps[i], ps[j]);
    }
  }

  /** Removing an id no active provider carries keeps the list as it is. */
  lemma {:induction false} WithoutProviderAbsent(ps: seq<ActiveProvider>, providerId: string)
    requires forall p :: p in ps ==> p.info.id != providerId
    ensures WithoutProvider(ps, providerId) == ps
  {
    if ps != [] {
      WithoutProviderAbsent(ps[1..], providerId);
    }
  }

  /** The `map` of `updateProvider`: every entry with the id replaced by `entry`, in place. */
  function ReplacedAll(ps: seq<ActiveProvider>, providerId: string, entry: ActiveProvider): (r: seq<ActiveProvider>)
    ensures |r| == |ps|
    ensures forall k :: 0 <= k < |ps| ==> r[k] == (if ps[k].info.id == providerId then entry else ps[k])
  {
    if ps == [] then []
    else
      var last := ps[|ps| - 1];
      ReplacedAll(ps[..|ps| - 1], providerId, entry) + [if last.info.id == providerId then entry else last]
  }

  predicate HasProvider(ps: seq<ActiveProvider>, providerId: string) {
    exists j :: 0 <= j < |ps| && ps[j].info.id == providerId
  }

  /** `updateProvider`'s effect on the list: replace every entry with the id, or append one. */
  function Upserted(ps: seq<ActiveProvider>, providerId: string, entry: ActiveProvider): seq<ActiveProvider> {
    ReplacedAll(ps, providerId, entry) + (if HasProvider(ps, providerId) then [] else [entry])
  }

  /** After an upsert the new entry is present, every entry under the id is that entry, and
      every other entry is where it was. */
  lemma UpsertedExact(ps: seq<ActiveProvider>, providerId: string, entry: ActiveProvider)
    requires entry.info.id == providerId
    ensures entry in Upserted(ps, providerId, entry)
    ensures forall a :: a in Upserted(ps, providerId, entry) && a.info.id == providerId ==> a == entry
    ensures forall k :: 0 <= k < |ps| && ps[k].info.id != providerId ==> Upserted(ps, providerId, entry)[k] == ps[k]
    ensures |Upserted(ps, providerId, entry)| == |ps| + (if HasProvider(ps, providerId) then 0 else 1)
  {
    var r := Upserted(ps, providerId, entry);
    if HasProvider(ps, providerId) {
      var j :| 0 <= j < |ps| && ps[j].info.id == providerId;
      assert r[j] == entry;
    } else {
      assert r[|ps|] == entry;
    }
  }

  /** A provider's view with its stored row's model edit applied: the registry's edits are the
      store's, read through `mapToConfigProvider`. */
  function ConfigWithModel(c: ConfigProvider, kind: ModelKind, model: ModelEntry): ConfigProvider {
    MapToConfigProvider(WithModel(RecordOf(c), kind, model))
  }

  function ConfigWithoutModel(c: ConfigProvider, kind: ModelKind, key: string): ConfigProvider {
    MapToConfigProvider(WithoutModel(RecordOf(c), kind, key))
  }

  /** The `map` of `addProviderModel` / `removeProviderModel`: `edit` applied to every entry
      with the id, nothing else changed. */
  function AddedModel(ps: seq<ActiveProvider>, providerId: string, kind: ModelKind, model: ModelEntry)
    : (r: seq<ActiveProvider>)
    ensures |r| == |ps|
    ensures forall k :: 0 <= k < |ps| && ps[k].info.id != providerId ==> r[k] == ps[k]
  {
    seq(|ps|, k requires 0 <= k < |ps| =>
      if ps[k].info.id == providerId then ps[k].(info := ConfigWithModel(ps[k].info, kind, model)) else ps[k])
  }

  function RemovedModel(ps: seq<ActiveProvider>, providerId: string, kind: ModelKind, key: string)
    : (r: seq<ActiveProvider>)
    ensures |r| == |ps|
    ensures forall k :: 0 <= k < |ps| && ps[k].info.id != providerId ==> r[k] == ps[k]
  {
    seq(|ps|, k requires 0 <= k < |ps| =>
      if ps[k].info.id == providerId then ps[k].(info := ConfigWithoutModel(ps[k].info, kind, key)) else ps[k])
  }

  /** On a matching provider, `addProviderModel` appends exactly `{name, key}` to the chosen list
      and leaves the other list, the other fields and the provider object alone; removing the
      key again gives the same entry as only removing it. */
  lemma ModelEditsOnMatch(ps: seq<ActiveProvider>, providerId: string, kind: ModelKind, model: ModelEntry, k: nat)
    requires k < |ps| && ps[k].info.id == providerId
    ensures
      var a := AddedModel(ps, providerId, kind, model)[k];
      && ModelsOf(RecordOf(a.info), kind) == ModelsOf(RecordOf(ps[k].info), kind) + [model]
      && (kind == Chat ==> a.info.embeddingModels == ps[k].info.embeddingModels)
      && (kind == Embedding ==> a.info.chatModels == ps[k].info.chatModels)
      && a.provider == ps[k].provider && a.info.id == providerId && a.info.hash == ps[k].info.hash
    ensures RemovedModel(AddedModel(ps, providerId, kind, model), providerId, kind, model.key)[k]
      == RemovedModel(ps, providerId, kind, model.key)[k]
  {
    RemoveUndoesAdd(RecordOf(ps[k].info), kind, model);
    MapToConfigProviderInverse(WithModel(RecordOf(ps[k].info), kind, model), ps[k].info);
  }

  /** On a matching provider, `removeProviderModel` leaves no model with the key in the chosen
      list and keeps every other model of it. */
  lemma RemoveModelOnMatch(ps: seq<ActiveProvider>, providerId: string, kind: ModelKind, key: string, k: nat)
    requires k < |ps| && ps[k].info.id == providerId
    ensures
      var a := RemovedModel(ps, providerId, kind, key)[k];
      forall m :: m in ModelsOf(RecordOf(a.info), kind) <==> m in ModelsOf(RecordOf(ps[k].info), kind) && m.key != key
    ensures
      var a := RemovedModel(ps, providerId, kind, key)[k];
      (kind == Chat ==> a.info.embeddingModels == ps[k].info.embeddingModels)
      && (kind == Embedding ==> a.info.chatModels == ps[k].info.chatModels)
  {
    MapToConfigProviderInverse(WithoutModel(RecordOf(ps[k].info), kind, key), ps[k].info);
  }

  class ModelRegistry {
    var activeProviders: seq<ActiveProvider>

    /** The constructor with its initialisation; `configured` is what `getConfiguredModelProviders`
        answered. */
    constructor(configured: seq<ConfigProvider>, catalog: ProviderCatalog)
      ensures activeProviders == Initialized(configured, catalog)
    {
      var active := InitializeActiveProviders(configured, catalog);
      activeProviders := active;
    }

    /** `getActiveProviders`: one entry per active provider, pushed in the order the concurrent
        model-list calls complete; a failing listing yields the error sentinel, never an error. */
    method GetActiveProviders(listModels: ProviderInstance -> Result<ModelList, string>, completion: seq<nat>)
      returns (r: seq<MinimalProvider>)
      requires IsCompletionOrder(completion, |activeProviders|)
      ensures |r| == |activeProviders|
      ensures forall i :: 0 <= i < |activeProviders| ==> Minimal(activeProviders[i], listModels) in r
      ensures forall m :: m in r ==> exists i :: 0 <= i < |activeProviders| && m == Minimal(activeProviders[i], listModels)
      ensures multiset(r) == multiset(MinimalAll(activeProviders, listModels))
    {
      var ps := activeProviders;
      CompletionOrderCovers(completion, |ps|);
      r := [];
      var n := 0;
      while n < |completion|
        invariant 0 <= n <= |completion|
        invariant |r| == n
        invariant forall j :: 0 <= j < n ==> r[j] == Minimal(ps[completion[j]], listModels)
      {
        r := r + [Minimal(ps[completion[n]], listModels)];
        n := n + 1;
      }
      forall i | 0 <= i < |ps|
        ensures Minimal(ps[i], listModels) in r
      {
        assert i in completion;
        var j :| 0 <= j < |completion| && completion[j] == i;
        assert r[j] == Minimal(ps[i], listModels);
      }
      forall m | m in r
        ensures exists i :: 0 <= i < |ps| && m == Minimal(ps[i], listModels)
      {
        var j :| 0 <= j < |r| && r[j] == m;
        assert r[j] == Minimal(ps[completion[j]], listModels);
      }
      PickedPermutes(MinimalAll(ps, listModels), completion);
      assert r == Picked(MinimalAll(ps, listModels), completion);
    }

    /** `loadChatModel` / `loadEmbeddingModel`: 'Invalid provider id' when no active provider has
        the id, otherwise what the first one's own loader answers. */
    method LoadModel<M>(providerId: string, modelName: string, load: (ProviderInstance, string) -> Result<M, string>)
      returns (r: Result<M, string>)
      ensures !HasProvider(activeProviders, providerId) ==> r == Failure(InvalidProviderId)
      ensures HasProvider(activeProviders, providerId) ==>
        exists i :: 0 <= i < |activeProviders| && activeProviders[i].info.id == providerId
          && (forall j :: 0 <= j < i ==> activeProviders[j].info.id != providerId)
          && r == load(activeProviders[i].provider, modelName)
    {
      match IndexOfProvider(activeProviders, providerId)
      case None =>
        r := Failure(InvalidProviderId);
      case Some(i) =>
        r := load(activeProviders[i].provider, modelName);
    }

    /** `addProvider`: an unknown type throws before anything is stored; otherwise one row with
        empty model lists and `hash = hashObj(config)` is stored, and, if the class accepts the
        configuration, one active entry is appended. */
    method AddProvider(providerType: string, name: string, config: JsonValue, id: Uuid, hashObj: Hasher,
                       store: ProvidersTable, catalog: ProviderCatalog)
      returns (r: Result<ConfigProvider, string>)
      modifies this, store
      ensures providerType !in catalog.known ==>
        r == Failure(InvalidProviderType) && store.rows == old(store.rows) && activeProviders == old(activeProviders)
      ensures providerType in catalog.known ==>
        var p := ConfigProvider(id, name, providerType, config, [], [], hashObj(config));
        store.rows == old(store.rows) + [RecordOf(p)]
        && (catalog.rejects(providerType, config).None? ==>
              r == Success(p) && activeProviders == old(activeProviders) + [ActiveProvider(p, InstanceOf(p))])
        && (catalog.rejects(providerType, config).Some? ==>
              r == Failure(catalog.rejects(providerType, config).value) && activeProviders == old(activeProviders))
    {
      if providerType !in catalog.known {
        return Failure(InvalidProviderType);
      }
      var p := ConfigProvider(id, name, providerType, config, [], [], hashObj(config));
      store.Create(p.id, p.name, p.providerType, p.config, [], [], p.hash);
      match catalog.rejects(providerType, config)
      case Some(e) =>
        r := Failure(e);
      case None =>
        activeProviders := activeProviders + [ActiveProvider(p, InstanceOf(p))];
        r := Success(p);
    }

    /** `removeProvider`: the row is deleted, then every active entry with the id. */
    method RemoveProvider(providerId: string, store: ProvidersTable)
      modifies this, store
      ensures store.rows == DeletedFirst(old(store.rows), providerId)
      ensures activeProviders == WithoutProvider(old(activeProviders), providerId)
    {
      store.DeleteById(providerId);
      activeProviders := WithoutProvider(activeProviders, providerId);
    }

    /** `updateProvider`: the row's name, configuration and hash are updated first (failing when
        there is no row); then an unknown type or a rejected configuration throws; otherwise every
        active entry with the id is replaced, or one is appended. */
    method UpdateProvider(providerId: string, name: string, config: JsonValue, hashObj: Hasher,
                          store: ProvidersTable, catalog: ProviderCatalog)
      returns (r: Result<ConfigProvider, string>)
      modifies this, store
      ensures IndexById(old(store.rows), providerId).None? ==>
        r == Failure(NotFound) && store.rows == old(store.rows) && activeProviders == old(activeProviders)
      ensures IndexById(old(store.rows), providerId).Some? ==>
        var i := IndexById(old(store.rows), providerId).value;
        var rec := Patched(old(store.rows)[i], ProviderPatch(Some(name), Some(config), None, None, Some(hashObj(config))));
        var p := MapToConfigProvider(rec);
        store.rows == old(store.rows)[i := rec]
        && (p.providerType !in catalog.known ==>
              r == Failure(InvalidProviderType) && activeProviders == old(activeProviders))
        && (p.providerType in catalog.known && catalog.rejects(p.providerType, config).Some? ==>
              r == Failure(catalog.rejects(p.providerType, config).value) && activeProviders == old(activeProviders))
        && (Admits(catalog, p) ==>
              r == Success(p)
              && activeProviders == Upserted(old(activeProviders), providerId, ActiveProvider(p, InstanceOf(p))))
    {
      var updated := store.Update(providerId, ProviderPatch(Some(name), Some(config), None, None, Some(hashObj(config))));
      if updated.Failure? {
        return Failure(updated.error);
      }
      var p := MapToConfigProvider(updated.value);
      if p.providerType !in catalog.known {
        return Failure(InvalidProviderType);
      }
      match catalog.rejects(p.providerType, config)
      case Some(e) =>
        r := Failure(e);
      case None =>
        var instance := ProviderInstance(p.providerType, providerId, name, config);
        assert instance == InstanceOf(p);
        ReplaceOrAppend(providerId, ActiveProvider(p, instance));
        r := Success(p);
    }

    /** The `replaced`-flag loop of `updateProvider`. */
    method ReplaceOrAppend(providerId: string, entry: ActiveProvider)
      modifies this
      ensures activeProviders == Upserted(old(activeProviders), providerId, entry)
    {
      var ps := activeProviders;
      var out: seq<ActiveProvider> := [];
      var replaced := false;
      var i := 0;
      while i < |ps|
        invariant 0 <= i <= |ps|
        invariant out == ReplacedAll(ps[..i], providerId, entry)
        invariant replaced <==> HasProvider(ps[..i], providerId)
      {
        assert ps[..i + 1][..i] == ps[..i];
        if ps[i].info.id != providerId {
          out := out + [ps[i]];
        } else {
          replaced := true;
          out := out + [entry];
        }
        assert ps[..i + 1][i] == ps[i];
        i := i + 1;
      }
      assert ps[..i] == ps;
      if !replaced {
        out := out + [entry];
      }
      activeProviders := out;
    }

    /** `addProviderModel`: the store's `addModel` first ('Provider not found' stops it), then the
        same model appended to the chosen list of every active entry with the id. */
    method AddProviderModel(providerId: string, kind: ModelKind, model: ModelEntry, store: ProvidersTable)
      returns (r: Result<ModelEntry, string>)
      modifies this, store
      ensures IndexById(old(store.rows), providerId).None? ==>
        r == Failure(NotFound) && store.rows == old(store.rows) && activeProviders == old(activeProviders)
      ensures IndexById(old(store.rows), providerId).Some? ==>
        var i := IndexById(old(store.rows), providerId).value;
        store.rows == old(store.rows)[i := WithModel(old(store.rows)[i], kind, model)]
        && activeProviders == AddedModel(old(activeProviders), providerId, kind, model)
        && r == Success(model)
    {
      var added := store.AddModel(providerId, kind, model);
      if added.Failure? {
        return Failure(added.error);
      }
      activeProviders := AddedModel(activeProviders, providerId, kind, model);
      r := Success(model);
    }

    /** `removeProviderModel`: the store's `removeModel` first, then every model with the key
        removed from the chosen list of every active entry with the id. */
    method RemoveProviderModel(providerId: string, kind: ModelKind, modelKey: string, store: ProvidersTable)
      returns (r: Result<(), string>)
      modifies this, store
      ensures IndexById(old(store.rows), providerId).None? ==>
        r == Failure(NotFound) && store.rows == old(store.rows) && activeProviders == old(activeProviders)
      ensures IndexById(old(store.rows), providerId).Some? ==>
        var i := IndexById(old(store.rows), providerId).value;
        store.rows == old(store.rows)[i := WithoutModel(old(store.rows)[i], kind, modelKey)]
        && activeProviders == RemovedModel(old(activeProviders), providerId, kind, modelKey)
        && r == Success(())
    {
      var removed := store.RemoveModel(providerId, kind, modelKey);
      if removed.Failure? {
        return Failure(removed.error);
      }
      activeProviders := RemovedModel(activeProviders, providerId, kind, modelKey);
      r := Success(());
    }
  }
}
