/**
 * The server-side provider registry: the store row to `ConfigModelProvider`
 * mapping, the one-shot import of providers from the legacy configuration file
 * into an empty store (guarded by a process-wide flag), and the two lookups that
 * run that import first.
 */
module ServerRegistry {
  import opened Wrappers
  import opened Json
  import opened ProviderTypes
  import opened ProviderStore

  /** `mapToConfigProvider`: `providerId` becomes `id`, the other six fields are copied. */
  function MapToConfigProvider(rec: ProviderRecord): (c: ConfigProvider)
    ensures c.id == rec.providerId
  {
    ConfigProvider(rec.providerId, rec.name, rec.providerType, rec.config,
                   rec.chatModels, rec.embeddingModels, rec.hash)
  }

  /** The store row a `ConfigModelProvider` stands for. */
  function RecordOf(c: ConfigProvider): (rec: ProviderRecord)
    ensures rec.providerId == c.id
  {
    ProviderRecord(c.id, c.name, c.providerType, c.config, c.chatModels, c.embeddingModels, c.hash)
  }

  /** The mapping loses nothing: it and `RecordOf` are inverse to each other. */
  lemma MapToConfigProviderInverse(rec: ProviderRecord, c: ConfigProvider)
    ensures RecordOf(MapToConfigProvider(rec)) == rec
    ensures MapToConfigProvider(RecordOf(c)) == c
  {
  }

  /** `providers.map(mapToConfigProvider)`. */
  function ConfigProvidersOf(rows: seq<ProviderRecord>): (r: seq<ConfigProvider>)
    ensures |r| == |rows|
    ensures forall i :: 0 <= i < |rows| ==> r[i] == MapToConfigProvider(rows[i])
  {
    seq(|rows|, i requires 0 <= i < |rows| => MapToConfigProvider(rows[i]))
  }

  // ---------------------------------------------------------------------------
  // The legacy import.

  /** A provider as the legacy configuration file holds it: any field may be missing. */
  datatype LegacyProvider = LegacyProvider(
    id: Option<string>,
    name: Option<string>,
    providerType: Option<string>,
    config: Option<JsonValue>,
    chatModels: Option<seq<ModelEntry>>,
    embeddingModels: Option<seq<ModelEntry>>,
    hash: Option<string>)

  /** A truthy string field: present and non-empty. */
  predicate Present(s: Option<string>) {
    s.Some? && s.value != []
  }

  /** A legacy provider the import does not skip: it has an id, a name and a type. */
  predicate Complete(p: LegacyProvider) {
    Present(p.id) && Present(p.name) && Present(p.providerType)
  }

  /** The row imported for a legacy provider: configuration `{}` when missing or `null`, model
      lists `[]` when missing, and its own hash when it has a non-empty one, else the hash of the
      configuration it stores. */
  function ImportRecord(p: LegacyProvider, hashObj: Hasher): (rec: ProviderRecord)
    requires Complete(p)
    ensures rec.providerId == p.id.value && rec.name == p.name.value && rec.providerType == p.providerType.value
    ensures p.config.None? || p.config.value.JNull? ==> rec.config == EmptyObject
    ensures p.config.Some? && !p.config.value.JNull? ==> rec.config == p.config.value
    ensures rec.chatModels == p.chatModels.GetOr([]) && rec.embeddingModels == p.embeddingModels.GetOr([])
    ensures Present(p.hash) ==> rec.hash == p.hash.value
    ensures !Present(p.hash) ==> rec.hash == hashObj(rec.config)
  {
    var config := Coalesced(p.config, EmptyObject);
    ProviderRecord(p.id.value, p.name.value, p.providerType.value, config,
                   p.chatModels.GetOr([]), p.embeddingModels.GetOr([]),
                   if Present(p.hash) then p.hash.value else hashObj(config))
  }

  /** Whether the store accepts an insert; a rejected insert is logged and skipped. */
  type InsertOutcome = ProviderRecord -> bool

  /** Whether the import stores a row for `p`. */
  predicate Imports(p: LegacyProvider, hashObj: Hasher, accepts: InsertOutcome) {
    Complete(p) && accepts(ImportRecord(p, hashObj))
  }

  /** The rows the import loop appends, in order. */
  function Imported(legacy: seq<LegacyProvider>, hashObj: Hasher, accepts: InsertOutcome): (r: seq<ProviderRecord>)
    ensures |r| <= |legacy|
  {
    if legacy == [] then []
    else
      var p := legacy[|legacy| - 1];
      Imported(legacy[..|legacy| - 1], hashObj, accepts)
        + (if Imports(p, hashObj, accepts) then [ImportRecord(p, hashObj)] else [])
  }

  /** Every imported row comes from a complete legacy provider, and every complete provider
      whose insert succeeds is imported, however many others were skipped or failed. */
  lemma {:induction false} ImportedExact(legacy: seq<LegacyProvider>, hashObj: Hasher, accepts: InsertOutcome)
    ensures forall rec :: rec in Imported(legacy, hashObj, accepts) ==>
      exists i :: 0 <= i < |legacy| && Imports(legacy[i], hashObj, accepts) && rec == ImportRecord(legacy[i], hashObj)
    ensures forall i :: 0 <= i < |legacy| && Imports(legacy[i], hashObj, accepts) ==>
      ImportRecord(legacy[i], hashObj) in Imported(legacy, hashObj, accepts)
  {
    if legacy != [] {
      var n := |legacy| - 1;
      var p := legacy[..n];
      ImportedExact(p, hashObj, accepts);
      forall i | 0 <= i < n
        ensures legacy[i] == p[i]
      {
      }
    }
  }

  /** Incomplete legacy providers contribute nothing. */
  lemma {:induction false} IncompleteSkipped(legacy: seq<LegacyProvider>, hashObj: Hasher, accepts: InsertOutcome)
    requires forall i :: 0 <= i < |legacy| ==> !Complete(legacy[i])
    ensures Imported(legacy, hashObj, accepts) == []
  {
    if legacy != [] {
      IncompleteSkipped(legacy[..|legacy| - 1], hashObj, accepts);
    }
  }

  /** The process-wide `hasSyncedLegacyProviders` flag. */
  class LegacySync {
    var synced: bool

    constructor()
      ensures !synced
    {
      synced := false;
    }

    /** `syncLegacyProvidersToConvex`: nothing once the flag is set; with a non-empty store only
        the flag is set; otherwise the legacy providers are imported and then the flag is set. */
    method Sync(store: ProvidersTable, legacy: Option<seq<LegacyProvider>>, hashObj: Hasher,
                accepts: InsertOutcome)
      modifies this, store
      ensures synced
      ensures old(synced) || old(store.rows) != [] ==> store.rows == old(store.rows)
      ensures !old(synced) && old(store.rows) == [] ==>
        store.rows == Imported(legacy.GetOr([]), hashObj, accepts)
    {
      if synced {
        return;
      }
      if store.rows != [] {
        synced := true;
        return;
      }
      var providers := legacy.GetOr([]);
      if providers == [] {
        synced := true;
        return;
      }
      ImportAll(store, providers, hashObj, accepts);
      synced := true;
    }

    /** The import loop: incomplete providers are skipped, a failing insert only loses its own row. */
    method ImportAll(store: ProvidersTable, providers: seq<LegacyProvider>, hashObj: Hasher,
                     accepts: InsertOutcome)
      modifies store
      ensures store.rows == old(store.rows) + Imported(providers, hashObj, accepts)
    {
      var i := 0;
      while i < |providers|
        invariant 0 <= i <= |providers|
        invariant store.rows == old(store.rows) + Imported(providers[..i], hashObj, accepts)
      {
        var p := providers[i];
        assert providers[..i + 1][..i] == providers[..i];
        if Complete(p) {
          var rec := ImportRecord(p, hashObj);
          if accepts(rec) {
            store.Create(rec.providerId, rec.name, rec.providerType, rec.config,
                         rec.chatModels, rec.embeddingModels, rec.hash);
          }
        }
        i := i + 1;
      }
      assert providers[..i] == providers;
    }

    /** `getConfiguredModelProviders`: the import runs first, then every stored row is mapped. */
    method GetConfiguredModelProviders(store: ProvidersTable, legacy: Option<seq<LegacyProvider>>,
                                       hashObj: Hasher, accepts: InsertOutcome)
      returns (r: seq<ConfigProvider>)
      modifies this, store
      ensures synced
      ensures r == ConfigProvidersOf(store.rows)
      ensures old(synced) || old(store.rows) != [] ==> store.rows == old(store.rows)
      ensures !old(synced) && old(store.rows) == [] ==>
        store.rows == Imported(legacy.GetOr([]), hashObj, accepts)
    {
      Sync(store, legacy, hashObj, accepts);
      r := ConfigProvidersOf(store.rows);
    }

    /** `getConfiguredModelProviderById`: the import runs first; `undefined` when no row has the id. */
    method GetConfiguredModelProviderById(store: ProvidersTable, id: string, legacy: Option<seq<LegacyProvider>>,
                                          hashObj: Hasher, accepts: InsertOutcome)
      returns (r: Option<ConfigProvider>)
      modifies this, store
      ensures synced
      ensures r.None? <==> store.GetById(id).None?
      ensures r.Some? ==> r == Some(MapToConfigProvider(store.GetById(id).value)) && r.value.id == id
      ensures old(synced) || old(store.rows) != [] ==> store.rows == old(store.rows)
      ensures !old(synced) && old(store.rows) == [] ==>
        store.rows == Imported(legacy.GetOr([]), hashObj, accepts)
    {
      Sync(store, legacy, hashObj, accepts);
      var found := store.GetById(id);
      if found.None? {
        r := None;
      } else {
        r := Some(MapToConfigProvider(found.value));
      }
    }
  }
}
