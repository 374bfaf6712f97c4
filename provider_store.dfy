/**
 * The `providers` table of the document store and its queries and mutations
 * (`getById`, `getByHash`, `create`, `update`, `deleteById`, `addModel`,
 * `removeModel`). The table is a sequence of rows in insertion order, which is
 * the order its `by_providerId` and `by_hash` indexes return equal keys in.
 */
module ProviderStore {
  import opened Wrappers
  import opened Json
  import opened ProviderTypes

  const NotFound := "Provider not found"

  /** The optional arguments of `update`; an absent field is left as stored. */
  datatype ProviderPatch = ProviderPatch(
    name: Option<string>,
    config: Option<JsonValue>,
    chatModels: Option<seq<ModelEntry>>,
    embeddingModels: Option<seq<ModelEntry>>,
    hash: Option<string>)

  const EmptyPatch := ProviderPatch(None, None, None, None, None)

  /** The position of the first row stored under `providerId`. */
  function IndexById(rows: seq<ProviderRecord>, providerId: string): (r: Option<nat>)
    ensures r.Some? ==> r.value < |rows| && rows[r.value].providerId == providerId
    ensures r.Some? ==> forall j :: 0 <= j < r.value ==> rows[j].providerId != providerId
    ensures r.None? <==> forall j :: 0 <= j < |rows| ==> rows[j].providerId != providerId
  {
    FirstWhere(rows, (p: ProviderRecord) => p.providerId == providerId)
  }

  /** `{ ...provider, ...patch }`: the supplied fields replace the stored ones. */
  function Patched(rec: ProviderRecord, patch: ProviderPatch): (r: ProviderRecord)
    ensures r.providerId == rec.providerId && r.providerType == rec.providerType
    ensures r.name == patch.name.GetOr(rec.name) && r.config == patch.config.GetOr(rec.config)
    ensures r.chatModels == patch.chatModels.GetOr(rec.chatModels)
    ensures r.embeddingModels == patch.embeddingModels.GetOr(rec.embeddingModels)
    ensures r.hash == patch.hash.GetOr(rec.hash)
  {
    ProviderRecord(rec.providerId, patch.name.GetOr(rec.name), rec.providerType,
                   patch.config.GetOr(rec.config), patch.chatModels.GetOr(rec.chatModels),
                   patch.embeddingModels.GetOr(rec.embeddingModels), patch.hash.GetOr(rec.hash))
  }

  /** An empty patch changes nothing, and applying a patch twice is applying it once. */
  lemma PatchLaws(rec: ProviderRecord, patch: ProviderPatch)
    ensures Patched(rec, EmptyPatch) == rec
    ensures Patched(Patched(rec, patch), patch) == Patched(rec, patch)
  {
  }

  /** The model list of the chosen kind. */
  function ModelsOf(rec: ProviderRecord, kind: ModelKind): seq<ModelEntry> {
    if kind == Chat then rec.chatModels else rec.embeddingModels
  }

  /** `addModel`'s patch: the model appended to the chosen list, everything else as stored. */
  function WithModel(rec: ProviderRecord, kind: ModelKind, model: ModelEntry): (r: ProviderRecord)
    ensures ModelsOf(r, kind) == ModelsOf(rec, kind) + [model]
    ensures r.(chatModels := rec.chatModels, embeddingModels := rec.embeddingModels) == rec
    ensures kind == Chat ==> r.embeddingModels == rec.embeddingModels
    ensures kind == Embedding ==> r.chatModels == rec.chatModels
  {
    if kind == Chat then rec.(chatModels := rec.chatModels + [model])
    else rec.(embeddingModels := rec.embeddingModels + [model])
  }

  /** `removeModel`'s patch: every model with the key dropped from the chosen list. */
  function WithoutModel(rec: ProviderRecord, kind: ModelKind, key: string): (r: ProviderRecord)
    ensures ModelsOf(r, kind) == WithoutKey(ModelsOf(rec, kind), key)
    ensures r.(chatModels := rec.chatModels, embeddingModels := rec.embeddingModels) == rec
    ensures kind == Chat ==> r.embeddingModels == rec.embeddingModels
    ensures kind == Embedding ==> r.chatModels == rec.chatModels
  {
    if kind == Chat then rec.(chatModels := WithoutKey(rec.chatModels, key))
    else rec.(embeddingModels := WithoutKey(rec.embeddingModels, key))
  }

  /** Removing a key right after adding a model under it is the same as only removing it;
      so adding a fresh key and removing it restores the row. */
  lemma {:induction false} RemoveUndoesAdd(rec: ProviderRecord, kind: ModelKind, model: ModelEntry)
    ensures WithoutModel(WithModel(rec, kind, model), kind, model.key) == WithoutModel(rec, kind, model.key)
    ensures !HasKey(ModelsOf(rec, kind), model.key) ==>
      WithoutModel(WithModel(rec, kind, model), kind, model.key) == rec
  {
    var ms := ModelsOf(rec, kind);
    WithoutKeyAppendDropped(ms, model);
    if !HasKey(ms, model.key) {
      forall m | m in ms
        ensures m.key != model.key
      {
        var j :| 0 <= j < |ms| && ms[j] == m;
      }
      WithoutKeyAbsent(ms, model.key);
    }
  }

  lemma {:induction false} WithoutKeyAppendDropped(ms: seq<ModelEntry>, model: ModelEntry)
    ensures WithoutKey(ms + [model], model.key) == WithoutKey(ms, model.key)
  {
    if ms == [] {
      assert WithoutKey([model], model.key) == [] + WithoutKey([], model.key);
    } else {
      assert (ms + [model])[1..] == ms[1..] + [model];
      WithoutKeyAppendDropped(ms[1..], model);
    }
  }

  /** The rows after `deleteById`: the first row with the id removed, if there is one. */
  function DeletedFirst(rows: seq<ProviderRecord>, providerId: string): (r: seq<ProviderRecord>)
    ensures IndexById(rows, providerId).None? ==> r == rows
    ensures IndexById(rows, providerId).Some? ==> |r| == |rows| - 1
  {
    match IndexById(rows, providerId)
    case None => rows
    case Some(i) => rows[..i] + rows[i + 1..]
  }

  /** Identifiers are unique (the application always inserts fresh UUIDs). */
  predicate UniqueIds(rows: seq<ProviderRecord>) {
    forall i, j :: 0 <= i < j < |rows| ==> rows[i].providerId != rows[j].providerId
  }

  /** With unique identifiers, `deleteById` leaves no row under the id and keeps every other row. */
  lemma DeleteRemovesProvider(rows: seq<ProviderRecord>, providerId: string)
    requires UniqueIds(rows)
    ensures IndexById(DeletedFirst(rows, providerId), providerId).None?
    ensures forall p :: p in rows && p.providerId != providerId ==> p in DeletedFirst(rows, providerId)
    ensures forall p :: p in DeletedFirst(rows, providerId) ==> p in rows
  {
    var r := DeletedFirst(rows, providerId);
    if IndexById(rows, providerId).Some? {
      var i := IndexById(rows, providerId).value;
      assert r == rows[..i] + rows[i + 1..];
      forall k | 0 <= k < |r|
        ensures r[k].providerId != providerId
      {
        if k < i { assert r[k] == rows[k]; } else { assert r[k] == rows[k + 1]; }
      }
      forall p | p in rows && p.providerId != providerId
        ensures p in r
      {
        var k :| 0 <= k < |rows| && rows[k] == p;
        if k < i { assert r[k] == p; } else { assert r[k - 1] == p; }
      }
    }
  }

  /** A row inserted under a fresh id is what `getById` then finds; a patch keeps the row
      findable at the same place. */
  lemma LookupAfterWrites(rows: seq<ProviderRecord>, rec: ProviderRecord, patch: ProviderPatch)
    ensures IndexById(rows, rec.providerId).None? ==>
      IndexById(rows + [rec], rec.providerId) == Some(|rows|)
    ensures IndexById(rows, rec.providerId).Some? ==>
      var i := IndexById(rows, rec.providerId).value;
      IndexById(rows[i := Patched(rows[i], patch)], rec.providerId) == Some(i)
  {
    var s := rows + [rec];
    if IndexById(rows, rec.providerId).None? {
      assert s[|rows|].providerId == rec.providerId;
      assert forall j :: 0 <= j < |rows| ==> s[j] == rows[j];
    } else {
      var i := IndexById(rows, rec.providerId).value;
      var t := rows[i := Patched(rows[i], patch)];
      assert t[i].providerId == rec.providerId;
      assert forall j :: 0 <= j < i ==> t[j] == rows[j];
    }
  }

  class ProvidersTable {
    var rows: seq<ProviderRecord>

    constructor(initial: seq<ProviderRecord>)
      ensures rows == initial
    {
      rows := initial;
    }

    /** `getById`: the first row stored under the id, or nothing. */
    function GetById(providerId: string): (r: Option<ProviderRecord>)
      reads this
      ensures r.None? <==> forall j :: 0 <= j < |rows| ==> rows[j].providerId != providerId
      ensures r.Some? ==> r.value.providerId == providerId
      ensures r.Some? ==>
        exists i :: 0 <= i < |rows| && rows[i] == r.value && forall j :: 0 <= j < i ==> rows[j].providerId != providerId
    {
      match IndexById(rows, providerId)
      case None => None
      case Some(i) => Some(rows[i])
    }

    /** `getByHash`: the first row carrying the hash, or nothing. */
    function GetByHash(hash: string): (r: Option<ProviderRecord>)
      reads this
      ensures r.None? <==> forall j :: 0 <= j < |rows| ==> rows[j].hash != hash
      ensures r.Some? ==> r.value.hash == hash
      ensures r.Some? ==>
        exists i :: 0 <= i < |rows| && rows[i] == r.value && forall j :: 0 <= j < i ==> rows[j].hash != hash
    {
      match FirstWhere(rows, (p: ProviderRecord) => p.hash == hash)
      case None => None
      case Some(i) => Some(rows[i])
    }

    /** `create`: one row holding exactly the supplied fields is appended. */
    method Create(providerId: string, name: string, providerType: string, config: JsonValue,
                  chatModels: seq<ModelEntry>, embeddingModels: seq<ModelEntry>, hash: string)
      modifies this
      ensures rows == old(rows) + [ProviderRecord(providerId, name, providerType, config,
                                                  chatModels, embeddingModels, hash)]
    {
      rows := rows + [ProviderRecord(providerId, name, providerType, config, chatModels, embeddingModels, hash)];
    }

    /** `update`: 'Provider not found' when no row has the id; otherwise only the supplied fields
        of the first such row change, and the merged row is returned. */
    method Update(providerId: string, patch: ProviderPatch) returns (r: Result<ProviderRecord, string>)
      modifies this
      ensures IndexById(old(rows), providerId).None? ==> r == Failure(NotFound) && rows == old(rows)
      ensures IndexById(old(rows), providerId).Some? ==>
        var i := IndexById(old(rows), providerId).value;
        rows == old(rows)[i := Patched(old(rows)[i], patch)] && r == Success(rows[i])
    {
      match IndexById(rows, providerId)
      case None =>
        r := Failure(NotFound);
      case Some(i) =>
        rows := rows[i := Patched(rows[i], patch)];
        r := Success(rows[i]);
    }

    /** `deleteById`: the first row with the id is removed; no-op when there is none. */
    method DeleteById(providerId: string)
      modifies this
      ensures rows == DeletedFirst(old(rows), providerId)
    {
      match IndexById(rows, providerId)
      case None =>
      case Some(i) =>
        rows := rows[..i] + rows[i + 1..];
    }

    /** `addModel`: the model is appended to the chosen list of the provider and returned;
        'Provider not found' when there is no such provider. */
    method AddModel(providerId: string, kind: ModelKind, model: ModelEntry) returns (r: Result<ModelEntry, string>)
      modifies this
      ensures IndexById(old(rows), providerId).None? ==> r == Failure(NotFound) && rows == old(rows)
      ensures IndexById(old(rows), providerId).Some? ==>
        var i := IndexById(old(rows), providerId).value;
        rows == old(rows)[i := WithModel(old(rows)[i], kind, model)] && r == Success(model)
    {
      match IndexById(rows, providerId)
      case None =>
        r := Failure(NotFound);
      case Some(i) =>
        rows := rows[i := WithModel(rows[i], kind, model)];
        r := Success(model);
    }

    /** `removeModel`: every model with the key leaves the chosen list of the provider;
        'Provider not found' when there is no such provider. */
    method RemoveModel(providerId: string, kind: ModelKind, modelKey: string) returns (r: Result<(), string>)
      modifies this
      ensures IndexById(old(rows), providerId).None? ==> r == Failure(NotFound) && rows == old(rows)
      ensures IndexById(old(rows), providerId).Some? ==>
        var i := IndexById(old(rows), providerId).value;
        rows == old(rows)[i := WithoutModel(old(rows)[i], kind, modelKey)] && r == Success(())
    {
      match IndexById(rows, providerId)
      case None =>
        r := Failure(NotFound);
      case Some(i) =>
        rows := rows[i := WithoutModel(rows[i], kind, modelKey)];
        r := Success(());
    }
  }
}
