/**
 * The provider and model records shared by the document store, the two
 * registries, the provider classes and the routes (`Model`, `ModelList`,
 * `ConfigModelProvider` and a row of the `providers` table).
 */
module ProviderTypes {
  import opened Wrappers
  import opened Json

  /** `Model`: a model's display name and the key it is loaded by. */
  datatype ModelEntry = ModelEntry(name: string, key: string)

  /** `ModelList`: a provider's chat and embedding models. */
  datatype ModelList = ModelList(chat: seq<ModelEntry>, embedding: seq<ModelEntry>)

  /** Which of a provider's two model lists an operation addresses (`'chat' | 'embedding'`). */
  datatype ModelKind = Chat | Embedding

  /** A row of the `providers` table. */
  datatype ProviderRecord = ProviderRecord(
    providerId: string,
    name: string,
    providerType: string,
    config: JsonValue,
    chatModels: seq<ModelEntry>,
    embeddingModels: seq<ModelEntry>,
    hash: string)

  /** `ConfigModelProvider`: the application's view of a stored provider. */
  datatype ConfigProvider = ConfigProvider(
    id: string,
    name: string,
    providerType: string,
    config: JsonValue,
    chatModels: seq<ModelEntry>,
    embeddingModels: seq<ModelEntry>,
    hash: string)

  /** `hashObj`: the content hash of a configuration object, not modelled. */
  type Hasher = JsonValue -> string

  /** `crypto.randomUUID()` is not modelled: each call site takes the identifier it draws. */
  type Uuid = string

  /** `models.filter((m) => m.key !== key)`. */
  function WithoutKey(models: seq<ModelEntry>, key: string): (r: seq<ModelEntry>)
    ensures forall m :: m in r <==> m in models && m.key != key
    ensures |r| <= |models|
  {
    if models == [] then []
    else (if models[0].key != key then [models[0]] else []) + WithoutKey(models[1..], key)
  }

  /** Removing a key no model carries changes nothing; removing it twice is removing it once. */
  lemma {:induction false} WithoutKeyAbsent(models: seq<ModelEntry>, key: string)
    requires forall m :: m in models ==> m.key != key
    ensures WithoutKey(models, key) == models
  {
    if models != [] {
      WithoutKeyAbsent(models[1..], key);
    }
  }

  lemma WithoutKeyIdempotent(models: seq<ModelEntry>, key: string)
    ensures WithoutKey(WithoutKey(models, key), key) == WithoutKey(models, key)
  {
    WithoutKeyAbsent(WithoutKey(models, key), key);
  }

  /** `x` occurs before `y` in `s`. */
  predicate Precedes<T(==)>(s: seq<T>, x: T, y: T) {
    exists a, b :: 0 <= a < b < |s| && s[a] == x && s[b] == y
  }

  lemma PrecedesPrepend<T>(h: seq<T>, s: seq<T>, x: T, y: T)
    requires Precedes(s, x, y)
    ensures Precedes(h + s, x, y)
  {
    var a, b :| 0 <= a < b < |s| && s[a] == x && s[b] == y;
    assert (h + s)[|h| + a] == x && (h + s)[|h| + b] == y;
  }

  lemma PrecedesHead<T>(x: T, s: seq<T>, y: T)
    requires y in s
    ensures Precedes([x] + s, x, y)
  {
    var b :| 0 <= b < |s| && s[b] == y;
    assert ([x] + s)[0] == x && ([x] + s)[b + 1] == y;
  }

  lemma PrecedesAppend<T>(s: seq<T>, t: seq<T>, x: T, y: T)
    requires Precedes(s, x, y)
    ensures Precedes(s + t, x, y)
  {
    var a, b :| 0 <= a < b < |s| && s[a] == x && s[b] == y;
    assert (s + t)[a] == x && (s + t)[b] == y;
  }

  lemma PrecedesLast<T>(s: seq<T>, x: T, y: T)
    requires x in s
    ensures Precedes(s + [y], x, y)
  {
    var a :| 0 <= a < |s| && s[a] == x;
    assert (s + [y])[a] == x && (s + [y])[|s|] == y;
  }

  /** Filtering keeps the surviving models in their original relative order. */
  lemma {:induction false} WithoutKeyOrder(models: seq<ModelEntry>, key: string, i: nat, j: nat)
    requires i < j < |models| && models[i].key != key && models[j].key != key
    ensures Precedes(WithoutKey(models, key), models[i], models[j])
  {
    var tail := models[1..];
    var rest := WithoutKey(tail, key);
    var head := if models[0].key != key then [models[0]] else [];
    assert WithoutKey(models, key) == head + rest;
    assert tail[j - 1] == models[j];
    if i == 0 {
      assert models[j] in tail;
      PrecedesHead(models[0], rest, models[j]);
    } else {
      assert tail[i - 1] == models[i];
      WithoutKeyOrder(tail, key, i - 1, j - 1);
      PrecedesPrepend(head, rest, models[i], models[j]);
    }
  }

  /** The index of the first element satisfying `p` (the `.first()` of an index lookup and
      JavaScript's `find`). */
  function FirstWhere<T>(s: seq<T>, p: T -> bool): (r: Option<nat>)
    ensures r.Some? ==> r.value < |s| && p(s[r.value])
    ensures r.Some? ==> forall j :: 0 <= j < r.value ==> !p(s[j])
    ensures r.None? <==> forall j :: 0 <= j < |s| ==> !p(s[j])
  {
    if s == [] then None
    else if p(s[0]) then Some(0)
    else
      match FirstWhere(s[1..], p)
      case None => None
      case Some(i) => Some(i + 1)
  }

  /** Some element satisfies `p` (JavaScript's `some`, and a successful `find`). */
  predicate Any<T>(s: seq<T>, p: T -> bool) {
    exists j :: 0 <= j < |s| && p(s[j])
  }

  /** `find` succeeds exactly when `some` holds. */
  lemma FirstWhereFinds<T>(s: seq<T>, p: T -> bool)
    ensures FirstWhere(s, p).Some? <==> Any(s, p)
  {
  }

  /** Whether a model list has an entry with this key (`list.find((m) => m.key === key)`). */
  predicate HasKey(models: seq<ModelEntry>, key: string) {
    exists j :: 0 <= j < |models| && models[j].key == key
  }
}
