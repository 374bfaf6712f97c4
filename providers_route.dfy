/**
 * The `/api/providers` route: GET lists the stored providers that carry no error
 * sentinel among their chat models, POST validates a body and stores a new
 * provider with empty model lists. The query result, the request body (`None`
 * when it is not JSON), the fresh UUID and the configuration hasher are inputs.
 */
module ProvidersRoute {
  import opened Wrappers
  import opened Json
  import opened ProviderTypes
  import opened ProviderStore

  /** A provider as GET reports it. */
  datatype ProviderView = ProviderView(id: string, name: string, chatModels: seq<ModelEntry>,
                                       embeddingModels: seq<ModelEntry>)

  /** The provider POST echoes back. */
  datatype CreatedProvider = CreatedProvider(id: string, name: string, providerType: string, config: JsonValue,
                                             chatModels: seq<ModelEntry>, embeddingModels: seq<ModelEntry>,
                                             hash: string)

  /** A route's JSON answer; the two successes carry status 200. */
  datatype Response =
    | ProviderList(providers: seq<ProviderView>)
    | Created(provider: CreatedProvider)
    | Message(code: nat, message: string)

  function Status(r: Response): nat {
    match r
    case ProviderList(_) => 200
    case Created(_) => 200
    case Message(code, _) => code
  }

  const ServerError := "An error has occurred."

  const MissingFields := "Missing required fields."

  /** The key of the sentinel model a failed listing leaves behind. */
  const ErrorKey := "error"

  // ---------------------------------------------------------------------------
  // GET.

  /** A provider GET reports: none of its chat models has the key `error`. */
  predicate Healthy(p: ProviderRecord) {
    !HasKey(p.chatModels, ErrorKey)
  }

  /** The reported shape: `providerId` becomes `id`, type, config and hash are dropped. */
  function View(p: ProviderRecord): ProviderView {
    ProviderView(p.providerId, p.name, p.chatModels, p.embeddingModels)
  }

  /** `filter` then `map`, in store order. */
  function Listed(rows: seq<ProviderRecord>): (r: seq<ProviderView>)
    ensures |r| <= |rows|
  {
    if rows == [] then []
    else
      var p := rows[|rows| - 1];
      Listed(rows[..|rows| - 1]) + (if Healthy(p) then [View(p)] else [])
  }

  /** Exactly the healthy providers are listed: every listed entry is the view of a healthy
      stored provider, and every healthy stored provider is listed. */
  lemma {:induction false} ListedExact(rows: seq<ProviderRecord>)
    ensures forall v :: v in Listed(rows) ==>
      exists i :: 0 <= i < |rows| && Healthy(rows[i]) && v == View(rows[i])
    ensures forall i :: 0 <= i < |rows| && Healthy(rows[i]) ==> View(rows[i]) in Listed(rows)
  {
    if rows != [] {
      var n := |rows| - 1;
      ListedExact(rows[..n]);
      forall i | 0 <= i < n
        ensures rows[i] == rows[..n][i]
      {
      }
    }
  }

  /** Healthy providers are listed in store order. */
  lemma {:induction false} ListedOrder(rows: seq<ProviderRecord>, i: nat, j: nat)
    requires i < j < |rows| && Healthy(rows[i]) && Healthy(rows[j])
    ensures Precedes(Listed(rows), View(rows[i]), View(rows[j]))
  {
    var n := |rows| - 1;
    var p := rows[..n];
    var tail := if Healthy(rows[n]) then [View(rows[n])] else [];
    assert Listed(rows) == Listed(p) + tail;
    assert p[i] == rows[i];
    if j == n {
      ListedExact(p);
      PrecedesLast(Listed(p), View(rows[i]), View(rows[j]));
    } else {
      assert p[j] == rows[j];
      ListedOrder(p, i, j);
      PrecedesAppend(Listed(p), tail, View(rows[i]), View(rows[j]));
    }
  }

  /** No listed provider offers the error sentinel. */
  lemma ListedHasNoErrorModel(rows: seq<ProviderRecord>, v: ProviderView)
    requires v in Listed(rows)
    ensures !HasKey(v.chatModels, ErrorKey)
  {
    ListedExact(rows);
  }

  /** When no stored provider carries the sentinel, GET lists every one of them, in order. */
  lemma {:induction false} ListedAllHealthy(rows: seq<ProviderRecord>)
    requires forall i :: 0 <= i < |rows| ==> Healthy(rows[i])
    ensures |Listed(rows)| == |rows|
    ensures forall i :: 0 <= i < |rows| ==> Listed(rows)[i] == View(rows[i])
  {
    if rows != [] {
      var n := |rows| - 1;
      ListedAllHealthy(rows[..n]);
      assert Listed(rows) == Listed(rows[..n]) + [View(rows[n])];
    }
  }

  /** GET: a failing query answers 500 with the fixed message, otherwise 200 with the list. */
  function Get(listing: Result<seq<ProviderRecord>, string>): (r: Response)
    ensures Status(r) == 200 <==> listing.Success?
    ensures listing.Failure? ==> r == Message(500, ServerError)
    ensures listing.Success? ==> r.ProviderList? && |r.providers| <= |listing.value|
    ensures listing.Success? ==> r.ProviderList? && r.providers == Listed(listing.value)
  {
    match listing
    case Failure(_) => Message(500, ServerError)
    case Success(rows) => ProviderList(Listed(rows))
  }

  // ---------------------------------------------------------------------------
  // POST.

  /** `!field` is false: the destructured field is present and truthy. */
  predicate Given(body: JsonValue, name: string) {
    Field(body, name).Some? && Truthy(Field(body, name).value)
  }

  /** The store's validator demands a string. */
  predicate IsString(body: JsonValue, name: string) {
    Field(body, name).Some? && Field(body, name).value.JString?
  }

  /** A body that passes the route's own check and the store's validator. */
  predicate Storable(body: JsonValue) {
    Given(body, "type") && Given(body, "name") && Given(body, "config")
    && IsString(body, "type") && IsString(body, "name")
  }

  /** The row POST stores for a storable body: a fresh id, no models, the configuration's hash. */
  function NewRecord(body: JsonValue, uuid: Uuid, hashObj: Hasher): (rec: ProviderRecord)
    requires Storable(body)
    ensures rec.providerId == uuid && rec.chatModels == [] && rec.embeddingModels == []
    ensures rec.config == body.fields["config"] && rec.hash == hashObj(rec.config)
    ensures JString(rec.name) == body.fields["name"] && JString(rec.providerType) == body.fields["type"]
  {
    var config := Field(body, "config").value;
    ProviderRecord(uuid, Field(body, "name").value.s, Field(body, "type").value.s, config,
                   [], [], hashObj(config))
  }

  /** The provider echoed for a stored row. */
  function Echo(rec: ProviderRecord): CreatedProvider {
    CreatedProvider(rec.providerId, rec.name, rec.providerType, rec.config,
                    rec.chatModels, rec.embeddingModels, rec.hash)
  }

  /** POST's answer and the row it stores, if any. An unparsable body or a `null` one (whose
      destructuring throws) and a body with a non-string name or type (which the store rejects)
      answer 500; a missing or falsy field answers 400. */
  function PostOutcome(body: Option<JsonValue>, uuid: Uuid, hashObj: Hasher): (o: (Response, Option<ProviderRecord>))
    ensures Status(o.0) == 200 <==> o.1.Some?
    ensures Status(o.0) == 200 <==> body.Some? && Storable(body.value)
    ensures o.1.Some? ==> o.1 == Some(NewRecord(body.value, uuid, hashObj)) && o.0 == Created(Echo(o.1.value))
    ensures Status(o.0) == 400 <==>
      body.Some? && !body.value.JNull?
      && !(Given(body.value, "type") && Given(body.value, "name") && Given(body.value, "config"))
    ensures o.0.Message? ==> o.0 in {Message(400, MissingFields), Message(500, ServerError)}
  {
    if body.None? || body.value.JNull? then (Message(500, ServerError), None)
    else
      var b := body.value;
      if !Given(b, "type") || !Given(b, "name") || !Given(b, "config") then (Message(400, MissingFields), None)
      else if !IsString(b, "type") || !IsString(b, "name") then (Message(500, ServerError), None)
      else
        var rec := NewRecord(b, uuid, hashObj);
        (Created(Echo(rec)), Some(rec))
  }

  /** The echoed provider is the stored row under its public field names, type included. */
  lemma EchoMatchesRow(body: JsonValue, uuid: Uuid, hashObj: Hasher)
    requires Storable(body)
    ensures var rec := NewRecord(body, uuid, hashObj);
      Echo(rec).id == rec.providerId && Echo(rec).providerType == rec.providerType
      && RecordOfEcho(Echo(rec)) == rec
  {
  }

  /** The row a `CreatedProvider` describes. */
  function RecordOfEcho(c: CreatedProvider): ProviderRecord {
    ProviderRecord(c.id, c.name, c.providerType, c.config, c.chatModels, c.embeddingModels, c.hash)
  }

  /** After a successful POST with an unused id, looking the id up finds exactly the echoed row. */
  lemma PostedIsFound(rows: seq<ProviderRecord>, body: JsonValue, uuid: Uuid, hashObj: Hasher)
    requires Storable(body)
    requires IndexById(rows, uuid).None?
    ensures IndexById(rows + [NewRecord(body, uuid, hashObj)], uuid) == Some(|rows|)
  {
    var rec := NewRecord(body, uuid, hashObj);
    var all := rows + [rec];
    assert forall j :: 0 <= j < |rows| ==> all[j] == rows[j];
    assert all[|rows|].providerId == uuid;
    var found := IndexById(all, uuid);
    assert found.Some?;
  }

  /** POST: the store receives the new row exactly when the answer is 200. */
  method Post(body: Option<JsonValue>, uuid: Uuid, hashObj: Hasher, store: ProvidersTable)
    returns (r: Response)
    modifies store
    ensures r == PostOutcome(body, uuid, hashObj).0
    ensures PostOutcome(body, uuid, hashObj).1.None? ==> store.rows == old(store.rows)
    ensures PostOutcome(body, uuid, hashObj).1.Some? ==>
      store.rows == old(store.rows) + [PostOutcome(body, uuid, hashObj).1.value]
  {
    if body.None? || body.value.JNull? {
      return Message(500, ServerError);
    }
    var b := body.value;
    if !Given(b, "type") || !Given(b, "name") || !Given(b, "config") {
      return Message(400, MissingFields);
    }
    if !IsString(b, "type") || !IsString(b, "name") {
      return Message(500, ServerError);
    }
    var rec := NewRecord(b, uuid, hashObj);
    store.Create(rec.providerId, rec.name, rec.providerType, rec.config,
                 rec.chatModels, rec.embeddingModels, rec.hash);
    r := Created(Echo(rec));
  }
}
