/**
 * The `/api/chats` route: the chats the store lists (newest first) are mapped to
 * the client's shape, with missing sources and files as empty lists, and only the
 * first chat of each id is kept. The query result is an input.
 */
module ChatsRoute {
  import opened Wrappers
  import opened ChatStore
  import opened ProviderTypes

  /** A chat as the route reports it. */
  datatype ChatView = ChatView(id: string, title: string, createdAt: string, sources: seq<string>,
                               files: seq<FileRef>)

  datatype Response = ChatList(chats: seq<ChatView>) | Message(code: nat, message: string)

  const ServerError := "An error has occurred."

  /** The reported shape: `chatId` becomes `id`, and `?? []` fills missing lists. */
  function ViewOf(c: ChatRecord): (v: ChatView)
    ensures v.id == c.chatId && v.title == c.title && v.createdAt == c.createdAt
    ensures c.sources.None? ==> v.sources == []
    ensures c.files.None? ==> v.files == []
    ensures c.sources.Some? ==> v.sources == c.sources.value
    ensures c.files.Some? ==> v.files == c.files.value
  {
    ChatView(c.chatId, c.title, c.createdAt, c.sources.GetOr([]), c.files.GetOr([]))
  }

  function Views(cs: seq<ChatRecord>): (r: seq<ChatView>)
    ensures |r| == |cs|
    ensures forall i :: 0 <= i < |cs| ==> r[i] == ViewOf(cs[i])
  {
    seq(|cs|, i requires 0 <= i < |cs| => ViewOf(cs[i]))
  }

  /** The ids of a list of views. */
  function IdsOf(vs: seq<ChatView>): (r: set<string>)
  {
    if vs == [] then {} else IdsOf(vs[..|vs| - 1]) + {vs[|vs| - 1].id}
  }

  lemma {:induction false} IdsOfExact(vs: seq<ChatView>)
    ensures forall x :: x in IdsOf(vs) <==> exists i :: 0 <= i < |vs| && vs[i].id == x
  {
    if vs != [] {
      var n := |vs| - 1;
      IdsOfExact(vs[..n]);
      forall i | 0 <= i < n
        ensures vs[i] == vs[..n][i]
      {
      }
    }
  }

  /** The `filter` with its `seen` set: a view is kept when no earlier view had its id. */
  function Deduped(vs: seq<ChatView>): (r: seq<ChatView>)
    ensures |r| <= |vs|
  {
    if vs == [] then []
    else
      var n := |vs| - 1;
      Deduped(vs[..n]) + (if vs[n].id in IdsOf(vs[..n]) then [] else [vs[n]])
  }

  /** The kept views carry the same ids as all views, so no chat disappears from the list. */
  lemma {:induction false} DedupedKeepsEveryId(vs: seq<ChatView>)
    ensures IdsOf(Deduped(vs)) == IdsOf(vs)
  {
    if vs != [] {
      var n := |vs| - 1;
      DedupedKeepsEveryId(vs[..n]);
      var d := Deduped(vs[..n]);
      if vs[n].id in IdsOf(vs[..n]) {
        assert Deduped(vs) == d;
      } else {
        assert Deduped(vs) == d + [vs[n]];
        assert (d + [vs[n]])[..|d|] == d;
      }
    }
  }

  /** No two kept views share an id. */
  lemma {:induction false} DedupedUnique(vs: seq<ChatView>)
    ensures forall i, j :: 0 <= i < j < |Deduped(vs)| ==> Deduped(vs)[i].id != Deduped(vs)[j].id
  {
    if vs != [] {
      var n := |vs| - 1;
      DedupedUnique(vs[..n]);
      var d := Deduped(vs[..n]);
      if vs[n].id !in IdsOf(vs[..n]) {
        var r := d + [vs[n]];
        assert Deduped(vs) == r;
        DedupedKeepsEveryId(vs[..n]);
        IdsOfExact(d);
        forall i | 0 <= i < |d|
          ensures r[i].id != r[|d|].id
        {
          assert r[i] == d[i];
        }
      }
    }
  }

  /** Whether `v` is the first view of its id in `vs`. */
  predicate FirstOfId(vs: seq<ChatView>, i: int) {
    0 <= i < |vs| && forall j :: 0 <= j < i ==> vs[j].id != vs[i].id
  }

  /** A first view of an id in a prefix stays first in the whole list. */
  lemma FirstOfIdPrefix(vs: seq<ChatView>, n: nat, i: int)
    requires n <= |vs|
    ensures FirstOfId(vs[..n], i) <==> i < n && FirstOfId(vs, i)
  {
    if 0 <= i < n {
      assert forall j :: 0 <= j <= i ==> vs[..n][j] == vs[j];
    }
  }

  /** Each kept view is the first view of its id. */
  lemma {:induction false} DedupedKeepsOnlyFirsts(vs: seq<ChatView>)
    ensures forall v :: v in Deduped(vs) ==> exists i :: FirstOfId(vs, i) && vs[i] == v
  {
    if vs != [] {
      var n := |vs| - 1;
      var p := vs[..n];
      DedupedKeepsOnlyFirsts(p);
      forall v | v in Deduped(vs)
        ensures exists i :: FirstOfId(vs, i) && vs[i] == v
      {
        if v in Deduped(p) {
          var i :| FirstOfId(p, i) && p[i] == v;
          FirstOfIdPrefix(vs, n, i);
          assert vs[i] == v;
        } else {
          assert v == vs[n] && vs[n].id !in IdsOf(p);
          LastIsFirstOfId(vs);
        }
      }
    }
  }

  /** The last view's id is new to the prefix exactly when the last view is the first of its id. */
  lemma LastIsFirstOfId(vs: seq<ChatView>)
    requires vs != []
    ensures FirstOfId(vs, |vs| - 1) <==> vs[|vs| - 1].id !in IdsOf(vs[..|vs| - 1])
  {
    var n := |vs| - 1;
    IdsOfExact(vs[..n]);
    assert forall j :: 0 <= j < n ==> vs[..n][j] == vs[j];
  }

  /** The first view of an id is kept, one position at a time. */
  lemma {:induction false} DedupedKeepsFirstAt(vs: seq<ChatView>, i: int)
    requires FirstOfId(vs, i)
    ensures vs[i] in Deduped(vs)
  {
    var n := |vs| - 1;
    var p := vs[..n];
    if i < n {
      FirstOfIdPrefix(vs, n, i);
      DedupedKeepsFirstAt(p, i);
      assert p[i] == vs[i];
      assert Deduped(vs) == Deduped(p) + (if vs[n].id in IdsOf(p) then [] else [vs[n]]);
    } else {
      LastIsFirstOfId(vs);
      assert Deduped(vs) == Deduped(p) + [vs[n]];
    }
  }

  /** Each first view of an id is kept. */
  lemma DedupedKeepsEveryFirst(vs: seq<ChatView>)
    ensures forall i :: FirstOfId(vs, i) ==> vs[i] in Deduped(vs)
  {
    forall i | FirstOfId(vs, i)
      ensures vs[i] in Deduped(vs)
    {
      DedupedKeepsFirstAt(vs, i);
    }
  }

  /** The kept views stay in the order the store listed them. */
  lemma {:induction false} DedupedOrder(vs: seq<ChatView>, i: int, j: int)
    requires i < j && FirstOfId(vs, i) && FirstOfId(vs, j)
    ensures Precedes(Deduped(vs), vs[i], vs[j])
  {
    var n := |vs| - 1;
    var p := vs[..n];
    var tail := if vs[n].id in IdsOf(p) then [] else [vs[n]];
    assert Deduped(vs) == Deduped(p) + tail;
    FirstOfIdPrefix(vs, n, i);
    assert p[i] == vs[i];
    if j == n {
      LastIsFirstOfId(vs);
      DedupedKeepsFirstAt(p, i);
      PrecedesLast(Deduped(p), vs[i], vs[j]);
    } else {
      FirstOfIdPrefix(vs, n, j);
      assert p[j] == vs[j];
      DedupedOrder(p, i, j);
      PrecedesAppend(Deduped(p), tail, vs[i], vs[j]);
    }
  }

  /** A list without repeated ids passes through unchanged. */
  lemma {:induction false} DedupedDistinct(vs: seq<ChatView>)
    requires forall i, j :: 0 <= i < j < |vs| ==> vs[i].id != vs[j].id
    ensures Deduped(vs) == vs
  {
    if vs != [] {
      var n := |vs| - 1;
      DedupedDistinct(vs[..n]);
      IdsOfExact(vs[..n]);
      assert vs[n].id !in IdsOf(vs[..n]);
      assert vs[..n] + [vs[n]] == vs;
    }
  }

  /** The filter's loop: `seen` holds the ids kept so far. */
  method Dedupe(vs: seq<ChatView>) returns (r: seq<ChatView>)
    ensures r == Deduped(vs)
  {
    var seen: set<string> := {};
    r := [];
    var i := 0;
    while i < |vs|
      invariant 0 <= i <= |vs|
      invariant r == Deduped(vs[..i])
      invariant seen == IdsOf(vs[..i])
    {
      var v := vs[i];
      assert vs[..i + 1][..i] == vs[..i];
      if v.id !in seen {
        seen := seen + {v.id};
        r := r + [v];
      }
      i := i + 1;
    }
    assert vs[..i] == vs;
  }

  /** GET: a failing query answers 500 with the fixed message; otherwise 200 with the
      de-duplicated views, in the order the store listed them. */
  method Get(listing: Result<seq<ChatRecord>, string>) returns (r: Response)
    ensures listing.Failure? ==> r == Message(500, ServerError)
    ensures listing.Success? ==> r == ChatList(Deduped(Views(listing.value)))
  {
    if listing.Failure? {
      return Message(500, ServerError);
    }
    var kept := Dedupe(Views(listing.value));
    r := ChatList(kept);
  }
}
