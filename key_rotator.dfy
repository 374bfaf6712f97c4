/**
 * The process-wide API-key rotator (`KeyRotator`): a registry from base URL
 * to one shared rotator, each rotator holding a round-robin cursor over its
 * keys and a per-key cooldown-expiry map. `Date.now()` is the parameter `now`.
 */
module KeyRotation {
  import opened Wrappers
  import opened Text

  // ---------------------------------------------------------------------------
  // Parsing the comma-separated key string, and the order-independent key hash.

  /** What every parsed key looks like: non-empty, comma-free, no white space at either end. */
  predicate WellFormedKey(k: string) {
    k != [] && ',' !in k && !IsSpace(k[0]) && !IsSpace(k[|k| - 1])
  }

  predicate AllWellFormed(keys: seq<string>) {
    forall i :: 0 <= i < |keys| ==> WellFormedKey(keys[i])
  }

  predicate CommaFree(pieces: seq<string>) {
    forall i :: 0 <= i < |pieces| ==> ',' !in pieces[i]
  }

  /** A comma-free piece stays comma-free once trimmed. */
  lemma TrimCommaFree(p: string)
    requires ',' !in p
    ensures ',' !in Trim(p)
  {
    TrimmedChars(p);
  }

  /** The trimmed, non-empty pieces, in order. */
  function TrimmedNonEmpty(pieces: seq<string>): (keys: seq<string>)
    requires CommaFree(pieces)
    ensures |keys| <= |pieces|
    ensures AllWellFormed(keys)
  {
    if pieces == [] then []
    else
      var t := Trim(pieces[0]);
      TrimCommaFree(pieces[0]);
      var rest := TrimmedNonEmpty(pieces[1..]);
      (if t == [] then [] else [t]) + rest
  }

  /** The keys of `apiKeyString`: split at commas, trimmed, empty entries dropped. */
  function ParseKeys(apiKeyString: string): (keys: seq<string>)
    ensures AllWellFormed(keys)
  {
    var pieces := Split(apiKeyString, ',');
    assert forall i :: 0 <= i < |pieces| ==> pieces[i] in pieces;
    TrimmedNonEmpty(pieces)
  }

  lemma TrimKeeps(k: string)
    requires k == [] || (!IsSpace(k[0]) && !IsSpace(k[|k| - 1]))
    ensures Trim(k) == k
  {
  }

  /** Parsing the comma-join of well-formed keys gives back exactly those keys. */
  lemma ParseKeysJoin(keys: seq<string>)
    requires |keys| >= 1 && AllWellFormed(keys)
    ensures ParseKeys(Join(keys, ','))  == keys
  {
    SplitJoin(keys, ',');
    TrimmedKeysKept(keys);
  }

  lemma {:induction false} TrimmedKeysKept(keys: seq<string>)
    requires AllWellFormed(keys)
    ensures CommaFree(keys) && TrimmedNonEmpty(keys) == keys
  {
    if keys != [] {
      var k, rest := keys[0], keys[1..];
      assert keys == [k] + rest;
      TrimKeeps(k);
      TrimmedKeysKept(rest);
    }
  }

  /** `computeKeyHash` on an already parsed key list: sorted, then comma-joined. */
  function HashOfKeys(keys: seq<string>): string {
    Join(Sort(keys), ',')
  }

  /** `KeyRotator.computeKeyHash(apiKeyString)`. */
  function KeyHash(apiKeyString: string): string {
    HashOfKeys(ParseKeys(apiKeyString))
  }

  /** Two key lists hash alike exactly when they hold the same keys, counted with
      multiplicity, in any order. */
  lemma HashOfKeysIff(a: seq<string>, b: seq<string>)
    requires AllWellFormed(a) && AllWellFormed(b)
    ensures HashOfKeys(a) == HashOfKeys(b) <==> multiset(a) == multiset(b)
  {
    var sa, sb := Sort(a), Sort(b);
    forall k | k in sa
      ensures WellFormedKey(k)
    {
      assert k in multiset(sa);
    }
    forall k | k in sb
      ensures WellFormedKey(k)
    {
      assert k in multiset(sb);
    }
    if HashOfKeys(a) == HashOfKeys(b) {
      JoinInjective(sa, sb, ',');
    }
    if multiset(a) == multiset(b) {
      SortedUnique(sa, sb);
    }
  }

  /** `computeKeyHash(a) === computeKeyHash(b)` exactly when the two strings name the
      same multiset of keys, so "a,b" and " b , a" share a rotator. */
  lemma KeyHashIff(a: string, b: string)
    ensures KeyHash(a) == KeyHash(b) <==> multiset(ParseKeys(a)) == multiset(ParseKeys(b))
  {
    HashOfKeysIff(ParseKeys(a), ParseKeys(b));
  }

  // ---------------------------------------------------------------------------
  // Cooldowns and the choice `getNextKey` makes.

  /** `cooldownUntil.get(key) || 0`. */
  function Cooldown(cd: map<string, int>, key: string): int {
    if key in cd then cd[key] else 0
  }

  /** `now >= cooldown`: the key may be used now. */
  predicate Ready(cd: map<string, int>, key: string, now: int) {
    now >= Cooldown(cd, key)
  }

  /** `Math.max(0, until - now)`. */
  function Remaining(cd: map<string, int>, key: string, now: int): (r: nat)
    ensures r == 0 <==> Ready(cd, key, now)
    ensures r > 0 ==> now + r == Cooldown(cd, key)
  {
    if Cooldown(cd, key) - now > 0 then Cooldown(cd, key) - now else 0
  }

  /** `x % n` for `x < 2 * n`, the only sums the rotator reduces. */
  function Wrap(x: nat, n: nat): (r: nat)
    requires x < 2 * n
    ensures r < n
  {
    if x < n then x else x - n
  }

  lemma WrapIsMod(x: nat, n: nat)
    requires x < 2 * n
    ensures Wrap(x, n) == x % n
  {
    if x >= n {
      assert x == 1 * n + (x - n);
    }
  }

  /** The key `i` steps after `start`, cyclically: `keys[(start + i) % keys.length]`. */
  function Slot(keys: seq<string>, start: nat, i: nat): string
    requires start < |keys| && i < |keys|
  {
    keys[Wrap(start + i, |keys|)]
  }

  predicate AnyReady(keys: seq<string>, cd: map<string, int>, now: int) {
    exists j :: 0 <= j < |keys| && Ready(cd, keys[j], now)
  }

  /** The first offset at or after `i` whose key is ready, scanning cyclically from `start`. */
  function FirstReadyOffset(keys: seq<string>, cd: map<string, int>, start: nat, now: int, i: nat): (r: Option<nat>)
    requires start < |keys| && i <= |keys|
    ensures r.Some? ==> i <= r.value < |keys|
    decreases |keys| - i
  {
    if i == |keys| then None
    else if Ready(cd, Slot(keys, start, i), now) then Some(i)
    else FirstReadyOffset(keys, cd, start, now, i + 1)
  }

  /** The scan stops at the first ready slot at or after `i`, and finds none only when
      every slot from `i` on is cooling. */
  lemma {:induction false} FirstReadyOffsetSpec(keys: seq<string>, cd: map<string, int>, start: nat, now: int, i: nat)
    requires start < |keys| && i <= |keys|
    ensures var r := FirstReadyOffset(keys, cd, start, now, i);
      && (r.Some? ==> Ready(cd, Slot(keys, start, r.value), now))
      && (r.Some? ==> forall j :: i <= j < r.value ==> !Ready(cd, Slot(keys, start, j), now))
      && (r.None? ==> forall j :: i <= j < |keys| ==> !Ready(cd, Slot(keys, start, j), now))
    decreases |keys| - i
  {
    if i < |keys| && !Ready(cd, Slot(keys, start, i), now) {
      FirstReadyOffsetSpec(keys, cd, start, now, i + 1);
    }
  }

  /** `keys[m]` expires strictly before `init` and before every key listed ahead of it. */
  predicate EarliestAhead(keys: seq<string>, cd: map<string, int>, init: string, m: nat) {
    && m < |keys|
    && Cooldown(cd, keys[m]) < Cooldown(cd, init)
    && forall i :: 0 <= i < m ==> Cooldown(cd, keys[m]) < Cooldown(cd, keys[i])
  }

  /** The fallback scan over `keys[..j]`: the position of the best key so far, starting
      from `start` and moving only to a key with a strictly earlier expiry. */
  function SoonestUpTo(keys: seq<string>, cd: map<string, int>, start: nat, j: nat): (b: nat)
    requires start < |keys| && j <= |keys|
    ensures b < |keys|
  {
    if j == 0 then start
    else
      var b := SoonestUpTo(keys, cd, start, j - 1);
      if Cooldown(cd, keys[j - 1]) < Cooldown(cd, keys[b]) then j - 1 else b
  }

  /** The fallback scan keeps a key expiring no later than `keys[start]` and than every
      key of `keys[..j]`; it leaves `start` only for a key that expires strictly earlier
      than every key listed ahead of it. */
  lemma {:induction false} SoonestUpToSpec(keys: seq<string>, cd: map<string, int>, start: nat, j: nat)
    requires start < |keys| && j <= |keys|
    ensures var b := SoonestUpTo(keys, cd, start, j);
      && Cooldown(cd, keys[b]) <= Cooldown(cd, keys[start])
      && (forall i :: 0 <= i < j ==> Cooldown(cd, keys[b]) <= Cooldown(cd, keys[i]))
      && (b == start || (b < j && EarliestAhead(keys, cd, keys[start], b)))
  {
    if j > 0 {
      SoonestUpToSpec(keys, cd, start, j - 1);
    }
  }

  /** `keys.indexOf(key)`. */
  function IndexOf(keys: seq<string>, key: string): (i: nat)
    requires key in keys
    ensures i < |keys| && keys[i] == key && key !in keys[..i]
  {
    if keys[0] == key then 0
    else
      var i := IndexOf(keys[1..], key);
      assert keys[..i + 1] == [keys[0]] + keys[1..][..i];
      i + 1
  }

  /** What one `getNextKey` call hands out, and where it leaves the cursor. */
  datatype Pick = Pick(key: string, next: nat)

  /** The cyclic scan from `start` stops at offset `i`: its key is usable and no key
      before it in the scan is. */
  predicate FirstReadyAt(keys: seq<string>, cd: map<string, int>, start: nat, now: int, i: nat)
    requires start < |keys|
  {
    && i < |keys|
    && Ready(cd, Slot(keys, start, i), now)
    && forall j :: 0 <= j < i ==> !Ready(cd, Slot(keys, start, j), now)
  }

  lemma SlotCovers(keys: seq<string>, start: nat, j: nat)
    requires start < |keys| && j < |keys|
    ensures var off := if j >= start then j - start else j + |keys| - start;
      off < |keys| && Slot(keys, start, off) == keys[j]
  {
  }

  /** A full cyclic scan that finds nothing means no key is usable. */
  lemma NoneReady(keys: seq<string>, cd: map<string, int>, start: nat, now: int)
    requires start < |keys|
    requires FirstReadyOffset(keys, cd, start, now, 0).None?
    ensures !AnyReady(keys, cd, now)
  {
    FirstReadyOffsetSpec(keys, cd, start, now, 0);
    forall j | 0 <= j < |keys|
      ensures !Ready(cd, keys[j], now)
    {
      SlotCovers(keys, start, j);
    }
  }

  /** The choice made by `getNextKey` with cursor `start` at time `now`. */
  function NextKey(keys: seq<string>, cd: map<string, int>, start: nat, now: int): (p: Pick)
    requires start < |keys|
    ensures p.next < |keys|
  {
    match FirstReadyOffset(keys, cd, start, now, 0)
    case Some(i) =>
      var idx := Wrap(start + i, |keys|);
      Pick(keys[idx], Wrap(idx + 1, |keys|))
    case None =>
      var b := SoonestUpTo(keys, cd, start, |keys|);
      Pick(keys[b], Wrap(IndexOf(keys, keys[b]) + 1, |keys|))
  }

  /** When some key is usable, `getNextKey` hands out the first usable key scanning
      cyclically from the cursor, and moves the cursor just past it. */
  lemma NextKeyWhenReady(keys: seq<string>, cd: map<string, int>, start: nat, now: int)
    requires start < |keys| && AnyReady(keys, cd, now)
    ensures var p := NextKey(keys, cd, start, now);
      exists i :: FirstReadyAt(keys, cd, start, now, i) &&
        p == Pick(Slot(keys, start, i), Wrap(Wrap(start + i, |keys|) + 1, |keys|))
  {
    match FirstReadyOffset(keys, cd, start, now, 0)
    case Some(i) =>
      FirstReadyOffsetSpec(keys, cd, start, now, 0);
      assert FirstReadyAt(keys, cd, start, now, i);
    case None =>
      NoneReady(keys, cd, start, now);
  }

  /** When every key is cooling, `getNextKey` hands out a key with the earliest expiry:
      keys[start] if it is one, else the first such key in list order. The cursor moves
      past the first occurrence of the chosen key. */
  lemma {:induction false} ScanFindsIff(keys: seq<string>, cd: map<string, int>, start: nat, now: int)
    requires start < |keys|
    ensures FirstReadyOffset(keys, cd, start, now, 0).Some? <==> AnyReady(keys, cd, now)
  {
    match FirstReadyOffset(keys, cd, start, now, 0)
    case Some(i) =>
      FirstReadyOffsetSpec(keys, cd, start, now, 0);
      assert Ready(cd, keys[Wrap(start + i, |keys|)], now);
    case None =>
      NoneReady(keys, cd, start, now);
  }

  lemma NextKeyWhenCooling(keys: seq<string>, cd: map<string, int>, start: nat, now: int)
    requires start < |keys| && !AnyReady(keys, cd, now)
    ensures var p := NextKey(keys, cd, start, now);
      && p.key in keys
      && (forall i :: 0 <= i < |keys| ==> Cooldown(cd, p.key) <= Cooldown(cd, keys[i]))
      && (p.key == keys[start]
          || exists m: nat :: EarliestAhead(keys, cd, keys[start], m) && p.key == keys[m])
      && p.next == Wrap(IndexOf(keys, p.key) + 1, |keys|)
  {
    ScanFindsIff(keys, cd, start, now);
    SoonestUpToSpec(keys, cd, start, |keys|);
  }

  /** `NextKey` when the cyclic scan stops at offset `i`, with the source's `%`. */
  lemma NextKeyFound(keys: seq<string>, cd: map<string, int>, start: nat, now: int, i: nat)
    requires start < |keys| && FirstReadyOffset(keys, cd, start, now, 0) == Some(i)
    ensures var idx := (start + i) % |keys|;
      NextKey(keys, cd, start, now) == Pick(keys[idx], (idx + 1) % |keys|)
  {
    WrapIsMod(start + i, |keys|);
    WrapIsMod((start + i) % |keys| + 1, |keys|);
  }

  /** `NextKey` when no key is usable, with the source's `%`. */
  lemma NextKeyFallback(keys: seq<string>, cd: map<string, int>, start: nat, now: int)
    requires start < |keys| && FirstReadyOffset(keys, cd, start, now, 0) == None
    ensures var best := keys[SoonestUpTo(keys, cd, start, |keys|)];
      NextKey(keys, cd, start, now) == Pick(best, (IndexOf(keys, best) + 1) % |keys|)
  {
    var best := keys[SoonestUpTo(keys, cd, start, |keys|)];
    WrapIsMod(IndexOf(keys, best) + 1, |keys|);
  }

  /** The keys handed out by `m` successive `getNextKey` calls at time `now`. */
  function Draws(keys: seq<string>, cd: map<string, int>, start: nat, now: int, m: nat): (r: seq<string>)
    requires start < |keys|
    ensures |r| == m
    decreases m
  {
    if m == 0 then []
    else
      var p := NextKey(keys, cd, start, now);
      [p.key] + Draws(keys, cd, p.next, now, m - 1)
  }

  /** When the key under the cursor is usable, it is the one handed out. */
  lemma NextKeyAtReadyCursor(keys: seq<string>, cd: map<string, int>, s: nat, now: int)
    requires s < |keys| && Ready(cd, keys[s], now)
    ensures NextKey(keys, cd, s, now) == Pick(keys[s], Wrap(s + 1, |keys|))
  {
    assert Slot(keys, s, 0) == keys[s];
    assert FirstReadyOffset(keys, cd, s, now, 0) == Some(0);
  }

  /** With every key usable, calls from cursor `s` hand out `keys[s..]` in order. */
  lemma {:induction false} DrawsInOrder(keys: seq<string>, cd: map<string, int>, s: nat, now: int)
    requires s < |keys|
    requires forall i :: 0 <= i < |keys| ==> Ready(cd, keys[i], now)
    ensures Draws(keys, cd, s, now, |keys| - s) == keys[s..]
    decreases |keys| - s
  {
    NextKeyAtReadyCursor(keys, cd, s, now);
    if s + 1 < |keys| {
      DrawsInOrder(keys, cd, s + 1, now);
      assert keys[s..] == [keys[s]] + keys[s + 1..];
    }
  }

  /** A fresh rotator (cursor 0, no cooldowns) hands out keys[0], keys[1], ... in order,
      each list entry exactly once over the first `totalKeys` calls. */
  lemma FreshRotatorRoundRobin(keys: seq<string>, now: int)
    requires |keys| > 0 && now >= 0
    ensures Draws(keys, map[], 0, now, |keys|) == keys
  {
    DrawsInOrder(keys, map[], 0, now);
  }

  /** A key on cooldown is never handed out while some other key is usable. */
  lemma CoolingKeySkipped(keys: seq<string>, cd: map<string, int>, start: nat, now: int, k: string)
    requires start < |keys|
    requires !Ready(cd, k, now) && AnyReady(keys, cd, now)
    ensures NextKey(keys, cd, start, now).key != k
  {
    var p := NextKey(keys, cd, start, now);
    NextKeyWhenReady(keys, cd, start, now);
    var i :| FirstReadyAt(keys, cd, start, now, i)
      && p == Pick(Slot(keys, start, i), Wrap(Wrap(start + i, |keys|) + 1, |keys|));
  }

  // ---------------------------------------------------------------------------
  // The rotator object and the registry of shared rotators.

  const NoKeysError := "At least one API key must be provided"

  /** `keyHash` is the hash of `keys`, every one of them a parsed key. */
  ghost predicate HashedKeys(keys: seq<string>, keyHash: string) {
    AllWellFormed(keys) && keyHash == HashOfKeys(keys)
  }

  class KeyRotator {
    const keys: seq<string>
    const keyHash: string
    var currentIndex: nat
    var cooldownUntil: map<string, int>
    /** Every key `getNextKey` has handed out, oldest first. */
    ghost var issued: seq<string>

    ghost predicate Valid()
      reads this
    {
      |keys| > 0 && currentIndex < |keys|
    }

    /** `new KeyRotator(apiKeyString)` once the key string is parsed; the parse and the
        throw on an empty key list sit in `RotatorRegistry.GetInstance`, its only caller. */
    constructor (parsed: seq<string>)
      requires parsed != []
      ensures Valid()
      ensures keys == parsed && keyHash == HashOfKeys(parsed)
      ensures currentIndex == 0 && cooldownUntil == map[] && issued == []
    {
      keys := parsed;
      keyHash := HashOfKeys(parsed);
      currentIndex := 0;
      cooldownUntil := map[];
      issued := [];
    }

    /** `getNextKey()` at time `now`. */
    method GetNextKey(now: int) returns (key: string)
      requires Valid()
      modifies this`currentIndex, this`issued
      ensures Valid()
      ensures Pick(key, currentIndex) == NextKey(keys, cooldownUntil, old(currentIndex), now)
      ensures issued == old(issued) + [key]
    {
      var n := |keys|;
      var startIndex := currentIndex;
      var found := ScanForReady(startIndex, now);
      var next: nat;
      if found.Some? {
        var idx := (startIndex + found.value) % n;
        next := (idx + 1) % n;
        key := keys[idx];
        NextKeyFound(keys, cooldownUntil, startIndex, now, found.value);
      } else {
        key := SoonestKey(startIndex);
        next := (IndexOf(keys, key) + 1) % n;
        NextKeyFallback(keys, cooldownUntil, startIndex, now);
      }
      assert Pick(key, next) == NextKey(keys, cooldownUntil, startIndex, now);
      currentIndex := next;
      issued := issued + [key];
    }

    /** The first loop of `getNextKey`: scan cyclically from `startIndex` for a key whose
        cooldown has passed, giving its offset. */
    method ScanForReady(startIndex: nat, now: int) returns (found: Option<nat>)
      requires startIndex < |keys|
      ensures found == FirstReadyOffset(keys, cooldownUntil, startIndex, now, 0)
    {
      var n := |keys|;
      for i := 0 to n
        invariant FirstReadyOffset(keys, cooldownUntil, startIndex, now, 0)
               == FirstReadyOffset(keys, cooldownUntil, startIndex, now, i)
      {
        WrapIsMod(startIndex + i, n);
        var idx := (startIndex + i) % n;
        var k := keys[idx];
        var cooldown := if k in cooldownUntil then cooldownUntil[k] else 0;
        assert Slot(keys, startIndex, i) == k;
        if now >= cooldown {
          return Some(i);
        }
      }
      return None;
    }

    /** The second loop of `getNextKey`: the key with the earliest cooldown expiry,
        `keys[startIndex]` unless another expires strictly earlier. */
    method SoonestKey(startIndex: nat) returns (bestKey: string)
      requires startIndex < |keys|
      ensures bestKey == keys[SoonestUpTo(keys, cooldownUntil, startIndex, |keys|)]
    {
      bestKey := keys[startIndex];
      var bestTime := Cooldown(cooldownUntil, bestKey);
      for j := 0 to |keys|
        invariant bestKey == keys[SoonestUpTo(keys, cooldownUntil, startIndex, j)]
        invariant bestTime == Cooldown(cooldownUntil, bestKey)
      {
        var cooldown := if keys[j] in cooldownUntil then cooldownUntil[keys[j]] else 0;
        if cooldown < bestTime {
          bestTime := cooldown;
          bestKey := keys[j];
        }
      }
    }

    /** `markRateLimited(apiKey, durationMs)` at time `now`: last write wins, and a key
        outside the pool is recorded too. */
    method MarkRateLimited(apiKey: string, durationMs: int, now: int)
      requires Valid()
      modifies this`cooldownUntil
      ensures Valid()
      ensures cooldownUntil == old(cooldownUntil)[apiKey := now + durationMs]
    {
      cooldownUntil := cooldownUntil[apiKey := now + durationMs];
    }

    /** `getCooldownRemaining(apiKey)` at time `now`. */
    function GetCooldownRemaining(apiKey: string, now: int): (r: nat)
      reads this
      ensures r == 0 <==> Ready(cooldownUntil, apiKey, now)
      ensures apiKey !in cooldownUntil && now >= 0 ==> r == 0
      ensures r > 0 ==> now + r == Cooldown(cooldownUntil, apiKey)
    {
      Remaining(cooldownUntil, apiKey, now)
    }

    /** `totalKeys`: list entries, duplicates included. */
    function TotalKeys(): (n: nat)
      reads this
      requires Valid()
      ensures n >= 1 && n == |keys|
    {
      |keys|
    }
  }

  /** `totalKeys` counts positions, not distinct keys: it is never below the number of
      distinct keys. */
  lemma {:induction false} DistinctAtMostLength(s: seq<string>)
    ensures |set k | k in s| <= |s|
  {
    if s != [] {
      DistinctAtMostLength(s[1..]);
      assert (set k | k in s) == (set k | k in s[1..]) + {s[0]};
    }
  }

  /** `KeyRotator.instances`: the process-wide map from base URL to its rotator. */
  class RotatorRegistry {
    var instances: map<string, KeyRotator>

    /** Every stored rotator is consistent, and its hash is the hash of its parsed keys. */
    ghost predicate Valid()
      reads this, instances.Values
    {
      forall u :: u in instances ==>
        instances[u].Valid() && HashedKeys(instances[u].keys, instances[u].keyHash)
    }

    constructor ()
      ensures Valid() && instances == map[]
    {
      instances := map[];
    }

    /** `KeyRotator.getInstance(baseURL, apiKeyString)`: the stored rotator when its key
        multiset equals that of `apiKeyString`; otherwise a fresh rotator that replaces it. */
    method GetInstance(baseURL: string, apiKeyString: string) returns (r: Result<KeyRotator, string>)
      requires Valid()
      modifies this
      ensures Valid()
      ensures old(baseURL in instances
                  && multiset(instances[baseURL].keys) == multiset(ParseKeys(apiKeyString)))
        ==> r == Success(old(instances[baseURL])) && instances == old(instances)
      ensures !old(baseURL in instances
                   && multiset(instances[baseURL].keys) == multiset(ParseKeys(apiKeyString)))
        ==> if ParseKeys(apiKeyString) == [] then
              r == Failure(NoKeysError) && instances == old(instances)
            else
              && r.Success? && fresh(r.value)
              && r.value.keys == ParseKeys(apiKeyString)
              && r.value.currentIndex == 0 && r.value.cooldownUntil == map[]
              && instances == old(instances)[baseURL := r.value]
    {
      var parsed := ParseKeys(apiKeyString);
      if baseURL in instances {
        var existing := instances[baseURL];
        var newHash := HashOfKeys(parsed);
        HashOfKeysIff(existing.keys, parsed);
        if newHash == existing.keyHash {
          return Success(existing);
        }
      }
      if parsed == [] {
        return Failure(NoKeysError);
      }
      var instance := new KeyRotator(parsed);
      instances := instances[baseURL := instance];
      r := Success(instance);
    }
  }
}
