/**
 * The rate-limit retry policy the OpenAI-compatible adapter wraps around every
 * upstream call: the Retry-After parse, the 429 handler and the attempt loop
 * (`for attempt < totalKeys + 1`) shared by generateText, streamText,
 * generateObject and streamObject. The upstream call is an oracle; `sleep`
 * becomes the list of requested waits.
 */
module Retry {
  import opened Wrappers
  import opened Text
  import opened KeyRotation

  /** An error thrown by an upstream call or by the adapter: `status` is the HTTP status
      the SDK attaches (absent on errors raised locally), `retryAfter` the Retry-After
      response header, when the response had one. */
  datatype Error = Error(status: Option<int>, retryAfter: Option<string>, message: string)

  predicate Is429(e: Error) {
    e.status == Some(429)
  }

  /** An error the adapter raises itself (`new Error(message)`): it carries no status. */
  function LocalError(message: string): (e: Error)
    ensures !Is429(e) && e.message == message
  {
    Error(None, None, message)
  }

  // ---------------------------------------------------------------------------
  // `parseInt(s, 10)` and the Retry-After header.

  predicate IsDigit(c: char) {
    '0' <= c <= '9'
  }

  predicate AllDigits(d: string) {
    forall i :: 0 <= i < |d| ==> IsDigit(d[i])
  }

  /** The longest prefix of `s` made of decimal digits. */
  function DigitPrefix(s: string): (p: string)
    ensures |p| <= |s| && p == s[..|p|] && AllDigits(p)
    ensures |p| < |s| ==> !IsDigit(s[|p|])
  {
    if s == [] || !IsDigit(s[0]) then []
    else [s[0]] + DigitPrefix(s[1..])
  }

  /** The value of a string of decimal digits, most significant first. */
  function DigitsValue(d: string): nat
    requires AllDigits(d)
  {
    if d == [] then 0
    else DigitsValue(d[..|d| - 1]) * 10 + ((d[|d| - 1] as int) - ('0' as int))
  }

  /** JavaScript's `parseInt(s, 10)`: leading white space, an optional sign, then the
      longest run of digits; `None` stands for NaN (no digit at all). */
  function ParseInt10(s: string): Option<int> {
    var t := TrimStart(s);
    var signed := t != [] && (t[0] == '-' || t[0] == '+');
    var d := DigitPrefix(if signed then t[1..] else t);
    if d == [] then None
    else if signed && t[0] == '-' then Some(0 - DigitsValue(d) as int)
    else Some(DigitsValue(d))
  }

  /** The decimal rendering of `n`, as a server writes delay-seconds. */
  function NatToString(n: nat): (s: string)
    ensures s != [] && AllDigits(s)
  {
    var last := [(('0' as int) + n % 10) as char];
    if n < 10 then last else NatToString(n / 10) + last
  }

  lemma {:induction false} NatToStringValue(n: nat)
    ensures DigitsValue(NatToString(n)) == n
  {
    var s := NatToString(n);
    if n >= 10 {
      NatToStringValue(n / 10);
      assert s[..|s| - 1] == NatToString(n / 10);
    }
  }

  lemma {:induction false} DigitPrefixStops(d: string, rest: string)
    requires AllDigits(d)
    requires rest == [] || !IsDigit(rest[0])
    ensures DigitPrefix(d + rest) == d
  {
    if d != [] {
      assert (d + rest)[1..] == d[1..] + rest;
      DigitPrefixStops(d[1..], rest);
      assert d == [d[0]] + d[1..];
    }
  }

  /** `parseInt` reads a leading run of digits and ignores what follows it, so "120"
      gives 120 and "1.5" gives 1. */
  lemma ParseIntDigits(d: string, rest: string)
    requires d != [] && AllDigits(d)
    requires rest == [] || !IsDigit(rest[0])
    ensures ParseInt10(d + rest) == Some(DigitsValue(d))
  {
    var s := d + rest;
    assert !IsSpace(s[0]) by { assert s[0] == d[0] && IsDigit(d[0]); }
    assert TrimStart(s) == s;
    DigitPrefixStops(d, rest);
    assert !(s[0] == '-' || s[0] == '+');
  }

  /** `parseInt` of a string that starts with a letter, such as an HTTP-date, is NaN. */
  lemma ParseIntLetter(s: string)
    requires s != [] && ('A' <= s[0] <= 'Z' || 'a' <= s[0] <= 'z')
    ensures ParseInt10(s) == None
  {
    assert !IsSpace(s[0]);
    assert TrimStart(s) == s;
    assert !(s[0] == '-' || s[0] == '+') && !IsDigit(s[0]);
    assert DigitPrefix(s) == [];
  }

  /** The default cooldown when the header is missing or unusable: 30 s. */
  const DefaultRetryMs := 30000

  /** `getRetryAfterMs(err)`. */
  function GetRetryAfterMs(err: Error): int {
    if err.retryAfter.Some? && err.retryAfter.value != [] then
      match ParseInt10(err.retryAfter.value)
      case Some(seconds) => seconds * 1000
      case None => DefaultRetryMs
    else DefaultRetryMs
  }

  /** A delay-seconds header (section 10.2.3 of RFC 9110) of `n` seconds gives `n * 1000` ms. */
  lemma RetryAfterSeconds(err: Error, n: nat)
    requires err.retryAfter == Some(NatToString(n))
    ensures GetRetryAfterMs(err) == n * 1000
  {
    ParseIntDigits(NatToString(n), []);
    assert NatToString(n) + [] == NatToString(n);
    NatToStringValue(n);
  }

  /** No header, an empty header, or one in HTTP-date form (which starts with a day name)
      falls back to the 30 s default. */
  lemma RetryAfterDefault(err: Error)
    requires || err.retryAfter.None?
             || err.retryAfter.value == []
             || 'A' <= err.retryAfter.value[0] <= 'Z'
    ensures GetRetryAfterMs(err) == DefaultRetryMs
  {
    if err.retryAfter.Some? && err.retryAfter.value != [] {
      ParseIntLetter(err.retryAfter.value);
    }
  }

  // ---------------------------------------------------------------------------
  // handle429

  /** The longest single wait `handle429` asks for. */
  const MaxWaitMs := 15000

  function Min(a: int, b: int): int {
    if a <= b then a else b
  }

  /** `handle429(err, apiKey, attempt, maxAttempts)` at time `now`: the key is put on
      cooldown first; a retry is allowed while attempts remain, after peeking at the next
      key with `getNextKey` (which moves the shared cursor) and asking to wait for it
      when it is still cooling, at most 15 s. */
  method Handle429(rot: KeyRotator, err: Error, apiKey: string, attempt: nat, maxAttempts: nat, now: int)
    returns (shouldRetry: bool, waitMs: nat)
    requires rot.Valid()
    modifies rot`cooldownUntil, rot`currentIndex, rot`issued
    ensures rot.Valid()
    ensures shouldRetry <==> attempt + 1 < maxAttempts
    ensures rot.cooldownUntil == old(rot.cooldownUntil)[apiKey := now + GetRetryAfterMs(err)]
    ensures shouldRetry ==>
      var peek := NextKey(rot.keys, rot.cooldownUntil, old(rot.currentIndex), now);
      && rot.currentIndex == peek.next
      && rot.issued == old(rot.issued) + [peek.key]
      && waitMs == Min(Remaining(rot.cooldownUntil, peek.key, now), MaxWaitMs)
      && (waitMs == 0 <==> Ready(rot.cooldownUntil, peek.key, now))
    ensures !shouldRetry ==>
      rot.currentIndex == old(rot.currentIndex) && rot.issued == old(rot.issued) && waitMs == 0
    ensures waitMs <= MaxWaitMs
  {
    var retryMs := GetRetryAfterMs(err);
    rot.MarkRateLimited(apiKey, retryMs, now);
    if attempt < maxAttempts - 1 {
      var nextKey := rot.GetNextKey(now);
      var nextCooldown := rot.GetCooldownRemaining(nextKey, now);
      if nextCooldown <= 0 {
        return true, 0;
      } else {
        return true, Min(nextCooldown, MaxWaitMs);
      }
    }
    return false, 0;
  }

  // ---------------------------------------------------------------------------
  // The attempt loop.

  /** What one attempt produced: the values it yielded before ending (streams only),
      then the value it returned or the error it threw. */
  datatype Attempt<Y, R> = Attempt(emitted: seq<Y>, ending: Result<R, Error>)

  predicate Threw429<Y, R>(a: Attempt<Y, R>) {
    a.ending.Failure? && Is429(a.ending.error)
  }

  /** What the world did at one attempt: the time `getNextKey` ran, what the upstream
      call produced, and the time `handle429` ran if it threw a 429. */
  datatype Step<Y, R> = Step(drawAt: int, result: Attempt<Y, R>, failAt: int)

  /** What one attempt does: the key `getNextKey` hands it, whether the loop goes on to
      another attempt, the wait `handle429` asked for and the key it peeked at (both
      meaningful on a retry only), and the rotator's cooldowns and cursor afterwards. */
  datatype Turn = Turn(key: string, retry: bool, wait: nat, peek: string,
                       cooldowns: map<string, int>, cursor: nat)

  /** One attempt from cooldowns `cd` and cursor `cursor`; `more` says whether attempts
      remain after this one. A 429 puts the key on cooldown for the Retry-After time and,
      when attempts remain, peeks at the next key and waits for it at most 15 s; any other
      ending stops the loop. */
  ghost function TurnOf<Y, R>(keys: seq<string>, step: Step<Y, R>, more: bool,
                              cd: map<string, int>, cursor: nat): (t: Turn)
    requires cursor < |keys|
    ensures t.cursor < |keys|
    ensures t.retry <==> more && Threw429(step.result)
    ensures t.wait <= MaxWaitMs
  {
    var draw := NextKey(keys, cd, cursor, step.drawAt);
    if !Threw429(step.result) then Turn(draw.key, false, 0, "", cd, draw.next)
    else
      var now := step.failAt;
      var marked := cd[draw.key := now + GetRetryAfterMs(step.result.ending.error)];
      if more then
        var peek := NextKey(keys, marked, draw.next, now);
        Turn(draw.key, true, Min(Remaining(marked, peek.key, now), MaxWaitMs), peek.key, marked, peek.next)
      else
        Turn(draw.key, false, 0, "", marked, draw.next)
  }

  /** The rotator's cooldowns once `turns` have been taken from cooldowns `cd0`. */
  function CooldownsAfter(cd0: map<string, int>, turns: seq<Turn>): map<string, int> {
    if turns == [] then cd0 else turns[|turns| - 1].cooldowns
  }

  /** The rotator's cursor once `turns` have been taken from cursor `cursor0`. */
  function CursorAfter(cursor0: nat, turns: seq<Turn>): nat {
    if turns == [] then cursor0 else turns[|turns| - 1].cursor
  }

  /** `turns` are the turns the loop takes, in order, from attempt `k` on, starting from
      cooldowns `cd` and cursor `cursor`, when the world behaves as `script` says: each
      turn is the one `TurnOf` gives for the state the turns before it left the rotator in. */
  ghost predicate Faithful<Y, R>(keys: seq<string>, script: seq<Step<Y, R>>, k: nat,
                                 cd: map<string, int>, cursor: nat, turns: seq<Turn>)
    decreases |turns|
  {
    && cursor < |keys| && k + |turns| <= |script|
    && (turns != [] ==>
          && turns[0] == TurnOf(keys, script[k], k + 1 < |script|, cd, cursor)
          && Faithful(keys, script, k + 1, turns[0].cooldowns, turns[0].cursor, turns[1..]))
  }

  /** Where a non-empty record leaves the rotator is where its tail leaves it. */
  lemma AfterTail(cd: map<string, int>, cursor: nat, turns: seq<Turn>)
    requires turns != []
    ensures CooldownsAfter(turns[0].cooldowns, turns[1..]) == CooldownsAfter(cd, turns)
    ensures CursorAfter(turns[0].cursor, turns[1..]) == CursorAfter(cursor, turns)
  {
  }

  /** A faithful record stays faithful when the next turn is taken from the state it
      left the rotator in. */
  lemma {:induction false} FaithfulSnoc<Y, R>(keys: seq<string>, script: seq<Step<Y, R>>, k: nat,
                                              cd: map<string, int>, cursor: nat, turns: seq<Turn>,
                                              step: Step<Y, R>, more: bool, cdNow: map<string, int>,
                                              cursorNow: nat, t: Turn)
    requires Faithful(keys, script, k, cd, cursor, turns) && k + |turns| < |script|
    requires cdNow == CooldownsAfter(cd, turns) && cursorNow == CursorAfter(cursor, turns)
    requires step == script[k + |turns|] && more == (k + |turns| + 1 < |script|)
    requires cursorNow < |keys| && t == TurnOf(keys, step, more, cdNow, cursorNow)
    ensures Faithful(keys, script, k, cd, cursor, turns + [t])
    decreases |turns|
  {
    if turns != [] {
      var first := turns[0];
      AfterTail(cd, cursor, turns);
      FaithfulSnoc(keys, script, k + 1, first.cooldowns, first.cursor, turns[1..],
                   step, more, cdNow, cursorNow, t);
      assert (turns + [t])[1..] == turns[1..] + [t];
    } else {
      assert [t][1..] == [];
    }
  }

  /** The loop went round on every turn but the last, and stopped after the last. */
  predicate Finished(turns: seq<Turn>) {
    && |turns| >= 1
    && !turns[|turns| - 1].retry
    && forall k :: 0 <= k < |turns| - 1 ==> turns[k].retry
  }

  /** Each faithful turn retries exactly when its attempt threw a 429 and another attempt
      is allowed, never waits more than 15 s, and leaves the cursor in range. */
  lemma {:induction false} FaithfulTurns<Y, R>(keys: seq<string>, script: seq<Step<Y, R>>, k: nat,
                                              cd: map<string, int>, cursor: nat, turns: seq<Turn>)
    requires Faithful(keys, script, k, cd, cursor, turns)
    ensures forall i :: 0 <= i < |turns| ==>
      && (turns[i].retry <==> k + i + 1 < |script| && Threw429(script[k + i].result))
      && turns[i].wait <= MaxWaitMs
      && turns[i].cursor < |keys|
    decreases |turns|
  {
    if turns != [] {
      FaithfulTurns(keys, script, k + 1, turns[0].cooldowns, turns[0].cursor, turns[1..]);
      assert forall i :: 1 <= i < |turns| ==> turns[i] == turns[1..][i - 1];
    }
  }

  /** The loop only goes round on a 429: every attempt but the last was rate limited, and
      the last one either was not or was attempt number `totalKeys + 1`. */
  lemma StopsOnlyWhenDone<Y, R>(keys: seq<string>, script: seq<Step<Y, R>>, cd: map<string, int>,
                                cursor: nat, turns: seq<Turn>)
    requires Faithful(keys, script, 0, cd, cursor, turns) && Finished(turns)
    ensures forall i :: 0 <= i < |turns| - 1 ==> Threw429(script[i].result)
    ensures !Threw429(script[|turns| - 1].result) || |turns| == |script|
  {
    FaithfulTurns(keys, script, 0, cd, cursor, turns);
    forall i | 0 <= i < |turns| - 1
      ensures Threw429(script[i].result)
    {
      assert turns[i].retry;
    }
    assert !turns[|turns| - 1].retry;
  }

  /** An attempt that is not rate limited ends the loop: there is no attempt after it. */
  lemma EndsAtFirstOtherOutcome<Y, R>(keys: seq<string>, script: seq<Step<Y, R>>,
                                      cd: map<string, int>, cursor: nat, turns: seq<Turn>, j: nat)
    requires Faithful(keys, script, 0, cd, cursor, turns) && Finished(turns)
    requires j < |script| && !Threw429(script[j].result)
    ensures |turns| <= j + 1
  {
    StopsOnlyWhenDone(keys, script, cd, cursor, turns);
  }

  /** When every attempt is rate limited, the loop makes all `totalKeys + 1` attempts,
      waiting between each, and gives up with the last 429. */
  lemma AllThrottledExhausts<Y, R>(keys: seq<string>, script: seq<Step<Y, R>>,
                                   cd: map<string, int>, cursor: nat, turns: seq<Turn>)
    requires Faithful(keys, script, 0, cd, cursor, turns) && Finished(turns)
    requires forall j :: 0 <= j < |script| ==> Threw429(script[j].result)
    ensures |turns| == |script|
    ensures Threw429(script[|turns| - 1].result)
  {
    StopsOnlyWhenDone(keys, script, cd, cursor, turns);
  }

  /** After a turn that went round, the rest of a finished record is finished. */
  lemma FinishedTail(turns: seq<Turn>)
    requires Finished(turns) && turns[0].retry
    ensures |turns| > 1 && Finished(turns[1..])
  {
  }

  /** A finished record is determined by where it starts: the loop is a function of the
      rotator's state and of what the world does. */
  lemma {:induction false} FaithfulUnique<Y, R>(keys: seq<string>, script: seq<Step<Y, R>>, k: nat,
                                               cd: map<string, int>, cursor: nat,
                                               a: seq<Turn>, b: seq<Turn>)
    requires Faithful(keys, script, k, cd, cursor, a) && Finished(a)
    requires Faithful(keys, script, k, cd, cursor, b) && Finished(b)
    ensures a == b
    decreases |a|
  {
    assert a[0] == b[0];
    if a[0].retry {
      FinishedTail(a);
      FinishedTail(b);
      FaithfulUnique(keys, script, k + 1, a[0].cooldowns, a[0].cursor, a[1..], b[1..]);
      assert a == [a[0]] + a[1..] && b == [b[0]] + b[1..];
    } else {
      assert |a| == 1 && |b| == 1;
    }
  }

  /** A key the loop never drew keeps its cooldown entry, or its absence. */
  lemma {:induction false} UndrawnKeepsCooldown<Y, R>(keys: seq<string>, script: seq<Step<Y, R>>, k: nat,
                                                     cd: map<string, int>, cursor: nat,
                                                     turns: seq<Turn>, u: string)
    requires Faithful(keys, script, k, cd, cursor, turns)
    requires forall i :: 0 <= i < |turns| ==> turns[i].key != u
    ensures (u in CooldownsAfter(cd, turns)) == (u in cd)
    ensures u in cd ==> CooldownsAfter(cd, turns)[u] == cd[u]
    decreases |turns|
  {
    if turns != [] {
      var first := turns[0];
      assert first.key != u;
      AfterTail(cd, cursor, turns);
      UndrawnKeepsCooldown(keys, script, k + 1, first.cooldowns, first.cursor, turns[1..], u);
    }
  }

  /** What the first `n` attempts yielded, in order. */
  function EmittedUpTo<Y, R>(script: seq<Step<Y, R>>, n: nat): seq<Y>
    requires n <= |script|
  {
    if n == 0 then [] else EmittedUpTo(script, n - 1) + script[n - 1].result.emitted
  }

  /** Every key `getNextKey` handed out over `turns`: each attempt's key, then the key
      each retry peeked at. */
  function DrawnBy(turns: seq<Turn>): seq<string> {
    if turns == [] then []
    else
      var t := turns[|turns| - 1];
      DrawnBy(turns[..|turns| - 1]) + (if t.retry then [t.key, t.peek] else [t.key])
  }

  /** One pass of the loop body: draw a key (`createClient`), run the call, and on a 429
      run `handle429`. */
  method TakeTurn<Y, R>(rot: KeyRotator, step: Step<Y, R>, attempt: nat, maxAttempts: nat)
    returns (key: string, retry: bool, wait: nat, ghost peek: string)
    requires rot.Valid()
    modifies rot`cooldownUntil, rot`currentIndex, rot`issued
    ensures rot.Valid()
    ensures Turn(key, retry, wait, peek, rot.cooldownUntil, rot.currentIndex)
         == TurnOf(rot.keys, step, attempt + 1 < maxAttempts, old(rot.cooldownUntil), old(rot.currentIndex))
    ensures rot.issued == old(rot.issued) + (if retry then [key, peek] else [key])
  {
    ghost var draw := NextKey(rot.keys, rot.cooldownUntil, rot.currentIndex, step.drawAt);
    key := rot.GetNextKey(step.drawAt);
    assert key == draw.key && rot.currentIndex == draw.next;
    var result := step.result;
    if result.ending.Success? || !Is429(result.ending.error) {
      return key, false, 0, "";
    }
    retry, wait := Handle429(rot, result.ending.error, key, attempt, maxAttempts, step.failAt);
    peek := if retry then rot.issued[|rot.issued| - 1] else "";
  }

  /** The loop's bookkeeping after the turns `turns`, started from cooldowns `cd0`, cursor
      `cursor0` and draw record `issued0`: the turns are faithful, `waits` are the waits of
      the retries among the first turns, `emitted` is what those attempts yielded, and
      `cd`, `cursor`, `issued` are the rotator's state after them. */
  ghost predicate Progress<Y, R>(keys: seq<string>, script: seq<Step<Y, R>>, cd0: map<string, int>,
                                 cursor0: nat, issued0: seq<string>, turns: seq<Turn>,
                                 emitted: seq<Y>, waits: seq<nat>,
                                 cd: map<string, int>, cursor: nat, issued: seq<string>)
  {
    && |turns| <= |script|
    && |waits| <= |turns|
    && (forall k :: 0 <= k < |waits| ==> turns[k].retry && waits[k] == turns[k].wait)
    && emitted == EmittedUpTo(script, |turns|)
    && cd == CooldownsAfter(cd0, turns) && cursor == CursorAfter(cursor0, turns)
    && issued == issued0 + DrawnBy(turns)
  }

  /** The bookkeeping carries over one more turn. */
  lemma ProgressSnoc<Y, R>(keys: seq<string>, script: seq<Step<Y, R>>, cd0: map<string, int>,
                           cursor0: nat, issued0: seq<string>, turns: seq<Turn>,
                           emitted: seq<Y>, waits: seq<nat>, issued: seq<string>, t: Turn)
    requires |turns| == |waits| < |script|
    requires Progress(keys, script, cd0, cursor0, issued0, turns, emitted, waits,
                      CooldownsAfter(cd0, turns), CursorAfter(cursor0, turns), issued)
    ensures Progress(keys, script, cd0, cursor0, issued0, turns + [t],
                     emitted + script[|turns|].result.emitted,
                     if t.retry then waits + [t.wait] else waits,
                     t.cooldowns, t.cursor,
                     issued + (if t.retry then [t.key, t.peek] else [t.key]))
  {
    assert (turns + [t])[..|turns|] == turns;
  }

  /** One round of the attempt loop, with its bookkeeping: take a turn, add what the
      attempt yielded, and on a retry record the wait. */
  method Round<Y, R>(rot: KeyRotator, script: seq<Step<Y, R>>, emitted: seq<Y>, waits: seq<nat>,
                     ghost turns: seq<Turn>, ghost cd0: map<string, int>, ghost cursor0: nat,
                     ghost issued0: seq<string>)
    returns (emitted': seq<Y>, waits': seq<nat>, retry: bool, outcome: Result<R, Error>,
             ghost turns': seq<Turn>)
    requires rot.Valid() && |script| == |rot.keys| + 1 && |turns| == |waits| < |script|
    requires Faithful(rot.keys, script, 0, cd0, cursor0, turns)
    requires Progress(rot.keys, script, cd0, cursor0, issued0, turns, emitted, waits,
                      rot.cooldownUntil, rot.currentIndex, rot.issued)
    modifies rot`cooldownUntil, rot`currentIndex, rot`issued
    ensures rot.Valid()
    ensures Faithful(rot.keys, script, 0, cd0, cursor0, turns')
    ensures |turns'| == |turns| + 1 && turns'[..|turns|] == turns && retry == turns'[|turns|].retry
    ensures retry ==> |turns'| < |script|
    ensures |waits'| == if retry then |turns'| else |turns|
    ensures !retry ==> outcome == script[|turns|].result.ending
    ensures Progress(rot.keys, script, cd0, cursor0, issued0, turns', emitted', waits',
                     rot.cooldownUntil, rot.currentIndex, rot.issued)
  {
    var step := script[|waits|];
    var key, wait;
    ghost var peek;
    ghost var issued := rot.issued;
    ghost var cd, cursor := rot.cooldownUntil, rot.currentIndex;
    key, retry, wait, peek := TakeTurn(rot, step, |waits|, |script|);
    ghost var t := Turn(key, retry, wait, peek, rot.cooldownUntil, rot.currentIndex);
    FaithfulSnoc(rot.keys, script, 0, cd0, cursor0, turns, step, |waits| + 1 < |script|, cd, cursor, t);
    ProgressSnoc(rot.keys, script, cd0, cursor0, issued0, turns, emitted, waits, issued, t);
    assert (turns + [t])[..|turns|] == turns;
    turns' := turns + [t];
    emitted' := emitted + step.result.emitted;
    outcome := step.result.ending;
    waits' := if retry then waits + [wait] else waits;
  }

  /** The attempt loop of the four generate/stream methods: at most `totalKeys + 1`
      attempts from the rotator's current state; `script` says what the world does at each
      attempt the loop may make. The result is the last attempt's value or error. */
  method RunWithRetry<Y, R>(rot: KeyRotator, script: seq<Step<Y, R>>)
    returns (emitted: seq<Y>, outcome: Result<R, Error>, waits: seq<nat>, ghost turns: seq<Turn>)
    requires rot.Valid() && |script| == |rot.keys| + 1
    modifies rot`cooldownUntil, rot`currentIndex, rot`issued
    ensures rot.Valid()
    ensures Faithful(rot.keys, script, 0, old(rot.cooldownUntil), old(rot.currentIndex), turns)
    ensures Finished(turns)
    ensures outcome == script[|turns| - 1].result.ending
    ensures emitted == EmittedUpTo(script, |turns|)
    ensures |waits| == |turns| - 1 && forall k :: 0 <= k < |waits| ==> waits[k] == turns[k].wait
    ensures rot.cooldownUntil == turns[|turns| - 1].cooldowns
    ensures rot.currentIndex == turns[|turns| - 1].cursor
    ensures rot.issued == old(rot.issued) + DrawnBy(turns)
  {
    var maxAttempts := rot.TotalKeys() + 1;
    var stop := false;
    emitted, waits, turns := [], [], [];
    outcome := Failure(LocalError(""));
    while !stop
      invariant rot.Valid() && maxAttempts == |script| && |waits| < maxAttempts
      invariant |turns| == if stop then |waits| + 1 else |waits|
      invariant Faithful(rot.keys, script, 0, old(rot.cooldownUntil), old(rot.currentIndex), turns)
      invariant Progress(rot.keys, script, old(rot.cooldownUntil), old(rot.currentIndex),
                         old(rot.issued), turns, emitted, waits,
                         rot.cooldownUntil, rot.currentIndex, rot.issued)
      invariant stop ==> !turns[|waits|].retry && outcome == script[|waits|].result.ending
      decreases maxAttempts - |waits|, if stop then 0 else 1
    {
      var retry;
      emitted, waits, retry, outcome, turns :=
        Round(rot, script, emitted, waits, turns, old(rot.cooldownUntil), old(rot.currentIndex), old(rot.issued));
      stop := !retry;
    }
  }
}
