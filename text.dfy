/**
 * The string primitives the source leans on: `String.prototype.trim`,
 * `split` on one character, `Array.prototype.join`, `startsWith`,
 * `indexOf` and the default (code-unit lexicographic) `Array.prototype.sort`.
 */
module Text {

  /** The characters JavaScript's `trim` and the regular-expression class `\s` remove. */
  predicate IsSpace(c: char) {
    c == ' ' || c == '\t' || c == '\n' || c == '\r' || c == '\U{B}' || c == '\U{C}'
    || c == '\U{A0}' || c == '\U{1680}' || ('\U{2000}' <= c <= '\U{200A}')
    || c == '\U{2028}' || c == '\U{2029}' || c == '\U{202F}' || c == '\U{205F}'
    || c == '\U{3000}' || c == '\U{FEFF}'
  }

  predicate AllSpace(s: string) {
    forall i :: 0 <= i < |s| ==> IsSpace(s[i])
  }

  /** `s` with its leading white space removed. */
  function TrimStart(s: string): (r: string)
    ensures |r| <= |s|
    ensures r == [] || !IsSpace(r[0])
  {
    if s == [] || !IsSpace(s[0]) then s else TrimStart(s[1..])
  }

  /** `s` with its trailing white space removed. */
  function TrimEnd(s: string): (r: string)
    ensures |r| <= |s| && r == s[..|r|]
    ensures r == [] || !IsSpace(r[|r| - 1])
  {
    if s == [] || !IsSpace(s[|s| - 1]) then s else TrimEnd(s[..|s| - 1])
  }

  /** `TrimStart` keeps a suffix. */
  lemma {:induction false} TrimStartIsSuffix(s: string)
    ensures TrimStart(s) == s[|s| - |TrimStart(s)|..]
  {
    if s != [] && IsSpace(s[0]) {
      TrimStartIsSuffix(s[1..]);
    }
  }

  /** `TrimStart` removes white space only. */
  lemma {:induction false} TrimStartRemovesSpace(s: string)
    ensures AllSpace(s[..|s| - |TrimStart(s)|])
  {
    if s != [] && IsSpace(s[0]) {
      TrimStartIsSuffix(s[1..]);
      var r := TrimStart(s[1..]);
      TrimStartRemovesSpace(s[1..]);
      assert s[1..][..|s| - 1 - |r|] == s[1..|s| - |r|];
    }
  }

  /** `TrimEnd` removes white space only. */
  lemma {:induction false} TrimEndRemovesSpace(s: string)
    ensures AllSpace(s[|TrimEnd(s)|..])
  {
    if s != [] && IsSpace(s[|s| - 1]) {
      var r := TrimEnd(s[..|s| - 1]);
      TrimEndRemovesSpace(s[..|s| - 1]);
      assert s[..|s| - 1][|r|..] == s[|r|..|s| - 1];
    }
  }

  /** One step of `TrimStart` and of `TrimEnd`, for callers that work on literal text. */
  lemma TrimStartStep(s: string)
    ensures s != [] && IsSpace(s[0]) ==> TrimStart(s) == TrimStart(s[1..])
    ensures s == [] || !IsSpace(s[0]) ==> TrimStart(s) == s
  {
  }

  lemma TrimEndStep(s: string)
    ensures s != [] && IsSpace(s[|s| - 1]) ==> TrimEnd(s) == TrimEnd(s[..|s| - 1])
    ensures s == [] || !IsSpace(s[|s| - 1]) ==> TrimEnd(s) == s
  {
  }

  /** JavaScript's `s.trim()`. */
  function Trim(s: string): (r: string)
    ensures r == [] || (!IsSpace(r[0]) && !IsSpace(r[|r| - 1]))
  {
    TrimEnd(TrimStart(s))
  }

  /** A trimmed string neither starts nor ends with white space, and is a piece of `s`
      surrounded by white space only. */
  lemma TrimShape(s: string)
    ensures var r := Trim(s);
      exists i :: 0 <= i <= |s| - |r| && s[i..i + |r|] == r && AllSpace(s[..i]) && AllSpace(s[i + |r|..])
  {
    var t := TrimStart(s);
    var r := TrimEnd(t);
    var i := |s| - |t|;
    TrimStartIsSuffix(s);
    TrimStartRemovesSpace(s);
    TrimEndRemovesSpace(t);
    assert s[i..i + |r|] == t[..|r|];
    assert s[i + |r|..] == t[|r|..];
  }

  /** Every character `trim` keeps was in the string. */
  lemma TrimmedChars(s: string)
    ensures forall j :: 0 <= j < |Trim(s)| ==> Trim(s)[j] in s
  {
    var t := TrimStart(s);
    var r := TrimEnd(t);
    TrimStartIsSuffix(s);
    forall j | 0 <= j < |r|
      ensures r[j] in s
    {
      assert r[j] == t[j] == s[|s| - |t| + j];
    }
  }

  /** Index of the first occurrence of `c` in `s` (JavaScript's `indexOf`), or |s|. */
  function IndexOfChar(s: string, c: char): (i: nat)
    ensures i <= |s|
    ensures i < |s| <==> c in s
    ensures i < |s| ==> s[i] == c
    ensures c !in s[..i]
  {
    if s == [] then 0
    else if s[0] == c then 0
    else
      var j := IndexOfChar(s[1..], c);
      assert s[..j + 1] == [s[0]] + s[1..][..j];
      1 + j
  }

  lemma {:induction false} IndexOfCharAt(s: string, c: char, k: nat)
    requires k < |s| && s[k] == c && c !in s[..k]
    ensures IndexOfChar(s, c) == k
  {
    if k > 0 {
      assert s[0] == s[..k][0];
      assert s[1..][..k - 1] == s[1..k];
      IndexOfCharAt(s[1..], c, k - 1);
    }
  }

  /** JavaScript's `s.split(sep)` for a one-character separator. */
  function Split(s: string, sep: char): (r: seq<string>)
    ensures |r| >= 1
    ensures forall p :: p in r ==> sep !in p
    decreases |s|
  {
    if sep !in s then [s]
    else
      var i := IndexOfChar(s, sep);
      [s[..i]] + Split(s[i + 1..], sep)
  }

  /** JavaScript's `xs.join(sep)` for a one-character separator. */
  function Join(xs: seq<string>, sep: char): string {
    if |xs| == 0 then ""
    else if |xs| == 1 then xs[0]
    else xs[0] + [sep] + Join(xs[1..], sep)
  }

  /** Joining the pieces of a split gives back the string. */
  lemma {:induction false} JoinSplit(s: string, sep: char)
    ensures Join(Split(s, sep), sep) == s
    decreases |s|
  {
    if sep in s {
      var i := IndexOfChar(s, sep);
      JoinSplit(s[i + 1..], sep);
      assert s == s[..i] + [sep] + s[i + 1..];
    }
  }

  /** Splitting a join of separator-free pieces gives back the pieces. */
  lemma {:induction false} SplitJoin(xs: seq<string>, sep: char)
    requires |xs| >= 1
    requires forall x :: x in xs ==> sep !in x
    ensures Split(Join(xs, sep), sep) == xs
  {
    if |xs| > 1 {
      var s := Join(xs, sep);
      assert s == xs[0] + ([sep] + Join(xs[1..], sep));
      assert s[|xs[0]|] == sep;
      assert s[..|xs[0]|] == xs[0];
      assert sep in s;
      assert sep !in xs[0];
      IndexOfCharAt(s, sep, |xs[0]|);
      assert s[|xs[0]| + 1..] == Join(xs[1..], sep);
      SplitJoin(xs[1..], sep);
    } else {
      assert sep !in xs[0];
    }
  }

  /** Joining non-empty separator-free pieces loses nothing: equal joins mean equal lists. */
  lemma JoinInjective(xs: seq<string>, ys: seq<string>, sep: char)
    requires forall x :: x in xs ==> sep !in x && x != []
    requires forall y :: y in ys ==> sep !in y && y != []
    requires Join(xs, sep) == Join(ys, sep)
    ensures xs == ys
  {
    JoinEmpty(xs, sep);
    JoinEmpty(ys, sep);
    if xs != [] && ys != [] {
      SplitJoin(xs, sep);
      SplitJoin(ys, sep);
    }
  }

  lemma JoinEmpty(xs: seq<string>, sep: char)
    requires forall x :: x in xs ==> x != []
    ensures Join(xs, sep) == [] <==> xs == []
  {
    if xs != [] {
      assert xs[0] in xs;
      JoinLength(xs, sep);
    }
  }

  lemma {:induction false} JoinLength(xs: seq<string>, sep: char)
    requires |xs| >= 1
    ensures |Join(xs, sep)| >= |xs[0]|
  {
  }

  /** `s.startsWith(prefix)`. */
  predicate StartsWith(s: string, prefix: string) {
    |prefix| <= |s| && s[..|prefix|] == prefix
  }

  // ---------------------------------------------------------------------------
  // Default `Array.prototype.sort` on strings: lexicographic by character.

  /** `a` sorts no later than `b`. */
  predicate LexLe(a: string, b: string)
    decreases |a|
  {
    a == [] || (b != [] && (a[0] < b[0] || (a[0] == b[0] && LexLe(a[1..], b[1..]))))
  }

  lemma {:induction false} LexTotal(a: string, b: string)
    ensures LexLe(a, b) || LexLe(b, a)
    decreases |a|
  {
    if a != [] && b != [] && a[0] == b[0] { LexTotal(a[1..], b[1..]); }
  }

  lemma {:induction false} LexAntisymmetric(a: string, b: string)
    requires LexLe(a, b) && LexLe(b, a)
    ensures a == b
    decreases |a|
  {
    if a != [] && b != [] {
      LexAntisymmetric(a[1..], b[1..]);
      assert a == [a[0]] + a[1..] && b == [b[0]] + b[1..];
    }
  }

  lemma {:induction false} LexTransitive(a: string, b: string, c: string)
    requires LexLe(a, b) && LexLe(b, c)
    ensures LexLe(a, c)
    decreases |a|
  {
    if a != [] && b != [] && c != [] && a[0] == b[0] && b[0] == c[0] {
      LexTransitive(a[1..], b[1..], c[1..]);
    }
  }

  predicate Sorted(s: seq<string>) {
    forall i :: 0 < i < |s| ==> LexLe(s[i - 1], s[i])
  }

  /** `x` placed into the sorted list `s` before the first element it does not follow. */
  function Insert(x: string, s: seq<string>): (r: seq<string>)
    requires Sorted(s)
    ensures Sorted(r)
    ensures multiset(r) == multiset(s) + multiset{x}
    ensures r != [] && (r[0] == x || (s != [] && r[0] == s[0]))
  {
    if s == [] || LexLe(x, s[0]) then [x] + s
    else
      LexTotal(x, s[0]);
      var t := Insert(x, s[1..]);
      assert s == [s[0]] + s[1..];
      [s[0]] + t
  }

  /** Insertion sort: the ordering `Array.prototype.sort` produces on strings. */
  function Sort(s: seq<string>): (r: seq<string>)
    ensures Sorted(r)
    ensures multiset(r) == multiset(s)
  {
    if s == [] then []
    else
      assert s == [s[0]] + s[1..];
      Insert(s[0], Sort(s[1..]))
  }

  lemma {:induction false} SortedHeadIsLeast(s: seq<string>, j: nat)
    requires Sorted(s) && 0 < j < |s|
    ensures LexLe(s[0], s[j])
  {
    if j > 1 {
      SortedHeadIsLeast(s, j - 1);
      LexTransitive(s[0], s[j - 1], s[j]);
    }
  }

  /** Two sorted arrangements of one multiset start with the same string. */
  lemma SortedSameHead(a: seq<string>, b: seq<string>)
    requires Sorted(a) && Sorted(b) && a != [] && b != []
    requires multiset(a) == multiset(b)
    ensures a[0] == b[0]
  {
    assert a[0] in multiset(b) && b[0] in multiset(a);
    var i :| 0 <= i < |b| && b[i] == a[0];
    var j :| 0 <= j < |a| && a[j] == b[0];
    if i > 0 { SortedHeadIsLeast(b, i); } else { LexTotal(a[0], a[0]); }
    if j > 0 { SortedHeadIsLeast(a, j); } else { LexTotal(b[0], b[0]); }
    LexAntisymmetric(a[0], b[0]);
  }

  lemma MultisetTail(a: seq<string>, b: seq<string>)
    requires a != [] && b != [] && a[0] == b[0]
    requires multiset(a) == multiset(b)
    ensures multiset(a[1..]) == multiset(b[1..])
  {
    assert a == [a[0]] + a[1..];
    assert b == [b[0]] + b[1..];
    assert multiset(a) == multiset([a[0]]) + multiset(a[1..]);
    assert multiset(b) == multiset([b[0]]) + multiset(b[1..]);
    assert multiset(a[1..]) == multiset(a) - multiset([a[0]]);
    assert multiset(b[1..]) == multiset(b) - multiset([b[0]]);
  }

  /** There is only one sorted arrangement of a multiset of strings. */
  lemma {:induction false} SortedUnique(a: seq<string>, b: seq<string>)
    requires Sorted(a) && Sorted(b)
    requires multiset(a) == multiset(b)
    ensures a == b
    decreases |a|
  {
    if a != [] && b != [] {
      SortedSameHead(a, b);
      MultisetTail(a, b);
      SortedUnique(a[1..], b[1..]);
      assert a == [a[0]] + a[1..] && b == [b[0]] + b[1..];
    } else {
      assert |a| == |multiset(a)| && |b| == |multiset(b)|;
    }
  }
}
