/** Values and text helpers shared by the whole model.

    Python dictionaries are ordered lists of bindings, JSON values are those
    `json.loads` produces, and the handful of `str` methods the services rely
    on (`strip`, `split`, `replace`, `in`, `join`) are written out with the
    semantics CPython gives them. */
module Common {

  datatype Option<T> = None | Some(value: T) {
    /** Python's `x or default` when `x` is an optional value. */
    function GetOr(default: T): T { if Some? then value else default }
  }

  /** An operation that either returns a value or raises; the error carries
      the exception's kind or message. */
  datatype Result<T> = Ok(value: T) | Err(error: string)

  /** A JSON value as `json.loads` hands it to Python: objects keep the order
      of their keys. */
  datatype Json =
    | JNull
    | JBool(b: bool)
    | JNum(n: real)
    | JStr(s: string)
    | JArr(items: seq<Json>)
    | JObj(fields: seq<(string, Json)>)

  type Fields = seq<(string, Json)>

  /** `d.get(key)`: the binding of `key`, if any. */
  function Lookup(fields: Fields, key: string): (r: Option<Json>)
    ensures r.None? <==> forall i :: 0 <= i < |fields| ==> fields[i].0 != key
    ensures r.Some? ==> exists i :: 0 <= i < |fields| && fields[i] == (key, r.value)
  {
    if fields == [] then None
    else if fields[0].0 == key then Some(fields[0].1)
    else Lookup(fields[1..], key)
  }

  /** `d.get(key, default)`. */
  function Get(fields: Fields, key: string, default: Json): Json {
    Lookup(fields, key).GetOr(default)
  }

  function Keys(fields: Fields): seq<string> {
    seq(|fields|, i requires 0 <= i < |fields| => fields[i].0)
  }

  /** Python truthiness of a JSON value. */
  predicate Truthy(j: Json) {
    match j
    case JNull => false
    case JBool(b) => b
    case JNum(n) => n != 0.0
    case JStr(s) => s != ""
    case JArr(a) => a != []
    case JObj(f) => f != []
  }

  lemma {:induction false} LookupAppend(a: Fields, b: Fields, key: string)
    ensures Lookup(a + b, key) == if Lookup(a, key).Some? then Lookup(a, key) else Lookup(b, key)
  {
    if a == [] {
      assert a + b == b;
    } else {
      assert (a + b)[1..] == a[1..] + b;
      if a[0].0 != key {
        LookupAppend(a[1..], b, key);
      }
    }
  }

  /** The bindings of `base` with each value replaced when `over` binds the
      same key. */
  function MergeBase(base: Fields, over: Fields): (r: Fields)
    ensures |r| == |base|
  {
    if base == [] then []
    else [(base[0].0, Lookup(over, base[0].0).GetOr(base[0].1))] + MergeBase(base[1..], over)
  }

  /** The bindings of `over` whose key `base` does not bind. */
  function MergeNew(over: Fields, base: Fields): Fields {
    if over == [] then []
    else if Lookup(base, over[0].0).Some? then MergeNew(over[1..], base)
    else [over[0]] + MergeNew(over[1..], base)
  }

  /** The dictionary display `{**base, **over}`: keys of `base` keep their
      position, keys only in `over` follow in its order. */
  function Merge(base: Fields, over: Fields): Fields {
    MergeBase(base, over) + MergeNew(over, base)
  }

  lemma {:induction false} MergeBaseLookup(base: Fields, over: Fields, key: string)
    ensures Lookup(MergeBase(base, over), key) ==
      if Lookup(base, key).None? then None
      else Some(Lookup(over, key).GetOr(Lookup(base, key).value))
  {
    if base != [] && base[0].0 != key {
      MergeBaseLookup(base[1..], over, key);
    }
  }

  lemma {:induction false} MergeNewLookup(over: Fields, base: Fields, key: string)
    requires Lookup(base, key).None?
    ensures Lookup(MergeNew(over, base), key) == Lookup(over, key)
  {
    if over != [] {
      MergeNewLookup(over[1..], base, key);
      if over[0].0 == key {
        assert Lookup(base, over[0].0).None?;
      }
    }
  }

  /** A key bound by `over` takes the value `over` gives it; every other key
      keeps the value `base` gives it. */
  lemma {:induction false} MergeLookup(base: Fields, over: Fields, key: string)
    ensures Lookup(Merge(base, over), key) ==
      if Lookup(over, key).Some? then Lookup(over, key) else Lookup(base, key)
  {
    LookupAppend(MergeBase(base, over), MergeNew(over, base), key);
    MergeBaseLookup(base, over, key);
    if Lookup(base, key).None? {
      MergeNewLookup(over, base, key);
    }
  }

  // ---------------------------------------------------------------- text

  /** `str.isspace` for one character: the code points CPython strips. */
  predicate IsSpace(c: char) {
    var n := c as int;
    (9 <= n <= 13) || (28 <= n <= 32) || n == 0x85 || n == 0xA0 || n == 0x1680
    || (0x2000 <= n <= 0x200A) || n == 0x2028 || n == 0x2029 || n == 0x202F
    || n == 0x205F || n == 0x3000
  }

  predicate AllSpace(s: string) {
    forall i :: 0 <= i < |s| ==> IsSpace(s[i])
  }

  /** Neither end of `t` is white space. */
  predicate IsStripped(t: string) {
    t == [] || (!IsSpace(t[0]) && !IsSpace(t[|t| - 1]))
  }

  function StripLeading(s: string): (r: string)
    ensures |r| <= |s| && r == s[|s| - |r|..]
    ensures AllSpace(s[..|s| - |r|])
    ensures r != [] ==> !IsSpace(r[0])
  {
    if |s| > 0 && IsSpace(s[0]) then
      var r := StripLeading(s[1..]);
      assert s[..|s| - |r|] == [s[0]] + s[1..][..|s| - 1 - |r|];
      r
    else s
  }

  function StripTrailing(s: string): (r: string)
    ensures |r| <= |s| && r == s[..|r|]
    ensures AllSpace(s[|r|..])
    ensures r != [] ==> !IsSpace(r[|r| - 1])
  {
    if |s| > 0 && IsSpace(s[|s| - 1]) then
      var r := StripTrailing(s[..|s| - 1]);
      assert s[|r|..] == s[..|s| - 1][|r|..] + [s[|s| - 1]];
      r
    else s
  }

  /** `r` is a slice of `s` with only white space around it. */
  predicate Trimmed(s: string, r: string) {
    exists a :: 0 <= a <= |s| - |r| && r == s[a..a + |r|]
                && AllSpace(s[..a]) && AllSpace(s[a + |r|..])
  }

  /** `str.strip()`: `r` is `s` with the white space at both ends removed. */
  function Strip(s: string): (r: string)
    ensures IsStripped(r) && Trimmed(s, r)
  {
    var l := StripLeading(s);
    var r := StripTrailing(l);
    StripSlices(s, l, r);
    r
  }

  /** A suffix of `s` after white space, cut before white space, is a
      slice of `s` with only white space around it. */
  lemma StripSlices(s: string, l: string, r: string)
    requires |l| <= |s| && l == s[|s| - |l|..] && AllSpace(s[..|s| - |l|])
    requires |r| <= |l| && r == l[..|r|] && AllSpace(l[|r|..])
    requires l != [] ==> !IsSpace(l[0])
    requires r != [] ==> !IsSpace(r[|r| - 1])
    ensures IsStripped(r) && Trimmed(s, r)
  {
    var a := |s| - |l|;
    assert r != [] ==> r[0] == l[0];
    assert r == s[a..a + |r|] by {
      assert l[..|r|] == s[a..a + |r|];
    }
    assert AllSpace(s[a + |r|..]) by {
      assert s[a + |r|..] == l[|r|..];
    }
    assert 0 <= a <= |s| - |r| && r == s[a..a + |r|] && AllSpace(s[..a]) && AllSpace(s[a + |r|..]);
  }

  lemma {:induction false} StripLeadingPadded(w: string, t: string)
    requires AllSpace(w) && t != [] && !IsSpace(t[0])
    ensures StripLeading(w + t) == t
  {
    if w != [] {
      assert (w + t)[1..] == w[1..] + t;
      StripLeadingPadded(w[1..], t);
    }
  }

  lemma {:induction false} StripTrailingPadded(t: string, w: string)
    requires AllSpace(w) && t != [] && !IsSpace(t[|t| - 1])
    ensures StripTrailing(t + w) == t
  {
    if w != [] {
      assert (t + w)[..|t + w| - 1] == t + w[..|w| - 1];
      StripTrailingPadded(t, w[..|w| - 1]);
    }
  }

  lemma {:induction false} StripLeadingAllSpace(w: string)
    requires AllSpace(w)
    ensures StripLeading(w) == []
  {
    if w != [] {
      StripLeadingAllSpace(w[1..]);
    }
  }

  /** White space around a stripped text is exactly what `strip` removes. */
  lemma StripPadded(w1: string, t: string, w2: string)
    requires AllSpace(w1) && AllSpace(w2) && IsStripped(t)
    ensures Strip(w1 + t + w2) == t
  {
    if t == [] {
      assert w1 + t + w2 == w1 + w2;
      StripLeadingAllSpace(w1 + w2);
    } else {
      assert w1 + t + w2 == w1 + (t + w2);
      StripLeadingPadded(w1, t + w2);
      StripTrailingPadded(t, w2);
    }
  }

  /** `strip` leaves a stripped text as it is. */
  lemma StrippedFixed(t: string)
    requires IsStripped(t)
    ensures Strip(t) == t
  {
    var none: string := [];
    assert none + t + none == t;
    StripPadded(none, t, none);
  }

  /** `p` occurs in `s` starting at index `i`. */
  predicate OccursAt(s: string, p: string, i: int) {
    0 <= i && i + |p| <= |s| && s[i..i + |p|] == p
  }

  /** Python's `p in s`. */
  predicate Contains(s: string, p: string) {
    exists i :: 0 <= i <= |s| - |p| && OccursAt(s, p, i)
  }

  /** `s.find(p, from)`, as an option. */
  function FindFrom(s: string, p: string, from: nat): (r: Option<nat>)
    ensures r.Some? ==> from <= r.value && OccursAt(s, p, r.value)
                        && forall j :: from <= j < r.value ==> !OccursAt(s, p, j)
    ensures r.None? ==> forall j :: from <= j ==> !OccursAt(s, p, j)
    decreases |s| - from
  {
    if from + |p| > |s| then None
    else if s[from..from + |p|] == p then Some(from)
    else FindFrom(s, p, from + 1)
  }

  /** The first occurrence of `p` in `s`. */
  function Find(s: string, p: string): (r: Option<nat>)
    ensures r.Some? <==> Contains(s, p)
    ensures r.Some? ==> OccursAt(s, p, r.value) && forall j :: 0 <= j < r.value ==> !OccursAt(s, p, j)
  {
    FindFrom(s, p, 0)
  }

  /** `sep.join(parts)`. */
  function Join(parts: seq<string>, sep: string): string {
    if |parts| == 0 then ""
    else if |parts| == 1 then parts[0]
    else parts[0] + sep + Join(parts[1..], sep)
  }

  /** `s.split(sep, 1)`: the text before the first `sep` and the rest. */
  function SplitOnce(s: string, sep: string): (r: seq<string>)
    requires sep != []
    ensures 1 <= |r| <= 2
    ensures |r| == 2 <==> Contains(s, sep)
    ensures |r| == 1 ==> r[0] == s
    ensures |r| == 2 ==> s == r[0] + sep + r[1] && OccursAt(s, sep, |r[0]|)
                         && forall j :: 0 <= j < |r[0]| ==> !OccursAt(s, sep, j)
  {
    match Find(s, sep)
    case None => [s]
    case Some(i) =>
      assert s == s[..i] + sep + s[i + |sep|..];
      [s[..i], s[i + |sep|..]]
  }

  /** `s.split(sep)`: joining the pieces with `sep` gives `s` back. */
  function Split(s: string, sep: string): (r: seq<string>)
    requires sep != []
    ensures |r| >= 1
    ensures Join(r, sep) == s
    ensures |r| == 1 <==> !Contains(s, sep)
    decreases |s|
  {
    match Find(s, sep)
    case None => [s]
    case Some(i) =>
      var rest := Split(s[i + |sep|..], sep);
      JoinCons(s[..i], rest, sep);
      Reassembled(s, i, i + |sep|);
      [s[..i]] + rest
  }

  /** A text is its three consecutive slices. */
  lemma Reassembled(s: string, i: nat, j: nat)
    requires i <= j <= |s|
    ensures s == s[..i] + s[i..j] + s[j..]
  {
    assert s[..j] == s[..i] + s[i..j];
    assert s == s[..j] + s[j..];
  }

  /** Joining a part in front of at least one other adds it and a `sep`. */
  lemma JoinCons(a: string, rest: seq<string>, sep: string)
    requires rest != []
    ensures Join([a] + rest, sep) == a + sep + Join(rest, sep)
  {
    var r := [a] + rest;
    assert r[0] == a && r[1..] == rest && |r| >= 2;
  }

  /** `s.replace(pat, repl)`. */
  function Replace(s: string, pat: string, repl: string): (r: string)
    requires pat != []
    ensures !Contains(s, pat) ==> r == s
  {
    Join(Split(s, pat), repl)
  }

  lemma {:induction false} OccursInPart(s: string, p: string, k: nat, j: nat)
    requires k <= |s| && OccursAt(s[k..], p, j)
    ensures OccursAt(s, p, k + j)
  {
    assert s[k + j..k + j + |p|] == s[k..][j..j + |p|];
  }

  /** A text glued around `m` contains `m`. */
  lemma ContainsMiddle(a: string, m: string, b: string)
    ensures Contains(a + m + b, m)
  {
    var s := a + m + b;
    assert s[|a|..|a| + |m|] == m;
    assert OccursAt(s, m, |a|);
  }

  /** Every character an occurrence of `p` covers is a character of `p`. */
  lemma {:induction false} OccurrenceCovers(s: string, p: string, i: int, k: int)
    requires OccursAt(s, p, i) && i <= k < i + |p|
    ensures s[k] in p
  {
    assert s[k] == s[i..i + |p|][k - i];
  }

  /** An occurrence of `p` at `i` would have to cover index `k`, which holds
      a character `p` does not use. */
  lemma NotCovered(s: string, p: string, i: int, k: int)
    requires 0 <= i <= k < i + |p| && k < |s| && s[k] !in p
    ensures !OccursAt(s, p, i)
  {
    if i + |p| <= |s| {
      assert p[k - i] in p;
      assert s[i..i + |p|][k - i] == s[k];
    }
  }

  /** A character of `p` on each side of a text without `p` does not
      create an occurrence. */
  lemma NotContainsWrapped(a: char, t: string, b: char, p: string)
    requires p != [] && a !in p && b !in p && !Contains(t, p)
    ensures !Contains([a] + t + [b], p)
  {
    var s := [a] + t + [b];
    forall j | 0 <= j <= |s| - |p|
      ensures !OccursAt(s, p, j)
    {
      if j == 0 {
        NotCovered(s, p, j, 0);
      } else if j + |p| == |s| {
        NotCovered(s, p, j, |s| - 1);
      } else {
        assert s[j..j + |p|] == t[j - 1..j - 1 + |p|];
        assert !OccursAt(t, p, j - 1);
      }
    }
  }

  /** The pieces of `split` start with the text before the first separator. */
  lemma SplitHead(s: string, sep: string)
    requires sep != []
    ensures Split(s, sep)[0] == SplitOnce(s, sep)[0]
  {
  }

  /** The second piece of `split` is the first piece of what follows the
      first separator. */
  lemma SplitSecond(s: string, sep: string)
    requires sep != [] && Contains(s, sep)
    ensures Split(s, sep)[1] == Split(SplitOnce(s, sep)[1], sep)[0]
  {
  }

  /** The text before the first separator holds no separator. */
  lemma BeforeFirstClean(s: string, sep: string)
    requires sep != []
    ensures !Contains(SplitOnce(s, sep)[0], sep)
  {
    var r := SplitOnce(s, sep);
    if |r| == 2 {
      assert s[..|r[0]|] == r[0];
      forall j | 0 <= j <= |r[0]| - |sep|
        ensures !OccursAt(r[0], sep, j)
      {
        assert r[0][j..j + |sep|] == s[j..j + |sep|];
        assert !OccursAt(s, sep, j);
      }
    }
  }

  /** ASCII lower case; other characters are unchanged. */
  function LowerChar(c: char): char {
    if 'A' <= c <= 'Z' then (c as int + 32) as char else c
  }

  function Lower(s: string): (r: string)
    ensures |r| == |s|
  {
    seq(|s|, i requires 0 <= i < |s| => LowerChar(s[i]))
  }

  /** Lowering twice is lowering once. */
  lemma LowerTwice(s: string)
    ensures Lower(Lower(s)) == Lower(s)
  {
    assert forall i :: 0 <= i < |s| ==> LowerChar(LowerChar(s[i])) == LowerChar(s[i]);
  }

  predicate IsDigit(c: char) { '0' <= c <= '9' }

  /** The character of decimal digit `d`. */
  function DigitChar(d: nat): char
    requires d < 10
  {
    (48 + d) as char
  }

  /** `str(n)` for a natural number. */
  function NatToString(n: nat): (r: string)
    ensures |r| >= 1
    decreases n
  {
    if n < 10 then [DigitChar(n)] else NatToString(n / 10) + [DigitChar(n % 10)]
  }

  /** `str(n)` is all digits, with a leading zero only for 0. */
  lemma {:induction false} NatToStringDigits(n: nat)
    ensures forall i :: 0 <= i < |NatToString(n)| ==> IsDigit(NatToString(n)[i])
    ensures (NatToString(n)[0] == '0') <==> n == 0
    decreases n
  {
    if n >= 10 {
      NatToStringDigits(n / 10);
      assert NatToString(n)[0] == NatToString(n / 10)[0];
    }
  }

  /** `str(i)` for an integer. */
  function IntToString(i: int): string {
    if i < 0 then "-" + NatToString(-i) else NatToString(i)
  }

  /** `str(id)` of a row id; the rows' UUIDs are modelled by natural numbers. */
  function IdText(id: nat): string {
    NatToString(id)
  }

  // --------------------------------------------------------- arithmetic

  /** `part / whole if whole > 0 else 0`, the guarded rate the services use
      everywhere. */
  function Ratio(part: real, whole: real): (r: real)
    ensures whole > 0.0 ==> r * whole == part
    ensures whole <= 0.0 ==> r == 0.0
    ensures 0.0 <= part <= whole ==> 0.0 <= r <= 1.0
  {
    if whole > 0.0 then part / whole else 0.0
  }

  function Sum(xs: seq<real>): real {
    if xs == [] then 0.0 else xs[0] + Sum(xs[1..])
  }

  /** `sum(xs) / len(xs)`. */
  function Mean(xs: seq<real>): real
    requires xs != []
  {
    Sum(xs) / (|xs| as real)
  }

  function MinOf(xs: seq<real>): (r: real)
    requires xs != []
    ensures r in xs && forall x :: x in xs ==> r <= x
  {
    if |xs| == 1 then xs[0]
    else
      var m := MinOf(xs[1..]);
      assert forall x :: x in xs ==> x == xs[0] || x in xs[1..];
      if xs[0] <= m then xs[0] else m
  }

  function MaxOf(xs: seq<real>): (r: real)
    requires xs != []
    ensures r in xs && forall x :: x in xs ==> x <= r
  {
    if |xs| == 1 then xs[0]
    else
      var m := MaxOf(xs[1..]);
      assert forall x :: x in xs ==> x == xs[0] || x in xs[1..];
      if xs[0] >= m then xs[0] else m
  }

  lemma {:induction false} SumBounds(xs: seq<real>, lo: real, hi: real)
    requires forall x :: x in xs ==> lo <= x <= hi
    ensures (|xs| as real) * lo <= Sum(xs) <= (|xs| as real) * hi
  {
    if xs != [] {
      var m := (|xs| - 1) as real;
      assert forall x :: x in xs[1..] ==> x in xs;
      assert xs[0] in xs;
      SumBounds(xs[1..], lo, hi);
      assert |xs[1..]| as real == m;
      assert Sum(xs) == xs[0] + Sum(xs[1..]);
      OneMoreBounds(m, |xs| as real, xs[0], Sum(xs[1..]), lo, hi);
    }
  }

  lemma OneMoreBounds(m: real, n: real, x: real, s: real, lo: real, hi: real)
    requires n == m + 1.0
    requires m * lo <= s <= m * hi && lo <= x <= hi
    ensures n * lo <= x + s <= n * hi
  {
    OneMore(m, lo);
    OneMore(m, hi);
  }

  lemma OneMore(m: real, x: real)
    ensures (m + 1.0) * x == m * x + x
  {
  }

  /** The mean of a nonempty list lies between its least and greatest
      element. */
  lemma MeanWithin(xs: seq<real>)
    requires xs != []
    ensures MinOf(xs) <= Mean(xs) <= MaxOf(xs)
  {
    var n := |xs| as real;
    SumBounds(xs, MinOf(xs), MaxOf(xs));
    DivideBounds(MinOf(xs), Sum(xs), MaxOf(xs), n);
  }

  lemma DivideBounds(lo: real, s: real, hi: real, n: real)
    requires n > 0.0 && n * lo <= s <= n * hi
    ensures lo <= s / n <= hi
  {
    assert s / n - lo == (s - n * lo) / n;
    assert hi - s / n == (n * hi - s) / n;
  }

  /** Round half to even, as Python's `round` does on an exact tie. */
  function RoundHalfEven(y: real): (r: int)
    ensures y - 0.5 <= r as real <= y + 0.5
  {
    var f := y.Floor;
    var d := y - f as real;
    if d < 0.5 then f
    else if d > 0.5 then f + 1
    else if f % 2 == 0 then f
    else f + 1
  }

  /** `round(x, 2)` on an exact value: within half a cent of `x`. */
  function Round2(x: real): (r: real)
    ensures x - 0.005 <= r <= x + 0.005
  {
    (RoundHalfEven(x * 100.0) as real) / 100.0
  }

  /** `round(x, 1)` on an exact value. */
  function Round1(x: real): (r: real)
    ensures x - 0.05 <= r <= x + 0.05
  {
    (RoundHalfEven(x * 10.0) as real) / 10.0
  }

  /** `round(x, 3)` on an exact value. */
  function Round3(x: real): (r: real)
    ensures x - 0.0005 <= r <= x + 0.0005
  {
    (RoundHalfEven(x * 1000.0) as real) / 1000.0
  }

  /** `int(x)`: truncation toward zero. */
  function Trunc(x: real): (r: int)
    ensures x >= 0.0 ==> r as real <= x < r as real + 1.0
    ensures x < 0.0 ==> r as real - 1.0 < x <= r as real
  {
    if x >= 0.0 then x.Floor else -((-x).Floor)
  }

  // ------------------------------------------------ tables with unique keys

  /** No two rows share a key: the database's unique constraint. */
  predicate KeysUnique<R, K(==)>(rows: seq<R>, key: R -> K) {
    forall i, j :: 0 <= i < j < |rows| ==> key(rows[i]) != key(rows[j])
  }

  /** The row whose key is `k`, if any. */
  function FindKey<R, K(==)>(rows: seq<R>, key: R -> K, k: K): (r: Option<nat>)
    ensures r.Some? ==> r.value < |rows| && key(rows[r.value]) == k
    ensures r.None? <==> forall j :: 0 <= j < |rows| ==> key(rows[j]) != k
  {
    if rows == [] then None
    else if key(rows[0]) == k then Some(0)
    else
      match FindKey(rows[1..], key, k)
      case None => None
      case Some(i) => Some(i + 1)
  }

  /** Django's `update_or_create`: the row holding the key of `n` is merged
      with it in place, or `n` is appended when no row holds that key. */
  function Upsert<R(!new), K(==)>(rows: seq<R>, key: R -> K, n: R, merge: (R, R) -> R): (r: seq<R>)
    requires forall x :: key(merge(x, n)) == key(x)
    ensures KeysUnique(rows, key) ==> KeysUnique(r, key)
    ensures FindKey(rows, key, key(n)).None? ==> r == rows + [n]
    ensures FindKey(rows, key, key(n)).Some? ==>
      var i := FindKey(rows, key, key(n)).value; r == rows[i := merge(rows[i], n)]
  {
    match FindKey(rows, key, key(n))
    case None => rows + [n]
    case Some(i) => rows[i := merge(rows[i], n)]
  }

  /** `update_or_create` for each new row in turn: the row is merged into
      the row that already holds its key, or appended when there is none. */
  function UpsertAll<R(!new), K(==)>(rows: seq<R>, key: R -> K, news: seq<R>, merge: (R, R) -> R): (r: seq<R>)
    requires forall x, n :: key(merge(x, n)) == key(x)
    ensures KeysUnique(rows, key) ==> KeysUnique(r, key)
    decreases |news|
  {
    if news == [] then rows
    else
      var n := news[|news| - 1];
      Upsert(UpsertAll(rows, key, news[..|news| - 1], merge), key, n, merge)
  }

  /** One more upsert after a run of them is a longer run. */
  lemma UpsertAllSnoc<R(!new), K>(rows: seq<R>, key: R -> K, news: seq<R>, n: R, merge: (R, R) -> R)
    requires forall x, m :: key(merge(x, m)) == key(x)
    ensures UpsertAll(rows, key, news + [n], merge)
            == Upsert(UpsertAll(rows, key, news, merge), key, n, merge)
  {
    assert (news + [n])[..|news|] == news;
  }

  /** The row `n` stands in `r` under its key: merged into the row of `rows`
      that held that key, or as it is when no row did. */
  ghost predicate Stored<R, K>(r: seq<R>, rows: seq<R>, key: R -> K, n: R, merge: (R, R) -> R) {
    exists i :: 0 <= i < |r| && key(r[i]) == key(n)
      && r[i] == match FindKey(rows, key, key(n)) case None => n case Some(i0) => merge(rows[i0], n)
  }

  /** What a run of upserts with distinct keys leaves: every new row is
      stored under its key, a row whose key no new row has is unchanged,
      and the rows added are new rows. */
  ghost predicate UpsertedAs<R, K>(r: seq<R>, rows: seq<R>, key: R -> K, news: seq<R>, merge: (R, R) -> R) {
    |rows| <= |r|
    && (forall i :: 0 <= i < |rows| ==> r[i] == rows[i] || Merged(rows[i], r[i], key, news, merge))
    && (forall i :: |rows| <= i < |r| ==> r[i] in news)
    && (forall j :: 0 <= j < |news| ==> Stored(r, rows, key, news[j], merge))
  }

  /** `after` is `before` merged with one of the new rows of the same key. */
  ghost predicate Merged<R, K>(before: R, after: R, key: R -> K, news: seq<R>, merge: (R, R) -> R) {
    exists j :: 0 <= j < |news| && key(news[j]) == key(before) && after == merge(before, news[j])
  }

  lemma {:induction false} UpsertAllSpec<R(!new), K>(rows: seq<R>, key: R -> K, news: seq<R>, merge: (R, R) -> R)
    requires forall x, n :: key(merge(x, n)) == key(x)
    requires KeysUnique(rows, key) && KeysUnique(news, key)
    ensures UpsertedAs(UpsertAll(rows, key, news, merge), rows, key, news, merge)
    decreases |news|
  {
    if news != [] {
      var last := |news| - 1;
      var front := news[..last];
      assert news == front + [news[last]];
      assert forall j :: 0 <= j < last ==> front[j] == news[j];
      UpsertAllSpec(rows, key, front, merge);
      UpsertStep(UpsertAll(rows, key, front, merge), rows, key, front, news[last], merge);
    }
  }

  /** One more upsert, of a key no earlier new row had, keeps the account. */
  lemma UpsertStep<R(!new), K>(r0: seq<R>, rows: seq<R>, key: R -> K, front: seq<R>, n: R, merge: (R, R) -> R)
    requires forall x, m :: key(merge(x, m)) == key(x)
    requires KeysUnique(rows, key) && KeysUnique(r0, key) && KeysUnique(front + [n], key)
    requires UpsertedAs(r0, rows, key, front, merge)
    ensures UpsertedAs(Upsert(r0, key, n, merge), rows, key, front + [n], merge)
  {
    var news := front + [n];
    assert news[|front|] == n;
    assert forall j :: 0 <= j < |front| ==> news[j] == front[j];
    assert forall j :: 0 <= j < |front| ==> key(front[j]) != key(n);
    KeyHeldByRow(r0, rows, key, front, merge, key(n));
    match FindKey(r0, key, key(n))
    case None =>
      UpsertAppend(r0, rows, key, front, n, merge);
    case Some(i1) =>
      UpsertUpdate(r0, rows, key, front, n, merge, i1);
  }

  /** A key no earlier new row had is held in `r0` only by an unchanged old row. */
  lemma KeyHeldByRow<R, K>(r0: seq<R>, rows: seq<R>, key: R -> K, front: seq<R>, merge: (R, R) -> R, k: K)
    requires forall x, m :: key(merge(x, m)) == key(x)
    requires UpsertedAs(r0, rows, key, front, merge)
    requires forall j :: 0 <= j < |front| ==> key(front[j]) != k
    ensures forall i :: 0 <= i < |r0| && key(r0[i]) == k ==> i < |rows| && r0[i] == rows[i]
    ensures forall i :: 0 <= i < |rows| && key(rows[i]) == k ==> r0[i] == rows[i]
  {
    forall i | 0 <= i < |r0| && key(r0[i]) == k
      ensures i < |rows| && r0[i] == rows[i]
    {
    }
    forall i | 0 <= i < |rows| && key(rows[i]) == k
      ensures r0[i] == rows[i]
    {
    }
  }

  /** The upsert of a key no row holds appends the new row. */
  lemma UpsertAppend<R(!new), K>(r0: seq<R>, rows: seq<R>, key: R -> K, front: seq<R>, n: R, merge: (R, R) -> R)
    requires forall x, m :: key(merge(x, m)) == key(x)
    requires UpsertedAs(r0, rows, key, front, merge)
    requires FindKey(r0, key, key(n)).None?
    requires forall i :: 0 <= i < |rows| && key(rows[i]) == key(n) ==> r0[i] == rows[i]
    ensures UpsertedAs(r0 + [n], rows, key, front + [n], merge)
  {
    var r := r0 + [n];
    var news := front + [n];
    assert FindKey(rows, key, key(n)).None?;
    assert Stored(r, rows, key, n, merge) by {
      assert r[|r0|] == n;
    }
    forall j | 0 <= j < |news| ensures Stored(r, rows, key, news[j], merge) {
      if j < |front| {
        assert news[j] == front[j];
        StoredKept(r0, r, rows, key, front[j], merge);
      }
    }
    forall i | 0 <= i < |rows| && r[i] != rows[i] ensures Merged(rows[i], r[i], key, news, merge) {
      MergedMore(rows[i], r0[i], key, front, n, merge);
    }
    assert forall x :: x in front ==> x in news;
  }

  /** The upsert of a key the row at `i1` holds merges the new row into it. */
  lemma UpsertUpdate<R(!new), K>(r0: seq<R>, rows: seq<R>, key: R -> K, front: seq<R>, n: R, merge: (R, R) -> R, i1: nat)
    requires forall x, m :: key(merge(x, m)) == key(x)
    requires KeysUnique(rows, key) && KeysUnique(r0, key)
    requires UpsertedAs(r0, rows, key, front, merge)
    requires FindKey(r0, key, key(n)) == Some(i1)
    requires i1 < |rows| && r0[i1] == rows[i1]
    requires forall j :: 0 <= j < |front| ==> key(front[j]) != key(n)
    ensures UpsertedAs(r0[i1 := merge(r0[i1], n)], rows, key, front + [n], merge)
  {
    var r := r0[i1 := merge(r0[i1], n)];
    assert FindKey(rows, key, key(n)) == Some(i1);
    UpdateStores(r0, r, rows, key, front, n, merge, i1);
    UpdateMerges(r0, r, rows, key, front, n, merge, i1);
    assert forall i :: |rows| <= i < |r| ==> r[i] == r0[i];
    assert forall x :: x in front ==> x in front + [n];
  }

  lemma UpdateStores<R, K>(r0: seq<R>, r: seq<R>, rows: seq<R>, key: R -> K, front: seq<R>, n: R, merge: (R, R) -> R, i1: nat)
    requires forall x, m :: key(merge(x, m)) == key(x)
    requires i1 < |r0| && r == r0[i1 := merge(r0[i1], n)] && key(r0[i1]) == key(n)
    requires i1 < |rows| && r0[i1] == rows[i1] && FindKey(rows, key, key(n)) == Some(i1)
    requires forall j :: 0 <= j < |front| ==> Stored(r0, rows, key, front[j], merge) && key(front[j]) != key(n)
    ensures forall j :: 0 <= j < |front + [n]| ==> Stored(r, rows, key, (front + [n])[j], merge)
  {
    var news := front + [n];
    assert Stored(r, rows, key, n, merge) by {
      assert r[i1] == merge(rows[i1], n);
    }
    forall j | 0 <= j < |news| ensures Stored(r, rows, key, news[j], merge) {
      if j < |front| {
        assert news[j] == front[j];
        StoredOther(r0, r, rows, key, front[j], merge, i1);
      } else {
        assert news[j] == n;
      }
    }
  }

  lemma UpdateMerges<R, K>(r0: seq<R>, r: seq<R>, rows: seq<R>, key: R -> K, front: seq<R>, n: R, merge: (R, R) -> R, i1: nat)
    requires i1 < |r0| && r == r0[i1 := merge(r0[i1], n)]
    requires i1 < |rows| <= |r0| && r0[i1] == rows[i1] && key(rows[i1]) == key(n)
    requires forall i :: 0 <= i < |rows| ==> r0[i] == rows[i] || Merged(rows[i], r0[i], key, front, merge)
    ensures forall i :: 0 <= i < |rows| ==> r[i] == rows[i] || Merged(rows[i], r[i], key, front + [n], merge)
  {
    var news := front + [n];
    forall i | 0 <= i < |rows| && r[i] != rows[i] ensures Merged(rows[i], r[i], key, news, merge) {
      if i == i1 {
        assert news[|front|] == n;
      } else {
        MergedMore(rows[i], r0[i], key, front, n, merge);
      }
    }
  }

  /** A merge with an earlier new row is a merge with one of the longer list. */
  lemma MergedMore<R, K>(before: R, after: R, key: R -> K, front: seq<R>, n: R, merge: (R, R) -> R)
    requires Merged(before, after, key, front, merge)
    ensures Merged(before, after, key, front + [n], merge)
  {
    var j :| 0 <= j < |front| && key(front[j]) == key(before) && after == merge(before, front[j]);
    assert (front + [n])[j] == front[j];
  }

  /** Appending a row keeps what the table stored. */
  lemma StoredKept<R, K>(r0: seq<R>, r: seq<R>, rows: seq<R>, key: R -> K, m: R, merge: (R, R) -> R)
    requires |r0| <= |r| && r[..|r0|] == r0
    requires Stored(r0, rows, key, m, merge)
    ensures Stored(r, rows, key, m, merge)
  {
    var i :| 0 <= i < |r0| && key(r0[i]) == key(m)
      && r0[i] == match FindKey(rows, key, key(m)) case None => m case Some(i0) => merge(rows[i0], m);
    assert r[i] == r0[i];
  }

  /** Updating the row at `i1` keeps what the table stored under another key. */
  lemma StoredOther<R, K>(r0: seq<R>, r: seq<R>, rows: seq<R>, key: R -> K, m: R, merge: (R, R) -> R, i1: nat)
    requires i1 < |r0| == |r| && forall i :: 0 <= i < |r0| && i != i1 ==> r[i] == r0[i]
    requires Stored(r0, rows, key, m, merge) && key(m) != key(r0[i1])
    ensures Stored(r, rows, key, m, merge)
  {
    var i :| 0 <= i < |r0| && key(r0[i]) == key(m)
      && r0[i] == match FindKey(rows, key, key(m)) case None => m case Some(i0) => merge(rows[i0], m);
    assert r[i] == r0[i];
  }

  // ------------------------------------------------------------- counting

  /** `queryset.filter(...).count()`: how many rows satisfy `p`. */
  function Count<T>(xs: seq<T>, p: T -> bool): (r: nat)
    ensures r <= |xs|
    ensures r == 0 <==> forall i :: 0 <= i < |xs| ==> !p(xs[i])
    ensures r == |xs| <==> forall i :: 0 <= i < |xs| ==> p(xs[i])
  {
    if xs == [] then 0
    else
      assert forall i :: 1 <= i < |xs| ==> xs[i] == xs[1..][i - 1];
      (if p(xs[0]) then 1 else 0) + Count(xs[1..], p)
  }

  /** Every position one further on. */
  function Shifted(r: seq<nat>): (s: seq<nat>)
    ensures |s| == |r| && forall k :: 0 <= k < |r| ==> s[k] == r[k] + 1
  {
    seq(|r|, k requires 0 <= k < |r| => r[k] + 1)
  }

  /** The positions of the rows satisfying `p`, in order. */
  function Where<T>(xs: seq<T>, p: T -> bool): (r: seq<nat>)
    ensures forall k :: 0 <= k < |r| ==> r[k] < |xs| && p(xs[r[k]])
    ensures forall i :: 0 <= i < |xs| && p(xs[i]) ==> i in r
    ensures forall a, b :: 0 <= a < b < |r| ==> r[a] < r[b]
  {
    if xs == [] then []
    else
      var rest := Where(xs[1..], p);
      WhereShifted(xs, p, rest);
      if p(xs[0]) then [0] + Shifted(rest) else Shifted(rest)
  }

  /** The positions in the tail, one further on, are positions in `xs`. */
  lemma WhereShifted<T>(xs: seq<T>, p: T -> bool, rest: seq<nat>)
    requires xs != []
    requires forall k :: 0 <= k < |rest| ==> rest[k] < |xs| - 1 && p(xs[1..][rest[k]])
    requires forall i :: 0 <= i < |xs| - 1 && p(xs[1..][i]) ==> i in rest
    requires forall a, b :: 0 <= a < b < |rest| ==> rest[a] < rest[b]
    ensures forall k :: 0 <= k < |rest| ==> Shifted(rest)[k] < |xs| && p(xs[Shifted(rest)[k]])
    ensures forall i :: 1 <= i < |xs| && p(xs[i]) ==> i in Shifted(rest)
    ensures forall a, b :: 0 <= a < b < |rest| + 1 ==> ([0] + Shifted(rest))[a] < ([0] + Shifted(rest))[b]
  {
    var sh := Shifted(rest);
    forall k | 0 <= k < |rest| ensures sh[k] < |xs| && p(xs[sh[k]]) {
      assert xs[sh[k]] == xs[1..][rest[k]];
    }
    ShiftedCovers(xs, p, rest);
    ShiftedAscending(rest);
  }

  lemma ShiftedCovers<T>(xs: seq<T>, p: T -> bool, rest: seq<nat>)
    requires xs != []
    requires forall i :: 0 <= i < |xs| - 1 && p(xs[1..][i]) ==> i in rest
    ensures forall i :: 1 <= i < |xs| && p(xs[i]) ==> i in Shifted(rest)
  {
    var sh := Shifted(rest);
    forall i | 1 <= i < |xs| && p(xs[i]) ensures i in sh {
      assert xs[1..][i - 1] == xs[i];
      var k :| 0 <= k < |rest| && rest[k] == i - 1;
      assert sh[k] == i;
    }
  }

  lemma ShiftedAscending(rest: seq<nat>)
    requires forall a, b :: 0 <= a < b < |rest| ==> rest[a] < rest[b]
    ensures forall a, b :: 0 <= a < b < |rest| + 1 ==> ([0] + Shifted(rest))[a] < ([0] + Shifted(rest))[b]
  {
    var sh := Shifted(rest);
    var r := [0] + sh;
    forall a, b | 0 <= a < b < |r| ensures r[a] < r[b] {
      assert r[b] == sh[b - 1];
      if a > 0 {
        assert r[a] == sh[a - 1];
      }
    }
  }

  /** `queryset.filter(...)`: the rows that satisfy `p`, in order. */
  function Filter<T>(xs: seq<T>, p: T -> bool): (r: seq<T>)
    ensures |r| == Count(xs, p)
    ensures forall i :: 0 <= i < |r| ==> r[i] in xs && p(r[i])
    ensures forall i :: 0 <= i < |xs| && p(xs[i]) ==> xs[i] in r
  {
    if xs == [] then []
    else
      var rest := Filter(xs[1..], p);
      assert forall i :: 1 <= i < |xs| ==> xs[i] == xs[1..][i - 1];
      assert forall i :: 0 <= i < |rest| ==> rest[i] in xs[1..];
      (if p(xs[0]) then [xs[0]] else []) + rest
  }

  /** A filter that implies another counts no more rows. */
  lemma {:induction false} CountImplies<T>(xs: seq<T>, p: T -> bool, q: T -> bool)
    requires forall i :: 0 <= i < |xs| && p(xs[i]) ==> q(xs[i])
    ensures Count(xs, p) <= Count(xs, q)
  {
    if xs != [] {
      assert forall i :: 1 <= i < |xs| ==> xs[i] == xs[1..][i - 1];
      CountImplies(xs[1..], p, q);
    }
  }

  lemma {:induction false} CountAppend<T>(xs: seq<T>, ys: seq<T>, p: T -> bool)
    ensures Count(xs + ys, p) == Count(xs, p) + Count(ys, p)
  {
    if xs == [] {
      assert xs + ys == ys;
    } else {
      assert (xs + ys)[1..] == xs[1..] + ys;
      CountAppend(xs[1..], ys, p);
    }
  }
}
