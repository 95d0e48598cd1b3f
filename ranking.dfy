/** `order_by('-key')[:n]`: rows sorted by a numeric key, largest first,
    and the first `n` of them. The database leaves the order of rows with
    equal keys open; the insertion sort here puts them in reverse input
    order. */
module Ranking {
  /** Non-increasing by `key`. */
  predicate Descending<T>(xs: seq<T>, key: T -> real) {
    forall i, j :: 0 <= i < j < |xs| ==> key(xs[i]) >= key(xs[j])
  }

  /** `x` placed before the first row whose key is smaller. */
  function Insert<T>(x: T, xs: seq<T>, key: T -> real): (r: seq<T>)
    requires Descending(xs, key)
    ensures multiset(r) == multiset(xs) + multiset{x}
    ensures Descending(r, key)
  {
    if xs == [] then [x]
    else if key(xs[0]) < key(x) then [x] + xs
    else
      var rest := Insert(x, xs[1..], key);
      assert xs == [xs[0]] + xs[1..];
      InsertBehind(x, xs, rest, key);
      [xs[0]] + rest
  }

  /** Inserting `x` behind the first row, whose key is not smaller, keeps
      that row in front of a descending rest. */
  lemma InsertBehind<T>(x: T, xs: seq<T>, rest: seq<T>, key: T -> real)
    requires xs != [] && Descending(xs, key) && key(xs[0]) >= key(x)
    requires multiset(rest) == multiset(xs[1..]) + multiset{x} && Descending(rest, key)
    ensures Descending([xs[0]] + rest, key)
  {
    var r := [xs[0]] + rest;
    forall i | 0 <= i < |rest| ensures key(xs[0]) >= key(rest[i]) {
      assert rest[i] in multiset(rest);
      if rest[i] != x {
        assert rest[i] in multiset(xs[1..]);
        var j :| 0 <= j < |xs[1..]| && xs[1..][j] == rest[i];
        assert xs[j + 1] == rest[i];
      }
    }
    forall i, j | 0 <= i < j < |r| ensures key(r[i]) >= key(r[j]) {
      assert r[j] == rest[j - 1];
      if i > 0 {
        assert r[i] == rest[i - 1];
      }
    }
  }

  /** All rows, largest key first. */
  function SortDesc<T>(xs: seq<T>, key: T -> real): (r: seq<T>)
    ensures multiset(r) == multiset(xs) && |r| == |xs|
    ensures Descending(r, key)
  {
    if xs == [] then []
    else
      assert xs == [xs[0]] + xs[1..];
      Insert(xs[0], SortDesc(xs[1..], key), key)
  }

  /** The `n` rows with the largest keys, largest first. */
  function Top<T>(xs: seq<T>, key: T -> real, n: nat): seq<T> {
    var s := SortDesc(xs, key);
    if |s| <= n then s else s[..n]
  }

  /** No row occurs twice. */
  predicate Distinct<T(==)>(xs: seq<T>) {
    forall j, k :: 0 <= j < k < |xs| ==> xs[j] != xs[k]
  }

  lemma {:induction false} DistinctOnce<T>(xs: seq<T>, x: T)
    requires Distinct(xs)
    ensures multiset(xs)[x] <= 1
  {
    if xs != [] {
      assert xs == [xs[0]] + xs[1..];
      assert forall j, k :: 0 <= j < k < |xs[1..]| ==> xs[1..][j] == xs[j + 1] && xs[1..][k] == xs[k + 1];
      DistinctOnce(xs[1..], x);
      if x == xs[0] {
        assert x !in xs[1..];
      }
    }
  }

  /** A reordering of a list without repeats has none either: sorting keeps
      rows distinct. */
  lemma Rearranged<T>(a: seq<T>, b: seq<T>)
    requires multiset(a) == multiset(b) && Distinct(a)
    ensures Distinct(b)
  {
    forall j, k | 0 <= j < k < |b| ensures b[j] != b[k] {
      if b[j] == b[k] {
        assert b == b[..k] + b[k..];
        assert b[j] in b[..k] && b[k] in b[k..];
        assert multiset(b)[b[j]] == multiset(b[..k])[b[j]] + multiset(b[k..])[b[j]];
        DistinctOnce(a, b[j]);
        assert false;
      }
    }
  }

  /** Every top row is one of the rows. */
  lemma TopFrom<T>(xs: seq<T>, key: T -> real, n: nat)
    ensures forall k :: 0 <= k < |Top(xs, key, n)| ==> Top(xs, key, n)[k] in xs
  {
    TopSpec(xs, key, n);
    var r := Top(xs, key, n);
    var m := multiset(Rest(xs, key, n));
    assert multiset(xs) == multiset(r) + m;
    forall k | 0 <= k < |r| ensures r[k] in xs {
      assert r[k] in multiset(r);
      assert r[k] in multiset(xs);
    }
  }

  /** The rows `Top` leaves out. */
  function Rest<T>(xs: seq<T>, key: T -> real, n: nat): seq<T> {
    var s := SortDesc(xs, key);
    if |s| <= n then [] else s[n..]
  }

  /** The top rows are at most `n` of the rows, largest first; with the
      rows left out they make up all the rows, and no row left out has a
      larger key than a row kept. */
  lemma TopSpec<T>(xs: seq<T>, key: T -> real, n: nat)
    ensures var r := Top(xs, key, n);
      |r| == (if |xs| <= n then |xs| else n) && Descending(r, key)
      && multiset(xs) == multiset(r) + multiset(Rest(xs, key, n))
      && forall i, j :: 0 <= i < |r| && 0 <= j < |Rest(xs, key, n)| ==> key(Rest(xs, key, n)[j]) <= key(r[i])
  {
    var s := SortDesc(xs, key);
    if |s| > n {
      CutDescending(s, key, n);
    } else {
      assert multiset(Rest(xs, key, n)) == multiset{};
    }
  }

  /** Cutting a descending sequence after `n` rows leaves a descending
      head, all of whose keys are at least those of the tail. */
  lemma CutDescending<T>(s: seq<T>, key: T -> real, n: nat)
    requires Descending(s, key) && n < |s|
    ensures multiset(s) == multiset(s[..n]) + multiset(s[n..]) && Descending(s[..n], key)
    ensures forall i, j :: 0 <= i < n && 0 <= j < |s| - n ==> key(s[n..][j]) <= key(s[..n][i])
  {
    assert s == s[..n] + s[n..];
    forall i, j | 0 <= i < n && 0 <= j < |s| - n ensures key(s[n..][j]) <= key(s[..n][i]) {
      assert s[n..][j] == s[n + j] && s[..n][i] == s[i];
    }
  }
}
