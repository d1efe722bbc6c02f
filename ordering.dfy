/**
 * Python's `sorted(xs, key=k, reverse=True)`: a stable sort by descending
 * key. Elements with equal keys keep their input order.
 */
module Ordering {

  /** An element with its sort key and its position in the input. */
  datatype Keyed<T> = Keyed(item: T, key: real, pos: nat)

  /** `a` is output before `b`: a larger key, or an equal key and an earlier input position. */
  predicate Precedes<T>(a: Keyed<T>, b: Keyed<T>) {
    a.key > b.key || (a.key == b.key && a.pos < b.pos)
  }

  /** Every element precedes every later one. */
  predicate Chain<T>(s: seq<Keyed<T>>) {
    forall i, j | 0 <= i < j < |s| :: Precedes(s[i], s[j])
  }

  function Items<T>(s: seq<Keyed<T>>): (r: seq<T>)
    ensures |r| == |s|
    ensures forall j | 0 <= j < |s| :: r[j] == s[j].item
  {
    seq(|s|, j requires 0 <= j < |s| => s[j].item)
  }

  /** Inserts `e` after every element that does not come after it. */
  function Insert<T>(e: Keyed<T>, s: seq<Keyed<T>>): (r: seq<Keyed<T>>)
    requires Chain(s)
    requires forall j | 0 <= j < |s| :: s[j].pos < e.pos
    ensures |r| == |s| + 1
    ensures multiset(r) == multiset(s) + multiset{e}
    ensures forall j | 0 <= j < |r| :: r[j] == e || r[j] in s
    ensures Chain(r)
  {
    if s == [] then [e]
    else if s[0].key >= e.key then
      var rest := Insert(e, s[1..]);
      InsertBehind(e, s, rest);
      [s[0]] + rest
    else
      assert forall j | 0 <= j < |s| :: Precedes(e, s[j]) by {
        forall j | 0 <= j < |s| ensures Precedes(e, s[j]) {
          if j > 0 {
            assert Precedes(s[0], s[j]);
          }
        }
      }
      ConsChain(e, s);
      [e] + s
  }

  /** When the head does not come after `e`, it can head the tail with `e` inserted. */
  lemma InsertBehind<T>(e: Keyed<T>, s: seq<Keyed<T>>, rest: seq<Keyed<T>>)
    requires s != [] && Chain(s) && s[0].key >= e.key
    requires forall j | 0 <= j < |s| :: s[j].pos < e.pos
    requires multiset(rest) == multiset(s[1..]) + multiset{e}
    requires forall j | 0 <= j < |rest| :: rest[j] == e || rest[j] in s[1..]
    requires Chain(rest)
    ensures multiset([s[0]] + rest) == multiset(s) + multiset{e}
    ensures forall j | 0 <= j < |rest| + 1 :: ([s[0]] + rest)[j] == e || ([s[0]] + rest)[j] in s
    ensures Chain([s[0]] + rest)
  {
    assert s == [s[0]] + s[1..];
    forall j | 0 <= j < |rest| ensures Precedes(s[0], rest[j]) {
      if rest[j] != e {
        var k :| 0 <= k < |s[1..]| && s[1..][k] == rest[j];
        assert s[k + 1] == rest[j];
      }
    }
    ConsChain(s[0], rest);
  }

  /** An element that precedes every element of a chain can head it. */
  lemma ConsChain<T>(h: Keyed<T>, t: seq<Keyed<T>>)
    requires Chain(t)
    requires forall j | 0 <= j < |t| :: Precedes(h, t[j])
    ensures Chain([h] + t)
  {
    var r := [h] + t;
    forall i, j | 0 <= i < j < |r| ensures Precedes(r[i], r[j]) {
      if i > 0 {
        assert r[i] == t[i - 1] && r[j] == t[j - 1];
      }
    }
  }

  /** The elements `0 .. n-1` of the input, tagged with their keys and positions. */
  function Indexed<T>(xs: seq<T>, ks: seq<real>, n: nat): (r: seq<Keyed<T>>)
    requires n <= |xs| == |ks|
    ensures |r| == n
    ensures forall j | 0 <= j < n :: r[j] == Keyed(xs[j], ks[j], j)
  {
    seq(n, j requires 0 <= j < n => Keyed(xs[j], ks[j], j))
  }

  /** Insertion sort of the first `n` elements, each inserted after all those before it. */
  function SortPrefix<T>(xs: seq<T>, ks: seq<real>, n: nat): (r: seq<Keyed<T>>)
    requires n <= |xs| == |ks|
    ensures multiset(r) == multiset(Indexed(xs, ks, n))
    ensures forall j | 0 <= j < |r| :: r[j].pos < n && r[j] == Keyed(xs[r[j].pos], ks[r[j].pos], r[j].pos)
    ensures Chain(r)
  {
    if n == 0 then []
    else
      var prev := SortPrefix(xs, ks, n - 1);
      InsertNext(xs, ks, n, prev);
      Insert(Keyed(xs[n - 1], ks[n - 1], n - 1), prev)
  }

  /** Inserting element `n-1` into the sorted first `n-1` elements sorts the first `n`. */
  lemma InsertNext<T>(xs: seq<T>, ks: seq<real>, n: nat, prev: seq<Keyed<T>>)
    requires 0 < n <= |xs| == |ks|
    requires multiset(prev) == multiset(Indexed(xs, ks, n - 1))
    requires forall j | 0 <= j < |prev| :: prev[j].pos < n - 1 && prev[j] == Keyed(xs[prev[j].pos], ks[prev[j].pos], prev[j].pos)
    requires Chain(prev)
    ensures var r := Insert(Keyed(xs[n - 1], ks[n - 1], n - 1), prev);
            && multiset(r) == multiset(Indexed(xs, ks, n))
            && (forall j | 0 <= j < |r| :: r[j].pos < n && r[j] == Keyed(xs[r[j].pos], ks[r[j].pos], r[j].pos))
  {
    var e := Keyed(xs[n - 1], ks[n - 1], n - 1);
    var r := Insert(e, prev);
    assert Indexed(xs, ks, n) == Indexed(xs, ks, n - 1) + [e];
    forall j | 0 <= j < |r| ensures r[j].pos < n && r[j] == Keyed(xs[r[j].pos], ks[r[j].pos], r[j].pos) {
      if r[j] != e {
        var k :| 0 <= k < |prev| && prev[k] == r[j];
      }
    }
  }

  /** `sorted(xs, key=..., reverse=True)`, with the keys given position by position. */
  function SortDesc<T>(xs: seq<T>, ks: seq<real>): (r: seq<Keyed<T>>)
    requires |xs| == |ks|
    ensures |r| == |xs|
    ensures forall j | 0 <= j < |r| :: r[j].pos < |xs| && r[j] == Keyed(xs[r[j].pos], ks[r[j].pos], r[j].pos)
    ensures Chain(r)
  {
    var r := SortPrefix(xs, ks, |xs|);
    assert |r| == |multiset(r)| == |multiset(Indexed(xs, ks, |xs|))| == |xs|;
    r
  }

  /** Every input position occurs in the sorted sequence. */
  lemma SortDescCovers<T>(xs: seq<T>, ks: seq<real>, i: nat)
    requires |xs| == |ks| && i < |xs|
    ensures exists j | 0 <= j < |xs| :: SortDesc(xs, ks)[j].pos == i
  {
    var r := SortDesc(xs, ks);
    var t := Indexed(xs, ks, |xs|);
    assert r == SortPrefix(xs, ks, |xs|);
    assert t[i] in multiset(t);
    assert t[i] in r;
  }

  /** No input position occurs twice in the sorted sequence. */
  lemma SortDescInjective<T>(xs: seq<T>, ks: seq<real>)
    requires |xs| == |ks|
    ensures forall j, k | 0 <= j < k < |xs| :: SortDesc(xs, ks)[j].pos != SortDesc(xs, ks)[k].pos
  {
    var r := SortDesc(xs, ks);
    forall j, k | 0 <= j < k < |xs| ensures r[j].pos != r[k].pos {
      assert Precedes(r[j], r[k]);
    }
  }

  /**
   * What the output order means: keys do not increase, and among equal
   * keys the input order is kept.
   */
  lemma SortDescOrdered<T>(xs: seq<T>, ks: seq<real>, j: nat, k: nat)
    requires |xs| == |ks| && j < k < |xs|
    ensures SortDesc(xs, ks)[j].key >= SortDesc(xs, ks)[k].key
    ensures SortDesc(xs, ks)[j].key == SortDesc(xs, ks)[k].key ==> SortDesc(xs, ks)[j].pos < SortDesc(xs, ks)[k].pos
  {
    assert Precedes(SortDesc(xs, ks)[j], SortDesc(xs, ks)[k]);
  }
}
