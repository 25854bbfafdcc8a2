/** Sequences without repetition and their reversal, chains of linked nodes, and counting the entries of a map. */
module Collections {

  predicate Distinct<T(==)>(xs: seq<T>) {
    forall i, j :: 0 <= i < j < |xs| ==> xs[i] != xs[j]
  }

  lemma DistinctInsert<T>(xs: seq<T>, k: nat, x: T)
    requires Distinct(xs) && x !in xs && k <= |xs|
    ensures Distinct(xs[..k] + [x] + xs[k..])
    ensures forall y :: y in xs[..k] + [x] + xs[k..] <==> y == x || y in xs
  {
    assert xs == xs[..k] + xs[k..];
  }

  lemma DistinctParts<T>(xs: seq<T>, ys: seq<T>)
    requires Distinct(xs + ys)
    ensures Distinct(xs) && Distinct(ys) && forall x :: x in xs ==> x !in ys
  {
    assert forall i | 0 <= i < |xs| :: xs[i] == (xs + ys)[i];
    assert forall j | 0 <= j < |ys| :: ys[j] == (xs + ys)[|xs| + j];
    forall i, j | 0 <= i < |xs| && 0 <= j < |ys|
      ensures xs[i] != ys[j]
    {
      assert (xs + ys)[i] == xs[i] && (xs + ys)[|xs| + j] == ys[j];
    }
  }

  // ---- reversal ----

  function Reversed<T>(xs: seq<T>): seq<T> {
    if xs == [] then [] else Reversed(xs[1..]) + [xs[0]]
  }

  lemma {:induction false} ReversedLength<T>(xs: seq<T>)
    ensures |Reversed(xs)| == |xs|
  {
    if xs != [] { ReversedLength(xs[1..]); }
  }

  lemma {:induction false} ReversedMembers<T>(xs: seq<T>)
    ensures forall x :: x in Reversed(xs) <==> x in xs
  {
    if xs != [] {
      ReversedMembers(xs[1..]);
      assert xs == [xs[0]] + xs[1..];
    }
  }

  lemma {:induction false} ReversedSnoc<T>(xs: seq<T>, x: T)
    ensures Reversed(xs + [x]) == [x] + Reversed(xs)
  {
    if xs != [] {
      assert (xs + [x])[1..] == xs[1..] + [x];
      ReversedSnoc(xs[1..], x);
    } else {
      assert [x][1..] == [];
    }
  }

  // ---- chains of nodes ----

  /** From p, the links lead through the nodes `ch` to the null pointer. */
  ghost predicate Linked<T>(next: map<T, T>, nil: T, p: T, ch: seq<T>)
    decreases |ch|
  {
    if ch == [] then p == nil
    else p == ch[0] && p != nil && p in next && Linked(next, nil, next[p], ch[1..])
  }

  /** Rewriting the link of a node that is not on the chain. */
  lemma {:induction false} LinkedFrame<T>(next: map<T, T>, nil: T, n: T, to: T, p: T, ch: seq<T>)
    requires Linked(next, nil, p, ch) && n !in ch
    ensures Linked(next[n := to], nil, p, ch)
    decreases |ch|
  {
    if ch != [] { LinkedFrame(next, nil, n, to, next[p], ch[1..]); }
  }

  // ---- counting ----

  /** The keys whose entries satisfy f. */
  function Where<K(==), V>(m: map<K, V>, f: V -> bool): set<K> {
    set k | k in m && f(m[k])
  }

  /** How one update changes their number. */
  lemma WhereStep<K, V>(m: map<K, V>, f: V -> bool, k: K, v: V)
    requires k in m
    ensures |Where(m[k := v], f)| == |Where(m, f)| - (if f(m[k]) then 1 else 0) + (if f(v) then 1 else 0)
    ensures f(m[k]) ==> |Where(m, f)| > 0
  {
    var before, after := Where(m, f), Where(m[k := v], f);
    var rest := before - {k};
    assert before == if f(m[k]) then rest + {k} else rest;
    assert after == if f(v) then rest + {k} else rest;
  }

  lemma WhereNone<K, V>(m: map<K, V>, f: V -> bool)
    ensures |Where(m, f)| == 0 <==> forall k | k in m :: !f(m[k])
  {
    if |Where(m, f)| == 0 {
      assert Where(m, f) == {};
      forall k | k in m
        ensures !f(m[k])
      {
        assert k !in Where(m, f);
      }
    }
    if forall k | k in m :: !f(m[k]) { assert Where(m, f) == {}; }
  }

  lemma WhereSame<K, V>(a: map<K, V>, b: map<K, V>, f: V -> bool)
    requires a.Keys == b.Keys && forall k | k in a :: f(a[k]) == f(b[k])
    ensures Where(a, f) == Where(b, f)
  {
  }
}
