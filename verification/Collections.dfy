/** Facts about sequences, finite sets and finite maps that the kernel proofs share. */
module Collections {

  ghost predicate Distinct<T>(q: seq<T>) {
    forall i, j :: 0 <= i < j < |q| ==> q[i] != q[j]
  }

  /** The elements of q that are not in gone, in the order of q. */
  ghost function Minus<T>(q: seq<T>, gone: set<T>): (r: seq<T>)
    ensures forall x | x in r :: x in q && x !in gone
    ensures forall x | x in q && x !in gone :: x in r
    ensures Distinct(q) ==> Distinct(r)
  {
    if q == [] then []
    else if q[0] in gone then Minus(q[1..], gone)
    else [q[0]] + Minus(q[1..], gone)
  }

  ghost function Elements<T>(q: seq<T>): (r: set<T>)
    ensures forall x | x in r :: x in q
    ensures forall x | x in q :: x in r
  {
    set x | x in q
  }

  lemma {:induction false} MinusUntouched<T>(q: seq<T>, gone: set<T>)
    requires forall x :: x in q ==> x !in gone
    ensures Minus(q, gone) == q
  {
    if q != [] {
      MinusUntouched(q[1..], gone);
    }
  }

  lemma {:induction false} MinusTwice<T>(q: seq<T>, d: set<T>, e: set<T>)
    ensures Minus(Minus(q, d), e) == Minus(q, d + e)
  {
    if q != [] {
      MinusTwice(q[1..], d, e);
      if q[0] !in d {
        assert Minus(q, d)[1..] == Minus(q[1..], d);
      }
    }
  }

  lemma {:induction false} MinusConcat<T>(q: seq<T>, r: seq<T>, gone: set<T>)
    ensures Minus(q + r, gone) == Minus(q, gone) + Minus(r, gone)
  {
    if q == [] {
      assert q + r == r;
    } else {
      MinusConcat(q[1..], r, gone);
      assert (q + r)[1..] == q[1..] + r;
    }
  }

  lemma MinusOne<T>(x: T)
    ensures Minus([x], {x}) == []
  {
  }

  lemma DistinctAround<T>(q: seq<T>, k: nat)
    requires Distinct(q) && k < |q|
    ensures q[k] !in q[..k] && q[k] !in q[k + 1..]
  {
  }

  /** Deleting one element of a duplicate-free sequence cuts it out and closes the gap. */
  lemma MinusAt<T>(q: seq<T>, k: nat)
    requires Distinct(q) && k < |q|
    ensures Minus(q, {q[k]}) == q[..k] + q[k + 1..]
  {
    hide Minus, Distinct;
    var l, x, r := q[..k], q[k], q[k + 1..];
    DistinctAround(q, k);
    assert q == (l + [x]) + r;
    MinusConcat(l + [x], r, {x});
    MinusConcat(l, [x], {x});
    MinusOne(x);
    MinusUntouched(l, {x});
    MinusUntouched(r, {x});
    assert l + [] == l;
  }

  /** Survivors keep their relative order. */
  ghost predicate Before<T>(q: seq<T>, x: T, y: T) {
    exists i, j :: 0 <= i < j < |q| && q[i] == x && q[j] == y
  }

  lemma BeforeAcross<T>(l: seq<T>, r: seq<T>, x: T, y: T)
    requires x in l && y in r
    ensures Before(l + r, x, y)
  {
    var i :| 0 <= i < |l| && l[i] == x;
    var j :| 0 <= j < |r| && r[j] == y;
    assert (l + r)[i] == x && (l + r)[|l| + j] == y;
  }

  lemma MinusKeepsOrder<T>(q: seq<T>, gone: set<T>, x: T, y: T)
    requires Before(q, x, y) && x !in gone && y !in gone
    ensures Before(Minus(q, gone), x, y)
  {
    hide Minus;
    var i, j :| 0 <= i < j < |q| && q[i] == x && q[j] == y;
    var l, r := q[..j], q[j..];
    assert q == l + r && l[i] == x && r[0] == y;
    MinusConcat(l, r, gone);
    BeforeAcross(Minus(l, gone), Minus(r, gone), x, y);
  }

  lemma {:induction false} DistinctSize<T>(q: seq<T>)
    requires Distinct(q)
    ensures |Elements(q)| == |q|
  {
    if q != [] {
      DistinctSize(q[1..]);
      assert Elements(q) == Elements(q[1..]) + {q[0]};
    }
  }

  lemma {:induction false} SubsetSize<T>(a: set<T>, b: set<T>)
    requires a <= b
    ensures |a| <= |b|
    ensures |a| == |b| ==> a == b
  {
    assert b == a + (b - a);
  }

  /** An injective image of a finite set has as many elements as the set. */
  lemma {:induction false} InjectiveImageSize<K, T>(keys: set<K>, f: map<K, T>, image: set<T>)
    requires keys <= f.Keys
    requires forall a, b :: a in keys && b in keys && a != b ==> f[a] != f[b]
    requires forall a :: a in keys ==> f[a] in image
    ensures |keys| <= |image|
  {
    if keys != {} {
      var a :| a in keys;
      InjectiveImageSize(keys - {a}, f, image - {f[a]});
    }
  }

  /** Sum of the values of a map. */
  ghost function Sum<K>(m: map<K, int>): int
    decreases |m|
  {
    if m == map[] then 0
    else
      var k :| k in m;
      assert m - {k} != m by { assert k !in m - {k}; }
      assert |m - {k}| < |m| by { assert (m - {k}).Keys == m.Keys - {k}; }
      m[k] + Sum(m - {k})
  }

  lemma {:induction false} SumPick<K>(m: map<K, int>, k: K)
    requires k in m
    ensures Sum(m) == m[k] + Sum(m - {k})
    decreases |m|
  {
    var c :| c in m && Sum(m) == m[c] + Sum(m - {c});
    if c != k {
      assert (m - {c}).Keys == m.Keys - {c};
      assert (m - {k}).Keys == m.Keys - {k};
      SumPick(m - {c}, k);
      SumPick(m - {k}, c);
      assert m - {c} - {k} == m - {k} - {c};
    }
  }

  lemma SumUpdate<K>(m: map<K, int>, k: K, v: int)
    ensures k in m ==> Sum(m[k := v]) == Sum(m) - m[k] + v
    ensures k !in m ==> Sum(m[k := v]) == Sum(m) + v
  {
    SumPick(m[k := v], k);
    if k in m {
      SumPick(m, k);
      assert m[k := v] - {k} == m - {k};
    } else {
      assert m[k := v] - {k} == m;
    }
  }

  /** Dropping entries of a map with non-negative values cannot raise the sum. */
  lemma {:induction false} SumDrop<K>(m: map<K, int>, gone: set<K>)
    requires forall k :: k in m ==> m[k] >= 0
    ensures Sum(m - gone) <= Sum(m)
    decreases gone
  {
    if gone == {} {
      assert m - gone == m;
    } else {
      var k :| k in gone;
      if k in m {
        SumPick(m, k);
      } else {
        assert m - {k} == m;
      }
      SumDrop(m - {k}, gone - {k});
      assert m - gone == m - {k} - (gone - {k});
    }
  }
}
