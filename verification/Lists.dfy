/** The list operations that the block layer and the crypto registry share. */
module Lists {

  ghost predicate NoDup<T>(q: seq<T>) {
    forall i, j | 0 <= i < j < |q| :: q[i] != q[j]
  }

  function Inserted<T>(q: seq<T>, p: nat, x: T): (r: seq<T>)
    requires p <= |q|
    ensures |r| == |q| + 1 && r[p] == x
    ensures forall i | 0 <= i < p :: r[i] == q[i]
    ensures forall i | p < i < |r| :: r[i] == q[i-1]
  {
    q[..p] + [x] + q[p..]
  }

  function IndexOf<T(==)>(q: seq<T>, x: T): (i: nat)
    requires x in q
    ensures i < |q| && q[i] == x && x !in q[..i]
  {
    if q[0] == x then 0 else 1 + IndexOf(q[1..], x)
  }

  function Without<T(==)>(q: seq<T>, x: T): seq<T>
    requires x in q
  {
    var i := IndexOf(q, x); q[..i] + q[i+1..]
  }

  lemma InsertedMembers<T>(q: seq<T>, p: nat, x: T)
    requires p <= |q|
    ensures forall y :: y in Inserted(q, p, x) <==> y in q || y == x
    ensures NoDup(q) && x !in q ==> NoDup(Inserted(q, p, x))
  {}

  lemma WithoutMembers<T>(q: seq<T>, x: T)
    requires x in q && NoDup(q)
    ensures forall y :: y in Without(q, x) <==> y in q && y != x
    ensures NoDup(Without(q, x))
  {}

  /** Taking out what was put in. */
  lemma WithoutInserted<T>(q: seq<T>, p: nat, x: T)
    requires p <= |q| && x !in q
    ensures x in Inserted(q, p, x) && Without(Inserted(q, p, x), x) == q
  {
    assert Inserted(q, p, x)[p] == x;
  }

  lemma Assoc<T>(a: seq<T>, b: seq<T>, c: seq<T>)
    ensures a + (b + c) == (a + b) + c
  {}

  lemma Prepended<T>(x: T, s: seq<T>)
    ensures |[x] + s| == |s| + 1 && forall y :: y in [x] + s <==> y == x || y in s
    ensures NoDup(s) && x !in s ==> NoDup([x] + s)
  {}

  lemma NoDupAppend<T>(a: seq<T>, b: seq<T>)
    requires NoDup(a) && NoDup(b) && forall x :: !(x in a && x in b)
    ensures NoDup(a + b)
  {
    var s := a + b;
    forall i, j | 0 <= i < j < |s| ensures s[i] != s[j] {
      if i < |a| <= j {
        assert s[i] in a && s[j] in b;
      }
    }
  }

  /** The list with `x` moved behind `y`. */
  function MovedAfter<T(==)>(q: seq<T>, x: T, y: T): seq<T>
    requires x in q && y in Without(q, x)
  {
    var w := Without(q, x);
    Inserted(w, IndexOf(w, y) + 1, x)
  }

  /** `q` with `x` where `y` was. */
  function InPlaceOf<T(==)>(q: seq<T>, y: T, x: T): (r: seq<T>)
    ensures |r| == |q| && forall i | 0 <= i < |q| :: r[i] == if q[i] == y then x else q[i]
  {
    seq(|q|, i requires 0 <= i < |q| => if q[i] == y then x else q[i])
  }

  /** Moving `x` behind `y` and taking `y` out puts `x` in the place of `y`. */
  lemma TakesPlace<T>(q: seq<T>, x: T, y: T)
    requires NoDup(q) && x in q && y in Without(q, x)
    ensures y in MovedAfter(q, x, y) && Without(MovedAfter(q, x, y), y) == InPlaceOf(Without(q, x), y, x)
  {
    WithoutMembers(q, x);
    hide Without;
    var w := Without(q, x);
    var k := IndexOf(w, y);
    var m := MovedAfter(q, x, y);
    assert m[k] == y && m[k+1] == x;
    MovedMembers(q, x, y);
    WithoutAt(m, y, k);
    var r := Without(m, y);
    forall i | 0 <= i < |w| ensures r[i] == InPlaceOf(w, y, x)[i] {
      assert i != k ==> w[i] != y;
    }
  }

  lemma WithoutAt<T>(q: seq<T>, y: T, k: nat)
    requires NoDup(q) && k < |q| && q[k] == y
    ensures |Without(q, y)| == |q| - 1 && forall i | 0 <= i < |q| - 1 :: Without(q, y)[i] == q[if i < k then i else i + 1]
  {
    assert IndexOf(q, y) == k;
  }

  lemma MovedMembers<T>(q: seq<T>, x: T, y: T)
    requires NoDup(q) && x in q && y in q && x != y && y in Without(q, x)
    ensures NoDup(MovedAfter(q, x, y)) && forall z :: z in MovedAfter(q, x, y) <==> z in q
  {
    WithoutMembers(q, x);
    var w := Without(q, x);
    InsertedMembers(w, IndexOf(w, y) + 1, x);
  }

  ghost function AsSet<T>(s: seq<T>): set<T> {
    set x | x in s
  }

  lemma {:induction false} NoDupCard<T>(s: seq<T>)
    requires NoDup(s)
    ensures |AsSet(s)| == |s|
    decreases |s|
  {
    if s != [] {
      var n := |s| - 1;
      NoDupCard(s[..n]);
      assert AsSet(s) == AsSet(s[..n]) + {s[n]};
    }
  }
}
