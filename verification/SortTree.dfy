/** The sector-sorted trees of the I/O schedulers (elevator.c, elv_rb_add, elv_rb_del,
    elv_rb_find), as sequences of request identities in tree order. */
module SortTree {
  import opened Lists
  import opened Options

  /** Where each request starts. */
  type Positions = map<nat, nat>

  /** A tree holds no two requests at one sector. */
  ghost predicate Sorted(pos: Positions, t: seq<nat>) {
    && (forall i | 0 <= i < |t| :: t[i] in pos)
    && (forall i, j | 0 <= i < j < |t| :: pos[t[i]] < pos[t[j]])
  }

  /** How many requests start before `s`. */
  function Lower(pos: Positions, t: seq<nat>, s: nat): (r: nat)
    requires Sorted(pos, t)
    ensures r <= |t|
    ensures forall i | 0 <= i < r :: pos[t[i]] < s
    ensures forall i | r <= i < |t| :: pos[t[i]] >= s
  {
    if t == [] then 0
    else if pos[t[|t|-1]] < s then |t|
    else Lower(pos, t[..|t|-1], s)
  }

  /** The request that starts at `s`. */
  function At(pos: Positions, t: seq<nat>, s: nat): (r: Option<nat>)
    requires Sorted(pos, t)
    ensures r == None ==> forall x | x in t :: pos[x] != s
    ensures r.Some? ==> r.value in t && pos[r.value] == s
  {
    var i := Lower(pos, t, s);
    if i < |t| && pos[t[i]] == s then Some(t[i]) else None
  }

  /** The tree with `x` put in its place. */
  function Added(pos: Positions, t: seq<nat>, x: nat): seq<nat>
    requires Sorted(pos, t) && x in pos
  {
    Inserted(t, Lower(pos, t, pos[x]), x)
  }

  lemma SortedNoDup(pos: Positions, t: seq<nat>)
    requires Sorted(pos, t)
    ensures NoDup(t)
  {}

  lemma AddedSorted(pos: Positions, t: seq<nat>, x: nat)
    requires Sorted(pos, t) && x in pos && At(pos, t, pos[x]) == None
    ensures Sorted(pos, Added(pos, t, x))
    ensures forall y :: y in Added(pos, t, x) <==> y in t || y == x
  {
    var p := Lower(pos, t, pos[x]);
    InsertedMembers(t, p, x);
    var r := Inserted(t, p, x);
    forall i | 0 <= i < |r| ensures r[i] in pos {
      assert i != p ==> r[i] == t[if i < p then i else i - 1];
    }
    forall i, j | 0 <= i < j < |r| ensures pos[r[i]] < pos[r[j]] {
      assert i != p ==> r[i] == t[if i < p then i else i - 1];
      assert j != p ==> r[j] == t[if j < p then j else j - 1];
      if i == p { assert t[j-1] in t; }
    }
  }

  lemma DeletedSorted(pos: Positions, t: seq<nat>, x: nat)
    requires Sorted(pos, t) && x in t
    ensures Sorted(pos, Without(t, x))
    ensures forall y :: y in Without(t, x) <==> y in t && y != x
  {}

  /** Positions of requests outside the tree do not matter. */
  lemma SortedFrame(pos: Positions, pos': Positions, t: seq<nat>)
    requires Sorted(pos, t) && forall x | x in t :: x in pos' && pos'[x] == pos[x]
    ensures Sorted(pos', t)
  {}
}
