/** The service tree of CFQ (cfq-iosched.c): a search tree with a cached leftmost node.  The keys
    of linked queues change and their classes too, so nothing is said about the order; what the
    scheduler relies on is that the cache is empty or right. */
module ServiceTree {
  import opened Lists
  import opened Options

  /** A binary tree of queues. */
  datatype Tree = Leaf | Node(left: Tree, q: nat, right: Tree)

  function InOrder(t: Tree): seq<nat> {
    match t
    case Leaf => []
    case Node(l, q, r) => InOrder(l) + [q] + InOrder(r)
  }

  /** rb_first. */
  function First(t: Tree): Option<nat> {
    match t
    case Leaf => None
    case Node(l, q, _) => if l == Leaf then Some(q) else First(l)
  }

  lemma {:induction false} FirstIsFirst(t: Tree)
    ensures First(t) == if InOrder(t) == [] then None else Some(InOrder(t)[0])
    ensures t == Leaf <==> InOrder(t) == []
  {
    if t.Node? { FirstIsFirst(t.left); }
  }

  /** The new queue is linked where the descent ends; `before` says at which nodes it turns left. */
  function Linked(t: Tree, q: nat, before: nat -> bool): Tree {
    match t
    case Leaf => Node(Leaf, q, Leaf)
    case Node(l, x, r) => if before(x) then Node(Linked(l, q, before), x, r) else Node(l, x, Linked(r, q, before))
  }

  /** The descent never turned right. */
  predicate WentLeft(t: Tree, before: nat -> bool) {
    t.Node? ==> before(t.q) && WentLeft(t.left, before)
  }

  /** How many queues are left of the place where the descent ends. */
  function Rank(t: Tree, before: nat -> bool): (p: nat)
    ensures p <= |InOrder(t)|
  {
    match t
    case Leaf => 0
    case Node(l, x, r) => if before(x) then Rank(l, before) else |InOrder(l)| + 1 + Rank(r, before)
  }

  /** Linking keeps the order of the others; the queue comes first exactly if the descent always
      turned left. */
  lemma {:induction false} LinkedOrder(t: Tree, q: nat, before: nat -> bool)
    ensures InOrder(Linked(t, q, before)) == Inserted(InOrder(t), Rank(t, before), q)
    ensures Rank(t, before) == 0 <==> WentLeft(t, before)
  {
    match t
    case Leaf =>
    case Node(l, x, r) =>
      if before(x) {
        LinkedOrder(l, q, before);
        InsertedInFront(InOrder(l), Rank(l, before), q, [x] + InOrder(r));
        Assoc(InOrder(Linked(l, q, before)), [x], InOrder(r));
        Assoc(InOrder(l), [x], InOrder(r));
      } else {
        LinkedOrder(r, q, before);
        InsertedBehind(InOrder(l) + [x], InOrder(r), Rank(r, before), q);
      }
  }

  lemma InsertedInFront(a: seq<nat>, p: nat, q: nat, b: seq<nat>)
    requires p <= |a|
    ensures Inserted(a, p, q) + b == Inserted(a + b, p, q)
  {}

  lemma InsertedBehind(a: seq<nat>, b: seq<nat>, p: nat, q: nat)
    requires p <= |b|
    ensures a + Inserted(b, p, q) == Inserted(a + b, |a| + p, q)
  {}

  /** rb_insert_color and the rotations of rb_erase: any tree with the same order. */
  method Rebalance(t: Tree) returns (r: Tree)
    ensures InOrder(r) == InOrder(t)
  {
    r := t;
  }

  /** The tree without its first queue. */
  function WithoutFirst(t: Tree): Tree
    requires t.Node?
  {
    if t.left == Leaf then t.right else Node(WithoutFirst(t.left), t.q, t.right)
  }

  lemma {:induction false} WithoutFirstOrder(t: Tree)
    requires t.Node?
    ensures InOrder(t) != [] && InOrder(WithoutFirst(t)) == InOrder(t)[1..]
  {
    if t.left != Leaf {
      WithoutFirstOrder(t.left);
      var l, rest := InOrder(t.left), [t.q] + InOrder(t.right);
      assert InOrder(t) == l + rest;
      assert (l + rest)[1..] == l[1..] + rest;
      assert InOrder(WithoutFirst(t)) == l[1..] + rest;
    } else {
      assert InOrder(t) == [t.q] + InOrder(t.right);
    }
  }

  /** rb_erase of the queue, wherever it is. */
  function Erased(t: Tree, q: nat): Tree {
    match t
    case Leaf => Leaf
    case Node(l, x, r) =>
      if x == q then (if r == Leaf then l else Node(l, FirstOf(r), WithoutFirst(r)))
      else if q in InOrder(l) then Node(Erased(l, q), x, r)
      else Node(l, x, Erased(r, q))
  }

  function FirstOf(t: Tree): nat
    requires t.Node?
  {
    if t.left == Leaf then t.q else FirstOf(t.left)
  }

  lemma {:induction false} FirstOfOrder(t: Tree)
    requires t.Node?
    ensures InOrder(t) != [] && FirstOf(t) == InOrder(t)[0]
  {
    if t.left != Leaf { FirstOfOrder(t.left); }
  }

  lemma WithoutAppend(a: seq<nat>, b: seq<nat>, q: nat)
    requires q in a + b && NoDup(a + b)
    ensures q in a ==> Without(a + b, q) == Without(a, q) + b
    ensures q !in a ==> q in b && Without(a + b, q) == a + Without(b, q)
  {
    if q in a {
      var k := IndexOf(a, q);
      IndexIs(a + b, q, k);
      CutLeft(a, b, k);
    } else {
      var k := IndexOf(b, q);
      IndexIs(a + b, q, |a| + k);
      CutRight(a, b, k);
    }
  }

  lemma IndexIs(s: seq<nat>, q: nat, k: nat)
    requires NoDup(s) && k < |s| && s[k] == q
    ensures IndexOf(s, q) == k
  {}

  lemma CutLeft(a: seq<nat>, b: seq<nat>, k: nat)
    requires k < |a|
    ensures (a + b)[..k] + (a + b)[k+1..] == a[..k] + a[k+1..] + b
  {}

  lemma CutRight(a: seq<nat>, b: seq<nat>, k: nat)
    requires k < |b|
    ensures (a + b)[..|a| + k] + (a + b)[|a| + k + 1..] == a + (b[..k] + b[k+1..])
  {}

  lemma RootNotLeft(a: seq<nat>, x: nat, b: seq<nat>)
    requires NoDup(a + ([x] + b))
    ensures x !in a
  {
    var s := a + ([x] + b);
    forall i | 0 <= i < |a| ensures a[i] != x {
      assert s[i] != s[|a|];
    }
  }

  lemma ErasedRootOrder(l: Tree, q: nat, r: Tree)
    ensures InOrder(Erased(Node(l, q, r), q)) == InOrder(l) + InOrder(r)
  {
    var a, b := InOrder(l), InOrder(r);
    if r == Leaf {
      assert a + b == a;
    } else {
      hide WithoutFirst, FirstOf;
      WithoutFirstOrder(r);
      FirstOfOrder(r);
      HeadAndTail(a, b);
    }
  }

  lemma HeadAndTail(a: seq<nat>, b: seq<nat>)
    requires b != []
    ensures a + [b[0]] + b[1..] == a + b
  {}

  lemma ErasedRoot(l: Tree, q: nat, r: Tree)
    requires NoDup(InOrder(l) + ([q] + InOrder(r)))
    ensures InOrder(Erased(Node(l, q, r), q)) == Without(InOrder(l) + ([q] + InOrder(r)), q)
  {
    hide Without, IndexOf, Erased;
    var a, b := InOrder(l), InOrder(r);
    RootNotLeft(a, q, b);
    WithoutAppend(a, [q] + b, q);
    HeadWithout(q, b);
    ErasedRootOrder(l, q, r);
  }

  /** Erasing keeps the order of the others. */
  lemma {:induction false} ErasedOrder(t: Tree, q: nat)
    requires NoDup(InOrder(t)) && q in InOrder(t)
    ensures InOrder(Erased(t, q)) == Without(InOrder(t), q)
  {
    var l, x, r := t.left, t.q, t.right;
    var a, b := InOrder(l), InOrder(r);
    Assoc(a, [x], b);
    if x == q {
      ErasedRoot(l, q, r);
    } else {
      WithoutAppend(a, [x] + b, q);
      PartsDistinct(a, [x] + b);
      if q in a {
        ErasedOrder(l, q);
        Assoc(Without(a, q), [x], b);
      } else {
        PartsDistinct([x], b);
        WithoutAppend([x], b, q);
        ErasedOrder(r, q);
        Assoc(a, [x], Without(b, q));
      }
    }
  }

  lemma HeadWithout(x: nat, b: seq<nat>)
    ensures Without([x] + b, x) == b
  {
    assert IndexOf([x] + b, x) == 0;
  }

  lemma PartsDistinct(a: seq<nat>, b: seq<nat>)
    requires NoDup(a + b)
    ensures NoDup(a) && NoDup(b)
  {
    forall i, j | 0 <= i < j < |a| ensures a[i] != a[j] {
      assert (a + b)[i] != (a + b)[j];
    }
    forall i, j | 0 <= i < j < |b| ensures b[i] != b[j] {
      assert (a + b)[|a| + i] != (a + b)[|a| + j];
    }
  }
}
