/** One queue of CFQ (cfq-iosched.c): the requests of a process in a sort tree and in a FIFO, with
    the request to be served next. */
module CfqQueue {
  import opened Lists
  import opened Options
  import opened SortTree

  /** What the choice reads of a request besides where it starts. */
  datatype Info = Info(sync: bool, meta: bool)

  /** struct cfq_queue; `asyncs` and `syncs` are queued[]. */
  datatype Cfqq = Cfqq(tree: seq<nat>, fifo: seq<nat>, next: Option<nat>, onRr: bool, asyncs: nat, syncs: nat)

  /** The head position and the tunables of the backward seek. */
  datatype Head = Head(last: nat, backMax: nat, backPenalty: nat)

  /** The requests: where they start and what kind they are. */
  datatype Requests = Requests(pos: Positions, info: map<nat, Info>)

  // ---------------------------------------------------------------- the choice

  predicate Wraps(h: Head, s: nat) {
    s + 2 * h.backMax < h.last
  }

  function Distance(h: Head, s: nat): nat {
    if s >= h.last then s - h.last else (h.last - s) * h.backPenalty
  }

  /** cfq_choose_req takes the first of two different requests. */
  predicate Prefers(h: Head, s1: nat, i1: Info, s2: nat, i2: Info) {
    if i1.sync != i2.sync then i1.sync
    else if i1.meta != i2.meta then i1.meta
    else if Wraps(h, s1) != Wraps(h, s2) then Wraps(h, s2)
    else if Wraps(h, s1) then s1 <= s2
    else if Distance(h, s1) != Distance(h, s2) then Distance(h, s1) < Distance(h, s2)
    else s1 >= s2
  }

  ghost predicate Known(r: Requests, t: seq<nat>) {
    Sorted(r.pos, t) && forall x | x in t :: x in r.info
  }

  function Choose(h: Head, r: Requests, r1: Option<nat>, r2: Option<nat>): (c: Option<nat>)
    requires (r1.Some? ==> r1.value in r.pos && r1.value in r.info) && (r2.Some? ==> r2.value in r.pos && r2.value in r.info)
    ensures c == r1 || c == r2
    ensures c == None <==> r1 == None && r2 == None
  {
    if r1 == None || r1 == r2 then r2
    else if r2 == None then r1
    else if Prefers(h, r.pos[r1.value], r.info[r1.value], r.pos[r2.value], r.info[r2.value]) then r1 else r2
  }

  /** cfq_find_next_rq. */
  function FindNext(h: Head, r: Requests, t: seq<nat>, x: nat): Option<nat>
    requires Known(r, t) && x in t
  {
    var i := IndexOf(t, x);
    var prev := if i > 0 then Some(t[i-1]) else None;
    var next := if i + 1 < |t| then Some(t[i+1]) else if i > 0 then Some(t[0]) else None;
    Choose(h, r, next, prev)
  }

  lemma FindNextQueued(h: Head, r: Requests, t: seq<nat>, x: nat)
    requires Known(r, t) && x in t
    ensures var n := FindNext(h, r, t, x); if n == None then |t| == 1 else n.value in t && n.value != x
  {}

  // ---------------------------------------------------------------- the counters

  /** The requests of one kind. */
  ghost function OfKind(r: Requests, t: seq<nat>, sync: bool): set<nat> {
    set x | x in t && x in r.info && r.info[x].sync == sync
  }

  function Queued(q: Cfqq, sync: bool): nat {
    if sync then q.syncs else q.asyncs
  }

  function WithQueued(q: Cfqq, sync: bool, n: nat): Cfqq {
    if sync then q.(syncs := n) else q.(asyncs := n)
  }

  // ---------------------------------------------------------------- what a queue keeps

  /** The request `x` is counted but not in the tree: it is about to be added, or it is being
      repositioned and still in the FIFO (`held`). */
  datatype Pending = Nothing | Adding(x: nat) | Held(x: nat)

  ghost predicate CountsOk(r: Requests, q: Cfqq, p: Pending) {
    forall sync :: Queued(q, sync) == |OfKind(r, q.tree, sync)| +
      (if p != Nothing && p.x in r.info && r.info[p.x].sync == sync then 1 else 0)
  }

  /** Tree and FIFO hold the same requests. */
  ghost predicate SameRequests(q: Cfqq, p: Pending) {
    && NoDup(q.fifo)
    && (forall y :: y in q.fifo <==> y in q.tree || (p.Held? && y == p.x))
    && (p != Nothing ==> p.x !in q.tree)
  }

  /** There is a next request, and the queue is to be served, exactly when there are requests. */
  ghost predicate Serviced(q: Cfqq, p: Pending) {
    && (q.next.Some? ==> q.next.value in q.fifo)
    && (q.tree != [] ==> q.next.Some? && q.onRr)
    && (p == Nothing && q.tree == [] ==> q.next == None && !q.onRr)
  }

  ghost predicate QueueOk(r: Requests, q: Cfqq, p: Pending) {
    Known(r, q.tree) && CountsOk(r, q, p) && SameRequests(q, p) && Serviced(q, p)
  }

  // ---------------------------------------------------------------- removing

  /** cfq_del_rq_rb; a queue that has become empty leaves the service tree. */
  function Unlinked(r: Requests, q: Cfqq, x: nat): Cfqq
    requires x in q.tree && x in r.info && Queued(q, r.info[x].sync) > 0
  {
    var sync := r.info[x].sync;
    var t := Without(q.tree, x);
    WithQueued(q, sync, Queued(q, sync) - 1).(tree := t, onRr := q.onRr && t != [])
  }

  /** cfq_remove_request. */
  function Removed(h: Head, r: Requests, q: Cfqq, x: nat): Cfqq
    requires Known(r, q.tree) && x in q.tree && x in q.fifo && Queued(q, r.info[x].sync) > 0
  {
    Unlinked(r, q.(next := if q.next == Some(x) then FindNext(h, r, q.tree, x) else q.next, fifo := Without(q.fifo, x)), x)
  }

  /** cfq_dispatch_insert. */
  function Dispatched(h: Head, r: Requests, q: Cfqq, x: nat): Cfqq
    requires Known(r, q.tree) && x in q.tree && x in q.fifo && Queued(q, r.info[x].sync) > 0
  {
    Removed(h, r, q.(next := FindNext(h, r, q.tree, x)), x)
  }

  /** The counter of the kind of a queued request is not zero. */
  lemma Counted(r: Requests, q: Cfqq, p: Pending, x: nat)
    requires QueueOk(r, q, p) && x in q.tree
    ensures x in r.info && x in q.fifo && Queued(q, r.info[x].sync) > 0
  {
    assert x in OfKind(r, q.tree, r.info[x].sync);
  }

  lemma KindWithout(r: Requests, t: seq<nat>, w: seq<nat>, x: nat, sync: bool)
    requires x in t && x in r.info && forall y :: y in w <==> y in t && y != x
    ensures |OfKind(r, w, sync)| == |OfKind(r, t, sync)| - (if r.info[x].sync == sync then 1 else 0)
  {
    if r.info[x].sync == sync {
      assert OfKind(r, t, sync) == OfKind(r, w, sync) + {x};
    } else {
      assert OfKind(r, t, sync) == OfKind(r, w, sync);
    }
  }

  lemma CountsWithout(r: Requests, q: Cfqq, p: Pending, x: nat)
    requires Known(r, q.tree) && CountsOk(r, q, p) && x in q.tree && Queued(q, r.info[x].sync) > 0
    ensures CountsOk(r, Unlinked(r, q, x), p)
  {
    DeletedSorted(r.pos, q.tree, x);
    var u := Unlinked(r, q, x);
    forall sync ensures Queued(u, sync) == |OfKind(r, u.tree, sync)| +
      (if p != Nothing && p.x in r.info && r.info[p.x].sync == sync then 1 else 0)
    {
      KindWithout(r, q.tree, u.tree, x, sync);
    }
  }

  lemma DispatchKeeps(h: Head, r: Requests, q: Cfqq, p: Pending, x: nat)
    requires QueueOk(r, q, p) && x in q.tree
    ensures x in r.info && x in q.fifo && Queued(q, r.info[x].sync) > 0
    ensures var d := Dispatched(h, r, q, x);
            && QueueOk(r, d, p)
            && (forall y :: y in d.tree <==> y in q.tree && y != x)
            && |d.tree| == |q.tree| - 1 && d.onRr == (q.tree != [x] && q.onRr)
  {
    Counted(r, q, p, x);
    FindNextQueued(h, r, q.tree, x);
    DeletedSorted(r.pos, q.tree, x);
    WithoutMembers(q.fifo, x);
    var q1 := q.(next := FindNext(h, r, q.tree, x), fifo := Without(q.fifo, x));
    CountsWithout(r, q1, p, x);
  }

  lemma RemoveKeeps(h: Head, r: Requests, q: Cfqq, x: nat)
    requires QueueOk(r, q, Nothing) && x in q.tree
    ensures x in r.info && x in q.fifo && Queued(q, r.info[x].sync) > 0
    ensures var d := Removed(h, r, q, x);
            QueueOk(r, d, Nothing) && (forall y :: y in d.fifo <==> y in q.fifo && y != x) && d.onRr == (q.tree != [x] && q.onRr)
  {
    Counted(r, q, Nothing, x);
    FindNextQueued(h, r, q.tree, x);
    DeletedSorted(r.pos, q.tree, x);
    WithoutMembers(q.fifo, x);
    var next := if q.next == Some(x) then FindNext(h, r, q.tree, x) else q.next;
    CountsWithout(r, q.(next := next, fifo := Without(q.fifo, x)), Nothing, x);
  }

  // ---------------------------------------------------------------- adding

  /** The loop of cfq_add_rq_rb: a request at the sector of the new one is dispatched. */
  ghost function Evicted(h: Head, r: Requests, q: Cfqq, p: Pending): (e: Cfqq)
    requires QueueOk(r, q, p) && p != Nothing && p.x in r.pos
    ensures QueueOk(r, e, p) && At(r.pos, e.tree, r.pos[p.x]) == None
    ensures forall y | y in e.fifo :: y in q.fifo
    decreases |q.tree|
  {
    match At(r.pos, q.tree, r.pos[p.x])
    case None => q
    case Some(a) =>
      DispatchKeeps(h, r, q, p, a);
      DispatchedFifo(h, r, q, p, a);
      Evicted(h, r, Dispatched(h, r, q, a), p)
  }

  /** The requests that the loop dispatches. */
  ghost function Aliases(h: Head, r: Requests, q: Cfqq, p: Pending): seq<nat>
    requires QueueOk(r, q, p) && p != Nothing && p.x in r.pos
    decreases |q.tree|
  {
    match At(r.pos, q.tree, r.pos[p.x])
    case None => []
    case Some(a) =>
      DispatchKeeps(h, r, q, p, a);
      [a] + Aliases(h, r, Dispatched(h, r, q, a), p)
  }

  /** One turn of the loop. */
  lemma EvictTurn(h: Head, r: Requests, q: Cfqq, p: Pending, out: seq<nat>)
    requires QueueOk(r, q, p) && p != Nothing && p.x in r.pos
    ensures var a := At(r.pos, q.tree, r.pos[p.x]);
            if a == None then Evicted(h, r, q, p) == q && out + Aliases(h, r, q, p) == out
            else
              && a.value in r.info && a.value in q.fifo && Queued(q, r.info[a.value].sync) > 0
              && var e := Dispatched(h, r, q, a.value);
              && QueueOk(r, e, p) && |e.tree| == |q.tree| - 1 && Evicted(h, r, e, p) == Evicted(h, r, q, p)
              && out + [a.value] + Aliases(h, r, e, p) == out + Aliases(h, r, q, p)
  {
    hide CountsOk, SameRequests, Serviced, Dispatched;
    match At(r.pos, q.tree, r.pos[p.x])
    case None =>
    case Some(a) =>
      DispatchKeeps(h, r, q, p, a);
      Assoc(out, [a], Aliases(h, r, Dispatched(h, r, q, a), p));
  }

  /** What the queue loses is dispatched, each request once. */
  lemma {:induction false} AliasesAre(h: Head, r: Requests, q: Cfqq, p: Pending)
    requires QueueOk(r, q, p) && p != Nothing && p.x in r.pos
    ensures var d := Aliases(h, r, q, p); NoDup(d) && forall y :: y in d <==> y in q.fifo && y !in Evicted(h, r, q, p).fifo
    decreases |q.tree|
  {
    hide CountsOk, SameRequests, Serviced, Dispatched;
    match At(r.pos, q.tree, r.pos[p.x])
    case None =>
    case Some(a) =>
      DispatchKeeps(h, r, q, p, a);
      DispatchedFifo(h, r, q, p, a);
      var e := Dispatched(h, r, q, a);
      AliasesAre(h, r, e, p);
      OneMore(a, Aliases(h, r, e, p), AsSet(q.fifo), AsSet(e.fifo), AsSet(Evicted(h, r, e, p).fifo));
  }

  lemma OneMore(a: nat, d: seq<nat>, q: set<nat>, e: set<nat>, v: set<nat>)
    requires NoDup(d) && a in q && e == q - {a} && v <= e && forall y :: y in d <==> y in e && y !in v
    ensures NoDup([a] + d) && forall y :: y in [a] + d <==> y in q && y !in v
  {}

  lemma DispatchedFifo(h: Head, r: Requests, q: Cfqq, p: Pending, x: nat)
    requires QueueOk(r, q, p) && x in q.tree
    ensures x in r.info && x in q.fifo && Queued(q, r.info[x].sync) > 0
    ensures forall y :: y in Dispatched(h, r, q, x).fifo <==> y in q.fifo && y != x
  {
    Counted(r, q, p, x);
    WithoutMembers(q.fifo, x);
  }

  /** The rest of cfq_add_rq_rb: the request goes into the tree, the queue onto the service tree if
      it is not there, and the next request is chosen again. */
  function LinkedIn(h: Head, r: Requests, q: Cfqq, x: nat): Cfqq
    requires Known(r, q.tree) && x in r.pos && x in r.info
    requires q.next.Some? ==> q.next.value in r.pos && q.next.value in r.info
  {
    q.(tree := Added(r.pos, q.tree, x), onRr := true, next := Choose(h, r, q.next, Some(x)))
  }

  lemma KindWith(r: Requests, t: seq<nat>, w: seq<nat>, x: nat, sync: bool)
    requires x !in t && x in r.info && forall y :: y in w <==> y in t || y == x
    ensures |OfKind(r, w, sync)| == |OfKind(r, t, sync)| + (if r.info[x].sync == sync then 1 else 0)
  {
    if r.info[x].sync == sync {
      assert OfKind(r, w, sync) == OfKind(r, t, sync) + {x};
    } else {
      assert OfKind(r, w, sync) == OfKind(r, t, sync);
    }
  }

  lemma CountsWith(r: Requests, q: Cfqq, p: Pending, t: seq<nat>)
    requires CountsOk(r, q, p) && p != Nothing && p.x in r.info && p.x !in q.tree && forall y :: y in t <==> y in q.tree || y == p.x
    ensures CountsOk(r, q.(tree := t), Nothing)
  {
    forall sync ensures Queued(q, sync) == |OfKind(r, t, sync)| {
      KindWith(r, q.tree, t, p.x, sync);
    }
  }

  /** A request that is put back has its place in the FIFO already; a new one gets one at the end. */
  function InFifo(q: Cfqq, p: Pending): Cfqq {
    if p.Adding? then q.(fifo := q.fifo + [p.x]) else q
  }

  lemma NextKnown(r: Requests, q: Cfqq, p: Pending)
    requires QueueOk(r, q, p) && (p != Nothing ==> p.x in r.pos && p.x in r.info)
    ensures q.next.Some? ==> q.next.value in r.pos && q.next.value in r.info
  {}

  lemma LinkedKeeps(h: Head, r: Requests, q: Cfqq, p: Pending)
    requires QueueOk(r, q, p) && p != Nothing && p.x in r.pos && p.x in r.info && At(r.pos, q.tree, r.pos[p.x]) == None
    ensures q.next.Some? ==> q.next.value in r.pos && q.next.value in r.info
    ensures QueueOk(r, InFifo(LinkedIn(h, r, q, p.x), p), Nothing)
  {
    NextKnown(r, q, p);
    AddedSorted(r.pos, q.tree, p.x);
    CountsWith(r, q, p, Added(r.pos, q.tree, p.x));
  }

  /** cfq_add_rq_rb of the pending request, and its place in the FIFO. */
  ghost function Entered(h: Head, r: Requests, q: Cfqq, p: Pending): (e: Cfqq)
    requires QueueOk(r, q, p) && p != Nothing && p.x in r.pos && p.x in r.info
    ensures QueueOk(r, e, Nothing) && p.x in e.fifo
    ensures forall y | y in e.fifo :: y in q.fifo || y == p.x
  {
    var v := Evicted(h, r, q, p);
    LinkedKeeps(h, r, v, p);
    InFifo(LinkedIn(h, r, v, p.x), p)
  }

  /** A new request is counted. */
  lemma NewPending(r: Requests, q: Cfqq, x: nat)
    requires QueueOk(r, q, Nothing) && x in r.info && x !in q.fifo
    ensures var sync := r.info[x].sync; QueueOk(r, WithQueued(q, sync, Queued(q, sync) + 1), Adding(x))
  {}

  /** A request that is to be repositioned has left the tree. */
  lemma TakenOut(r: Requests, q: Cfqq, x: nat)
    requires QueueOk(r, q, Nothing) && x in q.tree
    ensures QueueOk(r, q.(tree := Without(q.tree, x)), Held(x))
  {
    DeletedSorted(r.pos, q.tree, x);
    var w := Without(q.tree, x);
    forall sync ensures Queued(q, sync) == |OfKind(r, w, sync)| + (if r.info[x].sync == sync then 1 else 0) {
      KindWithout(r, q.tree, w, x, sync);
    }
  }

  /** Requests elsewhere do not matter. */
  lemma QueueFrame(r: Requests, r': Requests, q: Cfqq, p: Pending)
    requires QueueOk(r, q, p)
    requires forall y | y in q.tree :: y in r'.pos && r'.pos[y] == r.pos[y] && y in r'.info && r'.info[y] == r.info[y]
    requires p != Nothing ==> p.x in r.info && p.x in r'.info && r'.info[p.x] == r.info[p.x]
    ensures QueueOk(r', q, p)
  {
    SortedFrame(r.pos, r'.pos, q.tree);
    forall sync ensures OfKind(r', q.tree, sync) == OfKind(r, q.tree, sync) {}
  }
}
