/** CFQ as a whole (cfq-iosched.c): the queues with requests are on the service tree, and a forced
    dispatch empties them all. */
module Cfq {
  import opened Lists
  import opened Options
  import opened SortTree
  import opened ServiceTree
  import opened CfqQueue

  type Queues = map<nat, Cfqq>

  /** The service tree holds the queues that are to be served, each once, `busy` counts them, and
      the cached leftmost node is missing or right. */
  ghost predicate ServiceOk(qs: Queues, order: seq<nat>, left: Option<nat>, busy: nat) {
    && NoDup(order) && busy == |order|
    && (forall k :: k in order <==> k in qs && qs[k].onRr)
    && (left.Some? ==> order != [] && left.value == order[0])
  }

  /** A queue is served no longer. */
  lemma ServiceLess(qs: Queues, order: seq<nat>, left: Option<nat>, busy: nat, k: nat, q: Cfqq)
    requires ServiceOk(qs, order, left, busy) && k in qs && qs[k].onRr && !q.onRr
    ensures k in order && busy > 0
    ensures ServiceOk(qs[k := q], Without(order, k), if left == Some(k) then None else left, busy - 1)
  {}

  /** A queue is served from now on. */
  lemma ServiceMore(qs: Queues, order: seq<nat>, left: Option<nat>, busy: nat, k: nat, q: Cfqq, p: nat)
    requires ServiceOk(qs, order, left, busy) && k in qs && !qs[k].onRr && q.onRr && p <= |order|
    ensures ServiceOk(qs[k := q], Inserted(order, p, k), if p == 0 then Some(k) else left, busy + 1)
  {}

  lemma ServiceSame(qs: Queues, order: seq<nat>, left: Option<nat>, busy: nat, k: nat, q: Cfqq)
    requires ServiceOk(qs, order, left, busy) && k in qs && qs[k].onRr == q.onRr
    ensures ServiceOk(qs[k := q], order, left, busy)
  {}

  lemma EmptyOk(r: Requests)
    ensures QueueOk(r, Cfqq([], [], None, false, 0, 0), Nothing)
  {}

  /** Every queue is in order, and no request is in two of them. */
  ghost predicate QueuesOk(r: Requests, qs: Queues) {
    && (forall k | k in qs :: QueueOk(r, qs[k], Nothing))
    && (forall k, m, x | k in qs && m in qs && x in qs[k].fifo && x in qs[m].fifo :: k == m)
  }

  /** Only the request `x` has changed. */
  ghost predicate AgreeBut(r: Requests, r': Requests, x: nat) {
    && (forall y | y != x && y in r.pos :: y in r'.pos && r'.pos[y] == r.pos[y])
    && (forall y | y != x && y in r.info :: y in r'.info && r'.info[y] == r.info[y])
  }

  /** A request of one queue is in no other. */
  lemma OnlyIn(r: Requests, qs: Queues, k: nat, x: nat)
    requires QueuesOk(r, qs) && k in qs && x in qs[k].tree
    ensures x in qs[k].fifo && forall m | m in qs && m != k :: x !in qs[m].fifo
  {}

  lemma OtherQueue(r: Requests, r': Requests, q: Cfqq, x: nat)
    requires QueueOk(r, q, Nothing) && AgreeBut(r, r', x) && x !in q.fifo
    ensures QueueOk(r', q, Nothing)
  {
    forall y | y in q.tree ensures y in r'.pos && r'.pos[y] == r.pos[y] && y in r'.info && r'.info[y] == r.info[y] {
      assert y in q.fifo;
    }
    QueueFrame(r, r', q, Nothing);
  }

  /** The queue `k` has changed, by `x` and by what it lost. */
  lemma QueuesUpdated(r: Requests, r': Requests, qs: Queues, k: nat, q: Cfqq, x: nat)
    requires QueuesOk(r, qs) && k in qs && QueueOk(r', q, Nothing) && AgreeBut(r, r', x)
    requires forall m | m in qs && m != k :: x !in qs[m].fifo
    requires forall y | y in q.fifo :: y in qs[k].fifo || y == x
    ensures QueuesOk(r', qs[k := q])
  {
    hide QueueOk;
    forall m | m in qs && m != k ensures QueueOk(r', qs[m], Nothing) {
      OtherQueue(r, r', qs[m], x);
    }
  }

  /** The FIFO after `x` has taken the place of an older `y`. */
  function Turned(q: Cfqq, x: nat, y: nat, older: bool): seq<nat> {
    if older && x in q.fifo && y in Without(q.fifo, x) then MovedAfter(q.fifo, x, y) else q.fifo
  }

  class CfqData {
    var h: Head
    var r: Requests
    var queues: Queues
    var service: Tree
    var left: Option<nat>
    var busy: nat
    ghost var out: seq<nat>

    ghost predicate Service()
      reads this
    {
      ServiceOk(queues, InOrder(service), left, busy)
    }

    constructor (h: Head)
      ensures Valid() && this.h == h && queues == map[] && out == []
    {
      this.h, r, queues := h, Requests(map[], map[]), map[];
      service, left, busy, out := Leaf, None, 0, [];
    }

    /** A process gets a queue of its own. */
    method NewQueue(k: nat)
      requires Valid() && k !in queues
      modifies this`queues
      ensures Valid() && queues == old(queues)[k := Cfqq([], [], None, false, 0, 0)]
    {
      EmptyOk(r);
      assert k !in InOrder(service);
      queues := queues[k := Cfqq([], [], None, false, 0, 0)];
    }

    /** cfq_rb_first. */
    method RbFirst() returns (k: Option<nat>)
      requires Service()
      modifies this`left
      ensures Service() && k == if InOrder(service) == [] then None else Some(InOrder(service)[0])
    {
      FirstIsFirst(service);
      if left == None {
        left := First(service);
      }
      return left;
    }

    /** cfq_rb_erase, for a queue that is not to be served any more. */
    method RbErase(k: nat, q: Cfqq)
      requires Service() && k in queues && queues[k].onRr && !q.onRr
      modifies this`service, this`left, this`busy, this`queues
      ensures Service() && queues == old(queues)[k := q]
      ensures k in InOrder(old(service)) && InOrder(service) == Without(InOrder(old(service)), k)
    {
      ServiceLess(queues, InOrder(service), left, busy, k, q);
      if left == Some(k) {
        left := None;
      }
      ErasedOrder(service, k);
      service := Rebalance(Erased(service, k));
      busy := busy - 1;
      queues := queues[k := q];
    }

    /** cfq_add_cfqq_rr with cfq_service_tree_add: the descent turns left at the queues of `before`. */
    method AddCfqqRr(k: nat, before: nat -> bool)
      requires Service() && k in queues && !queues[k].onRr
      modifies this`service, this`left, this`busy, this`queues
      ensures Service() && queues == old(queues)[k := old(queues)[k].(onRr := true)]
      ensures InOrder(service) == Inserted(InOrder(old(service)), Rank(old(service), before), k)
    {
      LinkedOrder(service, k, before);
      ServiceMore(queues, InOrder(service), left, busy, k, queues[k].(onRr := true), Rank(service, before));
      queues := queues[k := queues[k].(onRr := true)];
      busy := busy + 1;
      var wentLeft, n := Descend(service, before);
      if wentLeft {
        left := Some(k);
      }
      service := Rebalance(Linked(service, k, before));
    }

    /** The loop of cfq_service_tree_add: whether the descent from the root ever turns right. */
    static method Descend(t: Tree, before: nat -> bool) returns (left: bool, ghost depth: nat)
      ensures left == WentLeft(t, before)
    {
      left, depth := true, 0;
      var p := t;
      while p != Leaf
        invariant WentLeft(t, before) == (left && WentLeft(p, before))
        decreases p
      {
        if before(p.q) {
          p := p.left;
        } else {
          left := false;
          p := p.right;
        }
        depth := depth + 1;
      }
    }

    /** cfq_resort_rr_list of a queue that is on the tree: it is erased and linked anew, unless its
        key has not changed. */
    method Resort(k: nat, before: nat -> bool, sameKey: bool)
      requires Service() && k in queues && queues[k].onRr
      modifies this`service, this`left, this`busy, this`queues
      ensures Service() && queues == old(queues) && (sameKey ==> service == old(service))
      ensures k in InOrder(service) && k in InOrder(old(service))
      ensures Without(InOrder(service), k) == Without(InOrder(old(service)), k)
    {
      assert k in InOrder(service);
      if sameKey {
        return;
      }
      var q := queues[k];
      ghost var order := InOrder(service);
      RbErase(k, q.(onRr := false));
      WithoutMembers(order, k);
      ghost var p := Rank(service, before);
      AddCfqqRr(k, before);
      WithoutInserted(Without(order, k), p, k);
      assert queues == old(queues);
    }

    // -------------------------------------------------------------- requests

    ghost predicate Valid()
      reads this
    {
      Service() && QueuesOk(r, queues)
    }

    /** cfq_del_rq_rb. */
    method DelRqRb(k: nat, x: nat)
      requires Service() && k in queues && x in queues[k].tree && x in r.info && Queued(queues[k], r.info[x].sync) > 0
      modifies this`service, this`left, this`busy, this`queues
      ensures Service() && queues == old(queues)[k := Unlinked(r, old(queues)[k], x)]
    {
      hide ServiceOk, Without;
      var q := queues[k];
      var sync := r.info[x].sync;
      q := WithQueued(q, sync, Queued(q, sync) - 1);
      q := q.(tree := Without(q.tree, x));
      if q.onRr && q.tree == [] {
        RbErase(k, q.(onRr := false));
      } else {
        ServiceSame(queues, InOrder(service), left, busy, k, q);
        queues := queues[k := q];
      }
    }

    /** cfq_remove_request. */
    method RemoveRequest(k: nat, x: nat)
      requires Service() && k in queues && Known(r, queues[k].tree) && x in queues[k].tree && x in queues[k].fifo
      requires Queued(queues[k], r.info[x].sync) > 0
      modifies this`service, this`left, this`busy, this`queues
      ensures Service() && queues == old(queues)[k := Removed(h, r, old(queues)[k], x)]
    {
      hide ServiceOk, Without, Unlinked, FindNext;
      var q := queues[k];
      if q.next == Some(x) {
        q := q.(next := FindNext(h, r, q.tree, x));
      }
      q := q.(fifo := Without(q.fifo, x));
      ServiceSame(queues, InOrder(service), left, busy, k, q);
      queues := queues[k := q];
      DelRqRb(k, x);
    }

    /** cfq_dispatch_insert. */
    method DispatchInsert(k: nat, x: nat)
      requires Service() && k in queues && Known(r, queues[k].tree) && x in queues[k].tree && x in queues[k].fifo
      requires Queued(queues[k], r.info[x].sync) > 0
      modifies this`service, this`left, this`busy, this`queues, this`out
      ensures Service() && queues == old(queues)[k := Dispatched(h, r, old(queues)[k], x)] && out == old(out) + [x]
    {
      var q := queues[k];
      q := q.(next := FindNext(h, r, q.tree, x));
      ServiceSame(queues, InOrder(service), left, busy, k, q);
      queues := queues[k := q];
      RemoveRequest(k, x);
      out := out + [x];
    }

    /** The loop of cfq_add_rq_rb. */
    method EvictAliases(k: nat, ghost p: Pending, x: nat)
      requires Service() && k in queues && p != Nothing && p.x == x && x in r.pos && QueueOk(r, queues[k], p)
      modifies this`service, this`left, this`busy, this`queues, this`out
      ensures Service() && queues == old(queues)[k := Evicted(h, r, old(queues)[k], p)]
      ensures out == old(out) + Aliases(h, r, old(queues)[k], p)
    {
      hide ServiceOk, CountsOk, SameRequests, Serviced, Dispatched, Evicted, Aliases;
      ghost var q0 := queues[k];
      var alias := At(r.pos, queues[k].tree, r.pos[x]);
      while alias.Some?
        invariant Service() && k in queues && QueueOk(r, queues[k], p) && alias == At(r.pos, queues[k].tree, r.pos[x])
        invariant queues == old(queues)[k := queues[k]] && Evicted(h, r, queues[k], p) == Evicted(h, r, q0, p)
        invariant out + Aliases(h, r, queues[k], p) == old(out) + Aliases(h, r, q0, p)
        decreases |queues[k].tree|
      {
        EvictTurn(h, r, queues[k], p, out);
        DispatchInsert(k, alias.value);
        alias := At(r.pos, queues[k].tree, r.pos[x]);
      }
      EvictTurn(h, r, queues[k], p, out);
    }

    /** cfq_add_rq_rb. */
    method AddRqRb(k: nat, ghost p: Pending, x: nat, before: nat -> bool)
      requires Service() && k in queues && p != Nothing && p.x == x && x in r.pos && x in r.info && QueueOk(r, queues[k], p)
      modifies this`service, this`left, this`busy, this`queues, this`out
      ensures Service()
      ensures var v := Evicted(h, r, old(queues)[k], p);
              && (v.next.Some? ==> v.next.value in r.pos && v.next.value in r.info)
              && queues == old(queues)[k := LinkedIn(h, r, v, x)]
      ensures out == old(out) + Aliases(h, r, old(queues)[k], p)
    {
      hide CountsOk, SameRequests, Serviced, ServiceOk, LinkedIn;
      ghost var v := Evicted(h, r, queues[k], p);
      NextKnown(r, v, p);
      EvictAliases(k, p, x);
      LinkRq(k, x, before);
    }

    /** The rest of cfq_add_rq_rb. */
    method LinkRq(k: nat, x: nat, before: nat -> bool)
      requires Service() && k in queues && Known(r, queues[k].tree) && x in r.pos && x in r.info
      requires queues[k].next.Some? ==> queues[k].next.value in r.pos && queues[k].next.value in r.info
      modifies this`service, this`left, this`busy, this`queues
      ensures Service() && queues == old(queues)[k := LinkedIn(h, r, old(queues)[k], x)]
    {
      var q := queues[k];
      q := q.(tree := Added(r.pos, q.tree, x), next := Choose(h, r, q.next, Some(x)));
      ServiceSame(queues, InOrder(service), left, busy, k, q);
      queues := queues[k := q];
      if !q.onRr {
        AddCfqqRr(k, before);
      }
    }

    /** cfq_insert_request of a request that is not queued. */
    method InsertRequest(k: nat, x: nat, s: nat, i: Info, before: nat -> bool) returns (ghost d: seq<nat>)
      requires Valid() && k in queues && forall m | m in queues :: x !in queues[m].fifo
      modifies this`r, this`service, this`left, this`busy, this`queues, this`out
      ensures Valid() && r == Requests(old(r).pos[x := s], old(r).info[x := i])
      ensures k in queues && x in queues[k].fifo && x in queues[k].tree && queues[k].fifo[|queues[k].fifo|-1] == x
      ensures forall m | m in queues && m != k :: m in old(queues) && queues[m] == old(queues)[m]
      ensures out == old(out) + d && NoDup(d) && forall y :: y in d <==> y in old(queues)[k].fifo && y !in queues[k].fifo
      ensures forall y | y in queues[k].fifo :: y in old(queues)[k].fifo || y == x
    {
      hide QueueOk, ServiceOk, LinkedIn, Choose, Evicted, Aliases, Entered, NoDup, AgreeBut, Known;
      ghost var r0, qs := r, queues;
      r := Requests(r.pos[x := s], r.info[x := i]);
      NewcomerAgrees(r0, r, x);
      OtherQueue(r0, r, qs[k], x);
      d := Enqueue(k, x, before);
      QueuesUpdated(r0, r, qs, k, queues[k], x);
      InTree(r, queues[k], x);
    }

    /** The request, known by now, is counted and gets its places in the tree and in the FIFO. */
    method Enqueue(k: nat, x: nat, before: nat -> bool) returns (ghost d: seq<nat>)
      requires Service() && k in queues && QueueOk(r, queues[k], Nothing) && x !in queues[k].fifo && x in r.pos && x in r.info
      modifies this`service, this`left, this`busy, this`queues, this`out
      ensures Service() && k in queues && queues == old(queues)[k := queues[k]] && QueueOk(r, queues[k], Nothing)
      ensures x in queues[k].fifo && queues[k].fifo[|queues[k].fifo|-1] == x
      ensures forall y | y in queues[k].fifo :: y in old(queues)[k].fifo || y == x
      ensures out == old(out) + d && NoDup(d) && forall y :: y in d <==> y in old(queues)[k].fifo && y !in queues[k].fifo
    {
      hide QueueOk, ServiceOk, LinkedIn, Choose, Evicted, Aliases, Entered, NoDup, Known;
      NewPending(r, queues[k], x);
      Count(k, x);
      ghost var q1 := queues[k];
      EnteredIs(h, r, q1, Adding(x));
      d := Aliases(h, r, q1, Adding(x));
      AddRqRb(k, Adding(x), x, before);
      Append(k, x);
      assert queues[k] == Entered(h, r, q1, Adding(x));
    }

    method Count(k: nat, x: nat)
      requires Service() && k in queues && x in r.info
      modifies this`queues
      ensures Service()
      ensures var sync := r.info[x].sync;
              queues == old(queues)[k := WithQueued(old(queues)[k], sync, Queued(old(queues)[k], sync) + 1)]
    {
      var sync := r.info[x].sync;
      var q := WithQueued(queues[k], sync, Queued(queues[k], sync) + 1);
      ServiceSame(queues, InOrder(service), left, busy, k, q);
      queues := queues[k := q];
    }

    method Append(k: nat, x: nat)
      requires Service() && k in queues
      modifies this`queues
      ensures Service() && queues == old(queues)[k := old(queues)[k].(fifo := old(queues)[k].fifo + [x])]
    {
      var q := queues[k].(fifo := queues[k].fifo + [x]);
      ServiceSame(queues, InOrder(service), left, busy, k, q);
      queues := queues[k := q];
    }

    /** cfq_reposition_rq_rb after `n` sectors have been merged in front of `x`; the counter goes
        down and up again. */
    method MergedInFront(k: nat, x: nat, n: nat, before: nat -> bool) returns (ghost d: seq<nat>)
      requires Valid() && k in queues && x in queues[k].tree && x in r.pos && n <= r.pos[x]
      modifies this`r, this`service, this`left, this`busy, this`queues, this`out
      ensures Valid() && r == old(r).(pos := old(r).pos[x := old(r).pos[x] - n])
      ensures k in queues && x in queues[k].fifo && x in queues[k].tree
      ensures forall m | m in queues && m != k :: m in old(queues) && queues[m] == old(queues)[m]
      ensures out == old(out) + d && NoDup(d) && forall y :: y in d <==> y in old(queues)[k].fifo && y !in queues[k].fifo
      ensures forall y | y in queues[k].fifo :: y in old(queues)[k].fifo || y == x
    {
      hide QueueOk, ServiceOk, LinkedIn, Choose, Evicted, Aliases, Entered, NoDup, AgreeBut, Known;
      ghost var r0, qs := r, queues;
      Grow(r0, qs, k, x, n);
      r := r.(pos := r.pos[x := r.pos[x] - n]);
      Lift(k, x);
      ghost var q1 := queues[k];
      EnteredIs(h, r, q1, Held(x));
      d := Aliases(h, r, q1, Held(x));
      AddRqRb(k, Held(x), x, before);
      ghost var q := Entered(h, r, q1, Held(x));
      assert queues == qs[k := q];
      QueuesUpdated(r0, r, qs, k, q, x);
      InTree(r, q, x);
    }

    /** elv_rb_del of a request that keeps its place in the FIFO. */
    method Lift(k: nat, x: nat)
      requires Service() && k in queues && x in queues[k].tree
      modifies this`queues
      ensures Service() && queues == old(queues)[k := old(queues)[k].(tree := Without(old(queues)[k].tree, x))]
    {
      var q := queues[k].(tree := Without(queues[k].tree, x));
      ServiceSame(queues, InOrder(service), left, busy, k, q);
      queues := queues[k := q];
    }

    /** cfq_merged_requests; `older` says that `y` expires before `x`. */
    method MergedRequests(k: nat, x: nat, y: nat, older: bool)
      requires Valid() && k in queues && x in queues[k].tree && y in queues[k].tree && x != y
      modifies this`service, this`left, this`busy, this`queues
      ensures Valid() && k in queues && forall z :: z in queues[k].fifo <==> z in old(queues)[k].fifo && z != y
      ensures x in old(queues)[k].fifo && y in old(queues)[k].fifo
      ensures var f := old(queues)[k].fifo; queues[k].fifo == if older then InPlaceOf(Without(f, x), y, x) else Without(f, y)
      ensures forall m | m in queues && m != k :: m in old(queues) && queues[m] == old(queues)[m]
    {
      hide ServiceOk, QueueOk, Without, MovedAfter;
      ghost var qs := queues;
      OnlyIn(r, qs, k, y);
      assert QueueOk(r, qs[k], Nothing);
      OnlyIn(r, qs, k, x);
      FifoDistinct(r, qs[k]);
      TakeTurn(k, x, y, older);
      TakesPlace(qs[k].fifo, x, y);
      RemoveFrom(k, y);
      QueuesUpdated(r, r, qs, k, queues[k], y);
    }

    /** An older `y` gives its place in the FIFO to `x`. */
    method TakeTurn(k: nat, x: nat, y: nat, older: bool)
      requires Service() && k in queues && QueueOk(r, queues[k], Nothing) && x in queues[k].tree && y in queues[k].tree && x != y
      modifies this`queues
      ensures Service() && k in queues && queues == old(queues)[k := queues[k]] && QueueOk(r, queues[k], Nothing)
      ensures queues[k].tree == old(queues)[k].tree && forall z :: z in queues[k].fifo <==> z in old(queues)[k].fifo
      ensures x in old(queues)[k].fifo && y in Without(old(queues)[k].fifo, x)
      ensures queues[k].fifo == Turned(old(queues)[k], x, y, older)
    {
      hide ServiceOk, QueueOk, MovedAfter;
      MovedOk(r, queues[k], x, y);
      if older {
        MoveUp(k, x, y);
      }
    }

    method RemoveFrom(k: nat, y: nat)
      requires Service() && k in queues && QueueOk(r, queues[k], Nothing) && y in queues[k].tree
      modifies this`service, this`left, this`busy, this`queues
      ensures Service() && k in queues && queues == old(queues)[k := queues[k]] && QueueOk(r, queues[k], Nothing)
      ensures forall z :: z in queues[k].fifo <==> z in old(queues)[k].fifo && z != y
      ensures y in old(queues)[k].fifo && queues[k].fifo == Without(old(queues)[k].fifo, y)
    {
      hide ServiceOk;
      RemoveKeeps(h, r, queues[k], y);
      RemoveRequest(k, y);
    }

    /** list_move of `x` behind `y`. */
    method MoveUp(k: nat, x: nat, y: nat)
      requires Service() && k in queues && x in queues[k].fifo && y in Without(queues[k].fifo, x)
      modifies this`queues
      ensures Service() && queues == old(queues)[k := old(queues)[k].(fifo := MovedAfter(old(queues)[k].fifo, x, y))]
    {
      var q := queues[k].(fifo := MovedAfter(queues[k].fifo, x, y));
      ServiceSame(queues, InOrder(service), left, busy, k, q);
      queues := queues[k := q];
    }

    /** cfq_forced_dispatch: every queued request is dispatched, each once, and at the end no queue
        has requests, the service tree is empty and no queue is busy. */
    method ForcedDispatch() returns (n: nat, ghost d: seq<nat>)
      requires Valid()
      modifies this`service, this`left, this`busy, this`queues, this`out
      ensures Valid() && service == Leaf && busy == 0 && queues.Keys == old(queues).Keys
      ensures forall k | k in queues :: queues[k].tree == [] && queues[k].fifo == [] && queues[k].next == None
      ensures n == |d| && out == old(out) + d && NoDup(d) && forall x :: x in d <==> InQueues(old(queues), x)
    {
      hide ServiceOk, QueueOk, InQueues;
      n, d := 0, [];
      ghost var qs0 := queues;
      var first := RbFirst();
      while first.Some?
        invariant Valid() && first == if InOrder(service) == [] then None else Some(InOrder(service)[0])
        invariant n == |d| && out == old(out) + d && NoDup(d) && Drained(qs0, queues, d)
        decreases busy
      {
        var k := first.value;
        ghost var qs, order0, left0, busy0 := queues, InOrder(service), left, busy;
        FirstServed(qs, order0, left0, busy0);
        assert QueueOk(r, qs[k], Nothing);
        var m;
        ghost var dk;
        m, dk := ForcedDispatchCfqq(k);
        DrainStep(r, qs0, qs, d, k, queues[k], dk);
        BusyLess(qs, order0, left0, busy0, k, queues[k], InOrder(service), left, busy);
        Assoc(old(out), d, dk);
        n, d := n + m, d + dk;
        first := RbFirst();
      }
      FirstIsFirst(service);
      AllIdle(r, queues, left, busy);
      NoneLeft(qs0, queues, d);
    }

    /** __cfq_forced_dispatch_cfqq: the FIFO is empty at the end. */
    method ForcedDispatchCfqq(k: nat) returns (n: nat, ghost d: seq<nat>)
      requires Service() && k in queues && QueueOk(r, queues[k], Nothing)
      modifies this`service, this`left, this`busy, this`queues, this`out
      ensures Service() && k in queues && queues == old(queues)[k := queues[k]] && QueueOk(r, queues[k], Nothing)
      ensures queues[k].fifo == [] && !queues[k].onRr && n == |d|
      ensures out == old(out) + d && NoDup(d) && forall x :: x in d <==> x in old(queues)[k].fifo
    {
      hide ServiceOk, CountsOk, Known, Dispatched;
      n, d := 0, [];
      while queues[k].next.Some?
        invariant Service() && k in queues && queues == old(queues)[k := queues[k]] && QueueOk(r, queues[k], Nothing)
        invariant n == |d| && out == old(out) + d && NoDup(d)
        invariant forall x :: x in old(queues)[k].fifo <==> x in d || x in queues[k].fifo
        invariant forall x :: !(x in d && x in queues[k].fifo)
        decreases |queues[k].tree|
      {
        var x := queues[k].next.value;
        DispatchKeeps(h, r, queues[k], Nothing, x);
        DispatchedFifo(h, r, queues[k], Nothing, x);
        DispatchInsert(k, x);
        Assoc(old(out), d, [x]);
        n, d := n + 1, d + [x];
      }
      NothingLeft(r, queues[k]);
    }
  }

  ghost predicate InQueues(qs: Queues, x: nat) {
    exists k :: k in qs && x in qs[k].fifo
  }

  /** What was queued in `qs0` has been dispatched (`d`) or is still queued, and not both. */
  ghost predicate Drained(qs0: Queues, qs: Queues, d: seq<nat>) {
    && qs.Keys == qs0.Keys
    && (forall x :: InQueues(qs0, x) <==> x in d || InQueues(qs, x))
    && (forall x :: !(x in d && InQueues(qs, x)))
  }

  lemma FirstServed(qs: Queues, order: seq<nat>, left: Option<nat>, busy: nat)
    requires ServiceOk(qs, order, left, busy) && order != []
    ensures order[0] in qs && qs[order[0]].onRr
  {}

  lemma DrainStep(r: Requests, qs0: Queues, qs: Queues, d: seq<nat>, k: nat, q: Cfqq, dk: seq<nat>)
    requires QueuesOk(r, qs) && Drained(qs0, qs, d) && NoDup(d) && NoDup(dk)
    requires k in qs && q.fifo == [] && QueueOk(r, q, Nothing) && forall x :: x in dk <==> x in qs[k].fifo
    ensures QueuesOk(r, qs[k := q]) && Drained(qs0, qs[k := q], d + dk) && NoDup(d + dk)
  {
    hide QueueOk;
    forall x ensures InQueues(qs, x) <==> x in dk || InQueues(qs[k := q], x) {
      if InQueues(qs, x) && x !in dk {
        var m :| m in qs && x in qs[m].fifo;
        assert m in qs[k := q] && x in qs[k := q][m].fifo;
      }
    }
    forall x | x in dk ensures !InQueues(qs[k := q], x) && InQueues(qs, x) {}
    NoDupAppend(d, dk);
  }

  lemma BusyLess(qs: Queues, order: seq<nat>, left: Option<nat>, busy: nat, k: nat, q: Cfqq,
                 order': seq<nat>, left': Option<nat>, busy': nat)
    requires ServiceOk(qs, order, left, busy) && k in qs && qs[k].onRr && !q.onRr
    requires ServiceOk(qs[k := q], order', left', busy')
    ensures busy' == busy - 1
  {
    NoDupCard(order);
    NoDupCard(order');
    assert k in order && k !in order';
    forall x ensures x in order <==> x in order' || x == k {
      assert x != k ==> (x in qs <==> x in qs[k := q]);
    }
    assert AsSet(order) == AsSet(order') + {k};
  }

  lemma AllIdle(r: Requests, qs: Queues, left: Option<nat>, busy: nat)
    requires QueuesOk(r, qs) && ServiceOk(qs, [], left, busy)
    ensures busy == 0 && forall k | k in qs :: qs[k].tree == [] && qs[k].fifo == [] && qs[k].next == None
  {
    forall k | k in qs ensures qs[k].tree == [] && qs[k].fifo == [] && qs[k].next == None {
      assert QueueOk(r, qs[k], Nothing) && !qs[k].onRr;
      NothingLeft(r, qs[k]);
    }
  }

  lemma NoneLeft(qs0: Queues, qs: Queues, d: seq<nat>)
    requires Drained(qs0, qs, d) && forall k | k in qs :: qs[k].fifo == []
    ensures forall x :: x in d <==> InQueues(qs0, x)
  {}

  /** Without a next request there is none at all. */
  lemma NothingLeft(r: Requests, q: Cfqq)
    requires QueueOk(r, q, Nothing) && q.next == None
    ensures q.tree == [] && q.fifo == [] && !q.onRr
  {
    NoDupCard(q.fifo);
    assert AsSet(q.fifo) == {};
  }

  lemma MovedOk(r: Requests, q: Cfqq, x: nat, y: nat)
    requires QueueOk(r, q, Nothing) && x in q.tree && y in q.tree && x != y
    ensures x in q.fifo && y in Without(q.fifo, x)
    ensures QueueOk(r, q.(fifo := MovedAfter(q.fifo, x, y)), Nothing)
    ensures forall z :: z in MovedAfter(q.fifo, x, y) <==> z in q.fifo
  {
    assert x in q.fifo && y in q.fifo;
    WithoutMembers(q.fifo, x);
    MovedMembers(q.fifo, x, y);
  }

  /** The queue with `x` out of its tree, under the new start of `x`. */
  lemma Grow(r: Requests, qs: Queues, k: nat, x: nat, n: nat)
    requires QueuesOk(r, qs) && k in qs && x in qs[k].tree && x in r.pos && n <= r.pos[x]
    ensures var r' := r.(pos := r.pos[x := r.pos[x] - n]);
            && AgreeBut(r, r', x) && x in r.info && x in qs[k].fifo
            && QueueOk(r', qs[k].(tree := Without(qs[k].tree, x)), Held(x))
  {
    assert QueueOk(r, qs[k], Nothing);
    TakenOut(r, qs[k], x);
    DeletedSorted(r.pos, qs[k].tree, x);
    QueueFrame(r, r.(pos := r.pos[x := r.pos[x] - n]), qs[k].(tree := Without(qs[k].tree, x)), Held(x));
  }

  lemma EnteredIs(h: Head, r: Requests, q: Cfqq, p: Pending)
    requires QueueOk(r, q, p) && p != Nothing && p.x in r.pos && p.x in r.info && (p.Adding? ==> p.x !in q.fifo)
    ensures var v := Evicted(h, r, q, p);
            && (v.next.Some? ==> v.next.value in r.pos && v.next.value in r.info)
            && Entered(h, r, q, p) == InFifo(LinkedIn(h, r, v, p.x), p)
    ensures var d := Aliases(h, r, q, p); NoDup(d) && forall y :: y in d <==> y in q.fifo && y !in Entered(h, r, q, p).fifo
  {
    var v := Evicted(h, r, q, p);
    LinkedKeeps(h, r, v, p);
    AliasesAre(h, r, q, p);
    hide Evicted, Aliases;
    assert Entered(h, r, q, p).fifo == if p.Adding? then v.fifo + [p.x] else v.fifo;
  }

  lemma NewcomerAgrees(r: Requests, r': Requests, x: nat)
    requires r'.pos.Keys == r.pos.Keys + {x} && r'.info.Keys == r.info.Keys + {x}
    requires (forall y | y != x && y in r.pos :: r'.pos[y] == r.pos[y]) && forall y | y != x && y in r.info :: r'.info[y] == r.info[y]
    ensures AgreeBut(r, r', x)
  {}

  lemma FifoDistinct(r: Requests, q: Cfqq)
    requires QueueOk(r, q, Nothing)
    ensures NoDup(q.fifo)
  {}

  lemma InTree(r: Requests, q: Cfqq, x: nat)
    requires QueueOk(r, q, Nothing) && x in q.fifo
    ensures x in q.tree
  {}
}
