/** A queue without ordering support (QUEUE_ORDERED_NONE in blk-barrier.c): barriers are refused, and
    everything else goes on as if there were none. */
module BarrierUnsupported {
  import opened Lists
  import opened Options
  import opened BarrierModel
  import opened BarrierInvariant

  /** A run of the queue from the empty one without ordering support. */
  ghost predicate IsPlainRun(states: seq<Queue>, actions: seq<Action>) {
    && |states| == |actions| + 1 && states[0] == Init(Unsupported)
    && forall i | 0 <= i < |actions| :: Enabled(states[i], actions[i]) && states[i+1] == Next(states[i], actions[i])
  }

  predicate IsBarrier(s: Queue, r: Ref) {
    r.Rq? && IsBarrierId(s.rqs, r.id)
  }

  /** No sequence ever runs, the driver has seen no barrier, and the barriers that are over have been
      refused. */
  ghost predicate Refusing(s: Queue) {
    && s.nextOrdered == Unsupported && s.ordseq == {} && !s.bug && Places(s) && Coverage(s)
    && (forall r | r in s.head || r in s.driver || r in s.started :: r.Rq? && r.id < |s.rqs|)
    && (forall r | r in s.driver || r in s.started :: !IsBarrier(s, r))
    && (forall b | b in s.ended && IsBarrierId(s.rqs, b) :: s.ended[b] == EOPNOTSUPP)
  }

  lemma {:induction false} DrainRefuses(s: Queue)
    requires Refusing(s)
    ensures Refusing(DrainElevator(s))
    decreases |s.elv|
  {
    if s.elv != [] {
      NoopRefuses(s);
      DrainRefuses(NoopDispatch(s));
    }
  }

  lemma NoopRefuses(s: Queue)
    requires Refusing(s) && s.elv != []
    ensures Refusing(NoopDispatch(s))
  {
    hide Places, Coverage;
    NoopPlaces(s);
    ElvKnown(s);
  }

  lemma ElvKnown(s: Queue)
    requires Places(s) && s.elv != []
    ensures s.elv[0].Rq? && s.elv[0].id < |s.rqs|
  {
    assert s.elv[0] in s.elv;
  }

  lemma InsertRefuses(s: Queue, b: Bio, where: Where)
    requires Refusing(s) && CanInsert(s, b, where)
    ensures Refusing(Insert(s, b, where))
  {
    hide Places, Coverage;
    InsertPlaces(s, b, where);
    InsertCoverage(s, b, where);
    EndedKnown(s);
  }

  lemma EndedKnown(s: Queue)
    requires Places(s)
    ensures forall id | id in s.ended :: id < |s.rqs|
  {}

  lemma SubmitRefuses(s: Queue, b: Bio, where: Where)
    requires Refusing(s) && Enabled(s, SubmitA(b, where))
    ensures Refusing(Submit(s, b, where))
  {
    hide Insert, DrainElevator, Places;
    var s1 := Bounded(s, b);
    BoundedRefuses(s, s1.endSector, s1.boundary);
    assert s1 == s.(endSector := s1.endSector, boundary := s1.boundary);
    DrainRefuses(s1);
    InsertRefuses(if Target(b, where) == Back then DrainElevator(s1) else s1, b, Target(b, where));
  }

  lemma BoundedRefuses(s: Queue, e: int, b: Option<Ref>)
    requires Refusing(s)
    ensures Refusing(s.(endSector := e, boundary := b))
  {
    var d := s.(endSector := e, boundary := b);
    forall id | 0 <= id < |d.rqs| ensures Placed(d, id) { assert Placed(s, id); }
  }

  /** The barrier at the head ends with the error. */
  lemma HeadRefused(s: Queue)
    requires Refusing(s) && s.head != [] && IsBarrier(s, s.head[0])
    ensures var v := DoOrdered(s); !v.keep && Refusing(v.q) && s.head[0].id in v.q.ended && v.q.ended[s.head[0].id] == EOPNOTSUPP
  {
    var r, d := s.head[0], DoOrdered(s).q;
    assert r in s.head;
    assert s.head == [r] + s.head[1..];
    TailOf(s.head);
    forall id | 0 <= id < |d.rqs| ensures Placed(d, id) { assert Placed(s, id); }
  }

  lemma TailOf(q: seq<Ref>)
    requires q != [] && NoDup(q)
    ensures NoDup(q[1..]) && forall r :: r in q[1..] <==> r in q && r != q[0]
  {
    assert q == [q[0]] + q[1..];
  }

  /** The fetch passes over barriers, which end, and gives nothing only if there is nothing. */
  lemma {:induction false} FetchRefuses(s: Queue)
    requires Refusing(s)
    ensures var f := NextRequest(s);
            && Refusing(f.q)
            && (f.rq.Some? ==> f.rq.value in f.q.head && !IsBarrier(f.q, f.rq.value))
            && (f.rq == None ==> f.q.head == [] && f.q.elv == [])
    decreases |s.elv|, |s.head|
  {
    if s.head == [] {
      if s.elv != [] {
        NoopRefuses(s);
        FetchRefuses(NoopDispatch(s));
      }
    } else {
      assert s.head[0] in s.head;
      if IsBarrier(s, s.head[0]) {
        HeadRefused(s);
        GoneShrinks(s);
        FetchRefuses(DoOrdered(s).q);
      }
    }
  }

  lemma PeekRefuses(s: Queue)
    requires Refusing(s)
    ensures Refusing(Peek(s).q) && (Peek(s).rq.Some? ==> !IsBarrier(Peek(s).q, Peek(s).rq.value))
    ensures Peek(s).rq == None ==> Peek(s).q.head == [] && Peek(s).q.elv == []
  {
    hide NextRequest;
    FetchRefuses(s);
    var f, d := NextRequest(s), Peek(s).q;
    forall id | 0 <= id < |d.rqs| ensures Placed(d, id) { assert Placed(f.q, id); }
  }

  lemma StartRefuses(s: Queue, r: Ref)
    requires Refusing(s) && r in s.head && r in s.started
    ensures Refusing(Start(s, r))
  {
    hide Places, Coverage, NoDup;
    StartPlaces(s, r);
    HeadDistinct(s);
    WithoutMembers(s.head, r);
  }

  lemma HeadDistinct(s: Queue)
    requires Places(s)
    ensures NoDup(s.head)
  {}

  lemma CompleteRefuses(s: Queue, r: Ref, err: int)
    requires Refusing(s) && r in s.driver
    ensures Refusing(Complete(s, r, err)) && Complete(s, r, err).ended == s.ended[r.id := err]
  {
    var d := Complete(s, r, err);
    forall id | 0 <= id < |d.rqs| ensures Placed(d, id) { assert Placed(s, id); }
  }

  lemma RequeueRefuses(s: Queue, r: Ref)
    requires Refusing(s) && r in s.driver
    ensures Refusing(Requeue(s, r))
  {
    hide Places, Coverage, RequeueIndex;
    RequeuePlaces(s, r);
  }

  lemma StepRefuses(s: Queue, a: Action)
    requires Refusing(s) && Enabled(s, a)
    ensures Refusing(Next(s, a))
  {
    match a
    case SubmitA(b, w) => SubmitRefuses(s, b, w);
    case PeekA => PeekRefuses(s);
    case StartA(r) => StartRefuses(s, r);
    case CompleteA(r, e) => CompleteRefuses(s, r, e);
    case RequeueA(r) => RequeueRefuses(s, r);
  }

  lemma {:induction false} RunRefuses(states: seq<Queue>, actions: seq<Action>, i: nat)
    requires IsPlainRun(states, actions) && i < |states|
    ensures Refusing(states[i])
  {
    if i > 0 {
      RunRefuses(states, actions, i - 1);
      assert Enabled(states[i-1], actions[i-1]) && states[i-1+1] == Next(states[i-1], actions[i-1]);
      StepRefuses(states[i-1], actions[i-1]);
    }
  }

  /** Without ordering support, in every run whatever flags are set: no assertion fails, the driver
      never sees a barrier or a proxy, and every barrier that is over has ended with -EOPNOTSUPP. */
  lemma BarriersAreRefused(states: seq<Queue>, actions: seq<Action>, i: nat)
    requires IsPlainRun(states, actions) && i < |states|
    ensures var s := states[i];
            && !s.bug
            && (forall r | r in s.driver :: r.Rq? && r.id < |s.rqs| && s.rqs[r.id].kind != Barrier)
            && (forall b | b in s.ended && b < |s.rqs| && s.rqs[b].kind == Barrier :: s.ended[b] == -95)
  {
    RunRefuses(states, actions, i);
    var s := states[i];
    forall b | b in s.ended && b < |s.rqs| && s.rqs[b].kind == Barrier ensures s.ended[b] == -95 {
      assert IsBarrierId(s.rqs, b);
    }
  }

  /** A fetch that gives nothing has left nothing, so that all barriers are over by then. */
  lemma NothingWaits(states: seq<Queue>, actions: seq<Action>, i: nat, id: nat)
    requires IsPlainRun(states, actions) && i < |actions| && actions[i] == PeekA && Peek(states[i]).rq == None
    requires id < |states[i+1].rqs|
    ensures id in states[i+1].ended || Rq(id) in states[i+1].driver
    ensures states[i+1].rqs[id].kind == Barrier ==> id in states[i+1].ended && states[i+1].ended[id] == -95
  {
    RunRefuses(states, actions, i);
    RunRefuses(states, actions, i + 1);
    assert states[i+1] == Next(states[i], actions[i]);
    PeekRefuses(states[i]);
    assert Placed(states[i+1], id);
    BarriersAreRefused(states, actions, i + 1);
  }
}
