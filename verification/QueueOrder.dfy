/** Where requests enter the queue and around which sector they are sorted (elevator.c), in terms of
    the requests themselves. */
module QueueOrder {
  import opened Lists
  import opened Options
  import opened DispatchSort
  import opened BarrierModel
  import opened BarrierInvariant

  /** The request is recorded as it was submitted, and the others stay as they are. */
  lemma SubmitRecords(s: Queue, b: Bio, w: Where)
    ensures var t := Submit(s, b, w).rqs;
            && |t| == |s.rqs| + 1 && t[..|s.rqs|] == s.rqs
            && var x := t[|s.rqs|];
            && x.kind == b.kind && x.pos == b.pos && x.sectors == b.sectors && x.write == b.write && x.discard == b.discard
            && x.color == s.ordcolor
  {
    hide DrainElevator;
    var s1 := Bounded(s, b);
    assert s1.rqs == s.rqs && s1.ordcolor == s.ordcolor;
    InsertRecords(if Target(b, w) == Back then DrainElevator(s1) else s1, b, Target(b, w));
  }

  lemma InsertRecords(s: Queue, b: Bio, w: Where)
    ensures var d := Insert(s, b, w);
            && d.rqs == s.rqs + [Request(b.kind, b.pos, b.sectors, b.write, b.discard, s.ordcolor, CurEpoch(s.rqs))]
            && d.endSector == s.endSector && d.boundary == s.boundary
  {}

  /** A request goes to the scheduler exactly if that was asked for, it is no boundary of any kind and
      the scheduler has data for it. */
  lemma SortedExactly(s: Queue, b: Bio, w: Where)
    requires Places(s) && Enabled(s, SubmitA(b, w))
    ensures Rq(|s.rqs|) in Submit(s, b, w).elv <==> w == Sort && b.kind == Fs && !b.soft && b.priv
  {
    hide NoDup, DrainElevator;
    assert Rq(|s.rqs|) !in s.elv;
  }

  /** There it goes behind all others; otherwise it goes to the very front of the queue, or to its very
      end after everything that the scheduler had. */
  lemma SubmitEnds(s: Queue, b: Bio, w: Where)
    requires Enabled(s, SubmitA(b, w))
    ensures var d, r := Submit(s, b, w), Rq(|s.rqs|);
            && (w == Front ==> d.head == [r] + s.head && d.elv == s.elv)
            && (w == Back || (w == Sort && !(b.kind == Fs && !b.soft && b.priv)) ==>
                  d.elv == [] && d.head != [] && d.head[|d.head|-1] == r)
            && (w == Sort && b.kind == Fs && !b.soft && b.priv ==> d.elv == s.elv + [r] && d.head == s.head)
  {
    hide DrainElevator;
  }

  /** A file system request with a barrier flag moves the boundary to its end, and becomes the one that
      the boundary waits for; others leave it. */
  lemma SubmitBoundary(s: Queue, b: Bio, w: Where)
    ensures var d := Submit(s, b, w);
            if !b.kind.Special? && (b.soft || b.kind == Barrier) then d.endSector == b.pos + b.sectors && d.boundary == Some(Rq(|s.rqs|))
            else d.endSector == s.endSector && d.boundary == s.boundary
  {
    hide DrainElevator, Insert;
    var s1 := Bounded(s, b);
    InsertRecords(if Target(b, w) == Back then DrainElevator(s1) else s1, b, Target(b, w));
  }

  /** The request that the boundary waits for, if any, is where it stands. */
  ghost predicate BoundaryOk(s: Queue) {
    s.boundary.Some? && s.boundary.value.Rq? ==>
      s.boundary.value.id < |s.rqs| && s.endSector == s.rqs[s.boundary.value.id].pos + s.rqs[s.boundary.value.id].sectors
  }

  /** The requests and the boundary are the same. */
  predicate SameBoundary(s: Queue, d: Queue) {
    d.rqs == s.rqs && d.endSector == s.endSector && d.boundary == s.boundary
  }

  lemma CompleteSeqFrame(s: Queue, steps: set<Step>, err: int)
    ensures SameBoundary(s, CompleteSeq(s, steps, err)) && CompleteSeq(s, steps, err).elv == s.elv
  {}

  lemma DoOrderedFrame(s: Queue)
    requires s.head != []
    ensures SameBoundary(s, DoOrdered(s).q) && DoOrdered(s).q.elv == s.elv
  {
    hide CompleteSeq, Proxies, Skipped;
    var r := s.head[0];
    if !Active(s) && r.Rq? && KindOf(s.rqs, r) == Barrier {
      CompleteSeqFrame(Stacked(s), StartSkip(Stacked(s)), 0);
    }
  }

  lemma CompleteFrame(s: Queue, r: Ref, err: int)
    ensures SameBoundary(s, Complete(s, r, err)) && Complete(s, r, err).elv == s.elv
  {
    hide CompleteSeq, ElvCompleted;
    var s1 := s.(driver := s.driver - {r});
    if r.Rq? {
      ElvCompletedFrame(EndRequest(s1, r.id, err), r);
    } else {
      ElvCompletedFrame(s1, r);
      var s2 := ElvCompleted(s1, r);
      CompleteSeqFrame(s2.(trail := s2.trail + [Note(ProxyStep(r), err)]), {ProxyStep(r)}, err);
    }
  }

  lemma ElvCompletedFrame(s: Queue, r: Ref)
    ensures SameBoundary(s, ElvCompleted(s, r)) && ElvCompleted(s, r).elv == s.elv
  {
    hide CompleteSeq;
    CompleteSeqFrame(PutAccount(s, r), {Drain}, 0);
  }

  lemma {:induction false} FetchFrame(s: Queue)
    ensures SameBoundary(s, NextRequest(s).q)
    decreases |s.elv|, |s.head|
  {
    hide DoOrdered;
    if s.head != [] { DoOrderedFrame(s); }
    if s.head == [] {
      if s.elv != [] { FetchFrame(NoopDispatch(s)); }
    } else if !DoOrdered(s).keep {
      GoneShrinks(s);
      FetchFrame(DoOrdered(s).q);
    }
  }

  /** Fetching a request moves the boundary to its end unless the boundary waits for another one. */
  lemma PeekBoundary(s: Queue, x: nat)
    requires Peek(s).rq == Some(Rq(x)) && x < |s.rqs|
    ensures var d := Peek(s).q;
            if s.boundary.Some? && s.boundary != Some(Rq(x)) then d.endSector == s.endSector && d.boundary == s.boundary
            else d.endSector == s.rqs[x].pos + s.rqs[x].sectors && d.boundary == None
  {
    hide NextRequest;
    FetchFrame(s);
  }

  /** The data of a barrier count as the barrier itself, and a flush has no place. */
  lemma PeekProxyBoundary(s: Queue, r: Ref)
    requires Peek(s).rq == Some(r) && !r.Rq? && s.boundary == None && NextRequest(s).q.orig < |s.rqs|
    ensures var d := Peek(s).q;
            && d.boundary == None && d.orig < |s.rqs|
            && d.endSector == if r == BarRq then s.rqs[d.orig].pos + s.rqs[d.orig].sectors else -1
  {
    hide NextRequest;
    FetchFrame(s);
  }

  lemma StepBoundary(s: Queue, a: Action)
    requires BoundaryOk(s) && Enabled(s, a)
    ensures BoundaryOk(Next(s, a))
  {
    hide Submit, Complete, NextRequest;
    match a
    case SubmitA(b, w) =>
      SubmitRecords(s, b, w);
      SubmitBoundary(s, b, w);
      var d := Submit(s, b, w);
      assert s.boundary.Some? && s.boundary.value.Rq? ==> d.rqs[..|s.rqs|][s.boundary.value.id] == s.rqs[s.boundary.value.id];
    case PeekA => FetchFrame(s);
    case StartA(r) =>
    case CompleteA(r, e) => CompleteFrame(s, r, e);
    case RequeueA(r) =>
  }

  /** In every run, while the boundary waits for a request it is the end of that request. */
  lemma {:induction false} BoundaryWaits(states: seq<Queue>, actions: seq<Action>, i: nat)
    requires IsRun(states, actions) && i < |states|
    ensures BoundaryOk(states[i])
  {
    if i > 0 {
      BoundaryWaits(states, actions, i - 1);
      assert Enabled(states[i-1], actions[i-1]) && states[i-1+1] == Next(states[i-1], actions[i-1]);
      StepBoundary(states[i-1], actions[i-1]);
    }
  }

  /** The scheduler holds its requests in the order in which they were submitted. */
  ghost predicate InSubmitOrder(s: Queue) {
    && (forall i | 0 <= i < |s.elv| :: s.elv[i].Rq? && s.elv[i].id < |s.rqs|)
    && (forall i, j | 0 <= i < j < |s.elv| :: s.elv[i].id < s.elv[j].id)
  }

  /** Fetching takes requests from the front only. */
  lemma {:induction false} FetchElv(s: Queue) returns (k: nat)
    ensures k <= |s.elv| && NextRequest(s).q.elv == s.elv[k..]
    decreases |s.elv|, |s.head|
  {
    hide DoOrdered;
    k := 0;
    if s.head == [] {
      if s.elv != [] {
        k := FetchElv(NoopDispatch(s));
        k := k + 1;
      }
    } else {
      DoOrderedFrame(s);
      if !DoOrdered(s).keep {
        GoneShrinks(s);
        k := FetchElv(DoOrdered(s).q);
      }
    }
  }

  lemma SubmitInOrder(s: Queue, b: Bio, w: Where)
    requires InSubmitOrder(s) && Enabled(s, SubmitA(b, w))
    ensures InSubmitOrder(Submit(s, b, w))
  {
    hide Submit, Enabled;
    SubmitRecords(s, b, w);
    SubmitEnds(s, b, w);
  }

  lemma StepInOrder(s: Queue, a: Action)
    requires InSubmitOrder(s) && Enabled(s, a)
    ensures InSubmitOrder(Next(s, a))
  {
    hide Submit, Complete, NextRequest, RequeueIndex;
    match a
    case SubmitA(b, w) => SubmitInOrder(s, b, w);
    case PeekA =>
      FetchFrame(s);
      var k := FetchElv(s);
    case StartA(r) =>
    case CompleteA(r, e) => CompleteFrame(s, r, e);
    case RequeueA(r) =>
  }

  /** In every run the scheduler hands requests over in the order in which it got them. */
  lemma {:induction false} FirstInFirstOut(states: seq<Queue>, actions: seq<Action>, i: nat)
    requires IsRun(states, actions) && i < |states|
    ensures InSubmitOrder(states[i])
  {
    if i > 0 {
      FirstInFirstOut(states, actions, i - 1);
      assert Enabled(states[i-1], actions[i-1]) && states[i-1+1] == Next(states[i-1], actions[i-1]);
      StepInOrder(states[i-1], actions[i-1]);
    }
  }

  /** The entry may be overtaken by request `x`: of the same direction and kind of operation, without
      any flag, and later in the sweep from the boundary. */
  ghost predicate Passes(s: Queue, x: Request, r: Ref) {
    && r.Rq? && r.id < |s.rqs| && r !in s.soft && r !in s.started
    && var y := s.rqs[r.id];
    && y.kind !in {Barrier, Special(true)} && y.write == x.write && y.discard == x.discard
    && if x.pos >= s.endSector then y.pos < s.endSector || x.pos < y.pos else x.pos < y.pos < s.endSector
  }

  /** What the scheduler hands over is put behind the last entry that it may not pass. */
  lemma DispatchPlace(s: Queue) returns (p: nat)
    requires s.elv != [] && s.elv[0].Rq? && s.elv[0].id < |s.rqs|
    ensures p <= |s.head| && NoopDispatch(s) == s.(elv := s.elv[1..], head := s.head[..p] + [s.elv[0]] + s.head[p..])
    ensures forall i | p <= i < |s.head| :: Passes(s, s.rqs[s.elv[0].id], s.head[i])
    ensures p > 0 ==> !Passes(s, s.rqs[s.elv[0].id], s.head[p-1])
  {
    hide InsertAt;
    var x := s.elv[0];
    p := InsertAt(Views(s), View(s, x), s.endSector);
    forall i | 0 <= i < |s.head|
      ensures Overtakes(View(s, x), Views(s)[i], s.endSector) <==> Passes(s, s.rqs[x.id], s.head[i])
    {
      PassesIff(s, x.id, s.head[i]);
    }
  }

  lemma PassesIff(s: Queue, x: nat, r: Ref)
    requires x < |s.rqs|
    ensures Overtakes(View(s, Rq(x)), View(s, r), s.endSector) <==> Passes(s, s.rqs[x], r)
  {}
}
