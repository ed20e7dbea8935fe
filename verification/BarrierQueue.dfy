/** The request queue as the object the kernel updates in place.  Each method is proved against
    the step function of the state machine it implements. */
module BarrierQueue {
  import opened Lists
  import opened Options
  import opened DispatchSort
  import opened BarrierModel
  import opened BarrierInvariant
  import opened BarrierSafety

  /** What the proofs remember of a run; none of it is in the original. */
  datatype History = History(driver: set<Ref>, ended: map<nat, int>, trail: seq<Note>,
                             trails: map<nat, seq<Note>>, bug: bool)

  function Stashed(s: Queue): Queue
    requires s.head != [] && s.head[0].Rq? && s.head[0].id < |s.rqs|
  {
    var b := s.head[0];
    s.(orderr := 0, ordered := Effective(s.nextOrdered, s.rqs[b.id]), ordseq := s.ordseq + {Started},
       head := s.head[1..], inFlight := if Accounted(s, b) then s.inFlight + 1 else s.inFlight,
       orig := b.id, trail := [])
  }

  function Pushed(s: Queue, cond: bool, r: Ref): Queue {
    if cond then s.(head := [r] + s.head, soft := s.soft + {r}, started := s.started - {r}) else s
  }

  function Restacked(t: Queue, head: seq<Ref>, soft: set<Ref>, started: set<Ref>): Queue {
    t.(head := head, soft := soft, started := started)
  }

  lemma PushShape(t: Queue, cond: bool, r: Ref)
    ensures var p := if cond then [r] else [];
            Pushed(t, cond, r) == Restacked(t, p + t.head, t.soft + (set x | x in p), t.started - (set x | x in p))
  {}

  /** Stacking the proxies one by one, last first, gives the queue that the model describes. */
  lemma StackChain(s: Queue, t: Queue)
    requires s.head != [] && s.head[0].Rq? && s.head[0].id < |s.rqs| && s.nextOrdered.DrainBy?
    requires t == Stashed(s)
    ensures var o := t.ordered;
            Pushed(Pushed(Pushed(t, o.postflush, PostFlushRq), o.bar, BarRq), o.preflush, PreFlushRq) == Stacked(s)
  {
    var o := t.ordered;
    var t1 := Pushed(t, o.postflush, PostFlushRq);
    var t2 := Pushed(t1, o.bar, BarRq);
    var t3 := Pushed(t2, o.preflush, PreFlushRq);
    PushShape(t, o.postflush, PostFlushRq);
    PushShape(t1, o.bar, BarRq);
    PushShape(t2, o.preflush, PreFlushRq);
    assert t3 == Restacked(t, t3.head, t3.soft, t3.started);
    StackedShape(s, t);
    ChainHead(o, s.head[1..]);
    ChainSets(o, s.soft, s.started);
  }

  lemma StackedShape(s: Queue, t: Queue)
    requires s.head != [] && s.head[0].Rq? && s.head[0].id < |s.rqs| && t == Stashed(s)
    ensures var p := Proxies(t.ordered);
            Stacked(s) == Restacked(t, p + s.head[1..], s.soft + (set r | r in p), s.started - (set r | r in p))
  {}

  lemma ChainHead(o: Ordered, q: seq<Ref>)
    requires o.DrainBy?
    ensures (if o.preflush then [PreFlushRq] else []) + ((if o.bar then [BarRq] else [])
            + ((if o.postflush then [PostFlushRq] else []) + q)) == Proxies(o) + q
  {}

  lemma ChainSets(o: Ordered, a: set<Ref>, b: set<Ref>)
    requires o.DrainBy?
    ensures var pre, bar, post := if o.preflush then [PreFlushRq] else [], if o.bar then [BarRq] else [],
                                  if o.postflush then [PostFlushRq] else [];
            && a + (set r | r in post) + (set r | r in bar) + (set r | r in pre) == a + (set r | r in Proxies(o))
            && b - (set r | r in post) - (set r | r in bar) - (set r | r in pre) == b - (set r | r in Proxies(o))
  {}

  class RequestQueue {
    const nextOrdered: Ordered
    var rqs: seq<Request>
    var head: seq<Ref>
    var elv: seq<Ref>
    var soft: set<Ref>
    var started: set<Ref>
    var inFlight: int
    var ordcolor: bool
    var ordseq: set<Step>
    var orderr: int
    var ordered: Ordered
    var orig: nat
    var endSector: int
    var boundary: Option<Ref>
    ghost var history: History

    ghost function State(): Queue
      reads this
    {
      Queue(nextOrdered, rqs, head, elv, history.driver, soft, started, inFlight, ordcolor, ordseq, orderr,
            ordered, orig, endSector, boundary, history.ended, history.trail, history.trails, history.bug)
    }

    constructor (o: Ordered)
      ensures State() == Init(o)
    {
      nextOrdered, ordered := o, o;
      rqs, head, elv, soft, started := [], [], [], {}, {};
      inFlight, ordcolor, ordseq, orderr, orig := 0, false, {}, 0, 0;
      endSector, boundary := 0, None;
      history := History({}, map[], [], map[], false);
    }

    /** blk_ordered_complete_seq. */
    method FinishSteps(steps: set<Step>, err: int) returns (over: bool)
      modifies this`orderr, this`ordseq, this`inFlight, this`history
      ensures State() == CompleteSeq(old(State()), steps, err)
      ensures over == Finishes(old(State()), steps)
    {
      if err != 0 && orderr == 0 {
        orderr := err;
      }
      history := history.(bug := history.bug || ordseq * steps != {});
      ordseq := ordseq + steps;
      over := FirstZero(ordseq) == Done;
      if over {
        EndSequence();
      }
    }

    /** The end of blk_ordered_complete_seq: the original barrier ends with the first error. */
    method EndSequence()
      modifies this`ordseq, this`inFlight, this`history
      ensures var s := old(State()).(ordseq := {}, trails := old(history.trails)[old(orig) := old(history.trail)]);
              State() == PutAccount(EndRequest(s, s.orig, s.orderr), Rq(s.orig))
    {
      ordseq := {};
      history := history.(bug := history.bug || orig in history.ended,
                          ended := history.ended[orig := orderr],
                          trails := history.trails[orig := history.trail]);
      if Rq(orig) in started && IsFs(rqs, Rq(orig)) {
        inFlight := inFlight - 1;
      }
    }

    /** elv_completed_request. */
    method CompletedRequest(r: Ref)
      modifies this`orderr, this`ordseq, this`inFlight, this`history
      ensures State() == ElvCompleted(old(State()), r)
    {
      if r in started && IsFs(rqs, r) {
        inFlight := inFlight - 1;
      }
      if ordseq != {} {
        if inFlight == 0 && FirstZero(ordseq) == Drain && (head == [] || Rank(SeqOf(rqs, orig, head[0])) > Rank(Drain)) {
          var over := FinishSteps({Drain}, 0);
        }
      }
    }

    /** start_ordered: the proxies are stacked in reverse order. */
    method BeginSequence() returns (keep: bool, rq: Option<Ref>)
      requires head != [] && head[0].Rq? && head[0].id < |rqs| && nextOrdered.DrainBy?
      modifies this`orderr, this`ordered, this`ordseq, this`head, this`soft, this`started, this`inFlight, this`orig, this`history
      ensures var v := StartOrdered(old(State())); State() == v.q && keep == v.keep && rq == v.rq
    {
      ghost var s := State();
      TakeBarrier();
      var skip;
      rq, skip := StackProxies();
      StackChain(s, Stashed(s));
      if inFlight != 0 {
        rq := None;
      } else {
        skip := skip + {Drain};
      }
      assert skip == StartSkip(Stacked(s));
      var over := FinishSteps(skip, 0);
      keep := !over;
    }

    /** The proxies that the flags ask for, last first; the bits of the others are skipped. */
    method StackProxies() returns (rq: Option<Ref>, skip: set<Step>)
      requires ordered.DrainBy?
      modifies this`head, this`soft, this`started
      ensures var t, o := old(State()), old(ordered);
              State() == Pushed(Pushed(Pushed(t, o.postflush, PostFlushRq), o.bar, BarRq), o.preflush, PreFlushRq)
      ensures skip == Skipped(ordered)
      ensures var p := Proxies(ordered); rq == if p == [] then None else Some(p[0])
    {
      rq, skip := None, {};
      ghost var t := State();
      if ordered.postflush {
        Stack(PostFlushRq);
        rq := Some(PostFlushRq);
      } else {
        skip := skip + {PostFlush};
      }
      ghost var t1 := State();
      assert t1 == Pushed(t, ordered.postflush, PostFlushRq);
      if ordered.bar {
        Stack(BarRq);
        rq := Some(BarRq);
      } else {
        skip := skip + {Bar};
      }
      ghost var t2 := State();
      assert t2 == Pushed(t1, ordered.bar, BarRq);
      if ordered.preflush {
        Stack(PreFlushRq);
        rq := Some(PreFlushRq);
      } else {
        skip := skip + {PreFlush};
      }
    }

    /** blk_dequeue_request for the request at the head. */
    method DequeueHead()
      requires head != []
      modifies this`head, this`inFlight
      ensures State() == old(State()).(head := old(head)[1..],
                inFlight := if Accounted(old(State()), old(head)[0]) then old(inFlight) + 1 else old(inFlight))
    {
      var r := head[0];
      head := head[1..];
      if r in started && IsFs(rqs, r) {
        inFlight := inFlight + 1;
      }
    }

    method EnterSequence(o: Ordered)
      modifies this`orderr, this`ordered, this`ordseq
      ensures State() == old(State()).(orderr := 0, ordered := o, ordseq := old(ordseq) + {Started})
    {
      orderr, ordered, ordseq := 0, o, ordseq + {Started};
    }

    /** The barrier at the head is dequeued and stashed away. */
    method TakeBarrier()
      requires head != [] && head[0].Rq? && head[0].id < |rqs|
      modifies this`orderr, this`ordered, this`ordseq, this`head, this`inFlight, this`orig, this`history
      ensures State() == Stashed(old(State()))
    {
      hide Effective;
      var b := head[0];
      EnterSequence(Effective(nextOrdered, rqs[b.id]));
      DequeueHead();
      orig := b.id;
      history := history.(trail := []);
    }

    /** One proxy: initialized, then inserted at the front. */
    method Stack(r: Ref)
      modifies this`head, this`soft, this`started
      ensures State() == Pushed(old(State()), true, r)
    {
      started := started - {r};
      soft := soft + {r};
      head := [r] + head;
    }

    /** blk_do_ordered. */
    method CheckHead() returns (keep: bool, rq: Option<Ref>)
      requires head != []
      modifies this`orderr, this`ordered, this`ordseq, this`head, this`soft, this`started, this`inFlight, this`orig, this`history
      ensures var v := DoOrdered(old(State())); State() == v.q && keep == v.keep && rq == v.rq
    {
      var r := head[0];
      if ordseq == {} {
        if KindOf(rqs, r) != Barrier || !r.Rq? {
          return true, Some(r);
        }
        if nextOrdered.DrainBy? {
          keep, rq := BeginSequence();
          return;
        }
        DequeueHead();
        history := history.(bug := history.bug || r.id in history.ended,
                            ended := history.ended[r.id := EOPNOTSUPP]);
        if r in started && IsFs(rqs, r) {
          inFlight := inFlight - 1;
        }
        return false, None;
      }
      if !IsFs(rqs, r) && r.Rq? {
        return true, Some(r);
      }
      history := history.(bug := history.bug || Rank(SeqOf(rqs, orig, r)) < Rank(FirstZero(ordseq)));
      if Rank(SeqOf(rqs, orig, r)) > Rank(FirstZero(ordseq)) {
        return true, None;
      }
      return true, Some(r);
    }

    /** noop_dispatch. */
    method Dispatch() returns (some: bool)
      modifies this`head, this`elv
      ensures some == (old(elv) != [])
      ensures State() == if some then NoopDispatch(old(State())) else old(State())
    {
      if elv == [] {
        return false;
      }
      var r := elv[0];
      elv := elv[1..];
      var views := ViewsIn(rqs, soft, started, head);
      var p := Scan(views, ViewIn(rqs, soft, started, r), endSector);
      head := Inserted(head, p, r);
      return true;
    }

    /** elv_drain_elevator. */
    method DrainScheduler()
      modifies this`head, this`elv
      ensures State() == DrainElevator(old(State()))
    {
      ghost var s := State();
      var some := Dispatch();
      while some
        invariant DrainElevator(s) == DrainElevator(State())
        invariant !some ==> elv == []
        decreases |elv|, some
      {
        some := Dispatch();
      }
    }

    /** __elv_next_request. */
    method FetchLoop() returns (rq: Option<Ref>)
      modifies this`orderr, this`ordered, this`ordseq, this`head, this`elv, this`soft, this`started, this`inFlight, this`orig, this`history
      ensures var f := NextRequest(old(State())); State() == f.q && rq == f.rq
    {
      ghost var s := State();
      while true
        invariant NextRequest(s) == NextRequest(State())
        decreases |elv|
      {
        ghost var n := |elv|;
        while head != []
          invariant |elv| == n
          invariant NextRequest(s) == NextRequest(State())
          decreases |head|
        {
          ghost var d := State();
          var keep, r := CheckHead();
          if keep {
            return r;
          }
          GoneShrinks(d);
        }
        var some := Dispatch();
        if !some {
          return None;
        }
      }
    }

    /** blk_peek_request: every request it returns respects every barrier. */
    method PeekRequest() returns (rq: Option<Ref>)
      modifies this`orderr, this`ordered, this`ordseq, this`head, this`elv, this`soft, this`started, this`inFlight, this`orig, this`endSector, this`boundary, this`history
      ensures State() == Peek(old(State())).q && rq == Peek(old(State())).rq
      ensures Inv(old(State())) ==> Inv(State()) && (rq.Some? ==> SafeHandOut(State(), rq.value))
    {
      ghost var s := State();
      rq := FetchLoop();
      if rq.Some? {
        MarkStarted(rq.value);
      }
      if Inv(s) {
        PeekIsSafe(s);
      }
    }

    /** The request is started, and the boundary moves to it unless another one is pending. */
    method MarkStarted(r: Ref)
      modifies this`started, this`endSector, this`boundary
      ensures var q := old(State()).(started := old(started) + {r});
              State() == if q.boundary.None? || q.boundary == Some(r)
                         then q.(endSector := EndOf(q, r), boundary := None) else q
    {
      started := started + {r};
      if boundary.None? || boundary == Some(r) {
        boundary := None;
        endSector := match r
          case Rq(id) => if id < |rqs| then rqs[id].pos + rqs[id].sectors else 0
          case BarRq => if orig < |rqs| then rqs[orig].pos + rqs[orig].sectors else 0
          case _ => -1;
      }
    }

    /** blk_start_request. */
    method StartRequest(r: Ref)
      requires r in head
      modifies this`head, this`inFlight, this`history
      ensures State() == Start(old(State()), r)
    {
      head := Without(head, r);
      history := history.(driver := history.driver + {r});
      if r in started && IsFs(rqs, r) {
        inFlight := inFlight + 1;
      }
    }

    /** The end of a request: blk_finish_request, or the end_io callback of a proxy. */
    method EndIo(r: Ref, err: int)
      modifies this`orderr, this`ordseq, this`inFlight, this`history
      ensures State() == Complete(old(State()), r, err)
    {
      history := history.(driver := history.driver - {r});
      if r.Rq? {
        history := history.(bug := history.bug || r.id in history.ended, ended := history.ended[r.id := err]);
        CompletedRequest(r);
      } else {
        CompletedRequest(r);
        history := history.(trail := history.trail + [Note(ProxyStep(r), err)]);
        var over := FinishSteps({ProxyStep(r)}, err);
      }
    }

    /** elv_requeue_request. */
    method RequeueRequest(r: Ref)
      modifies this`head, this`soft, this`started, this`inFlight, this`history
      ensures State() == Requeue(old(State()), r)
    {
      GiveBack(r);
      var p := 0;
      if ordseq != {} {
        p := FindPlace(SeqOf(rqs, orig, r));
      }
      head := Inserted(head, p, r);
    }

    /** The request is no longer the driver's. */
    method GiveBack(r: Ref)
      modifies this`soft, this`started, this`inFlight, this`history
      ensures State() == Returned(old(State()), r)
    {
      if r in started && IsFs(rqs, r) {
        inFlight := inFlight - 1;
      }
      history := history.(driver := history.driver - {r});
      started := started - {r};
      soft := soft + {r};
    }

    /** The scan of ELEVATOR_INSERT_REQUEUE. */
    method FindPlace(t: Step) returns (p: nat)
      ensures p == RequeueAt(State(), t, 0)
    {
      p := 0;
      while p < |head|
        invariant 0 <= p <= |head|
        invariant RequeueAt(State(), t, 0) == RequeueAt(State(), t, p)
      {
        if Rank(t) <= Rank(SeqOf(rqs, orig, head[p])) {
          break;
        }
        p := p + 1;
      }
    }

    /** __elv_add_request. */
    method AddRequest(b: Bio, where: Where)
      modifies this`rqs, this`head, this`elv, this`soft, this`ordcolor, this`endSector, this`boundary
      ensures State() == Submit(old(State()), b, where)
    {
      var target := where;
      if b.soft || IsHard(b.kind) {
        if where == Sort {
          target := Back;
        }
        if !b.kind.Special? {
          SetBoundary(b.pos + b.sectors, Rq(|rqs|));
        }
      } else if !b.priv && where == Sort {
        target := Back;
      }
      assert target == Target(b, where);
      ghost var s1 := State();
      assert s1 == Bounded(old(State()), b);
      if target == Back {
        DrainScheduler();
      }
      ghost var s2 := State();
      assert s2 == if target == Back then DrainElevator(s1) else s1;
      InsertRequest(b, target);
    }

    method SetBoundary(end: int, r: Ref)
      modifies this`endSector, this`boundary
      ensures State() == old(State()).(endSector := end, boundary := Some(r))
    {
      endSector := end;
      boundary := Some(r);
    }

    /** elv_insert. */
    method InsertRequest(b: Bio, where: Where)
      modifies this`rqs, this`head, this`elv, this`soft, this`ordcolor
      ensures State() == Insert(old(State()), b, where)
    {
      var r := Rq(|rqs|);
      RegisterRequest(b);
      match where {
        case Front =>
          soft := soft + {r};
          head := [r] + head;
        case Back =>
          soft := soft + {r};
          head := head + [r];
        case Sort =>
          elv := elv + [r];
      }
    }

    /** The request takes the current colour, and REQ_HARDBARRIER toggles the colour. */
    method RegisterRequest(b: Bio)
      modifies this`rqs, this`soft, this`ordcolor
      ensures State() == Register(old(State()), b)
    {
      if b.soft {
        soft := soft + {Rq(|rqs|)};
      }
      rqs := rqs + [Request(b.kind, b.pos, b.sectors, b.write, b.discard, ordcolor, CurEpoch(rqs))];
      if IsHard(b.kind) {
        ordcolor := !ordcolor;
      }
    }
  }
}
