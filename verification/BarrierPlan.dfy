/** Which commands a barrier is carried out with (blk-barrier.c), in terms of the ordering mode of the
    queue and the size of the barrier. */
module BarrierPlan {
  import opened Options
  import opened BarrierModel
  import opened BarrierInvariant
  import opened BarrierSafety

  /** The command has been completed, with or without error. */
  ghost predicate Noted(t: seq<Note>, step: Step) {
    exists i :: 0 <= i < |t| && t[i].step == step
  }

  /** No step comes twice, and they come as flush, barrier, flush. */
  ghost predicate InStepOrder(t: seq<Note>) {
    && (forall i | 0 <= i < |t| :: t[i].step in {PreFlush, Bar, PostFlush})
    && (forall i, j | 0 <= i < j < |t| ::
          (t[i].step == PreFlush && t[j].step != PreFlush) || (t[i].step == Bar && t[j].step == PostFlush))
  }

  /** The step is one that the mode asks for; an empty barrier has neither data nor a flush after
      them. */
  predicate Asked(o: Ordered, sectors: nat, step: Step)
    requires o.DrainBy?
  {
    match step
    case PreFlush => o.preflush
    case Bar => o.bar && sectors != 0
    case PostFlush => o.postflush && sectors != 0
    case _ => false
  }

  lemma PlanAsked(o: Ordered, rq: Request)
    requires o.DrainBy?
    ensures var p := Proxies(Effective(o, rq));
            && (forall i | 0 <= i < |p| :: !p[i].Rq? && Asked(o, rq.sectors, ProxyStep(p[i])))
            && (forall r: Ref | !r.Rq? && Asked(o, rq.sectors, ProxyStep(r)) :: r in p)
            && (forall i, j | 0 <= i < j < |p| :: Rank(ProxyStep(p[i])) < Rank(ProxyStep(p[j])))
  {
    hide Proxies, Skipped;
    var e := Effective(o, rq);
    ProxiesAre(e);
    ProxiesShape(e);
  }

  lemma TrailAsked(t: seq<Note>, plan: seq<Ref>, o: Ordered, sectors: nat)
    requires o.DrainBy? && |t| == |plan| && Follows(t, plan)
    requires forall i | 0 <= i < |plan| :: !plan[i].Rq? && Asked(o, sectors, ProxyStep(plan[i]))
    requires forall r: Ref | !r.Rq? && Asked(o, sectors, ProxyStep(r)) :: r in plan
    requires forall i, j | 0 <= i < j < |plan| :: Rank(ProxyStep(plan[i])) < Rank(ProxyStep(plan[j]))
    ensures InStepOrder(t) && forall step :: Noted(t, step) <==> Asked(o, sectors, step)
  {
    forall i, j | 0 <= i < j < |t|
      ensures (t[i].step == PreFlush && t[j].step != PreFlush) || (t[i].step == Bar && t[j].step == PostFlush)
    {
      assert t[i].step == ProxyStep(plan[i]) && t[j].step == ProxyStep(plan[j]);
      assert Rank(ProxyStep(plan[i])) < Rank(ProxyStep(plan[j]));
    }
    forall step ensures Noted(t, step) <==> Asked(o, sectors, step) {
      if Noted(t, step) {
        var i :| 0 <= i < |t| && t[i].step == step;
        assert t[i].step == ProxyStep(plan[i]);
      }
      if Asked(o, sectors, step) {
        var r := if step == PreFlush then PreFlushRq else if step == Bar then BarRq else PostFlushRq;
        assert ProxyStep(r) == step && r in plan;
        var i :| 0 <= i < |plan| && plan[i] == r;
        assert t[i].step == ProxyStep(plan[i]);
      }
    }
    forall i | 0 <= i < |t| ensures t[i].step in {PreFlush, Bar, PostFlush} {
      assert t[i].step == ProxyStep(plan[i]);
    }
  }

  /** In every run an ended barrier has been carried out with exactly the commands that its mode and
      its size ask for: a flush before it, its data, a flush after them, each once and in this order. */
  lemma BarrierCommands(states: seq<Queue>, actions: seq<Action>, i: nat, b: nat)
    requires IsRun(states, actions) && HonestFlags(actions) && i < |states|
    requires b in states[i].ended && b < |states[i].rqs| && states[i].rqs[b].kind == Barrier
    ensures var s := states[i];
            && s.nextOrdered.DrainBy? && b in s.trails && InStepOrder(s.trails[b])
            && (Noted(s.trails[b], PreFlush) <==> s.nextOrdered.preflush)
            && (Noted(s.trails[b], Bar) <==> s.nextOrdered.bar && s.rqs[b].sectors != 0)
            && (Noted(s.trails[b], PostFlush) <==> s.nextOrdered.postflush && s.rqs[b].sectors != 0)
  {
    hide Proxies, Effective, Follows, InStepOrder, Noted;
    var s := states[i];
    RunInv(states, actions, i);
    OrdersByDraining(s);
    BarrierOutcome(states, actions, i, b);
    PlanAsked(s.nextOrdered, s.rqs[b]);
    TrailAsked(s.trails[b], Proxies(Effective(s.nextOrdered, s.rqs[b])), s.nextOrdered, s.rqs[b].sectors);
  }

  lemma {:induction false} FirstErrIs(t: seq<Note>)
    ensures FirstErr(t) == 0 <==> forall i | 0 <= i < |t| :: t[i].err == 0
    ensures FirstErr(t) != 0 ==>
              exists i :: 0 <= i < |t| && t[i].err == FirstErr(t) && forall j | 0 <= j < i :: t[j].err == 0
    decreases |t|
  {
    if t != [] {
      var n := |t| - 1;
      FirstErrIs(t[..n]);
      if FirstErr(t[..n]) == 0 {
        assert forall j | 0 <= j < n :: t[j].err == t[..n][j].err;
      } else {
        var i :| 0 <= i < n && t[..n][i].err == FirstErr(t[..n]) && forall j | 0 <= j < i :: t[..n][j].err == 0;
        assert forall j | 0 <= j < i :: t[j].err == t[..n][j].err;
        assert t[i].err == FirstErr(t);
      }
    }
  }

  /** A barrier succeeds exactly if all its commands did, and otherwise reports the first failure. */
  lemma BarrierError(states: seq<Queue>, actions: seq<Action>, i: nat, b: nat)
    requires IsRun(states, actions) && HonestFlags(actions) && i < |states|
    requires b in states[i].ended && b < |states[i].rqs| && states[i].rqs[b].kind == Barrier
    ensures b in states[i].trails
    ensures var e, t := states[i].ended[b], states[i].trails[b];
            && (e == 0 <==> forall k | 0 <= k < |t| :: t[k].err == 0)
            && (e != 0 ==> exists k :: 0 <= k < |t| && t[k].err == e && forall j | 0 <= j < k :: t[j].err == 0)
  {
    BarrierOutcome(states, actions, i, b);
    FirstErrIs(states[i].trails[b]);
  }

  /** The proxy is handed out in its turn: what the mode asks for before it has been completed. */
  ghost predicate InTurn(s: Queue, r: Ref) {
    && s.nextOrdered.DrainBy? && s.orig < |s.rqs| && !r.Rq?
    && var o, n := s.nextOrdered, s.rqs[s.orig].sectors;
    && Asked(o, n, ProxyStep(r)) && !Noted(s.trail, ProxyStep(r))
    && (r != PreFlushRq && o.preflush ==> Noted(s.trail, PreFlush))
    && (r == PostFlushRq && o.bar ==> Noted(s.trail, Bar))
  }

  lemma TurnOf(t: seq<Note>, plan: seq<Ref>, o: Ordered, sectors: nat, r: Ref)
    requires o.DrainBy? && Follows(t, plan) && |t| < |plan| && plan[|t|] == r
    requires forall i | 0 <= i < |plan| :: !plan[i].Rq? && Asked(o, sectors, ProxyStep(plan[i]))
    requires forall x: Ref | !x.Rq? && Asked(o, sectors, ProxyStep(x)) :: x in plan
    requires forall i, j | 0 <= i < j < |plan| :: Rank(ProxyStep(plan[i])) < Rank(ProxyStep(plan[j]))
    ensures !r.Rq? && Asked(o, sectors, ProxyStep(r)) && !Noted(t, ProxyStep(r))
    ensures forall x: Ref | !x.Rq? && Asked(o, sectors, ProxyStep(x)) && Rank(ProxyStep(x)) < Rank(ProxyStep(r)) :: Noted(t, ProxyStep(x))
  {
    forall x: Ref | !x.Rq? && Asked(o, sectors, ProxyStep(x)) && Rank(ProxyStep(x)) < Rank(ProxyStep(r)) ensures Noted(t, ProxyStep(x)) {
      var i :| 0 <= i < |plan| && plan[i] == x;
      assert i < |t| && t[i].step == ProxyStep(x);
    }
  }

  lemma TakenInTurn(s: Queue, r: Ref)
    requires Inv(s) && SafeHandOut(s, r) && !r.Rq?
    ensures InTurn(s, r)
  {
    hide Proxies, Effective, Follows, Noted, FirstErr, FirstZero;
    OrdersByDraining(s);
    PlanOfActive(s);
    PlanAsked(s.nextOrdered, s.rqs[s.orig]);
    var o, n := s.nextOrdered, s.rqs[s.orig].sectors;
    TurnOf(s.trail, Proxies(s.ordered), o, n, r);
    assert o.preflush ==> Asked(o, n, ProxyStep(PreFlushRq));
    assert o.bar && n != 0 ==> Asked(o, n, ProxyStep(BarRq));
  }

  lemma PlanOfActive(s: Queue)
    requires Core(s) && Active(s)
    ensures s.orig < |s.rqs| && s.ordered == Effective(s.nextOrdered, s.rqs[s.orig]) && Follows(s.trail, Proxies(s.ordered))
  {
    hide Numbered, Places, Coverage, SortedHead, ElvOk, FlagsOk, ClosedOk, TakenOk, OutcomesOk, Proxies, Effective, Follows;
  }

  /** In every run a command of a barrier reaches the driver only if it is asked for and everything
      asked for before it has been completed: no data before the flush, no second flush before the
      data. */
  lemma CommandsInTurn(states: seq<Queue>, actions: seq<Action>, i: nat, r: Ref)
    requires IsRun(states, actions) && HonestFlags(actions) && i < |actions| && !r.Rq?
    requires (actions[i] == PeekA && Peek(states[i]).rq == Some(r)) || actions[i] == StartA(r)
    ensures InTurn(states[i+1], r)
  {
    RunInv(states, actions, i + 1);
    HandOutsAreSafe(states, actions, i, r);
    TakenInTurn(states[i+1], r);
  }
}
