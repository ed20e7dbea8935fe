/** What becomes of the errors that the driver reports (blk-barrier.c, blk-core.c), over whole runs. */
module BarrierReports {
  import opened Lists
  import opened BarrierModel
  import opened BarrierInvariant
  import opened BarrierSafety
  import opened BarrierPlan
  import opened QueueOrder

  /** The completion `n` of a command of the barrier `b` is on record. */
  ghost predicate OnRecord(s: Queue, b: nat, n: Note) {
    if b in s.ended then b in s.trails && n in s.trails[b] else Active(s) && s.orig == b && n in s.trail
  }

  lemma CompleteSeqRecord(s: Queue, steps: set<Step>, err: int, b: nat, n: Note)
    requires OnRecord(s, b, n) && s.orig !in s.ended
    ensures OnRecord(CompleteSeq(s, steps, err), b, n)
  {}

  lemma ElvCompletedRecord(s: Queue, r: Ref, b: nat, n: Note)
    requires OnRecord(s, b, n) && (Active(s) ==> s.orig !in s.ended)
    ensures OnRecord(ElvCompleted(s, r), b, n)
  {
    hide CompleteSeq;
    if DrainOver(PutAccount(s, r)) { CompleteSeqRecord(PutAccount(s, r), {Drain}, 0, b, n); }
  }

  lemma RetiredRecord(s: Queue, r: Ref, err: int, b: nat, n: Note)
    requires Places(s) && r.Rq? && r in s.driver && OnRecord(s, b, n)
    ensures OnRecord(Complete(s, r, err), b, n)
  {
    hide ElvCompleted, NoDup;
    assert Known(s, r) && Live(s, r);
    var s1 := EndRequest(s.(driver := s.driver - {r}), r.id, err);
    ElvCompletedRecord(s1, r, b, n);
  }

  lemma ProxyRecord(s: Queue, r: Ref, err: int, b: nat, n: Note)
    requires Core(s) && !r.Rq? && r in s.driver && (OnRecord(s, b, n) || (b == s.orig && n == Note(ProxyStep(r), err)))
    ensures OnRecord(Complete(s, r, err), b, n)
  {
    hide Numbered, Coverage, SortedHead, ElvOk, FlagsOk, ClosedOk, TakenOk, OutcomesOk, Complete, FirstZero, NoDup;
    var d := ProxyShape(s, r, err);
    assert Active(s) && s.orig !in s.ended by { ProxyRuns(s, r); }
    assert n in s.trail ==> n in d.trail;
    assert Note(ProxyStep(r), err) in d.trail;
  }

  lemma ProxyRuns(s: Queue, r: Ref)
    requires Core(s) && !r.Rq? && r in s.driver
    ensures Active(s) && s.orig !in s.ended
  {}

  lemma DoOrderedRecord(s: Queue, b: nat, n: Note)
    requires Places(s) && s.head != [] && OnRecord(s, b, n) && s.nextOrdered.DrainBy?
    ensures OnRecord(DoOrdered(s).q, b, n)
  {
    hide CompleteSeq, NoDup;
    var r := s.head[0];
    if !Active(s) && r.Rq? && KindOf(s.rqs, r) == Barrier {
      assert Live(s, r);
      CompleteSeqRecord(Stacked(s), StartSkip(Stacked(s)), 0, b, n);
    }
  }

  lemma {:induction false} FetchRecord(s: Queue, b: nat, n: Note)
    requires Inv(s) && OnRecord(s, b, n)
    ensures OnRecord(NextRequest(s).q, b, n)
    decreases |s.elv|, |s.head|
  {
    hide DoOrdered, Inv;
    if s.head == [] {
      if s.elv != [] {
        NoopInv(s);
        NoopRecord(s, b, n);
        FetchRecord(NoopDispatch(s), b, n);
      }
    } else {
      PlacesOf(s);
      DoOrderedRecord(s, b, n);
      DoOrderedKeeps(s);
      if !DoOrdered(s).keep {
        GoneShrinks(s);
        FetchRecord(DoOrdered(s).q, b, n);
      }
    }
  }

  lemma NoopInv(s: Queue)
    requires Inv(s) && s.elv != []
    ensures Inv(NoopDispatch(s))
  {
    NoopKeeps(s);
    NoopProgress(s);
  }

  lemma NoopRecord(s: Queue, b: nat, n: Note)
    requires s.elv != [] && OnRecord(s, b, n)
    ensures OnRecord(NoopDispatch(s), b, n)
  {}

  lemma PlacesOf(s: Queue)
    requires Inv(s)
    ensures Places(s) && s.nextOrdered.DrainBy?
  {
    OrdersByDraining(s);
  }

  lemma SubmitRecord(s: Queue, q: Bio, w: Where, b: nat, n: Note)
    requires OnRecord(s, b, n)
    ensures OnRecord(Submit(s, q, w), b, n)
  {
    hide DrainElevator;
  }

  lemma StepRecord(s: Queue, a: Action, b: nat, n: Note)
    requires Inv(s) && Enabled(s, a) && OnRecord(s, b, n)
    ensures OnRecord(Next(s, a), b, n)
  {
    hide Core, Places, Submit, NextRequest, Complete, RequeueIndex;
    PlacesOf(s);
    match a
    case SubmitA(q, w) => SubmitRecord(s, q, w, b, n);
    case PeekA => FetchRecord(s, b, n);
    case StartA(r) =>
    case CompleteA(r, e) => if r.Rq? { RetiredRecord(s, r, e, b, n); } else { ProxyRecord(s, r, e, b, n); }
    case RequeueA(r) =>
  }

  /** What the driver reports for a command of a barrier stays on the record of that barrier. */
  lemma {:induction false} CommandReported(states: seq<Queue>, actions: seq<Action>, i: nat, j: nat, r: Ref, e: int)
    requires IsRun(states, actions) && HonestFlags(actions) && i < j < |states| && actions[i] == CompleteA(r, e) && !r.Rq?
    ensures OnRecord(states[j], states[i].orig, Note(ProxyStep(r), e))
    decreases j
  {
    hide Core, ProgressOk, Complete, Submit, Peek, Start, Requeue, OnRecord;
    RunInv(states, actions, j - 1);
    assert Enabled(states[j-1], actions[j-1]) && states[j-1+1] == Next(states[j-1], actions[j-1]);
    if j == i + 1 {
      ProxyRecord(states[i], r, e, states[i].orig, Note(ProxyStep(r), e));
    } else {
      CommandReported(states, actions, i, j - 1, r, e);
      StepRecord(states[j-1], actions[j-1], states[i].orig, Note(ProxyStep(r), e));
    }
  }

  /** If a command of a barrier fails then so does the barrier. */
  lemma FailureIsReported(states: seq<Queue>, actions: seq<Action>, i: nat, j: nat, r: Ref, e: int)
    requires IsRun(states, actions) && HonestFlags(actions) && i < j < |states| && actions[i] == CompleteA(r, e) && !r.Rq?
    requires e != 0 && states[i].orig in states[j].ended
    ensures states[j].ended[states[i].orig] != 0
  {
    var b := states[i].orig;
    CommandReported(states, actions, i, j, r, e);
    RunInv(states, actions, i);
    ProxyRuns(states[i], r);
    RunningIsBarrier(states[i]);
    TableOnlyGrows(states, actions, i, j);
    BarrierError(states, actions, j, b);
    assert exists k :: 0 <= k < |states[j].trails[b]| && states[j].trails[b][k].err == e;
  }

  lemma RunningIsBarrier(s: Queue)
    requires Core(s) && Active(s)
    ensures s.orig < |s.rqs| && s.rqs[s.orig].kind == Barrier
  {
    hide Numbered, Places, Coverage, SortedHead, ElvOk, FlagsOk, ClosedOk, TakenOk, OutcomesOk, TrailOk;
  }

  lemma {:induction false} TableOnlyGrows(states: seq<Queue>, actions: seq<Action>, i: nat, j: nat)
    requires IsRun(states, actions) && i <= j < |states|
    ensures states[i].rqs <= states[j].rqs
    decreases j
  {
    if i < j {
      TableOnlyGrows(states, actions, i, j - 1);
      assert Enabled(states[j-1], actions[j-1]) && states[j-1+1] == Next(states[j-1], actions[j-1]);
      StepGrows(states[j-1], actions[j-1]);
    }
  }

  lemma StepGrows(s: Queue, a: Action)
    requires Enabled(s, a)
    ensures s.rqs <= Next(s, a).rqs
  {
    hide Submit, Complete, NextRequest;
    match a
    case SubmitA(b, w) => SubmitRecords(s, b, w);
    case PeekA => FetchFrame(s);
    case StartA(r) =>
    case CompleteA(r, e) => CompleteFrame(s, r, e);
    case RequeueA(r) =>
  }

  // ---------------------------------------------------------------- no error out of nowhere

  /** The completion is on some record. */
  ghost predicate Noticed(s: Queue, n: Note) {
    n in s.trail || exists b :: b in s.trails && n in s.trails[b]
  }

  ghost predicate Reports(a: Action, n: Note) {
    a.CompleteA? && !a.rq.Rq? && n == Note(ProxyStep(a.rq), a.err)
  }

  lemma CompleteSeqNotices(s: Queue, steps: set<Step>, err: int, n: Note)
    requires Noticed(CompleteSeq(s, steps, err), n)
    ensures Noticed(s, n)
  {}

  lemma ElvCompletedNotices(s: Queue, r: Ref, n: Note)
    requires Noticed(ElvCompleted(s, r), n)
    ensures Noticed(s, n)
  {
    hide CompleteSeq;
    if DrainOver(PutAccount(s, r)) { CompleteSeqNotices(PutAccount(s, r), {Drain}, 0, n); }
  }

  lemma CompleteNotices(s: Queue, r: Ref, err: int, n: Note)
    requires Noticed(Complete(s, r, err), n)
    ensures Noticed(s, n) || Reports(CompleteA(r, err), n)
  {
    hide ElvCompleted, CompleteSeq;
    var s1 := s.(driver := s.driver - {r});
    if r.Rq? {
      ElvCompletedNotices(EndRequest(s1, r.id, err), r, n);
    } else {
      var s2 := ElvCompleted(s1, r);
      CompleteSeqNotices(s2.(trail := s2.trail + [Note(ProxyStep(r), err)]), {ProxyStep(r)}, err, n);
      if Noticed(s2, n) { ElvCompletedNotices(s1, r, n); }
    }
  }

  lemma DoOrderedNotices(s: Queue, n: Note)
    requires s.head != [] && Noticed(DoOrdered(s).q, n)
    ensures Noticed(s, n)
  {
    hide CompleteSeq;
    var r := s.head[0];
    if !Active(s) && r.Rq? && KindOf(s.rqs, r) == Barrier && s.nextOrdered.DrainBy? {
      CompleteSeqNotices(Stacked(s), StartSkip(Stacked(s)), 0, n);
    }
  }

  lemma {:induction false} FetchNotices(s: Queue, n: Note)
    requires Noticed(NextRequest(s).q, n)
    ensures Noticed(s, n)
    decreases |s.elv|, |s.head|
  {
    hide DoOrdered;
    if s.head == [] {
      if s.elv != [] { FetchNotices(NoopDispatch(s), n); }
    } else {
      if !DoOrdered(s).keep {
        GoneShrinks(s);
        FetchNotices(DoOrdered(s).q, n);
      }
      DoOrderedNotices(s, n);
    }
  }

  lemma SubmitNotices(s: Queue, q: Bio, w: Where, n: Note)
    requires Noticed(Submit(s, q, w), n)
    ensures Noticed(s, n)
  {
    hide DrainElevator;
  }

  lemma StepNotices(s: Queue, a: Action, n: Note)
    requires Enabled(s, a) && Noticed(Next(s, a), n)
    ensures Noticed(s, n) || Reports(a, n)
  {
    hide Submit, Complete, NextRequest, RequeueIndex;
    match a
    case SubmitA(b, w) => SubmitNotices(s, b, w, n);
    case PeekA => FetchNotices(s, n);
    case StartA(r) =>
    case CompleteA(r, e) => CompleteNotices(s, r, e, n);
    case RequeueA(r) =>
  }

  lemma {:induction false} NoticedWasReported(states: seq<Queue>, actions: seq<Action>, i: nat, n: Note) returns (k: nat)
    requires IsRun(states, actions) && i < |states| && Noticed(states[i], n)
    ensures k < i && Reports(actions[k], n)
  {
    if i == 0 {
      assert false;
    }
    assert Enabled(states[i-1], actions[i-1]) && states[i-1+1] == Next(states[i-1], actions[i-1]);
    StepNotices(states[i-1], actions[i-1], n);
    if Reports(actions[i-1], n) {
      k := i - 1;
    } else {
      k := NoticedWasReported(states, actions, i - 1, n);
    }
  }

  /** A barrier that fails reports what the driver has reported for one of its commands. */
  lemma FailureHasCause(states: seq<Queue>, actions: seq<Action>, i: nat, b: nat) returns (k: nat)
    requires IsRun(states, actions) && HonestFlags(actions) && i < |states|
    requires b in states[i].ended && b < |states[i].rqs| && states[i].rqs[b].kind == Barrier && states[i].ended[b] != 0
    ensures k < i && actions[k].CompleteA? && !actions[k].rq.Rq? && actions[k].err == states[i].ended[b]
  {
    BarrierError(states, actions, i, b);
    var t := states[i].trails[b];
    var m :| 0 <= m < |t| && t[m].err == states[i].ended[b];
    assert t[m] in t;
    k := NoticedWasReported(states, actions, i, t[m]);
  }

  // ---------------------------------------------------------------- other requests

  lemma CompleteEnds(s: Queue, x: nat, e: int)
    requires Places(s) && Rq(x) in s.driver
    ensures var d := Complete(s, Rq(x), e); x in d.ended && d.ended[x] == e
  {
    hide NoDup;
    assert Live(s, Rq(x));
  }

  /** A request that the driver completes ends with the error it gives, for good. */
  lemma RequestOutcome(states: seq<Queue>, actions: seq<Action>, i: nat, j: nat, x: nat, e: int)
    requires IsRun(states, actions) && HonestFlags(actions) && i < j < |states| && actions[i] == CompleteA(Rq(x), e)
    ensures x in states[j].ended && states[j].ended[x] == e
  {
    RunInv(states, actions, i);
    assert Enabled(states[i], actions[i]) && states[i+1] == Next(states[i], actions[i]);
    PlacesOf(states[i]);
    CompleteEnds(states[i], x, e);
    EndedForGood(states, actions, i + 1, j, x);
  }
}
