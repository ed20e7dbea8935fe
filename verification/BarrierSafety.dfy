/** The remaining steps of the barrier protocol, fetching and completing, and what follows for
    whole runs. */
module BarrierSafety {
  import opened Lists
  import opened Options
  import opened BarrierModel
  import opened BarrierInvariant

  // ---------------------------------------------------------------- a barrier reaches the head

  ghost predicate BarrierAtHead(s: Queue) {
    Core(s) && !Active(s) && s.head != [] && s.head[0].Rq? && IsBarrierId(s.rqs, s.head[0].id)
  }

  /** Everything subject to ordering behind the barrier is of a later epoch. */
  lemma BehindIsLater(s: Queue, i: nat)
    requires BarrierAtHead(s) && 0 < i < |s.head| && Subject(s.rqs, s.head[i])
    ensures s.head[i].Rq? && s.rqs[s.head[i].id].epoch > s.rqs[s.head[0].id].epoch
  {
    var b, r := s.head[0], s.head[i];
    assert r in s.head && b in s.head;
    assert Subject(s.rqs, b);
    if s.rqs[r.id].kind == Barrier && s.rqs[r.id].epoch == s.rqs[b.id].epoch {
      assert r.id != b.id;
      OrderByEpoch(s.rqs, r.id, b.id);
      OrderByEpoch(s.rqs, b.id, r.id);
      assert false;
    }
  }

  /** An unfinished request submitted before the barrier at the head is in the driver. */
  lemma EarlierInDriver(s: Queue, x: nat)
    requires BarrierAtHead(s) && x < s.head[0].id && !s.rqs[x].kind.Special? && x !in s.ended
    ensures Rq(x) in s.driver
  {
    var b := s.head[0].id;
    assert s.head[0] in s.head;
    assert Placed(s, x);
    EpochMono(s.rqs, x, b);
    EpochAt(s.rqs, b);
    assert Rq(x) !in s.elv;
    if Rq(x) in s.head {
      var i :| 0 <= i < |s.head| && s.head[i] == Rq(x);
      BehindIsLater(s, i);
      assert false;
    }
  }

  lemma BarrierCleared(s: Queue)
    requires BarrierAtHead(s)
    ensures Cleared(s, s.head[0].id)
    ensures s.head[0] !in s.started && s.head[0].id !in s.ended
    ensures s.inFlight == 0 ==> DrainedBefore(s, s.head[0].id)
  {
    var b := s.head[0];
    assert b in s.head;
    assert Taken(s, b) ==> KindOf(s.rqs, b) != Barrier;
    forall x: nat | x < b.id && IsBarrierId(s.rqs, x) ensures x in s.ended {
      if x !in s.ended {
        EarlierInDriver(s, x);
        assert Taken(s, Rq(x));
        assert false;
      }
    }
    if s.inFlight == 0 {
      forall x: nat | x < b.id && x < |s.rqs| && !s.rqs[x].kind.Special? ensures x in s.ended {
        assert Rq(x) !in FsOf(s.rqs, s.driver);
        if x !in s.ended {
          EarlierInDriver(s, x);
          assert false;
        }
      }
    }
  }

  // ---------------------------------------------------------------- start_ordered

  /** The plan, written out. */
  lemma ProxiesAre(o: Ordered)
    requires o.DrainBy?
    ensures var p, n := Proxies(o), if o.preflush then 1 else 0;
            && |p| == n + (if o.bar then 1 else 0) + (if o.postflush then 1 else 0)
            && (o.preflush ==> p[0] == PreFlushRq) && (o.bar ==> p[n] == BarRq) && (o.postflush ==> p[|p|-1] == PostFlushRq)
    ensures PreFlush in Skipped(o) <==> !o.preflush
    ensures Bar in Skipped(o) <==> !o.bar
    ensures PostFlush in Skipped(o) <==> !o.postflush
  {}

  lemma ProxiesShape(o: Ordered)
    requires o.DrainBy?
    ensures var p := Proxies(o);
            && NoDup(p)
            && (forall i | 0 <= i < |p| :: !p[i].Rq? && ProxyStep(p[i]) !in Skipped(o))
            && (forall i, j | 0 <= i < j < |p| :: Rank(ProxyStep(p[i])) < Rank(ProxyStep(p[j])))
            && (forall r: Ref | !r.Rq? :: r in p <==> ProxyStep(r) !in Skipped(o))
  {
    hide Proxies, Skipped;
    ProxiesAre(o);
  }

  /** start_ordered when the sequence does not end at once. */
  ghost predicate Begins(s: Queue) {
    BarrierAtHead(s) && !Finishes(Stacked(s), StartSkip(Stacked(s)))
  }

  /** `d` is `s` with the sequence of the barrier at its head begun. */
  ghost predicate Begun(s: Queue, d: Queue) {
    && BarrierAtHead(s)
    && d.ordered == Effective(s.nextOrdered, s.rqs[s.head[0].id])
    && d.head == Proxies(d.ordered) + s.head[1..]
    && d.started == s.started - (set r | r in Proxies(d.ordered))
    && d.soft == s.soft + (set r | r in Proxies(d.ordered))
    && d.ordseq == {Started} + Skipped(d.ordered) + (if s.inFlight != 0 then {} else {Drain})
    && FirstZero(d.ordseq) != Done
    && d == s.(ordered := d.ordered, head := d.head, started := d.started, soft := d.soft,
               ordseq := d.ordseq, orig := s.head[0].id, orderr := 0, trail := [])
  }

  lemma BeginShape(s: Queue)
    requires Begins(s)
    ensures Begun(s, StartOrdered(s).q)
  {
    hide Core, Proxies, Skipped, FirstZero;
    BarrierCleared(s);
    NoBugYet(s);
    BitsOfStart(s);
  }

  lemma NoBugYet(s: Queue)
    requires Core(s)
    ensures !s.bug
  {}

  lemma BitsOfStart(s: Queue)
    requires s.head != [] && s.head[0].Rq? && s.head[0].id < |s.rqs| && !Active(s)
    ensures var s1 := Stacked(s);
            && s1.ordseq == {Started} && s1.ordseq * StartSkip(s1) == {}
            && s1.ordseq + StartSkip(s1) == {Started} + Skipped(s1.ordered) + (if s1.inFlight != 0 then {} else {Drain})
  {}

  lemma BeginNoDup(s: Queue, d: Queue)
    requires Begun(s, d)
    ensures NoDup(d.head)
  {
    hide Proxies, Skipped, SortedHead, FlagsOk, ElvOk, Numbered;
    ProxiesShape(d.ordered);
    HeadAndTail(s.head);
    var p, t := Proxies(d.ordered), s.head[1..];
    forall r ensures !(r in p && r in t) {
      assert r in t ==> r in s.head;
    }
    NoDupAppend(p, t);
  }

  lemma BeginMembers(s: Queue, d: Queue)
    requires Begun(s, d)
    ensures forall r: Ref | r.Rq? :: r in d.head <==> r in s.head && r != s.head[0]
    ensures forall r: Ref | !r.Rq? :: r in d.head <==> ProxyStep(r) !in d.ordseq
    ensures forall r: Ref | !r.Rq? :: r !in s.head && r !in s.driver && !Taken(d, r)
  {
    hide Proxies, Skipped, SortedHead, FlagsOk, ElvOk, Numbered, ClosedOk, OutcomesOk, Coverage;
    ProxiesShape(d.ordered);
    HeadAndTail(s.head);
  }

  lemma HeadAndTail(q: seq<Ref>)
    requires q != [] && NoDup(q)
    ensures NoDup(q[1..]) && forall r :: r in q[1..] <==> r in q && r != q[0]
  {}

  lemma BeginPlaces(s: Queue, d: Queue)
    requires Begun(s, d)
    ensures Places(d) && Coverage(d)
  {
    BarrierCleared(s);
    BeginNoDup(s, d);
    BeginMembers(s, d);
    assert s.head[0] in s.head;
    forall id | 0 <= id < |d.rqs| ensures Placed(d, id) { assert Placed(s, id); }
  }

  lemma TailKeys(s: Queue, i: nat, j: nat)
    requires BarrierAtHead(s) && i < j < |s.head| && Subject(s.rqs, s.head[j])
    ensures s.head[j].Rq? && Key(s.rqs, s.head[0].id, s.head[j]) >= 8 * s.rqs[s.head[0].id].epoch + 8
    ensures i > 0 && Subject(s.rqs, s.head[i]) ==>
              Key(s.rqs, s.head[0].id, s.head[i]) <= Key(s.rqs, s.head[0].id, s.head[j])
  {
    BehindIsLater(s, j);
    if i > 0 && Subject(s.rqs, s.head[i]) {
      BehindIsLater(s, i);
      assert Key(s.rqs, s.orig, s.head[i]) <= Key(s.rqs, s.orig, s.head[j]);
    }
  }

  lemma ConcatSorted(rqs: seq<Request>, orig: nat, p: seq<Ref>, t: seq<Ref>)
    requires SortedHead(rqs, orig, p) && SortedHead(rqs, orig, t)
    requires forall i, j | 0 <= i < |p| && 0 <= j < |t| && Subject(rqs, t[j]) ::
               Key(rqs, orig, p[i]) <= Key(rqs, orig, t[j])
    ensures SortedHead(rqs, orig, p + t)
  {}

  lemma TailSorted(s: Queue, t: seq<Ref>, orig: nat)
    requires BarrierAtHead(s) && t == s.head[1..] && orig == s.head[0].id
    ensures SortedHead(s.rqs, orig, t)
    ensures forall j | 0 <= j < |t| && Subject(s.rqs, t[j]) :: Key(s.rqs, orig, t[j]) >= 8 * s.rqs[orig].epoch + 8
  {
    forall i, j | 0 <= i < j < |t| && Subject(s.rqs, t[i]) && Subject(s.rqs, t[j])
      ensures Key(s.rqs, orig, t[i]) <= Key(s.rqs, orig, t[j])
    {
      TailKeys(s, i + 1, j + 1);
    }
    forall j | 0 <= j < |t| && Subject(s.rqs, t[j])
      ensures Key(s.rqs, orig, t[j]) >= 8 * s.rqs[orig].epoch + 8
    {
      TailKeys(s, 0, j + 1);
    }
  }

  lemma BeginSorted(s: Queue, d: Queue)
    requires Begun(s, d)
    ensures SortedHead(d.rqs, d.orig, d.head)
  {
    hide Key, SortedHead, Subject;
    var t := s.head[1..];
    TailSorted(s, t, d.orig);
    ProxyKeys(d.rqs, d.orig, d.ordered);
    ConcatSorted(d.rqs, d.orig, Proxies(d.ordered), t);
  }

  lemma ProxyKeys(rqs: seq<Request>, orig: nat, o: Ordered)
    requires o.DrainBy?
    ensures SortedHead(rqs, orig, Proxies(o))
    ensures forall i | 0 <= i < |Proxies(o)| :: Key(rqs, orig, Proxies(o)[i]) <= 8 * OrigEpoch(rqs, orig) + 3
  {
    hide Proxies, Skipped, Key;
    ProxiesShape(o);
    var p := Proxies(o);
    forall i | 0 <= i < |p| ensures Key(rqs, orig, p[i]) == 8 * OrigEpoch(rqs, orig) + Rank(ProxyStep(p[i])) - 1 {
      ProxyKey(rqs, orig, p[i]);
    }
  }

  lemma ProxyKey(rqs: seq<Request>, orig: nat, r: Ref)
    requires !r.Rq?
    ensures Key(rqs, orig, r) == 8 * OrigEpoch(rqs, orig) + Rank(ProxyStep(r)) - 1
  {}

  /** Removing the barrier at the head leaves every open epoch behind it open. */
  lemma BarrierLeaves(s: Queue, d: Queue)
    requires BarrierAtHead(s) && d.rqs == s.rqs
    requires forall x | x in s.head[1..] :: x in d.head
    requires forall x | x in d.head && x.Rq? :: x in s.head[1..]
    requires forall x: Ref | x.Rq? :: View(d, x) == View(s, x)
    ensures FlagsOk(d)
  {}

  lemma BeginFlags(s: Queue, d: Queue)
    requires Begun(s, d)
    ensures FlagsOk(d)
  {}

  lemma BeginTaken(s: Queue, d: Queue)
    requires Begun(s, d)
    ensures TakenOk(d)
  {
    BeginMembers(s, d);
    assert forall r: Ref | r.Rq? && Taken(d, r) :: Taken(s, r);
    assert forall x: nat :: Cleared(s, x) == Cleared(d, x);
  }

  lemma BeginSeq(s: Queue, d: Queue)
    requires Begun(s, d)
    ensures SeqOk(d)
  {
    hide FsOf, Numbered;
    BarrierCleared(s);
    BeginMembers(s, d);
    assert Cleared(d, d.orig);
    assert Drain in d.ordseq ==> DrainedBefore(d, d.orig);
    assert Done !in d.ordseq;
  }

  lemma BeginTrail(s: Queue, d: Queue)
    requires Begun(s, d)
    ensures TrailOk(d)
  {
    hide Proxies, Skipped, SortedHead, FlagsOk, ElvOk, Numbered, ClosedOk, OutcomesOk, Coverage, TakenOk;
    ProxiesShape(d.ordered);
  }

  lemma BeginKeeps(s: Queue)
    requires Begins(s)
    ensures Inv(StartOrdered(s).q)
  {
    var d := StartOrdered(s).q;
    BeginShape(s);
    BeginPlaces(s, d);
    BeginSorted(s, d);
    BeginFlags(s, d);
    BeginTaken(s, d);
    BeginSeq(s, d);
    BeginTrail(s, d);
    assert ClosedOk(d) && OutcomesOk(d) by {
      assert forall x: nat :: DrainedBefore(s, x) == DrainedBefore(d, x);
      assert forall x: nat :: OutcomeOk(s, x) == OutcomeOk(d, x);
    }
  }

  // ---------------------------------------------------------------- a sequence ends

  /** `d` is `s` with the running sequence ended and its barrier recorded. */
  ghost predicate SeqEnded(s: Queue, d: Queue) {
    && s.orig !in s.ended
    && d == s.(ordseq := {}, ended := s.ended[s.orig := s.orderr], trails := s.trails[s.orig := s.trail])
  }

  /** The state just before the end: all proxies are through and everything earlier is over.
      The pieces of the invariant that do not depend on the bits of the sequence hold. */
  ghost predicate EndReady(s: Queue) {
    && s.nextOrdered.DrainBy? && !s.bug
    && Numbered(s.rqs) && s.ordcolor == (CurEpoch(s.rqs) % 2 == 1)
    && Active(s) && Places(s) && Coverage(s)
    && SortedHead(s.rqs, s.orig, s.head)
    && ElvOk(s) && FlagsOk(s) && ClosedOk(s) && TakenOk(s) && OutcomesOk(s)
    && s.inFlight == |FsOf(s.rqs, s.driver)|
    && IsBarrierId(s.rqs, s.orig)
    && DrainedBefore(s, s.orig)
    && IdleOk(s)
    && s.orderr == FirstErr(s.trail)
    && |s.trail| == |Proxies(Effective(s.nextOrdered, s.rqs[s.orig]))|
    && Follows(s.trail, Proxies(Effective(s.nextOrdered, s.rqs[s.orig])))
  }

  lemma EndHistory(s: Queue, d: Queue)
    requires EndReady(s) && SeqEnded(s, d)
    ensures ClosedOk(d) && OutcomesOk(d) && TakenOk(d)
  {
    forall b | b in d.ended && IsBarrierId(d.rqs, b) ensures DrainedBefore(d, b) && OutcomeOk(d, b) {
      if b != s.orig { assert DrainedBefore(s, b) && OutcomeOk(s, b); }
    }
    assert forall r: Ref :: Taken(d, r) <==> Taken(s, r);
    assert forall x: nat :: Cleared(s, x) ==> Cleared(d, x);
  }

  lemma EndKeeps(s: Queue, d: Queue)
    requires EndReady(s) && SeqEnded(s, d)
    ensures Inv(d)
  {
    hide Numbered, SortedHead, FsOf;
    EndHistory(s, d);
    forall id | 0 <= id < |d.rqs| ensures Placed(d, id) { assert Placed(s, id); }
    assert FlagsOk(d) by { FlagsFrame(s, d); }
  }

  /** start_ordered when there is nothing to issue and nothing to wait for. */
  ghost predicate EndsAtOnce(s: Queue) {
    BarrierAtHead(s) && Finishes(Stacked(s), StartSkip(Stacked(s)))
  }

  lemma AtOnceShape(s: Queue) returns (m: Queue)
    requires EndsAtOnce(s)
    ensures s.inFlight == 0
    ensures m.ordered == Effective(s.nextOrdered, s.rqs[s.head[0].id])
    ensures Proxies(m.ordered) == []
    ensures m == s.(ordered := m.ordered, head := s.head[1..], ordseq := {Started}, orig := s.head[0].id, orderr := 0, trail := [])
    ensures SeqEnded(m, StartOrdered(s).q)
  {
    BarrierCleared(s);
    m := Stacked(s);
    NoStepLeft(s, m.ordered);
    assert m.ordseq == {Started};
    assert Drain in m.ordseq + StartSkip(m);
    assert m.head == s.head[1..];
    assert m.ordseq * StartSkip(m) == {};
    assert m.soft == s.soft && m.started == s.started;
  }

  lemma AtOnceReady(s: Queue, m: Queue)
    requires BarrierAtHead(s) && s.inFlight == 0 && m.ordered == Effective(s.nextOrdered, s.rqs[s.head[0].id])
    requires Proxies(m.ordered) == []
    requires m == s.(ordered := m.ordered, head := s.head[1..], ordseq := {Started}, orig := s.head[0].id, orderr := 0, trail := [])
    ensures EndReady(m)
  {
    BarrierCleared(s);
    HeadAndTail(s.head);
    assert Places(m);
    forall id | 0 <= id < |m.rqs| ensures Placed(m, id) { assert Placed(s, id); }
    BarrierLeaves(s, m);
    AtOnceFrame(s, m);
    AtOnceSorted(s);
  }

  lemma AtOnceSorted(s: Queue)
    requires BarrierAtHead(s)
    ensures SortedHead(s.rqs, s.head[0].id, s.head[1..])
  {}

  lemma AtOnceFrame(s: Queue, m: Queue)
    requires ClosedOk(s) && OutcomesOk(s) && TakenOk(s) && s.head != []
    requires m == s.(ordered := m.ordered, head := s.head[1..], ordseq := {Started}, orig := m.orig, orderr := 0, trail := [])
    ensures ClosedOk(m) && OutcomesOk(m) && TakenOk(m)
    ensures forall x: nat :: DrainedBefore(s, x) == DrainedBefore(m, x)
  {}

  lemma AtOnceKeeps(s: Queue)
    requires EndsAtOnce(s)
    ensures Inv(StartOrdered(s).q)
  {
    var m := AtOnceShape(s);
    AtOnceReady(s, m);
    EndKeeps(m, StartOrdered(s).q);
  }

  // ---------------------------------------------------------------- fetching

  /** The request may be handed out: a plain request has no unfinished barrier before it, and a
      proxy is the current step of the running sequence. */
  ghost predicate MayTake(s: Queue, r: Ref) {
    && r in s.head
    && if r.Rq? then KindOf(s.rqs, r) != Barrier && (KindOf(s.rqs, r) == Fs ==> Cleared(s, r.id))
       else Active(s) && FirstZero(s.ordseq) == ProxyStep(r)
  }

  lemma HeadKey(s: Queue, y: Ref)
    requires SortedHead(s.rqs, s.orig, s.head)
    requires y in s.head && Subject(s.rqs, s.head[0]) && Subject(s.rqs, y)
    ensures Key(s.rqs, s.orig, s.head[0]) <= Key(s.rqs, s.orig, y)
  {}

  /** Outside a sequence a plain request at the head has no unfinished barrier before it. */
  lemma HeadCleared(s: Queue)
    requires Core(s) && !Active(s) && s.head != [] && s.head[0].Rq? && IsPlainId(s.rqs, s.head[0].id)
    ensures Cleared(s, s.head[0].id)
  {
    var x := s.head[0].id;
    forall b: nat | b < x && IsBarrierId(s.rqs, b) ensures b in s.ended {
      EpochMono(s.rqs, b, x);
      assert Placed(s, b);
      assert Rq(b) !in s.elv;
      assert Taken(s, Rq(b)) ==> KindOf(s.rqs, Rq(b)) != Barrier;
      if Rq(b) in s.head {
        HeadKey(s, Rq(b));
        assert false;
      }
    }
  }

  /** In a sequence the request at the head is never behind the current step (so the WARN_ON
      does not fire), and it is handed out only on its turn. */
  lemma HeadInSequence(s: Queue)
    requires Core(s) && Active(s) && s.head != []
    requires var r := s.head[0]; !r.Rq? || IsFs(s.rqs, r)
    ensures Rank(ReqSeq(s, s.head[0])) >= Rank(FirstZero(s.ordseq))
    ensures Rank(ReqSeq(s, s.head[0])) == Rank(FirstZero(s.ordseq)) ==> MayTake(s, s.head[0])
  {
    hide SortedHead, FlagsOk, ElvOk, Numbered, ClosedOk, OutcomesOk, Coverage, TakenOk, TrailOk;
    var r := s.head[0];
    assert r in s.head;
    if r.Rq? {
      if r.id < s.orig {
        EarlyIsOfEpoch(s, r.id);
      } else {
        HeadLate(s);
      }
    }
  }

  lemma DoOrderedKeeps(s: Queue)
    requires Inv(s) && s.head != []
    ensures var v := DoOrdered(s);
            && Inv(v.q)
            && (v.keep && v.rq.Some? ==> MayTake(v.q, v.rq.value))
  {
    var r := s.head[0];
    assert r in s.head;
    if !Active(s) {
      if KindOf(s.rqs, r) == Barrier {
        if Finishes(Stacked(s), StartSkip(Stacked(s))) {
          AtOnceKeeps(s);
        } else {
          BeginKeeps(s);
          BeginTop(s);
        }
      } else if KindOf(s.rqs, r) == Fs {
        HeadCleared(s);
      }
    } else if !r.Rq? || IsFs(s.rqs, r) {
      HeadInSequence(s);
      assert DoOrdered(s).q == s;
    }
  }

  /** With nothing in flight the first proxy is handed out at once: it is the current step. */
  lemma BeginTop(s: Queue)
    requires Begins(s)
    ensures var v := StartOrdered(s); v.rq.Some? ==> MayTake(v.q, v.rq.value)
  {
    hide Proxies, Skipped, Core, FirstZero;
    BeginShape(s);
    OrdersByDraining(s);
    var d := StartOrdered(s).q;
    if StartOrdered(s).rq.Some? {
      ProxiesShape(d.ordered);
      FirstProxy(d.ordered);
    }
  }

  lemma OrdersByDraining(s: Queue)
    requires Core(s)
    ensures s.nextOrdered.DrainBy?
  {}

  lemma FirstProxy(o: Ordered)
    requires o.DrainBy? && Proxies(o) != []
    ensures !Proxies(o)[0].Rq? && FirstZero({Started} + Skipped(o) + {Drain}) == ProxyStep(Proxies(o)[0])
  {}

  lemma {:induction false} NextRequestKeeps(s: Queue)
    requires Inv(s)
    ensures var f := NextRequest(s);
            Inv(f.q) && (f.rq.Some? ==> MayTake(f.q, f.rq.value))
    decreases |s.elv|, |s.head|
  {
    if s.head == [] {
      if s.elv != [] {
        NoopKeeps(s);
        NoopProgress(s);
        NextRequestKeeps(NoopDispatch(s));
      }
    } else {
      DoOrderedKeeps(s);
      if !DoOrdered(s).keep {
        GoneShrinks(s);
        NextRequestKeeps(DoOrdered(s).q);
      }
    }
  }

  lemma MarkKeeps(s: Queue, r: Ref)
    requires Inv(s) && MayTake(s, r)
    ensures Inv(s.(started := s.started + {r}))
  {
    hide Numbered, SortedHead, ClosedOk, OutcomesOk, FsOf, Proxies, FirstErr, Follows, NoDup, FirstZero;
    var d := s.(started := s.started + {r});
    assert FlagsOk(d) by { FlagsFrame(s, d); }
    forall id | 0 <= id < |d.rqs| ensures Placed(d, id) { assert Placed(s, id); }
    MarkRest(s, r);
  }

  lemma MarkRest(s: Queue, r: Ref)
    requires MayTake(s, r) && TakenOk(s) && ClosedOk(s) && OutcomesOk(s) && Known(s, r) && Live(s, r)
    ensures var d := s.(started := s.started + {r});
            TakenOk(d) && ClosedOk(d) && OutcomesOk(d) && (SeqOk(s) ==> SeqOk(d))
  {
    var d := s.(started := s.started + {r});
    assert forall y: Ref :: Taken(d, y) <==> Taken(s, y) || y == r;
    assert forall x: nat :: DrainedBefore(s, x) == DrainedBefore(d, x);
    assert forall x: nat :: Cleared(s, x) == Cleared(d, x);
    assert forall x: nat :: OutcomeOk(s, x) == OutcomeOk(d, x);
  }

  lemma PeekKeeps(s: Queue)
    requires Inv(s)
    ensures Inv(Peek(s).q)
  {
    NextRequestKeeps(s);
    var f := NextRequest(s);
    if f.rq.Some? {
      MarkKeeps(f.q, f.rq.value);
      MarkBoundary(f.q.(started := f.q.started + {f.rq.value}), f.rq.value);
    }
  }

  lemma MarkBoundary(q: Queue, r: Ref)
    requires Inv(q)
    ensures Inv(if q.boundary.None? || q.boundary == Some(r) then q.(endSector := EndOf(q, r), boundary := None) else q)
  {
    BoundaryFrame(q, EndOf(q, r), None);
  }

  // ---------------------------------------------------------------- completing

  lemma NoneInFlight(s: Queue)
    requires s.inFlight == 0 && s.inFlight == |FsOf(s.rqs, s.driver)|
    ensures forall r | r in s.driver :: !IsFs(s.rqs, r)
  {
    forall r | r in s.driver ensures !IsFs(s.rqs, r) {
      assert r !in FsOf(s.rqs, s.driver);
    }
  }

  /** When the drain step completes, everything submitted before the barrier is over. */
  lemma DrainIsOver(s: Queue)
    requires Core(s) && DrainOver(s)
    ensures DrainedBefore(s, s.orig)
  {
    NoneInFlight(s);
    forall x: nat | x < s.orig && x < |s.rqs| && !s.rqs[x].kind.Special? ensures x in s.ended {
      if x !in s.ended {
        EarlyIsOfEpoch(s, x);
        EpochAt(s.rqs, s.orig);
        assert Placed(s, x);
        assert Rq(x) in s.head;
        EarlyKeepsHead(s, x);
        assert false;
      }
    }
  }

  /** While an earlier request is queued, the head of the queue is to be drained. */
  lemma EarlyKeepsHead(s: Queue, x: nat)
    requires Core(s) && Active(s) && Rq(x) in s.head && IsPlainId(s.rqs, x) && x < s.orig
    ensures ReqSeq(s, s.head[0]) == Drain
  {
    EpochMono(s.rqs, x, s.orig);
    var r := s.head[0];
    assert r in s.head;
    if Subject(s.rqs, r) {
      HeadKey(s, Rq(x));
      if s.orig < r.id {
        EpochMono(s.rqs, s.orig, r.id);
        assert false;
      }
      EarlyIsOfEpoch(s, r.id);
    }
  }

  /** The drain bit is set. */
  ghost predicate DrainBitSet(s: Queue, d: Queue) {
    Core(s) && DrainOver(s) && DrainedBefore(s, s.orig) && d == s.(ordseq := s.ordseq + {Drain})
  }

  lemma DrainBitKeeps(s: Queue, d: Queue)
    requires DrainBitSet(s, d) && FirstZero(d.ordseq) != Done
    ensures Inv(d)
  {
    hide Numbered, SortedHead, ClosedOk, TakenOk, OutcomesOk, FsOf;
    assert FlagsOk(d) by { FlagsFrame(s, d); }
    forall id | 0 <= id < |d.rqs| ensures Placed(d, id) { assert Placed(s, id); }
    DrainBitRest(s, d);
    assert TrailOk(d);
  }

  lemma DrainBitRest(s: Queue, d: Queue)
    requires d == s.(ordseq := s.ordseq + {Drain})
    requires ClosedOk(s) && TakenOk(s) && OutcomesOk(s)
    ensures ClosedOk(d) && TakenOk(d) && OutcomesOk(d)
    ensures SeqOk(s) && FirstZero(s.ordseq) == Drain && DrainedBefore(s, s.orig) && FirstZero(d.ordseq) != Done ==> SeqOk(d)
    ensures DrainedBefore(s, s.orig) ==> DrainedBefore(d, s.orig)
  {}

  lemma FullTrail(s: Queue)
    requires TrailOk(s) && PreFlush in s.ordseq && Bar in s.ordseq && PostFlush in s.ordseq
    ensures |s.trail| == |Proxies(s.ordered)|
  {
    var plan := Proxies(s.ordered);
    assert |plan| > 0 ==> ProxyStep(plan[|plan|-1]) in s.ordseq;
  }

  /** Nothing is left of the sequence once its last bit is set. */
  lemma DrainBitReady(s: Queue, d: Queue)
    requires DrainBitSet(s, d) && FirstZero(d.ordseq) == Done
    ensures EndReady(d)
  {
    hide Numbered, SortedHead, ClosedOk, TakenOk, OutcomesOk, FsOf, Proxies, Effective, Follows, FirstErr;
    assert FlagsOk(d) by { FlagsFrame(s, d); }
    forall id | 0 <= id < |d.rqs| ensures Placed(d, id) { assert Placed(s, id); }
    DrainBitRest(s, d);
    assert IdleOk(d);
    FullTrail(s);
  }

  lemma DrainCompletes(s: Queue)
    requires Core(s) && DrainOver(s)
    ensures Inv(CompleteSeq(s, {Drain}, 0))
  {
    DrainIsOver(s);
    var d := s.(ordseq := s.ordseq + {Drain});
    assert s.ordseq * {Drain} == {};
    if Finishes(s, {Drain}) {
      DrainBitReady(s, d);
      assert SeqEnded(d, CompleteSeq(s, {Drain}, 0));
      EndKeeps(d, CompleteSeq(s, {Drain}, 0));
    } else {
      DrainBitKeeps(s, d);
    }
  }

  /** A submitted request is over: recorded, out of the driver, off the in-flight count. */
  function Retired(s: Queue, r: Ref, err: int): Queue
    requires r.Rq?
  {
    PutAccount(EndRequest(s.(driver := s.driver - {r}), r.id, err), r)
  }

  lemma RetiredHistory(s: Queue, r: Ref, err: int)
    requires r.Rq? && Taken(s, r) && Places(s) && TakenOk(s) && ClosedOk(s) && OutcomesOk(s)
    ensures var d := Retired(s, r, err);
            && TakenOk(d) && ClosedOk(d) && OutcomesOk(d)
            && (SeqOk(s) ==> SeqOk(d)) && (IdleOk(s) ==> IdleOk(d))
  {}

  lemma RetiredCount(s: Queue, r: Ref, err: int)
    requires r.Rq? && r in s.driver && s.driver <= s.started && s.inFlight == |FsOf(s.rqs, s.driver)|
    ensures Retired(s, r, err).inFlight == |FsOf(s.rqs, s.driver - {r})|
  {
    FsOfAdd(s.rqs, s.driver - {r}, r);
    assert s.driver - {r} + {r} == s.driver;
  }

  lemma RetiredKeeps(s: Queue, r: Ref, err: int)
    requires Core(s) && r.Rq? && r in s.driver
    ensures Core(Retired(s, r, err))
  {
    var d := Retired(s, r, err);
    RetiredHistory(s, r, err);
    RetiredCount(s, r, err);
    assert FlagsOk(d) by { FlagsFrame(s, d); }
    forall id | 0 <= id < |d.rqs| ensures Placed(d, id) { assert Placed(s, id); }
  }

  /** If the drain step does not complete now, there is still something to wait for. */
  lemma DrainWaits(s: Queue)
    requires Core(s) && !DrainOver(s)
    ensures ProgressOk(s)
  {}

  lemma CompleteRqKeeps(s: Queue, r: Ref, err: int)
    requires Inv(s) && Enabled(s, CompleteA(r, err)) && r.Rq?
    ensures Inv(Complete(s, r, err))
  {
    RetiredKeeps(s, r, err);
    var d := Retired(s, r, err);
    if DrainOver(d) {
      DrainCompletes(d);
    } else {
      DrainWaits(d);
    }
  }

  /** `d` is `s` after the proxy `r`, the current step, has completed. */
  ghost predicate ProxyDone(s: Queue, r: Ref, err: int, d: Queue) {
    && Core(s) && r in s.driver && !r.Rq?
    && d == s.(driver := s.driver - {r},
               inFlight := if IsFs(s.rqs, r) then s.inFlight - 1 else s.inFlight,
               trail := s.trail + [Note(ProxyStep(r), err)],
               orderr := if err != 0 && s.orderr == 0 then err else s.orderr,
               ordseq := s.ordseq + {ProxyStep(r)})
  }

  /** Completing a proxy never completes the drain step on the way. */
  lemma ProxyElvCompleted(s: Queue, r: Ref)
    requires Active(s) && SeqOk(s) && TakenOk(s) && r in s.driver && !r.Rq?
    ensures ElvCompleted(s.(driver := s.driver - {r}), r) ==
            s.(driver := s.driver - {r}, inFlight := if IsFs(s.rqs, r) then s.inFlight - 1 else s.inFlight)
    ensures ProxyStep(r) !in s.ordseq
  {}

  lemma ProxyShape(s: Queue, r: Ref, err: int) returns (d: Queue)
    requires Core(s) && r in s.driver && !r.Rq?
    ensures ProxyDone(s, r, err, d)
    ensures if FirstZero(d.ordseq) == Done then SeqEnded(d, Complete(s, r, err)) else Complete(s, r, err) == d
  {
    assert Active(s);
    ProxyElvCompleted(s, r);
    var t := ElvCompleted(s.(driver := s.driver - {r}), r);
    var u := t.(trail := t.trail + [Note(ProxyStep(r), err)]);
    d := u.(orderr := if err != 0 && s.orderr == 0 then err else s.orderr, ordseq := s.ordseq + {ProxyStep(r)});
    assert u.ordseq * {ProxyStep(r)} == {};
    assert Complete(s, r, err) == CompleteSeq(u, {ProxyStep(r)}, err);
  }

  /** The completed proxy is the next one of the plan. */
  lemma NextOfPlan(s: Queue, r: Ref)
    requires TrailOk(s) && s.ordered.DrainBy? && !r.Rq? && FirstZero(s.ordseq) == ProxyStep(r)
    ensures |s.trail| < |Proxies(s.ordered)| && Proxies(s.ordered)[|s.trail|] == r
  {}

  lemma ProxyTrail(s: Queue, r: Ref, err: int, d: Queue)
    requires TrailOk(s) && s.ordered.DrainBy? && !r.Rq? && FirstZero(s.ordseq) == ProxyStep(r)
    requires d.ordered == s.ordered && d.trail == s.trail + [Note(ProxyStep(r), err)]
    requires d.orderr == if err != 0 && s.orderr == 0 then err else s.orderr
    requires d.ordseq == s.ordseq + {ProxyStep(r)}
    ensures TrailOk(d)
  {
    NextOfPlan(s, r);
    var plan, n := Proxies(s.ordered), |s.trail|;
    ProxiesShape(s.ordered);
    assert d.trail[..n] == s.trail;
    forall i | 0 <= i < |plan| ensures ProxyStep(plan[i]) in d.ordseq <==> i < |d.trail| {
      assert i != n ==> plan[i] != plan[n];
    }
  }

  lemma ProxyPlaces(s: Queue, r: Ref, d: Queue)
    requires Places(s) && Coverage(s) && FlagsOk(s) && !r.Rq? && Active(s)
    requires d == s.(driver := s.driver - {r}, inFlight := d.inFlight, trail := d.trail, orderr := d.orderr,
                     ordseq := s.ordseq + {ProxyStep(r)})
    ensures Places(d) && Coverage(d) && FlagsOk(d)
  {
    assert FlagsOk(d) by { FlagsFrame(s, d); }
    forall id | 0 <= id < |d.rqs| ensures Placed(d, id) { assert Placed(s, id); }
  }

  lemma ProxyRest(s: Queue, r: Ref, d: Queue)
    requires !r.Rq? && r in s.driver && s.ordseq != {}
    requires d == s.(driver := s.driver - {r}, inFlight := d.inFlight, trail := d.trail, orderr := d.orderr,
                     ordseq := s.ordseq + {ProxyStep(r)})
    requires ClosedOk(s) && TakenOk(s) && OutcomesOk(s)
    ensures ClosedOk(d) && TakenOk(d) && OutcomesOk(d)
    ensures DrainedBefore(s, s.orig) == DrainedBefore(d, s.orig)
    ensures SeqOk(s) && r !in s.head && FirstZero(d.ordseq) != Done ==> SeqOk(d)
  {}

  lemma ProxyCount(s: Queue, r: Ref, err: int, d: Queue)
    requires ProxyDone(s, r, err, d)
    ensures d.inFlight == |FsOf(d.rqs, d.driver)|
  {
    FsOfAdd(s.rqs, d.driver, r);
    assert d.driver + {r} == s.driver;
  }

  lemma ProxyKeeps(s: Queue, r: Ref, err: int, d: Queue)
    requires ProxyDone(s, r, err, d) && FirstZero(d.ordseq) != Done
    ensures Inv(d)
  {
    assert Active(s) && Taken(s, r);
    ProxyTrail(s, r, err, d);
    ProxyRest(s, r, d);
    ProxyCount(s, r, err, d);
    ProxyPlaces(s, r, d);
  }

  lemma ProxyIdle(s: Queue, r: Ref, d: Queue)
    requires SeqOk(s) && Places(s) && !r.Rq? && r in s.driver
    requires d.head == s.head && d.driver == s.driver - {r} && d.ordseq == s.ordseq + {ProxyStep(r)}
    requires FirstZero(d.ordseq) == Done
    ensures IdleOk(d)
  {}

  lemma ProxyReady(s: Queue, r: Ref, err: int, d: Queue)
    requires ProxyDone(s, r, err, d) && FirstZero(d.ordseq) == Done
    ensures EndReady(d)
  {
    assert Active(s) && Taken(s, r);
    ProxyTrail(s, r, err, d);
    ProxyRest(s, r, d);
    ProxyCount(s, r, err, d);
    FullTrail(d);
    ProxyPlaces(s, r, d);
    ProxyIdle(s, r, d);
    assert DrainedBefore(d, d.orig);
  }

  lemma CompleteProxyKeeps(s: Queue, r: Ref, err: int)
    requires Inv(s) && Enabled(s, CompleteA(r, err)) && !r.Rq?
    ensures Inv(Complete(s, r, err))
  {
    var d := ProxyShape(s, r, err);
    if FirstZero(d.ordseq) == Done {
      ProxyReady(s, r, err, d);
      EndKeeps(d, Complete(s, r, err));
    } else {
      ProxyKeeps(s, r, err, d);
    }
  }

  // ---------------------------------------------------------------- whole runs

  /** Every step of the protocol keeps the invariant. */
  lemma StepKeeps(s: Queue, a: Action)
    requires Inv(s) && Enabled(s, a) && HonestFlag(a)
    ensures Inv(Next(s, a))
  {
    match a
    case SubmitA(b, w) => SubmitKeeps(s, b, w);
    case PeekA => PeekKeeps(s);
    case StartA(r) => StartKeeps(s, r);
    case CompleteA(r, e) => if r.Rq? { CompleteRqKeeps(s, r, e); } else { CompleteProxyKeeps(s, r, e); }
    case RequeueA(r) => RequeueKeeps(s, r);
  }

  lemma {:induction false} RunInv(states: seq<Queue>, actions: seq<Action>, i: nat)
    requires IsRun(states, actions) && HonestFlags(actions) && i < |states|
    ensures Inv(states[i])
  {
    if i == 0 {
      var o: Ordered :| o.DrainBy? && states[0] == Init(o);
      InitInv(o);
    } else {
      RunInv(states, actions, i - 1);
      assert HonestFlag(actions[i-1]) && Enabled(states[i-1], actions[i-1]) && states[i-1+1] == Next(states[i-1], actions[i-1]);
      StepKeeps(states[i-1], actions[i-1]);
    }
  }

  /** Neither BUG_ON nor WARN_ON of the protocol ever fires, no step bit is set twice and no
      request ends twice. */
  lemma NoBugFires(states: seq<Queue>, actions: seq<Action>, i: nat)
    requires IsRun(states, actions) && HonestFlags(actions) && i < |states|
    ensures !states[i].bug
  {
    RunInv(states, actions, i);
  }

  /** The request given to the driver respects every barrier.  A file system request: all
      barriers submitted before it have ended.  A proxy: every file system request submitted
      before its barrier has ended, its barrier has not, and the proxies ahead of it in the
      plan are exactly those that have completed. */
  ghost predicate SafeHandOut(s: Queue, r: Ref) {
    match r
    case Rq(x) =>
      x < |s.rqs| && s.rqs[x].kind != Barrier
      && (s.rqs[x].kind == Fs ==> forall b: nat | b < x && s.rqs[b].kind == Barrier :: b in s.ended)
    case _ =>
      && Active(s) && s.orig < |s.rqs| && s.rqs[s.orig].kind == Barrier && s.orig !in s.ended
      && (forall x: nat | x < s.orig && !s.rqs[x].kind.Special? :: x in s.ended)
      && |s.trail| < |Proxies(s.ordered)| && Proxies(s.ordered)[|s.trail|] == r
  }

  lemma TakenIsSafe(s: Queue, r: Ref)
    requires Inv(s) && Taken(s, r)
    ensures SafeHandOut(s, r)
  {
    assert r in s.head || r in s.driver;
    if r.Rq? {
      if s.rqs[r.id].kind == Fs {
        assert Cleared(s, r.id);
        forall b: nat | b < r.id && s.rqs[b].kind == Barrier ensures b in s.ended {
          assert IsBarrierId(s.rqs, b);
        }
      }
    } else {
      assert Active(s);
      NextOfPlan(s, r);
      assert DrainedBefore(s, s.orig);
    }
  }

  lemma PeekIsSafe(s: Queue)
    requires Inv(s)
    ensures Inv(Peek(s).q)
    ensures Peek(s).rq.Some? ==> SafeHandOut(Peek(s).q, Peek(s).rq.value)
  {
    PeekKeeps(s);
    if Peek(s).rq.Some? {
      PeekTakes(s);
      TakenIsSafe(Peek(s).q, Peek(s).rq.value);
    }
  }

  lemma PeekTakes(s: Queue)
    requires Inv(s) && Peek(s).rq.Some?
    ensures Taken(Peek(s).q, Peek(s).rq.value)
  {
    NextRequestKeeps(s);
  }

  /** Barrier safety over whole runs: whatever the driver gets to see or starts, at any point
      of any run, respects every barrier; errors, requeues and further queued barriers
      included. */
  lemma HandOutsAreSafe(states: seq<Queue>, actions: seq<Action>, i: nat, r: Ref)
    requires IsRun(states, actions) && HonestFlags(actions) && i < |actions|
    requires (actions[i] == PeekA && Peek(states[i]).rq == Some(r)) || actions[i] == StartA(r)
    ensures SafeHandOut(states[i+1], r)
  {
    RunInv(states, actions, i);
    RunInv(states, actions, i + 1);
    assert Enabled(states[i], actions[i]) && states[i+1] == Next(states[i], actions[i]);
    if actions[i] == PeekA {
      PeekIsSafe(states[i]);
    } else {
      TakenIsSafe(states[i+1], r);
    }
  }

  /** Whatever the driver holds at any point of a run respects every barrier. */
  lemma DriverIsSafe(states: seq<Queue>, actions: seq<Action>, i: nat, r: Ref)
    requires IsRun(states, actions) && HonestFlags(actions) && i < |states| && r in states[i].driver
    ensures SafeHandOut(states[i], r)
  {
    RunInv(states, actions, i);
    TakenIsSafe(states[i], r);
  }

  /** Every ended barrier has been through its planned proxies once each and in order, and
      carries the first non-zero error among them. */
  lemma BarrierOutcome(states: seq<Queue>, actions: seq<Action>, i: nat, b: nat)
    requires IsRun(states, actions) && HonestFlags(actions) && i < |states|
    requires b in states[i].ended && b < |states[i].rqs| && states[i].rqs[b].kind == Barrier
    ensures var s := states[i];
            && b in s.trails
            && |s.trails[b]| == |Proxies(Effective(s.nextOrdered, s.rqs[b]))|
            && Follows(s.trails[b], Proxies(Effective(s.nextOrdered, s.rqs[b])))
            && s.ended[b] == FirstErr(s.trails[b])
  {
    RunInv(states, actions, i);
    assert OutcomeOk(states[i], b);
  }

  // ---------------------------------------------------------------- each request ends once

  /** As long as no bug is recorded, what has ended stays as it is. */
  ghost predicate KeepsEnded(s: Queue, d: Queue) {
    !d.bug ==> !s.bug && forall id | id in s.ended :: id in d.ended && d.ended[id] == s.ended[id]
  }

  lemma CompleteSeqKeepsEnded(s: Queue, steps: set<Step>, err: int)
    ensures KeepsEnded(s, CompleteSeq(s, steps, err))
  {}

  lemma ElvCompletedKeepsEnded(s: Queue, r: Ref)
    ensures KeepsEnded(s, ElvCompleted(s, r))
  {
    CompleteSeqKeepsEnded(PutAccount(s, r), {Drain}, 0);
  }

  lemma DoOrderedKeepsEnded(s: Queue)
    requires s.head != []
    ensures KeepsEnded(s, DoOrdered(s).q)
  {
    var r := s.head[0];
    if !Active(s) && KindOf(s.rqs, r) == Barrier && r.Rq? {
      var s1 := Stacked(s);
      CompleteSeqKeepsEnded(s1, StartSkip(s1), 0);
    }
  }

  lemma {:induction false} DrainKeepsEnded(s: Queue)
    ensures KeepsEnded(s, DrainElevator(s))
    decreases |s.elv|
  {}

  lemma {:induction false} NextKeepsEnded(s: Queue)
    ensures KeepsEnded(s, NextRequest(s).q)
    decreases |s.elv|, |s.head|
  {
    if s.head == [] {
      if s.elv != [] { NextKeepsEnded(NoopDispatch(s)); }
    } else if !DoOrdered(s).keep {
      GoneShrinks(s);
      NextKeepsEnded(DoOrdered(s).q);
      DoOrderedKeepsEnded(s);
    } else {
      DoOrderedKeepsEnded(s);
    }
  }

  lemma CompleteKeepsEnded(s: Queue, r: Ref, err: int)
    ensures KeepsEnded(s, Complete(s, r, err))
  {
    var s1 := s.(driver := s.driver - {r});
    if r.Rq? {
      ElvCompletedKeepsEnded(EndRequest(s1, r.id, err), r);
    } else {
      var s2 := ElvCompleted(s1, r);
      ElvCompletedKeepsEnded(s1, r);
      CompleteSeqKeepsEnded(s2.(trail := s2.trail + [Note(ProxyStep(r), err)]), {ProxyStep(r)}, err);
    }
  }

  lemma SubmitKeepsEnded(s: Queue, b: Bio, w: Where)
    ensures KeepsEnded(s, Submit(s, b, w))
  {
    var s1 := Bounded(s, b);
    DrainKeepsEnded(s1);
    InsertKeepsEnded(if Target(b, w) == Back then DrainElevator(s1) else s1, b, Target(b, w));
  }

  lemma InsertKeepsEnded(s: Queue, b: Bio, w: Where)
    ensures Insert(s, b, w).ended == s.ended && Insert(s, b, w).bug == s.bug
  {}

  lemma StepKeepsEnded(s: Queue, a: Action)
    requires Enabled(s, a)
    ensures KeepsEnded(s, Next(s, a))
  {
    match a
    case SubmitA(b, w) => SubmitKeepsEnded(s, b, w);
    case PeekA => NextKeepsEnded(s);
    case StartA(r) =>
    case CompleteA(r, e) => CompleteKeepsEnded(s, r, e);
    case RequeueA(r) =>
  }

  /** A request that has ended never ends again and never changes its outcome. */
  lemma {:induction false} EndedForGood(states: seq<Queue>, actions: seq<Action>, i: nat, j: nat, id: nat)
    requires IsRun(states, actions) && HonestFlags(actions) && i <= j < |states| && id in states[i].ended
    ensures id in states[j].ended && states[j].ended[id] == states[i].ended[id]
    decreases j
  {
    if i < j {
      EndedForGood(states, actions, i, j - 1, id);
      NoBugFires(states, actions, j);
      assert Enabled(states[j-1], actions[j-1]) && states[j-1+1] == Next(states[j-1], actions[j-1]);
      StepKeepsEnded(states[j-1], actions[j-1]);
    }
  }

  // ---------------------------------------------------------------- nothing is lost, nothing hangs

  /** In how many places a submitted request is. */
  function PlaceCount(s: Queue, id: nat): nat {
    (if Rq(id) in s.head then 1 else 0) + (if Rq(id) in s.elv then 1 else 0)
    + (if Rq(id) in s.driver then 1 else 0) + (if id in s.ended then 1 else 0)
    + (if Active(s) && id == s.orig then 1 else 0)
  }

  /** Every request ever submitted is in exactly one place: queued for dispatch, in the
      scheduler, in the driver, ended, or the barrier being carried out. */
  lemma NothingIsLost(states: seq<Queue>, actions: seq<Action>, i: nat, id: nat)
    requires IsRun(states, actions) && HonestFlags(actions) && i < |states| && id < |states[i].rqs|
    ensures PlaceCount(states[i], id) == 1 && NoDup(states[i].head) && NoDup(states[i].elv)
  {
    RunInv(states, actions, i);
    assert Placed(states[i], id);
  }

  lemma HeadNotStuck(s: Queue)
    requires Inv(s) && Active(s) && s.driver == {} && s.head != []
    requires var r := s.head[0]; !r.Rq? || IsFs(s.rqs, r)
    ensures Rank(ReqSeq(s, s.head[0])) <= Rank(FirstZero(s.ordseq))
  {
    hide FlagsOk, ElvOk, ClosedOk, OutcomesOk, Coverage, TakenOk, TrailOk;
    var t := FirstZero(s.ordseq);
    if t != Drain {
      var p := if t == PreFlush then PreFlushRq else if t == Bar then BarRq else PostFlushRq;
      assert ProxyStep(p) == t && p in s.head;
      HeadKey(s, p);
      var r := s.head[0];
      assert r in s.head;
      if r.Rq? {
        if s.orig < r.id { EpochMono(s.rqs, s.orig, r.id); }
        assert false;
      }
    }
  }

  /** No deadlock: if the driver has nothing and is given nothing, there is nothing. */
  lemma {:induction false} NoStall(s: Queue)
    requires Inv(s) && s.driver == {} && NextRequest(s).rq.None?
    ensures var d := NextRequest(s).q; d.head == [] && d.elv == [] && !Active(d)
    decreases |s.elv|, |s.head|
  {
    hide Core, ProgressOk;
    if s.head == [] {
      if s.elv == [] {
        NothingActive(s);
      } else {
        NoopKeeps(s);
        NoopProgress(s);
        NoStall(NoopDispatch(s));
      }
    } else {
      DoOrderedKeeps(s);
      if DoOrdered(s).keep {
        NeverNothing(s);
        assert false;
      } else {
        GoneShrinks(s);
        NoStall(DoOrdered(s).q);
      }
    }
  }

  lemma NothingActive(s: Queue)
    requires Inv(s) && s.driver == {} && s.head == []
    ensures !Active(s)
  {
    hide Numbered, Places, Coverage, SortedHead, ElvOk, FlagsOk, ClosedOk, TakenOk, OutcomesOk, TrailOk;
    assert PreFlushRq !in s.head && BarRq !in s.head && PostFlushRq !in s.head;
  }

  lemma NeverNothing(s: Queue)
    requires Inv(s) && s.driver == {} && s.head != [] && DoOrdered(s).keep
    ensures DoOrdered(s).rq.Some?
  {
    hide SortedHead, FlagsOk, ElvOk, Numbered, ClosedOk, OutcomesOk, Coverage, TrailOk, TakenOk, StartOrdered;
    var r := s.head[0];
    assert r in s.head;
    if Active(s) {
      if !r.Rq? || IsFs(s.rqs, r) { HeadNotStuck(s); }
    } else if KindOf(s.rqs, r) == Barrier {
      KeptBegins(s);
      assert FsOf(s.rqs, s.driver) == {};
      BeginsWithProxy(s);
    }
  }

  lemma KeptBegins(s: Queue)
    requires BarrierAtHead(s) && StartOrdered(s).keep
    ensures Begins(s)
  {
    hide Core, CompleteSeq;
  }

  /** With nothing in flight a sequence that begins has a proxy to hand out. */
  lemma BeginsWithProxy(s: Queue)
    requires Begins(s) && s.inFlight == 0
    ensures StartOrdered(s).rq.Some?
  {
    hide Core, Proxies, Skipped, FirstZero, CompleteSeq;
    BarrierCleared(s);
    OrdersByDraining(s);
    BeginShape(s);
    StackedOrdered(s);
    SomeProxy(StartOrdered(s).q.ordered);
  }

  lemma StackedOrdered(s: Queue)
    requires Begins(s)
    ensures StartOrdered(s).q.ordered == Stacked(s).ordered
  {
    hide Core, Proxies, Skipped, FirstZero;
  }

  lemma SomeProxy(o: Ordered)
    requires o.DrainBy? && FirstZero({Started} + Skipped(o) + {Drain}) != Done
    ensures Proxies(o) != []
  {}

  predicate HasEnded(s: Queue, id: nat) {
    id in s.ended
  }

  ghost predicate AllEnded(s: Queue) {
    forall id: nat | id < |s.rqs| :: HasEnded(s, id)
  }

  /** Progress over whole runs: a driver that has given everything back and then fetches gets
      a request unless every request ever submitted has ended. */
  lemma FetchMakesProgress(states: seq<Queue>, actions: seq<Action>, i: nat)
    requires IsRun(states, actions) && HonestFlags(actions) && i < |actions| && actions[i] == PeekA
    requires states[i].driver == {} && Peek(states[i]).rq == None
    ensures AllEnded(states[i+1])
  {
    RunInv(states, actions, i);
    RunInv(states, actions, i + 1);
    assert states[i+1] == Next(states[i], actions[i]);
    NoStall(states[i]);
    PeekDriver(states[i]);
    var d := states[i+1];
    forall id: nat | id < |d.rqs| ensures HasEnded(d, id) {
      assert Placed(d, id);
    }
  }

  lemma {:induction false} PeekDriver(s: Queue)
    ensures NextRequest(s).q.driver == s.driver
    decreases |s.elv|, |s.head|
  {
    if s.head == [] {
      if s.elv != [] { PeekDriver(NoopDispatch(s)); }
    } else if !DoOrdered(s).keep {
      GoneShrinks(s);
      PeekDriver(DoOrdered(s).q);
    }
  }
}
