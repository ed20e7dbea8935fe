/** What the one colour bit of the barrier protocol asks of the callers (elevator.c, blk-barrier.c):
    exactly that no request but a file system request carries REQ_HARDBARRIER. */
module BarrierColour {
  import opened Options
  import opened BarrierModel
  import opened BarrierSafety

  /** Every request the driver gets to see in the run respects every barrier, and no assertion of
      the protocol fails. */
  ghost predicate RunIsSafe(states: seq<Queue>, actions: seq<Action>) {
    && |states| == |actions| + 1
    && (forall i | 0 <= i < |states| :: !states[i].bug)
    && (forall i | 0 <= i < |actions| && actions[i] == PeekA && Peek(states[i]).rq.Some? ::
          SafeHandOut(states[i+1], Peek(states[i]).rq.value))
  }

  ghost predicate SubmitsOnly(actions: seq<Action>, kinds: set<Kind>) {
    forall a | a in actions && a.SubmitA? :: a.bio.kind in kinds
  }

  lemma HonestRunIsSafe(states: seq<Queue>, actions: seq<Action>)
    requires IsRun(states, actions) && HonestFlags(actions)
    ensures RunIsSafe(states, actions)
  {
    forall i | 0 <= i < |states| ensures !states[i].bug {
      NoBugFires(states, actions, i);
    }
    forall i | 0 <= i < |actions| && actions[i] == PeekA && Peek(states[i]).rq.Some?
      ensures SafeHandOut(states[i+1], Peek(states[i]).rq.value)
    {
      HandOutsAreSafe(states, actions, i, Peek(states[i]).rq.value);
    }
  }

  // ---------------------------------------------------------------- a stray flag

  /** A queue that orders by draining, with no flushes: QUEUE_ORDERED_DRAIN. */
  const DRAIN := DrainBy(false, true, false)

  /** A request of one sector, inserted at the back. */
  function Sent(k: Kind): Action {
    SubmitA(Bio(k, 0, 1, true, false, false, false), Back)
  }

  /** A barrier, a packet command that carries the flag, and a write: the driver starts the bar proxy
      and the command, and fetches once more. */
  const STRAY: seq<Action> :=
    [Sent(Barrier), Sent(Special(true)), Sent(Fs), PeekA, StartA(BarRq), PeekA, StartA(Rq(1)), PeekA]

  function Row(k: Kind, color: bool, epoch: nat): Request {
    Request(k, 0, 1, true, false, color, epoch)
  }

  /** The three requests are queued; the write has the colour of the barrier. */
  predicate Waiting(s: Queue) {
    && s.nextOrdered == DRAIN && !Active(s) && s.inFlight == 0 && s.ended == map[] && s.elv == [] && s.driver == {}
    && s.rqs == [Row(Barrier, false, 0), Row(Special(true), true, 1), Row(Fs, false, 1)]
    && s.head == [Rq(0), Rq(1), Rq(2)] && s.started == {}
  }

  /** One more request at the back of an idle queue. */
  predicate OneMore(s: Queue, d: Queue, k: Kind) {
    && d.rqs == s.rqs + [Row(k, s.ordcolor, CurEpoch(s.rqs))] && d.head == s.head + [Rq(|s.rqs|)]
    && d.ordcolor == (IsHard(k) != s.ordcolor)
    && d.nextOrdered == s.nextOrdered && d.ordseq == s.ordseq && d.inFlight == s.inFlight && d.ended == s.ended
    && d.elv == [] && d.driver == s.driver && d.started == s.started
  }

  lemma SentOne(s: Queue, k: Kind)
    requires s.elv == []
    ensures Enabled(s, Sent(k)) && OneMore(s, Next(s, Sent(k)), k)
  {}

  lemma SentThree(s0: Queue, s1: Queue, s2: Queue, s3: Queue)
    requires s0 == Init(DRAIN) && OneMore(s0, s1, Barrier) && OneMore(s1, s2, Special(true)) && OneMore(s2, s3, Fs)
    ensures Waiting(s3)
  {
    assert s1.rqs == [Row(Barrier, false, 0)];
    assert s2.rqs == [Row(Barrier, false, 0), Row(Special(true), true, 1)];
  }

  /** The barrier is being carried out, and its bar proxy is about to be started or has been. */
  predicate Barring(s: Queue, head: seq<Ref>, started: set<Ref>) {
    && Active(s) && FirstZero(s.ordseq) == Bar && s.orig == 0 && s.ended == map[] && s.elv == []
    && s.rqs == [Row(Barrier, false, 0), Row(Special(true), true, 1), Row(Fs, false, 1)]
    && s.head == head && s.started == started
  }

  lemma BarFetched(s: Queue)
    requires Waiting(s)
    ensures Peek(s).rq == Some(BarRq) && Barring(Peek(s).q, [BarRq, Rq(1), Rq(2)], {BarRq})
  {
    var s1 := Stacked(s);
    assert s1.ordered == DRAIN && Proxies(DRAIN) == [BarRq];
    assert s1.head == [BarRq, Rq(1), Rq(2)];
    assert StartSkip(s1) == {PreFlush, PostFlush, Drain};
  }

  /** The command is not subject to ordering. */
  lemma CommandFetched(s: Queue)
    requires Barring(s, [Rq(1), Rq(2)], {BarRq})
    ensures Peek(s).rq == Some(Rq(1)) && Barring(Peek(s).q, [Rq(1), Rq(2)], {BarRq, Rq(1)})
  {}

  /** The write passes for something to drain although its barrier has not ended. */
  lemma WriteFetched(s: Queue)
    requires Barring(s, [Rq(2)], {BarRq, Rq(1)})
    ensures Peek(s).rq == Some(Rq(2)) && Peek(s).q.bug && !SafeHandOut(Peek(s).q, Rq(2))
  {}

  lemma Starts(s: Queue, r: Ref, rest: seq<Ref>, started: set<Ref>)
    requires Barring(s, [r] + rest, started) && r in started && r !in rest
    ensures Enabled(s, StartA(r)) && Barring(Next(s, StartA(r)), rest, started)
  {
    assert s.head[0] == r && ([r] + rest)[1..] == rest;
  }

  /** One request with a stray flag is enough to hand out a write ahead of a barrier submitted before
      it, and to fail the assertion in blk_do_ordered. */
  lemma StrayFlag() returns (states: seq<Queue>)
    ensures IsRun(states, STRAY) && Peek(states[7]).rq == Some(Rq(2)) && states[8].bug && !SafeHandOut(states[8], Rq(2))
  {
    hide Submit, Start, Peek, SafeHandOut, Waiting, Barring, OneMore, Init;
    var s0 := Init(DRAIN);
    var s1, s2, s3 := SendThree(s0);
    var s4 := Next(s3, PeekA);
    BarFetched(s3);
    var s5 := Next(s4, StartA(BarRq));
    Starts(s4, BarRq, [Rq(1), Rq(2)], {BarRq});
    var s6 := Next(s5, PeekA);
    CommandFetched(s5);
    var s7 := Next(s6, StartA(Rq(1)));
    Starts(s6, Rq(1), [Rq(2)], {BarRq, Rq(1)});
    var s8 := Next(s7, PeekA);
    WriteFetched(s7);
    states := [s0, s1, s2, s3, s4, s5, s6, s7, s8];
  }

  lemma SendThree(s0: Queue) returns (s1: Queue, s2: Queue, s3: Queue)
    requires s0 == Init(DRAIN)
    ensures Enabled(s0, Sent(Barrier)) && s1 == Next(s0, Sent(Barrier))
    ensures Enabled(s1, Sent(Special(true))) && s2 == Next(s1, Sent(Special(true)))
    ensures Enabled(s2, Sent(Fs)) && s3 == Next(s2, Sent(Fs)) && Waiting(s3)
  {
    hide Submit, Sent, Enabled, Waiting, Row;
    SentOne(s0, Barrier);
    s1 := Next(s0, Sent(Barrier));
    SentOne(s1, Special(true));
    s2 := Next(s1, Sent(Special(true)));
    SentOne(s2, Fs);
    s3 := Next(s2, Sent(Fs));
    SentThree(s0, s1, s2, s3);
  }

  /** Of callers that submit barriers and file system requests, every run is safe exactly if they
      never put the flag on a request of another kind. */
  lemma ExactlyHonest(kinds: set<Kind>)
    requires Barrier in kinds && Fs in kinds
    ensures (forall states, actions | IsRun(states, actions) && SubmitsOnly(actions, kinds) :: RunIsSafe(states, actions))
            <==> Special(true) !in kinds
  {
    if Special(true) in kinds {
      var states := StrayFlag();
      assert SubmitsOnly(STRAY, kinds) && !RunIsSafe(states, STRAY);
    } else {
      forall states, actions | IsRun(states, actions) && SubmitsOnly(actions, kinds) ensures RunIsSafe(states, actions) {
        HonestRunIsSafe(states, actions);
      }
    }
  }
}
