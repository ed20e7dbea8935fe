/** The bound on starvation by the deadline scheduler is met: for all tunables a run from the empty
    scheduler ends with a write waiting, and as many reads as the bound allows go before it. */
module DeadlineTight {
  import opened Lists
  import opened Options
  import opened SortTree
  import opened Deadline
  import opened DeadlineDispatch

  /** One read waits, and the write with number zero if `writes`; the reads are numbered by their
      sectors. */
  ghost predicate Fed(d: Data, m: nat, writes: bool) {
    && Ok(d) && Read in d.lane && Write in d.lane && m > 0 && m in d.pos && d.pos[m] == m
    && d.lane[Read].tree == [m] && d.lane[Read].fifo == [m]
    && d.lane[Write] == if writes then Lane([0], [0], None) else Lane([], [], None)
  }

  /** The same with one more read behind the first. */
  ghost predicate Stocked(d: Data, m: nat, writes: bool) {
    && Ok(d) && m > 0
    && d.lane[Read].tree == [m, m + 1] && d.lane[Read].fifo == [m, m + 1]
    && d.lane[Write] == (if writes then Lane([0], [0], None) else Lane([], [], None))
    && m + 1 in d.pos && d.pos[m + 1] == m + 1
  }

  function Arrival(m: nat): Op {
    Adding(Read, m, m, 1)
  }

  /** The batch is full, or it goes on. */
  predicate Batched(c: Settings, d: Data)
    requires Read in d.lane
  {
    d.batching == Batch(c) || (d.lane[Read].next.Some? && 0 < d.batching < U32(c.fifoBatch))
  }

  lemma Arrives(c: Settings, d: Data, m: nat, writes: bool, now: int)
    requires Fed(d, m, writes) && ClockOk(c, d, now)
    ensures Enabled(d, Arrival(m + 1))
    ensures var e := Apply(c, d, Arrival(m + 1), now);
            Stocked(e, m, writes) && e.lane[Read].next == d.lane[Read].next && e.batching == d.batching && e.starved == d.starved
  {
    hide LaneOk, Added, At;
    var x := m + 1;
    NotWaiting(d, x);
    var d1 := d.(pos := d.pos[x := x], len := d.len[x := 1]);
    PlacedOk(d, Read, x, x, 1);
    AddedSecond(d1.pos, m);
    AddedAlone(d1, Read, x);
    AddKeeps(c, d, Read, x, x, 1, now);
  }

  lemma NotWaiting(d: Data, x: nat)
    requires Read in d.lane && Write in d.lane && x !in d.lane[Read].fifo && x !in d.lane[Write].fifo
    ensures NotQueued(d, x)
  {
    forall dir | dir in d.lane ensures x !in d.lane[dir].fifo {
      assert dir == Read || dir == Write;
    }
  }

  lemma AddedSecond(pos: Positions, m: nat)
    requires m in pos && pos[m] == m && m + 1 in pos && pos[m + 1] == m + 1
    ensures Sorted(pos, [m]) && At(pos, [m], m + 1) == None && Added(pos, [m], m + 1) == [m, m + 1]
  {
    assert Lower(pos, [m], m + 1) == 1;
  }

  /** No alias is in the way. */
  lemma AddedAlone(d: Data, dir: Dir, x: nat)
    requires OkBut(d, dir, {}) && x in d.pos && At(d.pos, d.lane[dir].tree, d.pos[x]) == None
    ensures AddRb(d, dir, {}, x) == Linked(d, dir, x)
  {}

  lemma Leaves(c: Settings, d: Data, m: nat, writes: bool, now: int)
    requires Stocked(d, m, writes) && d.lane[Read].next in {None, Some(m)}
    requires Pick(c, d, now).Some? && Pick(c, d, now).value.dir == Read
    ensures var e := Dispatch(c, d, now);
            && Fed(e, m + 1, writes) && e.lane[Read].next == Some(m + 1)
            && e.batching == Pick(c, d, now).value.batching && e.starved == Pick(c, d, now).value.starved
  {
    hide Removed, Latter;
    DispatchKeeps(c, d, now);
    PickQueued(c, d, now);
    FirstLeaves(m);
    assert Pick(c, d, now).value.x == m;
  }

  lemma FirstLeaves(m: nat)
    ensures Latter([m, m + 1], m) == Some(m + 1)
    ensures Removed(Lane([m, m + 1], [m, m + 1], Some(m + 1)), m) == Lane([m + 1], [m + 1], Some(m + 1))
  {
    assert IndexOf([m, m + 1], m) == 0;
  }

  /** A read arrives and the next one is dispatched: a batch goes on or a new one begins. */
  lemma Round(c: Settings, d: Data, m: nat, writes: bool, now: int)
    requires Inv(c, d, now) && Fed(d, m, writes) && d.lane[Read].next in {None, Some(m)}
    requires writes ==> Patience(c, d) > 0 && Batched(c, d)
    ensures Enabled(d, Arrival(m + 1)) && Ok(Apply(c, d, Arrival(m + 1), now))
    ensures var e := Apply(c, d, Arrival(m + 1), now);
            var p := Pick(c, e, now);
            var f := Dispatch(c, e, now);
            && p.Some? && p.value.dir == Read && e.lane[Write] == d.lane[Write]
            && f.batching == (if d.lane[Read].next.Some? && d.batching < U32(c.fifoBatch) then d.batching + 1 else 1)
            && f.starved == (if writes && f.batching == 1 then d.starved + 1 else d.starved)
            && Fed(f, m + 1, writes) && f.lane[Read].next == Some(m + 1)
  {
    Arrives(c, d, m, writes, now);
    var e := Apply(c, d, Arrival(m + 1), now);
    Chooses(c, d, e, m, writes, now);
    Leaves(c, e, m, writes, now);
  }

  lemma Chooses(c: Settings, d: Data, e: Data, m: nat, writes: bool, now: int)
    requires Bounded(c, d) && Read in d.lane && (writes ==> Patience(c, d) > 0 && Batched(c, d))
    requires Stocked(e, m, writes) && e.lane[Read].next == d.lane[Read].next && e.batching == d.batching && e.starved == d.starved
    ensures var p := Pick(c, e, now);
            && p.Some? && p.value.dir == Read
            && p.value.batching == (if d.lane[Read].next.Some? && d.batching < U32(c.fifoBatch) then d.batching + 1 else 1)
            && p.value.starved == (if writes && p.value.batching == 1 then d.starved + 1 else d.starved)
  {
    hide Patience;
    if writes && d.batching == Batch(c) {
      PatienceLeft(c, d);
    }
  }

  lemma PatienceLeft(c: Settings, d: Data)
    requires Bounded(c, d) && Patience(c, d) > 0 && d.batching == Batch(c)
    ensures d.starved < U32(c.writesStarved)
  {}

  // ---------------------------------------------------------------- starving

  function Rounds(m: nat, k: nat, now: int): seq<Event>
    decreases k
  {
    if k == 0 then [] else [Event(now, Arrival(m + 1)), Event(now, Dispatching)] + Rounds(m + 1, k - 1, now)
  }

  lemma RoundWears(c: Settings, d: Data, f: Data)
    requires Bounded(c, d) && Read in d.lane && Batched(c, d) && Patience(c, d) > 0
    requires f.batching == if d.lane[Read].next.Some? && d.batching < U32(c.fifoBatch) then d.batching + 1 else 1
    requires f.starved == if f.batching == 1 then d.starved + 1 else d.starved
    requires Read in f.lane && f.lane[Read].next.Some?
    ensures Bounded(c, f) && Batched(c, f) && Patience(c, f) == Patience(c, d) - 1
  {
    if d.batching == Batch(c) { PatienceLeft(c, d); }
  }

  lemma StarvesOn(c: Settings, d: Data, e: Event, now: int, rest: seq<Event>)
    requires Inv(c, d, now) && e.now == now && Enabled(d, e.op)
    requires e.op.Dispatching? ==> d.lane[Write].fifo != [] && Pick(c, d, now).Some? && Pick(c, d, now).value.dir == Read
    requires Inv(c, Apply(c, d, e.op, now), now) && Starves(c, Apply(c, d, e.op, now), now, rest)
    ensures Starves(c, d, now, [e] + rest)
    ensures Dispatches([e] + rest) == Dispatches(rest) + if e.op.Dispatching? then 1 else 0
  {
    hide Apply, Pick, Inv, Enabled;
    assert ([e] + rest)[1..] == rest;
  }

  /** One round as two events of a starving run. */
  ghost predicate Steps(c: Settings, d: Data, e: Data, f: Data, m: nat, now: int) {
    && Inv(c, d, now) && Inv(c, e, now) && Inv(c, f, now)
    && Enabled(d, Arrival(m + 1)) && e == Apply(c, d, Arrival(m + 1), now) && f == Apply(c, e, Dispatching, now)
    && e.lane[Write].fifo != [] && Pick(c, e, now).Some? && Pick(c, e, now).value.dir == Read
  }

  lemma RoundSteps(c: Settings, d: Data, m: nat, now: int) returns (e: Data, f: Data)
    requires Inv(c, d, now) && Fed(d, m, true) && d.lane[Read].next in {None, Some(m)} && Batched(c, d) && Patience(c, d) > 0
    ensures Steps(c, d, e, f, m, now)
    ensures Fed(f, m + 1, true) && f.lane[Read].next == Some(m + 1) && Batched(c, f) && Patience(c, f) == Patience(c, d) - 1
  {
    hide Pick, Dispatch, Add, LaneOk, Patience, Batched, ClockOk;
    Round(c, d, m, true, now);
    ApplyKeeps(c, d, now, Event(now, Arrival(m + 1)));
    e := Apply(c, d, Arrival(m + 1), now);
    ApplyKeeps(c, e, now, Event(now, Dispatching));
    f := Apply(c, e, Dispatching, now);
    RoundWears(c, d, f);
  }

  lemma StepsStarve(c: Settings, d: Data, e: Data, f: Data, m: nat, now: int, rest: seq<Event>)
    requires Steps(c, d, e, f, m, now) && Starves(c, f, now, rest)
    ensures var evs := [Event(now, Arrival(m + 1)), Event(now, Dispatching)] + rest;
            Starves(c, d, now, evs) && Dispatches(evs) == Dispatches(rest) + 1
  {
    hide Pick, Apply, OkBut, Bounded, ClockOk, Starves, Dispatches;
    var a, b := Event(now, Arrival(m + 1)), Event(now, Dispatching);
    assert Enabled(e, Dispatching);
    StarvesOn(c, e, b, now, rest);
    StarvesOn(c, d, a, now, [b] + rest);
    assert [a] + ([b] + rest) == [a, b] + rest;
  }

  lemma {:induction false} RoundsStarve(c: Settings, d: Data, m: nat, k: nat, now: int)
    requires Inv(c, d, now) && Fed(d, m, true) && d.lane[Read].next in {None, Some(m)} && Batched(c, d) && k == Patience(c, d)
    ensures Starves(c, d, now, Rounds(m, k, now)) && Dispatches(Rounds(m, k, now)) == k
    decreases k
  {
    hide Pick, Apply, OkBut, Patience, Batched, ClockOk, Starves, Dispatches, Enabled;
    if k == 0 {
      StarvesNothing(c, d, now);
    } else {
      var e, f := RoundSteps(c, d, m, now);
      RoundsStarve(c, f, m + 1, k - 1, now);
      StepsStarve(c, d, e, f, m, now, Rounds(m + 1, k - 1, now));
    }
  }

  lemma StarvesNothing(c: Settings, d: Data, now: int)
    requires Inv(c, d, now)
    ensures Starves(c, d, now, []) && Dispatches([]) == 0
  {}

  // ---------------------------------------------------------------- getting there

  lemma Extended(c: Settings, start: int, evs: seq<Event>, d: Data, e: Event)
    requires After(c, start, evs) == Some((d, start)) && e.now == start && Enabled(d, e.op)
    ensures After(c, start, evs + [e]) == Some((Apply(c, d, e.op, start), start))
  {
    assert (evs + [e])[..|evs|] == evs;
  }

  /** `d` is reached with one read waiting and `j` reads of a batch dispatched. */
  ghost predicate Warmed(c: Settings, start: int, evs: seq<Event>, d: Data, j: nat) {
    && After(c, start, evs) == Some((d, start)) && Fed(d, j + 1, false) && d.batching == j && d.starved == 0
    && d.lane[Read].next == if j == 0 then None else Some(j + 1)
  }

  lemma FirstRead(c: Settings, start: int) returns (evs: seq<Event>, d: Data)
    ensures Warmed(c, start, evs, d, 0)
  {
    var e := Event(start, Arrival(1));
    assert After(c, start, []) == Some((EMPTY, start));
    Extended(c, start, [], EMPTY, e);
    assert [] + [e] == [e];
    d := Apply(c, EMPTY, e.op, start);
    evs := [e];
    assert Inserted([], 0, 1) == [1];
  }

  lemma {:induction false} WarmUp(c: Settings, start: int, j: nat) returns (evs: seq<Event>, d: Data)
    requires j <= Batch(c)
    ensures Warmed(c, start, evs, d, j)
    decreases j
  {
    hide Warmed, Batch;
    if j == 0 {
      evs, d := FirstRead(c, start);
    } else {
      var before, b := WarmUp(c, start, j - 1);
      evs, d := OneRound(c, start, before, b, j - 1);
    }
  }

  lemma OneRound(c: Settings, start: int, before: seq<Event>, b: Data, j: nat) returns (evs: seq<Event>, d: Data)
    requires j < Batch(c) && Warmed(c, start, before, b, j)
    ensures Warmed(c, start, evs, d, j + 1)
  {
    hide Pick, Dispatch, Add, Ok, Bounded, ClockOk;
    Round(c, b, j + 1, false, start);
    Extended(c, start, before, b, Event(start, Arrival(j + 2)));
    var e := Apply(c, b, Arrival(j + 2), start);
    evs := before + [Event(start, Arrival(j + 2))];
    Extended(c, start, evs, e, Event(start, Dispatching));
    evs := evs + [Event(start, Dispatching)];
    d := Apply(c, e, Dispatching, start);
  }

  lemma WriteArrives(c: Settings, d: Data, m: nat, now: int)
    requires Fed(d, m, false) && ClockOk(c, d, now)
    ensures Enabled(d, Adding(Write, 0, 0, 1))
    ensures var e := Apply(c, d, Adding(Write, 0, 0, 1), now);
            Fed(e, m, true) && e.lane[Read] == d.lane[Read] && e.batching == d.batching && e.starved == d.starved
  {
    NotWaiting(d, 0);
    View(d, Write);
    PlacedOk(d, Write, 0, 0, 1);
    assert Inserted([], 0, 0) == [0];
    AddKeeps(c, d, Write, 0, 0, 1, now);
    ReadView(Add(c, d, Write, 0, 0, 1, now), Write);
  }

  /** For all tunables, even a negative writes_starved, there is a run after which the full number of
      batches of reads goes before a write that waits all the while. */
  lemma BoundAttained(c: Settings, start: int) returns (before: seq<Event>, d: Data, evs: seq<Event>)
    ensures After(c, start, before) == Some((d, start)) && d.lane[Write].fifo != []
    ensures Starves(c, d, start, evs) && Dispatches(evs) == Patience(c, d) == U32(c.writesStarved) * Batch(c)
  {
    hide Starves, Dispatches, After, Rounds, Apply, OkBut, Batch;
    BatchNotEmpty(c);
    var warm, b := WarmUp(c, start, Batch(c));
    var e := Event(start, Adding(Write, 0, 0, 1));
    WriteArrives(c, b, Batch(c) + 1, start);
    Extended(c, start, warm, b, e);
    before, d := warm + [e], Apply(c, b, e.op, start);
    ApplyKeeps(c, b, start, e);
    evs := Rounds(Batch(c) + 1, Patience(c, d), start);
    RoundsStarve(c, d, Batch(c) + 1, Patience(c, d), start);
  }

  lemma BatchNotEmpty(c: Settings)
    ensures Batch(c) > 0
  {}
}
