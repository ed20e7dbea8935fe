/** Dispatching by the deadline scheduler: the choice of a request, the bound on how long reads
    starve writes, runs of the scheduler and the forced drain. */
module DeadlineDispatch {
  import opened Lists
  import opened Options
  import opened Deadline

  /** The request to dispatch, and the counters after it. */
  datatype Choice = Choice(dir: Dir, x: nat, batching: nat, starved: nat)

  /** The best request of a direction in which a new batch begins: the oldest one if it has
      expired or if there is no next one in sector order. */
  ghost function Fresh(d: Data, dir: Dir, starved: nat, now: int): Choice
    requires OkBut(d, dir, {}) && d.lane[dir].fifo != []
  {
    var l := d.lane[dir];
    Choice(dir, if now > d.time[l.fifo[0]] || l.next == None then l.fifo[0] else l.next.value, 1, starved)
  }

  /** The next request in sector order, of whichever direction. */
  ghost function NextOf(d: Data): Option<(Dir, nat)>
    requires Ok(d)
  {
    if d.lane[Write].next.Some? then Some((Write, d.lane[Write].next.value))
    else if d.lane[Read].next.Some? then Some((Read, d.lane[Read].next.value))
    else None
  }

  /** deadline_dispatch_requests up to the choice of the request. */
  ghost function Pick(c: Settings, d: Data, now: int): Option<Choice>
    requires Ok(d)
  {
    var anyRead, anyWrite, next := d.lane[Read].fifo != [], d.lane[Write].fifo != [], NextOf(d);
    if next.Some? && d.batching < U32(c.fifoBatch) then
      Some(Choice(next.value.0, next.value.1, d.batching + 1, d.starved))
    else if anyRead && !(anyWrite && d.starved >= U32(c.writesStarved)) then
      Some(Fresh(d, Read, if anyWrite then d.starved + 1 else d.starved, now))
    else if anyWrite then Some(Fresh(d, Write, 0, now))
    else None
  }

  ghost function Dispatch(c: Settings, d: Data, now: int): Data
    requires Ok(d)
  {
    var p := Pick(c, d, now);
    if p == None then d
    else
      PickQueued(c, d, now);
      MoveRequest(d.(batching := p.value.batching, starved := p.value.starved), p.value.dir, p.value.x)
  }

  lemma FlipOk(d: Data, dir: Dir)
    requires OkBut(d, dir, {})
    ensures OkBut(d, Other(dir), {})
  {}

  lemma PickQueued(c: Settings, d: Data, now: int)
    requires Ok(d)
    ensures var p := Pick(c, d, now);
            p.Some? ==> && p.value.dir in d.lane && Other(p.value.dir) in d.lane && p.value.x in d.lane[p.value.dir].tree
                        && p.value.x in d.lane[p.value.dir].fifo && p.value.x in d.pos && p.value.x in d.len
  {}

  /** Nothing is dispatched exactly when nothing is queued. */
  lemma PickIffQueued(c: Settings, d: Data, now: int)
    requires Ok(d)
    ensures Pick(c, d, now) == None <==> d.lane[Read].fifo == [] && d.lane[Write].fifo == []
  {}

  lemma CountersFrame(d: Data, batching: nat, starved: nat, dir: Dir)
    requires OkBut(d, dir, {})
    ensures OkBut(d.(batching := batching, starved := starved), dir, {})
  {}

  function Backlog(d: Data): nat
    requires Read in d.lane && Write in d.lane
  {
    |d.lane[Read].fifo| + |d.lane[Write].fifo|
  }

  lemma DispatchKeeps(c: Settings, d: Data, now: int)
    requires Ok(d)
    ensures Ok(Dispatch(c, d, now))
    ensures Pick(c, d, now).Some? ==> Backlog(Dispatch(c, d, now)) == Backlog(d) - 1
  {
    var p := Pick(c, d, now);
    if p.Some? {
      PickQueued(c, d, now);
      var dir := p.value.dir;
      if dir == Write { FlipOk(d, Read); }
      CountersFrame(d, p.value.batching, p.value.starved, dir);
      MoveKeeps(d.(batching := p.value.batching, starved := p.value.starved), dir, {}, p.value.x);
      if dir == Write { FlipOk(Dispatch(c, d, now), Write); }
    }
  }

  // ---------------------------------------------------------------- starvation

  /** The length of a batch. */
  function Batch(c: Settings): nat {
    if U32(c.fifoBatch) == 0 then 1 else U32(c.fifoBatch)
  }

  /** The counters are within the tunables. */
  predicate Bounded(c: Settings, d: Data) {
    d.batching <= Batch(c) && d.starved <= U32(c.writesStarved)
  }

  /** How many more reads can be dispatched while a write waits. */
  function Patience(c: Settings, d: Data): nat
    requires Bounded(c, d)
  {
    (U32(c.writesStarved) - d.starved) * Batch(c) + (Batch(c) - d.batching)
  }

  lemma DispatchBounded(c: Settings, d: Data, now: int)
    requires Ok(d) && Bounded(c, d)
    ensures Bounded(c, Dispatch(c, d, now))
  {}

  /** A read that is dispatched past a waiting write wears the patience down. */
  lemma ReadsWear(c: Settings, d: Data, now: int)
    requires Ok(d) && Bounded(c, d) && d.lane[Write].fifo != []
    requires var p := Pick(c, d, now); p.Some? && p.value.dir == Read
    ensures Bounded(c, Dispatch(c, d, now)) && Patience(c, Dispatch(c, d, now)) < Patience(c, d)
  {}

  // ---------------------------------------------------------------- runs

  datatype Op =
    | Adding(dir: Dir, x: nat, s: nat, n: nat)
    | Fronting(dir: Dir, x: nat, n: nat)
    | Lengthening(dir: Dir, x: nat, n: nat)
    | Joining(dir: Dir, x: nat, y: nat)
    | Dispatching

  /** What the block layer asks of the scheduler, at the time `now`. */
  datatype Event = Event(now: int, op: Op)

  ghost predicate Enabled(d: Data, op: Op)
    requires Ok(d)
  {
    match op
    case Adding(_, x, _, _) => NotQueued(d, x)
    case Fronting(dir, x, n) => View(d, dir); x in d.lane[dir].tree && n <= d.pos[x]
    case Lengthening(dir, x, _) => View(d, dir); x in d.lane[dir].tree
    case Joining(dir, x, y) => View(d, dir); x in d.lane[dir].tree && y in d.lane[dir].tree && x != y
    case Dispatching => true
  }

  ghost function Apply(c: Settings, d: Data, op: Op, now: int): Data
    requires Ok(d) && Enabled(d, op)
  {
    match op
    case Adding(dir, x, s, n) => View(d, dir); Add(c, d, dir, x, s, n, now)
    case Fronting(dir, x, n) => View(d, dir); FrontMerge(d, dir, x, n)
    case Lengthening(dir, x, n) => View(d, dir); BackMerge(d, x, n)
    case Joining(dir, x, y) => View(d, dir); MergeRequests(d, dir, x, y)
    case Dispatching => Dispatch(c, d, now)
  }

  /** The invariant seen from either direction. */
  lemma View(d: Data, dir: Dir)
    requires Ok(d)
    ensures OkBut(d, dir, {})
  {}

  lemma ReadView(d: Data, dir: Dir)
    requires OkBut(d, dir, {})
    ensures Ok(d)
  {}

  lemma LengthenKeeps(d: Data, dir: Dir, x: nat, n: nat)
    requires OkBut(d, dir, {}) && x in d.lane[dir].tree
    ensures OkBut(BackMerge(d, x, n), dir, {})
  {}

  lemma ApplyOk(c: Settings, d: Data, op: Op, now: int)
    requires Ok(d) && Enabled(d, op) && ClockOk(c, d, now)
    ensures Ok(Apply(c, d, op, now))
  {
    if op.Dispatching? {
      DispatchKeeps(c, d, now);
    } else {
      View(d, op.dir);
      match op
      case Adding(dir, x, s, n) => AddKeeps(c, d, dir, x, s, n, now);
      case Fronting(dir, x, n) => FrontMergeKeeps(d, dir, x, n);
      case Lengthening(dir, x, n) => LengthenKeeps(d, dir, x, n);
      case Joining(dir, x, y) => MergeKeeps(d, dir, x, y);
      ReadView(Apply(c, d, op, now), op.dir);
    }
  }

  /** Requests keep their deadlines or get earlier ones, except those that are new. */
  ghost predicate NoLater(time: map<nat, int>, l: Lane, time': map<nat, int>, l': Lane, limit: int) {
    forall x | x in l'.fifo :: x in time' && (time'[x] <= limit || (x in l.fifo && x in time && time'[x] <= time[x]))
  }

  ghost predicate NoLaterBoth(c: Settings, d: Data, e: Data, dir: Dir, now: int) {
    && dir in d.lane && dir in e.lane && Other(dir) in d.lane && Other(dir) in e.lane
    && NoLater(d.time, d.lane[dir], e.time, e.lane[dir], now + Expire(c, dir))
    && NoLater(d.time, d.lane[Other(dir)], e.time, e.lane[Other(dir)], now + Expire(c, Other(dir)))
  }

  lemma NoLaterClock(c: Settings, d: Data, e: Data, dir: Dir, now: int)
    requires ClockOk(c, d, now) && NoLaterBoth(c, d, e, dir, now)
    ensures ClockOk(c, e, now)
  {
    forall k, x | k in e.lane && x in e.lane[k].fifo ensures x in e.time && e.time[x] <= now + Expire(c, k) {
      if k != dir { assert k == Other(dir); }
    }
  }

  lemma AddNoLater(c: Settings, d: Data, dir: Dir, x: nat, s: nat, n: nat, now: int)
    requires OkBut(d, dir, {}) && NotQueued(d, x)
    ensures NoLaterBoth(c, d, Add(c, d, dir, x, s, n, now), dir, now)
  {}

  lemma FrontNoLater(c: Settings, d: Data, dir: Dir, x: nat, n: nat, now: int)
    requires OkBut(d, dir, {}) && x in d.lane[dir].tree && n <= d.pos[x]
    ensures NoLaterBoth(c, d, FrontMerge(d, dir, x, n), dir, now)
  {}

  lemma MergedNoLater(time: map<nat, int>, l: Lane, x: nat, y: nat, limit: int)
    requires x in l.tree && y in l.tree && x in l.fifo && y in l.fifo && x in time && y in time
    requires y in Without(l.fifo, x) && y in MovedAfter(l.fifo, x, y) && Timed(time, l.fifo)
    requires forall z :: z in MergedLane(time, l, x, y).fifo <==> z in l.fifo && z != y
    ensures NoLater(time, l, MergedTime(time, x, y), MergedLane(time, l, x, y), limit)
  {
    hide MergedLane, Without, MovedAfter;
  }

  lemma UntouchedNoLater(time: map<nat, int>, time': map<nat, int>, l: Lane, limit: int)
    requires Timed(time, l.fifo) && forall z | z in l.fifo :: z in time' && time'[z] == time[z]
    ensures NoLater(time, l, time', l, limit)
  {}

  lemma MergedElsewhere(time: map<nat, int>, x: nat, y: nat, fifo: seq<nat>)
    requires x in time && y in time && x !in fifo && forall z | z in fifo :: z in time
    ensures forall z | z in fifo :: z in MergedTime(time, x, y) && MergedTime(time, x, y)[z] == time[z]
  {}

  lemma LanesTimed(d: Data, dir: Dir, x: nat)
    requires OkBut(d, dir, {}) && x in d.lane[dir].tree
    ensures Timed(d.time, d.lane[dir].fifo) && Timed(d.time, d.lane[Other(dir)].fifo)
    ensures x !in d.lane[Other(dir)].fifo && forall z | z in d.lane[Other(dir)].fifo :: z in d.time
  {}

  lemma MergeNoLater(c: Settings, d: Data, dir: Dir, x: nat, y: nat, now: int)
    requires OkBut(d, dir, {}) && x in d.lane[dir].tree && y in d.lane[dir].tree && x != y
    ensures NoLaterBoth(c, d, MergeRequests(d, dir, x, y), dir, now)
  {
    hide MergedLane, NoLater, Expire, LaneOk, Timed, Without, MovedAfter, MergedTime;
    var l, o := d.lane[dir], d.lane[Other(dir)];
    MergedLaneOk(d.pos, d.time, l, x, y);
    LanesTimed(d, dir, x);
    MergedNoLater(d.time, l, x, y, now + Expire(c, dir));
    MergedElsewhere(d.time, x, y, o.fifo);
    UntouchedNoLater(d.time, MergedTime(d.time, x, y), o, now + Expire(c, Other(dir)));
  }

  lemma DispatchNoLater(c: Settings, d: Data, now: int, dir: Dir)
    requires Ok(d) && var p := Pick(c, d, now); p.Some? && p.value.dir == dir
    ensures NoLaterBoth(c, d, Dispatch(c, d, now), dir, now)
  {}

  lemma LengthenNoLater(c: Settings, d: Data, dir: Dir, x: nat, n: nat, now: int)
    requires OkBut(d, dir, {}) && x in d.lane[dir].tree
    ensures NoLaterBoth(c, d, BackMerge(d, x, n), dir, now)
  {}

  lemma QueueNoLater(c: Settings, d: Data, op: Op, now: int)
    requires Ok(d) && Enabled(d, op) && !op.Dispatching?
    ensures NoLaterBoth(c, d, Apply(c, d, op, now), op.dir, now)
  {
    View(d, op.dir);
    match op
    case Adding(dir, x, s, n) => AddNoLater(c, d, dir, x, s, n, now);
    case Fronting(dir, x, n) => FrontNoLater(c, d, dir, x, n, now);
    case Lengthening(dir, x, n) => LengthenNoLater(c, d, dir, x, n, now);
    case Joining(dir, x, y) => MergeNoLater(c, d, dir, x, y, now);
  }

  lemma ApplyClock(c: Settings, d: Data, op: Op, now: int)
    requires Ok(d) && Enabled(d, op) && ClockOk(c, d, now)
    ensures ClockOk(c, Apply(c, d, op, now), now)
  {
    if op.Dispatching? {
      var p := Pick(c, d, now);
      if p.Some? {
        DispatchNoLater(c, d, now, p.value.dir);
        NoLaterClock(c, d, Dispatch(c, d, now), p.value.dir, now);
      }
    } else {
      QueueNoLater(c, d, op, now);
      NoLaterClock(c, d, Apply(c, d, op, now), op.dir, now);
    }
  }

  /** Adding and merging, even when it moves an alias out, does not touch the counters. */
  lemma CountersKept(c: Settings, d: Data, op: Op, now: int)
    requires Ok(d) && Enabled(d, op) && !op.Dispatching?
    ensures Apply(c, d, op, now).batching == d.batching && Apply(c, d, op, now).starved == d.starved
  {}

  lemma ApplyBounded(c: Settings, d: Data, op: Op, now: int)
    requires Ok(d) && Enabled(d, op) && Bounded(c, d)
    ensures Bounded(c, Apply(c, d, op, now))
  {
    if op.Dispatching? { DispatchBounded(c, d, now); } else { CountersKept(c, d, op, now); }
  }

  const EMPTY := Data(map[], map[], map[], map[Read := Lane([], [], None), Write := Lane([], [], None)], 0, 0, 0, [])

  /** Everything the scheduler keeps, at the time `now`. */
  ghost predicate Inv(c: Settings, d: Data, now: int) {
    Ok(d) && Bounded(c, d) && ClockOk(c, d, now)
  }

  ghost predicate Allowed(d: Data, now: int, e: Event)
    requires Ok(d)
  {
    now <= e.now && Enabled(d, e.op)
  }

  lemma ApplyKeeps(c: Settings, d: Data, now: int, e: Event)
    requires Inv(c, d, now) && Allowed(d, now, e)
    ensures Inv(c, Apply(c, d, e.op, e.now), e.now) && ClockOk(c, d, e.now)
  {
    assert ClockOk(c, d, e.now);
    ApplyOk(c, d, e.op, e.now);
    ApplyClock(c, d, e.op, e.now);
    ApplyBounded(c, d, e.op, e.now);
  }

  /** The scheduler after a run that began empty at the time `start`, with the time of the last
      event; none if an event was not allowed. */
  ghost function After(c: Settings, start: int, evs: seq<Event>): (r: Option<(Data, int)>)
    ensures r.Some? ==> Inv(c, r.value.0, r.value.1)
  {
    if evs == [] then Some((EMPTY, start))
    else
      var m, e := After(c, start, evs[..|evs|-1]), evs[|evs|-1];
      if m.Some? && Allowed(m.value.0, m.value.1, e) then
        ApplyKeeps(c, m.value.0, m.value.1, e);
        Some((Apply(c, m.value.0, e.op, e.now), e.now))
      else None
  }

  function Dispatches(evs: seq<Event>): nat {
    if evs == [] then 0 else (if evs[0].op.Dispatching? then 1 else 0) + Dispatches(evs[1..])
  }

  /** All the while a write waits, and every dispatch takes a read. */
  ghost predicate Starves(c: Settings, d: Data, now: int, evs: seq<Event>)
    requires Inv(c, d, now)
    decreases |evs|
  {
    evs != [] ==>
      && Allowed(d, now, evs[0])
      && (evs[0].op.Dispatching? ==>
            d.lane[Write].fifo != [] && Pick(c, d, evs[0].now).Some? && Pick(c, d, evs[0].now).value.dir == Read)
      && (ApplyKeeps(c, d, now, evs[0]); Starves(c, Apply(c, d, evs[0].op, evs[0].now), evs[0].now, evs[1..]))
  }

  /** One event under starvation costs patience exactly if it is a dispatch. */
  lemma PatienceStep(c: Settings, d: Data, now: int, e: Event)
    requires Inv(c, d, now) && Allowed(d, now, e)
    requires e.op.Dispatching? ==>
      d.lane[Write].fifo != [] && Pick(c, d, e.now).Some? && Pick(c, d, e.now).value.dir == Read
    ensures var f := Apply(c, d, e.op, e.now);
            Bounded(c, f) && Patience(c, f) + (if e.op.Dispatching? then 1 else 0) <= Patience(c, d)
  {
    var f := Apply(c, d, e.op, e.now);
    if e.op.Dispatching? {
      assert f == Dispatch(c, d, e.now);
      ReadsWear(c, d, e.now);
    } else {
      CountersKept(c, d, e.op, e.now);
      assert Bounded(c, f) && Patience(c, f) == Patience(c, d);
    }
  }

  /** While a write waits, at most this many dispatches take reads, whatever is added and merged
      in between. */
  lemma {:induction false} StarvationBound(c: Settings, d: Data, now: int, evs: seq<Event>)
    requires Inv(c, d, now) && Starves(c, d, now, evs)
    ensures Dispatches(evs) <= Patience(c, d)
    decreases |evs|
  {
    if evs != [] {
      var e := evs[0];
      ApplyKeeps(c, d, now, e);
      PatienceStep(c, d, now, e);
      StarvationBound(c, Apply(c, d, e.op, e.now), e.now, evs[1..]);
    }
  }

  /** The bound in terms of the tunables; a negative writes_starved is compared as unsigned. */
  lemma PatienceIs(c: Settings, d: Data)
    requires Bounded(c, d) && -0x8000_0000 <= c.writesStarved < 0x8000_0000
    ensures var w := if c.writesStarved >= 0 then c.writesStarved else c.writesStarved + 0x1_0000_0000;
            Patience(c, d) + d.starved * Batch(c) + d.batching == w * Batch(c) + Batch(c)
  {
    hide Batch, U32;
    AsUnsigned(c.writesStarved);
    MulSub(U32(c.writesStarved), d.starved, Batch(c));
  }

  lemma AsUnsigned(x: int)
    requires -0x8000_0000 <= x < 0x8000_0000
    ensures U32(x) == if x >= 0 then x else x + 0x1_0000_0000
  {}

  lemma MulSub(a: int, b: int, k: int)
    ensures (a - b) * k == a * k - b * k
  {}

  // ---------------------------------------------------------------- the forced drain

  predicate IsQueued(d: Data, x: nat) {
    (Read in d.lane && x in d.lane[Read].fifo) || (Write in d.lane && x in d.lane[Write].fifo)
  }

  /** A dispatch moves one queued request out. */
  ghost predicate Moves(d: Data, e: Data, x: nat) {
    && Ok(d) && Ok(e) && IsQueued(d, x) && Backlog(e) == Backlog(d) - 1 && e.out == d.out + [x]
    && (forall y :: IsQueued(e, y) <==> IsQueued(d, y) && y != x)
  }

  lemma DispatchMoves(c: Settings, d: Data, now: int)
    requires Ok(d) && Pick(c, d, now).Some?
    ensures Moves(d, Dispatch(c, d, now), Pick(c, d, now).value.x)
  {
    var p := Pick(c, d, now).value;
    PickQueued(c, d, now);
    View(d, p.dir);
    CountersFrame(d, p.batching, p.starved, p.dir);
    MoveKeeps(d.(batching := p.batching, starved := p.starved), p.dir, {}, p.x);
    ReadView(Dispatch(c, d, now), p.dir);
  }

  /** The order in which elv_drain_elevator hands out the requests; `clock` gives the time of the
      i-th dispatch. */
  ghost function Order(c: Settings, d: Data, clock: nat -> int, i: nat): seq<nat>
    requires Ok(d)
    decreases Backlog(d)
  {
    var p := Pick(c, d, clock(i));
    if p == None then []
    else
      DispatchMoves(c, d, clock(i));
      [p.value.x] + Order(c, Dispatch(c, d, clock(i)), clock, i + 1)
  }

  /** elv_drain_elevator. */
  ghost function Drain(c: Settings, d: Data, clock: nat -> int, i: nat): Data
    requires Ok(d)
    decreases Backlog(d)
  {
    if Pick(c, d, clock(i)) == None then d
    else
      DispatchMoves(c, d, clock(i));
      Drain(c, Dispatch(c, d, clock(i)), clock, i + 1)
  }

  /** Draining ends with nothing left. */
  lemma {:induction false} DrainEmpties(c: Settings, d: Data, clock: nat -> int, i: nat)
    requires Ok(d)
    ensures var e := Drain(c, d, clock, i); Ok(e) && Backlog(e) == 0 && e.out == d.out + Order(c, d, clock, i)
    decreases Backlog(d)
  {
    var p := Pick(c, d, clock(i));
    if p == None {
      PickIffQueued(c, d, clock(i));
    } else {
      DispatchMoves(c, d, clock(i));
      var m := Dispatch(c, d, clock(i));
      DrainEmpties(c, m, clock, i + 1);
      Assoc(d.out, [p.value.x], Order(c, m, clock, i + 1));
    }
  }

  /** Every queued request is handed out, each once. */
  lemma {:induction false} OrderIsAll(c: Settings, d: Data, clock: nat -> int, i: nat)
    requires Ok(d)
    ensures var o := Order(c, d, clock, i); NoDup(o) && |o| == Backlog(d) && forall x :: x in o <==> IsQueued(d, x)
    decreases Backlog(d)
  {
    var p := Pick(c, d, clock(i));
    if p == None {
      PickIffQueued(c, d, clock(i));
    } else {
      DispatchMoves(c, d, clock(i));
      var m := Dispatch(c, d, clock(i));
      OrderIsAll(c, m, clock, i + 1);
      Prepended(p.value.x, Order(c, m, clock, i + 1));
    }
  }
}
