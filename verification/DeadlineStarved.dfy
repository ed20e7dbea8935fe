/** With writes_starved zero the deadline scheduler puts writes before reads without end, however long
    ago a read has expired. */
module DeadlineStarved {
  import opened Lists
  import opened Options
  import opened Deadline
  import opened DeadlineDispatch
  import opened DeadlineTight
  import opened DeadlineExpiry

  /** The read with number zero waits, and nothing else. */
  ghost predicate Alone(d: Data) {
    && Ok(d) && Read in d.lane && Write in d.lane
    && d.lane[Read] == Lane([0], [0], None) && d.lane[Write] == Lane([], [], None)
  }

  /** A write waits too. */
  ghost predicate Joined(d: Data, m: nat) {
    && Ok(d) && Read in d.lane && Write in d.lane && m > 0
    && d.lane[Read] == Lane([0], [0], None) && d.lane[Write] == Lane([m], [m], None)
  }

  function WriteArrival(m: nat): Op {
    Adding(Write, m, m, 1)
  }

  lemma WriteJoins(c: Settings, d: Data, m: nat, now: int)
    requires Alone(d) && m > 0 && ClockOk(c, d, now)
    ensures Enabled(d, WriteArrival(m)) && Joined(Apply(c, d, WriteArrival(m), now), m)
  {
    NotWaiting(d, m);
    View(d, Write);
    PlacedOk(d, Write, m, m, 1);
    assert Inserted([], 0, m) == [m];
    AddKeeps(c, d, Write, m, m, 1, now);
    ReadView(Add(c, d, Write, m, m, 1, now), Write);
  }

  lemma WriteLeaves(c: Settings, d: Data, m: nat, now: int)
    requires Joined(d, m) && U32(c.writesStarved) == 0
    ensures Alone(Dispatch(c, d, now))
  {
    hide Removed, Latter;
    DispatchKeeps(c, d, now);
    PickQueued(c, d, now);
    OnlyLeaves(m);
    assert Pick(c, d, now).value.x == m;
  }

  lemma OnlyLeaves(m: nat)
    ensures Latter([m], m) == None && Removed(Lane([m], [m], None), m) == Lane([], [], None)
  {
    assert IndexOf([m], m) == 0;
  }

  function Writes(m: nat, n: nat, now: int): seq<Event>
    decreases n
  {
    if n == 0 then [] else [Event(now, WriteArrival(m)), Event(now, Dispatching)] + Writes(m + 1, n - 1, now)
  }

  /** Nothing but writes goes out, as many as there are. */
  ghost predicate Waits(c: Settings, d: Data, now: int, evs: seq<Event>, n: nat)
    requires Inv(c, d, now)
  {
    AllowedRun(c, d, now, evs) && Stays(c, d, now, evs, Read, 0) && Dispatches(evs) == n
  }

  lemma WaitsOn(c: Settings, d: Data, e: Event, now: int, rest: seq<Event>, n: nat)
    requires Inv(c, d, now) && e.now == now && Enabled(d, e.op) && Read in d.lane && 0 in d.lane[Read].fifo
    requires Inv(c, Apply(c, d, e.op, now), now) && Waits(c, Apply(c, d, e.op, now), now, rest, n)
    ensures Waits(c, d, now, [e] + rest, n + if e.op.Dispatching? then 1 else 0)
  {
    hide Apply, Inv, Enabled;
    assert ([e] + rest)[1..] == rest;
  }

  lemma {:induction false} WritesGoFirst(c: Settings, d: Data, m: nat, n: nat, now: int)
    requires Inv(c, d, now) && Alone(d) && m > 0 && U32(c.writesStarved) == 0
    ensures Waits(c, d, now, Writes(m, n, now), n)
    decreases n
  {
    hide Apply, OkBut, Bounded, ClockOk, AllowedRun, Stays, Enabled, Joined, Dispatch;
    if n == 0 {
      NoEvents(c, d, now);
    } else {
      var a, b := Event(now, WriteArrival(m)), Event(now, Dispatching);
      var e, f := WriteRound(c, d, m, now);
      WritesGoFirst(c, f, m + 1, n - 1, now);
      var rest := Writes(m + 1, n - 1, now);
      WaitsOn(c, e, b, now, rest, n - 1);
      WaitsOn(c, d, a, now, [b] + rest, n);
      assert [a] + ([b] + rest) == [a, b] + rest;
    }
  }

  lemma NoEvents(c: Settings, d: Data, now: int)
    requires Inv(c, d, now) && Alone(d)
    ensures Waits(c, d, now, [], 0)
  {}

  lemma WriteRound(c: Settings, d: Data, m: nat, now: int) returns (e: Data, f: Data)
    requires Inv(c, d, now) && Alone(d) && m > 0 && U32(c.writesStarved) == 0
    ensures Enabled(d, WriteArrival(m)) && e == Apply(c, d, WriteArrival(m), now) && Inv(c, e, now) && Enabled(e, Dispatching)
    ensures f == Apply(c, e, Dispatching, now) && Inv(c, f, now) && Alone(f)
    ensures Read in e.lane && 0 in e.lane[Read].fifo && Read in d.lane && 0 in d.lane[Read].fifo
  {
    hide OkBut, Bounded, ClockOk, Add, Dispatch;
    WriteJoins(c, d, m, now);
    e := Apply(c, d, WriteArrival(m), now);
    ApplyKeeps(c, d, now, Event(now, WriteArrival(m)));
    WriteLeaves(c, e, m, now);
    f := Apply(c, e, Dispatching, now);
    ApplyKeeps(c, e, now, Event(now, Dispatching));
  }

  lemma ReadArrives(c: Settings, start: int) returns (evs: seq<Event>, d: Data)
    ensures After(c, start, evs) == Some((d, start)) && Alone(d) && 0 in d.time
  {
    var e := Event(start, Adding(Read, 0, 0, 1));
    assert After(c, start, []) == Some((EMPTY, start));
    Extended(c, start, [], EMPTY, e);
    assert [] + [e] == [e];
    evs, d := [e], Apply(c, EMPTY, e.op, start);
    assert Inserted([], 0, 0) == [0];
  }

  /** If writes_starved is zero there is no bound: for every number a run from the empty scheduler leads
      to an expired read that stays while that many requests are dispatched. */
  lemma ReadsWaitForever(c: Settings, start: int, n: nat) returns (before: seq<Event>, d: Data, now: int, evs: seq<Event>)
    requires U32(c.writesStarved) == 0
    ensures After(c, start, before) == Some((d, start)) && start <= now && Inv(c, d, now) && Overdue(d, Read, 0, now)
    ensures AllowedRun(c, d, now, evs) && Stays(c, d, now, evs, Read, 0) && Dispatches(evs) == n
  {
    hide Apply, OkBut, Bounded, AllowedRun, Stays, Dispatches;
    before, d := ReadArrives(c, start);
    now := if d.time[0] < start then start else d.time[0] + 1;
    assert Inv(c, d, now);
    evs := Writes(1, n, now);
    WritesGoFirst(c, d, 1, n, now);
  }
}
