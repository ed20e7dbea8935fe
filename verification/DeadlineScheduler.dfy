/** The deadline scheduler as the object that its callbacks update, each proved against the
    functions on its state. */
module DeadlineScheduler {
  import opened Lists
  import opened Options
  import opened SortTree
  import opened Deadline
  import opened DeadlineDispatch

  class DeadlineData {
    const c: Settings
    var pos: Positions
    var len: map<nat, nat>
    var time: map<nat, int>
    var lane: map<Dir, Lane>
    var batching: nat
    var starved: nat
    var last: nat
    ghost var out: seq<nat>

    ghost function State(): Data
      reads this
    {
      Data(pos, len, time, lane, batching, starved, last, out)
    }

    constructor (c: Settings)
      ensures this.c == c && State() == EMPTY && Ok(State()) && Bounded(c, State())
    {
      this.c := c;
      pos, len, time := map[], map[], map[];
      lane := map[Read := Lane([], [], None), Write := Lane([], [], None)];
      batching, starved, last, out := 0, 0, 0, [];
    }

    /** deadline_remove_request with deadline_del_rq_rb. */
    static method RemoveRequest(l: Lane, x: nat) returns (r: Lane)
      requires x in l.tree && x in l.fifo
      ensures r == Removed(l, x)
    {
      r := l.(fifo := Without(l.fifo, x));
      if r.next == Some(x) {
        r := r.(next := Latter(r.tree, x));
      }
      r := r.(tree := Without(r.tree, x));
    }

    /** deadline_move_request. */
    method MoveOut(dir: Dir, x: nat)
      requires dir in lane && Other(dir) in lane && x in lane[dir].tree && x in lane[dir].fifo && x in pos && x in len
      modifies this`lane, this`last, this`out
      ensures State() == MoveRequest(old(State()), dir, x)
    {
      var l := lane[dir];
      lane := lane[Other(dir) := lane[Other(dir)].(next := None)];
      last := pos[x] + len[x];
      l := RemoveRequest(l.(next := Latter(l.tree, x)), x);
      lane := lane[dir := l];
      out := out + [x];
    }

    /** deadline_add_rq_rb. */
    method AddRqRb(dir: Dir, x: nat, ghost hole: set<nat>)
      requires OkBut(State(), dir, hole) && x in pos
      modifies this`lane, this`last, this`out
      ensures State() == AddRb(old(State()), dir, hole, x)
    {
      var alias := At(pos, lane[dir].tree, pos[x]);
      while alias.Some?
        invariant OkBut(State(), dir, hole) && alias == At(pos, lane[dir].tree, pos[x])
        invariant Evict(State(), dir, hole, x) == Evict(old(State()), dir, hole, x)
        decreases |lane[dir].tree|
      {
        MoveKeeps(State(), dir, hole, alias.value);
        MoveOut(dir, alias.value);
        alias := At(pos, lane[dir].tree, pos[x]);
      }
      lane := lane[dir := lane[dir].(tree := Added(pos, lane[dir].tree, x))];
    }

    /** deadline_add_request. */
    method AddRequest(dir: Dir, x: nat, s: nat, n: nat, now: int)
      requires OkBut(State(), dir, {}) && NotQueued(State(), x)
      modifies this
      ensures State() == Add(c, old(State()), dir, x, s, n, now)
    {
      hide LaneOk, AddRb, Queued, Expire;
      ghost var d := State();
      PlacedOk(d, dir, x, s, n);
      ghost var e := Add(c, d, dir, x, s, n, now);
      Place(x, s, n);
      Enqueue(dir, x, now + Expire(c, dir));
      assert State() == e;
    }

    /** The block layer sets where the request starts and how long it is. */
    method Place(x: nat, s: nat, n: nat)
      modifies this`pos, this`len
      ensures pos == old(pos)[x := s] && len == old(len)[x := n]
    {
      pos, len := pos[x := s], len[x := n];
    }

    /** The request has its place on the disk and now gets it in the tree and in the FIFO. */
    method Enqueue(dir: Dir, x: nat, t: int)
      requires OkBut(State(), dir, {}) && x in pos
      modifies this`time, this`lane, this`last, this`out
      ensures State() == Queued(AddRb(old(State()), dir, {}, x), dir, x, t)
    {
      hide OkBut, Evict;
      AddRqRb(dir, x, {});
      time := time[x := t];
      lane := lane[dir := lane[dir].(fifo := lane[dir].fifo + [x])];
    }

    /** deadline_merged_request for a front merge of `n` sectors. */
    method MergedInFront(dir: Dir, x: nat, n: nat)
      requires OkBut(State(), dir, {}) && x in lane[dir].tree && n <= pos[x]
      modifies this
      ensures State() == FrontMerge(old(State()), dir, x, n)
    {
      TakeOut(dir, x, n);
      AddRqRb(dir, x, {x});
    }

    /** elv_rb_del of a request that has grown in front. */
    method TakeOut(dir: Dir, x: nat, n: nat)
      requires OkBut(State(), dir, {}) && x in lane[dir].tree && n <= pos[x]
      modifies this`pos, this`len, this`lane
      ensures State() == TakenOut(old(State()), dir, x, n)
    {
      hide LaneOk, Without;
      KnownInTree(State(), dir, x);
      ghost var e := TakenOut(State(), dir, x, n);
      pos, len := pos[x := pos[x] - n], len[x := len[x] + n];
      lane := lane[dir := lane[dir].(tree := Without(lane[dir].tree, x))];
      assert State() == e;
    }

    /** deadline_merged_requests: `y` goes, and an earlier deadline of it and its place in the FIFO
        stay with `x`. */
    static method JoinLane(l: Lane, time: map<nat, int>, x: nat, y: nat) returns (r: Lane, t: map<nat, int>)
      requires x in l.tree && y in l.tree && x in l.fifo && y in l.fifo && x in time && y in time
      requires y in Without(l.fifo, x) && y in MovedAfter(l.fifo, x, y)
      ensures r == MergedLane(time, l, x, y) && t == MergedTime(time, x, y)
    {
      r, t := l, time;
      if time[y] < time[x] {
        r := r.(fifo := MovedAfter(r.fifo, x, y));
        t := t[x := t[y]];
      }
      r := RemoveRequest(r, y);
    }

    method MergedRequests(dir: Dir, x: nat, y: nat)
      requires OkBut(State(), dir, {}) && x in lane[dir].tree && y in lane[dir].tree && x != y
      modifies this`lane, this`time, this`len
      ensures State() == MergeRequests(old(State()), dir, x, y)
    {
      hide Without, MovedAfter;
      ghost var d := State();
      MergeReady(d.pos, d.time, d.lane[dir], x, y);
      ghost var e := MergeRequests(d, dir, x, y);
      Lengthen(x, len[y]);
      assert len == e.len;
      Absorb(dir, x, y);
      assert lane == e.lane && time == e.time;
    }

    /** The block layer lengthens a request. */
    method Lengthen(x: nat, n: nat)
      requires x in len
      modifies this`len
      ensures len == old(len)[x := old(len)[x] + n]
    {
      len := len[x := len[x] + n];
    }

    method Absorb(dir: Dir, x: nat, y: nat)
      requires dir in lane && x in lane[dir].tree && y in lane[dir].tree && x in lane[dir].fifo && y in lane[dir].fifo
      requires x in time && y in time && y in Without(lane[dir].fifo, x) && y in MovedAfter(lane[dir].fifo, x, y)
      modifies this`lane, this`time
      ensures lane == old(lane)[dir := MergedLane(old(time), old(lane)[dir], x, y)]
      ensures time == MergedTime(old(time), x, y)
    {
      var l, t := JoinLane(lane[dir], time, x, y);
      lane, time := lane[dir := l], t;
    }

    /** The best request of a direction that is not in a batch. */
    method FindRequest(dir: Dir, now: int) returns (x: nat)
      requires OkBut(State(), dir, {}) && lane[dir].fifo != []
      ensures x == Fresh(State(), dir, starved, now).x
    {
      var l := lane[dir];
      if now > time[l.fifo[0]] || l.next == None {
        x := l.fifo[0];
      } else {
        x := l.next.value;
      }
    }

    /** deadline_dispatch_requests up to the choice; `found` is false when nothing is queued. */
    method Select(now: int) returns (found: bool, dir: Dir, x: nat)
      requires Ok(State())
      modifies this`batching, this`starved
      ensures found <==> Pick(c, old(State()), now).Some?
      ensures found ==> Pick(c, old(State()), now) == Some(Choice(dir, x, batching, starved))
      ensures !found ==> batching == old(batching) && starved == old(starved)
    {
      View(State(), Write);
      var anyRead, anyWrite := lane[Read].fifo != [], lane[Write].fifo != [];
      found, dir, x := true, Write, 0;
      var next := lane[Write].next;
      if next == None {
        dir, next := Read, lane[Read].next;
      }
      if next.Some? && batching < U32(c.fifoBatch) {
        x := next.value;
        batching := batching + 1;
        return;
      }
      if anyRead && !(anyWrite && starved >= U32(c.writesStarved)) {
        dir := Read;
        x := FindRequest(Read, now);
        if anyWrite {
          starved := starved + 1;
        }
      } else if anyWrite {
        dir := Write;
        x := FindRequest(Write, now);
        starved := 0;
      } else {
        found := false;
        return;
      }
      batching := 1;
    }

    /** deadline_dispatch_requests. */
    method DispatchRequests(now: int) returns (n: nat)
      requires Ok(State())
      modifies this`batching, this`starved, this`lane, this`last, this`out
      ensures State() == Dispatch(c, old(State()), now) && Ok(State())
      ensures n == if old(Backlog(State())) == 0 then 0 else 1
    {
      hide LaneOk, Pick, MoveRequest;
      DispatchKeeps(c, State(), now);
      PickIffQueued(c, State(), now);
      PickQueued(c, State(), now);
      var found, dir, x := Select(now);
      if !found {
        return 0;
      }
      MoveOut(dir, x);
      return 1;
    }

    /** elv_drain_elevator; `clock` gives the time of the i-th dispatch. */
    method DrainElevator(clock: nat -> int)
      requires Ok(State())
      modifies this`batching, this`starved, this`lane, this`last, this`out
      ensures State() == Drain(c, old(State()), clock, 0) && Ok(State())
      ensures Backlog(State()) == 0 && out == old(out) + Order(c, old(State()), clock, 0)
    {
      ghost var d0 := State();
      var i := 0;
      var n := 1;
      while n != 0
        invariant Ok(State()) && Drain(c, State(), clock, i) == Drain(c, d0, clock, 0)
        invariant n == 0 ==> Backlog(State()) == 0
        decreases n != 0, Backlog(State())
      {
        PickIffQueued(c, State(), clock(i));
        if Pick(c, State(), clock(i)).Some? { DispatchMoves(c, State(), clock(i)); }
        n := DispatchRequests(clock(i));
        if n != 0 {
          i := i + 1;
        }
      }
      PickIffQueued(c, State(), clock(i));
      DrainEmpties(c, d0, clock, 0);
    }
  }
}
