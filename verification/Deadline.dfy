/** The deadline scheduler (deadline-iosched.c): per direction a sort tree and a FIFO of the same
    requests, batches in sector order, and a bound on how long reads may starve writes. */
module Deadline {
  import opened Lists
  import opened Options
  import opened SortTree

  datatype Dir = Read | Write

  /** sort_list, fifo_list and next_rq of one direction. */
  datatype Lane = Lane(tree: seq<nat>, fifo: seq<nat>, next: Option<nat>)

  /** The tunables, which do not change during a run. */
  datatype Settings = Settings(readExpire: int, writeExpire: int, fifoBatch: int, writesStarved: int)

  /** struct deadline_data, with where each request starts, how long it is and when it expires;
      `out` lists the requests moved to the dispatch queue. */
  datatype Data = Data(pos: Positions, len: map<nat, nat>, time: map<nat, int>, lane: map<Dir, Lane>,
                       batching: nat, starved: nat, last: nat, out: seq<nat>)

  function Other(dir: Dir): Dir {
    if dir == Read then Write else Read
  }

  /** An int compared with an unsigned int. */
  function U32(x: int): nat {
    x % 0x1_0000_0000
  }

  function Expire(c: Settings, dir: Dir): int {
    if dir == Read then c.readExpire else c.writeExpire
  }

  // ---------------------------------------------------------------- one direction

  /** deadline_latter_request. */
  function Latter(t: seq<nat>, x: nat): (r: Option<nat>)
    requires x in t
  {
    var i := IndexOf(t, x);
    if i + 1 < |t| then Some(t[i+1]) else None
  }

  /** deadline_del_rq_rb. */
  function Unlinked(l: Lane, x: nat): Lane
    requires x in l.tree
  {
    l.(next := if l.next == Some(x) then Latter(l.tree, x) else l.next, tree := Without(l.tree, x))
  }

  /** deadline_remove_request. */
  function Removed(l: Lane, x: nat): Lane
    requires x in l.tree && x in l.fifo
  {
    Unlinked(l.(fifo := Without(l.fifo, x)), x)
  }

  /** The FIFO is in order of expiry. */
  ghost predicate Timed(time: map<nat, int>, fifo: seq<nat>) {
    && (forall i | 0 <= i < |fifo| :: fifo[i] in time)
    && (forall i, j | 0 <= i < j < |fifo| :: time[fifo[i]] <= time[fifo[j]])
  }

  /** Tree and FIFO hold the same requests, each once, and the next request is one of them;
      while a request is being repositioned it is in `hole`, out of the tree. */
  ghost predicate LaneOk(pos: Positions, time: map<nat, int>, l: Lane, hole: set<nat>) {
    && Sorted(pos, l.tree) && NoDup(l.fifo)
    && (forall x :: x in l.fifo <==> x in l.tree || x in hole)
    && (forall x | x in hole :: x !in l.tree)
    && Timed(time, l.fifo)
    && (l.next.Some? ==> l.next.value in l.fifo)
  }

  lemma LatterQueued(pos: Positions, t: seq<nat>, x: nat)
    requires Sorted(pos, t) && x in t
    ensures var r := Latter(t, x); r.Some? ==> r.value in t && r.value != x
  {
    SortedNoDup(pos, t);
  }

  lemma TimedWithout(time: map<nat, int>, fifo: seq<nat>, x: nat)
    requires Timed(time, fifo) && x in fifo
    ensures Timed(time, Without(fifo, x))
  {
    var k, r := IndexOf(fifo, x), Without(fifo, x);
    forall i | 0 <= i < |r| ensures r[i] in time {
      assert r[i] == fifo[if i < k then i else i + 1];
    }
    forall i, j | 0 <= i < j < |r| ensures time[r[i]] <= time[r[j]] {
      assert r[i] == fifo[if i < k then i else i + 1];
      assert r[j] == fifo[if j < k then j else j + 1];
    }
  }

  lemma RemovedOk(pos: Positions, time: map<nat, int>, l: Lane, hole: set<nat>, x: nat)
    requires LaneOk(pos, time, l, hole) && x in l.tree
    ensures x in l.fifo
    ensures var r := Removed(l, x);
            && LaneOk(pos, time, r, hole)
            && (forall y :: y in r.tree <==> y in l.tree && y != x)
            && (forall y :: y in r.fifo <==> y in l.fifo && y != x)
            && |r.fifo| == |l.fifo| - 1 && |r.tree| == |l.tree| - 1
  {
    DeletedSorted(pos, l.tree, x);
    WithoutMembers(l.fifo, x);
    TimedWithout(time, l.fifo, x);
    LatterQueued(pos, l.tree, x);
  }

  // ---------------------------------------------------------------- the scheduler

  /** Both directions are in order, share no request, and at most one of them has a next one;
      in the direction `dir` the requests of `hole` are being repositioned. */
  ghost predicate OkBut(d: Data, dir: Dir, hole: set<nat>) {
    && dir in d.lane && Other(dir) in d.lane
    && LaneOk(d.pos, d.time, d.lane[dir], hole) && LaneOk(d.pos, d.time, d.lane[Other(dir)], {})
    && (forall x | x in d.lane[dir].fifo :: x !in d.lane[Other(dir)].fifo && x in d.len)
    && (forall x | x in d.lane[Other(dir)].fifo :: x in d.len)
    && (d.lane[dir].next == None || d.lane[Other(dir)].next == None)
  }

  ghost predicate Ok(d: Data) {
    OkBut(d, Read, {})
  }

  /** deadline_move_request. */
  function MoveRequest(d: Data, dir: Dir, x: nat): Data
    requires dir in d.lane && Other(dir) in d.lane && x in d.lane[dir].tree && x in d.lane[dir].fifo && x in d.pos && x in d.len
  {
    var l := d.lane[dir];
    var mine := Removed(l.(next := Latter(l.tree, x)), x);
    var other := d.lane[Other(dir)].(next := None);
    d.(lane := d.lane[Other(dir) := other][dir := mine], last := d.pos[x] + d.len[x], out := d.out + [x])
  }

  lemma MoveKeeps(d: Data, dir: Dir, hole: set<nat>, x: nat)
    requires OkBut(d, dir, hole) && x in d.lane[dir].tree
    ensures x in d.lane[dir].fifo && x in d.pos && x in d.len && Other(dir) in d.lane
    ensures var e := MoveRequest(d, dir, x);
            && OkBut(e, dir, hole) && e.pos == d.pos && e.len == d.len && e.time == d.time
            && (forall y :: y in e.lane[dir].tree <==> y in d.lane[dir].tree && y != x)
            && (forall y :: y in e.lane[dir].fifo <==> y in d.lane[dir].fifo && y != x)
            && |e.lane[dir].fifo| == |d.lane[dir].fifo| - 1 && |e.lane[dir].tree| == |d.lane[dir].tree| - 1
            && e.lane[Other(dir)] == d.lane[Other(dir)].(next := None)
  {
    var l := d.lane[dir];
    LatterQueued(d.pos, l.tree, x);
    RemovedOk(d.pos, d.time, l.(next := Latter(l.tree, x)), hole, x);
  }

  /** deadline_add_rq_rb: the loop moves a request found at the sector of `x` out of the way. */
  ghost function Evict(d: Data, dir: Dir, hole: set<nat>, x: nat): (e: Data)
    requires OkBut(d, dir, hole) && x in d.pos
    ensures OkBut(e, dir, hole) && e.pos == d.pos && e.len == d.len && e.time == d.time
    ensures e.batching == d.batching && e.starved == d.starved
    ensures At(e.pos, e.lane[dir].tree, e.pos[x]) == None
    ensures forall y | y in e.lane[dir].tree :: y in d.lane[dir].tree
    ensures forall y | y in e.lane[dir].fifo :: y in d.lane[dir].fifo
    ensures e.lane[Other(dir)].tree == d.lane[Other(dir)].tree && e.lane[Other(dir)].fifo == d.lane[Other(dir)].fifo
    decreases |d.lane[dir].tree|
  {
    match At(d.pos, d.lane[dir].tree, d.pos[x])
    case None => d
    case Some(a) =>
      MoveKeeps(d, dir, hole, a);
      Evict(MoveRequest(d, dir, a), dir, hole, x)
  }

  function Linked(d: Data, dir: Dir, x: nat): Data
    requires dir in d.lane && Sorted(d.pos, d.lane[dir].tree) && x in d.pos
  {
    d.(lane := d.lane[dir := d.lane[dir].(tree := Added(d.pos, d.lane[dir].tree, x))])
  }

  ghost function AddRb(d: Data, dir: Dir, hole: set<nat>, x: nat): (e: Data)
    requires OkBut(d, dir, hole) && x in d.pos
  {
    Linked(Evict(d, dir, hole, x), dir, x)
  }

  // ---------------------------------------------------------------- adding and merging

  lemma LinkedOk(d: Data, dir: Dir, x: nat)
    requires OkBut(d, dir, {x}) && x in d.pos && At(d.pos, d.lane[dir].tree, d.pos[x]) == None
    ensures OkBut(Linked(d, dir, x), dir, {})
  {
    AddedSorted(d.pos, d.lane[dir].tree, x);
  }

  /** No request expires later than one added now would. */
  ghost predicate ClockOk(c: Settings, d: Data, now: int) {
    forall dir, x | dir in d.lane && x in d.lane[dir].fifo :: x in d.time && d.time[x] <= now + Expire(c, dir)
  }

  ghost predicate NotQueued(d: Data, x: nat) {
    forall dir | dir in d.lane :: x !in d.lane[dir].fifo
  }

  /** deadline_add_request for a request of `n` sectors at `s`. */
  ghost function Add(c: Settings, d: Data, dir: Dir, x: nat, s: nat, n: nat, now: int): Data
    requires OkBut(d, dir, {}) && NotQueued(d, x)
  {
    PlacedOk(d, dir, x, s, n);
    Queued(AddRb(d.(pos := d.pos[x := s], len := d.len[x := n]), dir, {}, x), dir, x, now + Expire(c, dir))
  }

  /** The request goes to the end of the FIFO, to expire at `t`. */
  function Queued(d: Data, dir: Dir, x: nat, t: int): Data
    requires dir in d.lane
  {
    d.(time := d.time[x := t], lane := d.lane[dir := d.lane[dir].(fifo := d.lane[dir].fifo + [x])])
  }

  lemma PlacedOk(d: Data, dir: Dir, x: nat, s: nat, n: nat)
    requires OkBut(d, dir, {}) && NotQueued(d, x)
    ensures OkBut(d.(pos := d.pos[x := s], len := d.len[x := n]), dir, {})
  {
    assert x !in d.lane[dir].fifo && x !in d.lane[Other(dir)].fifo;
    SortedFrame(d.pos, d.pos[x := s], d.lane[dir].tree);
    SortedFrame(d.pos, d.pos[x := s], d.lane[Other(dir)].tree);
  }

  /** `n` sectors have been merged in front of `x`, and it has been taken out of the tree. */
  ghost function TakenOut(d: Data, dir: Dir, x: nat, n: nat): (e: Data)
    requires OkBut(d, dir, {}) && x in d.lane[dir].tree && n <= d.pos[x]
    ensures OkBut(e, dir, {x}) && x in e.pos
  {
    var l := d.lane[dir];
    DeletedSorted(d.pos, l.tree, x);
    SortedFrame(d.pos, d.pos[x := d.pos[x] - n], Without(l.tree, x));
    SortedFrame(d.pos, d.pos[x := d.pos[x] - n], d.lane[Other(dir)].tree);
    d.(pos := d.pos[x := d.pos[x] - n], len := d.len[x := d.len[x] + n], lane := d.lane[dir := l.(tree := Without(l.tree, x))])
  }

  lemma KnownInTree(d: Data, dir: Dir, x: nat)
    requires OkBut(d, dir, {}) && x in d.lane[dir].tree
    ensures x in d.pos && x in d.len && x in d.lane[dir].fifo
  {}

  /** The reposition of deadline_merged_request. */
  ghost function FrontMerge(d: Data, dir: Dir, x: nat, n: nat): Data
    requires OkBut(d, dir, {}) && x in d.lane[dir].tree && n <= d.pos[x]
  {
    AddRb(TakenOut(d, dir, x, n), dir, {x}, x)
  }

  function BackMerge(d: Data, x: nat, n: nat): Data
    requires x in d.len
  {
    d.(len := d.len[x := d.len[x] + n])
  }

  /** The FIFO and the tree of deadline_merged_requests: an earlier deadline of `y` puts `x` in
      its place, and `y` goes. */
  function MergedLane(time: map<nat, int>, l: Lane, x: nat, y: nat): Lane
    requires x in l.tree && y in l.tree && x in l.fifo && y in l.fifo && x in time && y in time
    requires y in Without(l.fifo, x) && y in MovedAfter(l.fifo, x, y)
  {
    Removed(if time[y] < time[x] then l.(fifo := MovedAfter(l.fifo, x, y)) else l, y)
  }

  function MergedTime(time: map<nat, int>, x: nat, y: nat): map<nat, int>
    requires x in time && y in time
  {
    if time[y] < time[x] then time[x := time[y]] else time
  }

  /** deadline_merged_requests: `x` has taken over the data of `y`, and its earlier deadline. */
  ghost function MergeRequests(d: Data, dir: Dir, x: nat, y: nat): Data
    requires OkBut(d, dir, {}) && x in d.lane[dir].tree && y in d.lane[dir].tree && x != y
  {
    MergeReady(d.pos, d.time, d.lane[dir], x, y);
    d.(len := d.len[x := d.len[x] + d.len[y]], time := MergedTime(d.time, x, y),
       lane := d.lane[dir := MergedLane(d.time, d.lane[dir], x, y)])
  }

  lemma TimeInserted(time: map<nat, int>, w: seq<nat>, p: nat, x: nat, i: nat)
    requires Timed(time, w) && 0 < p <= |w| && x !in w && i <= |w|
    ensures var r, t := Inserted(w, p, x), time[x := time[w[p-1]]];
            r[i] in t && t[r[i]] == time[w[if i < p then i else i - 1]]
  {
    var j := if i < p then i else i - 1;
    assert w[j] in w;
  }

  /** A request that is put right behind another one and expires with it. */
  lemma InsertedTimed(time: map<nat, int>, w: seq<nat>, p: nat, x: nat)
    requires Timed(time, w) && 0 < p <= |w| && x !in w
    ensures Timed(time[x := time[w[p-1]]], Inserted(w, p, x))
  {
    hide Inserted;
    var r, t := Inserted(w, p, x), time[x := time[w[p-1]]];
    forall i | 0 <= i < |r| ensures r[i] in t {
      TimeInserted(time, w, p, x, i);
    }
    forall i, j | 0 <= i < j < |r| ensures t[r[i]] <= t[r[j]] {
      TimeInserted(time, w, p, x, i);
      TimeInserted(time, w, p, x, j);
    }
  }

  lemma MovedTimed(time: map<nat, int>, fifo: seq<nat>, x: nat, y: nat)
    requires NoDup(fifo) && Timed(time, fifo) && x in fifo && y in Without(fifo, x)
    ensures y in time && Timed(time[x := time[y]], MovedAfter(fifo, x, y))
  {
    WithoutMembers(fifo, x);
    TimedWithout(time, fifo, x);
    hide Without, NoDup, Inserted;
    var w := Without(fifo, x);
    InsertedTimed(time, w, IndexOf(w, y) + 1, x);
  }

  lemma MergeReady(pos: Positions, time: map<nat, int>, l: Lane, x: nat, y: nat)
    requires LaneOk(pos, time, l, {}) && x in l.tree && y in l.tree && x != y
    ensures x in l.fifo && y in l.fifo && x in time && y in time
    ensures y in Without(l.fifo, x) && y in MovedAfter(l.fifo, x, y)
  {
    assert x in l.fifo && y in l.fifo;
    WithoutMembers(l.fifo, x);
    MovedMembers(l.fifo, x, y);
  }

  lemma MergedLaneOk(pos: Positions, time: map<nat, int>, l: Lane, x: nat, y: nat)
    requires LaneOk(pos, time, l, {}) && x in l.tree && y in l.tree && x != y
    ensures x in l.fifo && y in l.fifo && x in time && y in time
    ensures y in Without(l.fifo, x) && y in MovedAfter(l.fifo, x, y)
    ensures var m := MergedLane(time, l, x, y);
            && LaneOk(pos, MergedTime(time, x, y), m, {})
            && (forall z :: z in m.fifo <==> z in l.fifo && z != y)
  {
    assert x in l.fifo && y in l.fifo;
    WithoutMembers(l.fifo, x);
    MovedMembers(l.fifo, x, y);
    if time[y] < time[x] {
      MovedTimed(time, l.fifo, x, y);
      RemovedOk(pos, time[x := time[y]], l.(fifo := MovedAfter(l.fifo, x, y)), {}, y);
    } else {
      RemovedOk(pos, time, l, {}, y);
    }
  }

  lemma TimedFrame(time: map<nat, int>, time': map<nat, int>, fifo: seq<nat>)
    requires Timed(time, fifo) && forall x | x in fifo :: x in time' && time'[x] == time[x]
    ensures Timed(time', fifo)
  {}

  lemma MergeKeeps(d: Data, dir: Dir, x: nat, y: nat)
    requires OkBut(d, dir, {}) && x in d.lane[dir].tree && y in d.lane[dir].tree && x != y
    ensures OkBut(MergeRequests(d, dir, x, y), dir, {})
  {
    MergedLaneOk(d.pos, d.time, d.lane[dir], x, y);
    TimedFrame(d.time, MergedTime(d.time, x, y), d.lane[Other(dir)].fifo);
  }

  lemma FrontMergeKeeps(d: Data, dir: Dir, x: nat, n: nat)
    requires OkBut(d, dir, {}) && x in d.lane[dir].tree && n <= d.pos[x]
    ensures OkBut(FrontMerge(d, dir, x, n), dir, {})
  {
    LinkedOk(Evict(TakenOut(d, dir, x, n), dir, {x}, x), dir, x);
  }

  lemma TimedAppend(time: map<nat, int>, fifo: seq<nat>, x: nat, t: int)
    requires Timed(time, fifo) && x !in fifo && forall y | y in fifo :: time[y] <= t
    ensures Timed(time[x := t], fifo + [x])
  {}

  lemma AppendedOk(pos: Positions, time: map<nat, int>, l: Lane, x: nat, t: int)
    requires LaneOk(pos, time, l, {}) && x in pos && x !in l.fifo && At(pos, l.tree, pos[x]) == None
    requires forall y | y in l.fifo :: time[y] <= t
    ensures LaneOk(pos, time[x := t], l.(tree := Added(pos, l.tree, x), fifo := l.fifo + [x]), {})
  {
    AddedSorted(pos, l.tree, x);
    TimedAppend(time, l.fifo, x, t);
  }

  lemma QueuedOk(e: Data, dir: Dir, x: nat, t: int)
    requires OkBut(e, dir, {}) && x in e.pos && x in e.len && At(e.pos, e.lane[dir].tree, e.pos[x]) == None
    requires x !in e.lane[dir].fifo && x !in e.lane[Other(dir)].fifo && forall y | y in e.lane[dir].fifo :: e.time[y] <= t
    ensures OkBut(Queued(Linked(e, dir, x), dir, x, t), dir, {})
  {
    AppendedOk(e.pos, e.time, e.lane[dir], x, t);
    TimedFrame(e.time, e.time[x := t], e.lane[Other(dir)].fifo);
  }

  lemma AddedOk(d: Data, dir: Dir, x: nat, t: int)
    requires OkBut(d, dir, {}) && x in d.pos && x in d.len
    requires x !in d.lane[dir].fifo && x !in d.lane[Other(dir)].fifo && forall y | y in d.lane[dir].fifo :: d.time[y] <= t
    ensures OkBut(Queued(AddRb(d, dir, {}, x), dir, x, t), dir, {})
  {
    QueuedOk(Evict(d, dir, {}, x), dir, x, t);
  }

  lemma AddReady(c: Settings, d: Data, dir: Dir, x: nat, now: int)
    requires dir in d.lane && Other(dir) in d.lane && NotQueued(d, x) && ClockOk(c, d, now)
    ensures x !in d.lane[dir].fifo && x !in d.lane[Other(dir)].fifo
    ensures forall y | y in d.lane[dir].fifo :: y in d.time && d.time[y] <= now + Expire(c, dir)
  {}

  lemma AddKeeps(c: Settings, d: Data, dir: Dir, x: nat, s: nat, n: nat, now: int)
    requires OkBut(d, dir, {}) && NotQueued(d, x) && ClockOk(c, d, now)
    ensures OkBut(Add(c, d, dir, x, s, n, now), dir, {})
  {
    hide LaneOk, AddRb, Queued, Expire;
    PlacedOk(d, dir, x, s, n);
    AddReady(c, d, dir, x, now);
    AddedOk(d.(pos := d.pos[x := s], len := d.len[x := n]), dir, x, now + Expire(c, dir));
  }
}
