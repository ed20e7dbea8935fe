/** What a deadline is worth (deadline-iosched.c): which request a dispatch takes, and how many
    dispatches an expired one can still have to wait. */
module DeadlineExpiry {
  import opened Lists
  import opened Options
  import opened SortTree
  import opened Deadline
  import opened DeadlineDispatch

  // ---------------------------------------------------------------- one dispatch

  /** A next request is known and the batch is not used up. */
  predicate GoesOn(c: Settings, d: Data)
    requires Read in d.lane && Write in d.lane
  {
    (d.lane[Read].next.Some? || d.lane[Write].next.Some?) && d.batching < U32(c.fifoBatch)
  }

  /** How `x` of the direction `dir` came to be taken: it goes on with a batch, or it begins one. */
  ghost predicate Taken(c: Settings, d: Data, e: Data, now: int, dir: Dir, x: nat)
    requires Ok(d)
  {
    && dir in d.lane && Read in d.lane && Write in d.lane
    && var l := d.lane[dir];
    && x in l.fifo && e.out == d.out + [x]
    && if GoesOn(c, d) then l.next == Some(x) && e.batching == d.batching + 1 && e.starved == d.starved
       else
         && e.batching == 1
         && (dir == Write <==> d.lane[Write].fifo != [] && (d.lane[Read].fifo == [] || d.starved >= U32(c.writesStarved)))
         && e.starved == (if dir == Write then 0 else if d.lane[Write].fifo != [] then d.starved + 1 else d.starved)
         && l.fifo[0] in d.time
         && (if d.time[l.fifo[0]] < now || l.next == None then x == l.fifo[0] else l.next == Some(x))
  }

  /** The rule by which a dispatch serves one of the queued requests. */
  lemma DispatchRule(c: Settings, d: Data, now: int) returns (dir: Dir, x: nat)
    requires Ok(d) && (d.lane[Read].fifo != [] || d.lane[Write].fifo != [])
    ensures Taken(c, d, Dispatch(c, d, now), now, dir, x)
  {
    hide LaneOk, U32;
    PickIffQueued(c, d, now);
    PickQueued(c, d, now);
    LanesKnown(d);
    var p := Pick(c, d, now).value;
    dir, x := p.dir, p.x;
  }

  lemma LanesKnown(d: Data)
    requires Ok(d)
    ensures Read in d.lane && Write in d.lane
    ensures d.lane[Read].next.Some? ==> d.lane[Write].next == None
    ensures forall dir | dir in d.lane && d.lane[dir].fifo != [] :: d.lane[dir].fifo[0] in d.time
  {
    forall dir | dir in d.lane && d.lane[dir].fifo != [] ensures d.lane[dir].fifo[0] in d.time {
      assert dir == Read || dir == Write;
    }
  }

  /** If no batch goes on, an expired oldest request of the direction served is the one moved out. */
  lemma ExpiredFirst(c: Settings, d: Data, now: int, dir: Dir)
    requires Ok(d) && Read in d.lane && Write in d.lane && !GoesOn(c, d)
    requires d.lane[dir].fifo != [] && d.lane[dir].fifo[0] in d.time && d.time[d.lane[dir].fifo[0]] < now
    requires var o := Dispatch(c, d, now).out; o != [] && |o| == |d.out| + 1 && o[|o|-1] in d.lane[dir].fifo
    ensures Dispatch(c, d, now).out == d.out + [d.lane[dir].fifo[0]]
  {
    hide LaneOk, Dispatch;
    var k, x := DispatchRule(c, d, now);
    InOneLane(d, dir, k, x);
  }

  lemma InOneLane(d: Data, dir: Dir, k: Dir, x: nat)
    requires Ok(d) && dir in d.lane && k in d.lane && x in d.lane[dir].fifo && x in d.lane[k].fifo
    ensures dir == k
  {
    hide LaneOk;
  }

  /** The next request of the direction is the queued one that starts first behind the one moved out,
      and the other direction has none. */
  lemma NextInSectorOrder(d: Data, dir: Dir, hole: set<nat>, x: nat)
    requires OkBut(d, dir, hole) && x in d.lane[dir].tree
    ensures x in d.lane[dir].fifo && x in d.pos && x in d.len && Other(dir) in d.lane
    ensures var e := MoveRequest(d, dir, x);
            && Sorted(d.pos, e.lane[dir].tree) && e.lane[Other(dir)].next == None
            && e.last == d.pos[x] + d.len[x] && e.out == d.out + [x]
            && (if e.lane[dir].next == None then forall y | y in e.lane[dir].tree :: d.pos[y] < d.pos[x]
                else
                  var n := e.lane[dir].next.value;
                  && n in e.lane[dir].tree && d.pos[n] > d.pos[x]
                  && forall y | y in e.lane[dir].tree && d.pos[y] > d.pos[x] :: d.pos[n] <= d.pos[y])
  {
    MoveKeeps(d, dir, hole, x);
    LatterIsNext(d.pos, d.lane[dir].tree, x);
    DeletedSorted(d.pos, d.lane[dir].tree, x);
  }

  lemma LatterIsNext(pos: Positions, t: seq<nat>, x: nat)
    requires Sorted(pos, t) && x in t
    ensures var n := Latter(t, x);
            if n == None then forall y | y in t && y != x :: pos[y] < pos[x]
            else n.value in t && n.value != x && pos[n.value] > pos[x] && forall y | y in t && pos[y] > pos[x] :: pos[n.value] <= pos[y]
  {
    var i := IndexOf(t, x);
    forall y | y in t && y != x
      ensures if i + 1 < |t| then pos[y] > pos[x] ==> pos[t[i+1]] <= pos[y] else pos[y] < pos[x]
    {
      var j := IndexOf(t, y);
      assert j < i || j > i;
    }
  }

  /** A request added now expires after the time for its direction. */
  lemma AddExpires(c: Settings, d: Data, dir: Dir, x: nat, s: nat, n: nat, now: int)
    requires OkBut(d, dir, {}) && NotQueued(d, x) && ClockOk(c, d, now)
    ensures var e := Add(c, d, dir, x, s, n, now);
            && x in e.time && e.time[x] == now + (if dir == Read then c.readExpire else c.writeExpire)
            && dir in e.lane && e.lane[dir].fifo != [] && e.lane[dir].fifo[|e.lane[dir].fifo|-1] == x && x in e.lane[dir].tree
            && x in e.pos && e.pos[x] == s && x in e.len && e.len[x] == n
  {
    AddKeeps(c, d, dir, x, s, n, now);
    PlacedOk(d, dir, x, s, n);
    QueuedAtEnd(d.(pos := d.pos[x := s], len := d.len[x := n]), dir, x, now + Expire(c, dir));
    assert x in Add(c, d, dir, x, s, n, now).lane[dir].fifo;
  }

  lemma QueuedAtEnd(d: Data, dir: Dir, x: nat, t: int)
    requires OkBut(d, dir, {}) && x in d.pos
    ensures var e := Queued(AddRb(d, dir, {}, x), dir, x, t);
            && e.time == d.time[x := t] && e.pos == d.pos && e.len == d.len
            && dir in e.lane && e.lane[dir].fifo != [] && e.lane[dir].fifo[|e.lane[dir].fifo|-1] == x
  {}

  /** Of two requests that are merged the earlier deadline counts, and the size is the sum. */
  lemma MergeExpires(d: Data, dir: Dir, x: nat, y: nat)
    requires OkBut(d, dir, {}) && x in d.lane[dir].tree && y in d.lane[dir].tree && x != y
    ensures x in d.time && y in d.time && x in d.len && y in d.len
    ensures var e := MergeRequests(d, dir, x, y);
            && x in e.time && e.time[x] == (if d.time[y] < d.time[x] then d.time[y] else d.time[x])
            && x in e.len && e.len[x] == d.len[x] + d.len[y] && e.pos == d.pos
            && forall z | z in d.time && z != x :: z in e.time && e.time[z] == d.time[z]
  {
    MergeReady(d.pos, d.time, d.lane[dir], x, y);
  }

  /** The request with the earlier deadline gives its place in the FIFO to the one that stays. */
  lemma MergePlace(d: Data, dir: Dir, x: nat, y: nat)
    requires OkBut(d, dir, {}) && x in d.lane[dir].tree && y in d.lane[dir].tree && x != y
    ensures x in d.lane[dir].fifo && y in d.lane[dir].fifo && x in d.time && y in d.time
    ensures var f, e := d.lane[dir].fifo, MergeRequests(d, dir, x, y).lane[dir].fifo;
            if d.time[y] < d.time[x] then e == InPlaceOf(Without(f, x), y, x) else e == Without(f, y)
  {
    hide Without, MovedAfter;
    MergeReady(d.pos, d.time, d.lane[dir], x, y);
    LaneDistinct(d, dir);
    TakesPlace(d.lane[dir].fifo, x, y);
  }

  /** If the request that goes was the next one in sector order, then the one behind it takes over; if
      it was not, the next one stays. */
  lemma MergeNext(d: Data, dir: Dir, x: nat, y: nat)
    requires OkBut(d, dir, {}) && x in d.lane[dir].tree && y in d.lane[dir].tree && x != y
    ensures var l, n := d.lane[dir], MergeRequests(d, dir, x, y).lane[dir].next;
            && (l.next != Some(y) ==> n == l.next)
            && (l.next == Some(y) && n == None ==> forall z | z in l.tree && z != y :: d.pos[z] < d.pos[y])
            && (l.next == Some(y) && n.Some? ==>
                  && n.value in l.tree && d.pos[n.value] > d.pos[y]
                  && forall z | z in l.tree && d.pos[z] > d.pos[y] :: d.pos[n.value] <= d.pos[z])
  {
    hide Without, MovedAfter, Latter, Timed;
    MergeReady(d.pos, d.time, d.lane[dir], x, y);
    LatterIsNext(d.pos, d.lane[dir].tree, y);
  }

  lemma LaneDistinct(d: Data, dir: Dir)
    requires OkBut(d, dir, {})
    ensures NoDup(d.lane[dir].fifo)
  {}

  /** A front merge moves the start and keeps the end, the deadline and the place in the FIFO. */
  lemma FrontMergeMoves(d: Data, dir: Dir, x: nat, n: nat)
    requires OkBut(d, dir, {}) && x in d.lane[dir].tree && n <= d.pos[x]
    ensures x in d.len
    ensures var e := FrontMerge(d, dir, x, n);
            && x in e.pos && e.pos[x] == d.pos[x] - n && x in e.len && e.pos[x] + e.len[x] == d.pos[x] + d.len[x]
            && e.time == d.time && dir in e.lane && x in e.lane[dir].tree && x in e.lane[dir].fifo
            && forall y | y in d.pos && y != x :: y in e.pos && e.pos[y] == d.pos[y]
  {
    FrontMergeKeeps(d, dir, x, n);
    var t := TakenOut(d, dir, x, n);
    AddedSorted(t.pos, Evict(t, dir, {x}, x).lane[dir].tree, x);
  }

  /** A back merge moves the end and keeps everything else. */
  lemma BackMergeMoves(d: Data, dir: Dir, x: nat, n: nat)
    requires OkBut(d, dir, {}) && x in d.lane[dir].tree
    ensures x in d.pos && x in d.len
    ensures var e := BackMerge(d, x, n);
            && e.pos == d.pos && e.time == d.time && e.lane == d.lane && x in e.len && e.pos[x] + e.len[x] == d.pos[x] + d.len[x] + n
            && forall y | y in d.len && y != x :: y in e.len && e.len[y] == d.len[y]
  {
    KnownInTree(d, dir, x);
  }

  // ---------------------------------------------------------------- the oldest request

  /** The oldest request of the direction is still the oldest, or it has left. */
  ghost predicate Leads(d: Data, dir: Dir, x: nat) {
    dir in d.lane && (x in d.lane[dir].fifo ==> d.lane[dir].fifo[0] == x)
  }

  lemma WithoutFirst(f: seq<nat>, a: nat)
    requires NoDup(f) && a in f && a != f[0]
    ensures Without(f, a) != [] && Without(f, a)[0] == f[0]
  {}

  lemma RemovedLeads(f: seq<nat>, a: nat, x: nat)
    requires NoDup(f) && a in f && (x in f ==> f[0] == x)
    ensures x in Without(f, a) ==> Without(f, a)[0] == x
  {
    WithoutMembers(f, a);
    if a != f[0] { WithoutFirst(f, a); }
  }

  lemma MovedLeads(d: Data, dir: Dir, hole: set<nat>, a: nat, at: Dir, x: nat)
    requires OkBut(d, dir, hole) && a in d.lane[dir].tree && Leads(d, at, x) && at in {dir, Other(dir)}
    ensures a in d.lane[dir].fifo && a in d.pos && a in d.len && Other(dir) in d.lane
    ensures Leads(MoveRequest(d, dir, a), at, x)
  {
    MoveKeeps(d, dir, hole, a);
    if at == dir { RemovedLeads(d.lane[dir].fifo, a, x); }
  }

  lemma {:induction false} EvictLeads(d: Data, dir: Dir, hole: set<nat>, y: nat, at: Dir, x: nat)
    requires OkBut(d, dir, hole) && y in d.pos && Leads(d, at, x) && at in {dir, Other(dir)}
    ensures Leads(Evict(d, dir, hole, y), at, x)
    decreases |d.lane[dir].tree|
  {
    match At(d.pos, d.lane[dir].tree, d.pos[y])
    case None =>
    case Some(a) =>
      MoveKeeps(d, dir, hole, a);
      MovedLeads(d, dir, hole, a, at, x);
      EvictLeads(MoveRequest(d, dir, a), dir, hole, y, at, x);
  }

  lemma AddLeads(c: Settings, d: Data, dir: Dir, y: nat, s: nat, n: nat, now: int, at: Dir, x: nat)
    requires OkBut(d, dir, {}) && NotQueued(d, y) && Leads(d, at, x) && x in d.lane[at].fifo
    ensures Leads(Add(c, d, dir, y, s, n, now), at, x)
  {
    hide LaneOk, Expire;
    PlacedOk(d, dir, y, s, n);
    var d1 := d.(pos := d.pos[y := s], len := d.len[y := n]);
    BothDirs(at, dir);
    EvictLeads(d1, dir, {}, y, at, x);
    assert y != x;
  }

  lemma BothDirs(at: Dir, dir: Dir)
    ensures at in {dir, Other(dir)}
  {}

  lemma FrontLeads(d: Data, dir: Dir, y: nat, n: nat, at: Dir, x: nat)
    requires OkBut(d, dir, {}) && y in d.lane[dir].tree && n <= d.pos[y] && Leads(d, at, x)
    ensures Leads(FrontMerge(d, dir, y, n), at, x)
  {
    hide LaneOk;
    BothDirs(at, dir);
    KnownInTree(d, dir, y);
    EvictLeads(TakenOut(d, dir, y, n), dir, {y}, y, at, x);
  }

  lemma MergeLeads(d: Data, dir: Dir, y: nat, z: nat, at: Dir, x: nat)
    requires OkBut(d, dir, {}) && y in d.lane[dir].tree && z in d.lane[dir].tree && y != z && Leads(d, at, x)
    ensures Leads(MergeRequests(d, dir, y, z), at, x)
  {
    MergePlace(d, dir, y, z);
    BothDirs(at, dir);
    if at == dir {
      hide LaneOk;
      LaneDistinct(d, dir);
      var f := d.lane[dir].fifo;
      if d.time[z] < d.time[y] {
        NotOldest(d, dir, y, z);
        PlaceLeads(f, y, z, x);
      } else {
        RemovedLeads(f, z, x);
      }
    } else {
      assert MergeRequests(d, dir, y, z).lane[at] == d.lane[at];
    }
  }

  lemma NotOldest(d: Data, dir: Dir, y: nat, z: nat)
    requires OkBut(d, dir, {}) && y in d.lane[dir].fifo && z in d.lane[dir].fifo && y in d.time && z in d.time && d.time[z] < d.time[y]
    ensures d.lane[dir].fifo[0] != y
  {}

  lemma PlaceLeads(f: seq<nat>, y: nat, z: nat, x: nat)
    requires NoDup(f) && y in f && z in f && y != z && f[0] != y && (x in f ==> f[0] == x)
    ensures z in Without(f, y)
    ensures var e := InPlaceOf(Without(f, y), z, y); x in e ==> e[0] == x
  {
    WithoutMembers(f, y);
    WithoutFirst(f, y);
    var w := Without(f, y);
    var e := InPlaceOf(w, z, y);
    if x in e {
      var i :| 0 <= i < |e| && e[i] == x;
      assert x == y || x == w[i];
    }
  }

  /** `x`, the oldest request of the direction `at`, has expired; or it has left. */
  ghost predicate Overdue(d: Data, at: Dir, x: nat, now: int) {
    Leads(d, at, x) && (x in d.lane[at].fifo ==> x in d.time && d.time[x] < now)
  }

  lemma ApplyLeads(c: Settings, d: Data, op: Op, now: int, at: Dir, x: nat)
    requires Ok(d) && Enabled(d, op) && !op.Dispatching? && Leads(d, at, x) && x in d.lane[at].fifo
    ensures Leads(Apply(c, d, op, now), at, x)
  {
    match op
    case Adding(dir, y, s, n) => View(d, dir); AddLeads(c, d, dir, y, s, n, now, at, x);
    case Fronting(dir, y, n) => View(d, dir); FrontLeads(d, dir, y, n, at, x);
    case Lengthening(dir, y, n) =>
    case Joining(dir, y, z) => View(d, dir); MergeLeads(d, dir, y, z, at, x);
  }

  lemma ApplyTime(c: Settings, d: Data, op: Op, now: int, x: nat, at: Dir)
    requires Ok(d) && Enabled(d, op) && !op.Dispatching? && at in d.lane && x in d.lane[at].fifo && x in d.time
    ensures var e := Apply(c, d, op, now); x in e.time && e.time[x] <= d.time[x]
  {
    match op
    case Adding(dir, y, s, n) =>
      View(d, dir);
      PlacedOk(d, dir, y, s, n);
      QueuedAtEnd(d.(pos := d.pos[y := s], len := d.len[y := n]), dir, y, now + Expire(c, dir));
    case Fronting(dir, y, n) => View(d, dir); FrontMergeMoves(d, dir, y, n);
    case Lengthening(dir, y, n) =>
    case Joining(dir, y, z) => View(d, dir); MergeExpires(d, dir, y, z);
  }

  lemma DispatchLeads(c: Settings, d: Data, now: int, at: Dir, x: nat)
    requires Ok(d) && Leads(d, at, x)
    ensures Leads(Dispatch(c, d, now), at, x) && Dispatch(c, d, now).time == d.time
  {
    hide LaneOk, Fresh;
    var p := Pick(c, d, now);
    if p.Some? {
      PickQueued(c, d, now);
      View(d, p.value.dir);
      CountersFrame(d, p.value.batching, p.value.starved, p.value.dir);
      BothDirs(at, p.value.dir);
      MovedLeads(d.(batching := p.value.batching, starved := p.value.starved), p.value.dir, {}, p.value.x, at, x);
    }
  }

  // ---------------------------------------------------------------- runs

  ghost predicate AllowedRun(c: Settings, d: Data, now: int, evs: seq<Event>)
    requires Inv(c, d, now)
    decreases |evs|
  {
    evs != [] ==>
      && Allowed(d, now, evs[0])
      && (ApplyKeeps(c, d, now, evs[0]); AllowedRun(c, Apply(c, d, evs[0].op, evs[0].now), evs[0].now, evs[1..]))
  }

  /** All the while `x` stays in the FIFO of the direction `at`. */
  ghost predicate Stays(c: Settings, d: Data, now: int, evs: seq<Event>, at: Dir, x: nat)
    requires Inv(c, d, now) && AllowedRun(c, d, now, evs)
    decreases |evs|
  {
    at in d.lane && x in d.lane[at].fifo
    && (evs != [] ==> (ApplyKeeps(c, d, now, evs[0]); Stays(c, Apply(c, d, evs[0].op, evs[0].now), evs[0].now, evs[1..], at, x)))
  }

  /** A dispatch in this state begins a batch in the direction `at`. */
  ghost predicate BeginsBatch(c: Settings, d: Data, now: int, at: Dir)
    requires Ok(d)
  {
    && at in d.lane && Read in d.lane && Write in d.lane && !GoesOn(c, d)
    && exists x :: x in d.lane[at].fifo && Dispatch(c, d, now).out == d.out + [x]
  }

  /** No dispatch of the run begins a batch in the direction `at`. */
  ghost predicate NoneBegins(c: Settings, d: Data, now: int, evs: seq<Event>, at: Dir)
    requires Inv(c, d, now) && AllowedRun(c, d, now, evs)
    decreases |evs|
  {
    evs != [] ==>
      && (evs[0].op.Dispatching? ==> !BeginsBatch(c, d, evs[0].now, at))
      && (ApplyKeeps(c, d, now, evs[0]); NoneBegins(c, Apply(c, d, evs[0].op, evs[0].now), evs[0].now, evs[1..], at))
  }

  /** A dispatch that begins a batch in the direction moves the overdue request out. */
  lemma BatchTakesOldest(c: Settings, d: Data, now: int, at: Dir, x: nat)
    requires Ok(d) && Overdue(d, at, x, now) && x in d.lane[at].fifo && BeginsBatch(c, d, now, at)
    ensures Dispatch(c, d, now).out == d.out + [x]
    ensures at in Dispatch(c, d, now).lane && x !in Dispatch(c, d, now).lane[at].fifo
  {
    hide LaneOk;
    var y :| y in d.lane[at].fifo && Dispatch(c, d, now).out == d.out + [y];
    var o := Dispatch(c, d, now).out;
    assert o[|o|-1] == y;
    ExpiredFirst(c, d, now, at);
    OutHasLeft(c, d, now, at, x);
  }

  lemma OutHasLeft(c: Settings, d: Data, now: int, at: Dir, x: nat)
    requires Ok(d) && at in d.lane && x in d.lane[at].fifo && Dispatch(c, d, now).out == d.out + [x]
    ensures at in Dispatch(c, d, now).lane && x !in Dispatch(c, d, now).lane[at].fifo
  {
    PickIffQueued(c, d, now);
    assert at == Read || at == Write;
    DispatchMoves(c, d, now);
    var p := Pick(c, d, now).value.x;
    assert (d.out + [x])[|d.out|] == (d.out + [p])[|d.out|];
    assert !IsQueued(Dispatch(c, d, now), x);
    DispatchKeeps(c, d, now);
    LanesKnown(Dispatch(c, d, now));
  }

  lemma StepOverdue(c: Settings, d: Data, now: int, e: Event, at: Dir, x: nat)
    requires Inv(c, d, now) && Allowed(d, now, e) && Overdue(d, at, x, now) && x in d.lane[at].fifo
    ensures Overdue(Apply(c, d, e.op, e.now), at, x, e.now)
  {
    hide Dispatch, Ok, Bounded, ClockOk;
    if e.op.Dispatching? {
      DispatchLeads(c, d, e.now, at, x);
    } else {
      ApplyLeads(c, d, e.op, e.now, at, x);
      ApplyTime(c, d, e.op, e.now, x, at);
    }
  }

  /** Once the oldest request of a direction has expired, no batch begins in that direction before it
      has left: it is moved out by the first dispatch that begins one, if not before. */
  lemma {:induction false} OverdueGoesFirst(c: Settings, d: Data, now: int, evs: seq<Event>, at: Dir, x: nat)
    requires Inv(c, d, now) && AllowedRun(c, d, now, evs) && Overdue(d, at, x, now) && Stays(c, d, now, evs, at, x)
    ensures NoneBegins(c, d, now, evs, at)
    decreases |evs|
  {
    if evs != [] {
      hide Apply, Ok, Bounded, ClockOk, BeginsBatch, Overdue;
      var e := evs[0];
      ApplyKeeps(c, d, now, e);
      StepOverdue(c, d, now, e, at, x);
      var f := Apply(c, d, e.op, e.now);
      StaysIn(c, f, e.now, evs[1..], at, x);
      NotYet(c, d, now, e, at, x);
      OverdueGoesFirst(c, f, e.now, evs[1..], at, x);
    }
  }

  lemma StaysIn(c: Settings, d: Data, now: int, evs: seq<Event>, at: Dir, x: nat)
    requires Inv(c, d, now) && AllowedRun(c, d, now, evs) && Stays(c, d, now, evs, at, x)
    ensures at in d.lane && x in d.lane[at].fifo
  {}

  lemma NotYet(c: Settings, d: Data, now: int, e: Event, at: Dir, x: nat)
    requires Inv(c, d, now) && Allowed(d, now, e) && Overdue(d, at, x, now)
    requires at in d.lane && x in d.lane[at].fifo && at in Apply(c, d, e.op, e.now).lane && x in Apply(c, d, e.op, e.now).lane[at].fifo
    ensures e.op.Dispatching? ==> !BeginsBatch(c, d, e.now, at)
  {
    hide Dispatch, Ok, Bounded, ClockOk;
    if e.op.Dispatching? && BeginsBatch(c, d, e.now, at) {
      BatchTakesOldest(c, d, e.now, at, x);
    }
  }

  // ---------------------------------------------------------------- how long an overdue request waits

  /** How many more dispatches can pass before a batch of reads begins. */
  function ReadPatience(c: Settings, d: Data): nat
    requires Bounded(c, d)
  {
    (Batch(c) - d.batching) + (if d.starved >= U32(c.writesStarved) then Batch(c) else 0)
  }

  /** What the next dispatch can at most leave of the patience for the direction. */
  function Left(c: Settings, d: Data, at: Dir): nat
    requires Bounded(c, d)
  {
    if at == Write then Patience(c, d) else ReadPatience(c, d)
  }

  lemma MulStep(a: int, b: int, k: int)
    requires a + 1 == b
    ensures a * k + k == b * k
  {
    MulSub(b, 1, k);
  }

  /** A dispatch that does not begin a batch in the direction of a waiting request wears the patience
      for it down. */
  lemma DispatchWears(c: Settings, d: Data, now: int, at: Dir)
    requires Ok(d) && Bounded(c, d) && at in d.lane && d.lane[at].fifo != [] && !BeginsBatch(c, d, now, at)
    requires at == Read ==> U32(c.writesStarved) > 0
    ensures Bounded(c, Dispatch(c, d, now)) && Left(c, Dispatch(c, d, now), at) < Left(c, d, at)
  {
    hide OkBut, Dispatch, U32;
    LanesKnown(d);
    assert at == Read || at == Write;
    DispatchBounded(c, d, now);
    var dir, x := DispatchRule(c, d, now);
    var e := Dispatch(c, d, now);
    if !GoesOn(c, d) {
      assert dir != at;
      if at == Write {
        MulStep(U32(c.writesStarved) - e.starved, U32(c.writesStarved) - d.starved, Batch(c));
      }
    }
  }

  lemma {:induction false} OverdueWaits(c: Settings, d: Data, now: int, evs: seq<Event>, at: Dir, x: nat)
    requires Inv(c, d, now) && AllowedRun(c, d, now, evs) && Stays(c, d, now, evs, at, x) && NoneBegins(c, d, now, evs, at)
    requires at == Read ==> U32(c.writesStarved) > 0
    ensures Dispatches(evs) <= Left(c, d, at)
    decreases |evs|
  {
    hide OkBut, Apply, ClockOk, Left, BeginsBatch, Patience;
    StaysIn(c, d, now, evs, at, x);
    if evs != [] {
      var e := evs[0];
      ApplyKeeps(c, d, now, e);
      OverdueWaits(c, Apply(c, d, e.op, e.now), e.now, evs[1..], at, x);
      LeftStep(c, d, now, e, at);
    }
  }

  lemma LeftStep(c: Settings, d: Data, now: int, e: Event, at: Dir)
    requires Inv(c, d, now) && Allowed(d, now, e) && at in d.lane && d.lane[at].fifo != []
    requires e.op.Dispatching? ==> !BeginsBatch(c, d, e.now, at)
    requires at == Read ==> U32(c.writesStarved) > 0
    ensures var f := Apply(c, d, e.op, e.now);
            Bounded(c, f) && Left(c, f, at) + (if e.op.Dispatching? then 1 else 0) <= Left(c, d, at)
  {
    hide OkBut, ClockOk, BeginsBatch;
    if e.op.Dispatching? {
      DispatchWears(c, d, e.now, at);
    } else {
      CountersKept(c, d, e.op, e.now);
    }
  }

  /** An overdue write that is the oldest leaves after at most as many dispatches as the patience for
      writes, whatever is added and merged meanwhile. */
  lemma OverdueWriteBound(c: Settings, d: Data, now: int, evs: seq<Event>, x: nat)
    requires Inv(c, d, now) && AllowedRun(c, d, now, evs) && Overdue(d, Write, x, now) && Stays(c, d, now, evs, Write, x)
    ensures Dispatches(evs) <= Patience(c, d)
  {
    OverdueGoesFirst(c, d, now, evs, Write, x);
    OverdueWaits(c, d, now, evs, Write, x);
  }

  /** An overdue read that is the oldest leaves after at most the rest of the current batch and one
      batch of writes, provided that writes_starved is not zero. */
  lemma OverdueReadBound(c: Settings, d: Data, now: int, evs: seq<Event>, x: nat)
    requires Inv(c, d, now) && AllowedRun(c, d, now, evs) && Overdue(d, Read, x, now) && Stays(c, d, now, evs, Read, x)
    requires U32(c.writesStarved) > 0
    ensures Dispatches(evs) <= (Batch(c) - d.batching) + (if d.starved >= U32(c.writesStarved) then Batch(c) else 0)
  {
    OverdueGoesFirst(c, d, now, evs, Read, x);
    OverdueWaits(c, d, now, evs, Read, x);
  }
}
