/** The barrier protocol of the block layer as a state machine: insertion, requeue and
    completion (elevator.c), the fetch loop (blk.h), the ordered sequence (blk-barrier.c) and
    the accounting of started requests (blk-core.c), over the noop scheduler.

    Every step is one critical section under the queue lock.  A request is a pointer `Ref`
    into the table `rqs` of everything ever submitted (the index is the submission number) or
    one of the three proxy requests embedded in the queue. */
module BarrierModel {
  import opened Lists
  import opened Options
  import opened DispatchSort

  /** The QUEUE_ORDSEQ_* bits, lowest first. */
  datatype Step = Started | Drain | PreFlush | Bar | PostFlush | Done

  function Rank(t: Step): nat {
    match t
    case Started => 0
    case Drain => 1
    case PreFlush => 2
    case Bar => 3
    case PostFlush => 4
    case Done => 5
  }

  /** `Fs`: a file system request without REQ_HARDBARRIER; `Barrier`: one with it; `Special`:
      anything that is not a file system request, with the flag or without. */
  datatype Kind = Fs | Barrier | Special(hard: bool)

  /** blk_barrier_rq, which tests the flag alone. */
  predicate IsHard(k: Kind) {
    k == Barrier || k == Special(true)
  }

  datatype Where = Front | Back | Sort

  /** The immutable part of a request.  `color` is REQ_ORDERED_COLOR.  `epoch`, the number of
      barriers submitted before the request, is not in the original: the colour is the one
      bit of it that the code keeps. */
  datatype Request = Request(kind: Kind, pos: int, sectors: nat, write: bool, discard: bool,
                             color: bool, epoch: nat)

  datatype Ref = Rq(id: nat) | PreFlushRq | BarRq | PostFlushRq

  /** QUEUE_ORDERED_NONE, or ordering by draining with any choice of the DO_* flags. */
  datatype Ordered = Unsupported | DrainBy(preflush: bool, bar: bool, postflush: bool)

  /** One proxy completion of an ordered sequence. */
  datatype Note = Note(step: Step, err: int)

  /** The queue.  `elv` is the noop scheduler's list, `driver` what was dequeued and not yet
      completed or requeued.  History: `ended` maps each ended request to its error, `trail`
      lists the proxy completions of the running sequence, `trails` those of each ended
      barrier, and `bug` records that a BUG_ON or WARN_ON fired or a request ended twice. */
  datatype Queue = Queue(
    nextOrdered: Ordered,
    rqs: seq<Request>,
    head: seq<Ref>,
    elv: seq<Ref>,
    driver: set<Ref>,
    soft: set<Ref>,
    started: set<Ref>,
    inFlight: int,
    ordcolor: bool,
    ordseq: set<Step>,
    orderr: int,
    ordered: Ordered,
    orig: nat,
    endSector: int,
    boundary: Option<Ref>,
    ended: map<nat, int>,
    trail: seq<Note>,
    trails: map<nat, seq<Note>>,
    bug: bool)

  const EOPNOTSUPP: int := -95

  function Init(ordered: Ordered): Queue {
    Queue(ordered, [], [], [], {}, {}, {}, 0, false, {}, 0, ordered, 0, 0, None, map[], [], map[], false)
  }

  // ---------------------------------------------------------------- requests

  function KindOf(rqs: seq<Request>, r: Ref): Kind {
    match r
    case Rq(id) => if id < |rqs| then rqs[id].kind else Special(false)
    case BarRq => Barrier
    case _ => Special(false)
  }

  /** blk_fs_request: the bar proxy is built from the barrier's bio, the flushes are not. */
  predicate IsFs(rqs: seq<Request>, r: Ref) {
    !KindOf(rqs, r).Special?
  }

  function EndOf(s: Queue, r: Ref): int {
    match r
    case Rq(id) => if id < |s.rqs| then s.rqs[id].pos + s.rqs[id].sectors else 0
    case BarRq => if s.orig < |s.rqs| then s.rqs[s.orig].pos + s.rqs[s.orig].sectors else 0
    case _ => -1
  }

  /** What `elv_dispatch_sort` sees of a queued request; the proxies are always flagged. */
  function ViewIn(rqs: seq<Request>, flagged: set<Ref>, started: set<Ref>, r: Ref): Entry {
    match r
    case Rq(id) =>
      if id < |rqs| then
        Entry(rqs[id].pos, rqs[id].write, rqs[id].discard,
              r in flagged || r in started || IsHard(rqs[id].kind))
      else Entry(0, false, false, true)
    case _ => Entry(0, false, false, true)
  }

  function View(s: Queue, r: Ref): Entry {
    ViewIn(s.rqs, s.soft, s.started, r)
  }

  function ViewsIn(rqs: seq<Request>, flagged: set<Ref>, started: set<Ref>, q: seq<Ref>): (v: seq<Entry>)
    ensures |v| == |q| && forall i | 0 <= i < |v| :: v[i] == ViewIn(rqs, flagged, started, q[i])
  {
    seq(|q|, i requires 0 <= i < |q| => ViewIn(rqs, flagged, started, q[i]))
  }

  function Views(s: Queue): (v: seq<Entry>)
    ensures |v| == |s.head| && forall i | 0 <= i < |v| :: v[i] == View(s, s.head[i])
  {
    ViewsIn(s.rqs, s.soft, s.started, s.head)
  }

  /** blk_account_rq. */
  predicate Accounted(s: Queue, r: Ref) {
    r in s.started && IsFs(s.rqs, r)
  }

  // ---------------------------------------------------------------- the ordered sequence

  predicate Active(s: Queue) {
    s.ordseq != {}
  }

  /** The step whose bit is the lowest zero bit of `ordseq`. */
  function FirstZero(o: set<Step>): Step {
    if Started !in o then Started
    else if Drain !in o then Drain
    else if PreFlush !in o then PreFlush
    else if Bar !in o then Bar
    else if PostFlush !in o then PostFlush
    else Done
  }

  /** blk_ordered_req_seq. */
  function SeqOf(rqs: seq<Request>, orig: nat, r: Ref): Step {
    match r
    case PreFlushRq => PreFlush
    case BarRq => Bar
    case PostFlushRq => PostFlush
    case Rq(id) =>
      if !IsFs(rqs, r) then Drain
      else if id < |rqs| && orig < |rqs| && rqs[id].color == rqs[orig].color then Drain
      else Done
  }

  function ReqSeq(s: Queue, r: Ref): Step {
    SeqOf(s.rqs, s.orig, r)
  }

  function EndRequest(s: Queue, id: nat, err: int): Queue {
    s.(ended := s.ended[id := err], bug := s.bug || id in s.ended)
  }

  function PutAccount(s: Queue, r: Ref): Queue {
    s.(inFlight := if Accounted(s, r) then s.inFlight - 1 else s.inFlight)
  }

  /** The whole sequence is over once these bits are set. */
  predicate Finishes(s: Queue, steps: set<Step>) {
    FirstZero(s.ordseq + steps) == Done
  }

  /** blk_ordered_complete_seq; it returns true exactly when `Finishes`. */
  function CompleteSeq(s: Queue, steps: set<Step>, err: int): Queue {
    var s1 := s.(orderr := if err != 0 && s.orderr == 0 then err else s.orderr,
                 bug := s.bug || s.ordseq * steps != {},
                 ordseq := s.ordseq + steps);
    if !Finishes(s, steps) then s1
    else
      var s2 := s1.(ordseq := {}, trails := s1.trails[s1.orig := s1.trail]);
      PutAccount(EndRequest(s2, s2.orig, s2.orderr), Rq(s2.orig))
  }

  /** The waiting drain step completes now: nothing is in flight and the head of the queue is
      not itself something to drain. */
  predicate DrainOver(s: Queue) {
    && Active(s)
    && s.inFlight == 0
    && FirstZero(s.ordseq) == Drain
    && (s.head != [] ==> Rank(ReqSeq(s, s.head[0])) > Rank(Drain))
  }

  /** elv_completed_request. */
  function ElvCompleted(s: Queue, r: Ref): Queue {
    var s1 := PutAccount(s, r);
    if DrainOver(s1) then CompleteSeq(s1, {Drain}, 0) else s1
  }

  /** The ordering flags of one sequence: an empty barrier has no bar and no post-flush. */
  function Effective(o: Ordered, rq: Request): Ordered {
    if o.DrainBy? && rq.sectors == 0 then DrainBy(o.preflush, false, false) else o
  }

  /** The proxies of a sequence, in the order in which they stand in the queue. */
  function Proxies(o: Ordered): seq<Ref> {
    if o.DrainBy? then
      (if o.preflush then [PreFlushRq] else []) + (if o.bar then [BarRq] else [])
      + (if o.postflush then [PostFlushRq] else [])
    else []
  }

  function Skipped(o: Ordered): set<Step> {
    if o.DrainBy? then
      (if o.preflush then {} else {PreFlush}) + (if o.bar then {} else {Bar})
      + (if o.postflush then {} else {PostFlush})
    else {PreFlush, Bar, PostFlush}
  }

  /** start_ordered up to its call of blk_ordered_complete_seq: the barrier at the head is
      stashed away and the proxies are stacked in its place. */
  function Stacked(s: Queue): Queue
    requires s.head != [] && s.head[0].Rq? && s.head[0].id < |s.rqs|
  {
    var b := s.head[0];
    var o := Effective(s.nextOrdered, s.rqs[b.id]);
    s.(orderr := 0, ordered := o, ordseq := s.ordseq + {Started}, orig := b.id, trail := [],
       inFlight := if Accounted(s, b) then s.inFlight + 1 else s.inFlight,
       head := Proxies(o) + s.head[1..],
       soft := s.soft + (set r | r in Proxies(o)),
       started := s.started - (set r | r in Proxies(o)))
  }

  function StartSkip(s: Queue): set<Step> {
    Skipped(s.ordered) + (if s.inFlight != 0 then {} else {Drain})
  }

  /** What the fetch loop gets back from blk_do_ordered: `keep` is its return value. */
  datatype Verdict = Verdict(q: Queue, keep: bool, rq: Option<Ref>)

  function StartOrdered(s: Queue): Verdict
    requires s.head != [] && s.head[0].Rq? && s.head[0].id < |s.rqs|
  {
    var s1 := Stacked(s);
    var p := Proxies(s1.ordered);
    Verdict(CompleteSeq(s1, StartSkip(s1), 0), !Finishes(s1, StartSkip(s1)),
            if p != [] && s1.inFlight == 0 then Some(p[0]) else None)
  }

  /** blk_do_ordered for the request at the head of the queue. */
  function DoOrdered(s: Queue): Verdict
    requires s.head != []
  {
    var r := s.head[0];
    if !Active(s) then
      // the bar proxy, itself a barrier, is never queued outside a sequence
      if KindOf(s.rqs, r) != Barrier || !r.Rq? then Verdict(s, true, Some(r))
      else if s.nextOrdered.DrainBy? then StartOrdered(s)
      else
        var s1 := s.(head := s.head[1..],
                     inFlight := if Accounted(s, r) then s.inFlight + 1 else s.inFlight);
        Verdict(PutAccount(EndRequest(s1, r.id, EOPNOTSUPP), r), false, None)
    else if !IsFs(s.rqs, r) && r.Rq? then Verdict(s, true, Some(r))
    else
      var s1 := s.(bug := s.bug || Rank(ReqSeq(s, r)) < Rank(FirstZero(s.ordseq)));
      Verdict(s1, true, if Rank(ReqSeq(s, r)) > Rank(FirstZero(s.ordseq)) then None else Some(r))
  }

  // ---------------------------------------------------------------- noop scheduler

  /** noop_dispatch with something to dispatch. */
  function NoopDispatch(s: Queue): Queue
    requires s.elv != []
  {
    var r := s.elv[0];
    s.(elv := s.elv[1..], head := Inserted(s.head, InsertAt(Views(s), View(s, r), s.endSector), r))
  }

  /** elv_drain_elevator. */
  function DrainElevator(s: Queue): (d: Queue)
    ensures d == s.(elv := [], head := d.head)
    decreases |s.elv|
  {
    if s.elv == [] then s else DrainElevator(NoopDispatch(s))
  }

  // ---------------------------------------------------------------- the steps

  /** The epoch the next submitted request belongs to. */
  function CurEpoch(rqs: seq<Request>): nat {
    if rqs == [] then 0
    else var last := rqs[|rqs|-1]; last.epoch + if last.kind == Barrier then 1 else 0
  }

  /** What the caller of __elv_add_request provides: `soft` is REQ_SOFTBARRIER on entry and
      `priv` is REQ_ELVPRIV. */
  datatype Bio = Bio(kind: Kind, pos: int, sectors: nat, write: bool, discard: bool, soft: bool, priv: bool)

  /** The request is a scheduling boundary of its own. */
  predicate IsBoundary(b: Bio) {
    b.soft || IsHard(b.kind)
  }

  /** Where __elv_add_request really inserts. */
  function Target(b: Bio, where: Where): Where {
    if where == Sort && (IsBoundary(b) || !b.priv) then Back else where
  }

  /** The request enters the table with the current colour; REQ_HARDBARRIER toggles the colour,
      whatever the request is. */
  function Register(s: Queue, b: Bio): Queue {
    s.(rqs := s.rqs + [Request(b.kind, b.pos, b.sectors, b.write, b.discard, s.ordcolor, CurEpoch(s.rqs))],
       soft := if b.soft then s.soft + {Rq(|s.rqs|)} else s.soft,
       ordcolor := if IsHard(b.kind) then !s.ordcolor else s.ordcolor)
  }

  /** elv_insert (the back insertion has drained the scheduler before). */
  function Insert(s: Queue, b: Bio, where: Where): Queue {
    var r := Rq(|s.rqs|);
    var q := Register(s, b);
    match where
    case Front => q.(soft := q.soft + {r}, head := [r] + q.head)
    case Back => q.(soft := q.soft + {r}, head := q.head + [r])
    case Sort => q.(elv := q.elv + [r])
  }

  /** A file system request that is a scheduling boundary moves the boundary sector. */
  function Bounded(s: Queue, b: Bio): Queue {
    if IsBoundary(b) && !b.kind.Special? then
      s.(endSector := b.pos + b.sectors, boundary := Some(Rq(|s.rqs|)))
    else s
  }

  /** __elv_add_request. */
  function Submit(s: Queue, b: Bio, where: Where): Queue {
    var s1 := Bounded(s, b);
    var target := Target(b, where);
    Insert(if target == Back then DrainElevator(s1) else s1, b, target)
  }

  datatype Fetched = Fetched(q: Queue, rq: Option<Ref>)

  /** __elv_next_request. */
  function NextRequest(s: Queue): Fetched
    decreases |s.elv|, |s.head|
  {
    if s.head == [] then
      if s.elv == [] then Fetched(s, None) else NextRequest(NoopDispatch(s))
    else
      var v := DoOrdered(s);
      if v.keep then Fetched(v.q, v.rq)
      else
        assert !v.keep ==> v.q.elv == s.elv && |v.q.head| < |s.head| by { GoneShrinks(s); }
        NextRequest(v.q)
  }

  /** blk_do_ordered answers false only when the head request is gone. */
  lemma GoneShrinks(s: Queue)
    requires s.head != [] && !DoOrdered(s).keep
    ensures DoOrdered(s).q.elv == s.elv && DoOrdered(s).q.head == s.head[1..]
  {
    if s.nextOrdered.DrainBy? {
      var s1 := Stacked(s);
      var o := s1.ordered;
      assert Finishes(s1, StartSkip(s1));
      assert Proxies(o) + s.head[1..] == s.head[1..] by {
        assert !o.preflush && !o.bar && !o.postflush by { NoStepLeft(s, o); }
      }
    }
  }

  lemma NoStepLeft(s: Queue, o: Ordered)
    requires s.head != [] && s.head[0].Rq? && s.head[0].id < |s.rqs|
    requires !Active(s) && s.nextOrdered.DrainBy? && o == Stacked(s).ordered
    requires Finishes(Stacked(s), StartSkip(Stacked(s)))
    ensures !o.preflush && !o.bar && !o.postflush
  {
    var f := Stacked(s).ordseq + StartSkip(Stacked(s));
    assert PreFlush in f && Bar in f && PostFlush in f;
  }

  /** blk_peek_request without the prep hook: the returned request is marked started. */
  function Peek(s: Queue): Fetched {
    var f := NextRequest(s);
    match f.rq
    case None => f
    case Some(r) =>
      var q := f.q.(started := f.q.started + {r});
      if q.boundary.None? || q.boundary == Some(r) then
        Fetched(q.(endSector := EndOf(q, r), boundary := None), f.rq)
      else Fetched(q, f.rq)
  }

  /** blk_start_request: the driver takes a request it has peeked at. */
  function Start(s: Queue, r: Ref): Queue
    requires r in s.head
  {
    s.(head := Without(s.head, r), driver := s.driver + {r},
       inFlight := if Accounted(s, r) then s.inFlight + 1 else s.inFlight)
  }

  function ProxyStep(r: Ref): Step
    requires !r.Rq?
  {
    match r
    case PreFlushRq => PreFlush
    case BarRq => Bar
    case PostFlushRq => PostFlush
  }

  /** Completion by the driver: blk_finish_request for a submitted request and the end_io
      callback for a proxy. */
  function Complete(s: Queue, r: Ref, err: int): Queue {
    var s1 := s.(driver := s.driver - {r});
    if r.Rq? then ElvCompleted(EndRequest(s1, r.id, err), r)
    else
      var s2 := ElvCompleted(s1, r);
      CompleteSeq(s2.(trail := s2.trail + [Note(ProxyStep(r), err)]), {ProxyStep(r)}, err)
  }

  /** Where ELEVATOR_INSERT_REQUEUE puts a request while a sequence is running. */
  function RequeueAt(s: Queue, t: Step, from: nat): (p: nat)
    requires from <= |s.head|
    ensures from <= p <= |s.head|
    ensures forall i | from <= i < p :: Rank(ReqSeq(s, s.head[i])) < Rank(t)
    ensures p < |s.head| ==> Rank(t) <= Rank(ReqSeq(s, s.head[p]))
    decreases |s.head| - from
  {
    if from == |s.head| || Rank(t) <= Rank(ReqSeq(s, s.head[from])) then from
    else RequeueAt(s, t, from + 1)
  }

  /** elv_requeue_request up to its elv_insert. */
  function Returned(s: Queue, r: Ref): Queue {
    PutAccount(s, r).(driver := s.driver - {r}, started := s.started - {r}, soft := s.soft + {r})
  }

  /** Outside a sequence the front, otherwise the first place in sequence order. */
  function RequeueIndex(s: Queue, r: Ref): (p: nat)
    ensures p <= |s.head|
  {
    if !Active(s) then 0 else RequeueAt(s, ReqSeq(s, r), 0)
  }

  /** elv_requeue_request. */
  function Requeue(s: Queue, r: Ref): Queue {
    var s1 := Returned(s, r);
    s1.(head := Inserted(s1.head, RequeueIndex(s1, r), r))
  }

  datatype Action =
    | SubmitA(bio: Bio, where: Where)
    | PeekA
    | StartA(rq: Ref)
    | CompleteA(rq: Ref, err: int)
    | RequeueA(rq: Ref)

  /** What the callers of the block layer owe it: no file system request is inserted at the
      front and no special one ends up in the scheduler; the driver starts what it has peeked at and
      completes or requeues what it has started. */
  predicate Enabled(s: Queue, a: Action) {
    match a
    case SubmitA(b, w) => if b.kind.Special? then Target(b, w) != Sort else w != Front
    case PeekA => true
    case StartA(r) => r in s.head && r in s.started
    case CompleteA(r, _) => r in s.driver
    case RequeueA(r) => r in s.driver
  }

  function Next(s: Queue, a: Action): Queue
    requires Enabled(s, a)
  {
    match a
    case SubmitA(b, w) => Submit(s, b, w)
    case PeekA => Peek(s).q
    case StartA(r) => Start(s, r)
    case CompleteA(r, e) => Complete(s, r, e)
    case RequeueA(r) => Requeue(s, r)
  }

  /** REQ_HARDBARRIER is for file system requests: on another one it toggles the colour without
      being a barrier. */
  predicate HonestFlag(a: Action) {
    a.SubmitA? ==> a.bio.kind != Special(true)
  }

  ghost predicate HonestFlags(actions: seq<Action>) {
    forall a | a in actions :: HonestFlag(a)
  }

  /** A run of the queue: `states[i+1]` follows from `states[i]` by `actions[i]`. */
  ghost predicate IsRun(states: seq<Queue>, actions: seq<Action>) {
    && |states| == |actions| + 1
    && (exists o: Ordered :: o.DrainBy? && states[0] == Init(o))
    && forall i | 0 <= i < |actions| :: Enabled(states[i], actions[i]) && states[i+1] == Next(states[i], actions[i])
  }
}
