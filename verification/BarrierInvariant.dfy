/** What every step of the barrier protocol keeps. */
module BarrierInvariant {
  import opened Lists
  import opened Options
  import opened DispatchSort
  import opened BarrierModel

  // ---------------------------------------------------------------- submission numbers and epochs

  /** Epochs count the barriers submitted so far, and the colour is the epoch's parity. */
  ghost predicate Numbered(rqs: seq<Request>) {
    rqs != [] ==>
      var n := |rqs| - 1;
      && Numbered(rqs[..n])
      && rqs[n].epoch == CurEpoch(rqs[..n])
      && rqs[n].color == (rqs[n].epoch % 2 == 1)
  }

  predicate IsBarrierId(rqs: seq<Request>, id: nat) {
    id < |rqs| && rqs[id].kind == Barrier
  }

  predicate IsPlainId(rqs: seq<Request>, id: nat) {
    id < |rqs| && rqs[id].kind == Fs
  }

  lemma {:induction false} EpochAt(rqs: seq<Request>, i: nat)
    requires Numbered(rqs) && i < |rqs|
    ensures rqs[i].epoch + (if rqs[i].kind == Barrier then 1 else 0) <= CurEpoch(rqs)
    ensures rqs[i].color == (rqs[i].epoch % 2 == 1)
    decreases |rqs|
  {
    var n := |rqs| - 1;
    if i < n {
      assert rqs[..n][i] == rqs[i];
      EpochAt(rqs[..n], i);
    }
  }

  lemma {:induction false} EpochMono(rqs: seq<Request>, i: nat, j: nat)
    requires Numbered(rqs) && i < j < |rqs|
    ensures rqs[i].epoch + (if rqs[i].kind == Barrier then 1 else 0) <= rqs[j].epoch
    decreases |rqs|
  {
    var n := |rqs| - 1;
    assert rqs[..n][i] == rqs[i];
    if j < n {
      assert rqs[..n][j] == rqs[j];
      EpochMono(rqs[..n], i, j);
    } else {
      EpochAt(rqs[..n], i);
    }
  }

  /** Every epoch that is over was closed by a barrier. */
  lemma {:induction false} BarrierOfEpoch(rqs: seq<Request>, e: nat) returns (b: nat)
    requires Numbered(rqs) && e < CurEpoch(rqs)
    ensures IsBarrierId(rqs, b) && rqs[b].epoch == e
    decreases |rqs|
  {
    var n := |rqs| - 1;
    if rqs[n].kind == Barrier && rqs[n].epoch == e {
      b := n;
    } else {
      b := BarrierOfEpoch(rqs[..n], e);
      assert rqs[..n][b] == rqs[b];
    }
  }

  // ---------------------------------------------------------------- the invariant

  /** The epoch of the barrier being carried out. */
  function OrigEpoch(rqs: seq<Request>, orig: nat): nat {
    if orig < |rqs| then rqs[orig].epoch else 0
  }

  /** Position in the order that the dispatch queue keeps: epoch by epoch, the barrier of an
      epoch behind its plain requests, and the proxies in place of their barrier. */
  function Key(rqs: seq<Request>, orig: nat, r: Ref): nat {
    match r
    case Rq(id) => if id < |rqs| then 8 * rqs[id].epoch + (if rqs[id].kind == Barrier then 4 else 0) else 0
    case PreFlushRq => 8 * OrigEpoch(rqs, orig) + 1
    case BarRq => 8 * OrigEpoch(rqs, orig) + 2
    case PostFlushRq => 8 * OrigEpoch(rqs, orig) + 3
  }

  /** Everything but special requests is subject to ordering. */
  predicate Subject(rqs: seq<Request>, r: Ref) {
    r.Rq? ==> IsFs(rqs, r)
  }

  ghost predicate SortedHead(rqs: seq<Request>, orig: nat, head: seq<Ref>) {
    forall i, j | 0 <= i < j < |head| && Subject(rqs, head[i]) && Subject(rqs, head[j]) ::
      Key(rqs, orig, head[i]) <= Key(rqs, orig, head[j])
  }

  predicate Known(s: Queue, r: Ref) {
    r.Rq? ==> r.id < |s.rqs|
  }

  /** Neither ended nor stashed away as the barrier being carried out. */
  predicate Live(s: Queue, r: Ref) {
    r.Rq? ==> r.id !in s.ended && (Active(s) ==> r.id != s.orig)
  }

  /** Every submitted request is in exactly one place. */
  ghost predicate Places(s: Queue) {
    && NoDup(s.head) && NoDup(s.elv)
    && (forall r | r in s.head :: Known(s, r) && Live(s, r) && r !in s.elv && r !in s.driver)
    && (forall r | r in s.elv :: r.Rq? && Known(s, r) && Live(s, r) && r !in s.driver)
    && (forall r | r in s.driver :: Known(s, r) && Live(s, r))
    && (forall id | id in s.ended :: id < |s.rqs|)
    && (Active(s) ==> s.orig < |s.rqs| && s.orig !in s.ended)
  }

  predicate Placed(s: Queue, id: nat) {
    || Rq(id) in s.head || Rq(id) in s.elv || Rq(id) in s.driver
    || id in s.ended || (Active(s) && id == s.orig)
  }

  ghost predicate Coverage(s: Queue) {
    forall id | 0 <= id < |s.rqs| :: Placed(s, id)
  }

  /** The scheduler holds plain requests of the current epoch only. */
  ghost predicate ElvOk(s: Queue) {
    forall r | r in s.elv :: r.Rq? && IsPlainId(s.rqs, r.id) && s.rqs[r.id].epoch == CurEpoch(s.rqs) && r !in s.started
  }

  ghost predicate EpochOpen(s: Queue, e: nat) {
    e == CurEpoch(s.rqs) || exists b: nat :: IsBarrierId(s.rqs, b) && Rq(b) in s.head && s.rqs[b].epoch == e
  }

  /** A request that later ones may overtake belongs to an epoch whose barrier is still
      behind it. */
  ghost predicate FlagsOk(s: Queue) {
    forall r | r in s.head && !View(s, r).stop ::
      r.Rq? && IsPlainId(s.rqs, r.id) && EpochOpen(s, s.rqs[r.id].epoch)
  }

  /** All barriers submitted before request `x` are over. */
  ghost predicate Cleared(s: Queue, x: nat) {
    forall b: nat | b < x && IsBarrierId(s.rqs, b) :: b in s.ended
  }

  /** All file system requests submitted before barrier `b` are over. */
  ghost predicate DrainedBefore(s: Queue, b: nat) {
    forall x: nat | x < b && x < |s.rqs| && !s.rqs[x].kind.Special? :: x in s.ended
  }

  ghost predicate ClosedOk(s: Queue) {
    forall b | b in s.ended && IsBarrierId(s.rqs, b) :: DrainedBefore(s, b)
  }

  /** The driver has the request, or has peeked at it and may start it any time. */
  predicate Taken(s: Queue, r: Ref) {
    r in s.driver || (r in s.head && r in s.started)
  }

  ghost predicate TakenOk(s: Queue) {
    && s.driver <= s.started
    && (forall r | r in s.started :: Known(s, r))
    && forall r: Ref | Taken(s, r) && r.Rq? ::
         KindOf(s.rqs, r) != Barrier && (KindOf(s.rqs, r) == Fs ==> Cleared(s, r.id))
  }

  /** The running sequence: its bits, its proxies, and who is ahead of it. */
  ghost predicate SeqOk(s: Queue) {
    && Started in s.ordseq && FirstZero(s.ordseq) != Done && Done !in s.ordseq
    && IsBarrierId(s.rqs, s.orig) && Rq(s.orig) !in s.started
    && s.ordered.DrainBy? && s.ordered == Effective(s.nextOrdered, s.rqs[s.orig])
    && Cleared(s, s.orig)
    && (forall r: Ref | !r.Rq? :: (r in s.head || r in s.driver) <==> ProxyStep(r) !in s.ordseq)
    && (forall r: Ref | !r.Rq? && Taken(s, r) :: FirstZero(s.ordseq) == ProxyStep(r))
    && (Drain in s.ordseq ==> DrainedBefore(s, s.orig))
  }

  ghost predicate IdleOk(s: Queue) {
    forall r: Ref | r in s.head || r in s.driver :: r.Rq?
  }

  function FirstErr(t: seq<Note>): int {
    if t == [] then 0
    else
      var e := FirstErr(t[..|t|-1]);
      if e != 0 then e else t[|t|-1].err
  }

  /** The recorded completions are those of the planned proxies, in order. */
  ghost predicate Follows(t: seq<Note>, plan: seq<Ref>) {
    && |t| <= |plan|
    && forall i | 0 <= i < |t| :: !plan[i].Rq? && t[i].step == ProxyStep(plan[i])
  }

  ghost predicate TrailOk(s: Queue) {
    var plan := Proxies(s.ordered);
    && s.orderr == FirstErr(s.trail)
    && Follows(s.trail, plan)
    && (forall i | 0 <= i < |plan| :: ProxyStep(plan[i]) in s.ordseq <==> i < |s.trail|)
    && forall r: Ref | !r.Rq? && r !in plan :: ProxyStep(r) in s.ordseq
  }

  /** Each ended barrier went through all its proxies once, in order, and ended with the first
      error among them. */
  ghost predicate OutcomeOk(s: Queue, b: nat) {
    && b in s.trails
    && b in s.ended
    && b < |s.rqs|
    && |s.trails[b]| == |Proxies(Effective(s.nextOrdered, s.rqs[b]))|
    && Follows(s.trails[b], Proxies(Effective(s.nextOrdered, s.rqs[b])))
    && s.ended[b] == FirstErr(s.trails[b])
  }

  ghost predicate OutcomesOk(s: Queue) {
    forall b | b in s.ended && IsBarrierId(s.rqs, b) :: OutcomeOk(s, b)
  }

  function FsOf(rqs: seq<Request>, refs: set<Ref>): set<Ref> {
    set r | r in refs && IsFs(rqs, r)
  }

  ghost predicate Core(s: Queue) {
    && s.nextOrdered.DrainBy? && !s.bug
    && Numbered(s.rqs) && s.ordcolor == (CurEpoch(s.rqs) % 2 == 1)
    && Places(s)
    && Coverage(s)
    && SortedHead(s.rqs, s.orig, s.head)
    && ElvOk(s)
    && FlagsOk(s)
    && ClosedOk(s)
    && TakenOk(s)
    && (Active(s) ==> SeqOk(s) && TrailOk(s))
    && (!Active(s) ==> IdleOk(s))
    && OutcomesOk(s)
    && s.inFlight == |FsOf(s.rqs, s.driver)|
  }

  /** A sequence that still waits for the drain has something to wait for. */
  ghost predicate ProgressOk(s: Queue) {
    Active(s) && Drain !in s.ordseq && s.driver == {} ==>
      s.head != [] && ReqSeq(s, s.head[0]) == Drain
  }

  ghost predicate Inv(s: Queue) {
    Core(s) && ProgressOk(s)
  }

  lemma InitInv(o: Ordered)
    requires o.DrainBy?
    ensures Inv(Init(o))
  {}

  // ---------------------------------------------------------------- sequences

  lemma SortedInsert(rqs: seq<Request>, orig: nat, q: seq<Ref>, p: nat, x: Ref)
    requires p <= |q| && SortedHead(rqs, orig, q)
    requires Subject(rqs, x) ==>
      && (forall i | 0 <= i < p && Subject(rqs, q[i]) :: Key(rqs, orig, q[i]) <= Key(rqs, orig, x))
      && (forall i | p <= i < |q| && Subject(rqs, q[i]) :: Key(rqs, orig, x) <= Key(rqs, orig, q[i]))
    ensures SortedHead(rqs, orig, Inserted(q, p, x))
  {}

  lemma SortedWithout(rqs: seq<Request>, orig: nat, q: seq<Ref>, x: Ref)
    requires x in q && SortedHead(rqs, orig, q)
    ensures SortedHead(rqs, orig, Without(q, x))
  {}

  // ---------------------------------------------------------------- moving a request to the dispatch queue

  /** A tail without flags is of the current epoch, so sorted insertion never crosses an epoch. */
  lemma UnflaggedTail(s: Queue, p: nat, k: nat)
    requires SortedHead(s.rqs, s.orig, s.head) && FlagsOk(s)
    requires p <= k < |s.head| && forall i | p <= i < |s.head| :: !View(s, s.head[i]).stop
    ensures s.head[k].Rq? && IsPlainId(s.rqs, s.head[k].id) && s.rqs[s.head[k].id].epoch == CurEpoch(s.rqs)
  {}

  lemma KeyAtMost(s: Queue, r: Ref)
    requires Numbered(s.rqs) && Known(s, r)
    requires !r.Rq? ==> IsBarrierId(s.rqs, s.orig)
    ensures Key(s.rqs, s.orig, r) <= 8 * CurEpoch(s.rqs)
  {
    EpochAt(s.rqs, if r.Rq? then r.id else s.orig);
  }

  lemma NoopSorted(s: Queue)
    requires Numbered(s.rqs) && Places(s) && ElvOk(s) && FlagsOk(s) && SortedHead(s.rqs, s.orig, s.head)
    requires if Active(s) then IsBarrierId(s.rqs, s.orig) else IdleOk(s)
    requires s.elv != []
    ensures SortedHead(s.rqs, s.orig, NoopDispatch(s).head)
  {
    var r := s.elv[0];
    var p := InsertAt(Views(s), View(s, r), s.endSector);
    assert r in s.elv;
    forall i | 0 <= i < p ensures Key(s.rqs, s.orig, s.head[i]) <= Key(s.rqs, s.orig, r) {
      assert s.head[i] in s.head;
      KeyAtMost(s, s.head[i]);
    }
    forall i | p <= i < |s.head| ensures !View(s, s.head[i]).stop {
      StaysInRun(Views(s), View(s, r), s.endSector);
      assert !Views(s)[i].stop;
    }
    forall i | p <= i < |s.head| ensures Key(s.rqs, s.orig, r) <= Key(s.rqs, s.orig, s.head[i]) {
      UnflaggedTail(s, p, i);
    }
    SortedInsert(s.rqs, s.orig, s.head, p, r);
  }

  lemma NoopPlaces(s: Queue)
    requires Places(s) && Coverage(s) && s.elv != []
    ensures Places(NoopDispatch(s)) && Coverage(NoopDispatch(s))
    ensures forall y :: y in NoopDispatch(s).head <==> y in s.head || y == s.elv[0]
    ensures forall y :: y in NoopDispatch(s).elv <==> y in s.elv && y != s.elv[0]
  {
    var d := NoopDispatch(s);
    var r := s.elv[0];
    assert r in s.elv;
    InsertedMembers(s.head, InsertAt(Views(s), View(s, r), s.endSector), r);
    assert forall y | y in d.elv :: y in s.elv && y != r;
    assert forall y | y in s.elv :: y in d.elv || y == r;
    forall id | 0 <= id < |d.rqs| ensures Placed(d, id) { assert Placed(s, id); }
  }

  lemma NoopFlags(s: Queue)
    requires FlagsOk(s) && ElvOk(s) && s.elv != []
    requires forall y :: y in NoopDispatch(s).head <==> y in s.head || y == s.elv[0]
    ensures FlagsOk(NoopDispatch(s))
  {}

  /** A request that the driver has not seen arrives in the dispatch queue: nothing that the
      driver or the sequence depends on changes. */
  lemma UnseenArrives(s: Queue, d: Queue, x: Ref)
    requires d == s.(head := d.head, elv := d.elv)
    requires x.Rq? && x !in s.started
    requires forall y :: y in d.head <==> y in s.head || y == x
    ensures TakenOk(s) ==> TakenOk(d)
    ensures SeqOk(s) ==> SeqOk(d)
    ensures IdleOk(s) ==> IdleOk(d)
  {}

  lemma NoopKeeps(s: Queue)
    requires Core(s) && s.elv != []
    ensures Core(NoopDispatch(s))
  {
    var d := NoopDispatch(s);
    assert s.elv[0] in s.elv;
    NoopPlaces(s);
    NoopSorted(s);
    NoopFlags(s);
    UnseenArrives(s, d, s.elv[0]);
    assert ClosedOk(d) by {
      assert forall b: nat :: DrainedBefore(s, b) == DrainedBefore(d, b);
    }
    assert OutcomesOk(d) by {
      assert forall b: nat :: OutcomeOk(s, b) == OutcomeOk(d, b);
    }
  }

  // ---------------------------------------------------------------- what stands at the head

  /** Every barrier submitted after the one being carried out waits in the dispatch queue. */
  lemma PendingBarrier(s: Queue, b: nat)
    requires Core(s) && Active(s) && IsBarrierId(s.rqs, b) && s.orig < b
    ensures Rq(b) in s.head
  {
    assert Placed(s, b);
    assert b in s.ended ==> DrainedBefore(s, b);
    assert Taken(s, Rq(b)) ==> KindOf(s.rqs, Rq(b)) != Barrier;
  }

  /** A request two epochs ahead stands behind the next barrier, which has to wait. */
  lemma NextBarrierAhead(s: Queue, i: nat) returns (j: nat)
    requires Core(s) && Active(s) && i < |s.head|
    requires var r := s.head[i]; r.Rq? && IsFs(s.rqs, r) && s.rqs[r.id].epoch > s.rqs[s.orig].epoch + 1
    ensures j < i && ReqSeq(s, s.head[j]) == Done
  {
    hide FlagsOk, ElvOk, ClosedOk, TakenOk, OutcomesOk, TrailOk, Numbered;
    var e := s.rqs[s.orig].epoch;
    EpochAt(s.rqs, s.head[i].id);
    EpochAt(s.rqs, s.orig);
    var b := BarrierOfEpoch(s.rqs, e + 1);
    OrderByEpoch(s.rqs, s.orig, b);
    PendingBarrier(s, b);
    EpochAt(s.rqs, b);
    j :| 0 <= j < |s.head| && s.head[j] == Rq(b);
    assert Subject(s.rqs, s.head[j]) && Subject(s.rqs, s.head[i]);
    assert Key(s.rqs, s.orig, s.head[j]) < Key(s.rqs, s.orig, s.head[i]);
  }

  /** With a sequence running, a later file system request at the head belongs to the very
      next epoch, so its colour differs and it has to wait. */
  lemma HeadLate(s: Queue)
    requires Core(s) && Active(s) && s.head != []
    requires var r := s.head[0]; r.Rq? && IsFs(s.rqs, r) && s.orig < r.id
    ensures ReqSeq(s, s.head[0]) == Done
  {
    var x := s.head[0].id;
    EpochMono(s.rqs, s.orig, x);
    EpochAt(s.rqs, x);
    EpochAt(s.rqs, s.orig);
    if s.rqs[x].epoch > s.rqs[s.orig].epoch + 1 {
      var j := NextBarrierAhead(s, 0);
      assert false;
    }
  }

  /** An earlier file system request that is not over is of the epoch being drained. */
  lemma EarlyIsOfEpoch(s: Queue, x: nat)
    requires Core(s) && Active(s)
    requires x < s.orig && !s.rqs[x].kind.Special? && x !in s.ended
    ensures s.rqs[x].kind == Fs && s.rqs[x].epoch == s.rqs[s.orig].epoch
    ensures ReqSeq(s, Rq(x)) == Drain && Drain !in s.ordseq
    ensures Cleared(s, x)
  {
    EpochMono(s.rqs, x, s.orig);
    EpochAt(s.rqs, s.orig);
    if s.rqs[x].epoch < s.rqs[s.orig].epoch {
      var b := BarrierOfEpoch(s.rqs, s.rqs[x].epoch);
      OrderByEpoch(s.rqs, x, b);
      OrderByEpoch(s.rqs, b, s.orig);
      assert false;
    }
    EpochAt(s.rqs, x);
  }

  /** Submission order follows the epochs. */
  lemma OrderByEpoch(rqs: seq<Request>, x: nat, y: nat)
    requires Numbered(rqs) && x < |rqs| && y < |rqs| && x != y
    requires rqs[x].epoch < rqs[y].epoch || (rqs[x].epoch == rqs[y].epoch && rqs[y].kind == Barrier)
    ensures x < y
  {
    if y < x { EpochMono(rqs, y, x); }
  }

  // ---------------------------------------------------------------- submitting

  /** While the sequence waits for the drain and the driver has nothing, draining the scheduler
      leaves the head of the queue alone. */
  lemma NoopProgress(s: Queue)
    requires Inv(s) && s.elv != []
    ensures ProgressOk(NoopDispatch(s))
  {
    if Active(s) && Drain !in s.ordseq && s.driver == {} {
      var p := InsertAt(Views(s), View(s, s.elv[0]), s.endSector);
      if p == 0 {
        forall i | p <= i < |s.head| ensures !View(s, s.head[i]).stop {
          StaysInRun(Views(s), View(s, s.elv[0]), s.endSector);
          assert !Views(s)[i].stop;
        }
        UnflaggedTail(s, 0, 0);
        EpochAt(s.rqs, s.orig);
        OrderByEpoch(s.rqs, s.orig, s.head[0].id);
        HeadLate(s);
        assert false;
      }
      assert NoopDispatch(s).head[0] == s.head[0];
    }
  }

  lemma {:induction false} DrainKeeps(s: Queue)
    requires Inv(s)
    ensures Inv(DrainElevator(s))
    decreases |s.elv|
  {
    if s.elv != [] {
      NoopKeeps(s);
      NoopProgress(s);
      DrainKeeps(NoopDispatch(s));
    }
  }

  /** The fields that only the sorted insertion reads. */
  lemma BoundaryFrame(s: Queue, e: int, b: Option<Ref>)
    requires Inv(s)
    ensures Inv(s.(endSector := e, boundary := b))
  {
    var d := s.(endSector := e, boundary := b);
    assert forall r :: View(s, r) == View(d, r);
    assert FlagsOk(d) by {
      assert forall e: nat :: EpochOpen(s, e) ==> EpochOpen(d, e);
    }
    assert Coverage(d) by {
      assert forall id: nat :: Placed(s, id) == Placed(d, id);
    }
    assert forall r: Ref :: Taken(d, r) <==> Taken(s, r);
    assert forall b: nat :: DrainedBefore(s, b) == DrainedBefore(d, b);
    assert forall b: nat :: Cleared(s, b) == Cleared(d, b);
    assert forall b: nat :: OutcomeOk(s, b) == OutcomeOk(d, b);
  }

  /** The table grows by one entry; what was known before keeps its kind and its key.  The colour
      stays the parity of the epoch exactly if the flag is honest. */
  lemma TableGrows(s: Queue, b: Bio)
    requires Numbered(s.rqs) && s.ordcolor == (CurEpoch(s.rqs) % 2 == 1)
    ensures var d := Register(s, b);
            && Numbered(d.rqs) && (d.ordcolor == (CurEpoch(d.rqs) % 2 == 1) <==> b.kind != Special(true))
            && CurEpoch(d.rqs) == CurEpoch(s.rqs) + (if b.kind == Barrier then 1 else 0)
            && (forall x | Known(s, x) :: KindOf(d.rqs, x) == KindOf(s.rqs, x))
  {
    var d := Register(s, b);
    assert d.rqs[..|s.rqs|] == s.rqs;
  }

  ghost predicate CanInsert(s: Queue, b: Bio, where: Where) {
    && (b.kind.Special? ==> where != Sort)
    && (!b.kind.Special? ==> where != Front)
    && (where == Sort ==> b.kind == Fs && !b.soft)
    && (where == Back ==> s.elv == [])
  }

  /** The new request is in exactly one of the two lists. */
  ghost predicate Enters(s: Queue, d: Queue, r: Ref, sorted: bool) {
    && |d.rqs| == |s.rqs| + 1 && r == Rq(|s.rqs|) && NoDup(d.head) && NoDup(d.elv)
    && d == s.(rqs := d.rqs, soft := d.soft, ordcolor := d.ordcolor, head := d.head, elv := d.elv)
    && (forall y :: y in d.head <==> y in s.head || (y == r && !sorted))
    && (forall y :: y in d.elv <==> y in s.elv || (y == r && sorted))
  }

  lemma EntersPlaces(s: Queue, d: Queue, r: Ref, sorted: bool)
    requires Places(s) && Enters(s, d, r, sorted)
    ensures Places(d)
  {
    hide NoDup;
  }

  lemma InsertEnters(s: Queue, b: Bio, where: Where)
    requires Places(s)
    ensures Enters(s, Insert(s, b, where), Rq(|s.rqs|), where == Sort)
  {
    hide NoDup;
    var r := Rq(|s.rqs|);
    assert r !in s.head && r !in s.elv;
    NoDupEnds(s.head, r);
    NoDupEnds(s.elv, r);
  }

  lemma InsertPlaces(s: Queue, b: Bio, where: Where)
    requires Places(s) && CanInsert(s, b, where)
    ensures Places(Insert(s, b, where))
  {
    hide Places, Enters, Insert;
    InsertEnters(s, b, where);
    EntersPlaces(s, Insert(s, b, where), Rq(|s.rqs|), where == Sort);
  }

  lemma NoDupEnds(q: seq<Ref>, r: Ref)
    requires NoDup(q)
    ensures r !in q ==> NoDup([r] + q) && NoDup(q + [r])
  {}

  lemma InsertCoverage(s: Queue, b: Bio, where: Where)
    requires Coverage(s)
    ensures Coverage(Insert(s, b, where))
  {
    var d := Insert(s, b, where);
    forall id | 0 <= id < |d.rqs| ensures Placed(d, id) {
      assert id < |s.rqs| ==> Placed(s, id);
    }
  }

  lemma KeyFrame(s: Queue, b: Bio, x: Ref)
    requires Known(s, x) && (!x.Rq? ==> s.orig < |s.rqs|)
    ensures Key(Register(s, b).rqs, s.orig, x) == Key(s.rqs, s.orig, x)
    ensures Subject(Register(s, b).rqs, x) == Subject(s.rqs, x)
  {}

  lemma SortedFrame(s: Queue, b: Bio)
    requires SortedHead(s.rqs, s.orig, s.head)
    requires forall x | x in s.head :: Known(s, x) && (!x.Rq? ==> s.orig < |s.rqs|)
    ensures SortedHead(Register(s, b).rqs, s.orig, s.head)
  {
    var d := Register(s, b);
    forall i, j | 0 <= i < j < |s.head| && Subject(d.rqs, s.head[i]) && Subject(d.rqs, s.head[j])
      ensures Key(d.rqs, s.orig, s.head[i]) <= Key(d.rqs, s.orig, s.head[j])
    {
      assert s.head[i] in s.head && s.head[j] in s.head;
      KeyFrame(s, b, s.head[i]);
      KeyFrame(s, b, s.head[j]);
    }
  }

  lemma InsertSorted(s: Queue, b: Bio, where: Where)
    requires Numbered(s.rqs) && SortedHead(s.rqs, s.orig, s.head) && CanInsert(s, b, where)
    requires forall x | x in s.head :: Known(s, x) && (!x.Rq? ==> IsBarrierId(s.rqs, s.orig))
    ensures SortedHead(Insert(s, b, where).rqs, s.orig, Insert(s, b, where).head)
  {
    hide Numbered, CurEpoch;
    var d := Insert(s, b, where);
    var r := Rq(|s.rqs|);
    SortedFrame(s, b);
    if where == Front {
      assert d.head == Inserted(s.head, 0, r);
      SortedInsert(d.rqs, s.orig, s.head, 0, r);
    } else if where == Back {
      assert d.head == Inserted(s.head, |s.head|, r);
      forall i | 0 <= i < |s.head| ensures Key(d.rqs, s.orig, s.head[i]) <= Key(d.rqs, s.orig, r) {
        assert s.head[i] in s.head;
        KeyFrame(s, b, s.head[i]);
        KeyAtMost(s, s.head[i]);
      }
      SortedInsert(d.rqs, s.orig, s.head, |s.head|, r);
    }
  }

  lemma InsertElv(s: Queue, b: Bio, where: Where)
    requires Numbered(s.rqs) && s.ordcolor == (CurEpoch(s.rqs) % 2 == 1)
    requires ElvOk(s) && TakenOk(s) && CanInsert(s, b, where)
    ensures ElvOk(Insert(s, b, where))
  {}

  lemma InsertFlags(s: Queue, b: Bio, where: Where)
    requires Numbered(s.rqs) && s.ordcolor == (CurEpoch(s.rqs) % 2 == 1)
    requires Places(s) && ElvOk(s) && FlagsOk(s) && CanInsert(s, b, where)
    ensures FlagsOk(Insert(s, b, where))
  {}

  /** Neither what is over nor what the driver has sees the new table entry. */
  lemma GrowthFrame(s: Queue, b: Bio, where: Where)
    requires Places(s) && ClosedOk(s) && OutcomesOk(s) && TakenOk(s)
    ensures var d := Insert(s, b, where);
            && ClosedOk(d) && OutcomesOk(d) && TakenOk(d)
            && FsOf(d.rqs, d.driver) == FsOf(s.rqs, s.driver)
  {}

  lemma GrowthSeq(s: Queue, b: Bio, where: Where)
    requires TakenOk(s)
    ensures SeqOk(s) ==> SeqOk(Insert(s, b, where))
    ensures IdleOk(s) ==> IdleOk(Insert(s, b, where))
  {}

  lemma InsertProgress(s: Queue, b: Bio, where: Where)
    requires ProgressOk(s) && Places(s) && CanInsert(s, b, where)
    requires Active(s) ==> s.orig < |s.rqs|
    ensures ProgressOk(Insert(s, b, where))
  {}

  lemma HeadKnown(s: Queue)
    requires Core(s)
    ensures forall x | x in s.head :: Known(s, x) && (!x.Rq? ==> IsBarrierId(s.rqs, s.orig))
    ensures Active(s) ==> s.orig < |s.rqs|
  {
    hide Numbered, Coverage, SortedHead, ElvOk, FlagsOk, ClosedOk, TakenOk, OutcomesOk, TrailOk;
  }

  lemma GrowthTrail(s: Queue, b: Bio, where: Where)
    ensures TrailOk(s) ==> TrailOk(Insert(s, b, where))
  {}

  lemma InsertKeeps(s: Queue, b: Bio, where: Where)
    requires Inv(s) && CanInsert(s, b, where)
    ensures Inv(Insert(s, b, where)) <==> b.kind != Special(true)
  {
    hide Places, Coverage, SortedHead, ElvOk, FlagsOk, ClosedOk, TakenOk, OutcomesOk, SeqOk, IdleOk, ProgressOk, FsOf;
    TableGrows(s, b);
    HeadKnown(s);
    GrowthTrail(s, b, where);
    InsertPlaces(s, b, where);
    InsertCoverage(s, b, where);
    InsertSorted(s, b, where);
    InsertElv(s, b, where);
    InsertFlags(s, b, where);
    GrowthFrame(s, b, where);
    GrowthSeq(s, b, where);
    InsertProgress(s, b, where);
  }

  lemma SubmitKeeps(s: Queue, b: Bio, where: Where)
    requires Inv(s) && Enabled(s, SubmitA(b, where))
    ensures Inv(Submit(s, b, where)) <==> HonestFlag(SubmitA(b, where))
  {
    hide Inv, Insert, DrainElevator;
    var s1 := Bounded(s, b);
    BoundaryFrame(s, s1.endSector, s1.boundary);
    assert s1 == s.(endSector := s1.endSector, boundary := s1.boundary);
    DrainKeeps(s1);
    var target := Target(b, where);
    InsertKeeps(if target == Back then DrainElevator(s1) else s1, b, target);
  }

  // ---------------------------------------------------------------- the driver starts a request

  lemma StartPlaces(s: Queue, r: Ref)
    requires Places(s) && Coverage(s) && r in s.head
    ensures Places(Start(s, r)) && Coverage(Start(s, r))
  {
    var d := Start(s, r);
    WithoutMembers(s.head, r);
    forall id | 0 <= id < |d.rqs| ensures Placed(d, id) { assert Placed(s, id); }
  }

  lemma FsOfAdd(rqs: seq<Request>, refs: set<Ref>, r: Ref)
    requires r !in refs
    ensures |FsOf(rqs, refs + {r})| == |FsOf(rqs, refs)| + (if IsFs(rqs, r) then 1 else 0)
  {
    if IsFs(rqs, r) {
      assert FsOf(rqs, refs + {r}) == FsOf(rqs, refs) + {r};
    } else {
      assert FsOf(rqs, refs + {r}) == FsOf(rqs, refs);
    }
  }

  /** Moves between the head of the queue and the driver: the queue keeps its barriers. */
  lemma FlagsFrame(s: Queue, d: Queue)
    requires FlagsOk(s) && d.rqs == s.rqs
    requires forall b: nat | IsBarrierId(s.rqs, b) :: Rq(b) in s.head ==> Rq(b) in d.head
    requires forall x | x in d.head && !View(d, x).stop :: x in s.head && !View(s, x).stop
    ensures FlagsOk(d)
  {}

  lemma StartKeeps(s: Queue, r: Ref)
    requires Inv(s) && Enabled(s, StartA(r))
    ensures Inv(Start(s, r))
  {
    hide Numbered, SortedHead, ClosedOk, OutcomesOk, FsOf, Coverage, Proxies, FirstErr, Follows;
    var d := Start(s, r);
    WithoutMembers(s.head, r);
    StartPlaces(s, r);
    SortedWithout(s.rqs, s.orig, s.head, r);
    assert Taken(s, r);
    FlagsFrame(s, d);
    FsOfAdd(s.rqs, s.driver, r);
    StartRest(s, r);
  }

  lemma StartRest(s: Queue, r: Ref)
    requires r in s.head && r in s.started && NoDup(s.head)
    requires ClosedOk(s) && TakenOk(s) && OutcomesOk(s)
    ensures var d := Start(s, r);
            && ClosedOk(d) && TakenOk(d) && OutcomesOk(d)
            && (SeqOk(s) ==> SeqOk(d))
            && (IdleOk(s) ==> IdleOk(d))
  {
    var d := Start(s, r);
    WithoutMembers(s.head, r);
    assert forall y: Ref :: Taken(d, y) <==> Taken(s, y);
    assert forall x: nat :: DrainedBefore(s, x) == DrainedBefore(d, x);
    assert forall x: nat :: Cleared(s, x) == Cleared(d, x);
    assert forall x: nat :: OutcomeOk(s, x) == OutcomeOk(d, x);
  }

  // ---------------------------------------------------------------- the driver gives a request back

  /** No unfinished request is older than an epoch the driver has been allowed into. */
  lemma NotOlder(s: Queue, x: nat, y: nat)
    requires Numbered(s.rqs) && ClosedOk(s)
    requires x < |s.rqs| && Cleared(s, x)
    requires y < |s.rqs| && !s.rqs[y].kind.Special? && y !in s.ended
    ensures s.rqs[x].epoch <= s.rqs[y].epoch
  {
    if s.rqs[y].epoch < s.rqs[x].epoch {
      EpochAt(s.rqs, x);
      var b := BarrierOfEpoch(s.rqs, s.rqs[y].epoch);
      OrderByEpoch(s.rqs, b, x);
      assert DrainedBefore(s, b);
      if y != b { OrderByEpoch(s.rqs, y, b); }
      assert false;
    }
  }

  /** A submitted request goes back to the very front, ahead of everything of its epoch. */
  lemma RequeueRq(s: Queue, r: Ref)
    requires Core(s) && r in s.driver && r.Rq?
    ensures RequeueIndex(s, r) == 0
    ensures Active(s) ==> ReqSeq(s, r) == Drain
    ensures IsFs(s.rqs, r) ==>
              forall i | 0 <= i < |s.head| && Subject(s.rqs, s.head[i]) ::
                Key(s.rqs, s.orig, r) <= Key(s.rqs, s.orig, s.head[i])
  {
    assert Taken(s, r);
    if IsFs(s.rqs, r) {
      if Active(s) {
        assert !(s.orig < r.id);
        EarlyIsOfEpoch(s, r.id);
      }
      forall i | 0 <= i < |s.head| && Subject(s.rqs, s.head[i])
        ensures Key(s.rqs, s.orig, r) <= Key(s.rqs, s.orig, s.head[i])
      {
        assert s.head[i] in s.head;
        if s.head[i].Rq? { NotOlder(s, r.id, s.head[i].id); }
      }
    }
    assert s.head != [] ==> Rank(Drain) <= Rank(ReqSeq(s, s.head[0]));
  }

  /** Only special requests stand ahead of the place of a proxy that the driver gives back. */
  lemma OnlySpecialsAhead(s: Queue, r: Ref, p: nat, i: nat)
    requires Core(s) && r in s.driver && !r.Rq?
    requires i < p <= |s.head|
    requires forall k | 0 <= k < p :: Rank(ReqSeq(s, s.head[k])) < Rank(ProxyStep(r))
    ensures !Subject(s.rqs, s.head[i])
  {
    hide FlagsOk, ElvOk, ClosedOk, OutcomesOk, TrailOk, Numbered, SortedHead;
    var x := s.head[i];
    assert x in s.head && Taken(s, r);
    if x.Rq? && IsFs(s.rqs, x) {
      DrainColoredIsFar(s, x.id);
      var j := NextBarrierAhead(s, i);
      assert false;
    }
  }

  /** After the drain, an unfinished request of the sequence's colour is two epochs ahead. */
  lemma DrainColoredIsFar(s: Queue, x: nat)
    requires Core(s) && Active(s) && Drain in s.ordseq
    requires x < |s.rqs| && x != s.orig && x !in s.ended && !s.rqs[x].kind.Special? && ReqSeq(s, Rq(x)) == Drain
    ensures s.rqs[x].epoch > s.rqs[s.orig].epoch + 1
  {
    hide FlagsOk, ElvOk, OutcomesOk, TrailOk, SortedHead, FsOf;
    assert s.orig < x;
    EpochMono(s.rqs, s.orig, x);
    EpochAt(s.rqs, x);
    EpochAt(s.rqs, s.orig);
  }

  lemma BehindProxy(s: Queue, r: Ref, y: Ref)
    requires Core(s) && r in s.driver && !r.Rq?
    requires y in s.head && Rank(ProxyStep(r)) <= Rank(ReqSeq(s, y))
    ensures Subject(s.rqs, y) && Key(s.rqs, s.orig, r) <= Key(s.rqs, s.orig, y)
  {
    assert Taken(s, r);
    if y.Rq? {
      assert s.orig < y.id;
      EpochMono(s.rqs, s.orig, y.id);
    }
  }

  lemma ProxySorted(s: Queue, r: Ref, p: nat)
    requires Core(s) && r in s.driver && !r.Rq? && p <= |s.head|
    requires forall k | 0 <= k < p :: Rank(ReqSeq(s, s.head[k])) < Rank(ProxyStep(r))
    requires p < |s.head| ==> Rank(ProxyStep(r)) <= Rank(ReqSeq(s, s.head[p]))
    ensures SortedHead(s.rqs, s.orig, Inserted(s.head, p, r))
  {
    forall i | 0 <= i < p ensures !Subject(s.rqs, s.head[i]) {
      OnlySpecialsAhead(s, r, p, i);
    }
    if p < |s.head| {
      assert s.head[p] in s.head;
      BehindProxy(s, r, s.head[p]);
    }
    SortedInsert(s.rqs, s.orig, s.head, p, r);
  }

  lemma SameIndex(s: Queue, r: Ref)
    ensures RequeueIndex(Returned(s, r), r) == RequeueIndex(s, r)
  {}

  lemma RequeueSorted(s: Queue, r: Ref)
    requires Core(s) && r in s.driver
    ensures SortedHead(s.rqs, s.orig, Requeue(s, r).head)
  {
    SameIndex(s, r);
    if r.Rq? {
      RequeueRq(s, r);
      SortedInsert(s.rqs, s.orig, s.head, 0, r);
    } else {
      ProxySorted(s, r, RequeueIndex(s, r));
    }
  }

  lemma RequeuePlaces(s: Queue, r: Ref)
    requires Places(s) && Coverage(s) && r in s.driver
    ensures Places(Requeue(s, r)) && Coverage(Requeue(s, r))
    ensures forall y :: y in Requeue(s, r).head <==> y in s.head || y == r
  {
    var d := Requeue(s, r);
    InsertedMembers(s.head, RequeueIndex(Returned(s, r), r), r);
    forall id | 0 <= id < |d.rqs| ensures Placed(d, id) { assert Placed(s, id); }
  }

  lemma RequeueRest(s: Queue, r: Ref)
    requires r in s.driver && ClosedOk(s) && TakenOk(s) && OutcomesOk(s)
    requires forall y :: y in Requeue(s, r).head <==> y in s.head || y == r
    ensures var d := Requeue(s, r);
            && ClosedOk(d) && TakenOk(d) && OutcomesOk(d)
            && (SeqOk(s) ==> SeqOk(d))
            && (IdleOk(s) ==> IdleOk(d))
  {
    var d := Requeue(s, r);
    assert forall y: Ref :: Taken(d, y) ==> Taken(s, y);
    assert forall x: nat :: DrainedBefore(s, x) == DrainedBefore(d, x);
    assert forall x: nat :: Cleared(s, x) == Cleared(d, x);
    assert forall x: nat :: OutcomeOk(s, x) == OutcomeOk(d, x);
  }

  lemma RequeueFlags(s: Queue, r: Ref)
    requires FlagsOk(s)
    requires forall y :: y in Requeue(s, r).head <==> y in s.head || y == r
    ensures FlagsOk(Requeue(s, r))
  {}

  lemma RequeueCount(s: Queue, r: Ref)
    requires r in s.driver && s.driver <= s.started && s.inFlight == |FsOf(s.rqs, s.driver)|
    ensures Requeue(s, r).inFlight == |FsOf(s.rqs, Requeue(s, r).driver)|
  {
    FsOfAdd(s.rqs, s.driver - {r}, r);
    assert s.driver - {r} + {r} == s.driver;
  }

  lemma RequeueSeq(s: Queue, r: Ref)
    requires r in s.driver && ElvOk(s) && (if Active(s) then SeqOk(s) && TrailOk(s) else IdleOk(s))
    requires forall y :: y in Requeue(s, r).head <==> y in s.head || y == r
    ensures var d := Requeue(s, r); ElvOk(d) && (if Active(d) then SeqOk(d) && TrailOk(d) else IdleOk(d))
  {
    hide FirstZero, FirstErr, Follows, RequeueIndex, Inserted;
  }

  lemma RequeueKeeps(s: Queue, r: Ref)
    requires Inv(s) && Enabled(s, RequeueA(r))
    ensures Inv(Requeue(s, r))
  {
    hide SeqOk, TrailOk, IdleOk, SortedHead, Coverage, ClosedOk, OutcomesOk, ProgressOk;
    var d := Requeue(s, r);
    RequeueSorted(s, r);
    RequeuePlaces(s, r);
    RequeueFlags(s, r);
    RequeueRest(s, r);
    RequeueCount(s, r);
    RequeueProgress(s, r);
    RequeueSeq(s, r);
    assert d.rqs == s.rqs && d.orig == s.orig && d.elv == s.elv && d.ordseq == s.ordseq && d.trail == s.trail;
  }

  lemma RequeueProgress(s: Queue, r: Ref)
    requires Core(s) && r in s.driver
    ensures ProgressOk(Requeue(s, r))
  {
    var d := Requeue(s, r);
    if Active(s) && Drain !in s.ordseq {
      assert Taken(s, r);
      assert r.Rq?;
      RequeueRq(s, r);
      SameIndex(s, r);
      assert d.head[0] == r && ReqSeq(d, r) == ReqSeq(s, r);
    }
  }
}
