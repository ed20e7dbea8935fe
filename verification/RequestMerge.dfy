/** Requests under merging: what keeps `nr_phys_segments` an upper bound of the scatter list. */
module RequestMerge {
  import opened Lists
  import opened Segments

  /** A bio; `phys`, `front` and `back` are bi_phys_segments, bi_seg_front_size and
      bi_seg_back_size, and `valid` is BIO_SEG_VALID. */
  datatype Bio = Bio(bvecs: seq<Bvec>, sectors: nat, phys: nat, front: nat, back: nat, valid: bool)

  datatype Request = Request(bios: seq<Bio>, nr: nat, sectors: nat, pc: bool, special: bool, noMerge: bool)

  function AllBvecs(bios: seq<Bio>): seq<Bvec> {
    if bios == [] then [] else AllBvecs(bios[..|bios|-1]) + bios[|bios|-1].bvecs
  }

  /** A bio with data; if it claims valid segment information, that information is accurate. */
  ghost predicate BioOk(q: Queue, b: Bio) {
    b.bvecs != [] && (b.valid ==> Accurate(q, b.bvecs, b.phys, b.front, b.back))
  }

  ghost predicate WithData(bios: seq<Bio>) {
    bios != [] && forall i | 0 <= i < |bios| :: bios[i].bvecs != []
  }

  /** The count and the two size fields at the ends of the bio list are accurate. */
  ghost predicate RequestOk(q: Queue, r: Request) {
    && WithData(r.bios)
    && Accurate(q, AllBvecs(r.bios), r.nr, r.bios[0].front, r.bios[|r.bios|-1].back)
  }

  lemma DataNonempty(bios: seq<Bio>)
    requires WithData(bios)
    ensures AllBvecs(bios) != []
  {
    assert bios[|bios|-1].bvecs != [];
  }

  lemma {:induction false} AllBvecsConcat(a: seq<Bio>, b: seq<Bio>)
    ensures AllBvecs(a + b) == AllBvecs(a) + AllBvecs(b)
    decreases |b|
  {
    if b == [] {
      assert a + b == a;
    } else {
      var n := |b| - 1;
      AllBvecsConcat(a, b[..n]);
      assert (a + b)[..|a + b|-1] == a + b[..n];
      Assoc(AllBvecs(a), AllBvecs(b[..n]), b[n].bvecs);
    }
  }

  function Max(a: nat, b: nat): nat {
    if a > b then a else b
  }

  function SetFront(bios: seq<Bio>, n: nat): seq<Bio>
    requires bios != []
  {
    bios[0 := bios[0].(front := n)]
  }

  function SetBack(bios: seq<Bio>, n: nat): seq<Bio>
    requires bios != []
  {
    bios[|bios|-1 := bios[|bios|-1].(back := n)]
  }

  datatype Counted = Counted(bios: seq<Bio>, nr: nat)

  /** __blk_recalc_rq_segments. */
  function Recalc(q: Queue, bios: seq<Bio>): Counted {
    var g := Counting(q, AllBvecs(bios));
    if bios == [] || g == Nil then Counted(bios, 0)
    else Counted(Widen(bios, Bytes(First(g)), Bytes(g.last)), Len(g))
  }

  /** The size fields at the two ends, raised to at least `f` and `k`. */
  function Widen(bios: seq<Bio>, f: nat, k: nat): seq<Bio>
    requires bios != []
  {
    var b1 := SetFront(bios, Max(bios[0].front, f));
    SetBack(b1, Max(b1[|b1|-1].back, k))
  }

  /** The segments of the counting pass. */
  function Counting(q: Queue, bvs: seq<Bvec>): Parts {
    Segs(q, true, bvs, |bvs|)
  }

  /** blk_recount_segments. */
  function Recount(q: Queue, b: Bio): Bio {
    var c := Recalc(q, [b]);
    if |c.bios| == 1 then c.bios[0].(phys := c.nr, valid := true) else b
  }

  function Refreshed(q: Queue, b: Bio): Bio {
    if b.valid then b else Recount(q, b)
  }

  function SectorLimit(q: Queue, r: Request): nat {
    if r.pc then q.maxHwSectors else q.maxSectors
  }

  datatype Outcome = Outcome(rq: Request, ok: bool)

  /** ll_new_hw_segment. */
  function NewHwSegment(q: Queue, r: Request, b: Bio): Outcome {
    if r.nr + b.phys > q.maxHwSegs || r.nr + b.phys > q.maxPhysSegs then Outcome(r.(noMerge := true), false)
    else Outcome(r.(nr := r.nr + b.phys), true)
  }

  /** Both bios have been asked for their segments; on success the bio joins the list. */
  function Attach(q: Queue, r: Request, b: Bio, back: bool): Outcome {
    var o := NewHwSegment(q, r, b);
    if !o.ok then o
    else Outcome(o.rq.(bios := if back then r.bios + [b] else [b] + r.bios, sectors := r.sectors + b.sectors), true)
  }

  /** ll_back_merge_fn, and on success the bio appended to the request. */
  function BackMerge(q: Queue, r: Request, b: Bio): Outcome
    requires r.bios != []
  {
    if r.sectors + b.sectors > SectorLimit(q, r) then Outcome(r.(noMerge := true), false)
    else
      var n := |r.bios| - 1;
      Attach(q, r.(bios := r.bios[n := Refreshed(q, r.bios[n])]), Refreshed(q, b), true)
  }

  /** ll_front_merge_fn, and on success the bio put in front. */
  function FrontMerge(q: Queue, r: Request, b: Bio): Outcome
    requires r.bios != []
  {
    if r.sectors + b.sectors > SectorLimit(q, r) then Outcome(r.(noMerge := true), false)
    else Attach(q, r.(bios := r.bios[0 := Refreshed(q, r.bios[0])]), Refreshed(q, b), false)
  }

  /** blk_phys_contig_segment for bios with data. */
  predicate Contiguous(q: Queue, a: Bio, b: Bio)
    requires a.bvecs != [] && b.bvecs != []
  {
    && q.cluster
    && a.back + b.front <= q.maxSegSize
    && Joins(q, a.bvecs[|a.bvecs|-1], b.bvecs[0])
  }

  datatype Pair = Pair(rq: Request, next: Request, ok: bool)

  /** The size fields that ll_merge_requests_fn updates before it knows whether the merge is
      within the limits. */
  function Resized(q: Queue, r: Request, n: Request): Pair
    requires WithData(r.bios) && WithData(n.bios)
  {
    var size := r.bios[|r.bios|-1].back + n.bios[0].front;
    if Contiguous(q, r.bios[|r.bios|-1], n.bios[0]) then
      Pair(if r.nr == 1 then r.(bios := SetFront(r.bios, size)) else r,
           if n.nr == 1 then n.(bios := SetBack(n.bios, size)) else n, true)
    else Pair(r, n, false)
  }

  /** ll_merge_requests_fn, and on success the bio lists joined by attempt_merge; `next` is then
      gone. */
  function MergeRequests(q: Queue, r: Request, n: Request): Pair
    requires WithData(r.bios) && WithData(n.bios) && r.nr + n.nr > 0
  {
    if r.special || n.special || r.sectors + n.sectors > q.maxSectors then Pair(r, n, false)
    else
      var s := Resized(q, r, n);
      var total := r.nr + n.nr - (if s.ok then 1 else 0);
      if total > q.maxPhysSegs || total > q.maxHwSegs then Pair(s.rq, s.next, false)
      else Pair(s.rq.(nr := total, bios := s.rq.bios + s.next.bios, sectors := r.sectors + n.sectors), s.next, true)
  }

  /** blk_rq_bio_prep for a bio with data. */
  function NewRequest(q: Queue, b: Bio, pc: bool, special: bool): Request {
    var b1 := Refreshed(q, b);
    Request([b1], b1.phys, b.sectors, pc, special, false)
  }

  // ---------------------------------------------------------------- recounting

  lemma {:induction false} SameData(a: seq<Bio>, b: seq<Bio>)
    requires |a| == |b| && forall i | 0 <= i < |a| :: a[i].bvecs == b[i].bvecs
    ensures AllBvecs(a) == AllBvecs(b)
    decreases |a|
  {
    if a != [] { SameData(a[..|a|-1], b[..|b|-1]); }
  }

  /** `b` is `a` with size fields that have not become smaller. */
  ghost predicate Wider(a: seq<Bio>, b: seq<Bio>) {
    && |a| == |b|
    && forall i | 0 <= i < |a| ::
         b[i].bvecs == a[i].bvecs && b[i].front >= a[i].front && b[i].back >= a[i].back && b[i].sectors == a[i].sectors
  }

  lemma WidenShape(bios: seq<Bio>, f: nat, k: nat)
    requires bios != []
    ensures var w := Widen(bios, f, k); Wider(bios, w) && w[0].front >= f && w[|bios|-1].back >= k
  {}

  lemma RecalcShape(q: Queue, bios: seq<Bio>)
    requires WithData(bios)
    ensures var c, g := Recalc(q, bios), Counting(q, AllBvecs(bios));
            Wider(bios, c.bios) && g.Snoc? && c.nr == Len(g)
            && c.bios[0].front >= Bytes(First(g)) && c.bios[|bios|-1].back >= Bytes(g.last)
  {
    DataNonempty(bios);
    var g := Counting(q, AllBvecs(bios));
    WidenShape(bios, Bytes(First(g)), Bytes(g.last));
  }

  lemma CountingPartition(q: Queue, bvs: seq<Bvec>)
    ensures IsPartition(q, Counting(q, bvs), bvs)
  {
    SegsPartition(q, true, bvs, |bvs|);
    assert bvs[..|bvs|] == bvs;
  }

  /** A recount is accurate. */
  lemma RecalcIsAccurate(q: Queue, bios: seq<Bio>)
    requires WithData(bios)
    ensures var c := Recalc(q, bios);
            Wider(bios, c.bios) && Accurate(q, AllBvecs(bios), c.nr, c.bios[0].front, c.bios[|bios|-1].back)
  {
    RecalcShape(q, bios);
    var c, bvs := Recalc(q, bios), AllBvecs(bios);
    CountingPartition(q, bvs);
    ByWitness(q, Counting(q, bvs), bvs, c.nr, c.bios[0].front, c.bios[|bios|-1].back);
  }

  lemma RecountShape(q: Queue, b: Bio)
    requires b.bvecs != []
    ensures var r := Refreshed(q, b);
            r.bvecs == b.bvecs && r.front >= b.front && r.back >= b.back && r.sectors == b.sectors
  {
    RecalcShape(q, [b]);
  }

  /** After bio_phys_segments has been asked, a bio's segment information is accurate. */
  lemma RefreshedIsAccurate(q: Queue, b: Bio)
    requires BioOk(q, b)
    ensures var r := Refreshed(q, b); Accurate(q, b.bvecs, r.phys, r.front, r.back)
  {
    if !b.valid {
      RecalcIsAccurate(q, [b]);
      SingleData(b);
    }
  }

  lemma SingleData(b: Bio)
    ensures AllBvecs([b]) == b.bvecs
  {
    assert [b][..0] == [];
  }

  /** Wider size fields keep the request's invariant. */
  lemma WiderKeeps(q: Queue, r: Request, bios: seq<Bio>)
    requires RequestOk(q, r) && Wider(r.bios, bios)
    ensures RequestOk(q, r.(bios := bios)) && AllBvecs(bios) == AllBvecs(r.bios)
  {
    SameData(bios, r.bios);
    var n := |bios| - 1;
    Grown(q, AllBvecs(r.bios), r.nr, r.bios[0].front, r.bios[n].back, bios[0].front, bios[n].back);
  }

  lemma RefreshKeeps(q: Queue, r: Request, i: nat)
    requires RequestOk(q, r) && i < |r.bios|
    ensures var bios := r.bios[i := Refreshed(q, r.bios[i])];
            RequestOk(q, r.(bios := bios)) && AllBvecs(bios) == AllBvecs(r.bios)
  {
    RecountShape(q, r.bios[i]);
    WiderKeeps(q, r, r.bios[i := Refreshed(q, r.bios[i])]);
  }

  // ---------------------------------------------------------------- merging

  lemma NewIsOk(q: Queue, b: Bio, pc: bool, special: bool)
    requires BioOk(q, b)
    ensures RequestOk(q, NewRequest(q, b, pc, special))
  {
    RefreshedIsAccurate(q, b);
    RecountShape(q, b);
    SingleData(Refreshed(q, b));
  }

  /** Two bio lists one after the other. */
  lemma Appended(q: Queue, a: seq<Bio>, n: nat, b: seq<Bio>, m: nat)
    requires WithData(a) && Accurate(q, AllBvecs(a), n, a[0].front, a[|a|-1].back)
    requires WithData(b) && Accurate(q, AllBvecs(b), m, b[0].front, b[|b|-1].back)
    ensures WithData(a + b) && AllBvecs(a + b) == AllBvecs(a) + AllBvecs(b)
    ensures Accurate(q, AllBvecs(a + b), n + m, (a + b)[0].front, (a + b)[|a + b|-1].back)
  {
    AllBvecsConcat(a, b);
    SideBySide(q, AllBvecs(a), n, a[0].front, a[|a|-1].back, AllBvecs(b), m, b[0].front, b[|b|-1].back);
  }

  lemma Rebuilt(q: Queue, r: Request, bios: seq<Bio>, nr: nat, sectors: nat)
    requires WithData(bios) && Accurate(q, AllBvecs(bios), nr, bios[0].front, bios[|bios|-1].back)
    ensures RequestOk(q, r.(bios := bios, nr := nr, sectors := sectors))
  {}

  lemma FlagKeeps(q: Queue, r: Request)
    requires RequestOk(q, r)
    ensures RequestOk(q, r.(noMerge := true))
  {}

  /** The bio list after the bio has joined. */
  function JoinedList(r: Request, b: Bio, back: bool): seq<Bio> {
    if back then r.bios + [b] else [b] + r.bios
  }

  lemma JoinedListOk(q: Queue, r: Request, b: Bio, back: bool)
    requires RequestOk(q, r) && b.bvecs != [] && Accurate(q, b.bvecs, b.phys, b.front, b.back)
    ensures var bios := JoinedList(r, b, back);
            && WithData(bios)
            && AllBvecs(bios) == (if back then AllBvecs(r.bios) + b.bvecs else b.bvecs + AllBvecs(r.bios))
            && Accurate(q, AllBvecs(bios), r.nr + b.phys, bios[0].front, bios[|bios|-1].back)
  {
    SingleData(b);
    assert WithData([b]);
    if back {
      Appended(q, r.bios, r.nr, [b], b.phys);
    } else {
      Appended(q, [b], b.phys, r.bios, r.nr);
    }
  }

  lemma AttachKeeps(q: Queue, r: Request, b: Bio, back: bool)
    requires RequestOk(q, r) && b.bvecs != [] && Accurate(q, b.bvecs, b.phys, b.front, b.back)
    ensures var o := Attach(q, r, b, back);
            && RequestOk(q, o.rq)
            && AllBvecs(o.rq.bios) == (if !o.ok then AllBvecs(r.bios)
                                       else if back then AllBvecs(r.bios) + b.bvecs else b.bvecs + AllBvecs(r.bios))
  {
    hide Accurate, AllBvecs, Attach;
    AttachShape(q, r, b, back);
    if Attach(q, r, b, back).ok {
      JoinedListOk(q, r, b, back);
      Rebuilt(q, r, JoinedList(r, b, back), r.nr + b.phys, r.sectors + b.sectors);
    } else {
      FlagKeeps(q, r);
    }
  }

  lemma AttachShape(q: Queue, r: Request, b: Bio, back: bool)
    ensures var o := Attach(q, r, b, back);
            o.rq == if o.ok then r.(bios := JoinedList(r, b, back), nr := r.nr + b.phys, sectors := r.sectors + b.sectors)
                    else r.(noMerge := true)
  {}

  /** A back merge keeps the invariant, merged or not, and appends exactly the bio's data. */
  lemma BackMergeKeeps(q: Queue, r: Request, b: Bio)
    requires RequestOk(q, r) && BioOk(q, b)
    ensures var o := BackMerge(q, r, b);
            && RequestOk(q, o.rq)
            && AllBvecs(o.rq.bios) == if o.ok then AllBvecs(r.bios) + b.bvecs else AllBvecs(r.bios)
  {
    var n := |r.bios| - 1;
    RefreshKeeps(q, r, n);
    RefreshedIsAccurate(q, b);
    RecountShape(q, b);
    AttachKeeps(q, r.(bios := r.bios[n := Refreshed(q, r.bios[n])]), Refreshed(q, b), true);
    FlagKeeps(q, r);
  }

  /** A front merge keeps the invariant, merged or not, and prepends exactly the bio's data. */
  lemma FrontMergeKeeps(q: Queue, r: Request, b: Bio)
    requires RequestOk(q, r) && BioOk(q, b)
    ensures var o := FrontMerge(q, r, b);
            && RequestOk(q, o.rq)
            && AllBvecs(o.rq.bios) == if o.ok then b.bvecs + AllBvecs(r.bios) else AllBvecs(r.bios)
  {
    RefreshKeeps(q, r, 0);
    RefreshedIsAccurate(q, b);
    RecountShape(q, b);
    AttachKeeps(q, r.(bios := r.bios[0 := Refreshed(q, r.bios[0])]), Refreshed(q, b), false);
    FlagKeeps(q, r);
  }

  lemma {:induction false} DataEnds(bios: seq<Bio>)
    requires WithData(bios)
    ensures var d := AllBvecs(bios); d != [] && d[0] == bios[0].bvecs[0]
    ensures var d := AllBvecs(bios); var l := bios[|bios|-1].bvecs; d[|d|-1] == l[|l|-1]
    decreases |bios|
  {
    if |bios| == 1 {
      assert bios[..0] == [];
    } else {
      DataEnds(bios[..|bios|-1]);
    }
  }

  /** The early update of the size fields is safe even when the merge is then refused. */
  lemma FrontResized(q: Queue, r: Request, size: nat)
    requires RequestOk(q, r) && r.nr == 1 && size >= r.bios[|r.bios|-1].back
    ensures RequestOk(q, r.(bios := SetFront(r.bios, size))) && AllBvecs(SetFront(r.bios, size)) == AllBvecs(r.bios)
  {
    var bios := SetFront(r.bios, size);
    SameData(bios, r.bios);
    var k := r.bios[|r.bios|-1].back;
    SingleSegment(q, AllBvecs(r.bios), r.bios[0].front, k);
    Grown(q, AllBvecs(r.bios), 1, k, k, size, k);
  }

  lemma BackResized(q: Queue, r: Request, size: nat)
    requires RequestOk(q, r) && r.nr == 1 && size >= r.bios[0].front
    ensures RequestOk(q, r.(bios := SetBack(r.bios, size))) && AllBvecs(SetBack(r.bios, size)) == AllBvecs(r.bios)
  {
    var bios := SetBack(r.bios, size);
    SameData(bios, r.bios);
    var f := r.bios[0].front;
    SingleSegment(q, AllBvecs(r.bios), f, r.bios[|r.bios|-1].back);
    Grown(q, AllBvecs(r.bios), 1, f, f, f, size);
  }

  lemma ResizedKeeps(q: Queue, r: Request, n: Request)
    requires RequestOk(q, r) && RequestOk(q, n)
    ensures var s := Resized(q, r, n);
            && RequestOk(q, s.rq) && RequestOk(q, s.next)
            && AllBvecs(s.rq.bios) == AllBvecs(r.bios) && AllBvecs(s.next.bios) == AllBvecs(n.bios)
  {
    hide Accurate, AllBvecs, Contiguous, SetFront, SetBack;
    var size := r.bios[|r.bios|-1].back + n.bios[0].front;
    if r.nr == 1 { FrontResized(q, r, size); }
    if n.nr == 1 { BackResized(q, n, size); }
  }

  /** The ends of the joined list carry the sizes that the joined partition needs. */
  lemma ResizedEnds(q: Queue, r: Request, n: Request)
    requires WithData(r.bios) && WithData(n.bios)
    ensures var s := Resized(q, r, n);
            var bios := s.rq.bios + s.next.bios;
            var size := r.bios[|r.bios|-1].back + n.bios[0].front;
            && WithData(bios)
            && bios[0].front == (if s.ok && r.nr == 1 then size else r.bios[0].front)
            && bios[|bios|-1].back == (if s.ok && n.nr == 1 then size else n.bios[|n.bios|-1].back)
  {}

  lemma MergedIsOk(q: Queue, r: Request, n: Request)
    requires RequestOk(q, r) && RequestOk(q, n)
    ensures var s := Resized(q, r, n);
            Accurate(q, AllBvecs(r.bios) + AllBvecs(n.bios), r.nr + n.nr - (if s.ok then 1 else 0),
                     if s.ok && r.nr == 1 then r.bios[|r.bios|-1].back + n.bios[0].front else r.bios[0].front,
                     if s.ok && n.nr == 1 then r.bios[|r.bios|-1].back + n.bios[0].front else n.bios[|n.bios|-1].back)
  {
    var a, b := AllBvecs(r.bios), AllBvecs(n.bios);
    var f, k, g, l := r.bios[0].front, r.bios[|r.bios|-1].back, n.bios[0].front, n.bios[|n.bios|-1].back;
    if Resized(q, r, n).ok {
      DataEnds(r.bios);
      DataEnds(n.bios);
      Joined(q, a, r.nr, f, k, b, n.nr, g, l);
    } else {
      SideBySide(q, a, r.nr, f, k, b, n.nr, g, l);
    }
  }

  /** A request merge keeps both invariants, merged or not, and joins exactly the data. */
  lemma MergeRequestsKeeps(q: Queue, r: Request, n: Request)
    requires RequestOk(q, r) && RequestOk(q, n) && r.nr + n.nr > 0
    ensures var m := MergeRequests(q, r, n);
            && RequestOk(q, m.rq) && RequestOk(q, m.next)
            && AllBvecs(m.next.bios) == AllBvecs(n.bios)
            && AllBvecs(m.rq.bios) == if m.ok then AllBvecs(r.bios) + AllBvecs(n.bios) else AllBvecs(r.bios)
  {
    hide Accurate, AllBvecs, Contiguous, SetFront, SetBack;
    ResizedKeeps(q, r, n);
    var m := MergeRequests(q, r, n);
    if m.ok {
      var s := Resized(q, r, n);
      var bios := s.rq.bios + s.next.bios;
      MergedIsOk(q, r, n);
      ResizedEnds(q, r, n);
      AllBvecsConcat(s.rq.bios, s.next.bios);
      Rebuilt(q, s.rq, bios, m.rq.nr, r.sectors + n.sectors);
    }
  }

  /** A request never counts no segments, so joining two of them never counts below zero. */
  lemma CountPositive(q: Queue, r: Request)
    requires RequestOk(q, r)
    ensures r.nr > 0
  {}

  // ---------------------------------------------------------------- when merges are made

  /** The request is within the limits of the queue for a request of its kind. */
  predicate WithinLimits(q: Queue, r: Request) {
    && r.nr <= q.maxHwSegs && r.nr <= q.maxPhysSegs
    && (r.pc ==> r.sectors <= q.maxHwSectors) && (!r.pc ==> r.sectors <= q.maxSectors)
  }

  /** The request with the sectors and the segments of the bio would exceed a limit of the queue. */
  predicate Exceeds(q: Queue, r: Request, segments: nat, sectors: nat) {
    || r.nr + segments > q.maxHwSegs || r.nr + segments > q.maxPhysSegs
    || (r.pc && r.sectors + sectors > q.maxHwSectors) || (!r.pc && r.sectors + sectors > q.maxSectors)
  }

  /** What a bio merge leads to: refused exactly if a limit would be exceeded, and then the request
      is not to be merged any more; made, it is within the limits and has one more bio. */
  ghost predicate MergedExactly(q: Queue, r: Request, b: Bio, o: Outcome) {
    && (o.ok <==> !Exceeds(q, r, Refreshed(q, b).phys, b.sectors))
    && (o.ok ==> WithinLimits(q, o.rq) && o.rq.nr == r.nr + Refreshed(q, b).phys && o.rq.sectors == r.sectors + b.sectors)
    && (o.ok ==> |o.rq.bios| == |r.bios| + 1 && o.rq.noMerge == r.noMerge)
    && (!o.ok ==> o.rq.noMerge && o.rq.nr == r.nr && o.rq.sectors == r.sectors && |o.rq.bios| == |r.bios|)
    && o.rq.pc == r.pc && o.rq.special == r.special
  }

  lemma RefreshedSectors(q: Queue, b: Bio)
    ensures Refreshed(q, b).sectors == b.sectors
  {
    hide Segs;
  }

  lemma AttachExactly(q: Queue, r: Request, b: Bio, back: bool)
    requires r.sectors + b.sectors <= SectorLimit(q, r)
    ensures var o := Attach(q, r, b, back);
            && (o.ok <==> !Exceeds(q, r, b.phys, b.sectors))
            && (o.ok ==> WithinLimits(q, o.rq) && o.rq.nr == r.nr + b.phys && o.rq.sectors == r.sectors + b.sectors)
            && (o.ok ==> |o.rq.bios| == |r.bios| + 1 && o.rq.noMerge == r.noMerge)
            && (!o.ok ==> o.rq == r.(noMerge := true))
            && o.rq.pc == r.pc && o.rq.special == r.special
  {}

  /** A back merge is made exactly if the limits of the queue allow it. */
  lemma BackMergeExactly(q: Queue, r: Request, b: Bio)
    requires r.bios != []
    ensures MergedExactly(q, r, b, BackMerge(q, r, b))
  {
    hide Attach, Refreshed;
    RefreshedSectors(q, b);
    if r.sectors + b.sectors <= SectorLimit(q, r) {
      var n := |r.bios| - 1;
      AttachExactly(q, r.(bios := r.bios[n := Refreshed(q, r.bios[n])]), Refreshed(q, b), true);
    }
  }

  /** And so is a front merge. */
  lemma FrontMergeExactly(q: Queue, r: Request, b: Bio)
    requires r.bios != []
    ensures MergedExactly(q, r, b, FrontMerge(q, r, b))
  {
    hide Attach, Refreshed;
    RefreshedSectors(q, b);
    if r.sectors + b.sectors <= SectorLimit(q, r) {
      AttachExactly(q, r.(bios := r.bios[0 := Refreshed(q, r.bios[0])]), Refreshed(q, b), false);
    }
  }

  /** The last segment of `r` goes on in the first of `n`, by the sizes that the bios record. */
  predicate SharesSegment(q: Queue, r: Request, n: Request)
    requires WithData(r.bios) && WithData(n.bios)
  {
    var a, b := r.bios[|r.bios|-1], n.bios[0];
    var v, w := a.bvecs[|a.bvecs|-1], b.bvecs[0];
    && q.cluster && a.back + b.front <= q.maxSegSize
    && v.addr + v.len == w.addr && q.window(v.addr) == q.window(w.addr + w.len - 1)
  }

  /** A request merge is made exactly if neither request is special and the limits allow it, where a
      segment that they share counts once; whatever the kind, the limit on sectors is the one for file
      system requests. */
  lemma MergeRequestsExactly(q: Queue, r: Request, n: Request)
    requires WithData(r.bios) && WithData(n.bios) && r.nr + n.nr > 0
    ensures var m := MergeRequests(q, r, n);
            var total := r.nr + n.nr - (if SharesSegment(q, r, n) then 1 else 0);
            && (m.ok <==> !r.special && !n.special && r.sectors + n.sectors <= q.maxSectors
                          && total <= q.maxPhysSegs && total <= q.maxHwSegs)
            && (m.ok ==> m.rq.nr == total && m.rq.sectors == r.sectors + n.sectors && |m.rq.bios| == |r.bios| + |n.bios|)
            && (!m.ok ==> m.rq.nr == r.nr && m.rq.sectors == r.sectors && |m.rq.bios| == |r.bios|)
            && m.next.nr == n.nr && m.next.sectors == n.sectors && |m.next.bios| == |n.bios|
            && m.rq.noMerge == r.noMerge && m.rq.pc == r.pc && m.rq.special == r.special
  {}

  /** A new request has the data, the size and the kind that it was made of. */
  lemma NewRequestIs(q: Queue, b: Bio, pc: bool, special: bool)
    ensures var r := NewRequest(q, b, pc, special);
            && r.sectors == b.sectors && r.nr == Refreshed(q, b).phys && r.pc == pc && r.special == special && !r.noMerge
            && AllBvecs(r.bios) == b.bvecs
  {
    SingleData(Refreshed(q, b));
    RefreshedBvecs(q, b);
  }

  lemma RefreshedBvecs(q: Queue, b: Bio)
    ensures Refreshed(q, b).bvecs == b.bvecs
  {
    hide Segs;
  }

  // ---------------------------------------------------------------- a recount is exact

  /** A recount is the least number of valid segments in which pages that may be bounced are alone. */
  lemma RecalcIsLeast(q: Queue, bios: seq<Bio>, p: Parts)
    requires bios != [] && IsPartition(q, p, AllBvecs(bios)) && AllApart(q, true, p)
    ensures Recalc(q, bios).nr <= Len(p)
    ensures exists g :: IsPartition(q, g, AllBvecs(bios)) && AllApart(q, true, g) && Len(g) == Recalc(q, bios).nr
  {
    var bvs := AllBvecs(bios);
    assert bvs[..|bvs|] == bvs;
    SegsPartition(q, true, bvs, |bvs|);
    SegsApart(q, true, bvs, |bvs|);
    GreedyOptimal(q, true, bvs, |bvs|, p);
    assert IsPartition(q, Counting(q, bvs), bvs);
  }

  /** It raises the size fields at the two ends to the sizes of its first and last segments, and no
      further; nothing else of the bios changes. */
  lemma RecalcSizes(q: Queue, bios: seq<Bio>)
    requires WithData(bios)
    ensures var c, g, n := Recalc(q, bios), Segs(q, true, AllBvecs(bios), |AllBvecs(bios)|), |bios| - 1;
            && |c.bios| == |bios|
            && c.bios[0].front == Max(bios[0].front, Bytes(First(g))) && c.bios[n].back == Max(bios[n].back, Bytes(g.last))
            && forall i | 0 <= i <= n ::
                 c.bios[i] == bios[i].(front := if i == 0 then c.bios[0].front else bios[i].front,
                                       back := if i == n then c.bios[n].back else bios[i].back)
  {
    DataNonempty(bios);
  }
}
