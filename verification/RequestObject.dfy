/** Requests as the objects that blk-merge.c updates: the counting and mapping loops and the
    merge functions, each proved against the value model, and runs of merges over a pool. */
module RequestObject {
  import opened Segments
  import opened RequestMerge

  // ---------------------------------------------------------------- runs

  datatype Op =
    | Create(id: nat, bio: Bio, pc: bool, special: bool)
    | BackBio(id: nat, bio: Bio)
    | FrontBio(id: nat, bio: Bio)
    | Join(id: nat, next: nat)
    | Recounted(id: nat)
    | Trimmed(id: nat, bios: seq<Bio>)

  type Pool = map<nat, Request>

  ghost predicate PoolOk(q: Queue, pool: Pool) {
    forall id | id in pool :: RequestOk(q, pool[id])
  }

  /** The bios that come in have data and, if they claim it, accurate segment information.
      `Trimmed` is a partial completion: what is left is arbitrary, and a recount follows. */
  ghost predicate OpOk(q: Queue, op: Op) {
    match op
    case Create(_, b, _, _) => BioOk(q, b)
    case BackBio(_, b) => BioOk(q, b)
    case FrontBio(_, b) => BioOk(q, b)
    case Trimmed(_, bios) => WithData(bios)
    case _ => true
  }

  /** One operation; one on a request that is not there, or not one with data, does nothing. */
  ghost function Apply(q: Queue, pool: Pool, op: Op): Pool {
    match op
    case Create(id, b, pc, special) => pool[id := NewRequest(q, b, pc, special)]
    case BackBio(id, b) =>
      if id in pool && WithData(pool[id].bios) then pool[id := BackMerge(q, pool[id], b).rq] else pool
    case FrontBio(id, b) =>
      if id in pool && WithData(pool[id].bios) then pool[id := FrontMerge(q, pool[id], b).rq] else pool
    case Join(id, n) =>
      if id in pool && n in pool && id != n && Joinable(pool[id], pool[n]) then
        var m := MergeRequests(q, pool[id], pool[n]);
        if m.ok then pool[id := m.rq] - {n} else pool[id := m.rq][n := m.next]
      else pool
    case Recounted(id) =>
      if id in pool then
        var c := Recalc(q, pool[id].bios);
        pool[id := pool[id].(bios := c.bios, nr := c.nr)]
      else pool
    case Trimmed(id, bios) =>
      if id in pool then
        var c := Recalc(q, bios);
        pool[id := pool[id].(bios := c.bios, nr := c.nr)]
      else pool
  }

  ghost predicate Joinable(r: Request, n: Request) {
    WithData(r.bios) && WithData(n.bios) && r.nr + n.nr > 0
  }

  lemma RecountKeeps(q: Queue, r: Request, bios: seq<Bio>)
    requires WithData(bios)
    ensures var c := Recalc(q, bios); RequestOk(q, r.(bios := c.bios, nr := c.nr))
  {
    RecalcIsAccurate(q, bios);
    var c := Recalc(q, bios);
    SameData(c.bios, bios);
    Rebuilt(q, r, c.bios, c.nr, r.sectors);
  }

  lemma JoinKeeps(q: Queue, pool: Pool, id: nat, n: nat)
    requires PoolOk(q, pool)
    ensures PoolOk(q, Apply(q, pool, Join(id, n)))
  {
    if id in pool && n in pool && id != n && Joinable(pool[id], pool[n]) {
      var m := MergeRequests(q, pool[id], pool[n]);
      MergeRequestsKeeps(q, pool[id], pool[n]);
      StoreKeeps(q, pool, id, m.rq);
      StoreKeeps(q, pool[id := m.rq], n, m.next);
    }
  }

  lemma StoreKeeps(q: Queue, pool: Pool, id: nat, r: Request)
    requires PoolOk(q, pool) && RequestOk(q, r)
    ensures PoolOk(q, pool[id := r])
  {}

  lemma ApplyKeeps(q: Queue, pool: Pool, op: Op)
    requires PoolOk(q, pool) && OpOk(q, op)
    ensures PoolOk(q, Apply(q, pool, op))
  {
    match op
    case Create(id, b, pc, special) => NewIsOk(q, b, pc, special);
    case BackBio(id, b) => if id in pool { BackMergeKeeps(q, pool[id], b); }
    case FrontBio(id, b) => if id in pool { FrontMergeKeeps(q, pool[id], b); }
    case Join(id, n) => JoinKeeps(q, pool, id, n);
    case Recounted(id) => if id in pool { RecountKeeps(q, pool[id], pool[id].bios); }
    case Trimmed(id, bios) => if id in pool { RecountKeeps(q, pool[id], bios); }
  }

  ghost predicate IsRun(q: Queue, pools: seq<Pool>, ops: seq<Op>) {
    && |pools| == |ops| + 1 && pools[0] == map[]
    && forall i | 0 <= i < |ops| :: OpOk(q, ops[i]) && pools[i+1] == Apply(q, pools[i], ops[i])
  }

  lemma {:induction false} RunKeeps(q: Queue, pools: seq<Pool>, ops: seq<Op>, i: nat)
    requires IsRun(q, pools, ops) && i < |pools|
    ensures PoolOk(q, pools[i])
  {
    if i > 0 {
      RunKeeps(q, pools, ops, i - 1);
      assert OpOk(q, ops[i-1]) && pools[i-1+1] == Apply(q, pools[i-1], ops[i-1]);
      ApplyKeeps(q, pools[i-1], ops[i-1]);
    }
  }

  /** In every run, a bio merge that adds a bio leaves a request within the limits of the queue, and
      one that does not leaves a request that is not to be merged any more. */
  lemma RunLimits(q: Queue, pools: seq<Pool>, ops: seq<Op>, i: nat, id: nat)
    requires IsRun(q, pools, ops) && i < |ops| && id in pools[i]
    requires (ops[i].BackBio? || ops[i].FrontBio?) && ops[i].id == id
    ensures id in pools[i+1]
    ensures var r, d := pools[i][id], pools[i+1][id];
            if |d.bios| > |r.bios| then WithinLimits(q, d) else d.noMerge && d.nr == r.nr && d.sectors == r.sectors
  {
    RunKeeps(q, pools, ops, i);
    assert pools[i+1] == Apply(q, pools[i], ops[i]);
    var r, b := pools[i][id], ops[i].bio;
    if ops[i].BackBio? { BackMergeExactly(q, r, b); } else { FrontMergeExactly(q, r, b); }
  }

  /** And a request merge after which the second request is gone leaves one within the limits for file
      system requests. */
  lemma RunJoins(q: Queue, pools: seq<Pool>, ops: seq<Op>, i: nat)
    requires IsRun(q, pools, ops) && i < |ops| && ops[i].Join? && ops[i].next in pools[i] && ops[i].next !in pools[i+1]
    ensures ops[i].id in pools[i] && ops[i].id in pools[i+1]
    ensures var d := pools[i+1][ops[i].id];
            d.nr <= q.maxHwSegs && d.nr <= q.maxPhysSegs && d.sectors <= q.maxSectors && !d.special && !pools[i][ops[i].next].special
  {
    assert pools[i+1] == Apply(q, pools[i], ops[i]);
    var r, n := pools[i][ops[i].id], pools[i][ops[i].next];
    MergeRequestsExactly(q, r, n);
  }

  /** In every run, every request can be mapped into as many scatter entries as it claims to
      need, whatever was merged, refused, recounted or partly completed on the way. */
  lemma CountBoundsMapping(q: Queue, pools: seq<Pool>, ops: seq<Op>, i: nat, id: nat)
    requires IsRun(q, pools, ops) && i < |pools| && id in pools[i]
    ensures var bvs := AllBvecs(pools[i][id].bios); Len(Segs(q, false, bvs, |bvs|)) <= pools[i][id].nr
  {
    RunKeeps(q, pools, ops, i);
    EnoughRoom(q, pools[i][id]);
  }

  lemma EnoughRoom(q: Queue, r: Request)
    requires RequestOk(q, r)
    ensures var bvs := AllBvecs(r.bios); Len(Segs(q, false, bvs, |bvs|)) <= r.nr
  {
    CountSuffices(q, AllBvecs(r.bios), r.nr, r.bios[0].front, r.bios[|r.bios|-1].back);
  }

  // ---------------------------------------------------------------- the loops

  /** The bvecs of the `i`-th bio within the data. */
  lemma DataSlice(bios: seq<Bio>, i: nat)
    requires i < |bios|
    ensures var k, n := |AllBvecs(bios[..i])|, |bios[i].bvecs|;
            k + n == |AllBvecs(bios[..i+1])| <= |AllBvecs(bios)| && AllBvecs(bios)[k..k+n] == bios[i].bvecs
  {
    DataIsPrefix(bios, i + 1);
    DataUpTo(bios, i);
  }

  lemma DataUpTo(bios: seq<Bio>, i: nat)
    requires i < |bios|
    ensures AllBvecs(bios[..i+1]) == AllBvecs(bios[..i]) + bios[i].bvecs
  {
    assert bios[..i+1][..i] == bios[..i];
  }

  lemma {:induction false} DataIsPrefix(bios: seq<Bio>, i: nat)
    requires i <= |bios|
    ensures AllBvecs(bios[..i]) <= AllBvecs(bios)
    decreases |bios| - i
  {
    if i == |bios| {
      assert bios[..i] == bios;
    } else {
      DataIsPrefix(bios, i + 1);
      DataUpTo(bios, i);
    }
  }

  /** The counters of the counting loop. */
  datatype Counters = Counters(nr: nat, size: nat, highprv: bool, prev: Bvec, front: nat)

  /** What the counting loop has gathered when its segments so far are `g`.  The front size is
      that of the first segment once a second one has begun. */
  ghost predicate CountersOk(q: Queue, g: Parts, front0: nat, c: Counters) {
    && c.nr == Len(g)
    && (g == Nil ==> c.highprv && c.size == 0 && c.front == front0)
    && (g.Snoc? ==>
          && g.last != [] && c.prev == g.last[|g.last|-1]
          && c.size == Bytes(g.last) && c.highprv == High(q, g.last[0])
          && c.front == if g.init == Nil then front0 else Max(front0, Bytes(First(g))))
  }

  lemma PlacedBytes(q: Queue, strict: bool, g: Parts, b: Bvec)
    ensures Bytes([b]) == b.len && (g.Snoc? ==> Bytes(g.last + [b]) == Bytes(g.last) + b.len)
  {
    BytesOne(b);
    if g.Snoc? { BytesConcat(g.last, [b]); }
  }

  /** One bvec: it extends the current segment or begins a new one, as the partition does. */
  method CountBvec(q: Queue, c: Counters, b: Bvec, ghost g: Parts, ghost front0: nat) returns (d: Counters)
    requires CountersOk(q, g, front0, c)
    ensures CountersOk(q, Placed(q, true, g, b), front0, d)
  {
    PlacedBytes(q, true, g, b);
    if !High(q, b) && !c.highprv && q.cluster && c.size + b.len <= q.maxSegSize && Joins(q, c.prev, b) {
      d := c.(size := c.size + b.len, prev := b);
    } else {
      assert g.Snoc? ==> c.nr == Len(g.init) + 1 && (Len(g.init) == 0 <==> g.init == Nil);
      d := c;
      if d.nr == 1 && d.size > d.front {
        d := d.(front := d.size);
      }
      d := Counters(d.nr + 1, b.len, High(q, b), b, d.front);
    }
  }

  /** The inner loop: the bvecs of one bio, which begin at index `k` of the data. */
  method CountBio(q: Queue, bvecs: seq<Bvec>, c0: Counters, ghost all: seq<Bvec>, ghost k: nat, ghost front0: nat)
    returns (c: Counters)
    requires k + |bvecs| <= |all| && all[k..k+|bvecs|] == bvecs
    requires CountersOk(q, Segs(q, true, all, k), front0, c0)
    ensures CountersOk(q, Segs(q, true, all, k + |bvecs|), front0, c)
  {
    c := c0;
    var j := 0;
    while j < |bvecs|
      invariant 0 <= j <= |bvecs|
      invariant CountersOk(q, Segs(q, true, all, k + j), front0, c)
    {
      assert all[k + j] == bvecs[j];
      c := CountBvec(q, c, bvecs[j], Segs(q, true, all, k + j), front0);
      j := j + 1;
    }
  }

  /** __blk_recalc_rq_segments. */
  method CountSegments(q: Queue, bios: seq<Bio>) returns (r: Counted)
    ensures r == Recalc(q, bios)
  {
    if bios == [] {
      return Counted(bios, 0);
    }
    ghost var all, k := AllBvecs(bios), 0;
    var c := Counters(0, 0, true, Bvec(0, 0), bios[0].front);
    var i := 0;
    while i < |bios|
      invariant 0 <= i <= |bios| && k == |AllBvecs(bios[..i])| <= |all|
      invariant CountersOk(q, Segs(q, true, all, k), bios[0].front, c)
    {
      DataSlice(bios, i);
      c := CountBio(q, bios[i].bvecs, c, all, k, bios[0].front);
      k := k + |bios[i].bvecs|;
      i := i + 1;
    }
    assert bios[..|bios|] == bios;
    r := WidenAs(q, bios, c, RequestMerge.Counting(q, all));
  }

  /** The size fields at the end of the count. */
  method WidenAs(q: Queue, bios: seq<Bio>, c: Counters, ghost g: Parts) returns (r: Counted)
    requires bios != [] && g == RequestMerge.Counting(q, AllBvecs(bios)) && CountersOk(q, g, bios[0].front, c)
    ensures r == Recalc(q, bios)
  {
    var front := if c.nr == 1 && c.size > c.front then c.size else c.front;
    r := Counted(WidenEnds(bios, front, c.size), c.nr);
    FinalSizes(q, g, bios[0].front, c, front);
    RecalcAsWiden(q, bios);
  }

  /** The two size fields a recount may raise. */
  function WidenEnds(bios: seq<Bio>, front: nat, size: nat): seq<Bio>
    requires bios != []
  {
    var out := SetFront(bios, front);
    if size > out[|out|-1].back then SetBack(out, size) else out
  }

  lemma FinalSizes(q: Queue, g: Parts, front0: nat, c: Counters, front: nat)
    requires CountersOk(q, g, front0, c)
    requires front == if c.nr == 1 && c.size > c.front then c.size else c.front
    ensures c.nr == Len(g)
    ensures g == Nil ==> front == front0 && c.size == 0
    ensures g.Snoc? ==> front == Max(front0, Bytes(First(g))) && c.size == Bytes(g.last)
  {}

  lemma RecalcAsWiden(q: Queue, bios: seq<Bio>)
    requires bios != []
    ensures var g := RequestMerge.Counting(q, AllBvecs(bios));
            Recalc(q, bios) == if g == Nil then Counted(WidenEnds(bios, bios[0].front, 0), 0)
                               else Counted(WidenEnds(bios, Max(bios[0].front, Bytes(First(g))), Bytes(g.last)), Len(g))
  {
    WidenSame(bios);
    var g := RequestMerge.Counting(q, AllBvecs(bios));
    if g.Snoc? { WidenBoth(bios, Bytes(First(g)), Bytes(g.last)); }
  }

  lemma WidenBoth(bios: seq<Bio>, f: nat, k: nat)
    requires bios != []
    ensures Widen(bios, f, k) == WidenEnds(bios, Max(bios[0].front, f), k)
  {
    WidenSame(SetFront(bios, Max(bios[0].front, f)));
  }

  lemma WidenSame(bios: seq<Bio>)
    requires bios != []
    ensures SetFront(bios, bios[0].front) == bios && SetBack(bios, bios[|bios|-1].back) == bios
    ensures WidenEnds(bios, bios[0].front, 0) == bios
  {
    assert bios[0].(front := bios[0].front) == bios[0];
    assert bios[|bios|-1].(back := bios[|bios|-1].back) == bios[|bios|-1];
  }

  // ---------------------------------------------------------------- the mapping loop

  /** The scatter list for the segments. */
  function Mapping(g: Parts): (l: seq<Sg>)
    ensures |l| == Len(g)
  {
    match g
    case Nil => []
    case Snoc(i, s) => Mapping(i) + [EntryOf(s)]
  }

  /** The physical addresses of the bytes that a scatter list describes. */
  function ListBytes(l: seq<Sg>): seq<nat> {
    if l == [] then [] else ListBytes(l[..|l|-1]) + Range(l[|l|-1].addr, l[|l|-1].len)
  }

  lemma {:induction false} MappingBytes(g: Parts)
    ensures ListBytes(Mapping(g)) == EntryBytes(g)
  {
    if g.Snoc? {
      MappingBytes(g.init);
      assert Mapping(g)[..Len(g.init)] == Mapping(g.init);
    }
  }

  lemma {:induction false} PrefixHasFewer(q: Queue, bvs: seq<Bvec>, k: nat)
    requires k <= |bvs|
    ensures Len(Segs(q, false, bvs, k)) <= Len(Segs(q, false, bvs, |bvs|))
    decreases |bvs| - k
  {
    if k < |bvs| { PrefixHasFewer(q, bvs, k + 1); }
  }

  /** The next bvec joins the last entry. */
  predicate JoinsLast(q: Queue, l: seq<Sg>, prev: Bvec, b: Bvec) {
    l != [] && q.cluster && l[|l|-1].len + b.len <= q.maxSegSize && Joins(q, prev, b)
  }

  /** The list `m` is `l` with one more bvec mapped. */
  ghost predicate OneMore(q: Queue, l: seq<Sg>, m: seq<Sg>, prev: Bvec, b: Bvec) {
    var n := |l|;
    if JoinsLast(q, l, prev, b) then
      |m| == n && m[n-1] == Sg(l[n-1].addr, l[n-1].len + b.len) && forall k | 0 <= k < n - 1 :: m[k] == l[k]
    else |m| == n + 1 && m[n] == Sg(b.addr, b.len) && forall k | 0 <= k < n :: m[k] == l[k]
  }

  /** `prev` is the bvec mapped last. */
  ghost predicate LastWas(g: Parts, prev: Bvec) {
    g.Snoc? ==> g.last != [] && g.last[|g.last|-1] == prev
  }

  lemma MappingMore(q: Queue, g: Parts, prev: Bvec, b: Bvec)
    requires LastWas(g, prev)
    ensures OneMore(q, Mapping(g), Mapping(Placed(q, false, g, b)), prev, b) && LastWas(Placed(q, false, g, b), b)
  {
    PlacedBytes(q, false, g, b);
  }

  /** The list holds what has been mapped so far. */
  ghost predicate Holds(l: seq<Sg>, sg: array<Sg>, n: nat)
    reads sg
  {
    n == |l| && n <= sg.Length && forall k | 0 <= k < n :: sg[k] == l[k]
  }

  // ---------------------------------------------------------------- the object

  class RequestObject {
    var bios: seq<Bio>
    var nr: nat
    var sectors: nat
    const pc: bool
    const special: bool
    var noMerge: bool

    ghost function Value(): Request
      reads this
    {
      Request(bios, nr, sectors, pc, special, noMerge)
    }

    /** blk_rq_bio_prep for a bio with data. */
    constructor (q: Queue, b: Bio, pc: bool, special: bool)
      requires BioOk(q, b)
      ensures Value() == NewRequest(q, b, pc, special) && RequestOk(q, Value())
    {
      var b1 := AskSegments(q, b);
      this.pc, this.special := pc, special;
      bios, nr, sectors, noMerge := [b1], b1.phys, b.sectors, false;
      NewIsOk(q, b, pc, special);
    }

    /** blk_recalc_rq_segments. */
    method RecalcSegments(q: Queue)
      modifies this`bios, this`nr
      ensures var c := Recalc(q, old(bios)); bios == c.bios && nr == c.nr
    {
      var c := CountSegments(q, bios);
      bios, nr := c.bios, c.nr;
    }

    /** blk_rq_map_sg: the list the caller provides has room for `nr` entries and never more is
        written. */
    method MapSg(q: Queue, sg: array<Sg>) returns (n: nat)
      requires RequestOk(q, Value()) && nr <= sg.Length
      modifies sg
      ensures var bvs := AllBvecs(bios); n <= nr && Holds(Mapping(Segs(q, false, bvs, |bvs|)), sg, n)
      ensures n <= nr <= sg.Length && ListBytes(sg[..n]) == BvecBytes(AllBvecs(bios))
      ensures forall k | n <= k < sg.Length :: sg[k] == old(sg[k])
    {
      EnoughRoom(q, Value());
      n := MapBios(q, bios, sg);
      ghost var bvs := AllBvecs(bios);
      assert sg[..n] == Mapping(Segs(q, false, bvs, |bvs|));
      MappedList(q, bvs);
      MappingBytes(Segs(q, false, bvs, |bvs|));
    }

    /** ll_back_merge_fn with the append of its callers. */
    method BackMergeBio(q: Queue, b: Bio) returns (ok: bool)
      requires bios != []
      modifies this`bios, this`nr, this`sectors, this`noMerge
      ensures var o := BackMerge(q, old(Value()), b); Value() == o.rq && ok == o.ok
    {
      var max := if pc then q.maxHwSectors else q.maxSectors;
      if sectors + b.sectors > max {
        noMerge := true;
        return false;
      }
      var tail := AskSegments(q, bios[|bios|-1]);
      bios := bios[|bios|-1 := tail];
      var b1 := AskSegments(q, b);
      if nr + b1.phys > q.maxHwSegs || nr + b1.phys > q.maxPhysSegs {
        noMerge := true;
        return false;
      }
      nr := nr + b1.phys;
      bios := bios + [b1];
      sectors := sectors + b1.sectors;
      return true;
    }

    /** ll_front_merge_fn with the prepend of its caller. */
    method FrontMergeBio(q: Queue, b: Bio) returns (ok: bool)
      requires bios != []
      modifies this`bios, this`nr, this`sectors, this`noMerge
      ensures var o := FrontMerge(q, old(Value()), b); Value() == o.rq && ok == o.ok
    {
      var max := if pc then q.maxHwSectors else q.maxSectors;
      if sectors + b.sectors > max {
        noMerge := true;
        return false;
      }
      var b1 := AskSegments(q, b);
      var first := AskSegments(q, bios[0]);
      bios := bios[0 := first];
      if nr + b1.phys > q.maxHwSegs || nr + b1.phys > q.maxPhysSegs {
        noMerge := true;
        return false;
      }
      nr := nr + b1.phys;
      bios := [b1] + bios;
      sectors := sectors + b1.sectors;
      return true;
    }

    /** ll_merge_requests_fn with the list surgery of attempt_merge. */
    method MergeNext(q: Queue, next: RequestObject) returns (ok: bool)
      requires this != next && WithData(bios) && WithData(next.bios) && nr + next.nr > 0
      modifies this`bios, this`nr, this`sectors, next`bios
      ensures var m := MergeRequests(q, old(Value()), old(next.Value()));
              Value() == m.rq && next.Value() == m.next && ok == m.ok
    {
      if special || next.special {
        return false;
      }
      if sectors + next.sectors > q.maxSectors {
        return false;
      }
      var size := bios[|bios|-1].back + next.bios[0].front;
      var total := nr + next.nr;
      if Contiguous(q, bios[|bios|-1], next.bios[0]) {
        if nr == 1 {
          bios := SetFront(bios, size);
        }
        if next.nr == 1 {
          next.bios := SetBack(next.bios, size);
        }
        total := total - 1;
      }
      if total > q.maxPhysSegs || total > q.maxHwSegs {
        return false;
      }
      nr := total;
      bios := bios + next.bios;
      sectors := sectors + next.sectors;
      return true;
    }
  }

  method MapBios(q: Queue, bios: seq<Bio>, sg: array<Sg>) returns (n: nat)
    requires var bvs := AllBvecs(bios); Len(Segs(q, false, bvs, |bvs|)) <= sg.Length
    modifies sg
    ensures var bvs := AllBvecs(bios); Holds(Mapping(Segs(q, false, bvs, |bvs|)), sg, n)
    ensures forall k | n <= k < sg.Length :: sg[k] == old(sg[k])
  {
    ghost var all, k := AllBvecs(bios), 0;
    n := 0;
    var prev, i := Bvec(0, 0), 0;
    MappedNone(q, all, sg, prev);
    hide Mapped, Len;
    while i < |bios|
      invariant 0 <= i <= |bios| && k == |AllBvecs(bios[..i])| <= |all|
      invariant Mapped(q, all, k, sg, n, prev)
      invariant forall e | n <= e < sg.Length :: sg[e] == old(sg[e])
    {
      DataSlice(bios, i);
      n, prev := MapBio(q, all, k, bios[i].bvecs, sg, n, prev);
      k := k + |bios[i].bvecs|;
      i := i + 1;
    }
    assert bios[..|bios|] == bios;
    MappedAll(q, all, sg, n, prev);
  }

  /** The part of the loop that runs over one bio. */
  method MapBio(q: Queue, ghost all: seq<Bvec>, ghost k: nat, bvecs: seq<Bvec>, sg: array<Sg>, n0: nat, prev0: Bvec)
    returns (n: nat, prev: Bvec)
    requires k + |bvecs| <= |all| && all[k..k + |bvecs|] == bvecs && Len(Segs(q, false, all, |all|)) <= sg.Length
    requires Mapped(q, all, k, sg, n0, prev0)
    modifies sg
    ensures Mapped(q, all, k + |bvecs|, sg, n, prev)
    ensures n0 <= n && forall e | n <= e < sg.Length :: sg[e] == old(sg[e])
  {
    hide Mapped, Len;
    n, prev := n0, prev0;
    var j := 0;
    while j < |bvecs|
      invariant 0 <= j <= |bvecs| && n0 <= n
      invariant Mapped(q, all, k + j, sg, n, prev)
      invariant forall e | n <= e < sg.Length :: sg[e] == old(sg[e])
    {
      assert all[k + j] == all[k..k + |bvecs|][j];
      n := MapNext(q, all, k + j, sg, n, prev, bvecs[j]);
      prev := bvecs[j];
      j := j + 1;
    }
  }

  lemma MappedNone(q: Queue, all: seq<Bvec>, sg: array<Sg>, prev: Bvec)
    ensures Mapped(q, all, 0, sg, 0, prev)
  {
  }

  lemma MappedAll(q: Queue, all: seq<Bvec>, sg: array<Sg>, n: nat, prev: Bvec)
    requires Mapped(q, all, |all|, sg, n, prev)
    ensures Holds(Mapping(Segs(q, false, all, |all|)), sg, n)
  {
  }

  /** The first `k` bvecs have been mapped. */
  ghost predicate Mapped(q: Queue, bvs: seq<Bvec>, k: nat, sg: array<Sg>, n: nat, prev: Bvec)
    requires k <= |bvs|
    reads sg
  {
    Holds(Mapping(Segs(q, false, bvs, k)), sg, n) && LastWas(Segs(q, false, bvs, k), prev)
  }

  /** The entry for the next bvec is within the list: the count suffices at every point. */
  method MapNext(q: Queue, ghost bvs: seq<Bvec>, ghost k: nat, sg: array<Sg>, n: nat, prev: Bvec, b: Bvec) returns (m: nat)
    requires k < |bvs| && b == bvs[k] && Len(Segs(q, false, bvs, |bvs|)) <= sg.Length
    requires Mapped(q, bvs, k, sg, n, prev)
    modifies sg
    ensures n <= m && Mapped(q, bvs, k + 1, sg, m, b)
    ensures forall e | m <= e < sg.Length :: sg[e] == old(sg[e])
  {
    PrefixHasFewer(q, bvs, k + 1);
    ghost var g := Segs(q, false, bvs, k);
    MappingMore(q, g, prev, b);
    m := MapBvec(q, sg, n, prev, b, Mapping(g), Mapping(Placed(q, false, g, b)));
  }

  /** One step of the mapping loop. */
  method MapBvec(q: Queue, sg: array<Sg>, n: nat, prev: Bvec, b: Bvec, ghost l: seq<Sg>, ghost l': seq<Sg>)
    returns (m: nat)
    requires Holds(l, sg, n) && OneMore(q, l, l', prev, b) && |l'| <= sg.Length
    modifies sg
    ensures n <= m && Holds(l', sg, m)
    ensures forall k | m <= k < sg.Length :: sg[k] == old(sg[k])
  {
    if n > 0 && q.cluster && sg[n-1].len + b.len <= q.maxSegSize && Joins(q, prev, b) {
      sg[n-1] := sg[n-1].(len := sg[n-1].len + b.len);
      m := n;
    } else {
      sg[n] := Sg(b.addr, b.len);
      m := n + 1;
    }
  }

  /** bio_phys_segments: the segment information of a bio, recounted if it is not valid. */
  method AskSegments(q: Queue, b: Bio) returns (r: Bio)
    ensures r == Refreshed(q, b)
  {
    if b.valid {
      return b;
    }
    var c := CountSegments(q, [b]);
    r := if |c.bios| == 1 then c.bios[0].(phys := c.nr, valid := true) else b;
  }
}
