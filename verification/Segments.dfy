/** Physical segments of a request (blk-merge.c): the pass that counts them, the pass that maps
    them to a scatter list, and what makes the count an upper bound of the list. */
module Segments {
  import opened Lists

  /** A bio_vec by its physical address and length in bytes. */
  datatype Bvec = Bvec(addr: nat, len: nat)

  /** Queue limits.  `window` maps an address to the segment boundary window it falls in (the
      original computes the address or-ed with the boundary mask); `bounceFrom` is the first
      address of the pages that have to be bounced. */
  datatype Queue = Queue(cluster: bool, maxSegSize: nat, window: int -> int, bounceFrom: nat,
                         maxPhysSegs: nat, maxHwSegs: nat, maxSectors: nat, maxHwSectors: nat)

  /** A list of segments, last one first. */
  datatype Parts = Nil | Snoc(init: Parts, last: seq<Bvec>)

  function Len(p: Parts): nat {
    match p
    case Nil => 0
    case Snoc(i, _) => Len(i) + 1
  }

  /** The data of the segments, in order. */
  function Flat(p: Parts): seq<Bvec> {
    match p
    case Nil => []
    case Snoc(i, s) => Flat(i) + s
  }

  function First(p: Parts): seq<Bvec> {
    match p
    case Nil => []
    case Snoc(i, s) => if i == Nil then s else First(i)
  }

  function Bytes(s: seq<Bvec>): nat {
    if s == [] then 0 else Bytes(s[..|s|-1]) + s[|s|-1].len
  }

  predicate High(q: Queue, b: Bvec) {
    b.addr >= q.bounceFrom
  }

  /** BIOVEC_PHYS_MERGEABLE and BIOVEC_SEG_BOUNDARY. */
  predicate Joins(q: Queue, a: Bvec, b: Bvec) {
    a.addr + a.len == b.addr && q.window(a.addr) == q.window(b.addr + b.len - 1)
  }

  /** The bvec is added to the open segment.  Counting (`strict`) never lets a page that may be
      bounced share a segment; mapping does. */
  predicate Extends(q: Queue, strict: bool, seg: seq<Bvec>, b: Bvec) {
    && seg != []
    && (strict ==> !High(q, b) && !High(q, seg[0]))
    && q.cluster
    && Bytes(seg) + b.len <= q.maxSegSize
    && Joins(q, seg[|seg|-1], b)
  }

  /** One bvec more. */
  function Placed(q: Queue, strict: bool, g: Parts, b: Bvec): (h: Parts)
    ensures h.Snoc? && h.last != []
  {
    if g.Snoc? && Extends(q, strict, g.last, b) then Snoc(g.init, g.last + [b]) else Snoc(g, [b])
  }

  /** The greedy partition of the first `k` bvecs, as both passes compute it. */
  function Segs(q: Queue, strict: bool, bvs: seq<Bvec>, k: nat): (g: Parts)
    requires k <= |bvs|
    ensures g.Snoc? <==> k > 0
    ensures g.Snoc? ==> g.last != []
  {
    if k == 0 then Nil else Placed(q, strict, Segs(q, strict, bvs, k - 1), bvs[k-1])
  }

  // ---------------------------------------------------------------- partitions

  /** Neighbours join. */
  ghost predicate Chained(q: Queue, seg: seq<Bvec>) {
    forall i, j | 0 <= i && j == i + 1 && j < |seg| :: Joins(q, seg[i], seg[j])
  }

  /** What a scatter entry may describe: one bvec, or several that join within the limits. */
  ghost predicate ValidSeg(q: Queue, seg: seq<Bvec>) {
    && seg != []
    && (|seg| > 1 ==> q.cluster && Bytes(seg) <= q.maxSegSize)
    && Chained(q, seg)
  }

  ghost predicate AllValid(q: Queue, p: Parts) {
    match p
    case Nil => true
    case Snoc(i, s) => AllValid(q, i) && ValidSeg(q, s)
  }

  ghost predicate IsPartition(q: Queue, p: Parts, bvs: seq<Bvec>) {
    Flat(p) == bvs && AllValid(q, p)
  }

  lemma {:induction false} BytesConcat(a: seq<Bvec>, b: seq<Bvec>)
    ensures Bytes(a + b) == Bytes(a) + Bytes(b)
    decreases |b|
  {
    if b == [] {
      assert a + b == a;
    } else {
      var n := |b| - 1;
      BytesConcat(a, b[..n]);
      assert (a + b)[..|a + b|-1] == a + b[..n];
    }
  }

  lemma BytesOne(b: Bvec)
    ensures Bytes([b]) == b.len
  {}

  lemma PlacedPartition(q: Queue, strict: bool, g: Parts, bvs: seq<Bvec>, b: Bvec)
    requires IsPartition(q, g, bvs)
    ensures IsPartition(q, Placed(q, strict, g, b), bvs + [b])
  {
    hide ValidSeg;
    if g.Snoc? && Extends(q, strict, g.last, b) {
      ExtendedIsValid(q, strict, g.last, b);
      Assoc(Flat(g.init), g.last, [b]);
    } else {
      AloneIsValid(q, b);
    }
  }

  lemma AloneIsValid(q: Queue, b: Bvec)
    ensures ValidSeg(q, [b])
  {}

  lemma ExtendedIsValid(q: Queue, strict: bool, seg: seq<Bvec>, b: Bvec)
    requires ValidSeg(q, seg) && Extends(q, strict, seg, b)
    ensures ValidSeg(q, seg + [b])
  {
    BytesConcat(seg, [b]);
    BytesOne(b);
    var t := seg + [b];
    forall i, j | 0 <= i && j == i + 1 && j < |t| ensures Joins(q, t[i], t[j]) {
      assert j < |seg| ==> Joins(q, seg[i], seg[j]);
    }
  }

  /** Both passes yield a partition into valid segments. */
  lemma {:induction false} SegsPartition(q: Queue, strict: bool, bvs: seq<Bvec>, k: nat)
    requires k <= |bvs|
    ensures IsPartition(q, Segs(q, strict, bvs, k), bvs[..k])
  {
    if k > 0 {
      hide IsPartition, Placed;
      SegsPartition(q, strict, bvs, k - 1);
      PlacedPartition(q, strict, Segs(q, strict, bvs, k - 1), bvs[..k-1], bvs[k-1]);
      assert bvs[..k] == bvs[..k-1] + [bvs[k-1]];
    }
  }

  // ---------------------------------------------------------------- both passes are optimal

  /** A page that may be bounced is alone in its segment, if the pass is strict about it. */
  ghost predicate Apart(q: Queue, strict: bool, seg: seq<Bvec>) {
    strict && |seg| > 1 ==> forall b | b in seg :: !High(q, b)
  }

  ghost predicate AllApart(q: Queue, strict: bool, p: Parts) {
    match p
    case Nil => true
    case Snoc(i, s) => AllApart(q, strict, i) && Apart(q, strict, s)
  }

  lemma {:induction false} FreeIsApart(q: Queue, p: Parts)
    ensures AllApart(q, false, p)
  {
    if p.Snoc? { FreeIsApart(q, p.init); }
  }

  /** The counting pass keeps such pages apart. */
  lemma {:induction false} SegsApart(q: Queue, strict: bool, bvs: seq<Bvec>, k: nat)
    requires k <= |bvs|
    ensures AllApart(q, strict, Segs(q, strict, bvs, k))
  {
    if k > 0 {
      hide Apart;
      SegsApart(q, strict, bvs, k - 1);
      PlacedApart(q, strict, Segs(q, strict, bvs, k - 1), bvs[k-1]);
    }
  }

  lemma PlacedApart(q: Queue, strict: bool, g: Parts, b: Bvec)
    requires AllApart(q, strict, g)
    ensures AllApart(q, strict, Placed(q, strict, g, b))
  {
    if g.Snoc? && Extends(q, strict, g.last, b) {
      assert |g.last| == 1 ==> g.last == [g.last[0]];
    }
  }

  /** A tail of a segment that may take one more bvec may take it too. */
  lemma TailExtends(q: Queue, strict: bool, seg: seq<Bvec>, b: Bvec, k: nat)
    requires k < |seg| && ValidSeg(q, seg + [b]) && Apart(q, strict, seg + [b])
    ensures Extends(q, strict, seg[k..], b)
  {
    assert b in seg + [b] && seg[k] in seg + [b];
    assert seg + [b] == seg[..k] + (seg[k..] + [b]);
    BytesConcat(seg[..k], seg[k..] + [b]);
    BytesConcat(seg[k..], [b]);
    BytesOne(b);
    var t, n := seg + [b], |seg|;
    assert Joins(q, t[n-1], t[n]);
  }

  lemma ShorterIsValid(q: Queue, seg: seq<Bvec>)
    requires ValidSeg(q, seg) && |seg| > 1
    ensures ValidSeg(q, seg[..|seg|-1])
  {}

  /** Against the partition `p`, `g` has fewer segments, or as many and its last segment is not
      longer. */
  ghost predicate NoWorse(g: Parts, p: Parts) {
    Len(g) < Len(p) || (Len(g) == Len(p) && (g.Snoc? && p.Snoc? ==> |g.last| <= |p.last|))
  }

  /** The last segment of the greedy partition is a tail of the data. */
  lemma LastIsTail(q: Queue, strict: bool, bvs: seq<Bvec>, k: nat)
    requires 0 < k <= |bvs|
    ensures var t := Segs(q, strict, bvs, k).last; |t| <= k && bvs[k-|t|..k] == t
  {
    SegsPartition(q, strict, bvs, k);
    var g := Segs(q, strict, bvs, k);
    assert bvs[..k] == Flat(g.init) + g.last;
  }

  /** Placing one bvec keeps the greedy partition no worse, if the other partition grew a
      segment that is already open by that bvec. */
  lemma StaysNoWorse(q: Queue, strict: bool, bvs: seq<Bvec>, k: nat, p: Parts, shorter: seq<Bvec>, b: Bvec)
    requires k < |bvs| && b == bvs[k] && shorter != [] && ValidSeg(q, shorter + [b]) && Apart(q, strict, shorter + [b])
    requires |shorter| <= k && bvs[k-|shorter|..k] == shorter
    requires NoWorse(Segs(q, strict, bvs, k), Snoc(p, shorter))
    ensures NoWorse(Segs(q, strict, bvs, k + 1), Snoc(p, shorter + [b]))
  {
    hide Apart, ValidSeg;
    var g := Segs(q, strict, bvs, k);
    if Len(g) == Len(p) + 1 {
      LastIsTail(q, strict, bvs, k);
      var i := |shorter| - |g.last|;
      assert shorter[i..] == g.last;
      TailExtends(q, strict, shorter, b, i);
    }
  }

  /** A partition of `k` bvecs without its last one. */
  lemma Peeled(q: Queue, strict: bool, bvs: seq<Bvec>, k: nat, p: Parts) returns (shorter: seq<Bvec>)
    requires 0 < k <= |bvs| && IsPartition(q, p, bvs[..k]) && AllApart(q, strict, p)
    ensures p.Snoc? && p.last == shorter + [bvs[k-1]] && ValidSeg(q, p.last) && Apart(q, strict, p.last)
    ensures AllApart(q, strict, if shorter == [] then p.init else Snoc(p.init, shorter))
    ensures |shorter| < k && bvs[k-1-|shorter|..k-1] == shorter
    ensures IsPartition(q, if shorter == [] then p.init else Snoc(p.init, shorter), bvs[..k-1])
  {
    assert p.Snoc?;
    var front, last := Flat(p.init), p.last;
    assert bvs[..k] == front + last;
    shorter := last[..|last|-1];
    assert last == shorter + [bvs[k-1]];
    assert front + shorter == bvs[..k-1];
    if shorter != [] {
      ShorterIsValid(q, last);
    }
  }

  lemma NewSegment(q: Queue, strict: bool, bvs: seq<Bvec>, k: nat, p: Parts)
    requires k < |bvs| && NoWorse(Segs(q, strict, bvs, k), p)
    ensures NoWorse(Segs(q, strict, bvs, k + 1), Snoc(p, [bvs[k]]))
  {}

  /** No partition into valid segments has fewer of them than the pass, if it keeps apart what the
      pass keeps apart. */
  lemma {:induction false} GreedyOptimal(q: Queue, strict: bool, bvs: seq<Bvec>, k: nat, p: Parts)
    requires k <= |bvs| && IsPartition(q, p, bvs[..k]) && AllApart(q, strict, p)
    ensures NoWorse(Segs(q, strict, bvs, k), p)
    decreases k
  {
    hide IsPartition, Segs, NoWorse, ValidSeg, AllApart, Apart;
    if k == 0 {
      NothingIsBest(q, strict, bvs, p);
    } else {
      var b := bvs[k-1];
      var shorter := Peeled(q, strict, bvs, k, p);
      if shorter == [] {
        GreedyOptimal(q, strict, bvs, k - 1, p.init);
        NewSegment(q, strict, bvs, k - 1, p.init);
        assert p == Snoc(p.init, [b]);
      } else {
        GreedyOptimal(q, strict, bvs, k - 1, Snoc(p.init, shorter));
        StaysNoWorse(q, strict, bvs, k - 1, p.init, shorter, b);
        assert p == Snoc(p.init, shorter + [b]);
      }
    }
  }

  lemma NothingIsBest(q: Queue, strict: bool, bvs: seq<Bvec>, p: Parts)
    ensures NoWorse(Segs(q, strict, bvs, 0), p)
  {}

  // ---------------------------------------------------------------- the witness behind a count

  /** `p` shows that `nr` segments suffice for the data, with a first and a last segment no
      larger than the sizes kept beside the count. */
  ghost predicate Witness(q: Queue, p: Parts, bvs: seq<Bvec>, nr: nat, front: nat, back: nat) {
    && IsPartition(q, p, bvs)
    && p.Snoc? && Len(p) == nr
    && Bytes(First(p)) <= front && Bytes(p.last) <= back
  }

  ghost predicate Accurate(q: Queue, bvs: seq<Bvec>, nr: nat, front: nat, back: nat) {
    exists p :: Witness(q, p, bvs, nr, front, back)
  }

  lemma ByWitness(q: Queue, p: Parts, bvs: seq<Bvec>, nr: nat, front: nat, back: nat)
    requires IsPartition(q, p, bvs)
    requires p.Snoc? && Len(p) == nr && Bytes(First(p)) <= front && Bytes(p.last) <= back
    ensures Accurate(q, bvs, nr, front, back)
  {
    assert Witness(q, p, bvs, nr, front, back);
  }

  /** Any accurate count is enough for the scatter list. */
  lemma CountSuffices(q: Queue, bvs: seq<Bvec>, nr: nat, front: nat, back: nat)
    requires Accurate(q, bvs, nr, front, back)
    ensures Len(Segs(q, false, bvs, |bvs|)) <= nr && nr > 0
  {
    var p :| Witness(q, p, bvs, nr, front, back);
    assert bvs[..|bvs|] == bvs;
    FreeIsApart(q, p);
    GreedyOptimal(q, false, bvs, |bvs|, p);
  }

  function Append(p: Parts, r: Parts): Parts {
    match r
    case Nil => p
    case Snoc(i, s) => Snoc(Append(p, i), s)
  }

  lemma {:induction false} AppendFacts(q: Queue, p: Parts, r: Parts)
    ensures Flat(Append(p, r)) == Flat(p) + Flat(r)
    ensures Len(Append(p, r)) == Len(p) + Len(r)
    ensures AllValid(q, p) && AllValid(q, r) ==> AllValid(q, Append(p, r))
    ensures p.Snoc? ==> Append(p, r).Snoc? && First(Append(p, r)) == First(p)
  {
    match r
    case Nil =>
    case Snoc(i, s) =>
      AppendFacts(q, p, i);
      Assoc(Flat(p), Flat(i), s);
  }

  /** Side by side: the counts add up. */
  lemma SideBySide(q: Queue, a: seq<Bvec>, n: nat, f: nat, k: nat, b: seq<Bvec>, m: nat, g: nat, l: nat)
    requires Accurate(q, a, n, f, k) && Accurate(q, b, m, g, l)
    ensures Accurate(q, a + b, n + m, f, l)
  {
    var p :| Witness(q, p, a, n, f, k);
    var r :| Witness(q, r, b, m, g, l);
    AppendFacts(q, p, r);
    assert Witness(q, Append(p, r), a + b, n + m, f, l);
  }

  /** The last segment of `p` and the first of `r` become one. */
  function Glue(p: Parts, r: Parts): Parts
    requires p.Snoc? && r.Snoc?
  {
    if r.init == Nil then Snoc(p.init, p.last + r.last) else Snoc(Glue(p, r.init), r.last)
  }

  lemma GluedIsValid(q: Queue, s: seq<Bvec>, t: seq<Bvec>)
    requires ValidSeg(q, s) && ValidSeg(q, t)
    requires q.cluster && Bytes(s) + Bytes(t) <= q.maxSegSize && Joins(q, s[|s|-1], t[0])
    ensures ValidSeg(q, s + t) && Bytes(s + t) == Bytes(s) + Bytes(t)
  {
    BytesConcat(s, t);
    var u := s + t;
    forall i, j | 0 <= i && j == i + 1 && j < |u| ensures Joins(q, u[i], u[j]) {
      if j < |s| {
        assert Joins(q, s[i], s[j]);
      } else if i >= |s| {
        assert Joins(q, t[i-|s|], t[j-|s|]);
      }
    }
  }

  lemma {:induction false} GlueFacts(q: Queue, p: Parts, r: Parts)
    requires p.Snoc? && r.Snoc? && AllValid(q, p) && AllValid(q, r) && ValidSeg(q, p.last + First(r))
    ensures Flat(Glue(p, r)) == Flat(p) + Flat(r)
    ensures Len(Glue(p, r)) == Len(p) + Len(r) - 1
    ensures AllValid(q, Glue(p, r))
    ensures First(Glue(p, r)) == if p.init == Nil then p.last + First(r) else First(p)
    ensures Glue(p, r).last == if r.init == Nil then p.last + First(r) else r.last
  {
    if r.init == Nil {
      assert Flat(r) == r.last;
      Assoc(Flat(p.init), p.last, r.last);
    } else {
      GlueFacts(q, p, r.init);
      Assoc(Flat(p), Flat(r.init), r.last);
    }
  }

  lemma {:induction false} FirstFacts(q: Queue, p: Parts)
    requires p.Snoc? && AllValid(q, p)
    ensures ValidSeg(q, First(p)) && First(p)[0] == Flat(p)[0] && (Len(p) == 1 <==> p.init == Nil)
    ensures Flat(p) != [] && p.last[|p.last|-1] == Flat(p)[|Flat(p)|-1]
  {
    if p.init != Nil { FirstFacts(q, p.init); }
  }

  /** Joined: one segment fewer; a single segment takes the joined size at both its ends. */
  lemma Joined(q: Queue, a: seq<Bvec>, n: nat, f: nat, k: nat, b: seq<Bvec>, m: nat, g: nat, l: nat)
    requires Accurate(q, a, n, f, k) && Accurate(q, b, m, g, l)
    requires a != [] && b != []
    requires q.cluster && k + g <= q.maxSegSize && Joins(q, a[|a|-1], b[0])
    ensures n + m > 0 && Accurate(q, a + b, n + m - 1, if n == 1 then k + g else f, if m == 1 then k + g else l)
  {
    var p :| Witness(q, p, a, n, f, k);
    var r :| Witness(q, r, b, m, g, l);
    FirstFacts(q, p);
    FirstFacts(q, r);
    GluedIsValid(q, p.last, First(r));
    GlueFacts(q, p, r);
    assert Witness(q, Glue(p, r), a + b, n + m - 1, if n == 1 then k + g else f, if m == 1 then k + g else l);
  }

  /** Sizes that bound stay bounds when they grow. */
  lemma Grown(q: Queue, bvs: seq<Bvec>, n: nat, f: nat, k: nat, f': nat, k': nat)
    requires Accurate(q, bvs, n, f, k) && f <= f' && k <= k'
    ensures Accurate(q, bvs, n, f', k')
  {
    var p :| Witness(q, p, bvs, n, f, k);
    assert Witness(q, p, bvs, n, f', k');
  }

  /** A single segment bounds both ends. */
  lemma SingleSegment(q: Queue, bvs: seq<Bvec>, f: nat, k: nat)
    requires Accurate(q, bvs, 1, f, k)
    ensures Accurate(q, bvs, 1, k, k) && Accurate(q, bvs, 1, f, f)
  {
    var p :| Witness(q, p, bvs, 1, f, k);
    FirstFacts(q, p);
    assert Witness(q, p, bvs, 1, k, k);
    assert Witness(q, p, bvs, 1, f, f);
  }

  // ---------------------------------------------------------------- the scatter list

  /** One scatter list entry. */
  datatype Sg = Sg(addr: nat, len: nat)

  function EntryOf(seg: seq<Bvec>): Sg {
    if seg == [] then Sg(0, 0) else Sg(seg[0].addr, Bytes(seg))
  }

  /** The physical addresses of `len` bytes from `addr`. */
  function Range(addr: nat, len: nat): seq<nat> {
    if len == 0 then [] else Range(addr, len - 1) + [addr + len - 1]
  }

  function BvecBytes(bvs: seq<Bvec>): seq<nat> {
    if bvs == [] then [] else BvecBytes(bvs[..|bvs|-1]) + Range(bvs[|bvs|-1].addr, bvs[|bvs|-1].len)
  }

  /** The bytes that the entries for the segments describe. */
  function EntryBytes(p: Parts): seq<nat> {
    match p
    case Nil => []
    case Snoc(i, s) => EntryBytes(i) + Range(EntryOf(s).addr, EntryOf(s).len)
  }

  lemma {:induction false} BvecBytesConcat(a: seq<Bvec>, b: seq<Bvec>)
    ensures BvecBytes(a + b) == BvecBytes(a) + BvecBytes(b)
    decreases |b|
  {
    if b == [] {
      assert a + b == a;
    } else {
      var n := |b| - 1;
      BvecBytesConcat(a, b[..n]);
      assert (a + b)[..|a + b|-1] == a + b[..n];
      Assoc(BvecBytes(a), BvecBytes(b[..n]), Range(b[n].addr, b[n].len));
    }
  }

  lemma {:induction false} RangeConcat(a: nat, n: nat, m: nat)
    ensures Range(a, n) + Range(a + n, m) == Range(a, n + m)
  {
    if m > 0 {
      RangeConcat(a, n, m - 1);
      Assoc(Range(a, n), Range(a + n, m - 1), [a + n + m - 1]);
    }
  }

  lemma BvecBytesOne(b: Bvec)
    ensures BvecBytes([b]) == Range(b.addr, b.len)
  {}

  lemma RunOfChain(t: seq<Bvec>, b: Bvec, addr: nat, n: nat)
    requires BvecBytes(t) == Range(addr, n) && addr + n == b.addr
    ensures BvecBytes(t + [b]) == Range(addr, n + b.len)
  {
    BvecBytesConcat(t, [b]);
    BvecBytesOne(b);
    RangeConcat(addr, n, b.len);
  }

  /** The bytes of a valid segment are one physical run. */
  lemma {:induction false} SegmentIsRun(q: Queue, seg: seq<Bvec>)
    requires ValidSeg(q, seg)
    ensures BvecBytes(seg) == Range(seg[0].addr, Bytes(seg))
    ensures seg[0].addr + Bytes(seg) == seg[|seg|-1].addr + seg[|seg|-1].len
    decreases |seg|
  {
    var n := |seg| - 1;
    if n == 0 {
      assert seg == [seg[0]];
      BvecBytesOne(seg[0]);
      BytesOne(seg[0]);
    } else {
      ShorterIsValid(q, seg);
      var t := seg[..n];
      SegmentIsRun(q, t);
      assert Joins(q, seg[n-1], seg[n]);
      assert seg == t + [seg[n]];
      RunOfChain(t, seg[n], seg[0].addr, Bytes(t));
      BytesConcat(t, [seg[n]]);
      BytesOne(seg[n]);
    }
  }

  /** The address or-ed with the boundary mask grows with the address. */
  ghost predicate Monotone(window: int -> int) {
    forall a, b | a <= b :: window(a) <= window(b)
  }

  /** The last byte of a bvec. */
  function LastByte(b: Bvec): int {
    b.addr + b.len - 1
  }

  /** A segment of several bvecs lies within one boundary window as a whole, although only
      neighbouring bvecs are compared. */
  lemma {:induction false} OneWindow(q: Queue, seg: seq<Bvec>)
    requires ValidSeg(q, seg) && |seg| > 1 && Monotone(q.window) && forall b | b in seg :: b.len > 0
    ensures seg[0].addr <= LastByte(seg[|seg|-1])
    ensures forall a | seg[0].addr <= a <= LastByte(seg[|seg|-1]) :: q.window(a) == q.window(seg[0].addr)
    decreases |seg|
  {
    var n := |seg| - 1;
    assert Joins(q, seg[n-1], seg[n]) && seg[n-1] in seg && seg[n] in seg;
    if n > 1 {
      ShorterIsValid(q, seg);
      OneWindow(q, seg[..n]);
      assert seg[..n][n-1] == seg[n-1] && q.window(LastByte(seg[n-1])) == q.window(seg[0].addr);
    }
    assert q.window(LastByte(seg[n])) == q.window(seg[0].addr);
  }

  /** The scatter list describes exactly the bytes of the data, in order. */
  lemma {:induction false} SameBytes(q: Queue, p: Parts)
    requires AllValid(q, p)
    ensures EntryBytes(p) == BvecBytes(Flat(p))
  {
    match p
    case Nil =>
    case Snoc(i, s) =>
      SameBytes(q, i);
      SegmentIsRun(q, s);
      BvecBytesConcat(Flat(i), s);
  }

  /** What blk_rq_map_sg produces: the same bytes, entries of more than one bvec within the
      maximum segment size, and every joined pair contiguous and inside one boundary window. */
  lemma MappedList(q: Queue, bvs: seq<Bvec>)
    ensures var g := Segs(q, false, bvs, |bvs|);
            EntryBytes(g) == BvecBytes(bvs) && Flat(g) == bvs && AllValid(q, g)
  {
    SegsPartition(q, false, bvs, |bvs|);
    assert bvs[..|bvs|] == bvs;
    SameBytes(q, Segs(q, false, bvs, |bvs|));
  }
}
