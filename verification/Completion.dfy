/** Partial completion of a request (blk-core.c, blk_update_request and req_bio_endio) for
    requests other than the barrier proxy. */
module Completion {
  import opened Lists
  import opened Segments

  const EIO := 5

  /** A bio; the bio_vecs from `idx` on are still to be done, `size` bytes in all. */
  datatype Bio = Bio(id: nat, vecs: seq<Bvec>, idx: nat, size: nat, sector: nat, uptodate: bool)

  /** The bios of a request, linked by bi_next. */
  datatype Chain = Empty | Cons(bio: Bio, next: Chain)

  /** bio_endio has been called. */
  datatype End = End(id: nat, error: int)

  /** `sectored` says that the request has a clear definition of sector. */
  datatype Request = Request(bios: Chain, dataLen: nat, sector: nat, sectored: bool, ended: seq<End>)

  // ---------------------------------------------------------------- what the data are

  /** The physical addresses of the bytes from bio_vec `i` on. */
  ghost function VecData(vecs: seq<Bvec>, i: nat): seq<nat>
    decreases |vecs| - i
  {
    if i >= |vecs| then [] else Range(vecs[i].addr, vecs[i].len) + VecData(vecs, i + 1)
  }

  ghost function BioData(b: Bio): seq<nat> {
    VecData(b.vecs, b.idx)
  }

  /** The physical addresses of the bytes still to be done, in order. */
  ghost function Data(c: Chain): seq<nat> {
    match c
    case Empty => []
    case Cons(b, n) => BioData(b) + Data(n)
  }

  ghost predicate BioOk(b: Bio) {
    && b.idx <= |b.vecs|
    && (forall i | b.idx <= i < |b.vecs| :: b.vecs[i].len > 0)
    && b.size == |BioData(b)|
  }

  ghost predicate AllOk(c: Chain) {
    c.Cons? ==> BioOk(c.bio) && c.bio.size > 0 && AllOk(c.next)
  }

  /** Only the first bio may be without data. */
  ghost predicate BiosOk(c: Chain) {
    c.Cons? ==> BioOk(c.bio) && AllOk(c.next)
  }

  ghost predicate Ok(r: Request) {
    BiosOk(r.bios) && r.dataLen == |Data(r.bios)|
  }

  /** The bio_vec in which byte `n` from the start of bio_vec `i` falls, and where in it. */
  function Seek(vecs: seq<Bvec>, i: nat, n: nat): (r: (nat, nat))
    requires i <= |vecs|
    ensures i <= r.0 <= |vecs|
    decreases |vecs| - i
  {
    if i < |vecs| && n >= vecs[i].len then Seek(vecs, i + 1, n - vecs[i].len) else (i, n)
  }

  // ---------------------------------------------------------------- exactly the first bytes

  lemma {:induction false} RangeLength(a: nat, n: nat)
    ensures |Range(a, n)| == n
  {
    if n > 0 { RangeLength(a, n - 1); }
  }

  lemma RangeTail(a: nat, n: nat, m: nat)
    requires m <= n
    ensures |Range(a, n)| == n && Range(a, n)[m..] == Range(a + m, n - m)
  {
    RangeLength(a, n);
    RangeLength(a, m);
    RangeConcat(a, m, n - m);
  }

  /** Dropping within the first of two parts, and beyond it. */
  lemma DropConcat<T>(a: seq<T>, b: seq<T>, n: nat)
    requires n <= |a| + |b|
    ensures (a + b)[n..] == if n <= |a| then a[n..] + b else b[n-|a|..]
  {}

  /** Within the data the search ends inside a bio_vec, and what follows is the rest. */
  lemma {:induction false} SeekFinds(vecs: seq<Bvec>, i: nat, n: nat)
    requires i <= |vecs| && n < |VecData(vecs, i)|
    ensures var k := Seek(vecs, i, n);
            && k.0 < |vecs| && k.1 < vecs[k.0].len
            && VecData(vecs, i)[n..] == Range(vecs[k.0].addr + k.1, vecs[k.0].len - k.1) + VecData(vecs, k.0 + 1)
    decreases |vecs| - i
  {
    hide Range, VecData;
    VecStep(vecs, i, n);
    if n >= vecs[i].len { SeekFinds(vecs, i + 1, n - vecs[i].len); }
  }

  /** Byte `n` falls in this bio_vec or in a later one. */
  lemma VecStep(vecs: seq<Bvec>, i: nat, n: nat)
    requires i <= |vecs| && n < |VecData(vecs, i)|
    ensures i < |vecs|
    ensures var v, later := vecs[i], VecData(vecs, i + 1);
            if n < v.len then VecData(vecs, i)[n..] == Range(v.addr + n, v.len - n) + later
            else n - v.len < |later| && VecData(vecs, i)[n..] == later[n - v.len..]
  {
    hide Range;
    var v := vecs[i];
    RangeTail(v.addr, v.len, if n < v.len then n else v.len);
    DropConcat(Range(v.addr, v.len), VecData(vecs, i + 1), n);
    if n == v.len { assert Range(v.addr, v.len)[n..] + VecData(vecs, i + 1) == VecData(vecs, i + 1)[0..]; }
  }

  // ---------------------------------------------------------------- completing

  /** The first `k.1` bytes of bio_vec `k.0` are done. */
  function Cut(vecs: seq<Bvec>, k: (nat, nat)): seq<Bvec>
    requires k.0 < |vecs| && k.1 <= vecs[k.0].len
  {
    vecs[k.0 := Bvec(vecs[k.0].addr + k.1, vecs[k.0].len - k.1)]
  }

  /** The bio after its first `n` bytes, fewer than it has left, have been done. */
  ghost function Trim(b: Bio, n: nat, error: int): Bio
    requires BioOk(b) && n < b.size
  {
    SeekFinds(b.vecs, b.idx, n);
    var k := Seek(b.vecs, b.idx, n);
    if n == 0 then b
    else Bio(b.id, Cut(b.vecs, k), k.0, b.size - n, b.sector + n / 512, b.uptodate && error == 0)
  }

  function EndOf(b: Bio, error: int): End {
    End(b.id, if error != 0 then error else if b.uptodate then 0 else -EIO)
  }

  /** The bios left after `n` bytes. */
  ghost function Rest(c: Chain, n: nat, error: int): Chain
    requires BiosOk(c)
  {
    match c
    case Empty => Empty
    case Cons(b, next) => if n >= b.size then Rest(next, n - b.size, error) else Cons(Trim(b, n, error), next)
  }

  /** The calls of bio_endio for `n` bytes. */
  function Ends(c: Chain, n: nat, error: int): seq<End> {
    match c
    case Empty => []
    case Cons(b, next) => if n >= b.size then [EndOf(b, error)] + Ends(next, n - b.size, error) else []
  }

  /** blk_update_request; it returns whether bios are left. */
  ghost function Completed(r: Request, error: int, n: nat): Request
    requires Ok(r)
  {
    var rest, ended := Rest(r.bios, n, error), r.ended + Ends(r.bios, n, error);
    if r.bios == Empty then r
    else if rest == Empty then r.(bios := Empty, dataLen := 0, ended := ended)
    else
      RestData(r.bios, n, error);
      r.(bios := rest, dataLen := r.dataLen - n, ended := ended,
         sector := if r.sectored then r.sector + n / 512 else r.sector)
  }

  lemma {:induction false} SameTail(v: seq<Bvec>, w: seq<Bvec>, i: nat)
    requires |w| == |v| && forall j | i <= j < |v| :: w[j] == v[j]
    ensures VecData(w, i) == VecData(v, i)
    decreases |v| - i
  {
    if i < |v| { SameTail(v, w, i + 1); }
  }

  lemma TrimBytes(b: Bio, n: nat, error: int)
    requires BioOk(b) && 0 < n < b.size
    ensures BioData(Trim(b, n, error)) == BioData(b)[n..]
  {
    SeekFinds(b.vecs, b.idx, n);
    var k := Seek(b.vecs, b.idx, n);
    SameTail(b.vecs, Cut(b.vecs, k), k.0 + 1);
  }

  /** The bio keeps its invariant and loses exactly its first `n` bytes. */
  lemma TrimData(b: Bio, n: nat, error: int)
    requires BioOk(b) && n < b.size
    ensures var t := Trim(b, n, error); BioOk(t) && t.size == b.size - n && BioData(t) == BioData(b)[n..]
  {
    if n > 0 {
      TrimBytes(b, n, error);
      SeekFinds(b.vecs, b.idx, n);
    }
  }

  /** What is left are exactly the bytes after the first `n`; nothing is left if there were no
      more than these. */
  lemma {:induction false} RestData(c: Chain, n: nat, error: int)
    requires BiosOk(c)
    ensures var rest := Rest(c, n, error);
            && BiosOk(rest) && (rest == Empty <==> n >= |Data(c)|)
            && Data(rest) == if n <= |Data(c)| then Data(c)[n..] else []
  {
    if c.Cons? {
      var b := c.bio;
      if n <= |Data(c)| { DropConcat(BioData(b), Data(c.next), n); }
      if n >= b.size {
        RestData(c.next, n - b.size, error);
      } else {
        TrimData(b, n, error);
      }
    }
  }

  /** A completion keeps the length in step with the data and removes exactly the first bytes. */
  lemma CompletedData(r: Request, error: int, n: nat)
    requires Ok(r)
    ensures var d := Completed(r, error, n);
            && Ok(d) && (d.bios == Empty <==> n >= |Data(r.bios)|)
            && Data(d.bios) == if n <= |Data(r.bios)| then Data(r.bios)[n..] else []
  {
    RestData(r.bios, n, error);
  }

  // ---------------------------------------------------------------- every bio once, in order

  function Ids(c: Chain): seq<nat> {
    match c
    case Empty => []
    case Cons(b, n) => [b.id] + Ids(n)
  }

  function EndIds(e: seq<End>): seq<nat> {
    if e == [] then [] else [e[0].id] + EndIds(e[1..])
  }

  lemma {:induction false} AppendIds(a: seq<End>, b: seq<End>)
    ensures EndIds(a + b) == EndIds(a) + EndIds(b)
    decreases |a|
  {
    if a == [] {
      assert a + b == b;
    } else {
      AppendIds(a[1..], b);
      assert (a + b)[1..] == a[1..] + b;
    }
  }

  /** The first `k` bios are ended, in order, each with the error of the call, or with -EIO if an
      earlier part of it has failed. */
  ghost predicate EndedAre(c: Chain, e: seq<End>, error: int) {
    e == [] || (c.Cons? && e[0] == EndOf(c.bio, error) && EndedAre(c.next, e[1..], error))
  }

  /** No bio is ended twice, lost or ended out of order. */
  lemma {:induction false} EndsAre(c: Chain, n: nat, error: int)
    requires BiosOk(c)
    ensures EndedAre(c, Ends(c, n, error), error)
    ensures EndIds(Ends(c, n, error)) + Ids(Rest(c, n, error)) == Ids(c)
  {
    if c.Cons? && n >= c.bio.size {
      EndsAre(c.next, n - c.bio.size, error);
      var e := Ends(c.next, n - c.bio.size, error);
      AppendIds([EndOf(c.bio, error)], e);
      assert ([EndOf(c.bio, error)] + e)[1..] == e;
    }
  }

  datatype Call = Call(error: int, n: nat)

  function Sum(calls: seq<Call>): nat {
    if calls == [] then 0 else Sum(calls[..|calls|-1]) + calls[|calls|-1].n
  }

  /** The request after a run of completions. */
  ghost function AfterAll(r: Request, calls: seq<Call>): (d: Request)
    requires Ok(r)
    ensures Ok(d)
  {
    if calls == [] then r
    else
      var m, c := AfterAll(r, calls[..|calls|-1]), calls[|calls|-1];
      CompletedData(m, c.error, c.n);
      Completed(m, c.error, c.n)
  }

  lemma CompletedIds(m: Request, error: int, n: nat)
    requires Ok(m)
    ensures var d := Completed(m, error, n); EndIds(d.ended) + Ids(d.bios) == EndIds(m.ended) + Ids(m.bios)
  {
    var e, rest := Ends(m.bios, n, error), Rest(m.bios, n, error);
    EndsAre(m.bios, n, error);
    AppendIds(m.ended, e);
    Assoc(EndIds(m.ended), EndIds(e), Ids(rest));
  }

  function Dropped(s: seq<nat>, n: nat): seq<nat> {
    if n <= |s| then s[n..] else []
  }

  lemma DropTwice(s: seq<nat>, a: nat, b: nat)
    ensures Dropped(Dropped(s, a), b) == Dropped(s, a + b)
  {}

  /** However a request is completed in parts, exactly that many bytes are gone from its front. */
  lemma {:induction false} RunData(r: Request, calls: seq<Call>)
    requires Ok(r)
    ensures var n := Sum(calls);
            Data(AfterAll(r, calls).bios) == if n <= |Data(r.bios)| then Data(r.bios)[n..] else []
    decreases |calls|
  {
    if calls == [] {
      assert Data(r.bios)[0..] == Data(r.bios);
    } else {
      var pre, c := calls[..|calls|-1], calls[|calls|-1];
      RunData(r, pre);
      RunStep(AfterAll(r, pre), c.error, c.n, Data(r.bios), Sum(pre));
    }
  }

  lemma RunStep(m: Request, error: int, n: nat, data: seq<nat>, done: nat)
    requires Ok(m) && Data(m.bios) == Dropped(data, done)
    ensures Data(Completed(m, error, n).bios) == Dropped(data, done + n)
  {
    hide Completed, Data;
    CompletedData(m, error, n);
    DropTwice(data, done, n);
  }

  /** It is over exactly when all bytes have been done. */
  lemma RunEnds(r: Request, calls: seq<Call>)
    requires Ok(r) && calls != []
    ensures AfterAll(r, calls).bios == Empty <==> Sum(calls) >= |Data(r.bios)|
  {
    var pre, c := calls[..|calls|-1], calls[|calls|-1];
    RunData(r, pre);
    CompletedData(AfterAll(r, pre), c.error, c.n);
  }

  /** The bios ended so far followed by those left are the bios it had, in order. */
  lemma {:induction false} RunConserves(r: Request, calls: seq<Call>)
    requires Ok(r)
    ensures var d := AfterAll(r, calls); EndIds(d.ended) + Ids(d.bios) == EndIds(r.ended) + Ids(r.bios)
    decreases |calls|
  {
    if calls != [] {
      var pre, c := calls[..|calls|-1], calls[|calls|-1];
      RunConserves(r, pre);
      CompletedIds(AfterAll(r, pre), c.error, c.n);
    }
  }

  // ---------------------------------------------------------------- two completions and one

  /** The same bio as far as what is left of it goes; its sector may differ. */
  ghost predicate SameBio(x: Bio, y: Bio) {
    && x.id == y.id && x.idx == y.idx && x.size == y.size && x.uptodate == y.uptodate
    && |x.vecs| == |y.vecs| && forall i | x.idx <= i < |x.vecs| :: x.vecs[i] == y.vecs[i]
  }

  ghost predicate SameBios(x: Chain, y: Chain) {
    x.Cons? == y.Cons? && (x.Cons? ==> SameBio(x.bio, y.bio) && SameBios(x.next, y.next))
  }

  predicate SameSectors(x: Chain, y: Chain) {
    x.Cons? && y.Cons? ==> x.bio.sector == y.bio.sector && SameSectors(x.next, y.next)
  }

  /** The sum of two byte counts starts no sector that its parts do not start. */
  predicate NoCarry(a: nat, c: nat) {
    a % 512 + c % 512 < 512
  }

  lemma {:induction false} SeekOn(vecs: seq<Bvec>, i: nat, a: nat, c: nat)
    requires i <= |vecs| && Seek(vecs, i, a).0 < |vecs|
    ensures var k := Seek(vecs, i, a); Seek(vecs, i, a + c) == Seek(vecs, k.0, k.1 + c)
    decreases |vecs| - i
  {
    if a >= vecs[i].len { SeekOn(vecs, i + 1, a - vecs[i].len, c); }
  }

  lemma {:induction false} SeekAgrees(v: seq<Bvec>, w: seq<Bvec>, i: nat, n: nat)
    requires i <= |v| && |w| == |v| && forall j | i <= j < |v| :: w[j] == v[j]
    ensures Seek(w, i, n) == Seek(v, i, n)
    decreases |v| - i
  {
    if i < |v| && n >= v[i].len { SeekAgrees(v, w, i + 1, n - v[i].len); }
  }

  /** The search for `c` more bytes finds the place of `a + c` bytes. */
  lemma CutTwice(vecs: seq<Bvec>, i: nat, a: nat, c: nat)
    requires i <= |vecs| && Seek(vecs, i, a).0 < |vecs| && Seek(vecs, i, a).1 <= vecs[Seek(vecs, i, a).0].len
    requires var t := Seek(vecs, i, a + c); t.0 < |vecs| && t.1 <= vecs[t.0].len
    ensures var k, t := Seek(vecs, i, a), Seek(vecs, i, a + c);
            var w := Cut(vecs, k);
            var s := Seek(w, k.0, c);
            && s.0 == t.0 && s.1 <= w[s.0].len
            && forall j | s.0 <= j < |vecs| :: Cut(w, s)[j] == Cut(vecs, t)[j]
  {
    var k := Seek(vecs, i, a);
    SeekOn(vecs, i, a, c);
    SeekShortened(vecs, k.0, k.1, c);
  }

  lemma SeekShortened(vecs: seq<Bvec>, k: nat, m: nat, c: nat)
    requires k < |vecs| && m <= vecs[k].len
    ensures var s, t := Seek(Cut(vecs, (k, m)), k, c), Seek(vecs, k, m + c);
            s.0 == t.0 && s.1 == if s.0 == k then t.1 - m else t.1
  {
    if m + c >= vecs[k].len { SeekAgrees(vecs, Cut(vecs, (k, m)), k + 1, m + c - vecs[k].len); }
  }

  lemma Halves(a: nat, c: nat)
    ensures a / 512 + c / 512 == (a + c) / 512 <==> NoCarry(a, c)
  {}

  lemma TrimTwiceVecs(b: Bio, a: nat, c: nat, error: int)
    requires BioOk(b) && a > 0 && c > 0 && a + c < b.size && BioOk(Trim(b, a, error)) && Trim(b, a, error).size == b.size - a
    ensures SameBio(Trim(Trim(b, a, error), c, error), Trim(b, a + c, error))
  {
    SeekFinds(b.vecs, b.idx, a);
    SeekFinds(b.vecs, b.idx, a + c);
    CutTwice(b.vecs, b.idx, a, c);
  }

  /** Two parts of a bio done one after the other or at once. */
  lemma TrimTwice(b: Bio, a: nat, c: nat, error: int)
    requires BioOk(b) && a + c < b.size && BioOk(Trim(b, a, error)) && Trim(b, a, error).size == b.size - a
    ensures var x, y := Trim(Trim(b, a, error), c, error), Trim(b, a + c, error);
            SameBio(x, y) && (x.sector == y.sector <==> NoCarry(a, c))
  {
    if a > 0 && c > 0 { TrimTwiceVecs(b, a, c, error); }
    Halves(a, c);
  }

  /** How many bios are done after `n` bytes, and how far the next one is done. */
  function Stop(c: Chain, n: nat): (nat, nat) {
    match c
    case Empty => (0, 0)
    case Cons(b, next) =>
      if n >= b.size then var s := Stop(next, n - b.size); (s.0 + 1, s.1) else (0, n)
  }

  /** Both completions stop in one bio, and together they start a sector that neither does. */
  predicate Carried(c: Chain, a: nat, k: nat) {
    Stop(c, a).0 == Stop(c, a + k).0 && !NoCarry(Stop(c, a).1, k)
  }

  lemma {:induction false} SelfMatch(x: Chain)
    ensures SameBios(x, x) && SameSectors(x, x)
  {
    if x.Cons? { SelfMatch(x.next); }
  }

  /** The first completion stops in the first bio, and so does the second. */
  lemma BothInFirst(c: Chain, a: nat, k: nat, error: int)
    requires BiosOk(c) && c.Cons? && a + k < c.bio.size && BiosOk(Rest(c, a, error))
    ensures var x, y := Rest(Rest(c, a, error), k, error), Rest(c, a + k, error);
            SameBios(x, y) && (SameSectors(x, y) <==> NoCarry(a, k))
  {
    TrimData(c.bio, a, error);
    TrimTwice(c.bio, a, k, error);
    SelfMatch(c.next);
  }

  /** The first completion stops in the first bio, the second beyond it. */
  lemma PastFirst(c: Chain, a: nat, k: nat, error: int)
    requires BiosOk(c) && c.Cons? && a < c.bio.size <= a + k && BiosOk(Rest(c, a, error))
    ensures Rest(Rest(c, a, error), k, error) == Rest(c, a + k, error)
  {}

  /** Two completions leave what one leaves; the sector of the bio they both stop in is the one
      thing that may differ, and exactly when they carry. */
  lemma {:induction false} RestTwice(c: Chain, a: nat, k: nat, error: int)
    requires BiosOk(c) && BiosOk(Rest(c, a, error))
    ensures var x, y := Rest(Rest(c, a, error), k, error), Rest(c, a + k, error);
            SameBios(x, y) && (SameSectors(x, y) <==> !Carried(c, a, k))
  {
    hide Trim;
    if c.Cons? {
      if a >= c.bio.size {
        RestTwice(c.next, a - c.bio.size, k, error);
      } else if a + k < c.bio.size {
        BothInFirst(c, a, k, error);
      } else {
        PastFirst(c, a, k, error);
        SelfMatch(Rest(c, a + k, error));
      }
    }
  }

  lemma EndsInFirst(c: Chain, a: nat, k: nat, error: int)
    requires BiosOk(c) && c.Cons? && a < c.bio.size
    ensures Ends(Rest(c, a, error), k, error) == Ends(c, a + k, error)
  {}

  lemma {:induction false} EndsTwice(c: Chain, a: nat, k: nat, error: int)
    requires BiosOk(c)
    ensures Ends(c, a, error) + Ends(Rest(c, a, error), k, error) == Ends(c, a + k, error)
  {
    if c.Cons? {
      if a < c.bio.size {
        EndsInFirst(c, a, k, error);
      } else {
        var b, m := c.bio, a - c.bio.size;
        EndsTwice(c.next, m, k, error);
        Assoc([EndOf(b, error)], Ends(c.next, m, error), Ends(Rest(c.next, m, error), k, error));
      }
    }
  }

  lemma CompletedShape(r: Request, error: int, n: nat)
    requires Ok(r)
    ensures var d := Completed(r, error, n);
            d.bios == Rest(r.bios, n, error) && d.ended == r.ended + Ends(r.bios, n, error)
  {}

  /** Two completions with one error are one: the bios ended, with their errors, the bytes left
      and their number agree. */
  lemma CompletedTwice(r: Request, error: int, a: nat, k: nat)
    requires Ok(r) && Ok(Completed(r, error, a))
    ensures var x, y := Completed(Completed(r, error, a), error, k), Completed(r, error, a + k);
            && SameBios(x.bios, y.bios) && (SameSectors(x.bios, y.bios) <==> !Carried(r.bios, a, k))
            && x.ended == y.ended
  {
    CompletedShape(r, error, a);
    CompletedShape(r, error, a + k);
    CompletedShape(Completed(r, error, a), error, k);
    RestTwice(r.bios, a, k, error);
    EndsTwice(r.bios, a, k, error);
    Assoc(r.ended, Ends(r.bios, a, error), Ends(Rest(r.bios, a, error), k, error));
  }

  lemma CompletedSector(r: Request, error: int, n: nat)
    requires Ok(r)
    ensures var d, total := Completed(r, error, n), |Data(r.bios)|;
            && d.sectored == r.sectored && |Data(d.bios)| == d.dataLen == (if n < total then total - n else 0)
            && d.sector == if n < total && r.sectored then r.sector + n / 512 else r.sector
  {
    RestData(r.bios, n, error);
  }

  /** The number of bytes left agrees.  The sector of the request agrees exactly if it has none, or if the two completions carry
      no sector; the one that ends the request does not move it at all. */
  lemma SectorTwice(r: Request, error: int, a: nat, k: nat)
    requires Ok(r) && Ok(Completed(r, error, a))
    ensures var x, y := Completed(Completed(r, error, a), error, k), Completed(r, error, a + k);
            x.dataLen == y.dataLen && (x.sector == y.sector <==>
              !r.sectored || (if a + k >= |Data(r.bios)| then a >= |Data(r.bios)| || a < 512 else NoCarry(a, k)))
  {
    CompletedSector(r, error, a);
    CompletedSector(r, error, a + k);
    CompletedSector(Completed(r, error, a), error, k);
    Halves(a, k);
  }

  /** Three hundred bytes and three hundred more of a request of 1024: the sector is one behind. */
  lemma CarryExample() returns (r: Request)
    ensures Ok(r) && Ok(Completed(r, 0, 300))
    ensures Completed(Completed(r, 0, 300), 0, 300).sector != Completed(r, 0, 600).sector
  {
    var b := Bio(0, [Bvec(0, 1024)], 0, 1024, 0, true);
    r := Request(Cons(b, Empty), 1024, 0, true, []);
    OneBio(b, Bvec(0, 1024));
    hide Completed, Data, BiosOk;
    CompletedData(r, 0, 300);
    SectorTwice(r, 0, 300, 300);
  }

  lemma OneBio(b: Bio, v: Bvec)
    requires b.vecs == [v] && b.idx == 0 && b.size == v.len > 0
    ensures BiosOk(Cons(b, Empty)) && |Data(Cons(b, Empty))| == v.len
  {
    RangeLength(v.addr, v.len);
    assert VecData(b.vecs, 1) == [];
  }

  // ---------------------------------------------------------------- the request object

  /** No bio_vec is longer than what is left of its bio. */
  lemma {:induction false} VecFits(vecs: seq<Bvec>, i: nat, k: nat)
    requires i <= k < |vecs|
    ensures vecs[k].len <= |VecData(vecs, i)|
    decreases |vecs| - i
  {
    RangeLength(vecs[i].addr, vecs[i].len);
    if i < k { VecFits(vecs, i + 1, k); }
  }

  /** What the loop has left to do: `nr` bytes, and `inBio` bytes of the first bio, up to its
      bio_vec `idx`, that are done but not accounted for yet. */
  ghost predicate Pending(c: Chain, idx: nat, nr: nat, inBio: nat) {
    && BiosOk(c)
    && (c == Empty ==> inBio == 0)
    && (c.Cons? ==>
          && c.bio.idx <= idx <= |c.bio.vecs| && (inBio == 0 || nr + inBio < c.bio.size)
          && (idx > c.bio.idx ==> inBio > 0)
          && Seek(c.bio.vecs, c.bio.idx, nr + inBio) == Seek(c.bio.vecs, idx, nr))
  }

  lemma PendingInside(c: Chain, idx: nat, nr: nat, inBio: nat)
    requires Pending(c, idx, nr, inBio) && c.Cons? && nr < c.bio.size
    ensures idx < |c.bio.vecs| && 0 < c.bio.vecs[idx].len <= c.bio.size && nr + inBio < c.bio.size
  {
    SeekFinds(c.bio.vecs, c.bio.idx, nr + inBio);
    VecFits(c.bio.vecs, c.bio.idx, idx);
  }

  /** The first bio is done up to byte `inBio`, which is byte `nr` of its bio_vec `next`. */
  ghost predicate Inside(c: Chain, inBio: nat, next: nat, nr: nat)
    requires c.Cons?
  {
    && inBio < c.bio.size && c.bio.idx + next < |c.bio.vecs| && nr <= c.bio.vecs[c.bio.idx + next].len
    && Seek(c.bio.vecs, c.bio.idx, inBio) == (c.bio.idx + next, nr)
  }

  lemma BioEnds(c: Chain, idx: nat, nr: nat, inBio: nat)
    requires Pending(c, idx, nr, inBio) && c.Cons? && nr >= c.bio.size
    ensures inBio == 0 && Pending(c.next, if c.next == Empty then 0 else c.next.bio.idx, nr - c.bio.size, 0)
  {}

  lemma StopsBetween(c: Chain, idx: nat, inBio: nat)
    requires Pending(c, idx, 0, inBio) && c.Cons? && c.bio.size > 0
    ensures Inside(c, inBio, idx - c.bio.idx, 0)
  {
    PendingInside(c, idx, 0, inBio);
  }

  /** What is left to do from `c` on, with `ended` done, completes `n` bytes of `c0`. */
  ghost predicate Towards(c0: Chain, ended0: seq<End>, n: nat, error: int, c: Chain, ended: seq<End>, m: nat)
    requires BiosOk(c0) && BiosOk(c)
  {
    Rest(c, m, error) == Rest(c0, n, error) && ended + Ends(c, m, error) == ended0 + Ends(c0, n, error)
  }

  lemma TowardsNext(c0: Chain, ended0: seq<End>, n: nat, error: int, c: Chain, ended: seq<End>, m: nat)
    requires BiosOk(c0) && BiosOk(c) && Towards(c0, ended0, n, error, c, ended, m) && c.Cons? && m >= c.bio.size
    ensures BiosOk(c.next) && Towards(c0, ended0, n, error, c.next, ended + [EndOf(c.bio, error)], m - c.bio.size)
  {}

  /** req_bio_endio; `ends` are the calls of bio_endio. */
  method ReqBioEndio(b: Bio, nbytes: nat, error: int) returns (r: Bio, ends: seq<End>)
    ensures nbytes < b.size ==> ends == []
    ensures nbytes < b.size ==>
      r == b.(size := b.size - nbytes, sector := b.sector + nbytes / 512, uptodate := b.uptodate && error == 0)
    ensures nbytes >= b.size ==> r.size == 0 && ends == [EndOf(b, error)]
    ensures nbytes >= b.size && error != 0 ==> ends == [End(b.id, error)] && !r.uptodate
    ensures nbytes >= b.size && error == 0 ==> ends == [End(b.id, if b.uptodate then 0 else -5)]
  {
    r, ends := b, [];
    var e := error;
    if error != 0 {
      r := r.(uptodate := false);
    } else if !b.uptodate {
      e := -EIO;
    }
    var done := if nbytes > b.size then b.size else nbytes;
    r := r.(size := r.size - done, sector := r.sector + done / 512);
    if r.size == 0 {
      ends := [End(b.id, e)];
    }
  }

  /** The variables of the loop of blk_update_request: `total` bytes are done, `inBio` of them in
      the bio that is now the first, whose next bio_vec is `next` further on; `nr` are to do. */
  datatype Scan = Scan(c: Chain, ended: seq<End>, nr: nat, total: nat, inBio: nat, next: nat)

  ghost predicate Going(c0: Chain, n: nat, error: int, s: Scan) {
    && BiosOk(c0) && s.total + s.nr == n
    && Pending(s.c, if s.c == Empty then 0 else s.c.bio.idx + s.next, s.nr, s.inBio)
    && Towards(c0, [], n, error, s.c, s.ended, s.nr + s.inBio)
  }

  /** The loop is over; `nr` is how far the bio_vec is done. */
  ghost predicate Stopped(c0: Chain, n: nat, error: int, s: Scan) {
    && BiosOk(c0) && BiosOk(s.c)
    && (s.c.Cons? ==> s.total == n && Inside(s.c, s.inBio, s.next, s.nr))
    && Towards(c0, [], n, error, s.c, s.ended, if s.c == Empty then s.nr else s.inBio)
  }

  /** The first bio is done. */
  method EndBio(s: Scan, error: int, ghost c0: Chain, ghost n: nat) returns (t: Scan)
    requires Going(c0, n, error, s) && s.c.Cons? && s.nr >= s.c.bio.size
    ensures Going(c0, n, error, t) && t.c == s.c.next && (t.c.Cons? ==> t.c.bio.size > 0)
  {
    hide Ends, Rest;
    var b := s.c.bio;
    BioEnds(s.c, b.idx + s.next, s.nr, s.inBio);
    TowardsNext(c0, [], n, error, s.c, s.ended, s.nr);
    var gone, ends := ReqBioEndio(b, b.size, error);
    t := Scan(s.c.next, s.ended + ends, s.nr - b.size, s.total + b.size, 0, 0);
  }

  /** The next bio_vec is done. */
  lemma VecGoing(c0: Chain, n: nat, error: int, s: Scan, k: nat)
    requires Going(c0, n, error, s) && s.c.Cons? && s.nr < s.c.bio.size
    requires s.c.bio.idx + s.next < |s.c.bio.vecs| && 0 < k == s.c.bio.vecs[s.c.bio.idx + s.next].len <= s.nr
    ensures Going(c0, n, error, s.(next := s.next + 1, inBio := s.inBio + k, total := s.total + k, nr := s.nr - k))
  {}

  lemma VecStops(c0: Chain, n: nat, error: int, s: Scan)
    requires Going(c0, n, error, s) && s.c.Cons? && s.nr < s.c.bio.size
    requires s.c.bio.idx + s.next < |s.c.bio.vecs| && s.c.bio.vecs[s.c.bio.idx + s.next].len > s.nr
    ensures Stopped(c0, n, error, s.(inBio := s.inBio + s.nr, total := s.total + s.nr))
  {}

  /** The next bio_vec is done, or as far as there are bytes; its index is within the bio, and it
      is not longer than what is left of the bio. */
  method EndVec(s: Scan, error: int, ghost c0: Chain, ghost n: nat) returns (t: Scan, stop: bool)
    requires Going(c0, n, error, s) && s.c.Cons? && s.nr < s.c.bio.size
    ensures if stop then Stopped(c0, n, error, t) else Going(c0, n, error, t) && t.c == s.c && t.next == s.next + 1
  {
    PendingInside(s.c, s.c.bio.idx + s.next, s.nr, s.inBio);
    var nbytes := s.c.bio.vecs[s.c.bio.idx + s.next].len;
    if nbytes > s.nr {
      VecStops(c0, n, error, s);
      t, stop := s.(inBio := s.inBio + s.nr, total := s.total + s.nr), true;
    } else {
      VecGoing(c0, n, error, s, nbytes);
      t := s.(next := s.next + 1, inBio := s.inBio + nbytes, total := s.total + nbytes, nr := s.nr - nbytes);
      stop := false;
    }
  }

  lemma StopsHere(c0: Chain, n: nat, error: int, s: Scan)
    requires Going(c0, n, error, s) && (s.c == Empty || (s.nr == 0 && s.c.bio.size > 0))
    ensures Stopped(c0, n, error, s)
  {
    if s.c.Cons? { StopsBetween(s.c, s.c.bio.idx + s.next, s.inBio); }
  }

  /** The loop of blk_update_request. */
  method ScanBios(c0: Chain, error: int, n: nat) returns (s: Scan)
    requires BiosOk(c0)
    ensures Stopped(c0, n, error, s)
  {
    s := Scan(c0, [], n, 0, 0, 0);
    while s.c != Empty
      invariant Going(c0, n, error, s)
      decreases s.c, if s.c == Empty then 0 else |s.c.bio.vecs| - s.c.bio.idx - s.next
    {
      if s.nr >= s.c.bio.size {
        s := EndBio(s, error, c0, n);
      } else {
        var stop;
        s, stop := EndVec(s, error, c0, n);
        if stop {
          return;
        }
      }
      if s.c != Empty && s.nr == 0 {
        StopsHere(c0, n, error, s);
        return;
      }
    }
    StopsHere(c0, n, error, s);
  }

  lemma StoppedIs(c0: Chain, n: nat, error: int, s: Scan)
    requires Stopped(c0, n, error, s)
    ensures s.ended == Ends(c0, n, error)
    ensures s.c == Empty ==> Rest(c0, n, error) == Empty
    ensures s.c.Cons? ==> s.total == n && BioOk(s.c.bio) && s.inBio < s.c.bio.size
    ensures s.c.Cons? ==> Seek(s.c.bio.vecs, s.c.bio.idx, s.inBio) == (s.c.bio.idx + s.next, s.nr)
    ensures s.c.Cons? ==> Rest(c0, n, error) == Cons(Trim(s.c.bio, s.inBio, error), s.c.next)
  {
    assert s.ended + [] == s.ended && [] + Ends(c0, n, error) == Ends(c0, n, error);
  }

  lemma CompletedIs(r: Request, error: int, n: nat)
    requires Ok(r) && r.bios.Cons?
    ensures var rest, ended := Rest(r.bios, n, error), r.ended + Ends(r.bios, n, error);
            var sector := if r.sectored then r.sector + n / 512 else r.sector;
            if rest == Empty then Completed(r, error, n) == Request(Empty, 0, r.sector, r.sectored, ended)
            else n <= r.dataLen && Completed(r, error, n) == Request(rest, r.dataLen - n, sector, r.sectored, ended)
  {
    RestData(r.bios, n, error);
  }

  /** A request never claims fewer bytes than its first bio_vec has: it is not "botched". */
  lemma NotBotched(r: Request, error: int, n: nat)
    requires Ok(r)
    ensures var d := Completed(r, error, n);
            d.bios.Cons? && d.bios.bio.idx < |d.bios.bio.vecs| ==> d.bios.bio.vecs[d.bios.bio.idx].len <= d.dataLen
  {
    CompletedData(r, error, n);
    var d := Completed(r, error, n);
    if d.bios.Cons? && d.bios.bio.idx < |d.bios.bio.vecs| {
      VecFits(d.bios.bio.vecs, d.bios.bio.idx, d.bios.bio.idx);
    }
  }

  /** The state of a bio that is done in part is brought up to date. */
  method Advance(b: Bio, inBio: nat, next: nat, nr: nat, error: int) returns (r: Bio)
    requires BioOk(b) && 0 < inBio < b.size && Seek(b.vecs, b.idx, inBio) == (b.idx + next, nr)
    ensures r == Trim(b, inBio, error)
  {
    SeekFinds(b.vecs, b.idx, inBio);
    var none;
    r, none := ReqBioEndio(b, inBio, error);
    var i := r.idx + next;
    r := r.(idx := i, vecs := r.vecs[i := Bvec(r.vecs[i].addr + nr, r.vecs[i].len - nr)]);
  }

  lemma NothingCompleted(r: Request, error: int, n: nat)
    requires Ok(r) && r.bios == Empty
    ensures Completed(r, error, n) == r && Data(r.bios) == []
  {}

  class BlockRequest {
    var bios: Chain
    var dataLen: nat
    var sector: nat
    const sectored: bool
    var ended: seq<End>

    ghost function Value(): Request
      reads this
    {
      Request(bios, dataLen, sector, sectored, ended)
    }

    /** blk_update_request. */
    method UpdateRequest(error: int, n: nat) returns (more: bool)
      requires Ok(Value())
      modifies this`bios, this`dataLen, this`sector, this`ended
      ensures Value() == Completed(old(Value()), error, n)
      ensures more <==> n < |Data(old(bios))|
    {
      hide Data, BiosOk, Rest, Ends, Completed;
      RestData(bios, n, error);
      if bios == Empty {
        NothingCompleted(Value(), error, n);
        return false;
      }
      CompletedIs(Value(), error, n);
      var s := ScanBios(bios, error, n);
      StoppedIs(bios, n, error, s);
      ended := ended + s.ended;
      bios := s.c;
      if bios == Empty {
        dataLen := 0;
        return false;
      }
      if s.inBio > 0 {
        var b := Advance(bios.bio, s.inBio, s.next, s.nr, error);
        bios := Cons(b, bios.next);
      }
      dataLen := dataLen - s.total;
      if sectored {
        sector := sector + s.total / 512;
      }
      return true;
    }
  }
}
