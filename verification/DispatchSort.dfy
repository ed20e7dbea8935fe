/** The sorted insertion into the dispatch queue (elevator.c, `elv_dispatch_sort`).

    The scan walks the dispatch queue from its tail and stops at the first entry that the new
    request may not overtake.  The reference point is the one-way elevator: positions at or
    beyond the boundary sector are served first, in ascending order, and the positions behind
    the boundary follow, in ascending order too. */
module DispatchSort {
  import opened Lists

  /** What the scan reads of a queued request.  `stop` stands for any of REQ_SOFTBARRIER,
      REQ_HARDBARRIER and REQ_STARTED. */
  datatype Entry = Entry(pos: int, write: bool, discard: bool, stop: bool)

  /** The request may share a sorted run with `e`. */
  predicate Compatible(e: Entry, rq: Entry) {
    e.discard == rq.discard && e.write == rq.write && !e.stop
  }

  /** Distance rank of the one-way elevator: the second pass comes after the first. */
  function Pass(pos: int, boundary: int): nat {
    if pos >= boundary then 0 else 1
  }

  /** `a` is served strictly before `b` by a one-way elevator that starts at the boundary. */
  predicate ServedBefore(a: int, b: int, boundary: int) {
    Pass(a, boundary) < Pass(b, boundary) || (Pass(a, boundary) == Pass(b, boundary) && a < b)
  }

  /** The scan goes on past `e` (none of the `break`s of the loop is taken). */
  predicate Overtakes(rq: Entry, e: Entry, boundary: int) {
    && Compatible(e, rq)
    && if rq.pos >= boundary then e.pos < boundary || rq.pos < e.pos
       else e.pos < boundary && rq.pos < e.pos
  }

  /** The index at which the scan inserts `rq`. */
  function InsertAt(q: seq<Entry>, rq: Entry, boundary: int): (p: nat)
    ensures p <= |q|
    ensures forall i | p <= i < |q| :: Overtakes(rq, q[i], boundary)
    ensures p > 0 ==> !Overtakes(rq, q[p-1], boundary)
  {
    if q == [] then 0
    else if Overtakes(rq, q[|q|-1], boundary) then InsertAt(q[..|q|-1], rq, boundary)
    else |q|
  }

  /** Start of the longest tail whose entries are all compatible with `rq`. */
  function RunStart(q: seq<Entry>, rq: Entry): (k: nat)
    ensures k <= |q|
    ensures forall i | k <= i < |q| :: Compatible(q[i], rq)
    ensures k > 0 ==> !Compatible(q[k-1], rq)
  {
    if q != [] && Compatible(q[|q|-1], rq) then RunStart(q[..|q|-1], rq) else |q|
  }

  /** The entries from `k` on stand in one-way elevator order (equal positions allowed). */
  ghost predicate InOrderFrom(q: seq<Entry>, k: nat, boundary: int) {
    forall i, j | k <= i < j < |q| :: !ServedBefore(q[j].pos, q[i].pos, boundary)
  }

  /** The last run of the queue, if any, stands in order. */
  ghost predicate TailInOrder(q: seq<Entry>, boundary: int) {
    q != [] ==> InOrderFrom(q, RunStart(q, q[|q|-1]), boundary)
  }

  lemma {:induction false} RunStartIsUnique(q: seq<Entry>, rq: Entry, k: nat)
    requires k <= |q|
    requires forall i | k <= i < |q| :: Compatible(q[i], rq)
    requires k > 0 ==> !Compatible(q[k-1], rq)
    ensures RunStart(q, rq) == k
  {
    var s := RunStart(q, rq);
    assert k > 0 ==> !Compatible(q[k-1], rq);
    assert s > 0 ==> !Compatible(q[s-1], rq);
  }

  /** The scan never leaves the run the request belongs to: nothing that carries a barrier or
      started flag, and nothing of the other direction or discard kind, is overtaken. */
  lemma StaysInRun(q: seq<Entry>, rq: Entry, boundary: int)
    ensures RunStart(q, rq) <= InsertAt(q, rq, boundary)
    ensures forall i | InsertAt(q, rq, boundary) <= i < |q| :: !q[i].stop && q[i].write == rq.write && q[i].discard == rq.discard
  {
    var p, k := InsertAt(q, rq, boundary), RunStart(q, rq);
    assert k > 0 ==> !Overtakes(rq, q[k-1], boundary);
  }

  lemma InsertIsStable(q: seq<Entry>, rq: Entry, boundary: int, p: nat, k: nat)
    requires p == InsertAt(q, rq, boundary) && k == RunStart(q, rq) && InOrderFrom(q, k, boundary)
    ensures forall i | k <= i < |q| :: i < p <==> !ServedBefore(rq.pos, q[i].pos, boundary)
  {
    StaysInRun(q, rq, boundary);
    forall i | k <= i < |q| ensures i < p <==> !ServedBefore(rq.pos, q[i].pos, boundary) {
      if i < p {
        assert Compatible(q[p-1], rq) && !Overtakes(rq, q[p-1], boundary);
        assert !ServedBefore(rq.pos, q[p-1].pos, boundary);
        assert i == p - 1 || !ServedBefore(q[p-1].pos, q[i].pos, boundary);
      } else {
        assert Overtakes(rq, q[i], boundary);
      }
    }
  }

  /** Inserting keeps the run of the request in one-way elevator order; the request stands
      behind every entry of the run it does not strictly precede (stability) and ahead of
      every entry it does. */
  lemma {:induction false} InsertKeepsOrder(q: seq<Entry>, rq: Entry, boundary: int)
    requires InOrderFrom(q, RunStart(q, rq), boundary)
    ensures var p, k := InsertAt(q, rq, boundary), RunStart(q, rq);
            && InOrderFrom(Inserted(q, p, rq), k, boundary)
            && (forall i | k <= i < |q| :: i < p <==> !ServedBefore(rq.pos, q[i].pos, boundary))
            && (!rq.stop ==> RunStart(Inserted(q, p, rq), rq) == k)
  {
    var p, k := InsertAt(q, rq, boundary), RunStart(q, rq);
    StaysInRun(q, rq, boundary);
    InsertIsStable(q, rq, boundary, p, k);
    var r := Inserted(q, p, rq);
    forall i, j | k <= i < j < |r| ensures !ServedBefore(r[j].pos, r[i].pos, boundary) {
      if i == p {
        assert r[j] == q[j-1];
      } else if j == p {
        assert r[i] == q[i];
      } else {
        var i', j' := if i < p then i else i - 1, if j < p then j else j - 1;
        assert r[i] == q[i'] && r[j] == q[j'];
      }
    }
    if !rq.stop {
      assert forall i | k <= i < |r| :: Compatible(r[i], rq) by {
        forall i | k <= i < |r| ensures Compatible(r[i], rq) {
          assert r[i] == if i < p then q[i] else if i == p then rq else q[i-1];
        }
      }
      RunStartIsUnique(r, rq, k);
    }
  }

  /** Requests of one direction and discard kind see the same run. */
  lemma {:induction false} SameRun(q: seq<Entry>, a: Entry, b: Entry)
    requires a.discard == b.discard && a.write == b.write
    ensures RunStart(q, a) == RunStart(q, b)
  {
    var k := RunStart(q, b);
    assert k > 0 ==> !Compatible(q[k-1], a);
    RunStartIsUnique(q, a, k);
  }

  /** The queue-level invariant: whatever request is inserted (with the boundary unchanged),
      the last run of the queue stays in one-way elevator order. */
  lemma {:induction false} TailStaysInOrder(q: seq<Entry>, rq: Entry, boundary: int)
    requires TailInOrder(q, boundary) && !rq.stop
    ensures TailInOrder(Inserted(q, InsertAt(q, rq, boundary), rq), boundary)
  {
    var p, k := InsertAt(q, rq, boundary), RunStart(q, rq);
    var r := Inserted(q, p, rq);
    if k == |q| {
      StaysInRun(q, rq, boundary);
      RunStartIsUnique(r, rq, k);
    } else {
      var last := q[|q|-1];
      SameRun(q, last, rq);
      InsertKeepsOrder(q, rq, boundary);
      SameRun(r, r[|r|-1], rq);
    }
  }

  /** The scan loop itself. */
  method Scan(q: seq<Entry>, rq: Entry, boundary: int) returns (p: nat)
    ensures p == InsertAt(q, rq, boundary)
  {
    p := |q|;
    while p > 0
      invariant p <= |q|
      invariant InsertAt(q, rq, boundary) == InsertAt(q[..p], rq, boundary)
    {
      var e := q[p-1];
      assert q[..p][..p-1] == q[..p-1] && q[..p][p-1] == e;
      if rq.discard != e.discard { break; }
      if rq.write != e.write { break; }
      if e.stop { break; }
      if rq.pos >= boundary {
        if e.pos < boundary {
          p := p - 1;
          continue;
        }
      } else {
        if e.pos >= boundary { break; }
      }
      if rq.pos >= e.pos { break; }
      p := p - 1;
    }
  }
}
