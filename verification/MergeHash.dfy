/** The hash that finds a request to back merge into, and the one-hit cache beside it
    (elevator.c). */
module MergeHash {
  import opened Lists
  import opened Options

  /** The hash lists, and for each request on one of them which one it is. */
  datatype Table = Table(list: map<nat, seq<nat>>, where: map<nat, nat>)

  function ListOf(t: Table, b: nat): seq<nat> {
    if b in t.list then t.list[b] else []
  }

  /** Every request is on the list it says, once, and on no other. */
  ghost predicate TableOk(t: Table) {
    && (forall b :: NoDup(ListOf(t, b)))
    && (forall b, x :: x in ListOf(t, b) <==> x in t.where && t.where[x] == b)
  }

  /** elv_rqhash_del. */
  function Deleted(t: Table, x: nat): Table
    requires TableOk(t)
  {
    if x in t.where then
      var b := t.where[x];
      assert x in ListOf(t, b);
      Table(t.list[b := Without(ListOf(t, b), x)], t.where - {x})
    else t
  }

  /** hlist_add_head to the list `b`. */
  function AddedTo(t: Table, b: nat, x: nat): Table {
    Table(t.list[b := [x] + ListOf(t, b)], t.where[x := b])
  }

  lemma DeletedOk(t: Table, x: nat)
    requires TableOk(t)
    ensures TableOk(Deleted(t, x)) && Deleted(t, x).where == t.where - {x}
  {
    hide Without, NoDup;
    if x in t.where {
      var b, d := t.where[x], Deleted(t, x);
      assert x in ListOf(t, b);
      WithoutMembers(ListOf(t, b), x);
      assert ListOf(d, b) == Without(ListOf(t, b), x);
      forall c | c != b ensures ListOf(d, c) == ListOf(t, c) {}
      forall c, y ensures y in ListOf(d, c) <==> y in d.where && d.where[y] == c {
        if c != b { assert y in ListOf(t, c) <==> y in t.where && t.where[y] == c; }
      }
      forall c ensures NoDup(ListOf(d, c)) {
        if c != b { assert NoDup(ListOf(t, c)); }
      }
    }
  }

  lemma AddedOk(t: Table, b: nat, x: nat)
    requires TableOk(t) && x !in t.where
    ensures TableOk(AddedTo(t, b, x))
  {
    var a := AddedTo(t, b, x);
    assert x !in ListOf(t, b);
    Prepended(x, ListOf(t, b));
    forall c, y ensures y in ListOf(a, c) <==> y in a.where && a.where[y] == c {
      assert c != b ==> ListOf(a, c) == ListOf(t, c);
    }
    forall c ensures NoDup(ListOf(a, c)) {
      assert c != b ==> ListOf(a, c) == ListOf(t, c);
    }
  }

  // ---------------------------------------------------------------- what the table is for

  /** A request by where it ends; `sorted` are those in the scheduler, `mergeable` those that
      nothing forbids to merge. */
  type Ends = map<nat, nat>

  /** The requests on the lists are in the scheduler, on the list for where they end; a mergeable
      request of the scheduler is on one. */
  ghost predicate Hashed(t: Table, hash: nat -> nat, end: Ends, sorted: set<nat>, mergeable: set<nat>) {
    && TableOk(t)
    && (forall x | x in sorted :: x in end)
    && (forall x | x in t.where :: x in sorted && t.where[x] == hash(end[x]))
    && (forall x | x in sorted && x in mergeable :: x in t.where)
  }

  /** What a scan of all requests would find. */
  ghost predicate Ending(end: Ends, sorted: set<nat>, mergeable: set<nat>, s: nat, x: nat) {
    x in sorted && x in mergeable && x in end && end[x] == s
  }

  lemma InsertHashes(t: Table, hash: nat -> nat, end: Ends, sorted: set<nat>, mergeable: set<nat>, x: nat, e: nat, ok: bool)
    requires Hashed(t, hash, end, sorted, mergeable) && x !in sorted
    ensures var t' := if ok then AddedTo(t, hash(e), x) else t;
            Hashed(t', hash, end[x := e], sorted + {x}, if ok then mergeable + {x} else mergeable - {x})
  {
    assert x !in t.where;
    if ok { AddedOk(t, hash(e), x); }
  }

  /** The request has a new end and is moved to the list for it. */
  lemma RepositionHashes(t: Table, hash: nat -> nat, end: Ends, sorted: set<nat>, mergeable: set<nat>, x: nat, e: nat)
    requires Hashed(t, hash, end, sorted, mergeable) && x in sorted
    ensures TableOk(Deleted(t, x)) && Hashed(AddedTo(Deleted(t, x), hash(e), x), hash, end[x := e], sorted, mergeable)
  {
    DeletedOk(t, x);
    AddedOk(Deleted(t, x), hash(e), x);
  }

  lemma RemoveHashes(t: Table, hash: nat -> nat, end: Ends, sorted: set<nat>, mergeable: set<nat>, x: nat)
    requires Hashed(t, hash, end, sorted, mergeable)
    ensures Hashed(Deleted(t, x), hash, end, sorted - {x}, mergeable)
  {
    DeletedOk(t, x);
  }

  /** Taking a request that may not be merged off its list. */
  lemma PruneHashes(t: Table, hash: nat -> nat, end: Ends, sorted: set<nat>, mergeable: set<nat>, x: nat)
    requires Hashed(t, hash, end, sorted, mergeable) && x !in mergeable
    ensures Hashed(Deleted(t, x), hash, end, sorted, mergeable)
  {
    DeletedOk(t, x);
  }

  /** Where the requests of the scheduler start, how long they are and where they end. */
  ghost predicate Spans(pos: map<nat, nat>, len: map<nat, nat>, end: Ends, sorted: set<nat>) {
    forall x | x in sorted :: x in pos && x in len && x in end && end[x] == pos[x] + len[x]
  }

  lemma SpanOf(pos: map<nat, nat>, len: map<nat, nat>, end: Ends, sorted: set<nat>, x: nat)
    requires Spans(pos, len, end, sorted) && x in sorted
    ensures x in pos && x in len && x in end && end[x] == pos[x] + len[x]
  {}

  lemma SpansWith(pos: map<nat, nat>, len: map<nat, nat>, end: Ends, sorted: set<nat>, x: nat, s: nat, n: nat)
    requires Spans(pos, len, end, sorted)
    ensures Spans(pos[x := s], len[x := n], end[x := s + n], sorted + {x})
  {}

  lemma SpansGrown(pos: map<nat, nat>, len: map<nat, nat>, end: Ends, sorted: set<nat>, x: nat, n: nat)
    requires Spans(pos, len, end, sorted) && x in sorted && x in len && x in end
    ensures Spans(pos, len[x := len[x] + n], end[x := end[x] + n], sorted)
  {}

  lemma SpansFronted(pos: map<nat, nat>, len: map<nat, nat>, end: Ends, sorted: set<nat>, x: nat, n: nat)
    requires Spans(pos, len, end, sorted) && x in sorted && x in pos && x in len && n <= pos[x]
    ensures Spans(pos[x := pos[x] - n], len[x := len[x] + n], end, sorted)
  {}

  lemma SpansFewer(pos: map<nat, nat>, len: map<nat, nat>, end: Ends, sorted: set<nat>, x: nat)
    requires Spans(pos, len, end, sorted)
    ensures Spans(pos, len, end, sorted - {x})
  {}

  class Elevator {
    const hash: nat -> nat
    var table: Table
    var pos: map<nat, nat>
    var len: map<nat, nat>
    ghost var end: Ends
    var sorted: set<nat>
    var mergeable: set<nat>
    var lastMerge: Option<nat>
    var nrSorted: nat

    /** The hash agrees with the requests, the cache names a request that is still in the
        scheduler, and the counter is right. */
    ghost predicate Valid()
      reads this
    {
      && Hashed(table, hash, end, sorted, mergeable)
      && Spans(pos, len, end, sorted)
      && (lastMerge.Some? ==> lastMerge.value in sorted)
      && nrSorted == |sorted|
    }

    constructor (hash: nat -> nat)
      ensures Valid() && sorted == {} && this.hash == hash
    {
      this.hash := hash;
      table, pos, len, end := Table(map[], map[]), map[], map[], map[];
      sorted, mergeable, lastMerge, nrSorted := {}, {}, None, 0;
    }

    /** elv_rqhash_find: requests that may not be merged any more are taken off the list on the way;
        what is found is what a scan of all requests finds. */
    method Find(s: nat) returns (r: Option<nat>)
      requires Valid()
      modifies this`table
      ensures Valid()
      ensures r.Some? ==> Ending(end, sorted, mergeable, s, r.value)
      ensures r == None ==> forall x :: !Ending(end, sorted, mergeable, s, x)
    {
      hide Hashed, Deleted, ListOf, Spans;
      var list, i := ListOf(table, hash(s)), 0;
      ListComplete(table, hash, end, sorted, mergeable, s);
      while i < |list|
        invariant 0 <= i <= |list| && Valid()
        invariant forall x | x in list[..i] :: !Ending(end, sorted, mergeable, s, x)
      {
        var x := list[i];
        assert x in list;
        SpanOf(pos, len, end, sorted, x);
        if x !in mergeable {
          PruneHashes(table, hash, end, sorted, mergeable, x);
          TableIs(table, hash, end, sorted, mergeable);
          table := Deleted(table, x);
        } else if pos[x] + len[x] == s {
          return Some(x);
        }
        i := i + 1;
      }
      r := None;
      assert list[..|list|] == list;
    }

    /** The sorted insertion of elv_insert; `ok` is rq_mergeable. */
    method InsertSorted(x: nat, s: nat, n: nat, ok: bool)
      requires Valid() && x !in sorted
      modifies this`table, this`pos, this`len, this`end, this`sorted, this`mergeable, this`lastMerge, this`nrSorted
      ensures Valid() && sorted == old(sorted) + {x} && pos == old(pos)[x := s] && len == old(len)[x := n]
      ensures mergeable == if ok then old(mergeable) + {x} else old(mergeable) - {x}
      ensures lastMerge == if ok && old(lastMerge) == None then Some(x) else old(lastMerge)
    {
      hide Hashed, AddedTo, Spans;
      InsertHashes(table, hash, end, sorted, mergeable, x, s + n, ok);
      SpansWith(pos, len, end, sorted, x, s, n);
      mergeable := if ok then mergeable + {x} else mergeable - {x};
      if ok {
        table := AddedTo(table, hash(s + n), x);
        if lastMerge == None {
          lastMerge := Some(x);
        }
      }
      Enter(x, s, n);
    }

    /** The scheduler has one more request. */
    method Enter(x: nat, s: nat, n: nat)
      modifies this`pos, this`len, this`end, this`sorted, this`nrSorted
      ensures pos == old(pos)[x := s] && len == old(len)[x := n] && end == old(end)[x := s + n]
      ensures sorted == old(sorted) + {x} && nrSorted == old(nrSorted) + 1
    {
      nrSorted := nrSorted + 1;
      pos, len, end := pos[x := s], len[x := n], end[x := s + n];
      sorted := sorted + {x};
    }

    /** A back merge of `n` sectors, with elv_merged_request. */
    method BackMerged(x: nat, n: nat)
      requires Valid() && x in sorted && x in len
      modifies this`table, this`len, this`end, this`lastMerge
      ensures Valid() && len == old(len)[x := old(len)[x] + n] && lastMerge == Some(x)
    {
      hide Hashed, AddedTo, Deleted, Spans;
      TableIs(table, hash, end, sorted, mergeable);
      SpanOf(pos, len, end, sorted, x);
      SpansGrown(pos, len, end, sorted, x, n);
      RepositionHashes(table, hash, end, sorted, mergeable, x, end[x] + n);
      table := AddedTo(Deleted(table, x), hash(pos[x] + len[x] + n), x);
      len, end := len[x := len[x] + n], end[x := end[x] + n];
      lastMerge := Some(x);
    }

    /** A front merge of `n` sectors leaves the end, and so the place in the hash, as it is. */
    method FrontMerged(x: nat, n: nat)
      requires Valid() && x in sorted && x in pos && x in len && n <= pos[x]
      modifies this`pos, this`len, this`lastMerge
      ensures Valid() && pos == old(pos)[x := old(pos)[x] - n] && len == old(len)[x := old(len)[x] + n] && lastMerge == Some(x)
    {
      hide Hashed, Spans;
      SpansFronted(pos, len, end, sorted, x, n);
      pos, len := pos[x := pos[x] - n], len[x := len[x] + n];
      lastMerge := Some(x);
    }

    /** elv_merge_requests after `x` has taken over the data of `y`. */
    method MergedRequests(x: nat, y: nat)
      requires Valid() && x in sorted && y in sorted && x != y && x in len && y in len
      modifies this`table, this`len, this`end, this`sorted, this`lastMerge, this`nrSorted
      ensures Valid() && sorted == old(sorted) - {y} && len == old(len)[x := old(len)[x] + old(len)[y]] && lastMerge == Some(x)
    {
      hide Hashed, AddedTo, Deleted, Spans;
      BackMerged(x, len[y]);
      SpansFewer(pos, len, end, sorted, y);
      TableIs(table, hash, end, sorted, mergeable);
      RemoveHashes(table, hash, end, sorted, mergeable, y);
      table := Deleted(table, y);
      nrSorted := nrSorted - 1;
      sorted := sorted - {y};
    }

    /** elv_dispatch_sort and elv_dispatch_add_tail, as far as the hash and the cache go. */
    method Dispatched(x: nat)
      requires Valid() && x in sorted
      modifies this`table, this`sorted, this`lastMerge, this`nrSorted
      ensures Valid() && sorted == old(sorted) - {x}
      ensures lastMerge == if old(lastMerge) == Some(x) then None else old(lastMerge)
    {
      hide Hashed, Deleted, Spans;
      SpansFewer(pos, len, end, sorted, x);
      if lastMerge == Some(x) {
        lastMerge := None;
      }
      TableIs(table, hash, end, sorted, mergeable);
      RemoveHashes(table, hash, end, sorted, mergeable, x);
      table := Deleted(table, x);
      nrSorted := nrSorted - 1;
      sorted := sorted - {x};
    }

    /** REQ_NOMERGE is set on a request, as when a merge would exceed the limits of the queue. */
    method Forbid(x: nat)
      requires Valid()
      modifies this`mergeable, this`lastMerge
      ensures Valid() && mergeable == old(mergeable) - {x}
      ensures lastMerge == if old(lastMerge) == Some(x) then None else old(lastMerge)
    {
      hide TableOk;
      mergeable := mergeable - {x};
      if lastMerge == Some(x) {
        lastMerge := None;
      }
    }

    /** elv_merge up to the scheduler's own search: a request for a bio of `n` sectors at `s`; `ok` is
        what else a merge requires of a request. */
    method Merge(s: nat, n: nat, nomerges: bool, ok: nat -> bool) returns (m: Match)
      requires Valid()
      modifies this`table
      ensures Valid()
      ensures m.Back? ==> m.x in sorted && m.x in mergeable && ok(m.x) && m.x in pos && m.x in len && pos[m.x] + len[m.x] == s
      ensures m.Front? ==> m.x in sorted && m.x in mergeable && ok(m.x) && m.x in pos && s + n == pos[m.x]
      ensures m.NoMatch? && !nomerges && (exists x :: Ending(end, sorted, mergeable, s, x)) ==>
                exists y :: Ending(end, sorted, mergeable, s, y) && !ok(y)
      ensures lastMerge.Some? && lastMerge.value in mergeable && ok(lastMerge.value) ==>
                var x := lastMerge.value;
                && x in pos && x in len
                && (pos[x] + len[x] == s ==> m == Back(x)) && (pos[x] + len[x] != s && s + n == pos[x] ==> m == Front(x))
      ensures m.Front? ==> Some(m.x) == lastMerge
      ensures nomerges && m.Back? ==> Some(m.x) == lastMerge
    {
      hide TableOk;
      if lastMerge.Some? {
        var x := lastMerge.value;
        SpanOf(pos, len, end, sorted, x);
        if x in mergeable && ok(x) {
          if pos[x] + len[x] == s {
            return Back(x);
          }
          if s + n == pos[x] {
            return Front(x);
          }
        }
      }
      if nomerges {
        return NoMatch;
      }
      var r := Find(s);
      if r.Some? { SpanOf(pos, len, end, sorted, r.value); }
      if r.Some? && ok(r.value) {
        return Back(r.value);
      }
      return NoMatch;
    }
  }

  datatype Match = NoMatch | Back(x: nat) | Front(x: nat)

  /** The list for `s` holds requests of the scheduler, among them all that a scan would find. */
  lemma ListComplete(t: Table, hash: nat -> nat, end: Ends, sorted: set<nat>, mergeable: set<nat>, s: nat)
    requires Hashed(t, hash, end, sorted, mergeable)
    ensures forall x | x in ListOf(t, hash(s)) :: x in sorted
    ensures forall x | Ending(end, sorted, mergeable, s, x) :: x in ListOf(t, hash(s))
  {}

  lemma TableIs(t: Table, hash: nat -> nat, end: Ends, sorted: set<nat>, mergeable: set<nat>)
    requires Hashed(t, hash, end, sorted, mergeable)
    ensures TableOk(t)
  {}
}
