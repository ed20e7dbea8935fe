/** The cached next request of the anticipatory scheduler (as-iosched.c), for one data
    direction: a search among tree neighbours against the best of the whole tree. */
module AsNext {
  import opened Lists
  import opened Options
  import opened SortTree

  const MAXBACK := 1024 * 1024
  const BACK_PENALTY := 2

  /** One direction of struct as_data: where its requests start and how long they are, the sort
      tree, the cached choice and the sector at which the last dispatch ended; `out` lists the
      requests that went to the dispatch queue. */
  datatype Lane = Lane(pos: Positions, len: map<nat, nat>, tree: seq<nat>, next: Option<nat>, last: nat,
                       out: seq<nat>)

  // ---------------------------------------------------------------- the choice between two

  predicate Wraps(last: nat, s: nat) {
    s + MAXBACK < last
  }

  function Distance(last: nat, s: nat): nat {
    if s >= last then s - last else (last - s) * BACK_PENALTY
  }

  /** as_choose_req takes a request at `s1` before one at `s2`. */
  predicate Prefers(last: nat, s1: nat, s2: nat) {
    if Wraps(last, s1) != Wraps(last, s2) then Wraps(last, s2)
    else if Wraps(last, s1) then s1 <= s2
    else if Distance(last, s1) != Distance(last, s2) then Distance(last, s1) < Distance(last, s2)
    else s1 >= s2
  }

  function Choose(l: Lane, r1: Option<nat>, r2: Option<nat>): (r: Option<nat>)
    requires (r1.Some? ==> r1.value in l.pos) && (r2.Some? ==> r2.value in l.pos)
    ensures r == r1 || r == r2
  {
    if r1 == None || r1 == r2 then r2
    else if r2 == None then r1
    else if Prefers(l.last, l.pos[r1.value], l.pos[r2.value]) then r1 else r2
  }

  /** The choice is a linear order on the requests of a tree. */
  lemma PrefersIsLinear(last: nat, a: nat, b: nat, c: nat)
    ensures a != b ==> Prefers(last, a, b) != Prefers(last, b, a)
    ensures Prefers(last, a, b) && Prefers(last, b, c) ==> Prefers(last, a, c)
  {}

  /** The choice in sectors: of two requests ahead of the head or of two behind it the nearer one; of
      one ahead and one behind, the former exactly if it is not more than twice as far away; one more
      than 2^20 sectors behind goes last, and of two such the lower one first. */
  lemma ChoosesBySector(l: Lane, a: nat, b: nat)
    requires a in l.pos && b in l.pos && l.pos[a] != l.pos[b]
    ensures var s, t, last := l.pos[a], l.pos[b], l.last;
            var first := Choose(l, Some(a), Some(b)) == Some(a) && Choose(l, Some(b), Some(a)) == Some(a);
            var second := Choose(l, Some(a), Some(b)) == Some(b) && Choose(l, Some(b), Some(a)) == Some(b);
            && (last <= s < t ==> first)
            && (t < s < last <= t + 1048576 ==> first)
            && (t < last <= t + 1048576 && last <= s ==> if s - last <= 2 * (last - t) then first else second)
            && (t + 1048576 < last <= s + 1048576 ==> first)
            && (s < t && t + 1048576 < last ==> first)
  {}

  // ---------------------------------------------------------------- the search

  /** as_find_next_rq: the better one of the two neighbours, or of the first request when there
      is none behind. */
  function FindNext(l: Lane, x: nat): (r: Option<nat>)
    requires Sorted(l.pos, l.tree) && x in l.tree
  {
    var i := IndexOf(l.tree, x);
    var prev := if i > 0 then Some(l.tree[i-1]) else None;
    var next := if i + 1 < |l.tree| then Some(l.tree[i+1]) else if i > 0 then Some(l.tree[0]) else None;
    Choose(l, next, prev)
  }

  /** Of the requests of the tree but `x`, `r` is the one to take. */
  ghost predicate BestBut(l: Lane, x: nat, r: Option<nat>)
    requires forall y | y in l.tree :: y in l.pos
  {
    if r == None then forall y | y in l.tree :: y == x
    else r.value != x && r.value in l.tree && Beats(l, r.value, x)
  }

  /** Of all the requests of the tree, `r` is the one to take. */
  ghost predicate Best(l: Lane, r: Option<nat>)
    requires forall y | y in l.tree :: y in l.pos
  {
    if r == None then l.tree == [] else r.value in l.tree && Beats(l, r.value, r.value)
  }

  /** `r` is taken before every other request except perhaps `x`. */
  ghost predicate Beats(l: Lane, r: nat, x: nat)
    requires r in l.tree && forall y | y in l.tree :: y in l.pos
  {
    forall y | y in l.tree && y != x && y != r :: Prefers(l.last, l.pos[r], l.pos[y])
  }

  /** The head stands between the requests before `i` and those after it. */
  ghost predicate SplitsAt(l: Lane, i: nat)
    requires Sorted(l.pos, l.tree) && i < |l.tree|
  {
    && (forall j | 0 <= j < i :: l.pos[l.tree[j]] < l.last)
    && (forall j | i < j < |l.tree| :: l.pos[l.tree[j]] >= l.last)
  }

  /** All requests are far behind the head. */
  ghost predicate AllWrap(l: Lane)
    requires Sorted(l.pos, l.tree)
  {
    forall j | 0 <= j < |l.tree| :: Wraps(l.last, l.pos[l.tree[j]])
  }

  /** Looking at the neighbours is enough. */
  lemma NeighboursSuffice(l: Lane, x: nat)
    requires Sorted(l.pos, l.tree) && x in l.tree
    requires var i := IndexOf(l.tree, x); SplitsAt(l, i) || (i == 0 && AllWrap(l))
    ensures BestBut(l, x, FindNext(l, x))
  {
    var i, r := IndexOf(l.tree, x), FindNext(l, x);
    SortedNoDup(l.pos, l.tree);
    if r == None {
      assert |l.tree| == 1;
    } else {
      forall y | y in l.tree && y != x && y != r.value ensures Prefers(l.last, l.pos[r.value], l.pos[y]) {
        var j := IndexOf(l.tree, y);
        NeighbourBeats(l, i, j, r.value);
      }
    }
  }

  lemma NeighbourBeats(l: Lane, i: nat, j: nat, r: nat)
    requires Sorted(l.pos, l.tree) && i < |l.tree| && j < |l.tree| && i != j
    requires SplitsAt(l, i) || (i == 0 && AllWrap(l))
    requires FindNext(l, l.tree[i]) == Some(r) && IndexOf(l.tree, l.tree[i]) == i && r != l.tree[j]
    ensures Prefers(l.last, l.pos[r], l.pos[l.tree[j]])
  {}

  // ---------------------------------------------------------------- operations

  /** as_remove_queued_request. */
  function RemoveQueued(l: Lane, x: nat): Lane
    requires Sorted(l.pos, l.tree) && x in l.tree
  {
    l.(next := if l.next == Some(x) then FindNext(l, x) else l.next, tree := Without(l.tree, x))
  }

  /** as_move_to_dispatch. */
  function MoveToDispatch(l: Lane, x: nat): Lane
    requires Sorted(l.pos, l.tree) && x in l.tree && x in l.len
  {
    var l1 := l.(last := l.pos[x] + l.len[x]);
    RemoveQueued(l1.(next := FindNext(l1, x)), x).(out := l.out + [x])
  }

  ghost predicate Sized(l: Lane) {
    forall x | x in l.tree :: x in l.len
  }

  /** The loop of as_add_rq_rb: a request found at the sector of `x` is dispatched. */
  function Evict(l: Lane, x: nat): (r: Lane)
    requires Sorted(l.pos, l.tree) && Sized(l) && x in l.pos
    ensures r.pos == l.pos && r.len == l.len && Sorted(r.pos, r.tree)
    ensures forall y | y in r.tree :: y in l.tree
    ensures At(r.pos, r.tree, r.pos[x]) == None
    ensures (l.next.Some? ==> l.next.value in l.tree) ==> (r.next.Some? ==> r.next.value in r.tree)
    decreases |l.tree|
  {
    match At(l.pos, l.tree, l.pos[x])
    case None => l
    case Some(a) =>
      RemovedShape(l, a);
      MovedNext(l, a);
      Evict(MoveToDispatch(l, a), x)
  }

  /** as_add_rq_rb. */
  function AddRb(l: Lane, x: nat): (r: Lane)
    requires Sorted(l.pos, l.tree) && Sized(l) && x in l.pos
    ensures r.pos == l.pos && r.len == l.len && Sorted(r.pos, r.tree)
    ensures forall y | y in r.tree :: y == x || y in l.tree
    ensures (l.next.Some? ==> l.next.value in l.tree) ==> (r.next.Some? ==> r.next.value in r.tree)
  {
    var m := Evict(l, x);
    AddedSorted(m.pos, m.tree, x);
    m.(tree := Added(m.pos, m.tree, x))
  }

  lemma RemovedShape(l: Lane, x: nat)
    requires Sorted(l.pos, l.tree) && x in l.tree
    ensures Sorted(l.pos, Without(l.tree, x)) && |Without(l.tree, x)| < |l.tree|
    ensures forall y :: y in Without(l.tree, x) <==> y in l.tree && y != x
  {}

  /** as_add_request with as_update_rq: a request of `n` sectors at `s`. */
  function Add(l: Lane, x: nat, s: nat, n: nat): Lane
    requires Sorted(l.pos, l.tree) && Sized(l) && x !in l.tree
    requires l.next.Some? ==> l.next.value in l.tree
  {
    var l1 := l.(pos := l.pos[x := s], len := l.len[x := n]);
    SortedFrame(l.pos, l1.pos, l.tree);
    var l2 := AddRb(l1, x);
    l2.(next := Choose(l2, Some(x), l2.next))
  }

  /** A back merge lengthens the request by `n` sectors. */
  function BackMerge(l: Lane, x: nat, n: nat): Lane
    requires x in l.len
  {
    l.(len := l.len[x := l.len[x] + n])
  }

  /** as_merged_requests after `x` has taken over the data of `y`. */
  function MergeRequests(l: Lane, x: nat, y: nat): Lane
    requires Sorted(l.pos, l.tree) && x in l.len && y in l.len && y in l.tree
  {
    RemoveQueued(BackMerge(l, x, l.len[y]), y)
  }

  /** `n` sectors have been merged in front of `x`, and `x` has been taken out of the tree. */
  function TakenOut(l: Lane, x: nat, n: nat): (r: Lane)
    requires Sorted(l.pos, l.tree) && Sized(l) && x in l.tree && n <= l.pos[x]
    ensures Sorted(r.pos, r.tree) && Sized(r) && x in r.pos && r.pos[x] == l.pos[x] - n
    ensures forall y :: y in r.tree <==> y in l.tree && y != x
    ensures forall y | y in r.tree :: r.pos[y] == l.pos[y]
    ensures |r.tree| == |l.tree| - 1 && r.next == l.next
  {
    RemovedShape(l, x);
    var pos := l.pos[x := l.pos[x] - n];
    SortedFrame(l.pos, pos, Without(l.tree, x));
    l.(pos := pos, len := l.len[x := l.len[x] + n], tree := Without(l.tree, x))
  }

  /** The reposition of as_merged_request. */
  function FrontMerge(l: Lane, x: nat, n: nat): Lane
    requires Sorted(l.pos, l.tree) && Sized(l) && x in l.tree && n <= l.pos[x]
  {
    AddRb(TakenOut(l, x, n), x)
  }

  /** Sector `k` is waiting to be served. */
  ghost predicate Covers(l: Lane, k: int) {
    exists x :: Spans(l, x, k)
  }

  ghost predicate Spans(l: Lane, x: nat, k: int) {
    x in l.tree && x in l.pos && x in l.len && l.pos[x] <= k < l.pos[x] + l.len[x]
  }

  /** A back merge adds just the sectors behind the request. */
  lemma BackMergeCovers(l: Lane, x: nat, n: nat, k: int)
    requires Sorted(l.pos, l.tree) && Sized(l) && x in l.tree
    ensures var e := l.pos[x] + l.len[x]; Covers(BackMerge(l, x, n), k) <==> Covers(l, k) || e <= k < e + n
  {
    var m, e := BackMerge(l, x, n), l.pos[x] + l.len[x];
    if y :| Spans(m, y, k) {
      assert Spans(l, y, k) || e <= k < e + n;
    }
    assert e <= k < e + n ==> Spans(m, x, k);
    if y :| Spans(l, y, k) {
      assert Spans(m, y, k);
    }
  }

  /** Merging two requests of which one begins where the other ends loses and adds no sector. */
  lemma MergeCovers(l: Lane, x: nat, y: nat, k: int)
    requires Sorted(l.pos, l.tree) && Sized(l) && x in l.tree && y in l.tree && x != y && l.pos[x] + l.len[x] == l.pos[y]
    ensures Covers(MergeRequests(l, x, y), k) <==> Covers(l, k)
  {
    RemovedShape(l, y);
    hide Without, FindNext;
    var m := MergeRequests(l, x, y);
    if z :| Spans(m, z, k) {
      assert Spans(l, if z == x && k >= l.pos[y] then y else z, k);
    }
    if z :| Spans(l, z, k) {
      assert Spans(m, if z == y then x else z, k);
    }
  }

  /** A front merge moves the start of the request and leaves its end. */
  lemma FrontMergeMoves(l: Lane, x: nat, n: nat)
    requires Sorted(l.pos, l.tree) && Sized(l) && x in l.tree && n <= l.pos[x]
    ensures var m := FrontMerge(l, x, n);
            && x in m.tree && x in m.pos && x in m.len && m.pos[x] == l.pos[x] - n && m.pos[x] + m.len[x] == l.pos[x] + l.len[x]
            && forall y | y in m.tree && y != x :: y in l.tree && m.pos[y] == l.pos[y] && m.len[y] == l.len[y]
  {
    var t := TakenOut(l, x, n);
    var e := Evict(t, x);
    AddedSorted(e.pos, e.tree, x);
  }

  /** A new request is queued with its own start and size. */
  lemma AddCovers(l: Lane, x: nat, s: nat, n: nat)
    requires Sorted(l.pos, l.tree) && Sized(l) && x !in l.tree && (l.next.Some? ==> l.next.value in l.tree)
    ensures var m := Add(l, x, s, n);
            && x in m.tree && x in m.pos && x in m.len && m.pos[x] == s && m.len[x] == n
            && forall y | y in m.tree && y != x :: y in l.tree && m.pos[y] == l.pos[y] && m.len[y] == l.len[y]
  {
    var l1 := l.(pos := l.pos[x := s], len := l.len[x := n]);
    SortedFrame(l.pos, l1.pos, l.tree);
    var e := Evict(l1, x);
    AddedSorted(e.pos, e.tree, x);
  }

  /** The loop of a forced dispatch. */
  function Drain(l: Lane): Lane
    requires Sorted(l.pos, l.tree) && Sized(l) && (l.next.Some? ==> l.next.value in l.tree)
    decreases |l.tree|
  {
    if l.next == None then l
    else
      RemovedShape(l, l.next.value);
      MovedNext(l, l.next.value);
      Drain(MoveToDispatch(l, l.next.value))
  }

  // ---------------------------------------------------------------- the cache names a queued request

  /** Exactly when there is something to dispatch the cache names a request, and a queued one. */
  ghost predicate NextQueued(l: Lane) {
    if l.next == None then l.tree == [] else l.next.value in l.tree
  }

  lemma FindNextQueued(l: Lane, x: nat)
    requires Sorted(l.pos, l.tree) && x in l.tree
    ensures var r := FindNext(l, x);
            if r == None then |l.tree| == 1 else r.value in l.tree && r.value != x
  {}

  lemma MovedNext(l: Lane, x: nat)
    requires Sorted(l.pos, l.tree) && x in l.tree && x in l.len
    ensures NextQueued(MoveToDispatch(l, x))
    ensures MoveToDispatch(l, x).next == None <==> |l.tree| == 1
  {}

  /** Putting back a request with an alias makes the cache name a neighbour of the alias. */
  lemma EvictingNext(l: Lane, x: nat, a: nat)
    requires Sorted(l.pos, l.tree) && Sized(l) && x in l.pos && x !in l.tree && At(l.pos, l.tree, l.pos[x]) == Some(a)
    ensures NextQueued(AddRb(l, x)) <==> |l.tree| > 1
  {
    RemovedShape(l, a);
    MovedNext(l, a);
    var m := MoveToDispatch(l, a);
    forall y | y in m.tree ensures m.pos[y] != m.pos[x] {
      OnlyOneAt(l.pos, l.tree, a, y);
    }
    assert Evict(m, x) == m;
    AddedSorted(m.pos, m.tree, x);
  }

  lemma OnlyOneAt(pos: Positions, t: seq<nat>, a: nat, y: nat)
    requires Sorted(pos, t) && a in t && y in t && a != y
    ensures pos[a] != pos[y]
  {}

  /** A front merge leaves the cache naming a queued request unless it dispatches an alias that
      was the only other request: then it names none although one is queued. */
  lemma FrontMergeNext(l: Lane, x: nat, n: nat)
    requires Sorted(l.pos, l.tree) && Sized(l) && NextQueued(l) && x in l.tree && n <= l.pos[x]
    ensures var alias := exists y :: y in l.tree && y != x && l.pos[y] == l.pos[x] - n;
            NextQueued(FrontMerge(l, x, n)) <==> !(alias && |l.tree| == 2)
  {
    var m := TakenOut(l, x, n);
    match At(m.pos, m.tree, m.pos[x])
    case None => AddedSorted(m.pos, m.tree, x);
    case Some(a) =>
      assert a in l.tree && a != x && l.pos[a] == l.pos[x] - n;
      EvictingNext(m, x, a);
  }

  /** In that case the cache names none, and a forced dispatch leaves the request where it is. */
  lemma FrontMergeStrands(l: Lane, x: nat, y: nat, n: nat)
    requires Sorted(l.pos, l.tree) && Sized(l) && x in l.tree && n <= l.pos[x]
    requires |l.tree| == 2 && y in l.tree && y != x && l.pos[y] == l.pos[x] - n
    ensures var m := FrontMerge(l, x, n); m.next == None && m.tree == [x] && Drain(m) == m
  {
    var t := TakenOut(l, x, n);
    assert t.tree == [y] by { assert y in t.tree; }
    assert At(t.pos, t.tree, t.pos[x]) == Some(y);
    var m := MoveToDispatch(t, y);
    assert m.tree == [] && m.next == None;
  }

  // ---------------------------------------------------------------- the cache is the best choice

  /** No two requests of the tree overlap. */
  ghost predicate NonOverlap(l: Lane)
    requires Sorted(l.pos, l.tree) && Sized(l)
  {
    forall x, y | x in l.tree && y in l.tree && l.pos[x] < l.pos[y] :: l.pos[x] + l.len[x] <= l.pos[y]
  }

  ghost predicate Ok(l: Lane) {
    Sorted(l.pos, l.tree) && Sized(l) && NonOverlap(l) && Best(l, l.next)
  }

  lemma BestAfterRemoval(l: Lane, x: nat, r: Option<nat>)
    requires Sorted(l.pos, l.tree) && x in l.tree
    ensures var m := l.(tree := Without(l.tree, x)); Sorted(m.pos, m.tree) && (Best(m, r) <==> BestBut(l, x, r))
  {
    RemovedShape(l, x);
    var w := Without(l.tree, x);
    assert w != [] ==> w[0] in w;
  }

  /** Fewer requests do not overlap either. */
  lemma FewerApart(l: Lane, m: Lane)
    requires Sorted(l.pos, l.tree) && Sized(l) && NonOverlap(l) && Sorted(m.pos, m.tree)
    requires m.pos == l.pos && m.len == l.len && forall x | x in m.tree :: x in l.tree
    ensures Sized(m) && NonOverlap(m)
  {}

  // the start of the `j`-th request
  function StartAt(l: Lane, j: nat): nat
    requires Sorted(l.pos, l.tree) && j < |l.tree|
  {
    l.pos[l.tree[j]]
  }

  /** The request behind the `i`-th is taken before the one behind it; if it is far behind the head,
      then so are all requests and there is at most one ahead of the `i`-th. */
  predicate BehindIsNext(l: Lane, i: nat)
    requires Sorted(l.pos, l.tree) && i < |l.tree|
  {
    i + 1 < |l.tree| ==>
      if Wraps(l.last, StartAt(l, i + 1)) then Wraps(l.last, StartAt(l, |l.tree| - 1)) && i <= 1
      else i + 2 < |l.tree| ==> Prefers(l.last, StartAt(l, i + 1), StartAt(l, i + 2))
  }

  /** Seen from the head, requests behind it get nearer and then farther away. */
  lemma OnceFarther(last: nat, a: nat, b: nat, c: nat)
    requires a < b <= c && !Wraps(last, a) && Prefers(last, a, b)
    ensures Prefers(last, a, c)
  {}

  lemma Reflexive(last: nat, a: nat)
    ensures Prefers(last, a, a)
  {}

  lemma NearestBefore(last: nat, a: nat, b: nat)
    requires a <= b <= last && !Wraps(last, b)
    ensures Prefers(last, b, a)
  {}

  lemma NearBeatsFar(last: nat, a: nat, b: nat)
    requires !Wraps(last, a) && Wraps(last, b)
    ensures Prefers(last, a, b)
  {}

  lemma FarthestFirst(last: nat, a: nat, b: nat)
    requires Wraps(last, b) && a <= b
    ensures Wraps(last, a) && Prefers(last, a, b)
  {}

  /** What is found is taken before every candidate that was looked at. */
  ghost predicate Candidate(l: Lane, i: nat, m: nat)
    requires Sorted(l.pos, l.tree) && i < |l.tree|
  {
    m < |l.tree| && (m == i + 1 || m + 1 == i || (m == 0 < i && i + 1 == |l.tree|))
  }

  lemma FoundBeats(l: Lane, i: nat, m: nat, r: nat)
    requires Sorted(l.pos, l.tree) && i < |l.tree| && Candidate(l, i, m)
    requires IndexOf(l.tree, l.tree[i]) == i && FindNext(l, l.tree[i]) == Some(r)
    ensures r in l.pos && Prefers(l.last, l.pos[r], StartAt(l, m))
  {}

  /** Some candidate is taken before the `j`-th request. */
  lemma CandidateBeats(l: Lane, i: nat, j: nat) returns (m: nat)
    requires Sorted(l.pos, l.tree) && i < |l.tree| && j < |l.tree| && i != j && BehindIsNext(l, i) && StartAt(l, i) <= l.last
    ensures Candidate(l, i, m) && Prefers(l.last, StartAt(l, m), StartAt(l, j))
  {
    hide Prefers, Wraps;
    var n := |l.tree|;
    if i + 1 < n && Wraps(l.last, StartAt(l, i + 1)) {
      m := if i == 0 then 1 else 0;
      FarthestFirst(l.last, StartAt(l, j), StartAt(l, n - 1));
      FarthestFirst(l.last, StartAt(l, m), StartAt(l, j));
    } else if j > i {
      m := i + 1;
      if j == m {
        Reflexive(l.last, StartAt(l, m));
      } else {
        OnceFarther(l.last, StartAt(l, m), StartAt(l, m + 1), StartAt(l, j));
      }
    } else if !Wraps(l.last, StartAt(l, i - 1)) {
      m := i - 1;
      NearestBefore(l.last, StartAt(l, j), StartAt(l, m));
    } else {
      m := if i + 1 < n then i + 1 else 0;
      FarthestFirst(l.last, StartAt(l, j), StartAt(l, i - 1));
      if m == 0 {
        FarthestFirst(l.last, StartAt(l, 0), StartAt(l, j));
      } else {
        NearBeatsFar(l.last, StartAt(l, m), StartAt(l, j));
      }
    }
  }

  lemma BehindWins(l: Lane, i: nat, j: nat, r: nat)
    requires Sorted(l.pos, l.tree) && i < |l.tree| && j < |l.tree| && i != j && BehindIsNext(l, i) && StartAt(l, i) <= l.last
    requires IndexOf(l.tree, l.tree[i]) == i && FindNext(l, l.tree[i]) == Some(r)
    ensures r in l.pos && Prefers(l.last, l.pos[r], StartAt(l, j))
  {
    hide Prefers, FindNext, BehindIsNext;
    var m := CandidateBeats(l, i, j);
    FoundBeats(l, i, m, r);
    PrefersIsLinear(l.last, l.pos[r], StartAt(l, m), StartAt(l, j));
  }

  lemma OvertakenLoses(l: Lane, i: nat, r: nat) returns (j: nat)
    requires Sorted(l.pos, l.tree) && i < |l.tree| && !BehindIsNext(l, i) && StartAt(l, i) <= l.last
    requires IndexOf(l.tree, l.tree[i]) == i && FindNext(l, l.tree[i]) == Some(r)
    ensures j < |l.tree| && j != i && l.tree[j] != r && !Prefers(l.last, l.pos[r], StartAt(l, j))
  {
    j := if !Wraps(l.last, StartAt(l, i + 1)) then i + 2 else if Wraps(l.last, StartAt(l, |l.tree| - 1)) then 0 else |l.tree| - 1;
  }

  /** Exactly then is looking at the neighbours of a request that starts before the head enough. */
  lemma NeighboursExact(l: Lane, x: nat)
    requires Sorted(l.pos, l.tree) && x in l.tree && l.pos[x] <= l.last
    ensures BestBut(l, x, FindNext(l, x)) <==> BehindIsNext(l, IndexOf(l.tree, x))
  {
    var i, r := IndexOf(l.tree, x), FindNext(l, x);
    SortedNoDup(l.pos, l.tree);
    FindNextQueued(l, x);
    if r == None {
      assert l.tree[0] == x;
    } else if BehindIsNext(l, i) {
      forall y | y in l.tree && y != x && y != r.value ensures Prefers(l.last, l.pos[r.value], l.pos[y]) {
        BehindWins(l, i, IndexOf(l.tree, y), r.value);
      }
    } else {
      var j := OvertakenLoses(l, i, r.value);
      assert l.tree[j] in l.tree && l.tree[j] != x;
    }
  }

  lemma MoveShape(l: Lane, x: nat)
    requires Sorted(l.pos, l.tree) && x in l.tree && x in l.len
    ensures var l1 := l.(last := l.pos[x] + l.len[x]);
            MoveToDispatch(l, x) == l1.(next := FindNext(l1, x), tree := Without(l.tree, x), out := l.out + [x])
  {}

  /** After any dispatch the cache is the best of the tree exactly if the request behind the
      dispatched one is taken before those behind it, seen from where the dispatched one ends. */
  lemma DispatchExact(l: Lane, x: nat)
    requires Sorted(l.pos, l.tree) && x in l.tree && x in l.len
    ensures var m := MoveToDispatch(l, x);
            && Sorted(m.pos, m.tree)
            && (Best(m, m.next) <==> BehindIsNext(l.(last := l.pos[x] + l.len[x]), IndexOf(l.tree, x)))
  {
    var l1 := l.(last := l.pos[x] + l.len[x]);
    NeighboursExact(l1, x);
    BestAfterRemoval(l1, x, FindNext(l1, x));
    FindNextQueued(l1, x);
    MoveShape(l, x);
  }

  /** Requests that do not overlap meet the condition, whichever of them is dispatched. */
  lemma ApartBehind(l: Lane, x: nat)
    requires Sorted(l.pos, l.tree) && Sized(l) && NonOverlap(l) && x in l.tree
    ensures BehindIsNext(l.(last := l.pos[x] + l.len[x]), IndexOf(l.tree, x))
  {
    var i, l1 := IndexOf(l.tree, x), l.(last := l.pos[x] + l.len[x]);
    if i + 1 < |l.tree| {
      ApartFrom(l, x, l.tree[i + 1]);
      AheadIsNext(l1, i);
    }
  }

  lemma AheadIsNext(l: Lane, i: nat)
    requires Sorted(l.pos, l.tree) && i + 1 < |l.tree| && l.last <= StartAt(l, i + 1)
    ensures BehindIsNext(l, i)
  {
    hide Prefers, Wraps;
    var j := if i + 2 < |l.tree| then i + 2 else i + 1;
    AheadOfHead(l.last, StartAt(l, i + 1), StartAt(l, j));
  }

  lemma ApartFrom(l: Lane, x: nat, y: nat)
    requires Sorted(l.pos, l.tree) && Sized(l) && NonOverlap(l) && x in l.tree && y in l.tree && l.pos[x] < l.pos[y]
    ensures l.pos[x] + l.len[x] <= l.pos[y]
  {}

  lemma AheadOfHead(last: nat, s: nat, t: nat)
    requires last <= s <= t
    ensures !Wraps(last, s) && Prefers(last, s, t)
  {}

  /** The request taken out of turn or not, the neighbours of what is dispatched decide. */
  lemma DispatchKeeps(l: Lane, x: nat)
    requires Ok(l) && x in l.tree
    ensures Ok(MoveToDispatch(l, x))
  {
    ApartBehind(l, x);
    DispatchExact(l, x);
    RemovedShape(l, x);
    MoveShape(l, x);
    FewerApart(l, MoveToDispatch(l, x));
  }

  /** Where the best request stands. */
  lemma BestStands(l: Lane, x: nat)
    requires Sorted(l.pos, l.tree) && Best(l, Some(x))
    ensures var i := IndexOf(l.tree, x); SplitsAt(l, i) || (i == 0 && AllWrap(l))
  {}

  lemma RemoveKeeps(l: Lane, x: nat)
    requires Ok(l) && x in l.tree
    ensures Ok(RemoveQueued(l, x))
  {
    RemovedShape(l, x);
    if l.next == Some(x) {
      BestStands(l, x);
      NeighboursSuffice(l, x);
      BestAfterRemoval(l, x, FindNext(l, x));
    }
  }

  lemma {:induction false} EvictKeeps(l: Lane, x: nat)
    requires Ok(l) && x in l.pos
    ensures Ok(Evict(l, x))
    decreases |l.tree|
  {
    match At(l.pos, l.tree, l.pos[x])
    case None =>
    case Some(a) =>
      RemovedShape(l, a);
      DispatchKeeps(l, a);
      EvictKeeps(MoveToDispatch(l, a), x);
  }

  /** A request of `n` sectors at `s` overlaps none of the tree. */
  ghost predicate Fits(l: Lane, x: nat, s: nat, n: nat)
    requires Sorted(l.pos, l.tree) && Sized(l)
  {
    forall y | y in l.tree && y != x ::
      (s < l.pos[y] ==> s + n <= l.pos[y]) && (l.pos[y] < s ==> l.pos[y] + l.len[y] <= s)
  }

  /** Of the best one and a newcomer, the choice is the best. */
  lemma ChooseIsBest(l: Lane, x: nat)
    requires Sorted(l.pos, l.tree) && Best(l, l.next) && x in l.pos && x !in l.tree && At(l.pos, l.tree, l.pos[x]) == None
    ensures var t := Added(l.pos, l.tree, x);
            && Sorted(l.pos, t)
            && Best(l.(tree := t), Choose(l, Some(x), l.next))
  {
    hide Added, Lower;
    AddedSorted(l.pos, l.tree, x);
    var m := l.(tree := Added(l.pos, l.tree, x));
    var r := Choose(l, Some(x), l.next);
    if l.next.Some? {
      var b := l.next.value;
      forall y | y in m.tree && y != r.value ensures Prefers(l.last, l.pos[r.value], l.pos[y]) {
        PrefersIsLinear(l.last, l.pos[r.value], l.pos[b], l.pos[y]);
        PrefersIsLinear(l.last, l.pos[x], l.pos[b], l.pos[y]);
      }
    }
  }

  lemma RoomFor(l: Lane, m: Lane, x: nat)
    requires Sorted(l.pos, l.tree) && Sized(l) && NonOverlap(l) && x in l.pos && x in l.len && Fits(l, x, l.pos[x], l.len[x])
    requires m.pos == l.pos && m.len == l.len && Sorted(m.pos, m.tree) && forall y | y in m.tree :: y == x || y in l.tree
    ensures Sized(m) && NonOverlap(m)
  {}

  lemma AddKeeps(l: Lane, x: nat, s: nat, n: nat)
    requires Ok(l) && x !in l.tree && Fits(l, x, s, n)
    ensures Ok(Add(l, x, s, n))
  {
    var l1 := l.(pos := l.pos[x := s], len := l.len[x := n]);
    NewcomerElsewhere(l, x, s, n);
    EvictKeeps(l1, x);
    var m := Evict(l1, x);
    ChooseIsBest(m, x);
    RoomFor(l1, Add(l, x, s, n), x);
  }

  lemma NewcomerElsewhere(l: Lane, x: nat, s: nat, n: nat)
    requires Ok(l) && x !in l.tree && Fits(l, x, s, n)
    ensures var l1 := l.(pos := l.pos[x := s], len := l.len[x := n]); Ok(l1) && Fits(l1, x, s, n)
  {}

  lemma BackMergeKeeps(l: Lane, x: nat, n: nat)
    requires Ok(l) && x in l.tree && Fits(l, x, l.pos[x], l.len[x] + n)
    ensures Ok(BackMerge(l, x, n))
  {}

  lemma MergeKeeps(l: Lane, x: nat, y: nat)
    requires Ok(l) && x in l.tree && y in l.tree && x != y && l.pos[x] + l.len[x] == l.pos[y]
    ensures Ok(MergeRequests(l, x, y))
  {
    RemoveKeeps(l, y);
    RemovedShape(l, y);
    MergedFits(l, x, y);
    MergeShape(l, x, y);
    BackMergeKeeps(RemoveQueued(l, y), x, l.len[y]);
  }

  /** The order of the two parts of a request merge does not matter. */
  lemma MergeShape(l: Lane, x: nat, y: nat)
    requires Sorted(l.pos, l.tree) && x in l.len && y in l.len && y in l.tree
    ensures MergeRequests(l, x, y) == BackMerge(RemoveQueued(l, y), x, l.len[y])
  {}

  lemma MergedFits(l: Lane, x: nat, y: nat)
    requires Ok(l) && x in l.tree && y in l.tree && x != y && l.pos[x] + l.len[x] == l.pos[y]
    requires Sorted(l.pos, Without(l.tree, y)) && forall z :: z in Without(l.tree, y) <==> z in l.tree && z != y
    ensures var m := l.(tree := Without(l.tree, y)); Fits(m, x, l.pos[x], l.len[x] + l.len[y])
  {}

  // ---------------------------------------------------------------- runs

  datatype Op = Adding(x: nat, s: nat, n: nat) | Dispatching(x: nat) | Lengthening(x: nat, n: nat) | Joining(x: nat, y: nat)

  /** What the block layer asks of the scheduler, for requests that do not overlap. */
  ghost predicate Enabled(l: Lane, op: Op)
    requires Sorted(l.pos, l.tree) && Sized(l)
  {
    match op
    case Adding(x, s, n) => x !in l.tree && Fits(l, x, s, n)
    case Dispatching(x) => x in l.tree
    case Lengthening(x, n) => x in l.tree && Fits(l, x, l.pos[x], l.len[x] + n)
    case Joining(x, y) => x in l.tree && y in l.tree && x != y && l.pos[x] + l.len[x] == l.pos[y]
  }

  ghost function Apply(l: Lane, op: Op): Lane
    requires Ok(l) && Enabled(l, op)
  {
    match op
    case Adding(x, s, n) => Add(l, x, s, n)
    case Dispatching(x) => MoveToDispatch(l, x)
    case Lengthening(x, n) => BackMerge(l, x, n)
    case Joining(x, y) => MergeRequests(l, x, y)
  }

  lemma ApplyKeeps(l: Lane, op: Op)
    requires Ok(l) && Enabled(l, op)
    ensures Ok(Apply(l, op))
  {
    match op
    case Adding(x, s, n) => AddKeeps(l, x, s, n);
    case Dispatching(x) => DispatchKeeps(l, x);
    case Lengthening(x, n) => BackMergeKeeps(l, x, n);
    case Joining(x, y) => MergeKeeps(l, x, y);
  }

  const EMPTY := Lane(map[], map[], [], None, 0, [])

  /** The lane after the operations, or none if one of them was not allowed.  After every run
      the cache, kept up by looking at neighbours only, is the best of the whole tree. */
  ghost function After(ops: seq<Op>): (r: Option<Lane>)
    ensures r.Some? ==> Ok(r.value)
  {
    if ops == [] then Some(EMPTY)
    else
      var before := After(ops[..|ops|-1]);
      if before.Some? && Enabled(before.value, ops[|ops|-1]) then
        ApplyKeeps(before.value, ops[|ops|-1]);
        Some(Apply(before.value, ops[|ops|-1]))
      else None
  }

  /** The cache was right and the dispatch of `x` makes it wrong. */
  ghost predicate Misled(l: Lane, x: nat) {
    && Sorted(l.pos, l.tree) && Sized(l) && Best(l, l.next) && x in l.tree
    && var m := MoveToDispatch(l, x); Sorted(m.pos, m.tree) && !Best(m, m.next)
  }

  /** `m` is `l` with one more request. */
  ghost predicate Adds(l: Lane, m: Lane, x: nat, s: nat, n: nat) {
    && Sorted(l.pos, l.tree) && Sized(l) && x !in l.tree && (l.next.Some? ==> l.next.value in l.tree)
    && m == Add(l, x, s, n)
  }

  /** The requests stand behind the head and before `top`, and the first is the next. */
  ghost predicate InLine(l: Lane, top: nat) {
    && Sorted(l.pos, l.tree) && Sized(l) && l.last <= top
    && (forall y | y in l.tree :: l.last <= l.pos[y] < top)
    && l.next == if l.tree == [] then None else Some(l.tree[0])
  }

  /** A request behind all others of the tree and of the head, which stays where it is. */
  lemma AddsLast(l: Lane, m: Lane, top: nat, x: nat, s: nat, n: nat)
    requires InLine(l, top) && top <= s && x !in l.tree
    requires m.pos == l.pos[x := s] && m.len == l.len[x := n] && m.tree == l.tree + [x] && m.last == l.last && m.out == l.out
    requires m.next == if l.tree == [] then Some(x) else l.next
    ensures Adds(l, m, x, s, n) && InLine(m, s + 1)
  {
    hide Prefers, Added, At;
    var l1 := l.(pos := l.pos[x := s], len := l.len[x := n]);
    SortedFrame(l.pos, l1.pos, l.tree);
    AddedBehind(l1.pos, l.tree, x);
    assert AddRb(l1, x) == l1.(tree := l.tree + [x]);
    if l.tree != [] { NearerIsTaken(l.last, l.pos[l.tree[0]], s); }
  }

  lemma AddedBehind(pos: Positions, t: seq<nat>, x: nat)
    requires Sorted(pos, t) && x in pos && forall y | y in t :: pos[y] < pos[x]
    ensures At(pos, t, pos[x]) == None && Added(pos, t, x) == t + [x] && Sorted(pos, t + [x])
  {
    assert At(pos, t, pos[x]) == None;
    assert Lower(pos, t, pos[x]) == |t|;
    AddedSorted(pos, t, x);
  }

  lemma NearerIsTaken(last: nat, s: nat, t: nat)
    requires last <= s < t
    ensures !Prefers(last, t, s)
  {}

  /** Three requests are added of which the first overlaps the others: then the dispatch of the first
      makes the cache name the second although the third is to be taken. */
  lemma OverlapMisleads() returns (l1: Lane, l2: Lane, l3: Lane)
    ensures Adds(EMPTY, l1, 0, 0, 100) && Adds(l1, l2, 1, 90, 5) && Adds(l2, l3, 2, 99, 1) && Misled(l3, 0)
  {
    hide Adds, Misled, InLine;
    l1 := Lane(map[0 := 0], map[0 := 100], [0], Some(0), 0, []);
    l2 := Lane(map[0 := 0, 1 := 90], map[0 := 100, 1 := 5], [0, 1], Some(0), 0, []);
    l3 := Lane(map[0 := 0, 1 := 90, 2 := 99], map[0 := 100, 1 := 5, 2 := 1], [0, 1, 2], Some(0), 0, []);
    NoneInLine();
    AddsLast(EMPTY, l1, 0, 0, 0, 100);
    AddsLast(l1, l2, 1, 1, 90, 5);
    AddsLast(l2, l3, 91, 2, 99, 1);
    ThreeMislead(l3);
  }

  lemma NoneInLine()
    ensures InLine(EMPTY, 0)
  {}

  /** Two requests are added and ten sectors merged in front of the second, which then begins where
      the first does: it is stranded. */
  lemma StrandedExample() returns (l1: Lane, l2: Lane)
    ensures Adds(EMPTY, l1, 0, 10, 1) && Adds(l1, l2, 1, 20, 1)
    ensures Sorted(l2.pos, l2.tree) && Sized(l2) && 1 in l2.tree && Drain(FrontMerge(l2, 1, 10)).tree == [1]
  {
    hide Adds, FrontMerge, Drain, InLine, Sorted, Sized;
    l1 := Lane(map[0 := 10], map[0 := 1], [0], Some(0), 0, []);
    l2 := Lane(map[0 := 10, 1 := 20], map[0 := 1, 1 := 1], [0, 1], Some(0), 0, []);
    NoneInLine();
    AddsLast(EMPTY, l1, 0, 0, 10, 1);
    AddsLast(l1, l2, 11, 1, 20, 1);
    LineIsSorted(l2, 21);
    FrontMergeStrands(l2, 1, 0, 10);
  }

  lemma LineIsSorted(l: Lane, top: nat)
    requires InLine(l, top)
    ensures Sorted(l.pos, l.tree) && Sized(l) && Best(l, l.next)
  {
    hide Prefers;
    forall y | y in l.tree && y != l.tree[0] ensures Prefers(l.last, l.pos[l.tree[0]], l.pos[y]) {
      var j := IndexOf(l.tree, y);
      AheadOfHead(l.last, l.pos[l.tree[0]], l.pos[y]);
    }
  }

  lemma ThreeMislead(l: Lane)
    requires InLine(l, 100)
    requires l.pos == map[0 := 0, 1 := 90, 2 := 99] && l.len == map[0 := 100, 1 := 5, 2 := 1]
    requires l.tree == [0, 1, 2] && l.next == Some(0) && l.last == 0
    ensures Misled(l, 0)
  {
    hide Best, MoveToDispatch, Sorted;
    LineIsSorted(l, 100);
    var l1 := l.(last := 100);
    assert StartAt(l1, 1) == 90 && StartAt(l1, 2) == 99;
    assert !BehindIsNext(l1, 0);
    DispatchExact(l, 0);
  }

  /** The order in which a forced dispatch hands out the requests. */
  function Order(l: Lane): seq<nat>
    requires Sorted(l.pos, l.tree) && Sized(l) && (l.next.Some? ==> l.next.value in l.tree)
    decreases |l.tree|
  {
    if l.next == None then []
    else
      RemovedShape(l, l.next.value);
      MovedNext(l, l.next.value);
      [l.next.value] + Order(MoveToDispatch(l, l.next.value))
  }

  lemma {:induction false} DrainOrder(l: Lane)
    requires Sorted(l.pos, l.tree) && Sized(l) && NextQueued(l)
    ensures Drain(l).out == l.out + Order(l) && Drain(l).tree == []
    decreases |l.tree|
  {
    if l.next != None {
      var x := l.next.value;
      RemovedShape(l, x);
      MovedNext(l, x);
      var m := MoveToDispatch(l, x);
      DrainOrder(m);
      Assoc(l.out, [x], Order(m));
    }
  }

  /** A forced dispatch hands out every request, each once. */
  lemma {:induction false} DrainEmpties(l: Lane)
    requires Sorted(l.pos, l.tree) && Sized(l) && NextQueued(l)
    ensures |Order(l)| == |l.tree| && NoDup(Order(l)) && forall y :: y in Order(l) <==> y in l.tree
    decreases |l.tree|
  {
    if l.next != None {
      var x := l.next.value;
      RemovedShape(l, x);
      MovedNext(l, x);
      var m := MoveToDispatch(l, x);
      DrainEmpties(m);
      Prepended(x, Order(m));
    }
  }

  // ---------------------------------------------------------------- the scheduler object

  class AsData {
    var pos: Positions
    var len: map<nat, nat>
    var tree: seq<nat>
    var next: Option<nat>
    var last: nat
    ghost var out: seq<nat>

    ghost function State(): Lane
      reads this
    {
      Lane(pos, len, tree, next, last, out)
    }

    ghost predicate Valid()
      reads this
    {
      Sorted(pos, tree) && Sized(State())
    }

    ghost predicate NextIn()
      reads this
    {
      next.Some? ==> next.value in tree
    }

    constructor ()
      ensures State() == EMPTY && Ok(State()) && Valid() && NextIn()
    {
      pos, len, tree, next, last, out := map[], map[], [], None, 0, [];
    }

    function Choice(r1: Option<nat>, r2: Option<nat>): (r: Option<nat>)
      reads this
      requires (r1.Some? ==> r1.value in pos) && (r2.Some? ==> r2.value in pos)
      ensures r == Choose(State(), r1, r2)
    {
      if r1 == None || r1 == r2 then r2
      else if r2 == None then r1
      else if Prefers(last, pos[r1.value], pos[r2.value]) then r1 else r2
    }

    function Search(x: nat): (r: Option<nat>)
      reads this
      requires Valid() && x in tree
      ensures r == FindNext(State(), x)
    {
      var i := IndexOf(tree, x);
      var prev := if i > 0 then Some(tree[i-1]) else None;
      var succ := if i + 1 < |tree| then Some(tree[i+1]) else if i > 0 then Some(tree[0]) else None;
      Choice(succ, prev)
    }

    method RemoveQueuedRequest(x: nat)
      requires Valid() && x in tree
      modifies this`next, this`tree
      ensures State() == RemoveQueued(old(State()), x) && Valid() && (old(NextIn()) ==> NextIn())
    {
      RemovedShape(State(), x);
      FindNextQueued(State(), x);
      if next == Some(x) {
        next := Search(x);
      }
      tree := Without(tree, x);
    }

    method MoveToDispatchQueue(x: nat)
      requires Valid() && x in tree
      modifies this`next, this`tree, this`last, this`out
      ensures State() == MoveToDispatch(old(State()), x) && Valid() && NextIn()
    {
      ghost var l := State();
      last := pos[x] + len[x];
      next := Search(x);
      RemoveQueuedRequest(x);
      out := out + [x];
      assert State() == MoveToDispatch(l, x);
      MovedNext(l, x);
    }

    /** as_add_rq_rb. */
    method AddRqRb(x: nat)
      requires Valid() && x in pos && x in len
      modifies this`next, this`tree, this`last, this`out
      ensures State() == AddRb(old(State()), x) && Valid()
    {
      var alias := At(pos, tree, pos[x]);
      while alias.Some?
        invariant Valid() && x in pos && x in len && alias == At(pos, tree, pos[x])
        invariant Evict(State(), x) == Evict(old(State()), x)
        decreases |tree|
      {
        RemovedShape(State(), alias.value);
        MoveToDispatchQueue(alias.value);
        alias := At(pos, tree, pos[x]);
      }
      AddedSorted(pos, tree, x);
      tree := Added(pos, tree, x);
    }

    /** as_add_request. */
    method AddRequest(x: nat, s: nat, n: nat)
      requires Valid() && NextIn() && x !in tree
      modifies this
      ensures State() == Add(old(State()), x, s, n) && Valid() && NextIn()
    {
      hide Lower;
      SortedFrame(pos, pos[x := s], tree);
      pos, len := pos[x := s], len[x := n];
      AddRqRb(x);
      next := Choice(Some(x), next);
    }

    /** as_merged_request for a front merge of `n` sectors. */
    method MergedInFront(x: nat, n: nat)
      requires Valid() && x in tree && n <= pos[x]
      modifies this
      ensures State() == FrontMerge(old(State()), x, n) && Valid()
      ensures var alias := exists y :: y in old(tree) && y != x && old(pos)[y] == old(pos)[x] - n;
              old(NextQueued(State())) ==> (NextQueued(State()) <==> !(alias && |old(tree)| == 2))
    {
      ghost var s := State();
      if NextQueued(s) { FrontMergeNext(s, x, n); }
      ghost var l := TakenOut(s, x, n);
      pos, len := pos[x := pos[x] - n], len[x := len[x] + n];
      tree := Without(tree, x);
      assert State() == l;
      AddRqRb(x);
    }

    /** as_merged_requests. */
    method MergedRequests(x: nat, y: nat)
      requires Valid() && x in tree && y in tree && x != y
      modifies this`len, this`next, this`tree
      ensures State() == MergeRequests(old(State()), x, y) && Valid()
    {
      len := len[x := len[x] + len[y]];
      RemoveQueuedRequest(y);
    }

    /** The forced part of as_dispatch_request for this direction. */
    method ForcedDispatch() returns (n: nat)
      requires Valid() && NextIn()
      modifies this`next, this`tree, this`last, this`out
      ensures State() == Drain(old(State())) && Valid()
      ensures NextQueued(old(State())) ==> tree == [] && n == |old(tree)| && out == old(out) + Order(old(State()))
    {
      ghost var l0 := State();
      n := 0;
      while next.Some?
        invariant Valid() && NextIn() && Drain(State()) == Drain(l0) && |tree| + n == |l0.tree|
        invariant NextQueued(l0) ==> NextQueued(State())
        decreases |tree|
      {
        RemovedShape(State(), next.value);
        MovedNext(State(), next.value);
        MoveToDispatchQueue(next.value);
        n := n + 1;
      }
      if NextQueued(l0) { DrainOrder(l0); }
    }
  }
}
