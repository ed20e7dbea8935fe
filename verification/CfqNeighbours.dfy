/** When the search of cfq_find_next_rq among neighbours is enough (cfq-iosched.c): wherever the head is
    and whatever overlaps. */
module CfqNeighbours {
  import opened Lists
  import opened Options
  import opened SortTree
  import opened CfqQueue
  import opened CfqChoice

  /** Of two requests of one kind the one that starts at `s` is chosen. */
  predicate Sooner(h: Head, s: nat, t: nat) {
    if Far(h, s) != Far(h, t) then Far(h, t)
    else if Far(h, s) then s <= t
    else if Distance(h, s) != Distance(h, t) then Distance(h, s) < Distance(h, t)
    else s >= t
  }

  lemma SoonerIsChosen(h: Head, r: Requests, a: nat, b: nat)
    requires Both(r, a, b) && r.info[a] == r.info[b] && r.pos[a] != r.pos[b]
    ensures Chosen(h, r, a, b) <==> Sooner(h, r.pos[a], r.pos[b])
  {
    hide Distance;
  }

  lemma SoonerIsLinear(h: Head, a: nat, b: nat, c: nat)
    ensures a != b ==> Sooner(h, a, b) != Sooner(h, b, a)
    ensures Sooner(h, a, b) && Sooner(h, b, c) ==> Sooner(h, a, c)
  {
    hide Distance;
  }

  lemma DistanceBehind(h: Head, a: nat, b: nat)
    requires a <= b < h.last
    ensures Distance(h, a) >= Distance(h, b)
  {
    Nearer(h.last - b, h.last - a, h.backPenalty);
  }

  lemma DistanceAhead(h: Head, a: nat, b: nat)
    requires h.last <= a <= b
    ensures Distance(h, a) <= Distance(h, b) && (a < b ==> Distance(h, a) < Distance(h, b))
  {}

  /** Going up, what is once farther away stays so. */
  lemma OnceFarther(h: Head, a: nat, b: nat, c: nat)
    requires a < b <= c && !Far(h, a) && Sooner(h, a, b)
    ensures Sooner(h, a, c)
  {
    hide Distance;
    if b < h.last { DistanceBehind(h, a, b); } else { DistanceAhead(h, b, c); }
    if a >= h.last { DistanceAhead(h, a, b); }
  }

  /** Going down likewise. */
  lemma OnceLower(h: Head, a: nat, b: nat, c: nat)
    requires c <= b < a && !Far(h, a) && Sooner(h, a, b)
    ensures Sooner(h, a, c)
  {
    hide Distance;
    if b >= h.last { DistanceAhead(h, b, a); } else { DistanceBehind(h, c, b); }
  }

  lemma FarthestFirst(h: Head, a: nat, b: nat)
    requires Far(h, b) && a <= b
    ensures Far(h, a) && Sooner(h, a, b)
  {}

  lemma NearBeatsFar(h: Head, a: nat, b: nat)
    requires !Far(h, a) && Far(h, b)
    ensures Sooner(h, a, b)
  {}

  lemma Reflexive(h: Head, a: nat)
    ensures Sooner(h, a, a)
  {}

  // ---------------------------------------------------------------- the condition

  function StartAt(r: Requests, t: seq<nat>, j: nat): nat
    requires Sorted(r.pos, t) && j < |t|
  {
    r.pos[t[j]]
  }

  /** The request above the `i`-th is chosen before the one above that; if it is out of reach of a
      backward seek, then so are all, and there is at most one below the `i`-th. */
  predicate AboveIsNext(h: Head, r: Requests, t: seq<nat>, i: nat)
    requires Sorted(r.pos, t) && i < |t|
  {
    i + 1 < |t| ==>
      if Far(h, StartAt(r, t, i + 1)) then Far(h, StartAt(r, t, |t| - 1)) && i <= 1
      else i + 2 < |t| ==> Sooner(h, StartAt(r, t, i + 1), StartAt(r, t, i + 2))
  }

  /** The request below the `i`-th, if it is within reach, is chosen before the one below that; or
      nothing is above the `i`-th and the first of all is chosen before the second. */
  predicate BelowIsNext(h: Head, r: Requests, t: seq<nat>, i: nat)
    requires Sorted(r.pos, t) && i < |t|
  {
    i >= 2 && !Far(h, StartAt(r, t, i - 1)) ==>
      || Sooner(h, StartAt(r, t, i - 1), StartAt(r, t, i - 2))
      || (i + 1 == |t| && !Far(h, StartAt(r, t, 0)) && Sooner(h, StartAt(r, t, 0), StartAt(r, t, 1)))
  }

  // ---------------------------------------------------------------- it is enough

  lemma LookedAbove(h: Head, r: Requests, t: seq<nat>, i: nat, j: nat) returns (m: nat)
    requires Sorted(r.pos, t) && i < j < |t| && AboveIsNext(h, r, t, i)
    ensures Looked(|t|, i, m) && Sooner(h, StartAt(r, t, m), StartAt(r, t, j))
  {
    hide Sooner, Far;
    if Far(h, StartAt(r, t, i + 1)) {
      m := if i == 0 then 1 else 0;
      FarthestFirst(h, StartAt(r, t, j), StartAt(r, t, |t| - 1));
      FarthestFirst(h, StartAt(r, t, m), StartAt(r, t, j));
    } else {
      m := i + 1;
      if j == m {
        Reflexive(h, StartAt(r, t, m));
      } else {
        OnceFarther(h, StartAt(r, t, m), StartAt(r, t, m + 1), StartAt(r, t, j));
      }
    }
  }

  lemma LookedBelow(h: Head, r: Requests, t: seq<nat>, i: nat, j: nat) returns (m: nat)
    requires Sorted(r.pos, t) && j < i < |t| && AboveIsNext(h, r, t, i) && BelowIsNext(h, r, t, i)
    ensures Looked(|t|, i, m) && Sooner(h, StartAt(r, t, m), StartAt(r, t, j))
  {
    hide Sooner, Far;
    if j == i - 1 {
      m := j;
      Reflexive(h, StartAt(r, t, m));
    } else if Far(h, StartAt(r, t, i - 1)) {
      FarthestFirst(h, StartAt(r, t, j), StartAt(r, t, i - 1));
      if i + 1 < |t| {
        m := i + 1;
        NearBeatsFar(h, StartAt(r, t, m), StartAt(r, t, j));
      } else {
        m := 0;
        FarthestFirst(h, StartAt(r, t, m), StartAt(r, t, j));
      }
    } else if Sooner(h, StartAt(r, t, i - 1), StartAt(r, t, i - 2)) {
      m := i - 1;
      OnceLower(h, StartAt(r, t, m), StartAt(r, t, i - 2), StartAt(r, t, j));
    } else {
      m := 0;
      if j == 0 {
        Reflexive(h, StartAt(r, t, m));
      } else {
        OnceFarther(h, StartAt(r, t, m), StartAt(r, t, 1), StartAt(r, t, j));
      }
    }
  }

  /** What is found is chosen before every place that was looked at. */
  lemma FoundSooner(h: Head, r: Requests, t: seq<nat>, i: nat, m: nat)
    requires Known(r, t) && OneKind(r, t) && i < |t| && IndexOf(t, t[i]) == i && Looked(|t|, i, m)
    ensures var n := FindNext(h, r, t, t[i]);
            n.Some? && n.value in t && n.value != t[i] && n.value in r.pos && Sooner(h, r.pos[n.value], StartAt(r, t, m))
  {
    hide Sooner, FindNext, Chosen, OneKind;
    FoundAtLeast(h, r, t, i, m);
    var n := FindNext(h, r, t, t[i]).value;
    if n == t[m] {
      Reflexive(h, r.pos[n]);
    } else {
      SameKind(r, t, IndexOf(t, n), m);
      SoonerIsChosen(h, r, n, t[m]);
    }
  }

  lemma FoundBest(h: Head, r: Requests, t: seq<nat>, i: nat, j: nat)
    requires Known(r, t) && OneKind(r, t) && i < |t| && IndexOf(t, t[i]) == i && j < |t| && j != i
    requires AboveIsNext(h, r, t, i) && BelowIsNext(h, r, t, i)
    ensures var n := FindNext(h, r, t, t[i]);
            n.Some? && n.value in t && n.value != t[i] && n.value in r.pos && Sooner(h, r.pos[n.value], StartAt(r, t, j))
  {
    hide Sooner, FindNext, OneKind, AboveIsNext, BelowIsNext;
    var m;
    if j > i { m := LookedAbove(h, r, t, i, j); } else { m := LookedBelow(h, r, t, i, j); }
    FoundSooner(h, r, t, i, m);
    SoonerIsLinear(h, r.pos[FindNext(h, r, t, t[i]).value], StartAt(r, t, m), StartAt(r, t, j));
  }

  // ---------------------------------------------------------------- and it is needed

  /** What is found is one of the places that were looked at. */
  lemma FoundIsLooked(h: Head, r: Requests, t: seq<nat>, i: nat) returns (m: nat)
    requires Known(r, t) && i < |t| && IndexOf(t, t[i]) == i && FindNext(h, r, t, t[i]).Some?
    ensures Looked(|t|, i, m) && FindNext(h, r, t, t[i]) == Some(t[m])
  {
    m := if i > 0 && FindNext(h, r, t, t[i]) == Some(t[i-1]) then i - 1 else if i + 1 < |t| then i + 1 else 0;
  }

  /** Some other request is chosen before all the places that were looked at. */
  lemma AboveMissed(h: Head, r: Requests, t: seq<nat>, i: nat, m: nat) returns (j: nat)
    requires Sorted(r.pos, t) && i < |t| && !AboveIsNext(h, r, t, i) && Looked(|t|, i, m)
    ensures j < |t| && j != i && j != m && !Sooner(h, StartAt(r, t, m), StartAt(r, t, j))
  {
    hide Sooner, Far, Distance;
    var n := |t|;
    if !Far(h, StartAt(r, t, i + 1)) {
      j := i + 2;
      if m < i {
        RisesTo(h, StartAt(r, t, m), StartAt(r, t, i + 1), StartAt(r, t, j));
      }
    } else if Far(h, StartAt(r, t, n - 1)) {
      j := 0;
      FarthestFirst(h, StartAt(r, t, m), StartAt(r, t, n - 1));
      FarthestFirst(h, StartAt(r, t, 0), StartAt(r, t, m));
      SoonerIsLinear(h, StartAt(r, t, 0), StartAt(r, t, m), 0);
    } else {
      j := n - 1;
      FarthestFirst(h, StartAt(r, t, m), StartAt(r, t, i + 1));
      NearBeatsFar(h, StartAt(r, t, j), StartAt(r, t, m));
      SoonerIsLinear(h, StartAt(r, t, j), StartAt(r, t, m), 0);
    }
  }

  /** If the second of two within reach is not chosen before the third, then neither is one below. */
  lemma RisesTo(h: Head, a: nat, b: nat, c: nat)
    requires a < b < c && !Far(h, b) && !Sooner(h, b, c)
    ensures !Sooner(h, a, c)
  {
    hide Sooner;
    SoonerIsLinear(h, b, c, a);
    StillNear(h, b, c);
    OnceLower(h, c, b, a);
    SoonerIsLinear(h, a, c, b);
  }

  lemma StillNear(h: Head, a: nat, b: nat)
    requires a <= b && !Far(h, a)
    ensures !Far(h, b)
  {}

  lemma BelowMissed(h: Head, r: Requests, t: seq<nat>, i: nat, m: nat) returns (j: nat)
    requires Sorted(r.pos, t) && i < |t| && !BelowIsNext(h, r, t, i) && Looked(|t|, i, m)
    ensures j < |t| && j != i && j != m && !Sooner(h, StartAt(r, t, m), StartAt(r, t, j))
  {
    hide Sooner, Far;
    if m == i - 1 {
      j := i - 2;
    } else if m == i + 1 {
      j := i - 2;
      FallsFrom(h, StartAt(r, t, j), StartAt(r, t, i - 1), StartAt(r, t, m));
    } else if Far(h, StartAt(r, t, 0)) {
      j := i - 1;
      NearBeatsFar(h, StartAt(r, t, j), StartAt(r, t, 0));
      SoonerIsLinear(h, StartAt(r, t, j), StartAt(r, t, 0), 0);
    } else {
      j := 1;
    }
  }

  /** If the second of three is within reach and not chosen before the first, then neither is the third. */
  lemma FallsFrom(h: Head, a: nat, b: nat, c: nat)
    requires a < b < c && !Far(h, b) && !Sooner(h, b, a)
    ensures !Sooner(h, c, a)
  {
    hide Sooner;
    assert !Far(h, a) by { if Far(h, a) { NearBeatsFar(h, b, a); } }
    SoonerIsLinear(h, a, b, c);
    OnceFarther(h, a, b, c);
    SoonerIsLinear(h, a, c, b);
  }

  /** Of the requests of the tree but `x`, `n` is the one to choose. */
  ghost predicate BestBut(h: Head, r: Requests, t: seq<nat>, x: nat, n: Option<nat>) {
    if n == None then t == [x]
    else n.value in t && n.value != x && forall y | y in t && y != x && y != n.value :: Both(r, n.value, y) && Chosen(h, r, n.value, y)
  }

  lemma ConditionSuffices(h: Head, r: Requests, t: seq<nat>, i: nat)
    requires Known(r, t) && OneKind(r, t) && i < |t| && IndexOf(t, t[i]) == i && FindNext(h, r, t, t[i]).Some?
    requires AboveIsNext(h, r, t, i) && BelowIsNext(h, r, t, i)
    ensures BestBut(h, r, t, t[i], FindNext(h, r, t, t[i]))
  {
    hide Sooner, FindNext, OneKind, Chosen, AboveIsNext, BelowIsNext;
    var n := FindNext(h, r, t, t[i]).value;
    FindNextQueued(h, r, t, t[i]);
    forall y | y in t && y != t[i] && y != n ensures Both(r, n, y) && Chosen(h, r, n, y) {
      var j := IndexOf(t, y);
      FoundBest(h, r, t, i, j);
      SameKind(r, t, IndexOf(t, n), j);
      SoonerIsChosen(h, r, n, y);
    }
  }

  lemma ConditionNeeded(h: Head, r: Requests, t: seq<nat>, i: nat)
    requires Known(r, t) && OneKind(r, t) && i < |t| && IndexOf(t, t[i]) == i && FindNext(h, r, t, t[i]).Some?
    requires !AboveIsNext(h, r, t, i) || !BelowIsNext(h, r, t, i)
    ensures !BestBut(h, r, t, t[i], FindNext(h, r, t, t[i]))
  {
    hide Sooner, FindNext, OneKind, Chosen, AboveIsNext, BelowIsNext;
    var m := FoundIsLooked(h, r, t, i);
    var j;
    if !AboveIsNext(h, r, t, i) { j := AboveMissed(h, r, t, i, m); } else { j := BelowMissed(h, r, t, i, m); }
    SameKind(r, t, m, j);
    SameKind(r, t, i, j);
    SoonerIsChosen(h, r, t[m], t[j]);
    assert t[j] in t;
  }

  /** In a queue of one kind, wherever the head is, looking at the neighbours of a request and at the
      first one finds the best of the others exactly if the neighbours are chosen before what is behind
      them. */
  lemma NeighboursExact(h: Head, r: Requests, t: seq<nat>, x: nat)
    requires Known(r, t) && OneKind(r, t) && x in t
    ensures var i := IndexOf(t, x);
            BestBut(h, r, t, x, FindNext(h, r, t, x)) <==> AboveIsNext(h, r, t, i) && BelowIsNext(h, r, t, i)
  {
    hide OneKind, Chosen;
    SortedNoDup(r.pos, t);
    FindNextQueued(h, r, t, x);
    var i := IndexOf(t, x);
    if FindNext(h, r, t, x) == None {
      assert t == [t[0]];
    } else if AboveIsNext(h, r, t, i) && BelowIsNext(h, r, t, i) {
      ConditionSuffices(h, r, t, i);
    } else {
      ConditionNeeded(h, r, t, i);
    }
  }

  /** The head stands behind the requests before `x` and not behind those after it, as it does when `x`
      has just been served and no requests overlap. */
  ghost predicate HeadAt(h: Head, r: Requests, t: seq<nat>, x: nat)
    requires Known(r, t) && x in t
  {
    && (forall y | y in t && r.pos[y] < r.pos[x] :: r.pos[y] < h.last)
    && (forall y | y in t && r.pos[y] > r.pos[x] :: r.pos[y] >= h.last)
  }

  /** Then the condition is met. */
  lemma HeadAtSuffices(h: Head, r: Requests, t: seq<nat>, x: nat)
    requires Known(r, t) && x in t && HeadAt(h, r, t, x)
    ensures var i := IndexOf(t, x); AboveIsNext(h, r, t, i) && BelowIsNext(h, r, t, i)
  {
    hide Distance, Sooner, Far;
    var i := IndexOf(t, x);
    if i + 1 < |t| {
      assert t[i + 1] in t;
      AheadSooner(h, StartAt(r, t, i + 1), StartAt(r, t, if i + 2 < |t| then i + 2 else i + 1));
    }
    if i >= 2 && !Far(h, StartAt(r, t, i - 1)) {
      assert t[i - 1] in t;
      BehindSooner(h, StartAt(r, t, i - 1), StartAt(r, t, i - 2));
    }
  }

  lemma AheadSooner(h: Head, a: nat, b: nat)
    requires h.last <= a <= b
    ensures !Far(h, a) && Sooner(h, a, b)
  {
    DistanceAhead(h, a, b);
  }

  lemma BehindSooner(h: Head, a: nat, b: nat)
    requires b <= a < h.last && !Far(h, a)
    ensures Sooner(h, a, b)
  {
    DistanceBehind(h, b, a);
  }

  /** After a dispatch the next request is the best one of those left exactly under the condition. */
  lemma DispatchedExact(h: Head, r: Requests, q: Cfqq, x: nat)
    requires Known(r, q.tree) && OneKind(r, q.tree) && x in q.tree && x in q.fifo && Queued(q, r.info[x].sync) > 0
    ensures var e, i := Dispatched(h, r, q, x), IndexOf(q.tree, x);
            (if e.next == None then e.tree == [] else Best(h, r, e.tree, e.next.value))
            <==> AboveIsNext(h, r, q.tree, i) && BelowIsNext(h, r, q.tree, i)
  {
    hide OneKind, Chosen, FindNext, Without, AboveIsNext, BelowIsNext;
    NeighboursExact(h, r, q.tree, x);
    FindNextQueued(h, r, q.tree, x);
    DeletedSorted(r.pos, q.tree, x);
    if |q.tree| == 1 { SingleIs(q.tree, x); }
    var rest := Without(q.tree, x);
    assert rest != [] ==> rest[0] in rest;
  }

  lemma SingleIs(t: seq<nat>, x: nat)
    requires x in t && |t| == 1
    ensures t == [x]
  {}

  // ---------------------------------------------------------------- what can go wrong

  /** The requests 1, 2 and 3 at the sectors 10, 20 and 30, the last of which is of the kind `k`. */
  function Three(k: Info): Requests {
    Requests(map[1 := 10, 2 := 20, 3 := 30], map[1 := Info(true, false), 2 := Info(true, false), 3 := k])
  }

  /** Metadata two places away are not found. */
  lemma KindsMislead(h: Head)
    ensures Known(Three(Info(true, true)), [1, 2, 3]) && IndexOf([1, 2, 3], 1) == 0
    ensures FindNext(h, Three(Info(true, true)), [1, 2, 3], 1) == Some(2) && Chosen(h, Three(Info(true, true)), 3, 2)
  {}

  /** Nor is a request at the head itself, if the one that goes is elsewhere. */
  lemma HeadMisleads(h: Head)
    requires h == Head(30, 16 * 1024, 2)
    ensures Known(Three(Info(true, false)), [1, 2, 3]) && IndexOf([1, 2, 3], 1) == 0
    ensures FindNext(h, Three(Info(true, false)), [1, 2, 3], 1) == Some(2) && Chosen(h, Three(Info(true, false)), 3, 2)
  {}
}
