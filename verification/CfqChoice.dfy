/** What cfq_choose_req and cfq_find_next_rq choose (cfq-iosched.c), in terms of sectors and kinds. */
module CfqChoice {
  import opened Lists
  import opened Options
  import opened SortTree
  import opened CfqQueue

  ghost predicate Both(r: Requests, a: nat, b: nat) {
    a in r.pos && b in r.pos && a in r.info && b in r.info
  }

  /** Of the two, `a` is chosen, whichever way round they are given. */
  ghost predicate Chosen(h: Head, r: Requests, a: nat, b: nat)
    requires Both(r, a, b)
  {
    Choose(h, r, Some(a), Some(b)) == Some(a) && Choose(h, r, Some(b), Some(a)) == Some(a)
  }

  /** Within reach of a backward seek, which is counted in units of two sectors. */
  predicate Near(h: Head, s: nat) {
    s < h.last <= s + 2 * h.backMax
  }

  predicate Far(h: Head, s: nat) {
    s + 2 * h.backMax < h.last
  }

  /** A request that somebody waits for goes before one that nobody does, and then metadata before
      data, wherever they are. */
  lemma KindsFirst(h: Head, r: Requests, a: nat, b: nat)
    requires Both(r, a, b) && a != b
    requires (r.info[a].sync && !r.info[b].sync) || (r.info[a].sync == r.info[b].sync && r.info[a].meta && !r.info[b].meta)
    ensures Chosen(h, r, a, b)
  {}

  /** Of two requests of one kind: the nearer one of two ahead of the head and of two behind it; of one
      ahead and one behind, the former exactly if it is not farther away than the other times the
      penalty; one out of reach goes last, and of two such the lower one first. */
  lemma SectorsNext(h: Head, r: Requests, a: nat, b: nat)
    requires Both(r, a, b) && r.info[a] == r.info[b] && r.pos[a] != r.pos[b]
    ensures var s, t := r.pos[a], r.pos[b];
            && (h.last <= s < t ==> Chosen(h, r, a, b))
            && (Near(h, s) && Near(h, t) && s > t ==> Chosen(h, r, a, b))
            && (h.last <= s && Near(h, t) && s - h.last <= (h.last - t) * h.backPenalty ==> Chosen(h, r, a, b))
            && (h.last <= s && Near(h, t) && s - h.last > (h.last - t) * h.backPenalty ==> Chosen(h, r, b, a))
            && (!Far(h, s) && Far(h, t) ==> Chosen(h, r, a, b))
            && (Far(h, s) && Far(h, t) && s < t ==> Chosen(h, r, a, b))
  {
    if Near(h, r.pos[a]) && Near(h, r.pos[b]) && r.pos[a] > r.pos[b] {
      Nearer(h.last - r.pos[a], h.last - r.pos[b], h.backPenalty);
    }
  }

  lemma Nearer(a: nat, b: nat, k: nat)
    requires a <= b
    ensures a * k <= b * k
  {}

  // ---------------------------------------------------------------- the search among neighbours

  /** All the requests of the tree are of one kind. */
  ghost predicate OneKind(r: Requests, t: seq<nat>)
    requires Known(r, t)
  {
    forall x, y | x in t && y in t :: r.info[x] == r.info[y]
  }

  lemma ChosenAll(h: Head, r: Requests, a: nat, b: nat, c: nat)
    requires Both(r, a, b) && Both(r, b, c) && r.info[a] == r.info[b] == r.info[c]
    requires a != b && b != c && a != c && Chosen(h, r, a, b) && Chosen(h, r, b, c)
    ensures Chosen(h, r, a, c)
  {
    hide Distance;
  }

  lemma Decided(h: Head, r: Requests, a: nat, b: nat)
    requires Both(r, a, b) && r.info[a] == r.info[b] && r.pos[a] != r.pos[b]
    ensures Chosen(h, r, a, b) || Chosen(h, r, b, a)
  {
    hide Distance;
  }

  /** The places that the search looks at. */
  predicate Looked(n: nat, i: nat, m: nat) {
    m < n && (m == i + 1 || m + 1 == i || (m == 0 < i && i + 1 == n))
  }

  lemma FoundAtLeast(h: Head, r: Requests, t: seq<nat>, i: nat, m: nat)
    requires Known(r, t) && OneKind(r, t) && i < |t| && IndexOf(t, t[i]) == i && Looked(|t|, i, m)
    ensures var n := FindNext(h, r, t, t[i]);
            n.Some? && n.value in t && n.value != t[i] && Both(r, n.value, t[m]) && (n.value != t[m] ==> Chosen(h, r, n.value, t[m]))
  {
    hide Prefers, OneKind;
    if 0 < i {
      var k := if i + 1 < |t| then i + 1 else 0;
      SameKind(r, t, k, i - 1);
      if k != i - 1 { Decided(h, r, t[k], t[i - 1]); }
    }
  }

  lemma SameKind(r: Requests, t: seq<nat>, i: nat, j: nat)
    requires Known(r, t) && OneKind(r, t) && i < |t| && j < |t|
    ensures Both(r, t[i], t[j]) && r.info[t[i]] == r.info[t[j]] && (i != j ==> r.pos[t[i]] != r.pos[t[j]] && t[i] != t[j])
  {
    assert t[i] in t && t[j] in t;
  }

  /** `n` is chosen before every other request of the tree. */
  ghost predicate Best(h: Head, r: Requests, t: seq<nat>, n: nat) {
    n in t && forall y | y in t && y != n :: Both(r, n, y) && Chosen(h, r, n, y)
  }

  /** If the next request was the best one of the queue, then it still is, or the new one is. */
  lemma AddedBest(h: Head, r: Requests, q: Cfqq, x: nat)
    requires Known(r, q.tree) && OneKind(r, q.tree) && x in r.pos && x in r.info && At(r.pos, q.tree, r.pos[x]) == None
    requires if q.next == None then q.tree == [] else Best(h, r, q.tree, q.next.value) && r.info[x] == r.info[q.next.value]
    ensures var e := LinkedIn(h, r, q, x); e.next.Some? && Best(h, r, e.tree, e.next.value)
  {
    hide Prefers, OneKind, Chosen, At;
    AddedSorted(r.pos, q.tree, x);
    if q.next.Some? { StillBest(h, r, q.tree, q.next.value, x); }
  }

  lemma StillBest(h: Head, r: Requests, t: seq<nat>, n: nat, x: nat)
    requires Known(r, t) && OneKind(r, t) && n in t && x !in t && Both(r, n, x) && r.info[x] == r.info[n]
    requires forall y | y in t :: r.pos[y] != r.pos[x]
    requires Best(h, r, t, n)
    ensures var c := Choose(h, r, Some(n), Some(x));
            && c.Some? && (c.value == n || c.value == x)
            && forall y | (y in t || y == x) && y != c.value :: Both(r, c.value, y) && Chosen(h, r, c.value, y)
  {
    hide Prefers;
    Decided(h, r, n, x);
    forall y | y in t && y != n && Chosen(h, r, x, n) ensures Both(r, x, y) && Chosen(h, r, x, y) {
      ChosenAll(h, r, x, n, y);
    }
  }

  /** A request that is removed without being served leaves the next one as it is, unless it was the
      next one itself: then it is replaced by the better one of its neighbours. */
  lemma RemovedNext(h: Head, r: Requests, q: Cfqq, x: nat, m: nat)
    requires Known(r, q.tree) && OneKind(r, q.tree) && x in q.tree && x in q.fifo && Queued(q, r.info[x].sync) > 0
    requires Looked(|q.tree|, IndexOf(q.tree, x), m)
    ensures var e := Removed(h, r, q, x);
            && (q.next != Some(x) ==> e.next == q.next)
            && (q.next == Some(x) ==>
                  && e.next.Some? && e.next.value in e.tree && Both(r, e.next.value, q.tree[m])
                  && (e.next.value != q.tree[m] ==> Chosen(h, r, e.next.value, q.tree[m])))
  {
    hide OneKind, Chosen, FindNext, Without;
    FoundAtLeast(h, r, q.tree, IndexOf(q.tree, x), m);
    DeletedSorted(r.pos, q.tree, x);
  }
}
