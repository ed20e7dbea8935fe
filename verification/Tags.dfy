/** Tagged queueing (blk-tag.c): a map of tags that queues may share, the requests that hold them,
    and the return of all of them to the queue. */
module Tags {
  import opened Lists
  import opened Options

  /** struct blk_queue_tag with the queues that use it: `bits` and `index` are tag_map and
      tag_index, `tag` is the tag of each request that is marked queued, `owner` the queue of a
      request; `busy` and `head` are tag_busy_list and the dispatch queue of each queue. */
  datatype State = State(bits: seq<bool>, index: seq<Option<nat>>, maxDepth: nat, tag: map<nat, nat>, owner: map<nat, nat>,
                         busy: map<nat, seq<nat>>, head: map<nat, seq<nat>>)

  /** A bit is set exactly if its slot holds the one request that carries the tag. */
  ghost predicate TagsOk(s: State) {
    && |s.bits| == |s.index| && s.maxDepth <= |s.index|
    && (forall t | 0 <= t < |s.index| :: s.bits[t] == s.index[t].Some?)
    && (forall t | 0 <= t < |s.index| && s.index[t].Some? :: s.index[t].value in s.tag && s.tag[s.index[t].value] == t)
    && (forall x | x in s.tag :: s.tag[x] < |s.index| && s.index[s.tag[x]] == Some(x))
  }

  /** The busy list of a queue holds its tagged requests, each once. */
  ghost predicate BusyOk(s: State) {
    && (forall k | k in s.busy :: NoDup(s.busy[k]))
    && (forall k, x | k in s.busy && x in s.busy[k] :: x in s.tag && x in s.owner && s.owner[x] == k)
    && (forall x | x in s.tag :: x in s.owner && s.owner[x] in s.busy && x in s.busy[s.owner[x]])
  }

  ghost predicate Ok(s: State) {
    TagsOk(s) && BusyOk(s) && s.busy.Keys == s.head.Keys
  }

  /** The busy requests of a queue, the one started first in front. */
  function StartOrder(s: State, k: nat): seq<nat>
    requires k in s.busy
  {
    Reversed(s.busy[k])
  }

  function Reversed(q: seq<nat>): (r: seq<nat>)
    ensures |r| == |q|
  {
    if q == [] then [] else Reversed(q[1..]) + [q[0]]
  }

  // ---------------------------------------------------------------- starting and ending

  /** How many tags a request may use: some are kept for synchronous requests. */
  function Depth(max: nat, sync: bool): nat {
    if sync || max <= 1 then max else if max == 2 then 1 else max - 2
  }

  /** The first free tag below `depth`. */
  function FirstFree(bits: seq<bool>, depth: nat): (t: nat)
    requires depth <= |bits|
    ensures t <= depth
    ensures forall i | 0 <= i < t :: bits[i]
    ensures t < depth ==> !bits[t]
    decreases depth
  {
    if depth == 0 then 0
    else
      var t := FirstFree(bits, depth - 1);
      if t < depth - 1 then t else if bits[depth - 1] then depth else depth - 1
  }

  /** The request `x` of the queue `k` gets the tag `t` and leaves the dispatch queue. */
  function Tagged(s: State, k: nat, x: nat, t: nat): State
    requires t < |s.bits| && t < |s.index| && k in s.busy && k in s.head && x in s.head[k]
  {
    s.(bits := s.bits[t := true], index := s.index[t := Some(x)], tag := s.tag[x := t], owner := s.owner[x := k],
       busy := s.busy[k := [x] + s.busy[k]], head := s.head[k := Without(s.head[k], x)])
  }

  /** blk_queue_start_tag; the request stays where it is if there is no tag for it. */
  function Started(s: State, k: nat, x: nat, sync: bool, asyncInFlight: nat): State
    requires |s.bits| == |s.index| && s.maxDepth <= |s.bits| && k in s.busy && k in s.head && x in s.head[k]
  {
    var depth := Depth(s.maxDepth, sync);
    var t := FirstFree(s.bits, depth);
    if !sync && s.maxDepth > 1 && asyncInFlight > depth then s
    else if t >= depth then s
    else Tagged(s, k, x, t)
  }

  /** blk_queue_end_tag. */
  function Ended(s: State, x: nat): State
    requires x in s.tag && s.tag[x] < |s.bits| == |s.index| && x in s.owner && s.owner[x] in s.busy && x in s.busy[s.owner[x]]
  {
    var t, k := s.tag[x], s.owner[x];
    s.(bits := s.bits[t := false], index := s.index[t := None], tag := s.tag - {x},
       busy := s.busy[k := Without(s.busy[k], x)])
  }

  lemma TaggedTags(s: State, k: nat, x: nat, t: nat)
    requires TagsOk(s) && t < |s.bits| && !s.bits[t] && k in s.busy && k in s.head && x in s.head[k] && x !in s.tag
    ensures TagsOk(Tagged(s, k, x, t))
  {}

  lemma TaggedBusy(s: State, k: nat, x: nat, t: nat)
    requires BusyOk(s) && t < |s.bits| && t < |s.index| && k in s.busy && k in s.head && x in s.head[k] && x !in s.tag
    ensures BusyOk(Tagged(s, k, x, t))
  {}

  /** Starting a request keeps every bit, slot and list in step. */
  lemma StartKeeps(s: State, k: nat, x: nat, sync: bool, asyncInFlight: nat)
    requires Ok(s) && k in s.busy && x in s.head[k] && x !in s.tag
    ensures |s.bits| == |s.index| && s.maxDepth <= |s.bits| && Ok(Started(s, k, x, sync, asyncInFlight))
  {
    hide TagsOk, BusyOk, Tagged;
    assert |s.bits| == |s.index| && s.maxDepth <= |s.bits| by { SizesOk(s); }
    var depth := Depth(s.maxDepth, sync);
    var t := FirstFree(s.bits, depth);
    if t < depth {
      TaggedTags(s, k, x, t);
      TaggedBusy(s, k, x, t);
      TaggedKeys(s, k, x, t);
    }
  }

  /** A synchronous request gets a tag exactly if one below the depth is free. An asynchronous one
      leaves the last two tags of a map of three or more alone, and the second of a map of two; it gets
      none while more of its kind are in flight than it may use tags. The tag is the lowest one free. */
  lemma StartExactly(s: State, k: nat, x: nat, sync: bool, asyncInFlight: nat)
    requires Ok(s) && k in s.busy && k in s.head && x in s.head[k] && x !in s.tag
    ensures |s.bits| == |s.index| && s.maxDepth <= |s.bits|
    ensures var d := Started(s, k, x, sync, asyncInFlight);
            var limit := if sync || s.maxDepth < 2 then s.maxDepth else if s.maxDepth == 2 then 1 else s.maxDepth - 2;
            && (x in d.tag <==> (sync || s.maxDepth < 2 || asyncInFlight <= limit) && exists t :: 0 <= t < limit && !s.bits[t])
            && (x in d.tag ==> d.tag[x] < limit && !s.bits[d.tag[x]] && forall t | 0 <= t < d.tag[x] :: s.bits[t])
            && (x !in d.tag ==> d == s)
  {
    SizesOk(s);
  }

  lemma SizesOk(s: State)
    requires TagsOk(s)
    ensures |s.bits| == |s.index| && s.maxDepth <= |s.bits|
  {}

  lemma TaggedKeys(s: State, k: nat, x: nat, t: nat)
    requires t < |s.bits| && t < |s.index| && k in s.busy && k in s.head && x in s.head[k] && s.busy.Keys == s.head.Keys
    ensures Tagged(s, k, x, t).busy.Keys == Tagged(s, k, x, t).head.Keys
  {}

  lemma EndedTags(s: State, x: nat)
    requires TagsOk(s) && x in s.tag && x in s.owner && s.owner[x] in s.busy && x in s.busy[s.owner[x]]
    ensures TagsOk(Ended(s, x))
  {}

  lemma EndedBusy(s: State, x: nat)
    requires TagsOk(s) && BusyOk(s) && x in s.tag && x in s.owner && s.owner[x] in s.busy && x in s.busy[s.owner[x]]
    ensures BusyOk(Ended(s, x))
  {
    hide TagsOk, Without, NoDup;
    SizesOk(s);
    TagBelow(s, x);
    var d, k := Ended(s, x), s.owner[x];
    WithoutMembers(s.busy[k], x);
    assert d.busy == s.busy[k := Without(s.busy[k], x)];
    forall m, y | m in d.busy && y in d.busy[m] ensures y in d.tag && y in d.owner && d.owner[y] == m {
      assert y in s.busy[m];
    }
    forall y | y in d.tag ensures y in d.owner && d.owner[y] in d.busy && y in d.busy[d.owner[y]] {
      assert y in s.tag;
    }
  }

  lemma TagBelow(s: State, x: nat)
    requires TagsOk(s) && x in s.tag
    ensures s.tag[x] < |s.index|
  {}

  lemma Held(s: State, x: nat)
    requires Ok(s) && x in s.tag
    ensures s.tag[x] < |s.bits| == |s.index| && x in s.owner && s.owner[x] in s.busy && x in s.busy[s.owner[x]]
  {}

  /** Ending a request keeps every bit, slot and list in step, and frees its tag. */
  lemma EndKeeps(s: State, x: nat)
    requires Ok(s) && x in s.tag
    ensures s.tag[x] < |s.bits| == |s.index| && x in s.owner && s.owner[x] in s.busy && x in s.busy[s.owner[x]]
    ensures Ok(Ended(s, x)) && !Ended(s, x).bits[s.tag[x]]
  {
    Held(s, x);
    EndedTags(s, x);
    EndedBusy(s, x);
  }

  // ---------------------------------------------------------------- giving everything back

  /** blk_requeue_request of a tagged request while no barrier sequence is active: it goes to the
      front of the dispatch queue. */
  function Requeued(s: State, x: nat): State
    requires x in s.tag && s.tag[x] < |s.bits| == |s.index| && x in s.owner && s.owner[x] in s.busy && x in s.busy[s.owner[x]]
    requires s.owner[x] in s.head
  {
    var e, k := Ended(s, x), s.owner[x];
    e.(head := e.head[k := [x] + e.head[k]])
  }

  /** What one turn of the loop of blk_queue_invalidate_tags does to the queue `k`. */
  lemma RequeueFirst(s: State, k: nat)
    requires Ok(s) && k in s.busy && s.busy[k] != []
    ensures var x := s.busy[k][0];
            && x in s.tag && s.tag[x] < |s.bits| == |s.index| && x in s.owner && s.owner[x] == k && k in s.head
            && var d := Requeued(s, x);
            && Ok(d) && d.busy == s.busy[k := s.busy[k][1..]] && d.head == s.head[k := [x] + s.head[k]]
            && d.tag == s.tag - {x} && d.owner == s.owner && |d.index| == |s.index| && d.maxDepth == s.maxDepth
  {
    var x := s.busy[k][0];
    assert x in s.busy[k];
    EndKeeps(s, x);
    FirstWithout(s.busy[k]);
    RequeuedOk(Ended(s, x), k, x);
  }

  lemma FirstWithout(q: seq<nat>)
    requires q != []
    ensures Without(q, q[0]) == q[1..]
  {}

  lemma RequeuedOk(e: State, k: nat, x: nat)
    requires Ok(e) && k in e.head
    ensures Ok(e.(head := e.head[k := [x] + e.head[k]]))
  {}

  /** blk_queue_invalidate_tags. */
  ghost function Invalidated(s: State, k: nat): (d: State)
    requires Ok(s) && k in s.busy
    decreases |s.busy[k]|
  {
    if s.busy[k] == [] then s
    else
      RequeueFirst(s, k);
      Invalidated(Requeued(s, s.busy[k][0]), k)
  }

  /** All tags of the queue are free, its busy requests are back at the head of the queue in the
      order in which they were started, and the other queues that share the map are as they were. */
  lemma {:induction false} InvalidateReturnsAll(s: State, k: nat)
    requires Ok(s) && k in s.busy
    ensures var d := Invalidated(s, k);
            && Ok(d) && d.busy == s.busy[k := []] && k in s.head && d.head == s.head[k := StartOrder(s, k) + s.head[k]]
            && d.owner == s.owner && (forall x :: x in d.tag <==> x in s.tag && !(x in s.owner && s.owner[x] == k))
            && (forall x | x in d.tag :: d.tag[x] == s.tag[x]) && |d.index| == |s.index| && d.maxDepth == s.maxDepth
    decreases |s.busy[k]|
  {
    if s.busy[k] != [] {
      var x := s.busy[k][0];
      RequeueFirst(s, k);
      var m := Requeued(s, x);
      InvalidateReturnsAll(m, k);
      InvalidateStep(s, m, Invalidated(m, k), k);
    } else {
      NothingBusy(s, k);
    }
  }

  lemma NothingBusy(s: State, k: nat)
    requires Ok(s) && k in s.busy && s.busy[k] == []
    ensures k in s.head && s.busy == s.busy[k := []] && s.head == s.head[k := StartOrder(s, k) + s.head[k]]
    ensures forall x | x in s.tag :: !(x in s.owner && s.owner[x] == k)
  {
    assert [] + s.head[k] == s.head[k];
  }

  lemma InvalidateStep(s: State, m: State, d: State, k: nat)
    requires k in s.busy && s.busy[k] != [] && k in s.head && Ok(s)
    requires var x := s.busy[k][0];
             && m.busy == s.busy[k := s.busy[k][1..]] && m.head == s.head[k := [x] + s.head[k]]
             && m.tag == s.tag - {x} && m.owner == s.owner && x in s.owner && s.owner[x] == k
    requires d.busy == m.busy[k := []] && d.head == m.head[k := StartOrder(m, k) + m.head[k]]
    requires d.owner == m.owner && forall x :: x in d.tag <==> x in m.tag && !(x in m.owner && m.owner[x] == k)
    ensures d.busy == s.busy[k := []] && d.head == s.head[k := StartOrder(s, k) + s.head[k]]
    ensures forall x :: x in d.tag <==> x in s.tag && !(x in s.owner && s.owner[x] == k)
  {
    hide Ok;
    var x, tail := s.busy[k][0], s.busy[k][1..];
    Assoc(Reversed(tail), [x], s.head[k]);
    assert StartOrder(s, k) == Reversed(tail) + [x];
    assert d.head == s.head[k := Reversed(tail) + ([x] + s.head[k])];
  }

  /** The busy requests in start order, followed by those that wait. */
  function Line(s: State, k: nat): seq<nat>
    requires k in s.busy && k in s.head
  {
    StartOrder(s, k) + s.head[k]
  }

  /** Starting the request at the head leaves the line as it is. */
  lemma StartKeepsLine(s: State, k: nat, sync: bool, asyncInFlight: nat)
    requires Ok(s) && k in s.busy && k in s.head && s.head[k] != [] && s.head[k][0] !in s.tag
    ensures |s.bits| == |s.index| && s.maxDepth <= |s.bits|
    ensures var d := Started(s, k, s.head[k][0], sync, asyncInFlight); k in d.busy && k in d.head && Line(d, k) == Line(s, k)
  {}

  /** How the next start goes: the kind of the request, and what the queue has in flight. */
  datatype Turn = Turn(sync: bool, asyncInFlight: nat)

  /** The requests that wait in the queue are distinct and have no tag. */
  ghost predicate Waiting(s: State, k: nat) {
    k in s.busy && k in s.head && NoDup(s.head[k]) && forall x | x in s.head[k] :: x !in s.tag
  }

  /** `d` comes from `s` by starts of requests of the queue `k`: only the line is split elsewhere, and
      what other queues hold is as it was. */
  ghost predicate StartedFrom(s: State, d: State, k: nat) {
    && Ok(d) && Waiting(d, k) && Waiting(s, k) && Line(d, k) == Line(s, k)
    && d.busy == s.busy[k := d.busy[k]] && d.head == s.head[k := d.head[k]]
    && |d.index| == |s.index| && d.maxDepth == s.maxDepth
    && (forall x | x in s.tag :: x in d.tag && d.tag[x] == s.tag[x] && x in s.owner && x in d.owner && d.owner[x] == s.owner[x])
    && (forall x | x in d.tag && x !in s.tag :: x in d.owner && d.owner[x] == k)
  }

  lemma StartsOne(s: State, k: nat, t: Turn)
    requires Ok(s) && Waiting(s, k) && s.head[k] != []
    ensures s.head[k][0] !in s.tag && |s.bits| == |s.index| && s.maxDepth <= |s.bits|
    ensures StartedFrom(s, Started(s, k, s.head[k][0], t.sync, t.asyncInFlight), k)
  {
    hide TagsOk, BusyOk, Reversed, NoDup;
    var x := s.head[k][0];
    assert x in s.head[k];
    StartKeeps(s, k, x, t.sync, t.asyncInFlight);
    StartKeepsLine(s, k, t.sync, t.asyncInFlight);
    FirstWithout(s.head[k]);
    TailWaits(s.head[k]);
    OwnersKnown(s);
  }

  lemma OwnersKnown(s: State)
    requires BusyOk(s)
    ensures forall x | x in s.tag :: x in s.owner
  {}

  lemma TailWaits(q: seq<nat>)
    requires q != [] && NoDup(q)
    ensures NoDup(q[1..]) && q[0] !in q[1..] && forall x | x in q[1..] :: x in q
  {}

  lemma StartedFurther(s: State, d: State, e: State, k: nat)
    requires StartedFrom(s, d, k) && StartedFrom(d, e, k)
    ensures StartedFrom(s, e, k)
  {
    hide Ok, Waiting, Line;
    assert k in d.busy && k in e.busy && k in d.head && k in e.head;
  }

  /** The state after as many starts as there are turns, each of the request at the head. */
  ghost function StartRun(s: State, k: nat, turns: seq<Turn>): (d: State)
    requires Ok(s) && Waiting(s, k)
    ensures StartedFrom(s, d, k)
    decreases |turns|
  {
    if turns == [] || s.head[k] == [] then
      OwnersKnown(s);
      s
    else
      StartsOne(s, k, turns[0]);
      var d := Started(s, k, s.head[k][0], turns[0].sync, turns[0].asyncInFlight);
      var e := StartRun(d, k, turns[1..]);
      StartedFurther(s, d, e, k);
      e
  }

  /** Bits and slots follow from the tags. */
  lemma TagsDetermine(a: State, b: State)
    requires TagsOk(a) && TagsOk(b) && a.tag == b.tag && |a.index| == |b.index|
    ensures a.bits == b.bits && a.index == b.index
  {
    forall t | 0 <= t < |a.index| ensures a.index[t] == b.index[t] {
      if a.index[t].Some? { assert b.index[t] == Some(a.index[t].value); }
      if b.index[t].Some? { assert a.index[t] == Some(b.index[t].value); }
    }
  }

  /** Invalidation undoes any number of starts: of a queue that had nothing busy it restores the tags,
      the lists and the dispatch queue, and it leaves the other queues alone. */
  lemma InvalidateUndoes(s: State, k: nat, turns: seq<Turn>)
    requires Ok(s) && Waiting(s, k) && s.busy[k] == []
    ensures var d := StartRun(s, k, turns);
            Ok(d) && k in d.busy && Invalidated(d, k) == s.(owner := d.owner)
  {
    var d := StartRun(s, k, turns);
    InvalidateReturnsAll(d, k);
    var e := Invalidated(d, k);
    Undone(s, d, e, k);
    TagsDetermine(e, s);
  }

  lemma Undone(s: State, d: State, e: State, k: nat)
    requires Ok(s) && StartedFrom(s, d, k) && s.busy[k] == []
    requires e.busy == d.busy[k := []] && e.head == d.head[k := Line(d, k)]
    requires (forall x :: x in e.tag <==> x in d.tag && !(x in d.owner && d.owner[x] == k)) && forall x | x in e.tag :: e.tag[x] == d.tag[x]
    ensures e.busy == s.busy && e.head == s.head && e.tag == s.tag
  {
    hide TagsOk;
    NothingBusy(s, k);
    assert Line(s, k) == s.head[k];
  }

  // ---------------------------------------------------------------- resizing

  /** The depth that a new map gets: at most twice the number of requests of the queue. */
  function Clamped(newDepth: nat, nrRequests: nat): nat {
    if newDepth > 2 * nrRequests then 2 * nrRequests else newDepth
  }

  /** memcpy of the old map over the front of the new one; none if it runs past the end. */
  function Copied<T>(from: seq<T>, onto: seq<T>): Option<seq<T>> {
    if |from| <= |onto| then Some(from + onto[|from|..]) else None
  }

  /** The map is adjusted, it is shared and stays as it is (-EBUSY), or the copy of the old map runs
      past the end of the new one. */
  datatype Resize = Adjusted(s: State) | Busy | Overrun

  /** blk_queue_resize_tags of a queue that has tags. */
  function Resized(s: State, newDepth: nat, nrRequests: nat, refcnt: nat): Resize {
    if newDepth <= |s.index| then Adjusted(s.(maxDepth := newDepth))
    else if refcnt != 1 then Busy
    else
      var depth := Clamped(newDepth, nrRequests);
      var bits, index := Copied(s.bits, seq(depth, i => false)), Copied(s.index, seq(depth, i => None));
      if bits == None || index == None then Overrun
      else Adjusted(s.(bits := bits.value, index := index.value, maxDepth := depth))
  }

  /** The copy overruns exactly if an unshared map is to grow while it holds more than twice the
      number of requests of the queue. */
  lemma OverrunIff(s: State, newDepth: nat, nrRequests: nat, refcnt: nat)
    requires Ok(s)
    ensures Resized(s, newDepth, nrRequests, refcnt) == Overrun <==>
            newDepth > |s.index| && refcnt == 1 && |s.index| > 2 * nrRequests
  {
    SizesOk(s);
  }

  /** Shrinking and growing keep every tag that is in use, wherever the copy does not overrun. */
  lemma ResizeKeeps(s: State, newDepth: nat, nrRequests: nat, refcnt: nat)
    requires Ok(s)
    ensures var r := Resized(s, newDepth, nrRequests, refcnt);
            r.Adjusted? ==> Ok(r.s) && r.s.tag == s.tag && r.s.busy == s.busy && r.s.head == s.head && s.index <= r.s.index
    ensures var r := Resized(s, newDepth, nrRequests, refcnt);
            r.Adjusted? && newDepth > |s.index| ==>
              |r.s.index| == r.s.maxDepth && r.s.maxDepth == (if newDepth <= 2 * nrRequests then newDepth else 2 * nrRequests)
    ensures var r := Resized(s, newDepth, nrRequests, refcnt);
            newDepth <= |s.index| ==> r.Adjusted? && r.s == s.(maxDepth := newDepth)
    ensures Resized(s, newDepth, nrRequests, refcnt) == Busy <==> newDepth > |s.index| && refcnt != 1
  {
    hide BusyOk;
    SizesOk(s);
    var r := Resized(s, newDepth, nrRequests, refcnt);
    if r.Adjusted? { BusyFrame(s, r.s); }
  }

  lemma BusyFrame(s: State, d: State)
    requires BusyOk(s) && d.tag == s.tag && d.owner == s.owner && d.busy == s.busy
    ensures BusyOk(d)
  {}

  /** The map was made for a queue of eight requests and the number has since been lowered to four:
      growing it overruns. */
  lemma LoweredOverruns(s: State)
    requires s.index == seq(Clamped(16, 8), i => None) && s.bits == seq(Clamped(16, 8), i => false) && s.maxDepth == 16
    requires s.tag == map[] && s.busy == map[0 := []] && s.head == map[0 := []]
    ensures Ok(s) && Resized(s, 17, 4, 1) == Overrun
  {}

  // ---------------------------------------------------------------- the tag map object

  lemma FirstFreeIs(bits: seq<bool>, depth: nat, t: nat)
    requires t <= depth <= |bits| && (forall i | 0 <= i < t :: bits[i]) && (t < depth ==> !bits[t])
    ensures t == FirstFree(bits, depth)
  {}

  class TagMap {
    var bits: seq<bool>
    var index: seq<Option<nat>>
    var maxDepth: nat
    var tag: map<nat, nat>
    var owner: map<nat, nat>
    var busy: map<nat, seq<nat>>
    var head: map<nat, seq<nat>>

    ghost function Value(): State
      reads this
    {
      State(bits, index, maxDepth, tag, owner, busy, head)
    }

    /** blk_init_tags for the queues of `head`. */
    constructor (depth: nat, head: map<nat, seq<nat>>)
      ensures Ok(Value()) && |index| == maxDepth == depth && tag == map[] && this.head == head
    {
      bits, index, maxDepth := seq(depth, i => false), seq(depth, i => None), depth;
      tag, owner, busy := map[], map[], map k | k in head :: [];
      this.head := head;
    }

    /** find_first_zero_bit. */
    method FindFirstZero(depth: nat) returns (t: nat)
      requires depth <= |bits|
      ensures t == FirstFree(bits, depth)
    {
      t := 0;
      while t < depth && bits[t]
        invariant t <= depth && forall i | 0 <= i < t :: bits[i]
      {
        t := t + 1;
      }
      FirstFreeIs(bits, depth, t);
    }

    /** blk_queue_start_tag of a request that has no tag; false if there is none for it. */
    method StartTag(k: nat, x: nat, sync: bool, asyncInFlight: nat) returns (ok: bool)
      requires Ok(Value()) && k in busy && k in head && x in head[k] && x !in tag
      modifies this`bits, this`index, this`tag, this`owner, this`busy, this`head
      ensures |old(bits)| == |old(index)| && old(maxDepth) <= |old(bits)|
      ensures Value() == Started(old(Value()), k, x, sync, asyncInFlight) && (ok <==> x in tag) && Ok(Value())
    {
      hide Ok, Without, FirstFree;
      StartKeeps(Value(), k, x, sync, asyncInFlight);
      var depth := maxDepth;
      if !sync && depth > 1 {
        depth := depth - 2;
        if depth == 0 {
          depth := 1;
        }
        if asyncInFlight > depth {
          return false;
        }
      }
      var t := FindFirstZero(depth);
      if t >= depth {
        return false;
      }
      bits := bits[t := true];
      tag, owner := tag[x := t], owner[x := k];
      index := index[t := Some(x)];
      head := head[k := Without(head[k], x)];
      busy := busy[k := [x] + busy[k]];
      return true;
    }

    /** blk_queue_end_tag: the tag is below the depth of the map, its slot is filled and its bit is
        set. */
    method EndTag(x: nat)
      requires Ok(Value()) && x in tag
      modifies this`bits, this`index, this`tag, this`busy
      ensures Ok(old(Value())) && x in old(tag)
      ensures old(tag)[x] < |old(bits)| == |old(index)| && x in owner && owner[x] in old(busy) && x in old(busy)[owner[x]]
      ensures Value() == Ended(old(Value()), x) && Ok(Value())
    {
      hide BusyOk, Without;
      EndKeeps(Value(), x);
      var t, k := tag[x], owner[x];
      assert index[t] == Some(x) && bits[t];
      busy := busy[k := Without(busy[k], x)];
      tag := tag - {x};
      index := index[t := None];
      bits := bits[t := false];
    }

    /** blk_queue_invalidate_tags with the requeueing of blk_requeue_request. */
    method InvalidateTags(k: nat)
      requires Ok(Value()) && k in busy
      modifies this`bits, this`index, this`tag, this`busy, this`head
      ensures Value() == Invalidated(old(Value()), k) && Ok(Value())
      ensures k in busy && busy[k] == [] && k in head && k in old(head)
      ensures head[k] == StartOrder(old(Value()), k) + old(head)[k]
    {
      hide TagsOk, BusyOk, Ended, Reversed;
      ghost var s0 := Value();
      InvalidateReturnsAll(s0, k);
      while busy[k] != []
        invariant Ok(Value()) && k in busy && Invalidated(Value(), k) == Invalidated(s0, k)
        decreases |busy[k]|
      {
        var x := busy[k][0];
        RequeueFirst(Value(), k);
        EndTag(x);
        head := head[k := [x] + head[k]];
      }
    }

    /** blk_queue_resize_tags; the state is not used when the copy overruns. */
    method ResizeTags(newDepth: nat, nrRequests: nat, refcnt: nat) returns (r: Outcome)
      requires Ok(Value())
      modifies this`bits, this`index, this`maxDepth
      ensures r == Done ==> Resized(old(Value()), newDepth, nrRequests, refcnt) == Adjusted(Value()) && Ok(Value())
      ensures r == Shared ==> Resized(old(Value()), newDepth, nrRequests, refcnt) == Busy && Value() == old(Value())
      ensures r == Overran <==> newDepth > |old(index)| && refcnt == 1 && |old(index)| > 2 * nrRequests
    {
      ghost var s := Value();
      OverrunIff(s, newDepth, nrRequests, refcnt);
      ResizeKeeps(s, newDepth, nrRequests, refcnt);
      hide Ok;
      if newDepth <= |index| {
        maxDepth := newDepth;
        return Done;
      }
      if refcnt != 1 {
        return Shared;
      }
      var depth := Clamped(newDepth, nrRequests);
      var newIndex, newBits := Copied(index, seq(depth, i => None)), Copied(bits, seq(depth, i => false));
      if newIndex == None || newBits == None {
        return Overran;
      }
      bits, index, maxDepth := newBits.value, newIndex.value, depth;
      return Done;
    }
  }

  datatype Outcome = Done | Shared | Overran
}
