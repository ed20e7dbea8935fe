/** Unregistering a crypto algorithm (algapi.c): the traversal with an explicit stack that kills
    every instance built, directly or not, on the algorithm. */
module SpawnRemoval {
  import opened Lists

  /** The use of a provider by the instance `inst`; `id` tells spawns apart. */
  datatype Spawn = Spawn(id: nat, inst: nat, mask: bv32)

  /** For every algorithm, its user list. */
  type Users = map<nat, seq<Spawn>>

  predicate Uses(users: Users, a: nat, s: Spawn) {
    a in users && s in users[a]
  }

  /** Every linked spawn is on the list of its provider, once, and its instance is known. */
  ghost predicate Linked(users: Users, provider: map<Spawn, nat>) {
    && (forall a | a in users :: NoDup(users[a]))
    && (forall a, s | Uses(users, a, s) :: s.inst in users && s in provider && provider[s] == a)
  }

  /** Nothing is built on a dead algorithm. */
  ghost predicate DeadUnused(users: Users, dead: set<nat>) {
    forall a | a in users && a in dead :: users[a] == []
  }

  // ---------------------------------------------------------------- reachability

  /** Spawns one after the other, each using the instance of the one before. */
  datatype Path = One(s: Spawn) | More(init: Path, s: Spawn)

  /** The first spawn of the path uses `alg`. */
  ghost predicate IsPath(users: Users, alg: nat, p: Path) {
    match p
    case One(s) => Uses(users, alg, s)
    case More(i, s) => IsPath(users, alg, i) && Uses(users, i.s.inst, s)
  }

  ghost predicate Reaches(users: Users, alg: nat, s: Spawn) {
    exists p :: IsPath(users, alg, p) && p.s == s
  }

  /** The instance depends on the algorithm. */
  ghost predicate Depends(users: Users, alg: nat, inst: nat) {
    exists s :: Reaches(users, alg, s) && s.inst == inst
  }

  lemma FirstStep(users: Users, alg: nat, s: Spawn)
    requires Uses(users, alg, s)
    ensures Reaches(users, alg, s)
  {
    assert IsPath(users, alg, One(s));
  }

  lemma NextStep(users: Users, alg: nat, s: Spawn, t: Spawn)
    requires Reaches(users, alg, s) && Uses(users, s.inst, t)
    ensures Reaches(users, alg, t)
  {
    var p :| IsPath(users, alg, p) && p.s == s;
    assert IsPath(users, alg, More(p, t));
  }

  /** `seen` holds the users of the algorithm and the users of every instance it holds. */
  ghost predicate Closed(users: Users, alg: nat, seen: set<Spawn>) {
    && (forall s | Uses(users, alg, s) :: s in seen)
    && (forall s, t | s in seen && Uses(users, s.inst, t) :: t in seen)
  }

  lemma {:induction false} ClosedHoldsPath(users: Users, alg: nat, seen: set<Spawn>, p: Path)
    requires Closed(users, alg, seen) && IsPath(users, alg, p)
    ensures p.s in seen
  {
    if p.More? { ClosedHoldsPath(users, alg, seen, p.init); }
  }

  /** A closed set of reached spawns is the set of all reached spawns. */
  lemma ClosedIsAll(users: Users, alg: nat, seen: set<Spawn>)
    requires Closed(users, alg, seen) && forall s | s in seen :: Reaches(users, alg, s)
    ensures forall s :: s in seen <==> Reaches(users, alg, s)
  {
    forall s | Reaches(users, alg, s) ensures s in seen {
      var p :| IsPath(users, alg, p) && p.s == s;
      ClosedHoldsPath(users, alg, seen, p);
    }
  }

  // ---------------------------------------------------------------- the traversal

  /** No spawn gets lost or doubled between the lists: `left` is what is left of `orig`. */
  ghost predicate Conserved(orig: Users, left: Users, seen: set<Spawn>) {
    && left.Keys == orig.Keys
    && (forall a | a in left :: NoDup(left[a]))
    && (forall a, s | Uses(left, a, s) :: Uses(orig, a, s) && s !in seen)
    && (forall a, s | Uses(orig, a, s) :: Uses(left, a, s) || s in seen)
  }

  ghost predicate HasInst(seen: set<Spawn>, a: nat) {
    exists s :: s in seen && s.inst == a
  }

  /** Only lists of the algorithm and of instances that have been seen have changed. */
  ghost predicate Confined(orig: Users, alg: nat, left: Users, seen: set<Spawn>) {
    forall a | a in orig && a in left && left[a] != orig[a] :: a == alg || HasInst(seen, a)
  }

  ghost predicate AllReached(orig: Users, alg: nat, seen: set<Spawn>) {
    forall s | s in seen :: Reaches(orig, alg, s) && s.inst != alg
  }

  /** The spawns taken off the stack are done with. */
  ghost predicate Finished(left: Users, done: set<Spawn>) {
    forall s | s in done :: s.inst in left && left[s.inst] == []
  }

  /** The state between two steps of the traversal; `left[alg]` is the list `top`. */
  ghost predicate Traversal(orig: Users, alg: nat, left: Users, stack: set<Spawn>, done: set<Spawn>) {
    && Conserved(orig, left, stack + done)
    && Confined(orig, alg, left, stack + done)
    && AllReached(orig, alg, stack + done)
    && Finished(left, done)
  }

  /** The first spawn has been taken off the list of `a`. */
  function Taken(left: Users, a: nat): Users
    requires a in left && left[a] != []
  {
    left[a := left[a][1..]]
  }

  lemma TakeConserves(orig: Users, provider: map<Spawn, nat>, left: Users, seen: set<Spawn>, a: nat)
    requires Linked(orig, provider) && Conserved(orig, left, seen) && a in left && left[a] != []
    ensures Conserved(orig, Taken(left, a), seen + {left[a][0]})
  {
    var s, t := left[a][0], Taken(left, a);
    assert Uses(left, a, s);
    assert left[a] == [s] + left[a][1..];
    forall b, x | Uses(t, b, x) ensures Uses(left, b, x) && x != s {
      assert b == a ==> x in left[a];
      assert Uses(left, b, x);
      assert Uses(orig, b, x) && Uses(orig, a, s);
    }
    forall b, x | Uses(left, b, x) ensures Uses(t, b, x) || x == s {}
  }

  lemma TakeConfined(orig: Users, alg: nat, left: Users, seen: set<Spawn>, a: nat, s: Spawn)
    requires Confined(orig, alg, left, seen) && a in left && left[a] != []
    requires a == alg || HasInst(seen, a)
    ensures Confined(orig, alg, Taken(left, a), seen + {s})
  {}

  /** One turn of the inner loop: the first spawn of the current list goes to the stack. */
  lemma TakeKeeps(orig: Users, provider: map<Spawn, nat>, alg: nat, left: Users, stack: set<Spawn>, done: set<Spawn>, a: nat)
    requires Linked(orig, provider) && Traversal(orig, alg, left, stack, done)
    requires a in left && left[a] != [] && left[a][0].inst != alg
    requires a == alg || HasInst(stack, a)
    ensures Traversal(orig, alg, Taken(left, a), stack + {left[a][0]}, done)
  {
    var s, seen := left[a][0], stack + done;
    assert stack + {s} + done == seen + {s};
    HeadIsReached(orig, alg, left, stack, done, a);
    TakeConserves(orig, provider, left, seen, a);
    Weaken(stack, done, a);
    TakeConfined(orig, alg, left, seen, a, s);
  }

  lemma Weaken(stack: set<Spawn>, done: set<Spawn>, a: nat)
    ensures HasInst(stack, a) ==> HasInst(stack + done, a)
  {}

  lemma HeadIsReached(orig: Users, alg: nat, left: Users, stack: set<Spawn>, done: set<Spawn>, a: nat)
    requires Traversal(orig, alg, left, stack, done)
    requires a in left && left[a] != [] && (a == alg || HasInst(stack, a))
    ensures Reaches(orig, alg, left[a][0]) && left[a][0] !in stack + done
  {
    var s := left[a][0];
    assert Uses(left, a, s);
    if a == alg {
      FirstStep(orig, alg, s);
    } else {
      var t :| t in stack && t.inst == a;
      assert t in stack + done;
      NextStep(orig, alg, t, s);
    }
  }

  /** The spawn on top of the stack is done with, for its list is empty. */
  lemma PopKeeps(orig: Users, alg: nat, left: Users, stack: set<Spawn>, done: set<Spawn>, s: Spawn)
    requires Traversal(orig, alg, left, stack, done) && s in stack && s.inst in left && left[s.inst] == []
    ensures Traversal(orig, alg, left, stack - {s}, done + {s})
  {}

  /** The stack is empty and so is `top`: exactly the reached spawns have been visited. */
  lemma AllVisited(orig: Users, alg: nat, left: Users, done: set<Spawn>)
    requires Traversal(orig, alg, left, {}, done) && alg in left && left[alg] == []
    ensures forall s :: s in done <==> Reaches(orig, alg, s)
    ensures !Depends(orig, alg, alg)
  {
    assert {} + done == done;
    forall s, t | s in done && Uses(orig, s.inst, t) ensures t in done {
      assert left[s.inst] == [] && !Uses(left, s.inst, t);
    }
    forall s | Uses(orig, alg, s) ensures s in done {
      assert !Uses(left, alg, s);
    }
    ClosedIsAll(orig, alg, done);
  }

  /** The lists of the algorithm and of the instances that depend on it are empty, the others
      are as they were. */
  lemma ListsAfter(orig: Users, alg: nat, left: Users, done: set<Spawn>, a: nat)
    requires Traversal(orig, alg, left, {}, done) && alg in left && left[alg] == [] && a in orig
    ensures left[a] == if a == alg || Depends(orig, alg, a) then [] else orig[a]
  {
    AllVisited(orig, alg, left, done);
    assert {} + done == done;
    if a != alg && Depends(orig, alg, a) {
      var s :| Reaches(orig, alg, s) && s.inst == a;
      assert s in done;
    }
  }

  // ---------------------------------------------------------------- the registry

  function Elems(s: seq<Spawn>): set<Spawn> {
    set x | x in s
  }

  function InstsOf(s: seq<Spawn>): set<nat> {
    set x | x in s :: x.inst
  }

  function AllSpawns(users: Users): set<Spawn> {
    set a, s | a in users && s in users[a] :: s
  }

  lemma Push(s: Spawn, l: seq<Spawn>)
    ensures Elems([s] + l) == Elems(l) + {s}
  {}

  lemma Pop(l: seq<Spawn>)
    requires l != [] && NoDup(l)
    ensures Elems(l[1..]) == Elems(l) - {l[0]} && NoDup(l[1..])
  {}

  /** A pointer to one of the lists that the traversal reads. */
  datatype Head = Top | UsersOf(alg: nat)

  /** The state of the traversal in terms of the lists. */
  ghost predicate Walking(orig: Users, before: map<Spawn, nat>, alg: nat, users: Users, provider: map<Spawn, nat>,
                          top: seq<Spawn>, stack: seq<Spawn>, done: seq<Spawn>) {
    && alg in users && users[alg] == []
    && Traversal(orig, alg, users[alg := top], Elems(stack), Elems(done))
    && NoDup(stack)
    && provider == before - (Elems(stack) + Elems(done))
  }

  predicate PointsAt(spawns: Head, stack: seq<Spawn>) {
    spawns == if stack == [] then Top else UsersOf(stack[0].inst)
  }

  /** What is linked after a removal is linked as before. */
  lemma StaysLinked(orig: Users, before: map<Spawn, nat>, alg: nat, users: Users, provider: map<Spawn, nat>, done: seq<Spawn>)
    requires Linked(orig, before) && Walking(orig, before, alg, users, provider, [], [], done)
    ensures Linked(users, provider)
  {
    assert users[alg := []] == users;
    assert {} + Elems(done) == Elems(done);
    forall a, s | Uses(users, a, s) ensures s.inst in users && s in provider && provider[s] == a {
      assert Uses(orig, a, s);
    }
  }

  lemma Begins(orig: Users, before: map<Spawn, nat>, alg: nat, users: Users, top: seq<Spawn>)
    requires Linked(orig, before) && alg in orig && users == orig[alg := []]
    requires NoDup(top) && forall s :: s in top <==> s in orig[alg]
    ensures Walking(orig, before, alg, users, before, top, [], [])
  {}

  /** The spawns that have not been visited. */
  function Rest(orig: Users, stack: seq<Spawn>, done: seq<Spawn>): set<Spawn> {
    AllSpawns(orig) - Elems(stack) - Elems(done)
  }

  lemma NotSeen(orig: Users, before: map<Spawn, nat>, left: Users, stack: seq<Spawn>, done: seq<Spawn>, a: nat)
    requires Linked(orig, before) && Conserved(orig, left, Elems(stack) + Elems(done)) && a in left && left[a] != []
    ensures var s := left[a][0]; s.inst in left && s !in stack && Rest(orig, [s] + stack, done) < Rest(orig, stack, done)
  {
    var s := left[a][0];
    assert Uses(left, a, s);
    assert Uses(orig, a, s);
    assert s in Rest(orig, stack, done);
    Push(s, stack);
  }

  /** The head `s` of the current list has been moved to the stack. */
  lemma Moves(orig: Users, before: map<Spawn, nat>, alg: nat, users: Users, provider: map<Spawn, nat>,
              top: seq<Spawn>, stack: seq<Spawn>, done: seq<Spawn>, a: nat, s: Spawn, users': Users, top': seq<Spawn>)
    requires Linked(orig, before) && Walking(orig, before, alg, users, provider, top, stack, done)
    requires a == if stack == [] then alg else stack[0].inst
    requires var left := users[alg := top]; a in left && left[a] != [] && left[a][0] == s && s.inst != alg
    requires alg in users' && users'[alg] == [] && users'[alg := top'] == Taken(users[alg := top], a)
    ensures Walking(orig, before, alg, users', provider - {s}, top', [s] + stack, done)
    ensures s.inst in users' && Rest(orig, [s] + stack, done) < Rest(orig, stack, done)
  {
    var left := users[alg := top];
    Push(s, stack);
    if stack != [] { assert stack[0] in Elems(stack); }
    NotSeen(orig, before, left, stack, done, a);
    TakeKeeps(orig, before, alg, left, Elems(stack), Elems(done), a);
    assert users'[alg := top'].Keys == left.Keys;
  }

  /** The instance found is the algorithm itself. */
  lemma CycleFound(orig: Users, alg: nat, users: Users, top: seq<Spawn>, stack: seq<Spawn>, done: seq<Spawn>, a: nat)
    requires alg in users && Traversal(orig, alg, users[alg := top], Elems(stack), Elems(done))
    requires a == if stack == [] then alg else stack[0].inst
    requires var left := users[alg := top]; a in left && left[a] != [] && left[a][0].inst == alg
    ensures Depends(orig, alg, alg)
  {
    if stack != [] { assert stack[0] in Elems(stack); }
    HeadIsReached(orig, alg, users[alg := top], Elems(stack), Elems(done), a);
  }

  lemma InstKnown(orig: Users, before: map<Spawn, nat>, alg: nat, s: Spawn)
    requires Linked(orig, before) && Reaches(orig, alg, s)
    ensures s.inst in orig
  {}

  lemma TopKnown(orig: Users, before: map<Spawn, nat>, alg: nat, users: Users, top: seq<Spawn>, stack: seq<Spawn>, done: seq<Spawn>)
    requires Linked(orig, before) && alg in users && stack != []
    requires Traversal(orig, alg, users[alg := top], Elems(stack), Elems(done))
    ensures stack[0].inst in users && stack[0].inst != alg
  {}

  /** crypto_more_spawns takes the top of the stack to the list of finished spawns. */
  lemma Pops(orig: Users, before: map<Spawn, nat>, alg: nat, users: Users, provider: map<Spawn, nat>,
             top: seq<Spawn>, stack: seq<Spawn>, done: seq<Spawn>)
    requires Linked(orig, before) && Walking(orig, before, alg, users, provider, top, stack, done) && stack != []
    requires stack[0].inst in users && users[stack[0].inst] == []
    ensures Walking(orig, before, alg, users, provider, top, stack[1..], [stack[0]] + done)
    ensures Rest(orig, stack[1..], [stack[0]] + done) == Rest(orig, stack, done) && stack[0] !in provider
  {
    var s := stack[0];
    Pop(stack);
    Push(s, done);
    assert s in Elems(stack);
    TopKnown(orig, before, alg, users, top, stack, done);
    assert (Elems(stack) - {s}) + (Elems(done) + {s}) == Elems(stack) + Elems(done);
    PopKeeps(orig, alg, users[alg := top], Elems(stack), Elems(done), s);
  }

  /** What a finished traversal has done to the lists and the spawns. */
  ghost predicate Unlinked(orig: Users, before: map<Spawn, nat>, alg: nat, users: Users, provider: map<Spawn, nat>, done: seq<Spawn>) {
    && users.Keys == orig.Keys
    && (forall a | a in orig :: users[a] == if a == alg || Depends(orig, alg, a) then [] else orig[a])
    && (forall s :: s in done <==> Reaches(orig, alg, s))
    && provider == before - Elems(done)
  }

  lemma TraversalEnds(orig: Users, before: map<Spawn, nat>, alg: nat, users: Users, provider: map<Spawn, nat>, done: seq<Spawn>)
    requires Linked(orig, before) && Walking(orig, before, alg, users, provider, [], [], done)
    ensures Unlinked(orig, before, alg, users, provider, done) && !Depends(orig, alg, alg) && Linked(users, provider)
  {
    assert Elems([]) == {} && {} + Elems(done) == Elems(done);
    assert users[alg := []] == users;
    AllVisited(orig, alg, users, Elems(done));
    forall a | a in orig ensures users[a] == if a == alg || Depends(orig, alg, a) then [] else orig[a] {
      ListsAfter(orig, alg, users, Elems(done), a);
    }
    StaysLinked(orig, before, alg, users, provider, done);
  }

  /** The instances to be destroyed: reached through `done`, alive and registered before, and
      with a template that can be pinned; each once, in front of what was on the list. */
  ghost predicate Condemned(done: seq<Spawn>, dead: set<nat>, hashed: set<nat>, available: set<nat>, list: seq<nat>) {
    && NoDup(list)
    && forall a :: a in list <==> a in InstsOf(done) && a !in dead && a in hashed && a in available
  }

  lemma OneMoreInst(done: seq<Spawn>, i: nat)
    requires i < |done|
    ensures InstsOf(done[..i+1]) == InstsOf(done[..i]) + {done[i].inst}
  {}

  lemma InstsReached(orig: Users, alg: nat, done: seq<Spawn>)
    requires forall s :: s in done <==> Reaches(orig, alg, s)
    ensures forall a :: a in InstsOf(done) <==> Depends(orig, alg, a)
  {}

  class Registry {
    var users: Users
    /** The `alg` field of the spawns; a spawn that is not in the map has none. */
    var provider: map<Spawn, nat>
    /** The algorithms marked dead, the instances on the list of their template, and the
        algorithms on the list of all algorithms. */
    var dead: set<nat>
    var hashed: set<nat>
    var listed: set<nat>
    /** The remaining type flags. */
    const flags: nat -> bv32
    /** The instances that have a template whose module can be pinned. */
    const available: set<nat>

    ghost predicate Valid()
      reads this
    {
      Linked(users, provider)
    }

    /** The algorithms `algs`, none of them built on another yet. */
    constructor (algs: set<nat>, listed: set<nat>, hashed: set<nat>, flags: nat -> bv32, available: set<nat>)
      ensures Valid() && users.Keys == algs && DeadUnused(users, dead) && dead == {} && provider == map[]
      ensures this.listed == listed && this.hashed == hashed && this.available == available && this.flags == flags
    {
      users, provider, dead := map a | a in algs :: [], map[], {};
      this.listed, this.hashed, this.flags, this.available := listed, hashed, flags, available;
    }

    /** The first loop of crypto_remove_spawns: without a replacement no user is passed over. */
    method CollectTop(alg: nat) returns (top: seq<Spawn>)
      requires Valid() && alg in users
      modifies this`users
      ensures users == old(users)[alg := []]
      ensures NoDup(top) && forall s :: s in top <==> s in old(users)[alg]
    {
      var l, kept, i := users[alg], [], 0;
      top := [];
      while i < |l|
        invariant 0 <= i <= |l| && kept == []
        invariant NoDup(top) && forall s :: s in top <==> s in l[..i]
      {
        var s := l[i];
        assert NoDup(l) && Uses(users, alg, s) && s !in l[..i];
        if (flags(provider[s]) ^ flags(alg)) & s.mask != 0 {
          kept := kept + [s];
        } else {
          top := [s] + top;
        }
        i := i + 1;
      }
      assert l[..|l|] == l;
      users := users[alg := kept];
    }

    /** list_move of the first spawn off the list that `spawns` points at. */
    method TakeHead(alg: nat, spawns: Head, top0: seq<Spawn>) returns (s: Spawn, top: seq<Spawn>)
      requires alg in users && users[alg] == []
      requires if spawns == Top then top0 != [] else spawns.alg != alg && spawns.alg in users && users[spawns.alg] != []
      modifies this`users
      ensures var left, a := old(users)[alg := top0], if spawns == Top then alg else spawns.alg;
              && a in left && left[a] != [] && s == left[a][0]
              && users[alg := top] == Taken(left, a) && alg in users && users[alg] == []
    {
      top := top0;
      if spawns == Top {
        s := top[0];
        top := top[1..];
        assert users[alg := top] == users[alg := top0][alg := top];
      } else {
        s := users[spawns.alg][0];
        users := users[spawns.alg := users[spawns.alg][1..]];
        assert users[alg := top] == Taken(old(users)[alg := top0], spawns.alg);
      }
    }

    /** The inner loop: down to an instance without users. */
    method Descend(alg: nat, spawns0: Head, top0: seq<Spawn>, stack0: seq<Spawn>, ghost done: seq<Spawn>,
                   ghost orig: Users, ghost before: map<Spawn, nat>)
      returns (top: seq<Spawn>, stack: seq<Spawn>, bug: bool)
      requires Linked(orig, before) && Walking(orig, before, alg, users, provider, top0, stack0, done)
      requires PointsAt(spawns0, stack0)
      modifies this`users, this`provider
      ensures bug ==> Depends(orig, alg, alg)
      ensures !bug ==> Walking(orig, before, alg, users, provider, top, stack, done)
      ensures !bug ==> if stack == [] then top == [] else stack[0].inst in users && users[stack[0].inst] == []
      ensures !bug ==> stack == stack0 || Rest(orig, stack, done) < Rest(orig, stack0, done)
    {
      var spawns := spawns0;
      top, stack, bug := top0, stack0, false;
      if stack != [] { TopKnown(orig, before, alg, users, top, stack, done); }
      while (if spawns == Top then top else users[spawns.alg]) != []
        invariant spawns != Top ==> spawns.alg in users && spawns.alg != alg
        invariant Walking(orig, before, alg, users, provider, top, stack, done) && PointsAt(spawns, stack)
        invariant stack == stack0 || Rest(orig, stack, done) < Rest(orig, stack0, done)
        decreases Rest(orig, stack, done)
      {
        ghost var a := if spawns == Top then alg else spawns.alg;
        ghost var u, t := users, top;
        var s;
        s, top := TakeHead(alg, spawns, top);
        if s.inst == alg {
          CycleFound(orig, alg, u, t, stack, done, a);
          bug := true;
          return;
        }
        Moves(orig, before, alg, u, provider, t, stack, done, a, s, users, top);
        stack := [s] + stack;
        provider := provider - {s};
        spawns := UsersOf(s.inst);
      }
    }

    /** The traversal; `bug` is the assertion that the algorithm is not built on itself. */
    method Traverse(alg: nat, top0: seq<Spawn>, ghost orig: Users, ghost before: map<Spawn, nat>)
      returns (secondary: seq<Spawn>, bug: bool)
      requires Linked(orig, before) && Walking(orig, before, alg, users, provider, top0, [], [])
      modifies this`users, this`provider
      ensures bug <==> Depends(orig, alg, alg)
      ensures !bug ==> Unlinked(orig, before, alg, users, provider, secondary) && Linked(users, provider)
    {
      var top, stack: seq<Spawn>, spawns, more := top0, [], Top, true;
      secondary, bug := [], false;
      while more
        invariant Walking(orig, before, alg, users, provider, top, stack, secondary) && PointsAt(spawns, stack)
        invariant !more ==> top == [] && stack == []
        decreases more, Rest(orig, stack, secondary), |stack|
      {
        top, stack, bug := Descend(alg, spawns, top, stack, secondary, orig, before);
        if bug {
          return;
        }
        if stack == [] {
          more := false;
          spawns := Top;
        } else {
          Pops(orig, before, alg, users, provider, top, stack, secondary);
          secondary := [stack[0]] + secondary;
          stack := stack[1..];
          spawns := if stack == [] then Top else UsersOf(stack[0].inst);
        }
      }
      TraversalEnds(orig, before, alg, users, provider, secondary);
    }

    /** crypto_remove_spawn; `bug` is the assertion that a removed instance has no users. */
    method RemoveSpawn(s: Spawn, list: seq<nat>) returns (out: seq<nat>, bug: bool)
      requires s.inst in users
      modifies this`dead, this`hashed
      ensures dead == old(dead) + {s.inst}
      ensures var goes := s.inst !in old(dead) && s.inst in old(hashed) && s.inst in available;
              && out == (if goes then [s.inst] + list else list)
              && hashed == (if goes then old(hashed) - {s.inst} else old(hashed))
              && bug == (goes && users[s.inst] != [])
    {
      out, bug := list, false;
      if s.inst in dead {
        return;
      }
      dead := dead + {s.inst};
      if s.inst !in hashed {
        return;
      }
      if s.inst !in available {
        return;
      }
      out := [s.inst] + out;
      hashed := hashed - {s.inst};
      bug := users[s.inst] != [];
    }

    /** The last loop of crypto_remove_spawns. */
    method RemoveEach(secondary: seq<Spawn>) returns (out: seq<nat>, bug: bool)
      requires forall s | s in secondary :: s.inst in users && users[s.inst] == []
      modifies this`dead, this`hashed
      ensures !bug && dead == old(dead) + InstsOf(secondary)
      ensures Condemned(secondary, old(dead), old(hashed), available, out)
      ensures hashed == old(hashed) - set a | a in out
    {
      out, bug := [], false;
      var i := 0;
      assert secondary[..0] == [];
      while i < |secondary|
        invariant 0 <= i <= |secondary| && !bug
        invariant dead == old(dead) + InstsOf(secondary[..i])
        invariant Condemned(secondary[..i], old(dead), old(hashed), available, out)
        invariant hashed == old(hashed) - set a | a in out
      {
        OneMoreInst(secondary, i);
        out, bug := RemoveSpawn(secondary[i], out);
        i := i + 1;
      }
      assert secondary[..|secondary|] == secondary;
    }

    /** crypto_remove_spawns without a replacement. */
    method RemoveSpawns(alg: nat) returns (list: seq<nat>, bug: bool)
      requires Valid() && alg in users
      modifies this`users, this`provider, this`dead, this`hashed
      ensures bug <==> Depends(old(users), alg, alg)
      ensures !bug ==> Valid() && users.Keys == old(users).Keys
      ensures !bug ==> forall a :: a in dead <==> a in old(dead) || Depends(old(users), alg, a)
      ensures !bug ==> forall a | a in users :: users[a] == if a == alg || Depends(old(users), alg, a) then [] else old(users)[a]
      ensures !bug ==> forall s :: s in provider <==> s in old(provider) && !Reaches(old(users), alg, s)
      ensures !bug ==> forall s | s in provider :: s in old(provider) && provider[s] == old(provider)[s]
      ensures !bug ==> NoDup(list) && hashed == old(hashed) - set a | a in list
      ensures !bug ==> forall a :: a in list <==>
        Depends(old(users), alg, a) && a !in old(dead) && a in old(hashed) && a in available
    {
      ghost var orig, before := users, provider;
      var top := CollectTop(alg);
      Begins(orig, before, alg, users, top);
      var secondary;
      secondary, bug := Traverse(alg, top, orig, before);
      list := [];
      if bug {
        return;
      }
      InstsReached(orig, alg, secondary);
      forall s | s in secondary ensures s.inst in users && users[s.inst] == [] {
        InstKnown(orig, before, alg, s);
        assert s.inst in InstsOf(secondary);
      }
      list, bug := RemoveEach(secondary);
    }

    /** crypto_remove_alg; false stands for -ENOENT. */
    method RemoveAlg(alg: nat) returns (ok: bool, list: seq<nat>, bug: bool)
      requires Valid() && alg in users
      modifies this
      ensures ok <==> alg in old(listed)
      ensures !ok ==> unchanged(this)
      ensures ok ==> listed == old(listed) - {alg} && (bug <==> Depends(old(users), alg, alg))
      ensures ok && !bug ==> Valid() && forall a :: a in dead <==> a in old(dead) || a == alg || Depends(old(users), alg, a)
      ensures !bug && DeadUnused(old(users), old(dead)) ==> DeadUnused(users, dead)
    {
      if alg !in listed {
        return false, [], false;
      }
      ok := true;
      dead := dead + {alg};
      listed := listed - {alg};
      list, bug := RemoveSpawns(alg);
    }

    /** crypto_init_spawn of a spawn that is on no list; false stands for -EAGAIN.  `dying` are
        the algorithms that are being removed but not yet marked dead. */
    method InitSpawn(s: Spawn, alg: nat, dying: set<nat>) returns (ok: bool)
      requires Valid() && alg in users && s.inst in users && s !in provider
      modifies this`users, this`provider
      ensures Valid() && (ok <==> alg !in dead && alg !in dying)
      ensures users == if ok then old(users)[alg := [s] + old(users)[alg]] else old(users)
      ensures provider == if ok then old(provider)[s := alg] else old(provider)
      ensures DeadUnused(old(users), dead) ==> DeadUnused(users, dead)
    {
      ok := alg !in dead && alg !in dying;
      if ok {
        assert forall a | a in users :: !Uses(users, a, s);
        users := users[alg := [s] + users[alg]];
        provider := provider[s := alg];
        forall a, t | Uses(users, a, t) ensures t.inst in users && t in provider && provider[t] == a {
          assert t != s ==> Uses(old(users), a, t);
        }
      }
    }
  }
}
