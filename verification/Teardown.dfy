/**
 Pool teardown.  A pool that is gone has left nothing behind: no instance with its label, not
 even a terminating one, and no inventory host owned by one.  Once a deletion pass is the only
 kind of pass the pool can have, a measure over deletion marks, finalizers and objects bounds
 the work, and undisturbed passes finish it.
 */
module Teardown {
  import opened Wrappers
  import opened Fleet
  import opened FleetInvariant
  import opened Lease
  import opened SoloPass
  import opened Sums
  import opened Allocation

  /** The owner of h is an instance of pool p. */
  ghost predicate ClaimedForPool(s: State, h: HostID, p: PoolID) {
    h in s.owner && s.owner[h] in s.objs && s.objs[s.owner[h]].pool == Some(p)
  }

  /** Neither an instance nor a claim of pool p is left. */
  ghost predicate NothingLeft(s: State, p: PoolID) {
    Labelled(s, p) == {} && forall h :: h in s.owner ==> s.owner[h] in s.objs && !ClaimedForPool(s, h, p)
  }

  lemma GoneLeavesNothing(s: State, p: PoolID)
    requires Inv(s) && p !in s.pools
    ensures NothingLeft(s, p)
  {
  }

  /** In every reachable state a pool that does not exist has neither instances nor claimed hosts. */
  lemma GonePoolLeavesNothing(states: seq<State>, actions: seq<Action>, k: nat, p: PoolID)
    requires IsRun(states, actions) && k < |states| && p !in states[k].pools
    ensures NothingLeft(states[k], p)
  {
    RunsKeepInv(states, actions, k);
    GoneLeavesNothing(states[k], p);
  }

  /** The write that removes a pool's finalizer removes the pool, and nothing was left before it. */
  lemma DropFinalizerLeavesNothing(states: seq<State>, actions: seq<Action>, k: nat, p: PoolID, o: Outcome)
    requires IsRun(states, actions) && k < |actions|
    requires actions[k] == PoolRun(p, PoolDropFinalizer(o)) && o != Failed
    ensures p !in states[k + 1].pools && NothingLeft(states[k], p) && NothingLeft(states[k + 1], p)
  {
    var s, s' := states[k], states[k + 1];
    assert Steps(s, actions[k], s');
    RunsKeepInv(states, actions, k);
    assert PoolPassOk(s, p, s.poolPasses[p]);
    assert p !in s'.pools;
    GonePoolLeavesNothing(states, actions, k + 1, p);
    assert s'.objs == s.objs && s'.owner == s.owner;
    assert Labelled(s, p) == Labelled(s', p);
  }

  // ---------------------------------------------------------------- the measure

  /** The pool is being deleted (or gone) and no update pass of it is in flight. */
  ghost predicate Closing(s: State, p: PoolID) {
    p in s.usedPools && (p in s.pools ==> s.pools[p].deleting) && (p in s.poolPasses ==> s.poolPasses[p].copy.deleting)
  }

  function ObjectWork(x: Option<Instance>): nat {
    if x == None then 0
    else if !x.value.deleting then 4
    else 1 + (if x.value.inventoryFinalizer then 1 else 0) + (if x.value.managementFinalizer then 1 else 0)
  }

  function Works(s: State, ids: set<InstanceID>): map<InstanceID, nat> {
    map i | i in ids :: ObjectWork(Lookup(s.objs, i))
  }

  /** Deletion marks to set, finalizers to drop and objects to remove among the given instances. */
  ghost function Work(s: State, ids: set<InstanceID>): nat {
    Sum(Works(s, ids))
  }

  /** A deletion mark is set, or a finalizer removed (confirmed or not). */
  predicate TeardownWrite(a: Action) {
    match a
    case DeleteInstance(_) => true
    case PoolRun(_, pe) => pe.PoolDeleteInstance?
    case Run(_, e) =>
      (e.DropManagementFinalizer? && e.o != Failed) || (e.DropInventoryFinalizer? && e.o != Failed)
    case _ => false
  }

  function Target(a: Action): InstanceID
    requires TeardownWrite(a)
  {
    if a.PoolRun? then a.pe.i else a.i
  }

  ghost predicate WorkEffect(l: Local, l': Local, a: Action) {
    ObjectWork(l'.obj) <= ObjectWork(l.obj) && (TeardownWrite(a) ==> ObjectWork(l'.obj) < ObjectWork(l.obj))
  }

  /** No step of an instance's pass adds work; dropping a finalizer removes some. */
  lemma LocalWork(i: InstanceID, l: Local, e: Event)
    requires LocalOk(i, l) && Ready(l, e)
    ensures WorkEffect(l, LocalNext(i, l, e), Run(i, e))
  {
    if DeletionEvent(e) {
      LocalWorkDeletion(i, l, e);
    } else {
      LocalWorkOther(i, l, e);
    }
  }

  lemma LocalWorkDeletion(i: InstanceID, l: Local, e: Event)
    requires LocalOk(i, l) && Ready(l, e) && DeletionEvent(e)
    ensures WorkEffect(l, LocalNext(i, l, e), Run(i, e))
  {
  }

  lemma LocalWorkOther(i: InstanceID, l: Local, e: Event)
    requires LocalOk(i, l) && Ready(l, e) && !DeletionEvent(e)
    ensures WorkEffect(l, LocalNext(i, l, e), Run(i, e))
  {
  }

  ghost predicate ObjectWorks(s: State, s': State, a: Action, ids: set<InstanceID>) {
    (forall j :: j in ids ==> ObjectWork(Lookup(s'.objs, j)) <= ObjectWork(Lookup(s.objs, j)))
    && (TeardownWrite(a) && Target(a) in ids ==>
        ObjectWork(Lookup(s'.objs, Target(a))) < ObjectWork(Lookup(s.objs, Target(a))))
  }

  lemma RunWorks(s: State, i: InstanceID, e: Event, ids: set<InstanceID>)
    requires Inv(s) && Enabled(s, Run(i, e))
    ensures ObjectWorks(s, Next(s, Run(i, e)), Run(i, e), ids)
  {
    hide Inv, Ready, LocalNext, LocalOk, WorkEffect, ObjectWorks;
    InFlight(s, i, e);
    LocalHolds(s, i);
    LocalWork(i, View(s, i), e);
    WorksBack(s, i, LocalNext(i, View(s, i), e), Run(i, e), ids);
  }

  lemma WorksBack(s: State, i: InstanceID, l': Local, a: Action, ids: set<InstanceID>)
    requires i in s.passes && a.Run? && a.i == i && WorkEffect(View(s, i), l', a)
    ensures ObjectWorks(s, WriteBack(s, i, l'), a, ids)
  {
    hide ObjectWork;
    assert forall j :: j != i ==> Lookup(WriteBack(s, i, l').objs, j) == Lookup(s.objs, j);
  }

  lemma PoolWorks(s: State, p: PoolID, pe: PoolEvent, ids: set<InstanceID>)
    requires PoolReady(s, p, pe) && ids <= s.used && s.objs.Keys <= s.used
    ensures ObjectWorks(s, PoolNext(s, p, pe), PoolRun(p, pe), ids)
  {
  }

  /** Any step at all, faults included, adds no work for identifiers already handed out. */
  lemma StepWorks(s: State, a: Action, ids: set<InstanceID>)
    requires Inv(s) && Enabled(s, a) && ids <= s.used
    ensures ObjectWorks(s, Next(s, a), a, ids) && ids <= Next(s, a).used
  {
    hide Ready, LocalNext, Locals, LockDiscipline, NoLeak, PoolNext, PoolReady, PoolsCover, PoolPasses;
    StepInvUsed(s, a);
    if a.Run? {
      RunWorks(s, a.i, a.e, ids);
    } else if a.PoolRun? {
      PoolWorks(s, a.p, a.pe, ids);
    }
  }

  /** Identifiers stay used. */
  lemma StepInvUsed(s: State, a: Action)
    requires Enabled(s, a)
    ensures s.used <= Next(s, a).used
  {
    hide Ready, LocalNext;
    if !a.Run? && !a.PoolRun? {
      hide PoolReady, PoolNext, View, WriteBack;
    }
  }

  lemma StepWork(s: State, a: Action, ids: set<InstanceID>)
    requires Inv(s) && Enabled(s, a) && ids <= s.used
    ensures Work(Next(s, a), ids) + (if TeardownWrite(a) && Target(a) in ids then 1 else 0) <= Work(s, ids)
  {
    hide Inv, Enabled, Next, ObjectWork;
    StepWorks(s, a, ids);
    SumMonotone(Works(s, ids), Works(Next(s, a), ids));
    if TeardownWrite(a) && Target(a) in ids {
      SumSmaller(Works(s, ids), Works(Next(s, a), ids), Target(a));
    }
  }

  function CountTeardown(acts: seq<Action>, ids: set<InstanceID>): nat {
    if acts == [] then 0
    else (if TeardownWrite(acts[0]) && Target(acts[0]) in ids then 1 else 0) + CountTeardown(acts[1..], ids)
  }

  /** No step of a closing pool's fragment adds an instance to it. */
  lemma StepClosing(s: State, a: Action, p: PoolID)
    requires Inv(s) && Enabled(s, a) && Closing(s, p)
    ensures Closing(Next(s, a), p) && Labelled(Next(s, a), p) <= Labelled(s, p)
  {
    if p in s.poolPasses {
      assert PoolPassOk(s, p, s.poolPasses[p]);
    }
    if a.Run? {
      RunClosing(s, a.i, a.e, p);
    } else if a.PoolRun? {
      PoolRunClosing(s, a.p, a.pe, p);
    }
    hide Ready, LocalNext, LocalOk, Inv, PoolNext, PoolReady;
  }

  lemma RunClosing(s: State, i: InstanceID, e: Event, p: PoolID)
    requires Inv(s) && Enabled(s, Run(i, e)) && Closing(s, p)
    ensures Closing(Next(s, Run(i, e)), p) && Labelled(Next(s, Run(i, e)), p) <= Labelled(s, p)
  {
    hide Ready, LocalNext, LocalOk, Inv;
    InFlight(s, i, e);
    LocalHolds(s, i);
    Backed(s, i);
    LocalStep(i, View(s, i), e);
  }

  lemma PoolRunClosing(s: State, q: PoolID, pe: PoolEvent, p: PoolID)
    requires PoolPasses(s) && PoolReady(s, q, pe) && Closing(s, p)
    ensures Closing(PoolNext(s, q, pe), p) && Labelled(PoolNext(s, q, pe), p) <= Labelled(s, p)
  {
  }

  /**
   From a closing state on, whatever else happens and whichever writes fail, the pool never gains
   an instance, and at most Work(s) deletion marks and finalizer removals remain to be made.
   */
  lemma {:induction false} TeardownBounded(s: State, acts: seq<Action>, s': State, p: PoolID, ids: set<InstanceID>)
    requires Inv(s) && Closing(s, p) && Performs(s, acts, s') && ids <= s.used
    ensures Closing(s', p) && Labelled(s', p) <= Labelled(s, p)
    ensures CountTeardown(acts, ids) + Work(s', ids) <= Work(s, ids)
    decreases |acts|
  {
    hide Inv, Enabled, Next, Work, Closing, TeardownWrite, Labelled;
    if acts != [] {
      StepClosing(s, acts[0], p);
      StepWork(s, acts[0], ids);
      StepWorks(s, acts[0], ids);
      StepInv(s, acts[0]);
      TeardownBounded(Next(s, acts[0]), acts[1..], s', p, ids);
    }
  }

  // ---------------------------------------------------------------- completion

  /** No call fails and every deprovisioning reports done; a pool pass may wait and return. */
  predicate ErrorFree(a: Action) {
    Smooth(a) || a.PoolBegin?
    || (a.PoolRun? && (a.pe.PoolList? || a.pe.PoolDeleteInstance? || a.pe.PoolQuit? || a.pe == PoolDropFinalizer(Confirmed)))
  }

  predicate AllErrorFree(acts: seq<Action>) {
    forall a :: a in acts ==> ErrorFree(a)
  }

  lemma OneStep(s: State, a: Action)
    requires Enabled(s, a)
    ensures Performs(s, [a], Next(s, a))
  {
  }

  /** Labelled instances without a deletion mark. */
  function Unmarked(s: State, p: PoolID): set<InstanceID> {
    set i | i in s.objs && s.objs[i].pool == Some(p) && !s.objs[i].deleting
  }

  /** The loop of the pool's handleDeletion: every listed instance is marked. */
  lemma {:induction false} MarkAll(s: State, p: PoolID) returns (acts: seq<Action>, s': State)
    requires Inv(s) && p in s.poolPasses && s.poolPasses[p].at.Tearing?
    ensures Performs(s, acts, s') && AllErrorFree(acts)
    ensures s' == s.(objs := s'.objs) && Unmarked(s', p) == {}
    decreases |Unmarked(s, p)|
  {
    if Unmarked(s, p) == {} {
      PerformsNothing(s);
      acts, s' := [], s;
    } else {
      var i :| i in Unmarked(s, p);
      assert PoolPassOk(s, p, s.poolPasses[p]) && i in Labelled(s, p);
      var a := PoolRun(p, PoolDeleteInstance(i));
      assert Enabled(s, a);
      var s1 := Next(s, a);
      OneStep(s, a);
      StepInv(s, a);
      hide Inv, Enabled, Next, Performs;
      assert Unmarked(s1, p) <= Unmarked(s, p) - {i};
      SubsetSize(Unmarked(s1, p), Unmarked(s, p) - {i});
      var rest;
      rest, s' := MarkAll(s1, p);
      PerformsConcat(s, [a], s1, rest, s');
      acts := [a] + rest;
    }
  }

  /** Each marked instance goes with one undisturbed pass of its own. */
  lemma {:induction false} ReleaseAll(s: State, p: PoolID) returns (acts: seq<Action>, s': State)
    requires Inv(s) && s.passes == map[] && Unmarked(s, p) == {}
    ensures Performs(s, acts, s') && AllErrorFree(acts)
    ensures s'.passes == map[] && s'.pools == s.pools && s'.poolPasses == s.poolPasses && Labelled(s', p) == {}
    decreases |Labelled(s, p)|
  {
    if Labelled(s, p) == {} {
      PerformsNothing(s);
      acts, s' := [], s;
    } else {
      var i :| i in Labelled(s, p);
      assert i !in Unmarked(s, p);
      NothingLocked(s);
      var first, s1 := ReleasePass(s, i);
      PerformsInv(s, first, s1);
      hide Inv, Performs;
      assert Unmarked(s1, p) <= Unmarked(s, p);
      assert Labelled(s1, p) == Labelled(s, p) - {i};
      var rest;
      rest, s' := ReleaseAll(s1, p);
      PerformsConcat(s, first, s1, rest, s');
      acts := first + rest;
    }
  }

  lemma BeginAndList(s: State, p: PoolID) returns (acts: seq<Action>, s': State)
    requires p in s.pools && p !in s.poolPasses && s.pools[p].deleting
    ensures Performs(s, acts, s') && AllErrorFree(acts)
    ensures s' == s.(poolPasses := s.poolPasses[p := PoolPass(s.pools[p], Tearing(Labelled(s, p)))])
  {
    var a, b := PoolBegin(p), PoolRun(p, PoolList);
    var s1 := Next(s, a);
    s' := Next(s1, b);
    assert Labelled(s1, p) == Labelled(s, p);
    OneStep(s, a);
    OneStep(s1, b);
    PerformsConcat(s, [a], s1, [b], s');
    acts := [a] + [b];
  }

  lemma QuitPool(s: State, p: PoolID) returns (a: Action, s': State)
    requires p in s.poolPasses
    ensures Performs(s, [a], s') && ErrorFree(a) && s' == s.(poolPasses := s.poolPasses - {p})
  {
    a := PoolRun(p, PoolQuit);
    s' := Next(s, a);
    OneStep(s, a);
  }

  lemma DropPoolFinalizer(s: State, p: PoolID) returns (a: Action, s': State)
    requires p in s.poolPasses && p in s.pools
    requires s.poolPasses[p] == PoolPass(s.pools[p], Tearing({})) && s.pools[p].deleting && s.pools[p].finalizer
    ensures Performs(s, [a], s') && ErrorFree(a) && p !in s'.pools
  {
    a := PoolRun(p, PoolDropFinalizer(Confirmed));
    s' := Next(s, a);
    OneStep(s, a);
  }

  /**
   Undisturbed error-free passes take a pool that is being deleted, with any instances in any
   stage between passes, to a state in which the pool, its instances and their claims are gone.
   */
  lemma TeardownCompletes(s: State, p: PoolID) returns (acts: seq<Action>, s': State)
    requires Inv(s) && s.passes == map[] && s.poolPasses == map[] && p in s.pools && s.pools[p].deleting
    ensures Performs(s, acts, s') && AllErrorFree(acts)
    ensures p !in s'.pools && NothingLeft(s', p)
  {
    assert s.pools[p].finalizer;
    hide Inv, Performs, NothingLeft, ErrorFree;
    var a1, s1 := ClosePool(s, p);
    PerformsInv(s, a1, s1);
    var a2, s2 := ReleaseAll(s1, p);
    PerformsInv(s1, a2, s2);
    var a3;
    a3, s' := RemovePool(s2, p);
    PerformsInv(s2, a3, s');
    PerformsConcat(s, a1, s1, a2, s2);
    PerformsConcat(s, a1 + a2, s2, a3, s');
    acts := a1 + a2 + a3;
    GoneLeavesNothing(s', p);
  }

  /** The first deletion pass of the pool: list, mark every instance, wait. */
  lemma ClosePool(s: State, p: PoolID) returns (acts: seq<Action>, s': State)
    requires Inv(s) && s.poolPasses == map[] && p in s.pools && s.pools[p].deleting
    ensures Performs(s, acts, s') && AllErrorFree(acts)
    ensures s' == s.(objs := s'.objs) && Unmarked(s', p) == {}
  {
    hide Inv, Performs, ErrorFree;
    var a1, s1 := BeginAndList(s, p);
    PerformsInv(s, a1, s1);
    var a2, s2 := MarkAll(s1, p);
    var a3;
    a3, s' := QuitPool(s2, p);
    PerformsConcat(s, a1, s1, a2, s2);
    PerformsConcat(s, a1 + a2, s2, [a3], s');
    assert Unmarked(s', p) == Unmarked(s2, p);
    acts := a1 + a2 + [a3];
  }

  /** The last one: the list is empty, so the finalizer goes. */
  lemma RemovePool(s: State, p: PoolID) returns (acts: seq<Action>, s': State)
    requires s.poolPasses == map[] && p in s.pools && s.pools[p].deleting && s.pools[p].finalizer && Labelled(s, p) == {}
    ensures Performs(s, acts, s') && AllErrorFree(acts) && p !in s'.pools
  {
    hide Performs, ErrorFree;
    var a1, s1 := BeginAndList(s, p);
    var a2;
    a2, s' := DropPoolFinalizer(s1, p);
    PerformsConcat(s, a1, s1, [a2], s');
    acts := a1 + [a2];
  }

  /** A system with one pool, its pass and its instances. */
  function OnePool(p: PoolID, x: Pool, pass: Option<PoolPass>, objs: map<InstanceID, Instance>): State {
    State(objs, objs.Keys, map[], {}, map[], {}, {}, map[p := x], {p}, if pass.Some? then map[p := pass.value] else map[])
  }

  /** Created, and about to scale. */
  lemma PoolComesUp(p: PoolID) returns (s: State, acts: seq<Action>)
    ensures Init(s) && Performs(s, acts, OnePool(p, Pool(1, false, true), Some(PoolPass(Pool(1, false, true), Scaling)), map[]))
  {
    hide Ready, LocalNext, View, WriteBack, Performs;
    s := State(map[], {}, map[], {}, map[], {}, {}, map[], {}, map[]);
    var s1 := OnePool(p, Pool(0, false, false), None, map[]);
    var s2 := OnePool(p, Pool(0, false, false), Some(PoolPass(Pool(0, false, false), PoolStarted)), map[]);
    var s3 := OnePool(p, Pool(1, false, true), Some(PoolPass(Pool(1, false, true), Scaling)), map[]);
    var a1, a2, a3 := CreatePool(p), PoolBegin(p), PoolRun(p, PoolAddFinalizer(Confirmed));
    assert Enabled(s, a1) && Next(s, a1) == s1;
    hide PoolReady, PoolNext;
    assert Enabled(s1, a2) && Next(s1, a2) == s2;
    hide Enabled, Next;
    FinalizerComes(p, s2, s3);
    ThreeSteps(s, a1, s1, a2, s2, a3, s3);
    acts := [a1, a2, a3];
  }

  lemma FinalizerComes(p: PoolID, s: State, s': State)
    requires s == OnePool(p, Pool(0, false, false), Some(PoolPass(Pool(0, false, false), PoolStarted)), map[])
    requires s' == OnePool(p, Pool(1, false, true), Some(PoolPass(Pool(1, false, true), Scaling)), map[])
    ensures Steps(s, PoolRun(p, PoolAddFinalizer(Confirmed)), s')
  {
    hide Ready, LocalNext, View, WriteBack;
  }

  lemma ThreeSteps(s: State, a1: Action, s1: State, a2: Action, s2: State, a3: Action, s3: State)
    requires Steps(s, a1, s1) && Steps(s1, a2, s2) && Steps(s2, a3, s3)
    ensures Performs(s, [a1, a2, a3], s3)
  {
    hide Enabled, Next;
    assert Performs(s3, [], s3);
    assert [a3][1..] == [] && [a2, a3][1..] == [a3] && [a1, a2, a3][1..] == [a2, a3];
    assert Performs(s2, [a3], s3);
    assert Performs(s1, [a2, a3], s3);
  }

  /** There is something to tear down: a run on which a pool creates an instance and is then deleted. */
  lemma SomethingToTearDown(p: PoolID, i: InstanceID) returns (s: State, acts: seq<Action>, s': State)
    ensures Init(s) && Performs(s, acts, s') && s'.passes == map[] && s'.poolPasses == map[]
    ensures p in s'.pools && s'.pools[p].deleting && Labelled(s', p) == {i}
  {
    hide Ready, LocalNext, View, WriteBack, Performs;
    var x := Instance(0, false, false, false, None, false, false, Some(p), {});
    var up := Pool(1, false, true);
    var s3 := OnePool(p, up, Some(PoolPass(up, Scaling)), map[]);
    var s4 := OnePool(p, up, Some(PoolPass(up, Scaling)), map[i := x]);
    var s5 := OnePool(p, up, None, map[i := x]);
    s' := OnePool(p, Pool(2, true, true), None, map[i := x]);
    var a4, a5, a6 := PoolRun(p, PoolCreateInstance(i, x)), PoolRun(p, PoolQuit), DeletePool(p);
    assert Enabled(s3, a4) && Next(s3, a4) == s4;
    assert Enabled(s4, a5) && Next(s4, a5) == s5;
    assert Enabled(s5, a6) && Next(s5, a6) == s';
    ThreeSteps(s3, a4, s4, a5, s5, a6, s');
    hide Enabled, Next, Performs;
    s, acts := PoolComesUp(p);
    PerformsConcat(s, acts, s3, [a4, a5, a6], s');
    acts := acts + [a4, a5, a6];
  }
}
