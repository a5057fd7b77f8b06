/**
 The operator as a step system.

 The state holds what the API server, the host inventory and the in-memory lock table
 store, plus one program counter for every reconcile pass in flight.  Each client call of
 `reconcileInventory`, `reconcileManagement` and `handleDeletion` (and of the pool's
 `handleUpdate` and `handleDeletion`) is a step of its own, so passes of different objects
 interleave between any two calls, and every write may be refused, or may be applied and
 still be reported as failed.
 */
module Fleet {
  import opened Wrappers

  type InstanceID = string
  type HostID = string
  type PoolID = string

  /** What the API server stores for a BareMetalInstance, as far as allocation depends on it. */
  datatype Instance = Instance(
    version: nat,                 // metadata.resourceVersion
    deleting: bool,               // metadata.deletionTimestamp is set
    inventoryFinalizer: bool,
    managementFinalizer: bool,
    host: Option<HostID>,         // spec.externalHostID
    fulfilled: bool,              // spec.hostClass is not empty
    templated: bool,              // spec.templateID is neither empty nor "noop"
    pool: Option<PoolID>,         // controller owner and pool label
    matching: set<HostID>)        // hosts that meet hostType and selector

  /** Where a pass of an instance stands. */
  datatype Stage =
    | Started                     // object read, no call made yet
    | Picked(candidate: HostID)   // FindFreeHost answered
    | Assigning                   // host locked, AssignHost has not read the record yet
    | Claiming                    // AssignHost saw no other owner and is about to write
    | Persisting                  // host claimed, HostClass not stored yet
    | Refused                     // AssignHost returned nil, ExternalHostID not cleared yet
    | Cleaned                     // deprovisioning over, management finalizer still there
    | Releasing                   // management cleanup over
    | Unassigning                 // host locked, UnassignHost has not read the record yet
    | Clearing(owned: bool)       // UnassignHost read the record and is about to write
    | Released                    // host unassigned, inventory finalizer still there
    | Returning                   // only the deferred Unlock is left

  /** The copy a pass read, its stage, and whether the Unlock of copy.host is pending. */
  datatype Pass = Pass(copy: Instance, at: Stage, locking: bool)

  /** A write is applied and confirmed, applied but reported as failed, or not applied. */
  datatype Outcome = Confirmed | LostReply | Failed

  /** One step of a pass of an instance. */
  datatype Event =
    | Quit                        // a call failed, or the pass returns without writing
    | AddInventoryFinalizer(o: Outcome)
    | FindHost(h: HostID)
    | FindNothing
    | StoreHost(o: Outcome)
    | LockForAssign
    | LockBusy
    | ReadForAssign
    | Claim(o: Outcome, again: bool := false)      // again: authentication failed, AssignHost starts over
    | StoreClass(o: Outcome)
    | ClearHost(o: Outcome)
    | AddManagementFinalizer(o: Outcome)
    | Provision
    | Manage
    | Deprovision
    | SkipDeprovision
    | DropManagementFinalizer(o: Outcome)
    | SkipManagement
    | LockForRelease
    | SkipRelease
    | ReadForRelease
    | Unassign(o: Outcome, again: bool := false)   // again: authentication failed, UnassignHost starts over
    | DropInventoryFinalizer(o: Outcome)
    | Unlock

  /** All that a pass of an instance reads or writes; `owner` and `locked` belong to copy.host. */
  datatype Local = Local(
    obj: Option<Instance>,
    pass: Option<Pass>,
    owner: Option<InstanceID>,
    locked: bool,
    provisioned: bool,            // RunProvisioningLifecycle has been entered
    deprovisioned: bool)          // RunDeprovisioningLifecycle has reported done

  // ---------------------------------------------------------------- API server

  /** A new object: no finalizer, no host class; its pool is set by whoever creates it. */
  predicate Fresh(x: Instance, pool: Option<PoolID>) {
    x.version == 0 && !x.deleting && !x.inventoryFinalizer && !x.managementFinalizer
    && !x.fulfilled && x.pool == pool
  }

  /** The object as an accepted write leaves it: it is removed with its last finalizer. */
  function Stored(x: Instance): Option<Instance> {
    if x.deleting && !x.inventoryFinalizer && !x.managementFinalizer
    then None else Some(x.(version := x.version + 1))
  }

  /** Optimistic concurrency: the object still has the version the pass read. */
  predicate Accepts(l: Local, o: Outcome)
    requires l.pass.Some?
  {
    o != Failed ==> l.obj.Some? && l.obj.value.version == l.pass.value.copy.version
  }

  // ---------------------------------------------------------------- one pass

  predicate At(l: Local, stage: Stage) {
    l.pass.Some? && l.pass.value.at == stage
  }

  predicate Allocating(l: Local, stage: Stage) {
    At(l, stage) && !l.pass.value.copy.deleting && !l.pass.value.copy.fulfilled
  }

  predicate Managing(l: Local) {
    At(l, Started) && !l.pass.value.copy.deleting && l.pass.value.copy.fulfilled
  }

  predicate Deleting(l: Local, stage: Stage) {
    At(l, stage) && l.pass.value.copy.deleting
  }

  predicate Ready(l: Local, e: Event) {
    match e
    case Quit => l.pass.Some? && l.pass.value.at != Returning
    case AddInventoryFinalizer(o) =>
      Allocating(l, Started) && !l.pass.value.copy.inventoryFinalizer && Accepts(l, o)
    case FindHost(h) => Searching(l) && h in l.pass.value.copy.matching
    case FindNothing => Searching(l)
    case StoreHost(o) => l.pass.Some? && l.pass.value.at.Picked? && Accepts(l, o)
    case LockForAssign => HostNamed(l, Allocating(l, Started)) && !l.locked
    case LockBusy => HostNamed(l, Allocating(l, Started) || Deleting(l, Releasing)) && l.locked
    case ReadForAssign => At(l, Assigning)
    case Claim(o, again) => At(l, Claiming) && (again ==> o != Confirmed)
    case StoreClass(o) => At(l, Persisting) && Accepts(l, o)
    case ClearHost(o) => At(l, Refused) && Accepts(l, o)
    case AddManagementFinalizer(o) => Managing(l) && !l.pass.value.copy.managementFinalizer && Accepts(l, o)
    case Provision => Managing(l) && l.pass.value.copy.managementFinalizer && l.pass.value.copy.templated
    case Manage => Managing(l) && l.pass.value.copy.managementFinalizer
    case Deprovision =>
      Deleting(l, Started) && l.pass.value.copy.managementFinalizer && l.pass.value.copy.templated
    case SkipDeprovision =>
      Deleting(l, Started) && l.pass.value.copy.managementFinalizer && !l.pass.value.copy.templated
    case DropManagementFinalizer(o) => At(l, Cleaned) && Accepts(l, o)
    case SkipManagement => Deleting(l, Started) && !l.pass.value.copy.managementFinalizer
    case LockForRelease => HostNamed(l, Deleting(l, Releasing)) && !l.locked
    case SkipRelease =>
      Deleting(l, Releasing) && l.pass.value.copy.inventoryFinalizer && l.pass.value.copy.host == None
    case ReadForRelease => At(l, Unassigning)
    case Unassign(o, again) => l.pass.Some? && l.pass.value.at.Clearing? && (again ==> o != Confirmed)
    case DropInventoryFinalizer(o) => At(l, Released) && Accepts(l, o)
    case Unlock => At(l, Returning)
  }

  predicate Searching(l: Local) {
    Allocating(l, Started) && l.pass.value.copy.inventoryFinalizer && l.pass.value.copy.host == None
  }

  predicate HostNamed(l: Local, phase: bool) {
    phase && l.pass.Some? && l.pass.value.copy.inventoryFinalizer && l.pass.value.copy.host.Some?
  }

  function Advance(l: Local, stage: Stage): Local
    requires l.pass.Some?
  {
    l.(pass := Some(l.pass.value.(at := stage)))
  }

  /** A return statement: the pass is over unless a deferred Unlock is pending. */
  function Return(l: Local): Local
    requires l.pass.Some?
  {
    if l.pass.value.locking then Advance(l, Returning) else l.(pass := None)
  }

  /** r.Update followed by a return, whichever way the update went. */
  function WriteAndReturn(l: Local, x: Instance, o: Outcome): Local
    requires l.pass.Some?
  {
    Return(if o == Failed then l else l.(obj := Stored(x)))
  }

  /** TryLock succeeded: the deferred Unlock is now pending. */
  function TakeLock(l: Local, stage: Stage): Local
    requires l.pass.Some?
  {
    l.(locked := true, pass := Some(l.pass.value.(at := stage, locking := true)))
  }

  function LocalNext(i: InstanceID, l: Local, e: Event): Local
    requires Ready(l, e)
  {
    var copy := l.pass.value.copy;
    match e
    case Quit => Return(l)
    case AddInventoryFinalizer(o) => WriteAndReturn(l, copy.(inventoryFinalizer := true), o)
    case FindHost(h) => Advance(l, Picked(h))
    case FindNothing => Return(l)
    case StoreHost(o) => WriteAndReturn(l, copy.(host := Some(l.pass.value.at.candidate)), o)
    case LockForAssign => TakeLock(l, Assigning)
    case LockBusy => Return(l)
    case ReadForAssign => Advance(l, if l.owner.Some? && l.owner.value != i then Refused else Claiming)
    case Claim(o, again) =>
      var l' := if o == Failed then l else l.(owner := Some(i));
      if o == Confirmed then Advance(l', Persisting) else if again then Advance(l', Assigning) else Return(l')
    case StoreClass(o) => WriteAndReturn(l, copy.(fulfilled := true), o)
    case ClearHost(o) => WriteAndReturn(l, copy.(host := None), o)
    case AddManagementFinalizer(o) => WriteAndReturn(l, copy.(managementFinalizer := true), o)
    case Provision => Return(l.(provisioned := true))
    case Manage => Return(l)
    case Deprovision => Advance(l.(deprovisioned := true), Cleaned)
    case SkipDeprovision => Advance(l, Cleaned)
    case DropManagementFinalizer(o) =>
      var x := copy.(managementFinalizer := false);
      if o == Confirmed
      then l.(obj := Stored(x), pass := Some(Pass(x.(version := x.version + 1), Releasing, false)))
      else WriteAndReturn(l, x, o)
    case SkipManagement => Advance(l, Releasing)
    case LockForRelease => TakeLock(l, Unassigning)
    case SkipRelease => Advance(l, Released)
    case ReadForRelease => Advance(l, Clearing(l.owner.Some?))
    case Unassign(o, again) =>
      var l' := if o == Failed || !l.pass.value.at.owned then l else l.(owner := None);
      if o == Confirmed then Advance(l', Released) else if again then Advance(l', Unassigning) else Return(l')
    case DropInventoryFinalizer(o) => WriteAndReturn(l, copy.(inventoryFinalizer := false), o)
    case Unlock => l.(locked := false, pass := None)
  }

  // ---------------------------------------------------------------- pools

  datatype Pool = Pool(version: nat, deleting: bool, finalizer: bool)

  datatype PoolStage =
    | PoolStarted
    | Scaling                             // finalizer stored, may create and delete instances
    | Tearing(listed: set<InstanceID>)    // deletion: instances carrying the label are listed

  datatype PoolPass = PoolPass(copy: Pool, at: PoolStage)

  datatype PoolEvent =
    | PoolQuit
    | PoolAddFinalizer(o: Outcome)
    | PoolScale
    | PoolCreateInstance(i: InstanceID, instance: Instance)
    | PoolDeleteInstance(i: InstanceID)
    | PoolList
    | PoolDropFinalizer(o: Outcome)

  // ---------------------------------------------------------------- the whole system

  datatype State = State(
    objs: map<InstanceID, Instance>,
    used: set<InstanceID>,                // UIDs are never handed out twice
    owner: map<HostID, InstanceID>,       // owner record of each claimed inventory host
    locked: set<HostID>,                  // inventory.hostLocks
    passes: map<InstanceID, Pass>,        // at most one pass per object
    provisioned: set<InstanceID>,
    deprovisioned: set<InstanceID>,
    pools: map<PoolID, Pool>,
    usedPools: set<PoolID>,
    poolPasses: map<PoolID, PoolPass>)

  datatype Action =
    | CreateInstance(i: InstanceID, instance: Instance)
    | EditInstance(i: InstanceID)         // any write that touches no field modelled here
    | EditTemplate(i: InstanceID, templated: bool)
    | DeleteInstance(i: InstanceID)
    | CreatePool(p: PoolID)
    | EditPool(p: PoolID)
    | DeletePool(p: PoolID)
    | Begin(i: InstanceID)
    | Run(i: InstanceID, e: Event)
    | PoolBegin(p: PoolID)
    | PoolRun(p: PoolID, pe: PoolEvent)

  ghost predicate Init(s: State) {
    s == State(map[], {}, map[], {}, map[], {}, {}, map[], {}, map[])
  }

  function Lookup<K, V>(m: map<K, V>, k: K): Option<V> {
    if k in m then Some(m[k]) else None
  }

  function Put<K, V>(m: map<K, V>, k: K, v: Option<V>): map<K, V> {
    if v.Some? then m[k := v.value] else m - {k}
  }

  function Toggle<K>(m: set<K>, k: K, v: bool): set<K> {
    if v then m + {k} else m - {k}
  }

  /** The host a pass works on. */
  function HostOf(s: State, i: InstanceID): Option<HostID> {
    if i in s.passes then s.passes[i].copy.host else None
  }

  function View(s: State, i: InstanceID): Local {
    var h := HostOf(s, i);
    Local(Lookup(s.objs, i), Lookup(s.passes, i),
          if h.Some? then Lookup(s.owner, h.value) else None,
          h.Some? && h.value in s.locked,
          i in s.provisioned, i in s.deprovisioned)
  }

  function WriteBack(s: State, i: InstanceID, l: Local): State {
    var h := HostOf(s, i);
    s.(objs := Put(s.objs, i, l.obj),
       passes := Put(s.passes, i, l.pass),
       owner := if h.Some? then Put(s.owner, h.value, l.owner) else s.owner,
       locked := if h.Some? then Toggle(s.locked, h.value, l.locked) else s.locked,
       provisioned := Toggle(s.provisioned, i, l.provisioned),
       deprovisioned := Toggle(s.deprovisioned, i, l.deprovisioned))
  }

  /** Deletion request: marks an object that has finalizers and removes one that has none. */
  function Delete(s: State, i: InstanceID): State
    requires i in s.objs
  {
    s.(objs := Put(s.objs, i, Stored(s.objs[i].(deleting := true))))
  }

  function StorePool(s: State, p: PoolID, x: Pool): State {
    s.(pools := Put(s.pools, p, if x.deleting && !x.finalizer then None else Some(x.(version := x.version + 1))))
  }

  predicate AcceptsPool(s: State, p: PoolID, o: Outcome)
    requires p in s.poolPasses
  {
    o != Failed ==> p in s.pools && s.pools[p].version == s.poolPasses[p].copy.version
  }

  predicate PoolReady(s: State, p: PoolID, pe: PoolEvent) {
    p in s.poolPasses &&
    var q := s.poolPasses[p];
    match pe
    case PoolQuit => true
    case PoolAddFinalizer(o) =>
      q.at == PoolStarted && !q.copy.deleting && !q.copy.finalizer && AcceptsPool(s, p, o)
    case PoolScale => q.at == PoolStarted && !q.copy.deleting && q.copy.finalizer
    case PoolCreateInstance(i, x) => q.at == Scaling && i !in s.used && Fresh(x, Some(p)) && x.host == None
    case PoolDeleteInstance(i) =>
      i in s.objs && s.objs[i].pool == Some(p) && !s.objs[i].deleting
      && (q.at == Scaling || (q.at.Tearing? && i in q.at.listed))
    case PoolList => q.at == PoolStarted && q.copy.deleting
    case PoolDropFinalizer(o) => q.at == Tearing({}) && q.copy.finalizer && AcceptsPool(s, p, o)
  }

  function Labelled(s: State, p: PoolID): set<InstanceID> {
    set i | i in s.objs && s.objs[i].pool == Some(p)
  }

  function PoolNext(s: State, p: PoolID, pe: PoolEvent): State
    requires PoolReady(s, p, pe)
  {
    var q := s.poolPasses[p];
    match pe
    case PoolQuit => s.(poolPasses := s.poolPasses - {p})
    case PoolAddFinalizer(o) =>
      var x := q.copy.(finalizer := true);
      if o == Confirmed
      then StorePool(s, p, x).(poolPasses := s.poolPasses[p := PoolPass(x.(version := x.version + 1), Scaling)])
      else (if o == Failed then s else StorePool(s, p, x)).(poolPasses := s.poolPasses - {p})
    case PoolScale => s.(poolPasses := s.poolPasses[p := q.(at := Scaling)])
    case PoolCreateInstance(i, x) => s.(objs := s.objs[i := x], used := s.used + {i})
    case PoolDeleteInstance(i) => Delete(s, i)
    case PoolList => s.(poolPasses := s.poolPasses[p := q.(at := Tearing(Labelled(s, p)))])
    case PoolDropFinalizer(o) =>
      (if o == Failed then s else StorePool(s, p, q.copy.(finalizer := false)))
        .(poolPasses := s.poolPasses - {p})
  }

  predicate Enabled(s: State, a: Action) {
    match a
    case CreateInstance(i, x) => i !in s.used && Fresh(x, None)
    case EditInstance(i) => i in s.objs
    case EditTemplate(i, _) => i in s.objs
    case DeleteInstance(i) => i in s.objs && !s.objs[i].deleting
    case CreatePool(p) => p !in s.usedPools
    case EditPool(p) => p in s.pools
    case DeletePool(p) => p in s.pools && !s.pools[p].deleting
    case Begin(i) => i in s.objs && i !in s.passes
    case Run(i, e) =>
      Ready(View(s, i), e)
      && (e.FindHost? ==> e.h !in s.owner)
      && (e.FindNothing? ==> s.passes[i].copy.matching <= s.owner.Keys)
    case PoolBegin(p) => p in s.pools && p !in s.poolPasses
    case PoolRun(p, pe) => PoolReady(s, p, pe)
  }

  function Next(s: State, a: Action): State
    requires Enabled(s, a)
  {
    match a
    case CreateInstance(i, x) => s.(objs := s.objs[i := x], used := s.used + {i})
    case EditInstance(i) => s.(objs := s.objs[i := s.objs[i].(version := s.objs[i].version + 1)])
    case EditTemplate(i, templated) =>
      s.(objs := s.objs[i := s.objs[i].(templated := templated, version := s.objs[i].version + 1)])
    case DeleteInstance(i) => Delete(s, i)
    case CreatePool(p) =>
      s.(pools := s.pools[p := Pool(0, false, false)], usedPools := s.usedPools + {p})
    case EditPool(p) => s.(pools := s.pools[p := s.pools[p].(version := s.pools[p].version + 1)])
    case DeletePool(p) => StorePool(s, p, s.pools[p].(deleting := true))
    case Begin(i) => s.(passes := s.passes[i := Pass(s.objs[i], Started, false)])
    case Run(i, e) => WriteBack(s, i, LocalNext(i, View(s, i), e))
    case PoolBegin(p) => s.(poolPasses := s.poolPasses[p := PoolPass(s.pools[p], PoolStarted)])
    case PoolRun(p, pe) => PoolNext(s, p, pe)
  }

  // ---------------------------------------------------------------- runs

  ghost predicate Steps(s: State, a: Action, s': State) {
    Enabled(s, a) && s' == Next(s, a)
  }

  /** states[k] steps to states[k+1] by actions[k]; nothing else ever happens. */
  ghost predicate IsRun(states: seq<State>, actions: seq<Action>) {
    |states| == |actions| + 1
    && Init(states[0])
    && forall k :: 0 <= k < |actions| ==> Steps(states[k], actions[k], states[k + 1])
  }

  /** s' is reached from s by performing the actions in order. */
  ghost predicate Performs(s: State, actions: seq<Action>, s': State)
    decreases |actions|
  {
    if actions == [] then s' == s
    else Enabled(s, actions[0]) && Performs(Next(s, actions[0]), actions[1..], s')
  }

  lemma {:induction false} PerformsConcat(s: State, xs: seq<Action>, t: State, ys: seq<Action>, u: State)
    requires Performs(s, xs, t) && Performs(t, ys, u)
    ensures Performs(s, xs + ys, u)
    decreases |xs|
  {
    hide Enabled, Next;
    if xs == [] {
      assert xs + ys == ys;
    } else {
      assert (xs + ys)[1..] == xs[1..] + ys;
      PerformsConcat(Next(s, xs[0]), xs[1..], t, ys, u);
    }
  }
}
