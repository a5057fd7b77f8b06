/** What every reachable state of the step system satisfies, with no premise at all. */
module FleetInvariant {
  import opened Wrappers
  import opened Fleet

  // ---------------------------------------------------------------- one instance

  ghost predicate ObjectOk(x: Instance) {
    (x.fulfilled ==> x.host.Some? && x.inventoryFinalizer)
    && (x.managementFinalizer ==> x.fulfilled)
    && (x.deleting ==> x.inventoryFinalizer)
  }

  /** Most fields are written by the object's own pass only, so the copy it read is still accurate. */
  ghost predicate Agrees(x: Instance, copy: Instance) {
    x.inventoryFinalizer == copy.inventoryFinalizer && x.managementFinalizer == copy.managementFinalizer
    && x.host == copy.host && x.fulfilled == copy.fulfilled && x.pool == copy.pool && x.matching == copy.matching
    && (copy.deleting ==> x.deleting) && copy.version <= x.version
    && (copy.version == x.version ==> x.deleting == copy.deleting && x.templated == copy.templated)
  }

  ghost predicate AssignOk(q: Pass) {
    q.locking && !q.copy.deleting && !q.copy.fulfilled
  }

  ghost predicate ReleaseOk(q: Pass) {
    q.copy.deleting && !q.copy.managementFinalizer
  }

  /** What a pass knows at each stage, given the record of its host. */
  ghost predicate StageOk(i: InstanceID, l: Local, q: Pass) {
    match q.at
    case Started => !q.locking
    case Picked(h) =>
      !q.locking && !q.copy.deleting && !q.copy.fulfilled && q.copy.inventoryFinalizer && q.copy.host == None
    case Assigning => AssignOk(q)
    case Claiming => AssignOk(q) && (l.owner.Some? ==> l.owner.value == i)
    case Persisting => AssignOk(q) && l.owner == Some(i)
    case Refused => AssignOk(q) && l.owner.Some? && l.owner.value != i
    case Cleaned => !q.locking && q.copy.deleting && q.copy.managementFinalizer && (q.copy.templated ==> l.deprovisioned)
    case Releasing => !q.locking && ReleaseOk(q)
    case Unassigning => q.locking && ReleaseOk(q)
    case Clearing(owned) => q.locking && ReleaseOk(q) && owned == l.owner.Some?
    case Released =>
      ReleaseOk(q) && q.copy.inventoryFinalizer && (q.copy.host.Some? ==> q.locking) && l.owner == None
    case Returning => q.locking
  }

  ghost predicate PassOk(i: InstanceID, l: Local, q: Pass) {
    StageOk(i, l, q)
    && (q.locking ==> q.copy.host.Some? && q.copy.inventoryFinalizer && l.locked)
    && (q.at != Returning ==>
        && ObjectOk(q.copy)
        && (q.copy.inventoryFinalizer ==> l.obj.Some?)
        && (l.obj.Some? ==> Agrees(l.obj.value, q.copy)))
  }

  ghost predicate LocalOk(i: InstanceID, l: Local) {
    (l.obj.Some? ==> ObjectOk(l.obj.value))
    && (l.pass.Some? ==> PassOk(i, l, l.pass.value))
    && (l.pass.Some? && l.pass.value.copy.host == None ==> l.owner == None && !l.locked)
  }

  /** A claim of i on the host of its pass is backed by the object. */
  ghost predicate BackedOk(i: InstanceID, l: Local) {
    l.pass.Some? && l.owner == Some(i) ==>
      l.obj.Some? && l.obj.value.inventoryFinalizer && l.obj.value.host == l.pass.value.copy.host
  }

  /** The host record changes only under the host's lock: to i when it was free, or to free. */
  ghost predicate RecordEffect(i: InstanceID, l: Local, l': Local)
    requires l.pass.Some?
  {
    l'.owner != l.owner ==> l.pass.value.locking && (l'.owner == None || (l'.owner == Some(i) && l.owner == None))
  }

  /** The lock bit follows the pending Unlock of the pass. */
  ghost predicate LockEffect(l: Local, l': Local)
    requires l.pass.Some?
  {
    var now := l'.pass.Some? && l'.pass.value.locking;
    (now ==> l'.locked)
    && (l.pass.value.locking ==> l'.locked == now)
    && (!l.pass.value.locking ==> l'.locked == (l.locked || now) && (now ==> !l.locked))
    && (l'.pass.Some? ==> l'.pass.value.copy.host == l.pass.value.copy.host)
  }

  ghost predicate OtherHost(named: Option<HostID>, host: Option<HostID>) {
    named.Some? && named != host
  }

  /** A claim of i stays backed, on the host of the pass and on any other. */
  ghost predicate BackedEffect(i: InstanceID, l: Local, l': Local)
    requires l.pass.Some?
  {
    (l'.owner == Some(i) ==>
      l'.obj.Some? && l'.obj.value.inventoryFinalizer && l'.obj.value.host == l.pass.value.copy.host)
    && (l.obj.Some? && l.obj.value.inventoryFinalizer && OtherHost(l.obj.value.host, l.pass.value.copy.host)
        ==> l'.obj == l.obj)
  }

  /** A pass never creates an object and never changes its pool. */
  ghost predicate ObjectEffect(l: Local, l': Local) {
    l'.obj.Some? ==> l.obj.Some? && l'.obj.value.pool == l.obj.value.pool
  }

  ghost predicate GoodStep(i: InstanceID, l: Local, l': Local)
    requires l.pass.Some?
  {
    LocalOk(i, l') && RecordEffect(i, l, l') && LockEffect(l, l') && BackedEffect(i, l, l') && ObjectEffect(l, l')
  }

  /** TryLock, and what follows when it fails. */
  lemma LockSteps(i: InstanceID, l: Local, e: Event)
    requires LocalOk(i, l) && BackedOk(i, l) && Ready(l, e)
    requires e.LockForAssign? || e.LockForRelease? || e.LockBusy?
    ensures GoodStep(i, l, LocalNext(i, l, e))
  {
  }

  /** Searching writes nothing. */
  lemma SearchSteps(i: InstanceID, l: Local, e: Event)
    requires LocalOk(i, l) && BackedOk(i, l) && Ready(l, e)
    requires e.FindHost? || e.FindNothing?
    ensures GoodStep(i, l, LocalNext(i, l, e))
  {
  }

  /** Returns without a write. */
  lemma ReturnSteps(i: InstanceID, l: Local, e: Event)
    requires LocalOk(i, l) && BackedOk(i, l) && Ready(l, e)
    requires e.Quit? || e.Provision? || e.Manage? || e.Unlock?
    ensures GoodStep(i, l, LocalNext(i, l, e))
  {
  }

  /** The two finalizers are added. */
  lemma FinalizerWrites(i: InstanceID, l: Local, e: Event)
    requires LocalOk(i, l) && BackedOk(i, l) && Ready(l, e)
    requires e.AddInventoryFinalizer? || e.AddManagementFinalizer?
    ensures GoodStep(i, l, LocalNext(i, l, e))
  {
  }

  /** The host ID is stored. */
  lemma StoreWrite(i: InstanceID, l: Local, e: Event)
    requires LocalOk(i, l) && BackedOk(i, l) && Ready(l, e)
    requires e.StoreHost?
    ensures GoodStep(i, l, LocalNext(i, l, e))
  {
  }

  /** The host ID is cleared. */
  lemma ClearWrite(i: InstanceID, l: Local, e: Event)
    requires LocalOk(i, l) && BackedOk(i, l) && Ready(l, e)
    requires e.ClearHost?
    ensures GoodStep(i, l, LocalNext(i, l, e))
  {
  }

  /** HostClass is stored. */
  lemma ClassWrite(i: InstanceID, l: Local, e: Event)
    requires LocalOk(i, l) && BackedOk(i, l) && Ready(l, e)
    requires e.StoreClass?
    ensures GoodStep(i, l, LocalNext(i, l, e))
  {
  }

  /** AssignHost under the lock. */
  lemma ClaimSteps(i: InstanceID, l: Local, e: Event)
    requires LocalOk(i, l) && BackedOk(i, l) && Ready(l, e)
    requires e.ReadForAssign? || e.Claim?
    ensures GoodStep(i, l, LocalNext(i, l, e))
  {
  }

  /** The management half of a deletion, up to its write. */
  lemma DeprovisionSteps(i: InstanceID, l: Local, e: Event)
    requires LocalOk(i, l) && BackedOk(i, l) && Ready(l, e)
    requires e.Deprovision? || e.SkipDeprovision? || e.SkipManagement?
    ensures GoodStep(i, l, LocalNext(i, l, e))
  {
  }

  /** The write that ends it. */
  lemma ManagementWrite(i: InstanceID, l: Local, e: Event)
    requires LocalOk(i, l) && BackedOk(i, l) && Ready(l, e)
    requires e.DropManagementFinalizer?
    ensures GoodStep(i, l, LocalNext(i, l, e))
  {
  }

  /** UnassignHost reads the record. */
  lemma ReadStep(i: InstanceID, l: Local, e: Event)
    requires LocalOk(i, l) && BackedOk(i, l) && Ready(l, e)
    requires e.ReadForRelease?
    ensures GoodStep(i, l, LocalNext(i, l, e))
  {
  }

  /** UnassignHost writes the record. */
  lemma UnassignStep(i: InstanceID, l: Local, e: Event)
    requires LocalOk(i, l) && BackedOk(i, l) && Ready(l, e)
    requires e.Unassign?
    ensures GoodStep(i, l, LocalNext(i, l, e))
  {
  }

  /** There is no host to unassign. */
  lemma SkipSteps(i: InstanceID, l: Local, e: Event)
    requires LocalOk(i, l) && BackedOk(i, l) && Ready(l, e)
    requires e.SkipRelease?
    ensures GoodStep(i, l, LocalNext(i, l, e))
  {
  }

  /** The inventory half of a deletion ends by dropping the finalizer. */
  lemma LastWrite(i: InstanceID, l: Local, e: Event)
    requires LocalOk(i, l) && BackedOk(i, l) && Ready(l, e)
    requires e.DropInventoryFinalizer?
    ensures GoodStep(i, l, LocalNext(i, l, e))
  {
  }

  predicate DeletionEvent(e: Event) {
    e.Deprovision? || e.SkipDeprovision? || e.DropManagementFinalizer? || e.SkipManagement? || e.LockForRelease?
    || e.SkipRelease? || e.ReadForRelease? || e.Unassign? || e.DropInventoryFinalizer?
  }

  lemma DeletionStep(i: InstanceID, l: Local, e: Event)
    requires LocalOk(i, l) && BackedOk(i, l) && Ready(l, e) && DeletionEvent(e)
    ensures GoodStep(i, l, LocalNext(i, l, e))
  {
    hide LocalOk, BackedOk, Ready, LocalNext, GoodStep;
    match e
    case LockForRelease => LockSteps(i, l, e);
    case Deprovision | SkipDeprovision | SkipManagement => DeprovisionSteps(i, l, e);
    case DropManagementFinalizer(_) => ManagementWrite(i, l, e);
    case ReadForRelease => ReadStep(i, l, e);
    case Unassign(_, _) => UnassignStep(i, l, e);
    case SkipRelease => SkipSteps(i, l, e);
    case DropInventoryFinalizer(_) => LastWrite(i, l, e);
    case _ =>
  }

  /** Whatever a pass does next, it stays consistent with its object and its host. */
  lemma LocalStep(i: InstanceID, l: Local, e: Event)
    requires LocalOk(i, l) && BackedOk(i, l) && Ready(l, e)
    ensures GoodStep(i, l, LocalNext(i, l, e))
  {
    hide LocalOk, BackedOk, Ready, LocalNext, GoodStep;
    match e
    case LockForAssign | LockBusy => LockSteps(i, l, e);
    case FindHost(_) | FindNothing => SearchSteps(i, l, e);
    case Quit | Provision | Manage | Unlock => ReturnSteps(i, l, e);
    case AddInventoryFinalizer(_) | AddManagementFinalizer(_) => FinalizerWrites(i, l, e);
    case StoreHost(_) => StoreWrite(i, l, e);
    case ClearHost(_) => ClearWrite(i, l, e);
    case StoreClass(_) => ClassWrite(i, l, e);
    case ReadForAssign | Claim(_, _) => ClaimSteps(i, l, e);
    case _ => DeletionStep(i, l, e);
  }

  // ---------------------------------------------------------------- the whole system

  ghost predicate Holds(s: State, i: InstanceID, h: HostID) {
    i in s.passes && s.passes[i].locking && s.passes[i].copy.host == Some(h)
  }

  /** A host is locked exactly when one in-flight pass has its Unlock pending. */
  ghost predicate LockDiscipline(s: State) {
    (forall i, h :: Holds(s, i, h) ==> h in s.locked)
    && (forall i, j, h :: Holds(s, i, h) && Holds(s, j, h) ==> i == j)
    && (forall h :: h in s.locked ==> exists i :: Holds(s, i, h))
  }

  /** Every claim is backed by an existing, finalized instance that names exactly this host. */
  ghost predicate NoLeak(s: State) {
    forall h :: h in s.owner ==>
      && s.owner[h] in s.objs
      && s.objs[s.owner[h]].inventoryFinalizer
      && s.objs[s.owner[h]].host == Some(h)
  }

  ghost predicate Locals(s: State) {
    forall i :: LocalOk(i, View(s, i))
  }

  ghost predicate UsedOk(s: State) {
    s.objs.Keys <= s.used && s.passes.Keys <= s.used && s.provisioned <= s.used
  }

  /** An instance carrying a pool's label implies that the pool exists and has its finalizer. */
  ghost predicate PoolsCover(s: State) {
    (forall i :: i in s.objs && s.objs[i].pool.Some? ==>
      s.objs[i].pool.value in s.pools && s.pools[s.objs[i].pool.value].finalizer)
    && (forall p :: p in s.pools ==> p in s.usedPools && (s.pools[p].deleting ==> s.pools[p].finalizer))
  }

  ghost predicate PoolPassOk(s: State, p: PoolID, q: PoolPass) {
    p in s.usedPools
    && (q.copy.finalizer ==> p in s.pools)
    && (q.copy.deleting ==> q.copy.finalizer)
    && (p in s.pools ==>
        && s.pools[p].finalizer == q.copy.finalizer && (q.copy.deleting ==> s.pools[p].deleting)
        && q.copy.version <= s.pools[p].version
        && (q.copy.version == s.pools[p].version ==> q.copy.deleting == s.pools[p].deleting))
    && (q.at == Scaling ==> q.copy.finalizer && !q.copy.deleting)
    && (q.at.Tearing? ==> q.copy.deleting && Labelled(s, p) <= q.at.listed)
  }

  ghost predicate PoolPasses(s: State) {
    forall p :: p in s.poolPasses ==> PoolPassOk(s, p, s.poolPasses[p])
  }

  ghost predicate Inv(s: State) {
    Locals(s) && LockDiscipline(s) && NoLeak(s) && UsedOk(s) && PoolsCover(s) && PoolPasses(s)
  }

  lemma InitInv(s: State)
    requires Init(s)
    ensures Inv(s)
  {
  }

  /** Two passes that both hold a lock work on different hosts. */
  lemma LockedApart(s: State, i: InstanceID, j: InstanceID)
    requires Locals(s) && LockDiscipline(s) && i != j && i in s.passes && j in s.passes
    requires s.passes[j].locking && HostOf(s, i) == HostOf(s, j)
    ensures !s.passes[i].locking && HostOf(s, j).Some? && HostOf(s, j).value in s.locked
  {
    assert LocalOk(j, View(s, j));
    var h := s.passes[j].copy.host.value;
    assert Holds(s, j, h);
    assert !Holds(s, i, h);
  }

  /** Records and locks of a host that no step of i works on, or that another pass has locked. */
  lemma RecordFrame(s: State, i: InstanceID, l': Local, h: HostID)
    requires i in s.passes
    requires HostOf(s, i) == Some(h) ==> l'.owner == View(s, i).owner && l'.locked == View(s, i).locked
    ensures var s' := WriteBack(s, i, l');
      Lookup(s'.owner, h) == Lookup(s.owner, h) && (h in s'.locked <==> h in s.locked)
  {
  }

  /** The other passes see the step of i as no change of anything they rely on. */
  lemma OthersUnchanged(s: State, i: InstanceID, l': Local, j: InstanceID)
    requires Locals(s) && LockDiscipline(s) && i in s.passes && i != j
    requires RecordEffect(i, View(s, i), l') && LockEffect(View(s, i), l')
    ensures var v, v' := View(s, j), View(WriteBack(s, i, l'), j);
      && v'.obj == v.obj && v'.pass == v.pass && v'.provisioned == v.provisioned && v'.deprovisioned == v.deprovisioned
      && (v.pass.Some? && v.pass.value.copy.host == None ==> v'.owner == None && !v'.locked)
      && (v.pass.Some? && v.pass.value.locking ==> v'.owner == v.owner && v'.locked == v.locked)
  {
    if j in s.passes && s.passes[j].locking {
      var h := LockedHost(s, j);
      if HostOf(s, i) == Some(h) {
        LockedApart(s, i, j);
      }
      RecordFrame(s, i, l', h);
    }
    hide Locals, LockDiscipline, RecordEffect, LockEffect;
  }

  lemma LockedHost(s: State, j: InstanceID) returns (h: HostID)
    requires Locals(s) && j in s.passes && s.passes[j].locking
    ensures HostOf(s, j) == Some(h)
  {
    assert LocalOk(j, View(s, j));
    h := s.passes[j].copy.host.value;
  }

  /** WriteBack stores exactly the local state the step produced. */
  lemma OwnView(s: State, i: InstanceID, l': Local)
    requires Locals(s) && i in s.passes && LocalOk(i, l')
    requires RecordEffect(i, View(s, i), l') && LockEffect(View(s, i), l')
    ensures var v := View(WriteBack(s, i, l'), i);
      && v.obj == l'.obj && v.pass == l'.pass && v.provisioned == l'.provisioned && v.deprovisioned == l'.deprovisioned
      && (l'.pass.Some? ==> v == l')
  {
  }

  /** LocalOk looks at the record only once the host is locked. */
  lemma LocalCongruence(i: InstanceID, l: Local, l': Local)
    requires LocalOk(i, l) && l'.obj == l.obj && l'.pass == l.pass
    requires l'.provisioned == l.provisioned && (l.deprovisioned == l'.deprovisioned)
    requires l.pass.Some? && l.pass.value.locking ==> l'.owner == l.owner && l'.locked == l.locked
    requires l.pass.Some? && l.pass.value.copy.host == None ==> l'.owner == None && !l'.locked
    ensures LocalOk(i, l')
  {
  }

  lemma WriteBackLocals(s: State, i: InstanceID, l': Local)
    requires Locals(s) && LockDiscipline(s) && i in s.passes && LocalOk(i, l')
    requires RecordEffect(i, View(s, i), l') && LockEffect(View(s, i), l')
    ensures Locals(WriteBack(s, i, l'))
  {
    var s' := WriteBack(s, i, l');
    forall j
      ensures LocalOk(j, View(s', j))
    {
      if j == i {
        OwnView(s, i, l');
        assert LocalOk(i, View(s, i));
        LocalCongruence(i, l', View(s', i));
      } else {
        hide WriteBack, View;
        OthersUnchanged(s, i, l', j);
        LocalCongruence(j, View(s, j), View(s', j));
      }
    }
  }

  lemma WriteBackLocks(s: State, i: InstanceID, l': Local)
    requires Locals(s) && LockDiscipline(s) && i in s.passes && LockEffect(View(s, i), l')
    ensures LockDiscipline(WriteBack(s, i, l'))
  {
    var s' := WriteBack(s, i, l');
    var now := l'.pass.Some? && l'.pass.value.locking;
    assert LocalOk(i, View(s, i));
    assert forall j, h :: j != i ==> Holds(s', j, h) == Holds(s, j, h);
    assert forall h :: Holds(s', i, h) <==> now && HostOf(s, i) == Some(h);
    forall j, h | Holds(s', j, h)
      ensures h in s'.locked && (j != i ==> !Holds(s', i, h))
    {
      if j != i && HostOf(s, i) == Some(h) {
        LockedApart(s, i, j);
      }
    }
    forall h | h in s'.locked
      ensures exists j :: Holds(s', j, h)
    {
      if !Holds(s', i, h) {
        var j :| Holds(s, j, h);
        assert Holds(s', j, h);
      }
    }
  }

  lemma WriteBackNoLeak(s: State, i: InstanceID, l': Local)
    requires Locals(s) && NoLeak(s) && i in s.passes
    requires RecordEffect(i, View(s, i), l') && BackedEffect(i, View(s, i), l')
    ensures NoLeak(WriteBack(s, i, l'))
  {
  }

  lemma RunInv(s: State, i: InstanceID, e: Event)
    requires Inv(s) && Enabled(s, Run(i, e))
    ensures Inv(Next(s, Run(i, e)))
  {
    var l := View(s, i);
    var l' := LocalNext(i, l, e);
    assert LocalOk(i, l);
    LocalStep(i, l, e);
    WriteBackLocals(s, i, l');
    WriteBackLocks(s, i, l');
    WriteBackNoLeak(s, i, l');
    WriteBackRest(s, i, l');
  }

  lemma WriteBackRest(s: State, i: InstanceID, l': Local)
    requires UsedOk(s) && PoolsCover(s) && PoolPasses(s) && i in s.passes && ObjectEffect(View(s, i), l')
    ensures var s' := WriteBack(s, i, l'); UsedOk(s') && PoolsCover(s') && PoolPasses(s')
  {
  }

  // ---------------------------------------------------------------- the other actions

  /** The object of i as seen by its pass may be marked, edited or (without finalizers) removed. */
  lemma LocalDelete(i: InstanceID, l: Local)
    requires LocalOk(i, l) && l.obj.Some? && !l.obj.value.deleting
    ensures LocalOk(i, l.(obj := Stored(l.obj.value.(deleting := true))))
  {
  }

  lemma LocalEdit(i: InstanceID, l: Local, templated: bool)
    requires LocalOk(i, l) && l.obj.Some?
    ensures LocalOk(i, l.(obj := Some(l.obj.value.(templated := templated, version := l.obj.value.version + 1))))
  {
  }

  /** Replacing one object changes no pass, lock or record. */
  lemma ObjectChange(s: State, i: InstanceID, x: Option<Instance>)
    requires Locals(s) && LockDiscipline(s)
    requires LocalOk(i, View(s, i).(obj := x))
    ensures var s' := s.(objs := Put(s.objs, i, x)); Locals(s') && LockDiscipline(s')
  {
    var s' := s.(objs := Put(s.objs, i, x));
    forall j
      ensures LocalOk(j, View(s', j))
    {
      hide LocalOk;
      assert LocalOk(j, View(s, j));
      assert View(s', j) == if j == i then View(s, j).(obj := x) else View(s, j);
    }
    assert forall j, h :: Holds(s', j, h) == Holds(s, j, h);
  }

  /** The rest of the invariant when an object keeps its pool, finalizers and host, or goes without finalizers. */
  lemma ObjectRest(s: State, i: InstanceID, x: Option<Instance>)
    requires NoLeak(s) && UsedOk(s) && PoolsCover(s) && PoolPasses(s) && i in s.objs
    requires x.Some? ==> x.value.pool == s.objs[i].pool && x.value.host == s.objs[i].host
                         && x.value.inventoryFinalizer == s.objs[i].inventoryFinalizer
    requires x == None ==> !s.objs[i].inventoryFinalizer
    ensures var s' := s.(objs := Put(s.objs, i, x)); NoLeak(s') && UsedOk(s') && PoolsCover(s') && PoolPasses(s')
  {
  }

  lemma DeleteInv(s: State, i: InstanceID)
    requires Inv(s) && i in s.objs && !s.objs[i].deleting
    ensures Inv(Delete(s, i))
  {
    var x := Stored(s.objs[i].(deleting := true));
    assert LocalOk(i, View(s, i));
    LocalDelete(i, View(s, i));
    ObjectChange(s, i, x);
    ObjectRest(s, i, x);
  }

  lemma EditInv(s: State, i: InstanceID, templated: bool)
    requires Inv(s) && i in s.objs
    ensures Inv(s.(objs := s.objs[i := s.objs[i].(templated := templated, version := s.objs[i].version + 1)]))
  {
    var x := s.objs[i].(templated := templated, version := s.objs[i].version + 1);
    assert LocalOk(i, View(s, i));
    LocalEdit(i, View(s, i), templated);
    ObjectChange(s, i, Some(x));
    ObjectRest(s, i, Some(x));
  }

  lemma CreateInv(s: State, i: InstanceID, x: Instance)
    requires Inv(s) && i !in s.used && Fresh(x, x.pool)
    requires x.pool.Some? ==> x.pool.value in s.pools && s.pools[x.pool.value].finalizer
    requires forall p :: x.pool == Some(p) && p in s.poolPasses ==> !s.poolPasses[p].at.Tearing?
    ensures Inv(s.(objs := s.objs[i := x], used := s.used + {i}))
  {
    var s' := s.(objs := s.objs[i := x]);
    assert LocalOk(i, View(s, i)) && View(s, i).pass == None;
    ObjectChange(s, i, Some(x));
    assert forall p :: x.pool != Some(p) ==> Labelled(s', p) == Labelled(s, p);
    Renamed(s', s'.(used := s.used + {i}));
  }

  /** Locals and locks depend on objects, passes, records, locks and provisioning marks only. */
  lemma Renamed(s: State, s': State)
    requires Locals(s) && LockDiscipline(s)
    requires s'.objs == s.objs && s'.passes == s.passes && s'.owner == s.owner && s'.locked == s.locked
    requires s'.provisioned == s.provisioned && s'.deprovisioned == s.deprovisioned
    ensures Locals(s') && LockDiscipline(s')
  {
    forall j
      ensures LocalOk(j, View(s', j))
    {
      hide LocalOk;
      assert LocalOk(j, View(s, j));
      assert View(s', j) == View(s, j);
    }
    assert forall j, h :: Holds(s', j, h) == Holds(s, j, h);
  }

  lemma BeginInv(s: State, i: InstanceID)
    requires Inv(s) && Enabled(s, Begin(i))
    ensures Inv(Next(s, Begin(i)))
  {
    var s' := Next(s, Begin(i));
    forall j
      ensures LocalOk(j, View(s', j))
    {
      assert LocalOk(j, View(s, j));
      assert j != i ==> View(s', j) == View(s, j);
    }
    assert forall j, h :: Holds(s', j, h) == Holds(s, j, h);
    assert forall p :: Labelled(s', p) == Labelled(s, p);
  }

  /** Changing only pools and pool passes leaves everything about instances alone. */
  lemma PoolOnly(s: State, s': State)
    requires Inv(s)
    requires s' == s.(pools := s'.pools, usedPools := s'.usedPools, poolPasses := s'.poolPasses)
    ensures Locals(s') && LockDiscipline(s') && NoLeak(s') && UsedOk(s')
  {
    Renamed(s, s');
  }

  lemma PoolAdminInv(s: State, a: Action)
    requires Inv(s) && Enabled(s, a)
    requires a.CreatePool? || a.EditPool? || a.DeletePool? || a.PoolBegin?
    ensures Inv(Next(s, a))
  {
    AdminKeepsInstances(s, a);
    PoolOnly(s, Next(s, a));
    AdminKeepsPools(s, a);
    hide Locals, LockDiscipline, NoLeak, UsedOk, PoolsCover, PoolPasses, Enabled, Next;
  }

  lemma AdminKeepsInstances(s: State, a: Action)
    requires Enabled(s, a) && (a.CreatePool? || a.EditPool? || a.DeletePool? || a.PoolBegin?)
    ensures var s' := Next(s, a); s' == s.(pools := s'.pools, usedPools := s'.usedPools, poolPasses := s'.poolPasses)
  {
  }

  lemma AdminKeepsPools(s: State, a: Action)
    requires PoolsCover(s) && PoolPasses(s) && Enabled(s, a)
    requires a.CreatePool? || a.EditPool? || a.DeletePool? || a.PoolBegin?
    ensures PoolsCover(Next(s, a)) && PoolPasses(Next(s, a))
  {
    hide PoolsCover, PoolPasses, Enabled, Next;
    match a
    case CreatePool(_) => PoolCreated(s, a);
    case EditPool(_) => PoolEdited(s, a);
    case DeletePool(_) => PoolMarked(s, a);
    case _ => PoolBegun(s, a);
  }

  lemma PoolCreated(s: State, a: Action)
    requires PoolsCover(s) && PoolPasses(s) && Enabled(s, a) && a.CreatePool?
    ensures PoolsCover(Next(s, a)) && PoolPasses(Next(s, a))
  {
    hide LocalNext, Ready, PoolNext, PoolReady, View, WriteBack, Delete, Fresh;
    assert forall q :: Labelled(Next(s, a), q) == Labelled(s, q);
  }

  lemma PoolEdited(s: State, a: Action)
    requires PoolsCover(s) && PoolPasses(s) && Enabled(s, a) && a.EditPool?
    ensures PoolsCover(Next(s, a)) && PoolPasses(Next(s, a))
  {
    hide LocalNext, Ready, PoolNext, PoolReady, View, WriteBack, Delete, Fresh;
    assert forall q :: Labelled(Next(s, a), q) == Labelled(s, q);
  }

  lemma PoolMarked(s: State, a: Action)
    requires PoolsCover(s) && PoolPasses(s) && Enabled(s, a) && a.DeletePool?
    ensures PoolsCover(Next(s, a)) && PoolPasses(Next(s, a))
  {
    hide LocalNext, Ready, PoolNext, PoolReady, View, WriteBack, Delete, Fresh;
    assert forall q :: Labelled(Next(s, a), q) == Labelled(s, q);
  }

  lemma PoolBegun(s: State, a: Action)
    requires PoolsCover(s) && PoolPasses(s) && Enabled(s, a) && a.PoolBegin?
    ensures PoolsCover(Next(s, a)) && PoolPasses(Next(s, a))
  {
    hide LocalNext, Ready, PoolNext, PoolReady, View, WriteBack, Delete, Fresh;
    assert forall q :: Labelled(Next(s, a), q) == Labelled(s, q);
  }

  /** A pool pass touches instances only by creating and deleting them. */
  ghost predicate SameInstances(s: State, s': State) {
    s'.passes == s.passes && s'.owner == s.owner && s'.locked == s.locked
    && s'.provisioned == s.provisioned && s'.deprovisioned == s.deprovisioned
  }

  lemma PoolRunObjects(s: State, p: PoolID, pe: PoolEvent)
    requires PoolReady(s, p, pe)
    ensures SameInstances(s, PoolNext(s, p, pe))
    ensures PoolNext(s, p, pe).objs
         == if pe.PoolCreateInstance? then s.objs[pe.i := pe.instance]
            else if pe.PoolDeleteInstance? then Delete(s, pe.i).objs
            else s.objs
  {
  }

  lemma PoolRunInv(s: State, p: PoolID, pe: PoolEvent)
    requires Inv(s) && Enabled(s, PoolRun(p, pe))
    ensures Inv(Next(s, PoolRun(p, pe)))
  {
    assert PoolPassOk(s, p, s.poolPasses[p]);
    if pe.PoolCreateInstance? {
      CreateInv(s, pe.i, pe.instance);
    } else if pe.PoolDeleteInstance? {
      DeleteInv(s, pe.i);
    } else {
      PoolOnly(s, Next(s, PoolRun(p, pe)));
      PoolRunPools(s, p, pe);
    }
  }

  lemma PoolRunPools(s: State, p: PoolID, pe: PoolEvent)
    requires PoolsCover(s) && PoolPasses(s) && PoolReady(s, p, pe) && !pe.PoolCreateInstance? && !pe.PoolDeleteInstance?
    ensures PoolsCover(PoolNext(s, p, pe)) && PoolPasses(PoolNext(s, p, pe))
  {
    assert PoolPassOk(s, p, s.poolPasses[p]);
    if pe.PoolAddFinalizer? || pe.PoolDropFinalizer? {
      PoolFinalizer(s, p, pe);
    } else {
      PoolProgress(s, p, pe);
    }
  }

  lemma PoolProgress(s: State, p: PoolID, pe: PoolEvent)
    requires PoolsCover(s) && PoolPasses(s) && PoolReady(s, p, pe)
    requires pe.PoolQuit? || pe.PoolScale? || pe.PoolList?
    ensures PoolsCover(PoolNext(s, p, pe)) && PoolPasses(PoolNext(s, p, pe))
  {
  }

  /** What a write of the pool's finalizer does to the pool and to the pass. */
  ghost predicate FinalizerEffect(s: State, s': State, p: PoolID)
    requires p in s.poolPasses
  {
    var q := s.poolPasses[p];
    s' == s.(pools := s'.pools, poolPasses := s'.poolPasses)
    && (forall r :: r != p ==> Lookup(s'.pools, r) == Lookup(s.pools, r) && Lookup(s'.poolPasses, r) == Lookup(s.poolPasses, r))
    && (p in s'.pools ==> p in s.pools)
    && (p in s'.pools && s'.pools[p] != s.pools[p] ==> s'.pools[p].finalizer)
    && (p in s.pools && p !in s'.pools ==> q.at == Tearing({}))
    && (p in s'.poolPasses ==> p in s'.pools && s'.poolPasses[p] == PoolPass(s'.pools[p], Scaling)
                               && s'.pools[p].finalizer && !s'.pools[p].deleting)
  }

  lemma FinalizerWrite(s: State, p: PoolID, pe: PoolEvent)
    requires PoolReady(s, p, pe) && (pe.PoolAddFinalizer? || pe.PoolDropFinalizer?) && PoolPassOk(s, p, s.poolPasses[p])
    ensures FinalizerEffect(s, PoolNext(s, p, pe), p)
  {
  }

  lemma PoolFinalizer(s: State, p: PoolID, pe: PoolEvent)
    requires PoolsCover(s) && PoolPasses(s) && PoolReady(s, p, pe)
    requires pe.PoolAddFinalizer? || pe.PoolDropFinalizer?
    ensures PoolsCover(PoolNext(s, p, pe)) && PoolPasses(PoolNext(s, p, pe))
  {
    var s' := PoolNext(s, p, pe);
    assert PoolPassOk(s, p, s.poolPasses[p]);
    FinalizerWrite(s, p, pe);
    hide PoolNext, PoolReady;
    FinalizerCover(s, s', p);
    FinalizerPasses(s, s', p);
  }

  lemma FinalizerCover(s: State, s': State, p: PoolID)
    requires PoolsCover(s) && p in s.poolPasses && PoolPassOk(s, p, s.poolPasses[p]) && FinalizerEffect(s, s', p)
    ensures PoolsCover(s')
  {
    assert forall i :: i in s.objs && s.objs[i].pool == Some(p) ==> i in Labelled(s, p);
    forall q
      ensures q in s'.pools ==> q in s'.usedPools && (s'.pools[q].deleting ==> s'.pools[q].finalizer)
    {
      assert q != p ==> Lookup(s'.pools, q) == Lookup(s.pools, q);
    }
    forall i | i in s.objs && s.objs[i].pool.Some?
      ensures s.objs[i].pool.value in s'.pools && s'.pools[s.objs[i].pool.value].finalizer
    {
      var q := s.objs[i].pool.value;
      assert q != p ==> Lookup(s'.pools, q) == Lookup(s.pools, q);
    }
  }

  lemma FinalizerPasses(s: State, s': State, p: PoolID)
    requires PoolPasses(s) && p in s.poolPasses && FinalizerEffect(s, s', p)
    ensures PoolPasses(s')
  {
    forall q | q in s'.poolPasses
      ensures PoolPassOk(s', q, s'.poolPasses[q])
    {
      assert Labelled(s', q) == Labelled(s, q);
      if q != p {
        assert Lookup(s'.pools, q) == Lookup(s.pools, q) && Lookup(s'.poolPasses, q) == Lookup(s.poolPasses, q);
        assert PoolPassOk(s, q, s.poolPasses[q]);
      } else {
        assert PoolPassOk(s, p, s.poolPasses[p]);
      }
    }
  }

  /** One step keeps the whole invariant. */
  lemma StepInv(s: State, a: Action)
    requires Inv(s) && Enabled(s, a)
    ensures Inv(Next(s, a))
  {
    hide Inv, LocalNext, Ready, PoolReady, PoolNext, View, WriteBack;
    match a
    case CreateInstance(i, x) => CreateInv(s, i, x);
    case EditInstance(i) => EditInv(s, i, s.objs[i].templated);
    case EditTemplate(i, templated) => EditInv(s, i, templated);
    case DeleteInstance(i) => DeleteInv(s, i);
    case Begin(i) => BeginInv(s, i);
    case Run(i, e) => RunInv(s, i, e);
    case PoolRun(p, pe) => PoolRunInv(s, p, pe);
    case CreatePool(_) | EditPool(_) | DeletePool(_) | PoolBegin(_) => PoolAdminInv(s, a);
  }

  /** Every state of every run satisfies the invariant. */
  lemma {:induction false} RunsKeepInv(states: seq<State>, actions: seq<Action>, k: nat)
    requires IsRun(states, actions) && k < |states|
    ensures Inv(states[k])
  {
    if k == 0 {
      InitInv(states[0]);
    } else {
      RunsKeepInv(states, actions, k - 1);
      assert Steps(states[k - 1], actions[k - 1], states[k - 1 + 1]);
      StepInv(states[k - 1], actions[k - 1]);
    }
  }
}
