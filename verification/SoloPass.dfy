/** Whole passes of one instance that run without interruption, as sequences of steps. */
module SoloPass {
  import opened Wrappers
  import opened Fleet
  import opened FleetInvariant

  /** The events lead a pass from l to l'. */
  predicate LocalRuns(i: InstanceID, l: Local, es: seq<Event>, l': Local)
    decreases |es|
  {
    if es == [] then l' == l
    else Ready(l, es[0]) && LocalRuns(i, LocalNext(i, l, es[0]), es[1..], l')
  }

  function Lift(i: InstanceID, es: seq<Event>): (r: seq<Action>)
    ensures |r| == |es| && forall k :: 0 <= k < |es| ==> r[k] == Run(i, es[k])
  {
    seq(|es|, k requires 0 <= k < |es| => Run(i, es[k]))
  }

  /** None of the events looks at other hosts. */
  predicate NoSearch(es: seq<Event>) {
    forall e :: e in es ==> !e.FindHost? && !e.FindNothing?
  }

  lemma WriteBackTwice(s: State, i: InstanceID, l: Local, l': Local)
    requires i in s.passes && l.pass.Some? && l.pass.value.copy.host == s.passes[i].copy.host
    ensures WriteBack(WriteBack(s, i, l), i, l') == WriteBack(s, i, l')
  {
    var h := s.passes[i].copy.host;
    assert HostOf(WriteBack(s, i, l), i) == h;
    PutTwice(s.objs, i, l.obj, l'.obj);
    PutTwice(s.passes, i, l.pass, l'.pass);
    if h.Some? {
      PutTwice(s.owner, h.value, l.owner, l'.owner);
    }
  }

  lemma PutTwice<K, V>(m: map<K, V>, k: K, v: Option<V>, v': Option<V>)
    ensures Put(Put(m, k, v), k, v') == Put(m, k, v')
  {
  }

  lemma {:induction false} LiftRuns(s: State, i: InstanceID, es: seq<Event>, l': Local)
    requires Inv(s) && i in s.passes && NoSearch(es) && |es| > 0
    requires LocalRuns(i, View(s, i), es, l')
    ensures Performs(s, Lift(i, es), WriteBack(s, i, l'))
    decreases |es|
  {
    var l := View(s, i);
    var l1 := LocalNext(i, l, es[0]);
    var s1 := WriteBack(s, i, l1);
    assert es[0] in es;
    assert Enabled(s, Run(i, es[0])) && s1 == Next(s, Run(i, es[0]));
    assert LocalOk(i, l) && BackedOk(i, l);
    LocalStep(i, l, es[0]);
    assert Lift(i, es)[1..] == Lift(i, es[1..]);
    if |es| > 1 {
      OwnView(s, i, l1);
      StepInv(s, Run(i, es[0]));
      SomePass(l1, es[1]);
      LiftRuns(s1, i, es[1..], l');
      WriteBackTwice(s, i, l1, l');
    }
    hide Ready, LocalNext, LocalOk, Inv, View, WriteBack, Enabled, Next;
  }

  lemma SomePass(l: Local, e: Event)
    requires Ready(l, e)
    ensures l.pass.Some?
  {
  }

  // ---------------------------------------------------------------- from Begin to return

  ghost predicate Idle(s: State, i: InstanceID) {
    i in s.objs && i !in s.passes
  }

  /** What the pass of i sees right after it read the object. */
  function FirstView(s: State, i: InstanceID): Local
    requires i in s.objs
  {
    var x := s.objs[i];
    Local(Some(x), Some(Pass(x, Started, false)),
          if x.host.Some? then Lookup(s.owner, x.host.value) else None,
          x.host.Some? && x.host.value in s.locked,
          i in s.provisioned, i in s.deprovisioned)
  }

  /** The state a completed pass leaves behind. */
  function AfterPass(s: State, i: InstanceID, l': Local): State
    requires i in s.objs
  {
    var h := s.objs[i].host;
    s.(objs := Put(s.objs, i, l'.obj),
       owner := if h.Some? then Put(s.owner, h.value, l'.owner) else s.owner,
       provisioned := Toggle(s.provisioned, i, l'.provisioned),
       deprovisioned := Toggle(s.deprovisioned, i, l'.deprovisioned))
  }

  lemma BeginView(s: State, i: InstanceID, l': Local)
    requires Idle(s, i) && l'.pass == None && l'.locked == FirstView(s, i).locked
    ensures Enabled(s, Begin(i))
    ensures View(Next(s, Begin(i)), i) == FirstView(s, i)
    ensures WriteBack(Next(s, Begin(i)), i, l') == AfterPass(s, i, l')
  {
    var s0 := Next(s, Begin(i));
    var h := s.objs[i].host;
    assert s0.passes - {i} == s.passes;
    if h.Some? {
      assert Toggle(s0.locked, h.value, l'.locked) == s.locked;
    }
  }

  /** A pass of i that nobody interrupts, from reading the object to its return. */
  lemma WholePass(s: State, i: InstanceID, es: seq<Event>, l': Local)
    requires Inv(s) && Idle(s, i) && NoSearch(es) && |es| > 0
    requires LocalRuns(i, FirstView(s, i), es, l') && l'.pass == None && l'.locked == FirstView(s, i).locked
    ensures Performs(s, [Begin(i)] + Lift(i, es), AfterPass(s, i, l'))
  {
    var s0 := Next(s, Begin(i));
    BeginView(s, i, l');
    BeginInv(s, i);
    LiftRuns(s0, i, es, l');
    assert ([Begin(i)] + Lift(i, es))[1..] == Lift(i, es);
    hide LocalRuns, Ready, LocalNext, Inv, View, WriteBack;
  }

  // ---------------------------------------------------------------- the passes of an allocation

  lemma FinalizerPass(s: State, i: InstanceID) returns (acts: seq<Action>, s': State)
    requires Inv(s) && Idle(s, i)
    requires !s.objs[i].deleting && !s.objs[i].fulfilled && !s.objs[i].inventoryFinalizer
    ensures Performs(s, acts, s')
    ensures s' == s.(objs := s.objs[i := s.objs[i].(inventoryFinalizer := true, version := s.objs[i].version + 1)])
    ensures Steady(acts, i)
  {
    hide LocalRuns, Inv, Ready, LocalNext, Performs;
    var l := FirstView(s, i);
    var es := [AddInventoryFinalizer(Confirmed)];
    var l' := l.(pass := None, obj := Some(s.objs[i].(inventoryFinalizer := true, version := s.objs[i].version + 1)));
    JustFinalize(i, l, s.objs[i], l');
    acts, s' := [Begin(i)] + Lift(i, es), AfterPass(s, i, l');
    WholePass(s, i, es, l');
    SameRecord(s, i, l');
  }

  /** Steps a user would see in a fault-free system: no creation, deletion, edit, error or lost reply. */
  predicate Smooth(a: Action) {
    match a
    case Begin(_) => true
    case Run(_, e) =>
      (match e
       case Quit => false
       case AddInventoryFinalizer(o) => o == Confirmed
       case StoreHost(o) => o == Confirmed
       case Claim(o, _) => o == Confirmed
       case StoreClass(o) => o == Confirmed
       case ClearHost(o) => o == Confirmed
       case AddManagementFinalizer(o) => o == Confirmed
       case DropManagementFinalizer(o) => o == Confirmed
       case Unassign(o, _) => o == Confirmed
       case DropInventoryFinalizer(o) => o == Confirmed
       case _ => true)
    case _ => false
  }

  predicate Steady(acts: seq<Action>, i: InstanceID) {
    |acts| > 0 && forall k :: 0 <= k < |acts| ==> Smooth(acts[k]) && acts[k].i == i
  }

  /** A pass that leaves the record as it was changes the object only. */
  lemma SameRecord(s: State, i: InstanceID, l': Local)
    requires i in s.objs && l'.owner == FirstView(s, i).owner
    requires l'.provisioned == (i in s.provisioned) && l'.deprovisioned == (i in s.deprovisioned)
    ensures AfterPass(s, i, l') == s.(objs := Put(s.objs, i, l'.obj))
  {
  }

  lemma PickPass(s: State, i: InstanceID, h: HostID) returns (acts: seq<Action>, s': State)
    requires Inv(s) && Idle(s, i)
    requires !s.objs[i].deleting && !s.objs[i].fulfilled && s.objs[i].inventoryFinalizer && s.objs[i].host == None
    requires h in s.objs[i].matching && h !in s.owner
    ensures Performs(s, acts, s')
    ensures s' == s.(objs := s.objs[i := s.objs[i].(host := Some(h), version := s.objs[i].version + 1)])
    ensures Steady(acts, i)
  {
    var s1 := FindStep(s, i, h);
    s' := StoreStep(s, s1, i, h);
    var find, store := Run(i, FindHost(h)), Run(i, StoreHost(Confirmed));
    acts := [Begin(i), find, store];
    hide Inv, Enabled, Next;
    assert acts[1..] == [find, store] && [find, store][1..] == [store] && [store][1..] == [];
    assert Performs(s', [], s');
    assert Performs(s1, [store], s');
    assert Performs(Next(s, Begin(i)), [find, store], s');
  }

  lemma StoreStep(s: State, s1: State, i: InstanceID, h: HostID) returns (s': State)
    requires Idle(s, i) && s.objs[i].host == None && !s.objs[i].deleting
    requires s1 == s.(passes := s.passes[i := Pass(s.objs[i], Picked(h), false)])
    ensures Enabled(s1, Run(i, StoreHost(Confirmed))) && s' == Next(s1, Run(i, StoreHost(Confirmed)))
    ensures s' == s.(objs := s.objs[i := s.objs[i].(host := Some(h), version := s.objs[i].version + 1)])
  {
    s' := Next(s1, Run(i, StoreHost(Confirmed)));
    assert s1.passes - {i} == s.passes;
  }

  lemma FindStep(s: State, i: InstanceID, h: HostID) returns (s1: State)
    requires Idle(s, i)
    requires !s.objs[i].deleting && !s.objs[i].fulfilled && s.objs[i].inventoryFinalizer && s.objs[i].host == None
    requires h in s.objs[i].matching && h !in s.owner
    ensures Enabled(s, Begin(i)) && Enabled(Next(s, Begin(i)), Run(i, FindHost(h)))
    ensures s1 == Next(Next(s, Begin(i)), Run(i, FindHost(h)))
    ensures s1 == s.(passes := s.passes[i := Pass(s.objs[i], Picked(h), false)])
  {
    var s0 := s.(passes := s.passes[i := Pass(s.objs[i], Started, false)]);
    assert Enabled(s, Begin(i)) && Next(s, Begin(i)) == s0 by {
      hide Ready, LocalNext, PoolReady, PoolNext, View, WriteBack;
    }
    FindLocal(i, View(s0, i), h);
    hide Ready, LocalNext;
    s1 := Next(s0, Run(i, FindHost(h)));
    assert s1.objs == s.objs && s1.provisioned == s.provisioned && s1.deprovisioned == s.deprovisioned;
  }

  lemma FindLocal(i: InstanceID, l: Local, h: HostID)
    requires Searching(l) && h in l.pass.value.copy.matching
    ensures Ready(l, FindHost(h)) && LocalNext(i, l, FindHost(h)) == Advance(l, Picked(h))
  {
  }

  lemma ClaimPass(s: State, i: InstanceID, h: HostID) returns (acts: seq<Action>, s': State)
    requires Inv(s) && Idle(s, i)
    requires !s.objs[i].deleting && !s.objs[i].fulfilled && s.objs[i].inventoryFinalizer && s.objs[i].host == Some(h)
    requires h !in s.locked && (h in s.owner ==> s.owner[h] == i)
    ensures Performs(s, acts, s')
    ensures s' == s.(objs := s.objs[i := s.objs[i].(fulfilled := true, version := s.objs[i].version + 1)],
                     owner := s.owner[h := i])
    ensures Steady(acts, i)
  {
    hide LocalRuns, Inv, Ready, LocalNext, Performs;
    var l := FirstView(s, i);
    var es := [LockForAssign, ReadForAssign, Claim(Confirmed), StoreClass(Confirmed), Unlock];
    var l' := l.(pass := None, owner := Some(i), obj := Some(s.objs[i].(fulfilled := true, version := s.objs[i].version + 1)));
    LocalClaim(i, l, s.objs[i], l');
    acts, s' := [Begin(i)] + Lift(i, es), AfterPass(s, i, l');
    WholePass(s, i, es, l');
  }

  lemma LocalClaim(i: InstanceID, l: Local, x: Instance, l': Local)
    requires l.obj == Some(x) && l.pass == Some(Pass(x, Started, false)) && !l.locked
    requires !x.deleting && !x.fulfilled && x.inventoryFinalizer && x.host.Some? && (l.owner == None || l.owner == Some(i))
    requires l' == l.(pass := None, owner := Some(i), obj := Some(x.(fulfilled := true, version := x.version + 1)))
    ensures LocalRuns(i, l, [LockForAssign, ReadForAssign, Claim(Confirmed), StoreClass(Confirmed), Unlock], l')
  {
    hide LocalRuns, Ready, LocalNext;
    var l2 := l.(locked := true, pass := Some(Pass(x, Claiming, true)));
    var l4 := l'.(locked := true, pass := Some(Pass(x, Returning, true)));
    LockAndRead(i, l, x, l2);
    ClaimAndStore(i, l2, x, l4);
    JustUnlock(i, l4, l');
    LocalConcat(i, l, [LockForAssign, ReadForAssign], l2, [Claim(Confirmed), StoreClass(Confirmed)], l4);
    LocalConcat(i, l, [LockForAssign, ReadForAssign] + [Claim(Confirmed), StoreClass(Confirmed)], l4, [Unlock], l');
    assert [LockForAssign, ReadForAssign] + [Claim(Confirmed), StoreClass(Confirmed)] + [Unlock]
        == [LockForAssign, ReadForAssign, Claim(Confirmed), StoreClass(Confirmed), Unlock];
  }

  lemma RefusedPass(s: State, i: InstanceID, h: HostID) returns (acts: seq<Action>, s': State)
    requires Inv(s) && Idle(s, i)
    requires !s.objs[i].deleting && !s.objs[i].fulfilled && s.objs[i].inventoryFinalizer && s.objs[i].host == Some(h)
    requires h !in s.locked && h in s.owner && s.owner[h] != i
    ensures Performs(s, acts, s')
    ensures s' == s.(objs := s.objs[i := s.objs[i].(host := None, version := s.objs[i].version + 1)])
    ensures Steady(acts, i)
  {
    hide LocalRuns, Inv, Ready, LocalNext, Performs;
    var l := FirstView(s, i);
    var es := [LockForAssign, ReadForAssign, ClearHost(Confirmed), Unlock];
    var l' := l.(pass := None, obj := Some(s.objs[i].(host := None, version := s.objs[i].version + 1)));
    LocalRefused(i, l, s.objs[i], l');
    acts, s' := [Begin(i)] + Lift(i, es), AfterPass(s, i, l');
    WholePass(s, i, es, l');
    SameRecord(s, i, l');
  }

  lemma LocalRefused(i: InstanceID, l: Local, x: Instance, l': Local)
    requires l.obj == Some(x) && l.pass == Some(Pass(x, Started, false)) && !l.locked
    requires !x.deleting && !x.fulfilled && x.inventoryFinalizer && x.host.Some? && l.owner.Some? && l.owner != Some(i)
    requires l' == l.(pass := None, obj := Some(x.(host := None, version := x.version + 1)))
    ensures LocalRuns(i, l, [LockForAssign, ReadForAssign, ClearHost(Confirmed), Unlock], l')
  {
    hide LocalRuns, Ready, LocalNext;
    var l2 := l.(locked := true, pass := Some(Pass(x, Refused, true)));
    var l3 := l'.(locked := true, pass := Some(Pass(x, Returning, true)));
    LockAndRead(i, l, x, l2);
    JustClear(i, l2, x, l3);
    JustUnlock(i, l3, l');
    LocalConcat(i, l, [LockForAssign, ReadForAssign], l2, [ClearHost(Confirmed)], l3);
    LocalConcat(i, l, [LockForAssign, ReadForAssign] + [ClearHost(Confirmed)], l3, [Unlock], l');
    assert [LockForAssign, ReadForAssign] + [ClearHost(Confirmed)] + [Unlock]
        == [LockForAssign, ReadForAssign, ClearHost(Confirmed), Unlock];
  }

  // ---------------------------------------------------------------- the pass of a deletion

  function ManagementEvents(x: Instance): seq<Event> {
    if x.managementFinalizer
    then [if x.templated then Deprovision else SkipDeprovision, DropManagementFinalizer(Confirmed)]
    else [SkipManagement]
  }

  function InventoryEvents(x: Instance): seq<Event> {
    if x.host.Some?
    then [LockForRelease, ReadForRelease, Unassign(Confirmed), DropInventoryFinalizer(Confirmed), Unlock]
    else [SkipRelease, DropInventoryFinalizer(Confirmed)]
  }

  /** An uninterrupted deletion pass frees the host's record and removes the object. */
  lemma ReleasePass(s: State, i: InstanceID) returns (acts: seq<Action>, s': State)
    requires Inv(s) && Idle(s, i) && s.objs[i].deleting
    requires s.objs[i].host.Some? ==> s.objs[i].host.value !in s.locked
    ensures Performs(s, acts, s')
    ensures s' == s.(objs := s.objs - {i},
                     owner := if s.objs[i].host.Some? then s.owner - {s.objs[i].host.value} else s.owner,
                     deprovisioned := if s.objs[i].managementFinalizer && s.objs[i].templated
                                      then s.deprovisioned + {i} else s.deprovisioned)
    ensures Steady(acts, i)
  {
    var x := s.objs[i];
    assert LocalOk(i, View(s, i)) && x.inventoryFinalizer;
    hide LocalRuns, Inv, Ready, LocalNext, Performs;
    var l := FirstView(s, i);
    var es := ManagementEvents(x) + InventoryEvents(x);
    var l' := l.(pass := None, owner := None, obj := None,
                 deprovisioned := l.deprovisioned || (x.managementFinalizer && x.templated));
    LocalDeletion(i, l, x, l');
    acts, s' := [Begin(i)] + Lift(i, es), AfterPass(s, i, l');
    DeletionEvents(x, i);
    AfterRelease(s, i, l');
    hide FirstView, ManagementEvents, InventoryEvents, AfterPass, Steady, LocalOk, View;
    WholePass(s, i, es, l');
  }

  lemma AfterRelease(s: State, i: InstanceID, l': Local)
    requires i in s.objs && l'.obj == None && l'.owner == None && l'.provisioned == (i in s.provisioned)
    requires i in s.deprovisioned ==> l'.deprovisioned
    ensures AfterPass(s, i, l')
         == s.(objs := s.objs - {i},
               owner := if s.objs[i].host.Some? then s.owner - {s.objs[i].host.value} else s.owner,
               deprovisioned := if l'.deprovisioned then s.deprovisioned + {i} else s.deprovisioned)
  {
  }

  lemma DeletionEvents(x: Instance, i: InstanceID)
    ensures var es := ManagementEvents(x) + InventoryEvents(x);
      |es| > 0 && NoSearch(es) && Steady([Begin(i)] + Lift(i, es), i)
  {
    var es := ManagementEvents(x) + InventoryEvents(x);
    PlainEvents(x, i);
    hide ManagementEvents, InventoryEvents;
    SteadyLift(i, es);
  }

  predicate Plain(i: InstanceID, e: Event) {
    !e.FindHost? && !e.FindNothing? && Smooth(Run(i, e))
  }

  lemma PlainEvents(x: Instance, i: InstanceID)
    ensures ManagementEvents(x) != []
    ensures forall e :: e in ManagementEvents(x) + InventoryEvents(x) ==> Plain(i, e)
  {
    assert forall e :: e in ManagementEvents(x) ==> Plain(i, e);
    assert forall e :: e in InventoryEvents(x) ==> Plain(i, e);
  }

  lemma SteadyLift(i: InstanceID, es: seq<Event>)
    requires forall e :: e in es ==> Plain(i, e)
    ensures NoSearch(es) && Steady([Begin(i)] + Lift(i, es), i)
  {
    var acts := [Begin(i)] + Lift(i, es);
    forall k | 0 <= k < |acts|
      ensures Smooth(acts[k]) && acts[k].i == i
    {
      if k > 0 {
        assert acts[k] == Run(i, es[k - 1]);
        assert Plain(i, es[k - 1]);
      }
    }
    assert forall k :: 0 <= k < |es| ==> Plain(i, es[k]);
  }

  lemma LocalDeletion(i: InstanceID, l: Local, x: Instance, l': Local)
    requires l.obj == Some(x) && l.pass == Some(Pass(x, Started, false)) && !l.locked
    requires x.deleting && x.inventoryFinalizer && (x.host == None ==> l.owner == None)
    requires l' == l.(pass := None, owner := None, obj := None,
                      deprovisioned := l.deprovisioned || (x.managementFinalizer && x.templated))
    ensures LocalRuns(i, l, ManagementEvents(x) + InventoryEvents(x), l')
  {
    hide LocalRuns, Ready, LocalNext;
    var y := if x.managementFinalizer then x.(managementFinalizer := false, version := x.version + 1) else x;
    var m := l.(obj := Some(y), pass := Some(Pass(y, Releasing, false)), deprovisioned := l'.deprovisioned);
    LocalManagement(i, l, x, y, m);
    LocalInventory(i, m, y, l');
    LocalConcat(i, l, ManagementEvents(x), m, InventoryEvents(y), l');
  }

  lemma LocalManagement(i: InstanceID, l: Local, x: Instance, y: Instance, m: Local)
    requires l.obj == Some(x) && l.pass == Some(Pass(x, Started, false)) && x.deleting && x.inventoryFinalizer
    requires y == if x.managementFinalizer then x.(managementFinalizer := false, version := x.version + 1) else x
    requires m == l.(obj := Some(y), pass := Some(Pass(y, Releasing, false)),
                     deprovisioned := l.deprovisioned || (x.managementFinalizer && x.templated))
    ensures LocalRuns(i, l, ManagementEvents(x), m)
  {
    if x.managementFinalizer {
      var l1 := l.(pass := Some(Pass(x, Cleaned, false)), deprovisioned := m.deprovisioned);
      CleansUp(i, l, x, l1);
      DropsManagement(i, l1, x, m);
      hide *;
      TwoEvents(i, l, if x.templated then Deprovision else SkipDeprovision, l1, DropManagementFinalizer(Confirmed));
    } else {
      OneEvent(i, l, SkipManagement);
    }
    hide LocalRuns;
  }

  lemma CleansUp(i: InstanceID, l: Local, x: Instance, l1: Local)
    requires l.pass == Some(Pass(x, Started, false)) && x.deleting && x.managementFinalizer
    requires l1 == l.(pass := Some(Pass(x, Cleaned, false)), deprovisioned := l.deprovisioned || x.templated)
    ensures var e := if x.templated then Deprovision else SkipDeprovision; Ready(l, e) && LocalNext(i, l, e) == l1
  {
  }

  lemma DropsManagement(i: InstanceID, l1: Local, x: Instance, m: Local)
    requires l1.obj == Some(x) && l1.pass == Some(Pass(x, Cleaned, false)) && x.inventoryFinalizer
    requires var y := x.(managementFinalizer := false, version := x.version + 1);
             m == l1.(obj := Some(y), pass := Some(Pass(y, Releasing, false)))
    ensures Ready(l1, DropManagementFinalizer(Confirmed)) && LocalNext(i, l1, DropManagementFinalizer(Confirmed)) == m
  {
  }

  lemma LocalInventory(i: InstanceID, m: Local, y: Instance, l': Local)
    requires m.obj == Some(y) && m.pass == Some(Pass(y, Releasing, false)) && !m.locked
    requires y.deleting && y.inventoryFinalizer && !y.managementFinalizer && (y.host == None ==> m.owner == None)
    requires l' == m.(obj := None, pass := None, owner := None)
    ensures LocalRuns(i, m, InventoryEvents(y), l')
  {
    hide LocalRuns, Ready, LocalNext;
    if y.host.Some? {
      var m2 := m.(locked := true, pass := Some(Pass(y, Clearing(m.owner.Some?), true)));
      var m4 := l'.(locked := true, pass := Some(Pass(y, Returning, true)));
      LockAndReadRelease(i, m, y, m2);
      UnassignAndDrop(i, m2, y, m4);
      JustUnlock(i, m4, l');
      LocalConcat(i, m, [LockForRelease, ReadForRelease], m2, [Unassign(Confirmed), DropInventoryFinalizer(Confirmed)], m4);
      LocalConcat(i, m, [LockForRelease, ReadForRelease] + [Unassign(Confirmed), DropInventoryFinalizer(Confirmed)],
                  m4, [Unlock], l');
      assert [LockForRelease, ReadForRelease] + [Unassign(Confirmed), DropInventoryFinalizer(Confirmed)] + [Unlock]
          == InventoryEvents(y);
    } else {
      SkipAndDrop(i, m, y, l');
    }
  }

  lemma LockAndReadRelease(i: InstanceID, m: Local, y: Instance, m2: Local)
    requires m.obj == Some(y) && m.pass == Some(Pass(y, Releasing, false)) && !m.locked
    requires y.deleting && y.inventoryFinalizer && y.host.Some?
    requires m2 == m.(locked := true, pass := Some(Pass(y, Clearing(m.owner.Some?), true)))
    ensures LocalRuns(i, m, [LockForRelease, ReadForRelease], m2)
  {
    TwoEvents(i, m, LockForRelease, m.(locked := true, pass := Some(Pass(y, Unassigning, true))), ReadForRelease);
  }

  lemma UnassignAndDrop(i: InstanceID, m: Local, y: Instance, m': Local)
    requires m.obj == Some(y) && m.pass == Some(Pass(y, Clearing(m.owner.Some?), true))
    requires y.deleting && !y.managementFinalizer
    requires m' == m.(obj := None, owner := None, pass := Some(Pass(y, Returning, true)))
    ensures LocalRuns(i, m, [Unassign(Confirmed), DropInventoryFinalizer(Confirmed)], m')
  {
    var m1 := m.(owner := None, pass := Some(Pass(y, Released, true)));
    Unassigns(i, m, y, m1);
    DropsInventory(i, m1, y, m');
    hide *;
    TwoEvents(i, m, Unassign(Confirmed), m1, DropInventoryFinalizer(Confirmed));
  }

  lemma Unassigns(i: InstanceID, m: Local, y: Instance, m1: Local)
    requires m.pass == Some(Pass(y, Clearing(m.owner.Some?), true))
    requires m1 == m.(owner := None, pass := Some(Pass(y, Released, true)))
    ensures Ready(m, Unassign(Confirmed)) && LocalNext(i, m, Unassign(Confirmed)) == m1
  {
  }

  lemma DropsInventory(i: InstanceID, m1: Local, y: Instance, m': Local)
    requires m1.obj == Some(y) && m1.pass == Some(Pass(y, Released, true)) && y.deleting && !y.managementFinalizer
    requires m' == m1.(obj := None, pass := Some(Pass(y, Returning, true)))
    ensures Ready(m1, DropInventoryFinalizer(Confirmed)) && LocalNext(i, m1, DropInventoryFinalizer(Confirmed)) == m'
  {
  }

  lemma SkipAndDrop(i: InstanceID, m: Local, y: Instance, l': Local)
    requires m.obj == Some(y) && m.pass == Some(Pass(y, Releasing, false))
    requires y.deleting && y.inventoryFinalizer && !y.managementFinalizer && y.host == None
    requires l' == m.(obj := None, pass := None)
    ensures LocalRuns(i, m, [SkipRelease, DropInventoryFinalizer(Confirmed)], l')
  {
    TwoEvents(i, m, SkipRelease, m.(pass := Some(Pass(y, Released, false))), DropInventoryFinalizer(Confirmed));
  }

  /** The invariant holds wherever a fragment ends. */
  lemma {:induction false} PerformsInv(s: State, acts: seq<Action>, s': State)
    requires Inv(s) && Performs(s, acts, s')
    ensures Inv(s')
    decreases |acts|
  {
    hide Inv, Enabled, Next;
    if acts != [] {
      StepInv(s, acts[0]);
      PerformsInv(Next(s, acts[0]), acts[1..], s');
    }
  }

  // ---------------------------------------------------------------- pieces of a pass

  lemma {:induction false} LocalConcat(i: InstanceID, l: Local, es: seq<Event>, m: Local, fs: seq<Event>, l': Local)
    requires LocalRuns(i, l, es, m) && LocalRuns(i, m, fs, l')
    ensures LocalRuns(i, l, es + fs, l')
    decreases |es|
  {
    hide Ready, LocalNext;
    if es == [] {
      assert es + fs == fs;
    } else {
      assert (es + fs)[1..] == es[1..] + fs;
      LocalConcat(i, LocalNext(i, l, es[0]), es[1..], m, fs, l');
    }
  }

  lemma OneEvent(i: InstanceID, l: Local, e: Event)
    requires Ready(l, e)
    ensures LocalRuns(i, l, [e], LocalNext(i, l, e))
  {
    hide Ready, LocalNext;
    assert [e][1..] == [];
  }

  lemma TwoEvents(i: InstanceID, l: Local, e: Event, l1: Local, f: Event)
    requires Ready(l, e) && l1 == LocalNext(i, l, e) && Ready(l1, f)
    ensures LocalRuns(i, l, [e, f], LocalNext(i, l1, f))
  {
    hide Ready, LocalNext;
    OneEvent(i, l1, f);
    assert [e, f][1..] == [f];
  }

  lemma LockAndRead(i: InstanceID, l: Local, x: Instance, l2: Local)
    requires l.obj == Some(x) && l.pass == Some(Pass(x, Started, false)) && !l.locked
    requires !x.deleting && !x.fulfilled && x.inventoryFinalizer && x.host.Some?
    requires l2 == l.(locked := true,
                      pass := Some(Pass(x, if l.owner.Some? && l.owner.value != i then Refused else Claiming, true)))
    ensures LocalRuns(i, l, [LockForAssign, ReadForAssign], l2)
  {
    TwoEvents(i, l, LockForAssign, l.(locked := true, pass := Some(Pass(x, Assigning, true))), ReadForAssign);
  }

  lemma ClaimAndStore(i: InstanceID, l: Local, x: Instance, l': Local)
    requires l.obj == Some(x) && l.pass == Some(Pass(x, Claiming, true))
    requires l' == l.(owner := Some(i), pass := Some(Pass(x, Returning, true)),
                      obj := Stored(x.(fulfilled := true)))
    ensures LocalRuns(i, l, [Claim(Confirmed), StoreClass(Confirmed)], l')
  {
    TwoEvents(i, l, Claim(Confirmed), l.(owner := Some(i), pass := Some(Pass(x, Persisting, true))), StoreClass(Confirmed));
  }

  lemma JustClear(i: InstanceID, l: Local, x: Instance, l': Local)
    requires l.obj == Some(x) && l.pass == Some(Pass(x, Refused, true))
    requires l' == l.(pass := Some(Pass(x, Returning, true)), obj := Stored(x.(host := None)))
    ensures LocalRuns(i, l, [ClearHost(Confirmed)], l')
  {
    OneEvent(i, l, ClearHost(Confirmed));
  }

  lemma JustFinalize(i: InstanceID, l: Local, x: Instance, l': Local)
    requires l.obj == Some(x) && l.pass == Some(Pass(x, Started, false))
    requires !x.deleting && !x.fulfilled && !x.inventoryFinalizer
    requires l' == l.(pass := None, obj := Stored(x.(inventoryFinalizer := true)))
    ensures LocalRuns(i, l, [AddInventoryFinalizer(Confirmed)], l')
  {
    OneEvent(i, l, AddInventoryFinalizer(Confirmed));
  }

  lemma JustUnlock(i: InstanceID, l: Local, l': Local)
    requires l.pass.Some? && l.pass.value.at == Returning && l' == l.(locked := false, pass := None)
    ensures LocalRuns(i, l, [Unlock], l')
  {
    OneEvent(i, l, Unlock);
  }
}
