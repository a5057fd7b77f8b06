/**
 Provisioning and deprovisioning.  What was provisioned for an instance is to be deprovisioned
 before its host is released.  The template can be edited at any time, and a deletion pass that
 reads an object without one skips deprovisioning, so the pairing does not hold on every run; the
 lemmas below say on exactly which runs it does.
 */
module Pairing {
  import opened Wrappers
  import opened Fleet
  import opened FleetInvariant
  import opened Lease
  import opened SoloPass

  /** Provisioning has run and no deprovisioning has reported done. */
  ghost predicate Owes(s: State, i: InstanceID) {
    i in s.provisioned && i !in s.deprovisioned
  }

  lemma LocalRecords(i: InstanceID, l: Local, e: Event)
    requires Ready(l, e)
    ensures LocalNext(i, l, e).provisioned <==> l.provisioned || e == Provision
    ensures LocalNext(i, l, e).deprovisioned <==> l.deprovisioned || e == Deprovision
  {
    if DeletionEvent(e) {
      LateRecords(i, l, e);
      hide *;
    } else {
      EarlyRecords(i, l, e);
      hide *;
    }
  }

  lemma LateRecords(i: InstanceID, l: Local, e: Event)
    requires Ready(l, e) && DeletionEvent(e)
    ensures LocalNext(i, l, e).provisioned == l.provisioned
    ensures LocalNext(i, l, e).deprovisioned <==> l.deprovisioned || e == Deprovision
  {
  }

  lemma EarlyRecords(i: InstanceID, l: Local, e: Event)
    requires Ready(l, e) && !DeletionEvent(e)
    ensures LocalNext(i, l, e).provisioned <==> l.provisioned || e == Provision
    ensures LocalNext(i, l, e).deprovisioned == l.deprovisioned
  {
  }

  /** Deprovisioning is owed from the first Provision step of i on, up to its first Deprovision step, and nothing else counts. */
  lemma OwesIff(s: State, a: Action, i: InstanceID)
    requires Enabled(s, a)
    ensures i in Next(s, a).provisioned <==> i in s.provisioned || a == Run(i, Provision)
    ensures i in Next(s, a).deprovisioned <==> i in s.deprovisioned || a == Run(i, Deprovision)
  {
    if a.Run? {
      hide Ready, LocalNext;
      LocalRecords(a.i, View(s, a.i), a.e);
    } else {
      hide Ready, LocalNext, View, WriteBack;
    }
  }

  /** As long as deprovisioning is owed, the object is there, held by its management finalizer. */
  ghost predicate Paired(s: State) {
    forall i :: Owes(s, i) ==> i in s.objs && s.objs[i].managementFinalizer
  }

  /** A deletion pass that read no template drops the management finalizer although deprovisioning is owed. */
  ghost predicate Abandons(s: State, a: Action) {
    a.Run? && a.e.DropManagementFinalizer? && a.e.o != Failed && Enabled(s, a)
    && Owes(s, a.i) && a.i in s.passes && !s.passes[a.i].copy.templated
  }

  ghost predicate GivesUp(l: Local, e: Event) {
    e.DropManagementFinalizer? && e.o != Failed && l.provisioned && !l.deprovisioned
    && l.pass.Some? && !l.pass.value.copy.templated
  }

  ghost predicate Kept(l: Local) {
    l.provisioned && !l.deprovisioned ==> l.obj.Some? && l.obj.value.managementFinalizer
  }

  predicate Touches(e: Event) {
    e.Provision? || e.DropManagementFinalizer? || e.DropInventoryFinalizer?
  }

  /** A write that gives up the finalizer or the object is the only step that can break a pair. */
  lemma LocalKept(i: InstanceID, l: Local, e: Event)
    requires LocalOk(i, l) && Ready(l, e) && Kept(l)
    ensures Kept(LocalNext(i, l, e)) <==> !GivesUp(l, e)
  {
    if e.Provision? {
      ProvisionKept(i, l);
      hide *;
    } else if e.DropManagementFinalizer? {
      ManagementKept(i, l, e);
      hide *;
    } else if e.DropInventoryFinalizer? {
      InventoryKept(i, l, e);
      hide *;
    } else {
      OthersKept(i, l, e);
      hide *;
    }
  }

  lemma ProvisionKept(i: InstanceID, l: Local)
    requires LocalOk(i, l) && Ready(l, Provision) && Kept(l)
    ensures Kept(LocalNext(i, l, Provision))
  {
  }

  lemma ManagementKept(i: InstanceID, l: Local, e: Event)
    requires LocalOk(i, l) && Ready(l, e) && Kept(l) && e.DropManagementFinalizer?
    ensures Kept(LocalNext(i, l, e)) <==> !GivesUp(l, e)
  {
  }

  lemma InventoryKept(i: InstanceID, l: Local, e: Event)
    requires LocalOk(i, l) && Ready(l, e) && Kept(l) && e.DropInventoryFinalizer?
    ensures Kept(LocalNext(i, l, e))
  {
  }

  lemma OthersKept(i: InstanceID, l: Local, e: Event)
    requires LocalOk(i, l) && Ready(l, e) && Kept(l) && !Touches(e)
    ensures Kept(LocalNext(i, l, e))
  {
    if DeletionEvent(e) {
      OthersKeptDeletion(i, l, e);
      hide *;
    } else {
      OthersKeptUpdate(i, l, e);
      hide *;
    }
  }

  lemma OthersKeptDeletion(i: InstanceID, l: Local, e: Event)
    requires LocalOk(i, l) && Ready(l, e) && Kept(l) && !Touches(e) && DeletionEvent(e)
    ensures Kept(LocalNext(i, l, e))
  {
    hide StageOk;
  }

  lemma OthersKeptUpdate(i: InstanceID, l: Local, e: Event)
    requires LocalOk(i, l) && Ready(l, e) && Kept(l) && !Touches(e) && !DeletionEvent(e)
    ensures Kept(LocalNext(i, l, e))
  {
    hide StageOk;
  }

  lemma RunPaired(s: State, i: InstanceID, e: Event)
    requires Inv(s) && Paired(s) && Enabled(s, Run(i, e))
    ensures Paired(Next(s, Run(i, e))) <==> !Abandons(s, Run(i, e))
  {
    hide Inv, Ready, LocalNext, LocalOk;
    InFlight(s, i, e);
    LocalHolds(s, i);
    assert Owes(s, i) ==> Kept(View(s, i));
    LocalKept(i, View(s, i), e);
    PairedBack(s, i, LocalNext(i, View(s, i), e));
  }

  lemma PairedBack(s: State, i: InstanceID, l': Local)
    requires Paired(s) && i in s.passes
    ensures Paired(WriteBack(s, i, l')) <==> Kept(l')
  {
    var s' := WriteBack(s, i, l');
    assert Owes(s', i) <==> l'.provisioned && !l'.deprovisioned;
    forall j | j != i
      ensures Owes(s', j) == Owes(s, j) && Lookup(s'.objs, j) == Lookup(s.objs, j)
    {
    }
  }

  /** Users and pools provision nothing and take no finalizer away. */
  lemma OtherPaired(s: State, a: Action)
    requires UsedOk(s) && Paired(s) && Enabled(s, a) && !a.Run?
    ensures Paired(Next(s, a))
  {
    var s' := Next(s, a);
    if a.PoolRun? {
      PoolRunObjects(s, a.p, a.pe);
      hide PoolNext, Ready, LocalNext;
    } else {
      hide PoolNext, PoolReady, Ready, LocalNext;
    }
    forall j | Owes(s', j)
      ensures j in s'.objs && s'.objs[j].managementFinalizer
    {
      assert Owes(s, j);
    }
  }

  /** One step keeps every pair exactly when it abandons none. */
  lemma StepPaired(s: State, a: Action)
    requires Inv(s) && Paired(s) && Enabled(s, a)
    ensures Paired(Next(s, a)) <==> !Abandons(s, a)
  {
    if a.Run? {
      RunPaired(s, a.i, a.e);
      hide *;
    } else {
      OtherPaired(s, a);
      hide Inv, Next, Enabled, Paired;
    }
  }

  /** On every run: all pairs are kept in all states if and only if no step abandons one. */
  lemma PairedIff(states: seq<State>, actions: seq<Action>)
    requires IsRun(states, actions)
    ensures (forall k :: 0 <= k < |states| ==> Paired(states[k]))
       <==> (forall k :: 0 <= k < |actions| ==> !Abandons(states[k], actions[k]))
  {
    hide Inv, Paired, Abandons, Next, Enabled;
    if forall k :: 0 <= k < |actions| ==> !Abandons(states[k], actions[k]) {
      forall k | 0 <= k < |states|
        ensures Paired(states[k])
      {
        PairedUpTo(states, actions, k);
      }
    }
    if forall k :: 0 <= k < |states| ==> Paired(states[k]) {
      forall k | 0 <= k < |actions|
        ensures !Abandons(states[k], actions[k])
      {
        RunsKeepInv(states, actions, k);
        assert Steps(states[k], actions[k], states[k + 1]);
        StepPaired(states[k], actions[k]);
      }
    }
  }

  lemma {:induction false} PairedUpTo(states: seq<State>, actions: seq<Action>, k: nat)
    requires IsRun(states, actions) && k < |states|
    requires forall m :: 0 <= m < k ==> !Abandons(states[m], actions[m])
    ensures Paired(states[k])
  {
    hide Inv, Abandons, Next, Enabled;
    if k > 0 {
      PairedUpTo(states, actions, k - 1);
      RunsKeepInv(states, actions, k - 1);
      assert Steps(states[k - 1], actions[k - 1], states[k - 1 + 1]);
      StepPaired(states[k - 1], actions[k - 1]);
    }
  }

  /** While its pair is kept, an instance that owes deprovisioning neither unassigns nor goes away. */
  lemma OwingIsKept(s: State, i: InstanceID)
    requires Inv(s) && Paired(s) && Owes(s, i)
    ensures i in s.objs
    ensures forall e :: Enabled(s, Run(i, e)) ==> !e.Unassign? && !e.DropInventoryFinalizer?
  {
    LocalHolds(s, i);
    forall e | Enabled(s, Run(i, e))
      ensures !e.Unassign? && !e.DropInventoryFinalizer?
    {
      hide Inv;
    }
  }

  /**
   Provisioned and not yet deprovisioned: on a run that abandons no pair the instance is still there,
   and its own pass neither frees its host's record nor drops the inventory finalizer.
   */
  lemma ProvisionedIsKept(states: seq<State>, actions: seq<Action>, k: nat, i: InstanceID)
    requires IsRun(states, actions) && k < |states|
    requires forall m :: 0 <= m < |actions| ==> !Abandons(states[m], actions[m])
    requires Owes(states[k], i)
    ensures i in states[k].objs
    ensures k < |actions| ==>
              !(actions[k].Run? && actions[k].i == i && (actions[k].e.Unassign? || actions[k].e.DropInventoryFinalizer?))
  {
    hide Inv, Paired, Abandons, Next;
    RunsKeepInv(states, actions, k);
    PairedUpTo(states, actions, k);
    OwingIsKept(states[k], i);
    assert k < |actions| ==> Steps(states[k], actions[k], states[k + 1]);
  }

  // ---------------------------------------------------------------- edits of the template

  /** The template is cleared while deprovisioning is owed, or under a pass that read it. */
  ghost predicate Clears(s: State, a: Action) {
    a.EditTemplate? && !a.templated && (Owes(s, a.i) || (a.i in s.passes && s.passes[a.i].copy.templated))
  }

  /** What holds as long as no template is cleared: who owes has a template, and so has every copy of it. */
  ghost predicate TemplateOk(l: Local) {
    (l.provisioned && !l.deprovisioned ==>
      && l.obj.Some? && l.obj.value.templated && l.obj.value.managementFinalizer
      && (l.pass.Some? && l.pass.value.at != Returning ==> l.pass.value.copy.templated))
    && (l.pass.Some? && l.pass.value.at != Returning && l.pass.value.copy.templated && l.obj.Some? ==> l.obj.value.templated)
  }

  ghost predicate Templates(s: State) {
    forall i :: TemplateOk(View(s, i))
  }

  lemma LocalTemplate(i: InstanceID, l: Local, e: Event)
    requires LocalOk(i, l) && Ready(l, e) && TemplateOk(l)
    ensures TemplateOk(LocalNext(i, l, e))
  {
    if e.Provision? {
      TemplateProvision(i, l);
      hide *;
    } else if e.DropManagementFinalizer? {
      TemplateManagement(i, l, e);
      hide *;
    } else if e.DropInventoryFinalizer? {
      TemplateInventory(i, l, e);
      hide *;
    } else {
      TemplateOthers(i, l, e);
      hide *;
    }
  }

  lemma TemplateProvision(i: InstanceID, l: Local)
    requires LocalOk(i, l) && Ready(l, Provision) && TemplateOk(l)
    ensures TemplateOk(LocalNext(i, l, Provision))
  {
  }

  lemma TemplateManagement(i: InstanceID, l: Local, e: Event)
    requires LocalOk(i, l) && Ready(l, e) && TemplateOk(l) && e.DropManagementFinalizer?
    ensures TemplateOk(LocalNext(i, l, e))
  {
  }

  lemma TemplateInventory(i: InstanceID, l: Local, e: Event)
    requires LocalOk(i, l) && Ready(l, e) && TemplateOk(l) && e.DropInventoryFinalizer?
    ensures TemplateOk(LocalNext(i, l, e))
  {
  }

  lemma TemplateOthers(i: InstanceID, l: Local, e: Event)
    requires LocalOk(i, l) && Ready(l, e) && TemplateOk(l) && !Touches(e)
    ensures TemplateOk(LocalNext(i, l, e))
  {
    if Silent(e) || e.Claim? || e.Unassign? {
      TemplateSilent(i, l, e);
      hide *;
    } else {
      TemplateWrites(i, l, e);
      hide *;
    }
  }

  lemma TemplateSilent(i: InstanceID, l: Local, e: Event)
    requires Ready(l, e) && TemplateOk(l) && (Silent(e) || e.Claim? || e.Unassign?) && !Touches(e)
    ensures TemplateOk(LocalNext(i, l, e))
  {
    if DeletionEvent(e) {
      TemplateSilentDeletion(i, l, e);
      hide *;
    } else {
      TemplateSilentUpdate(i, l, e);
      hide *;
    }
  }

  lemma TemplateSilentDeletion(i: InstanceID, l: Local, e: Event)
    requires Ready(l, e) && TemplateOk(l) && (Silent(e) || e.Claim? || e.Unassign?) && !Touches(e) && DeletionEvent(e)
    ensures TemplateOk(LocalNext(i, l, e))
  {
  }

  lemma TemplateSilentUpdate(i: InstanceID, l: Local, e: Event)
    requires Ready(l, e) && TemplateOk(l) && (Silent(e) || e.Claim? || e.Unassign?) && !Touches(e) && !DeletionEvent(e)
    ensures TemplateOk(LocalNext(i, l, e))
  {
  }

  lemma TemplateWrites(i: InstanceID, l: Local, e: Event)
    requires LocalOk(i, l) && Ready(l, e) && TemplateOk(l) && !Touches(e) && !Silent(e) && !e.Claim? && !e.Unassign?
    ensures TemplateOk(LocalNext(i, l, e))
  {
    hide StageOk;
  }

  lemma TemplatesBack(s: State, i: InstanceID, l': Local)
    requires Templates(s) && i in s.passes && TemplateOk(l')
    ensures Templates(WriteBack(s, i, l'))
  {
    var s' := WriteBack(s, i, l');
    forall j
      ensures TemplateOk(View(s', j))
    {
      assert TemplateOk(View(s, j));
    }
  }

  lemma OtherTemplates(s: State, a: Action)
    requires UsedOk(s) && Templates(s) && Enabled(s, a) && !a.Run? && !Clears(s, a)
    ensures Templates(Next(s, a))
  {
    if a.PoolRun? {
      PoolRunObjects(s, a.p, a.pe);
      hide PoolNext, Templates, Ready, LocalNext;
      if a.pe.PoolCreateInstance? {
        TemplatesObject(s, Next(s, a), a.pe.i, Some(a.pe.instance));
      } else if a.pe.PoolDeleteInstance? {
        TemplatesDeleted(s, Next(s, a), a.pe.i);
      } else {
        TemplatesSame(s, Next(s, a));
      }
    } else {
      UserTemplates(s, a);
      hide *;
    }
  }

  lemma UserTemplates(s: State, a: Action)
    requires UsedOk(s) && Templates(s) && Enabled(s, a) && !a.Run? && !a.PoolRun? && !Clears(s, a)
    ensures Templates(Next(s, a))
  {
    hide Ready, LocalNext, PoolReady, PoolNext, Templates, View, TemplateOk;
    var s' := Next(s, a);
    match a
    case CreateInstance(i, x) => TemplatesObject(s, s', i, Some(x));
    case EditInstance(i) => TemplatesEdited(s, s', i, s.objs[i].templated);
    case EditTemplate(i, templated) => TemplatesEdited(s, s', i, templated);
    case DeleteInstance(i) => TemplatesDeleted(s, s', i);
    case Begin(i) => TemplatesBegun(s, i);
    case _ => TemplatesSame(s, s');
  }

  /** An object that is new, or changes without losing what the predicate asks for. */
  lemma TemplatesObject(s: State, s': State, i: InstanceID, x: Option<Instance>)
    requires Templates(s) && SameInstances(s, s') && s'.objs == Put(s.objs, i, x)
    requires TemplateOk(View(s, i).(obj := x)) || (UsedOk(s) && i !in s.used)
    ensures Templates(s')
  {
    forall j
      ensures TemplateOk(View(s', j))
    {
      assert TemplateOk(View(s, j));
    }
  }

  lemma TemplatesSame(s: State, s': State)
    requires Templates(s) && SameInstances(s, s') && s'.objs == s.objs
    ensures Templates(s')
  {
    forall j
      ensures TemplateOk(View(s', j))
    {
      assert View(s', j) == View(s, j);
    }
  }

  lemma TemplatesEdited(s: State, s': State, i: InstanceID, templated: bool)
    requires Templates(s) && SameInstances(s, s') && i in s.objs
    requires s'.objs == s.objs[i := s.objs[i].(templated := templated, version := s.objs[i].version + 1)]
    requires templated || templated == s.objs[i].templated || !Clears(s, EditTemplate(i, false))
    ensures Templates(s')
  {
    assert TemplateOk(View(s, i));
    TemplatesObject(s, s', i, Some(s'.objs[i]));
  }

  lemma TemplatesDeleted(s: State, s': State, i: InstanceID)
    requires Templates(s) && SameInstances(s, s') && i in s.objs && s'.objs == Delete(s, i).objs
    ensures Templates(s')
  {
    assert TemplateOk(View(s, i));
    TemplatesObject(s, s', i, Stored(s.objs[i].(deleting := true)));
  }

  lemma TemplatesBegun(s: State, i: InstanceID)
    requires Templates(s) && Enabled(s, Begin(i))
    ensures Templates(Next(s, Begin(i)))
  {
    forall j
      ensures TemplateOk(View(Next(s, Begin(i)), j))
    {
      assert TemplateOk(View(s, j));
    }
  }

  lemma StepTemplates(s: State, a: Action)
    requires Inv(s) && Templates(s) && Enabled(s, a) && !Clears(s, a)
    ensures Templates(Next(s, a)) && !Abandons(s, a)
  {
    if a.Run? {
      RunTemplates(s, a.i, a.e);
      hide *;
    } else {
      OtherTemplates(s, a);
      hide Inv, Next, Enabled;
    }
  }

  lemma RunTemplates(s: State, i: InstanceID, e: Event)
    requires Inv(s) && Templates(s) && Enabled(s, Run(i, e))
    ensures Templates(Next(s, Run(i, e))) && !Abandons(s, Run(i, e))
  {
    hide Inv, Ready, LocalNext, LocalOk;
    InFlight(s, i, e);
    LocalHolds(s, i);
    assert TemplateOk(View(s, i));
    LocalTemplate(i, View(s, i), e);
    TemplatesBack(s, i, LocalNext(i, View(s, i), e));
    if e.DropManagementFinalizer? && Owes(s, i) {
      CleanedHasReported(i, View(s, i), e);
    }
  }

  lemma CleanedHasReported(i: InstanceID, l: Local, e: Event)
    requires LocalOk(i, l) && Ready(l, e) && e.DropManagementFinalizer? && TemplateOk(l)
    ensures !(l.provisioned && !l.deprovisioned)
  {
  }

  /** A run on which no template is cleared while it matters keeps every pair. */
  lemma {:induction false} UnclearedRunsAreKept(states: seq<State>, actions: seq<Action>, k: nat)
    requires IsRun(states, actions) && k < |states|
    requires forall m :: 0 <= m < |actions| ==> !Clears(states[m], actions[m])
    ensures Templates(states[k])
    ensures k < |actions| ==> !Abandons(states[k], actions[k])
  {
    hide Inv, Next, Enabled, Clears, Abandons;
    if k == 0 {
      NoTemplatesYet(states[0]);
    } else {
      UnclearedRunsAreKept(states, actions, k - 1);
      RunsKeepInv(states, actions, k - 1);
      assert Steps(states[k - 1], actions[k - 1], states[k - 1 + 1]);
      StepTemplates(states[k - 1], actions[k - 1]);
    }
    if k < |actions| {
      RunsKeepInv(states, actions, k);
      assert Steps(states[k], actions[k], states[k + 1]);
      StepTemplates(states[k], actions[k]);
    }
  }

  lemma NoTemplatesYet(s: State)
    requires Init(s)
    ensures Templates(s)
  {
  }

  /**
   And clearing it is enough to break one: from every state between passes with all pairs kept, in
   which i owes deprovisioning and is not being deleted, clearing the template, deleting the instance
   and one undisturbed pass leave i gone, its host free, and deprovisioning still owed.
   */
  lemma ClearingBreaks(s: State, i: InstanceID) returns (acts: seq<Action>, s': State)
    requires Inv(s) && s.passes == map[] && Paired(s) && Owes(s, i) && !s.objs[i].deleting
    ensures Clears(s, EditTemplate(i, false))
    ensures Performs(s, [EditTemplate(i, false), DeleteInstance(i)] + acts, s') && Steady(acts, i)
    ensures i !in s'.objs && s.objs[i].host.Some? && s.objs[i].host.value !in s'.owner && Owes(s', i)
  {
    var s1, s2 := ClearedAndDeleted(s, i);
    NothingIsLocked(s2);
    hide Inv, Performs;
    acts, s' := ReleasePass(s2, i);
    PerformsConcat(s, [EditTemplate(i, false), DeleteInstance(i)], s2, acts, s');
  }

  lemma ClearedAndDeleted(s: State, i: InstanceID) returns (s1: State, s2: State)
    requires Inv(s) && s.passes == map[] && Paired(s) && Owes(s, i) && !s.objs[i].deleting
    ensures Performs(s, [EditTemplate(i, false), DeleteInstance(i)], s2) && Inv(s2)
    ensures s2 == s.(objs := s2.objs) && i in s2.objs && s2.objs[i].deleting && !s2.objs[i].templated
    ensures s2.objs[i].host == s.objs[i].host && s.objs[i].host.Some?
  {
    var a, b := EditTemplate(i, false), DeleteInstance(i);
    HasHost(s, i);
    s1 := s.(objs := s.objs[i := s.objs[i].(templated := false, version := s.objs[i].version + 1)]);
    s2 := Delete(s1, i);
    assert Enabled(s, a) && Next(s, a) == s1 && Enabled(s1, b) && Next(s1, b) == s2;
    hide Enabled, Next, Inv;
    StepInv(s, a);
    StepInv(s1, b);
    assert [a, b][1..] == [b] && [b][1..] == [];
    assert Performs(s2, [], s2);
    assert Performs(s1, [b], s2);
  }

  lemma HasHost(s: State, i: InstanceID)
    requires Inv(s) && i in s.objs && s.objs[i].managementFinalizer
    ensures s.objs[i].host.Some? && s.objs[i].inventoryFinalizer
  {
    LocalHolds(s, i);
  }

  lemma NothingIsLocked(s: State)
    requires Inv(s) && s.passes == map[]
    ensures s.locked == {}
  {
    assert forall i, h :: !Holds(s, i, h);
  }
}
