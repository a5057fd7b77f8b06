/**
 Exclusive leases.  A fulfilled instance that is not being deleted leases its host.  Nothing
 in `UnassignHost` says on whose behalf it is called, so the lease property does not hold on
 every run; the lemmas below say on exactly which runs it does.
 */
module Lease {
  import opened Wrappers
  import opened Fleet
  import opened FleetInvariant

  ghost predicate Leases(s: State, j: InstanceID) {
    j in s.objs && !s.objs[j].deleting && s.objs[j].fulfilled
  }

  /** j is the recorded owner of the host it names. */
  ghost predicate Served(s: State, j: InstanceID) {
    j in s.objs && s.objs[j].host.Some? && Lookup(s.owner, s.objs[j].host.value) == Some(j)
  }

  ghost predicate LeasesHold(s: State) {
    forall j :: Leases(s, j) ==> Served(s, j)
  }

  /** The write of UnassignHost, issued by i, is about to reach a record that has an owner. */
  ghost predicate Releases(s: State, a: Action) {
    a.Run? && a.e.Unassign? && a.e.o != Failed && Enabled(s, a)
    && HostOf(s, a.i).Some? && HostOf(s, a.i).value in s.owner
  }

  /** It reaches the record of a host that another instance leases. */
  ghost predicate StrayRelease(s: State, a: Action) {
    Releases(s, a) && s.owner[HostOf(s, a.i).value] != a.i && Leases(s, s.owner[HostOf(s, a.i).value])
  }

  /** The guard UnassignHost could apply if it were told the caller: unowned, or owned by the caller. */
  ghost predicate ReleasesOwnOnly(s: State, a: Action) {
    Releases(s, a) ==> s.owner[HostOf(s, a.i).value] == a.i
  }

  /** Only UnassignHost's write frees an owned record. */
  lemma LocalRelease(i: InstanceID, l: Local, e: Event)
    requires LocalOk(i, l) && Ready(l, e) && l.owner.Some?
    ensures LocalNext(i, l, e).owner == None <==> e.Unassign? && e.o != Failed
  {
    if e.Unassign? {
      ReleaseFrees(i, l, e);
      hide *;
    } else {
      hide LocalOk;
    }
  }

  lemma ReleaseFrees(i: InstanceID, l: Local, e: Event)
    requires LocalOk(i, l) && Ready(l, e) && e.Unassign? && l.owner.Some?
    ensures LocalNext(i, l, e).owner == None <==> e.o != Failed
  {
  }

  /** What a step may do to an instance that leases its host afterwards. */
  ghost predicate LeaseEffect(i: InstanceID, l: Local, l': Local)
    requires l.pass.Some?
  {
    l'.obj.Some? && l'.obj.value.fulfilled && !l'.obj.value.deleting ==>
      && l'.owner == l.owner
      && (|| (l.owner == Some(i) && l'.obj.value.host == l.pass.value.copy.host)
          || (l.obj.Some? && l.obj.value.fulfilled && !l.obj.value.deleting && l'.obj.value.host == l.obj.value.host))
  }

  /** An instance comes to lease its host by the write that follows its own claim, or did so before. */
  lemma LocalLease(i: InstanceID, l: Local, e: Event)
    requires LocalOk(i, l) && Ready(l, e)
    ensures LeaseEffect(i, l, LocalNext(i, l, e))
  {
    hide LocalOk, Ready, LocalNext, LeaseEffect;
    if e.Claim? || e.Unassign? {
      LeaseUntouched(i, l, e);
    } else if e.StoreClass? {
      LeaseBegins(i, l, e);
    } else if e.AddInventoryFinalizer? || e.AddManagementFinalizer? {
      LeaseFinalized(i, l, e);
    } else if e.StoreHost? || e.ClearHost? {
      NoLeaseYet(i, l, e);
    } else if e.DropManagementFinalizer? || e.DropInventoryFinalizer? {
      LeaseOver(i, l, e);
    } else {
      NoLeaseWrite(i, l, e);
    }
  }

  /** A claim or a release writes no object. */
  lemma LeaseUntouched(i: InstanceID, l: Local, e: Event)
    requires LocalOk(i, l) && Ready(l, e) && (e.Claim? || e.Unassign?)
    ensures LeaseEffect(i, l, LocalNext(i, l, e))
  {
  }

  /** HostClass is stored by the recorded owner. */
  lemma LeaseBegins(i: InstanceID, l: Local, e: Event)
    requires LocalOk(i, l) && Ready(l, e) && e.StoreClass?
    ensures LeaseEffect(i, l, LocalNext(i, l, e))
  {
  }

  /** A finalizer changes neither host nor class. */
  lemma LeaseFinalized(i: InstanceID, l: Local, e: Event)
    requires LocalOk(i, l) && Ready(l, e) && (e.AddInventoryFinalizer? || e.AddManagementFinalizer?)
    ensures LeaseEffect(i, l, LocalNext(i, l, e))
  {
  }

  /** Only an unfulfilled instance changes its host. */
  lemma NoLeaseYet(i: InstanceID, l: Local, e: Event)
    requires LocalOk(i, l) && Ready(l, e) && (e.StoreHost? || e.ClearHost?)
    ensures LeaseEffect(i, l, LocalNext(i, l, e))
  {
  }

  /** An instance being deleted leases nothing. */
  lemma LeaseOver(i: InstanceID, l: Local, e: Event)
    requires LocalOk(i, l) && Ready(l, e) && (e.DropManagementFinalizer? || e.DropInventoryFinalizer?)
    ensures LeaseEffect(i, l, LocalNext(i, l, e))
  {
  }

  predicate Silent(e: Event) {
    e.Quit? || e.FindHost? || e.FindNothing? || e.LockForAssign? || e.LockBusy? || e.ReadForAssign? || e.Provision?
    || e.Manage? || e.Deprovision? || e.SkipDeprovision? || e.SkipManagement? || e.LockForRelease? || e.SkipRelease?
    || e.ReadForRelease? || e.Unlock?
  }

  /** The other steps write neither object nor record. */
  lemma NoLeaseWrite(i: InstanceID, l: Local, e: Event)
    requires LocalOk(i, l) && Ready(l, e) && Silent(e)
    ensures LeaseEffect(i, l, LocalNext(i, l, e))
  {
  }

  /** A pass of i keeps i's own lease. */
  lemma OwnLease(s: State, i: InstanceID, e: Event)
    requires Inv(s) && LeasesHold(s) && Enabled(s, Run(i, e)) && Leases(Next(s, Run(i, e)), i)
    ensures Served(Next(s, Run(i, e)), i)
  {
    assert LocalOk(i, View(s, i));
    LocalLease(i, View(s, i), e);
    OwnLeaseBack(s, i, LocalNext(i, View(s, i), e));
  }

  lemma OwnLeaseBack(s: State, i: InstanceID, l': Local)
    requires LeasesHold(s) && i in s.passes && LeaseEffect(i, View(s, i), l') && Leases(WriteBack(s, i, l'), i)
    requires HostOf(s, i) == None ==> l'.owner == None
    ensures Served(WriteBack(s, i, l'), i)
  {
    if Leases(s, i) {
      assert Served(s, i);
    }
  }

  /** A pass of i ends the lease of j exactly by writing the record of j's host as free. */
  lemma OtherLease(s: State, i: InstanceID, e: Event, j: InstanceID)
    requires Inv(s) && Enabled(s, Run(i, e)) && j != i && Leases(s, j) && Served(s, j)
    ensures Leases(Next(s, Run(i, e)), j)
    ensures Served(Next(s, Run(i, e)), j) <==> !(StrayRelease(s, Run(i, e)) && s.owner[HostOf(s, i).value] == j)
  {
    hide Inv, LocalNext, LocalOk, Ready;
    var l := View(s, i);
    LocalHolds(s, i);
    LocalStepFacts(s, i, e);
    OtherLeaseBack(s, i, LocalNext(i, l, e), j);
    if HostOf(s, i) == s.objs[j].host {
      LocalRelease(i, l, e);
    } else if HostOf(s, i).Some? && HostOf(s, i).value in s.owner {
      OwnerNames(s, HostOf(s, i).value);
    }
  }

  lemma OwnerNames(s: State, h: HostID)
    requires Inv(s) && h in s.owner
    ensures s.owner[h] in s.objs && s.objs[s.owner[h]].host == Some(h)
  {
  }

  lemma LocalHolds(s: State, i: InstanceID)
    requires Inv(s)
    ensures LocalOk(i, View(s, i))
  {
  }

  lemma OtherLeaseBack(s: State, i: InstanceID, l': Local, j: InstanceID)
    requires i in s.passes && j != i && Leases(s, j) && Served(s, j) && RecordEffect(i, View(s, i), l')
    ensures Leases(WriteBack(s, i, l'), j)
    ensures Served(WriteBack(s, i, l'), j) <==> (HostOf(s, i) == s.objs[j].host ==> l'.owner != None)
  {
  }

  lemma LocalStepFacts(s: State, i: InstanceID, e: Event)
    requires Inv(s) && Enabled(s, Run(i, e))
    ensures i in s.passes && RecordEffect(i, View(s, i), LocalNext(i, View(s, i), e))
  {
    InFlight(s, i, e);
    hide Inv, LocalNext, LocalOk, Ready;
    LocalHolds(s, i);
    Backed(s, i);
    LocalStep(i, View(s, i), e);
  }

  lemma InFlight(s: State, i: InstanceID, e: Event)
    requires Enabled(s, Run(i, e))
    ensures i in s.passes
  {
  }

  lemma Backed(s: State, i: InstanceID)
    requires Inv(s)
    ensures BackedOk(i, View(s, i))
  {
  }

  lemma RunLeases(s: State, i: InstanceID, e: Event)
    requires Inv(s) && LeasesHold(s) && Enabled(s, Run(i, e))
    ensures LeasesHold(Next(s, Run(i, e))) <==> !StrayRelease(s, Run(i, e))
  {
    var s' := Next(s, Run(i, e));
    forall j | Leases(s', j) && !StrayRelease(s, Run(i, e))
      ensures Served(s', j)
    {
      if j == i {
        OwnLease(s, i, e);
      } else {
        assert Leases(s, j) && Served(s, j);
        OtherLease(s, i, e, j);
      }
    }
    if StrayRelease(s, Run(i, e)) {
      var j := s.owner[HostOf(s, i).value];
      assert Leases(s, j) && Served(s, j);
      OtherLease(s, i, e, j);
    }
  }

  /** One step keeps every lease exactly when it is not a stray release. */
  lemma StepLeases(s: State, a: Action)
    requires Inv(s) && LeasesHold(s) && Enabled(s, a)
    ensures LeasesHold(Next(s, a)) <==> !StrayRelease(s, a)
  {
    if a.Run? {
      RunLeases(s, a.i, a.e);
    } else {
      var s' := Next(s, a);
      OtherActions(s, a);
      forall j | Leases(s', j)
        ensures Served(s', j)
      {
        assert Leases(s, j) && Served(s, j);
      }
    }
  }

  /** Users and pools write no record and fulfil no instance. */
  lemma OtherActions(s: State, a: Action)
    requires Enabled(s, a) && !a.Run?
    ensures Next(s, a).owner == s.owner
    ensures forall j :: Leases(Next(s, a), j) ==> Leases(s, j) && Next(s, a).objs[j].host == s.objs[j].host
  {
    if a.PoolRun? {
      PoolActions(s, a.p, a.pe);
      hide *;
    } else {
      UserActions(s, a);
      hide *;
    }
  }

  lemma UserActions(s: State, a: Action)
    requires Enabled(s, a) && !a.Run? && !a.PoolRun?
    ensures Next(s, a).owner == s.owner
    ensures forall j :: Leases(Next(s, a), j) ==> Leases(s, j) && Next(s, a).objs[j].host == s.objs[j].host
  {
    hide Ready, LocalNext, PoolNext, PoolReady;
  }

  lemma PoolActions(s: State, p: PoolID, pe: PoolEvent)
    requires PoolReady(s, p, pe)
    ensures PoolNext(s, p, pe).owner == s.owner
    ensures var s' := PoolNext(s, p, pe); forall j :: Leases(s', j) ==> Leases(s, j) && s'.objs[j].host == s.objs[j].host
  {
  }

  /**
   On every run: each fulfilled instance that is not being deleted is the recorded owner of its
   host in all states, if and only if no step of the run is a stray release.
   */
  lemma LeasesHoldIff(states: seq<State>, actions: seq<Action>)
    requires IsRun(states, actions)
    ensures (forall k :: 0 <= k < |states| ==> LeasesHold(states[k]))
       <==> (forall k :: 0 <= k < |actions| ==> !StrayRelease(states[k], actions[k]))
  {
    if forall k :: 0 <= k < |actions| ==> !StrayRelease(states[k], actions[k]) {
      forall k | 0 <= k < |states|
        ensures LeasesHold(states[k])
      {
        LeasesHoldUpTo(states, actions, k);
      }
    }
    if forall k :: 0 <= k < |states| ==> LeasesHold(states[k]) {
      forall k | 0 <= k < |actions|
        ensures !StrayRelease(states[k], actions[k])
      {
        RunsKeepInv(states, actions, k);
        assert Steps(states[k], actions[k], states[k + 1]);
        StepLeases(states[k], actions[k]);
      }
    }
  }

  lemma {:induction false} LeasesHoldUpTo(states: seq<State>, actions: seq<Action>, k: nat)
    requires IsRun(states, actions) && k < |states|
    requires forall m :: 0 <= m < k ==> !StrayRelease(states[m], actions[m])
    ensures LeasesHold(states[k])
  {
    if k > 0 {
      LeasesHoldUpTo(states, actions, k - 1);
      RunsKeepInv(states, actions, k - 1);
      assert Steps(states[k - 1], actions[k - 1], states[k - 1 + 1]);
      StepLeases(states[k - 1], actions[k - 1]);
    }
  }

  /** While leases hold, no two instances lease the same host. */
  lemma NoSharing(s: State, i: InstanceID, j: InstanceID)
    requires LeasesHold(s) && Leases(s, i) && Leases(s, j)
    requires s.objs[i].host == s.objs[j].host
    ensures i == j
  {
  }

  /** With the caller's guard on every release, leases are exclusive in every reachable state. */
  lemma GuardedRunsAreExclusive(states: seq<State>, actions: seq<Action>, k: nat, i: InstanceID, j: InstanceID)
    requires IsRun(states, actions) && k < |states|
    requires forall m :: 0 <= m < |actions| ==> ReleasesOwnOnly(states[m], actions[m])
    requires Leases(states[k], i) && Leases(states[k], j) && states[k].objs[i].host == states[k].objs[j].host
    ensures i == j
  {
    LeasesHoldIff(states, actions);
    NoSharing(states[k], i, j);
  }

  // ---------------------------------------------------------------- no premise needed

  /**
   In every reachable state, whatever was deleted and whichever writes failed, a recorded owner
   exists, holds the inventory finalizer and names exactly this host.
   */
  lemma ClaimsAreBacked(states: seq<State>, actions: seq<Action>, k: nat, h: HostID)
    requires IsRun(states, actions) && k < |states| && h in states[k].owner
    ensures var s, i := states[k], states[k].owner[h];
      i in s.objs && s.objs[i].inventoryFinalizer && s.objs[i].host == Some(h)
  {
    RunsKeepInv(states, actions, k);
  }

  /** An instance never owns two hosts. */
  lemma OneHostEach(states: seq<State>, actions: seq<Action>, k: nat, g: HostID, h: HostID)
    requires IsRun(states, actions) && k < |states|
    requires g in states[k].owner && h in states[k].owner && states[k].owner[g] == states[k].owner[h]
    ensures g == h
  {
    ClaimsAreBacked(states, actions, k, g);
    ClaimsAreBacked(states, actions, k, h);
  }

  /** In every reachable state a host is locked iff exactly one pass in flight has its Unlock pending. */
  lemma LockedIffHeld(states: seq<State>, actions: seq<Action>, k: nat, h: HostID)
    requires IsRun(states, actions) && k < |states|
    ensures h in states[k].locked <==> exists i :: Holds(states[k], i, h)
    ensures forall i, j :: Holds(states[k], i, h) && Holds(states[k], j, h) ==> i == j
  {
    RunsKeepInv(states, actions, k);
  }

  ghost predicate Unheld(s: State, h: HostID) {
    forall i :: !Holds(s, i, h)
  }

  /** A deferred Unlock always finds its host locked. */
  lemma UnlockFindsLock(states: seq<State>, actions: seq<Action>, k: nat)
    requires IsRun(states, actions) && k < |actions| && actions[k].Run? && actions[k].e.Unlock?
    ensures HostOf(states[k], actions[k].i).Some? && HostOf(states[k], actions[k].i).value in states[k].locked
    ensures Unheld(states[k + 1], HostOf(states[k], actions[k].i).value)
    ensures HostOf(states[k], actions[k].i).value !in states[k + 1].locked
  {
    var s, i := states[k], actions[k].i;
    assert Steps(s, actions[k], states[k + 1]);
    RunsKeepInv(states, actions, k);
    RunsKeepInv(states, actions, k + 1);
    assert LocalOk(i, View(s, i));
  }

  /** While a pass of i holds the lock of h, no other actor changes the owner record of h. */
  lemma RecordStable(s: State, a: Action, i: InstanceID, h: HostID)
    requires Inv(s) && Enabled(s, a) && Holds(s, i, h)
    requires a.Run? ==> a.i != i
    ensures Holds(Next(s, a), i, h) && Lookup(Next(s, a).owner, h) == Lookup(s.owner, h)
  {
    if a.Run? {
      RecordStableRun(s, a.i, a.e, i, h);
      hide *;
    } else {
      OtherActions(s, a);
      hide Ready, LocalNext, Inv;
    }
  }

  lemma RecordStableRun(s: State, j: InstanceID, e: Event, i: InstanceID, h: HostID)
    requires Inv(s) && Enabled(s, Run(j, e)) && Holds(s, i, h) && j != i
    ensures Holds(Next(s, Run(j, e)), i, h) && Lookup(Next(s, Run(j, e)).owner, h) == Lookup(s.owner, h)
  {
    hide LocalNext, Ready, LocalOk;
    LocalStepFacts(s, j, e);
    if HostOf(s, j) == Some(h) {
      LockedApart(s, j, i);
    }
    RecordStableBack(s, j, LocalNext(j, View(s, j), e), h);
    hide Inv;
  }

  lemma RecordStableBack(s: State, i: InstanceID, l': Local, h: HostID)
    requires i in s.passes && (HostOf(s, i) == Some(h) ==> l'.owner == View(s, i).owner)
    ensures Lookup(WriteBack(s, i, l').owner, h) == Lookup(s.owner, h)
    ensures forall j :: j != i ==> Holds(WriteBack(s, i, l'), j, h) == Holds(s, j, h)
  {
  }

  /** The record read by AssignHost or UnassignHost is still the record when the same pass writes it. */
  lemma {:induction false} ReadStaysValid(states: seq<State>, actions: seq<Action>, k: nat, m: nat, i: InstanceID, h: HostID)
    requires IsRun(states, actions) && k <= m < |states| && Holds(states[k], i, h)
    requires forall n :: k <= n < m ==> !(actions[n].Run? && actions[n].i == i)
    ensures Holds(states[m], i, h) && Lookup(states[m].owner, h) == Lookup(states[k].owner, h)
    decreases m - k
  {
    if k < m {
      RunsKeepInv(states, actions, k);
      assert Steps(states[k], actions[k], states[k + 1]);
      RecordStable(states[k], actions[k], i, h);
      ReadStaysValid(states, actions, k + 1, m, i, h);
    }
  }
}
