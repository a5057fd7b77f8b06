/**
 Every schedule of a teardown.  An error-free deletion pass that does not merely wait for a lock
 removes its instance, so in any interleaving only so many of them can be completed, and nothing is
 left to mark or remove exactly when no instance of the pool is left.
 */
module TeardownRuns {
  import opened Wrappers
  import opened Fleet
  import opened FleetInvariant
  import opened Lease
  import opened SoloPass
  import opened Allocation
  import opened Teardown

  /** The step is the last of a deletion pass, but for its Unlock, and the pass did not find the host locked. */
  ghost predicate EndsDeletionPass(s: State, a: Action) {
    a.Run? && Enabled(s, a) && a.i in s.passes && s.passes[a.i].copy.deleting && EndsPassOf(s, a, a.i) && !a.e.LockBusy?
  }

  ghost predicate EndsPassOf(s: State, a: Action, i: InstanceID)
    requires Enabled(s, a) && i in s.passes
  {
    s.passes[i].at != Returning && (i !in Next(s, a).passes || Next(s, a).passes[i].at == Returning)
  }

  lemma LocalDeletionEnds(i: InstanceID, l: Local, e: Event)
    requires LocalOk(i, l) && Ready(l, e) && Smooth(Run(i, e)) && l.pass.value.copy.deleting && l.pass.value.at != Returning
    requires var q := LocalNext(i, l, e).pass; q == None || q.value.at == Returning
    ensures e.LockBusy? || (e == DropInventoryFinalizer(Confirmed) && LocalNext(i, l, e).obj == None)
  {
    if DeletionEvent(e) {
      LocalDeletionEndsLate(i, l, e);
      hide *;
    } else {
      LocalDeletionEndsEarly(i, l, e);
      hide *;
    }
  }

  lemma LocalDeletionEndsLate(i: InstanceID, l: Local, e: Event)
    requires LocalOk(i, l) && Ready(l, e) && Smooth(Run(i, e)) && l.pass.value.copy.deleting && DeletionEvent(e)
    requires var q := LocalNext(i, l, e).pass; q == None || q.value.at == Returning
    ensures e == DropInventoryFinalizer(Confirmed) && LocalNext(i, l, e).obj == None
  {
    if e.DropInventoryFinalizer? {
      LocalRemoves(i, l);
      hide *;
    } else {
      hide LocalOk;
    }
  }

  lemma LocalRemoves(i: InstanceID, l: Local)
    requires LocalOk(i, l) && Ready(l, DropInventoryFinalizer(Confirmed)) && l.pass.value.copy.deleting
    ensures LocalNext(i, l, DropInventoryFinalizer(Confirmed)).obj == None
  {
  }

  lemma LocalDeletionEndsEarly(i: InstanceID, l: Local, e: Event)
    requires LocalOk(i, l) && Ready(l, e) && Smooth(Run(i, e)) && l.pass.value.copy.deleting && !DeletionEvent(e)
    requires l.pass.value.at != Returning
    ensures e.LockBusy?
  {
  }

  /** An error-free deletion pass is over only after it found the host locked or removed the instance. */
  lemma DeletionPassRemoves(s: State, i: InstanceID, e: Event)
    requires Inv(s) && Enabled(s, Run(i, e)) && Smooth(Run(i, e)) && i in s.passes && s.passes[i].copy.deleting
    requires EndsPassOf(s, Run(i, e), i)
    ensures e.LockBusy? || (TeardownWrite(Run(i, e)) && i in s.objs && i !in Next(s, Run(i, e)).objs)
  {
    hide Inv, Ready, LocalNext, LocalOk;
    LocalHolds(s, i);
    LocalDeletionEnds(i, View(s, i), e);
    if e == DropInventoryFinalizer(Confirmed) {
      WritesExisting(i, View(s, i), e);
    }
  }

  lemma WritesExisting(i: InstanceID, l: Local, e: Event)
    requires Ready(l, e) && e == DropInventoryFinalizer(Confirmed)
    ensures l.obj.Some?
  {
  }

  /** The error-free ends of deletion passes of the given instances, those at a busy lock left out. */
  ghost function CompletedDeletions(s: State, acts: seq<Action>, ids: set<InstanceID>): nat
    decreases |acts|
  {
    if acts == [] || !Enabled(s, acts[0]) then 0
    else (if EndsDeletionPass(s, acts[0]) && Smooth(acts[0]) && acts[0].i in ids then 1 else 0)
         + CompletedDeletions(Next(s, acts[0]), acts[1..], ids)
  }

  /**
   However passes interleave, whatever fails or still has to be waited for in any of them, and whatever
   users, pools and other instances do, the deletion passes that come to their end are bounded by the
   marks, finalizers and objects there were.
   */
  lemma {:induction false} DeletionPassesBounded(s: State, acts: seq<Action>, s': State, ids: set<InstanceID>)
    requires Inv(s) && Performs(s, acts, s') && ids <= s.used
    ensures CompletedDeletions(s, acts, ids) + Work(s', ids) <= Work(s, ids)
    decreases |acts|
  {
    hide Inv, Enabled, Next, Work, EndsDeletionPass, TeardownWrite, Smooth;
    if acts != [] {
      StepWork(s, acts[0], ids);
      StepWorks(s, acts[0], ids);
      StepInv(s, acts[0]);
      CompletedCounts(s, acts[0], ids);
      DeletionPassesBounded(Next(s, acts[0]), acts[1..], s', ids);
    }
  }

  lemma CompletedCounts(s: State, a: Action, ids: set<InstanceID>)
    requires Inv(s) && Enabled(s, a)
    ensures EndsDeletionPass(s, a) && Smooth(a) && a.i in ids ==> TeardownWrite(a) && Target(a) == a.i
  {
    if EndsDeletionPass(s, a) && Smooth(a) && a.i in ids {
      DeletionPassRemoves(s, a.i, a.e);
    }
    hide Inv, Enabled, Next;
  }

  // ---------------------------------------------------------------- quiescence

  /** Some step of the fragment marks or removes an instance of p. */
  ghost predicate Touches(s: State, acts: seq<Action>, p: PoolID)
    decreases |acts|
  {
    acts != [] && Enabled(s, acts[0])
    && ((TeardownWrite(acts[0]) && Target(acts[0]) in Labelled(s, p)) || Touches(Next(s, acts[0]), acts[1..], p))
  }

  ghost predicate Untouched(s: State, p: PoolID) {
    forall acts, s' :: Performs(s, acts, s') && AllErrorFree(acts) ==> !Touches(s, acts, p)
  }

  lemma {:induction false} NothingToTouch(s: State, acts: seq<Action>, p: PoolID)
    requires Inv(s) && Closing(s, p) && Labelled(s, p) == {}
    ensures !Touches(s, acts, p)
    decreases |acts|
  {
    hide Inv, Enabled, Next, Closing, TeardownWrite;
    if acts != [] && Enabled(s, acts[0]) {
      StepClosing(s, acts[0], p);
      StepInv(s, acts[0]);
      NothingToTouch(Next(s, acts[0]), acts[1..], p);
    }
  }

  /** An object goes away by a teardown write only, and keeps its pool. */
  lemma RemovalIsWrite(s: State, a: Action, i: InstanceID)
    requires Inv(s) && Enabled(s, a) && i in s.objs && !(TeardownWrite(a) && Target(a) == i)
    ensures i in Next(s, a).objs && Next(s, a).objs[i].pool == s.objs[i].pool
  {
    if a.Run? {
      RunKeeps(s, a.i, a.e, i);
      hide *;
    } else if a.PoolRun? {
      PoolRunObjects(s, a.p, a.pe);
      hide Inv, PoolNext, Ready, LocalNext;
      assert UsedOk(s) by { UsedHolds(s); }
    } else {
      UsedHolds(s);
      hide Inv, Ready, LocalNext, PoolReady, PoolNext;
    }
  }

  lemma UsedHolds(s: State)
    requires Inv(s)
    ensures UsedOk(s)
  {
  }

  lemma RunKeeps(s: State, j: InstanceID, e: Event, i: InstanceID)
    requires Inv(s) && Enabled(s, Run(j, e)) && i in s.objs && !(TeardownWrite(Run(j, e)) && j == i)
    ensures i in Next(s, Run(j, e)).objs && Next(s, Run(j, e)).objs[i].pool == s.objs[i].pool
  {
    hide Inv, Ready, LocalNext, LocalOk;
    InFlight(s, j, e);
    if j == i {
      LocalHolds(s, i);
      Backed(s, i);
      LocalStep(i, View(s, i), e);
      LocalKeeps(i, View(s, i), e);
    }
  }

  lemma LocalKeeps(i: InstanceID, l: Local, e: Event)
    requires LocalOk(i, l) && Ready(l, e) && l.obj.Some? && !TeardownWrite(Run(i, e))
    ensures LocalNext(i, l, e).obj.Some?
  {
    if DeletionEvent(e) {
      LocalKeepsLate(i, l, e);
      hide *;
    } else {
      LocalKeepsEarly(i, l, e);
      hide *;
    }
  }

  lemma LocalKeepsLate(i: InstanceID, l: Local, e: Event)
    requires Ready(l, e) && l.obj.Some? && !TeardownWrite(Run(i, e)) && DeletionEvent(e)
    ensures LocalNext(i, l, e).obj.Some?
  {
  }

  lemma LocalKeepsEarly(i: InstanceID, l: Local, e: Event)
    requires LocalOk(i, l) && Ready(l, e) && l.obj.Some? && !DeletionEvent(e)
    ensures LocalNext(i, l, e).obj.Some?
  {
    if Silent(e) || e.Claim? {
      hide LocalOk;
    } else {
      LocalKeepsWrite(i, l, e);
      hide *;
    }
  }

  lemma LocalKeepsWrite(i: InstanceID, l: Local, e: Event)
    requires LocalOk(i, l) && Ready(l, e) && l.obj.Some? && !DeletionEvent(e) && !Silent(e) && !e.Claim?
    ensures LocalNext(i, l, e).obj.Some?
  {
    hide StageOk;
  }

  lemma {:induction false} UntouchedStays(s: State, acts: seq<Action>, s': State, p: PoolID)
    requires Inv(s) && Performs(s, acts, s') && !Touches(s, acts, p)
    ensures Labelled(s, p) <= Labelled(s', p)
    decreases |acts|
  {
    hide Inv, Enabled, Next, TeardownWrite;
    if acts != [] {
      forall i | i in Labelled(s, p)
        ensures i in Labelled(Next(s, acts[0]), p)
      {
        RemovalIsWrite(s, acts[0], i);
      }
      StepInv(s, acts[0]);
      UntouchedStays(Next(s, acts[0]), acts[1..], s', p);
    }
  }

  /**
   Between passes, no error-free fragment marks or removes anything of a pool that is being deleted
   exactly when the pool has no instance left; and then no fragment does, whatever fails in it.
   */
  lemma UntouchedIffEmpty(s: State, p: PoolID)
    requires Inv(s) && s.passes == map[] && s.poolPasses == map[] && p in s.pools && s.pools[p].deleting
    ensures Untouched(s, p) <==> Labelled(s, p) == {}
    ensures Labelled(s, p) == {} ==> forall acts :: !Touches(s, acts, p)
  {
    assert Closing(s, p);
    hide Inv, Performs, ErrorFree, Touches, Labelled;
    if Labelled(s, p) == {} {
      forall acts
        ensures !Touches(s, acts, p)
      {
        NothingToTouch(s, acts, p);
      }
    } else {
      var acts, s' := TeardownCompletes(s, p);
      if !Touches(s, acts, p) {
        UntouchedStays(s, acts, s', p);
      }
    }
  }
}
