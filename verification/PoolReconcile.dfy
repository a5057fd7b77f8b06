/**
 The pool controller's passes in the form the program gives them, over the same system and the
 same environment as module Reconcile.  Which instances an update pass creates and deletes is
 decided in module PoolScaling; here any choice is allowed.
 */
module PoolReconcile {
  import opened Wrappers
  import opened Fleet
  import opened FleetInvariant
  import opened Allocation
  import opened Lease
  import opened Reconcile
  import opened Teardown
  import opened Passes
  import opened PoolPasses

  lemma PoolPassUntouched(s: State, a: Action, p: PoolID)
    requires Enabled(s, a) && p in s.poolPasses && !(a.PoolRun? && a.p == p)
    ensures p in Next(s, a).poolPasses && Next(s, a).poolPasses[p] == s.poolPasses[p]
  {
    if a.Run? {
      hide Ready, LocalNext;
    } else if a.PoolRun? {
      hide Ready, LocalNext, View, WriteBack;
    } else {
      hide Ready, LocalNext, PoolNext, PoolReady, View, WriteBack;
    }
  }

  /** A write of a pass never takes a deletion mark away. */
  lemma MarkStays(i: InstanceID, l: Local, e: Event)
    requires LocalOk(i, l) && Ready(l, e) && l.obj.Some? && l.obj.value.deleting
    ensures LocalNext(i, l, e).obj.Some? ==> LocalNext(i, l, e).obj.value.deleting
  {
    if DeletionEvent(e) {
      MarkStaysDeletion(i, l, e);
    } else {
      MarkStaysOther(i, l, e);
    }
  }

  lemma MarkStaysDeletion(i: InstanceID, l: Local, e: Event)
    requires LocalOk(i, l) && Ready(l, e) && l.obj.Some? && l.obj.value.deleting && DeletionEvent(e)
    ensures LocalNext(i, l, e).obj.Some? ==> LocalNext(i, l, e).obj.value.deleting
  {
    if e.DropManagementFinalizer? || e.DropInventoryFinalizer? {
      MarkStaysDrop(i, l, e);
      hide *;
    } else {
      hide LocalOk;
    }
  }

  lemma MarkStaysDrop(i: InstanceID, l: Local, e: Event)
    requires LocalOk(i, l) && Ready(l, e) && l.obj.Some? && l.obj.value.deleting
    requires e.DropManagementFinalizer? || e.DropInventoryFinalizer?
    ensures LocalNext(i, l, e).obj.Some? ==> LocalNext(i, l, e).obj.value.deleting
  {
    hide StageOk;
  }

  lemma MarkStaysOther(i: InstanceID, l: Local, e: Event)
    requires LocalOk(i, l) && Ready(l, e) && l.obj.Some? && l.obj.value.deleting && !DeletionEvent(e)
    ensures LocalNext(i, l, e).obj.Some? ==> LocalNext(i, l, e).obj.value.deleting
  {
    if Silent(e) || e.Claim? {
      hide LocalOk;
    } else {
      MarkStaysWrite(i, l, e);
      hide *;
    }
  }

  lemma MarkStaysWrite(i: InstanceID, l: Local, e: Event)
    requires LocalOk(i, l) && Ready(l, e) && l.obj.Some? && l.obj.value.deleting
    requires !DeletionEvent(e) && !Silent(e) && !e.Claim?
    ensures LocalNext(i, l, e).obj.Some? ==> LocalNext(i, l, e).obj.value.deleting
  {
    hide StageOk;
  }

  lemma RunMarks(s: State, i: InstanceID, e: Event, j: InstanceID)
    requires Inv(s) && Enabled(s, Run(i, e)) && j in s.objs && s.objs[j].deleting && j in Next(s, Run(i, e)).objs
    ensures Next(s, Run(i, e)).objs[j].deleting
  {
    if j == i {
      assert LocalOk(i, View(s, i));
      MarkStays(i, View(s, i), e);
    }
    hide Inv, Ready, LocalNext, LocalOk;
  }

  lemma OtherMarks(s: State, a: Action, j: InstanceID)
    requires UsedOk(s) && Enabled(s, a) && !a.Run? && j in s.objs && s.objs[j].deleting && j in Next(s, a).objs
    ensures Next(s, a).objs[j].deleting
  {
    hide Ready, LocalNext;
  }

  /** What a deletion pass relies on: the pool gains no instance and no instance loses its mark. */
  ghost predicate Shrinks(s: State, s': State, p: PoolID) {
    Closing(s, p) ==> Closing(s', p) && Labelled(s', p) <= Labelled(s, p) && Unmarked(s', p) <= Unmarked(s, p)
  }

  lemma StepShrinks(s: State, a: Action, p: PoolID)
    requires Inv(s) && Enabled(s, a)
    ensures Shrinks(s, Next(s, a), p)
  {
    var s' := Next(s, a);
    if Closing(s, p) {
      StepClosing(s, a, p);
      forall j | j in Unmarked(s', p)
        ensures j in Unmarked(s, p)
      {
        assert j in Labelled(s', p);
        if s.objs[j].deleting {
          if a.Run? {
            RunMarks(s, a.i, a.e, j);
          } else {
            OtherMarks(s, a, j);
          }
        }
        hide Inv, Enabled, Next, Closing;
      }
    }
    hide Inv, Enabled, Next, Closing;
  }

  /** The steps of the passes of p among the actions. */
  function PoolOwn(acts: seq<Action>, p: PoolID): seq<PoolEvent>
    decreases |acts|
  {
    if acts == [] then []
    else
      var last := acts[|acts| - 1];
      PoolOwn(acts[..|acts| - 1], p) + (if last.PoolRun? && last.p == p then [last.pe] else [])
  }

  lemma PoolOwnOneMore(acts: seq<Action>, a: Action, p: PoolID)
    ensures PoolOwn(acts + [a], p) == PoolOwn(acts, p) + (if a.PoolRun? && a.p == p then [a.pe] else [])
  {
    assert (acts + [a])[..|acts|] == acts;
  }

  class PoolOperator {
    const op: Operator

    constructor (op: Operator)
      ensures this.op == op
    {
      this.op := op;
    }

    /** The run has gone on with these steps of p. */
    ghost predicate Did(before: seq<Action>, p: PoolID, did: seq<PoolEvent>)
      reads op
    {
      before <= op.actions && PoolOwn(op.actions, p) == PoolOwn(before, p) + did
    }

    ghost predicate Done(before: seq<Action>, heard: seq<Reply>, p: PoolID, d: PoolDeed)
      reads op, op.env
    {
      Did(before, p, d.did) && op.env.heard == heard + d.heard
    }

    /** One step, in a run of the system. */
    method Do(a: Action, ghost p: PoolID)
      requires op.Valid() && Enabled(op.s, a)
      modifies op, op.locks
      ensures op.Valid() && op.s == Next(old(op.s), a)
      ensures Did(old(op.actions), p, if a.PoolRun? && a.p == p then [a.pe] else [])
      ensures Shrinks(old(op.s), op.s, p)
    {
      RunsKeepInv(op.states, op.actions, |op.actions|);
      StepShrinks(op.s, a, p);
      hide Inv, Enabled, Next, Shrinks, PoolOwn;
      PoolOwnOneMore(op.actions, a, p);
      op.Do(a, "");
    }

    /** Any number of steps of users, of instances and of other pools. */
    method Others(p: PoolID)
      requires op.Valid() && p in op.s.poolPasses
      modifies op, op.locks
      ensures op.Valid() && p in op.s.poolPasses && op.s.poolPasses[p] == old(op.s.poolPasses[p])
      ensures Did(old(op.actions), p, []) && Shrinks(old(op.s), op.s, p)
    {
      hide Enabled, Next, Closing, PoolOwn;
      var n: int := *;
      while n > 0
        invariant op.Valid() && p in op.s.poolPasses && op.s.poolPasses[p] == old(op.s.poolPasses[p])
        invariant Did(old(op.actions), p, []) && Shrinks(old(op.s), op.s, p)
      {
        n := n - 1;
        var a: Action := *;
        if Enabled(op.s, a) && !(a.PoolRun? && a.p == p) {
          PoolPassUntouched(op.s, a, p);
          Do(a, p);
        }
      }
    }

    ghost predicate InFlight(p: PoolID, deleting: bool)
      reads op
    {
      p in op.s.poolPasses && op.s.poolPasses[p].copy.deleting == deleting && (deleting ==> op.s.poolPasses[p].copy.finalizer)
    }

    /** A return without a write. */
    method Return(p: PoolID)
      requires op.Valid() && p in op.s.poolPasses
      modifies op, op.locks
      ensures op.Valid() && p !in op.s.poolPasses && Did(old(op.actions), p, [PoolQuit])
      ensures Shrinks(old(op.s), op.s, p) && op.s.pools == old(op.s.pools)
    {
      hide PoolOwn;
      Do(PoolRun(p, PoolQuit), p);
    }

    /**
     Reconcile, in any environment: a pass that module PoolPasses allows.  If no reply and no missing
     provider stands in its way, a deletion pass marks every instance and asks to be run again, or the pool
     is gone; an update pass leaves the finalizer stored.
     */
    method Reconcile(p: PoolID, spec: PoolSpec)
      returns (requeue: bool, ghost d: PoolDeed, ghost listed: set<InstanceID>, ghost unmarked: set<InstanceID>)
      requires op.Valid() && p !in op.s.poolPasses
      modifies op, op.locks, op.env
      ensures op.Valid() && p !in op.s.poolPasses && Done(old(op.actions), old(op.env.heard), p, d)
      ensures p !in old(op.s.pools) ==> d == Idle && op.s == old(op.s) && !requeue
      ensures old(p in op.s.pools && op.s.pools[p].deleting) ==>
                PoolDeletionPass(spec, op.env.provider, listed, unmarked, d, requeue)
                && (requeue ==> Unmarked(op.s, p) == {}) && (PoolDropFinalizer(Confirmed) in d.did ==> p !in op.s.pools)
      ensures old(p in op.s.pools && op.s.pools[p].deleting) && AllGood(d.heard) && (spec.workflow ==> op.env.provider) ==>
                if requeue then Unmarked(op.s, p) == {} else p !in op.s.pools
      ensures old(p in op.s.pools && !op.s.pools[p].deleting) ==>
                PoolUpdatePass(spec, op.env.provider, old(op.s.pools[p].finalizer), d) && !requeue
                && (Usable(spec, op.env.provider) && AllGood(d.heard) ==> p in op.s.pools && op.s.pools[p].finalizer)
    {
      hide Enabled, Next, Closing, Shrinks, PoolOwn, PoolDeletionPass, PoolUpdatePass, AllGood;
      requeue, d, listed, unmarked := false, Idle, {}, {};
      if p !in op.s.pools {
        return;
      }
      var deleting := op.s.pools[p].deleting;
      DeletedWithFinalizer(p);
      Begin(p);
      Others(p);
      if deleting {
        requeue, d, listed, unmarked := HandleDeletion(p, spec);
        if AllGood(d.heard) && (spec.workflow ==> op.env.provider) {
          GoodDeletionDrops(spec, op.env.provider, listed, unmarked, d, requeue);
        }
      } else {
        d := HandleUpdate(p, spec);
      }
    }

    /** Only the finalizer keeps a pool that is being deleted. */
    ghost method DeletedWithFinalizer(p: PoolID)
      requires op.Valid() && p in op.s.pools
      ensures op.s.pools[p].deleting ==> op.s.pools[p].finalizer
    {
      RunsKeepInv(op.states, op.actions, |op.actions|);
    }

    method Begin(p: PoolID)
      requires op.Valid() && p !in op.s.poolPasses && p in op.s.pools
      modifies op, op.locks
      ensures op.Valid() && Did(old(op.actions), p, [])
      ensures p in op.s.poolPasses && op.s.poolPasses[p] == PoolPass(old(op.s.pools[p]), PoolStarted)
    {
      hide PoolOwn;
      Do(PoolBegin(p), p);
    }

    /**
     handleUpdate: the finalizer is stored before the first instance is created, and stays while
     users edit or delete the pool.
     */
    method HandleUpdate(p: PoolID, spec: PoolSpec) returns (ghost d: PoolDeed)
      requires op.Valid() && InFlight(p, false) && op.s.poolPasses[p].at == PoolStarted
      modifies op, op.locks, op.env
      ensures op.Valid() && p !in op.s.poolPasses && Done(old(op.actions), old(op.env.heard), p, d)
      ensures PoolUpdatePass(spec, op.env.provider, old(op.s.poolPasses[p].copy.finalizer), d)
      ensures Usable(spec, op.env.provider) && AllGood(d.heard) ==> p in op.s.pools && op.s.pools[p].finalizer
    {
      hide Closing, Shrinks, IsRun, PoolOwn, Next, Scales, Finalizes;
      if spec.profiled && !op.env.provider {
        Return(p);
        return Returns;
      }
      if !spec.valid {
        Return(p);
        return Returns;
      }
      var ok;
      ok, d := EnsureFinalizer(p);
      if !ok {
        return;
      }
      ghost var did := Scale(p);
      Finalized(p);
      Return(p);
      d := PoolThen(d, Scaled(did));
    }

    /** ensureFinalizer: the pass goes on only with the finalizer stored. */
    method EnsureFinalizer(p: PoolID) returns (ok: bool, ghost d: PoolDeed)
      requires op.Valid() && InFlight(p, false) && op.s.poolPasses[p].at == PoolStarted
      modifies op, op.locks, op.env
      ensures op.Valid() && Done(old(op.actions), old(op.env.heard), p, d)
      ensures Finalizes(old(op.s.poolPasses[p].copy.finalizer), d, ok)
      ensures if ok then p in op.s.poolPasses && op.s.poolPasses[p].at == Scaling
              else p !in op.s.poolPasses && !AllGood(d.heard)
    {
      hide Closing, Shrinks, IsRun, PoolOwn;
      ok := true;
      if !op.s.poolPasses[p].copy.finalizer {
        var o := op.env.Update(AcceptsPool(op.s, p, Confirmed));
        Do(PoolRun(p, PoolAddFinalizer(o)), p);
        ok := o == Confirmed;
        d := PoolDeed([Wrote(o)], [PoolAddFinalizer(o)]);
        assert d.heard[0] == Wrote(o);
      } else {
        Do(PoolRun(p, PoolScale), p);
        d := PoolDeed([], [PoolScale]);
      }
    }

    /** A pass that scales holds the finalizer of its pool. */
    ghost method Finalized(p: PoolID)
      requires op.Valid() && p in op.s.poolPasses && op.s.poolPasses[p].at == Scaling
      ensures p in op.s.pools && op.s.pools[p].finalizer
    {
      RunsKeepInv(op.states, op.actions, |op.actions|);
      assert PoolPassOk(op.s, p, op.s.poolPasses[p]);
    }

    /** The creations and deletions of reconcileBareMetalInstances, up to the first that fails. */
    method Scale(p: PoolID) returns (ghost did: seq<PoolEvent>)
      requires op.Valid() && p in op.s.poolPasses && op.s.poolPasses[p].at == Scaling
      modifies op, op.locks
      ensures op.Valid() && p in op.s.poolPasses && op.s.poolPasses[p].at == Scaling
      ensures Did(old(op.actions), p, did) && Scales(did)
    {
      hide Closing, Shrinks, PoolOwn;
      did := [];
      var n: int := *;
      while n > 0
        invariant op.Valid() && p in op.s.poolPasses && op.s.poolPasses[p].at == Scaling
        invariant Did(old(op.actions), p, did) && Scales(did)
      {
        n := n - 1;
        Others(p);
        var pe: PoolEvent := *;
        if (pe.PoolCreateInstance? || pe.PoolDeleteInstance?) && PoolReady(op.s, p, pe) {
          Do(PoolRun(p, pe), p);
          did := did + [pe];
        }
      }
      Others(p);
    }

    /**
     handleDeletion, with the environment interfering at every call: every instance that was not marked
     when listed is deleted, up to the first error; a pool whose instances are not all gone has to wait, and
     only then come the teardown job and the finalizer.
     */
    method HandleDeletion(p: PoolID, spec: PoolSpec)
      returns (requeue: bool, ghost d: PoolDeed, ghost listed: set<InstanceID>, ghost unmarked: set<InstanceID>)
      requires op.Valid() && InFlight(p, true) && op.s.poolPasses[p].at == PoolStarted
      modifies op, op.locks, op.env
      ensures op.Valid() && p !in op.s.poolPasses && Done(old(op.actions), old(op.env.heard), p, d)
      ensures PoolDeletionPass(spec, op.env.provider, listed, unmarked, d, requeue)
      ensures requeue ==> Unmarked(op.s, p) == {}
      ensures PoolDropFinalizer(Confirmed) in d.did ==> p !in op.s.pools
      ensures old(Labelled(op.s, p)) == {} ==> listed == {}
    {
      hide Closing, Enabled, Next, PoolOwn, Deletes, ConcludesDeletion;
      requeue := false;
      listed, unmarked := {}, {};
      Closes(p);
      Others(p);
      var o, reconnected := op.env.Call();
      ghost var a := PoolDeed([Called(o, reconnected)], [if o == Confirmed then PoolList else PoolQuit]);
      if o != Confirmed {
        Return(p);
        return false, a, listed, unmarked;
      }
      var items, todo := Listing(p);
      listed, unmarked := items, todo;
      ghost var b, c, ok;
      requeue, b, c, ok := TearDown(p, spec, items, todo);
      d := PoolThen(a, PoolThen(b, c));
    }

    /** After the List call. */
    method TearDown(p: PoolID, spec: PoolSpec, listed: set<InstanceID>, unmarked: set<InstanceID>)
      returns (requeue: bool, ghost b: PoolDeed, ghost c: PoolDeed, ghost deleted: bool)
      requires op.Valid() && InFlight(p, true) && op.s.poolPasses[p].at == Tearing(listed)
      requires Closing(op.s, p) && Labelled(op.s, p) <= listed && Unmarked(op.s, p) <= unmarked && unmarked <= listed
      modifies op, op.locks, op.env
      ensures op.Valid() && p !in op.s.poolPasses && Done(old(op.actions), old(op.env.heard), p, PoolThen(b, c))
      ensures Deletes(unmarked, b, deleted) && ConcludesDeletion(spec, op.env.provider, listed, deleted, c, requeue)
      ensures requeue ==> Unmarked(op.s, p) == {}
      ensures PoolDropFinalizer(Confirmed) in PoolThen(b, c).did ==> p !in op.s.pools
    {
      hide Closing, Enabled, Next, PoolOwn, Deletes, TearsDown;
      var ok;
      ok, b := DeleteAll(p, listed, unmarked);
      LoopDropsNothing(unmarked, b, ok);
      deleted := ok;
      if !ok || listed != {} {
        Return(p);
        requeue, c := ok, Returns;
      } else {
        requeue := false;
        c := DropFinalizer(p, spec);
      }
    }

    /** A deletion pass of a pool is only run when the pool is being deleted. */
    ghost method Closes(p: PoolID)
      requires op.Valid() && InFlight(p, true)
      ensures Closing(op.s, p)
    {
      RunsKeepInv(op.states, op.actions, |op.actions|);
      assert PoolPassOk(op.s, p, op.s.poolPasses[p]);
    }

    /** The List call: all instances with the label, and which of them are not terminating yet. */
    method Listing(p: PoolID) returns (listed: set<InstanceID>, unmarked: set<InstanceID>)
      requires op.Valid() && InFlight(p, true) && op.s.poolPasses[p].at == PoolStarted && Closing(op.s, p)
      modifies op, op.locks
      ensures op.Valid() && Did(old(op.actions), p, [PoolList])
      ensures listed == Labelled(op.s, p) == old(Labelled(op.s, p)) && unmarked == Unmarked(op.s, p) && Closing(op.s, p)
      ensures InFlight(p, true) && op.s.poolPasses[p].at == Tearing(listed) && unmarked <= listed
    {
      hide PoolOwn;
      listed := Labelled(op.s, p);
      unmarked := set i | i in listed && !op.s.objs[i].deleting;
      Do(PoolRun(p, PoolList), p);
    }

    /** The loop over the listed instances; those that were already marked need no call. */
    method DeleteAll(p: PoolID, listed: set<InstanceID>, unmarked: set<InstanceID>) returns (ok: bool, ghost d: PoolDeed)
      requires op.Valid() && InFlight(p, true) && op.s.poolPasses[p].at == Tearing(listed)
      requires Closing(op.s, p) && Labelled(op.s, p) <= listed && Unmarked(op.s, p) <= unmarked <= listed
      modifies op, op.locks, op.env
      ensures op.Valid() && InFlight(p, true) && op.s.poolPasses[p].at == Tearing(listed)
      ensures Closing(op.s, p) && Labelled(op.s, p) <= listed
      ensures Done(old(op.actions), old(op.env.heard), p, d) && Deletes(unmarked, d, ok)
      ensures ok ==> Unmarked(op.s, p) == {}
    {
      hide Closing, Enabled, Next, PoolOwn, Deletes, DeletesOne, Labelled, Unmarked, Steps, IsRun;
      var todo := unmarked;
      ok, d := true, Idle;
      NoDeletesYet(unmarked);
      while todo != {} && ok
        invariant todo <= unmarked && Closing(op.s, p) && Labelled(op.s, p) <= listed
        invariant op.Valid() && InFlight(p, true) && op.s.poolPasses[p].at == Tearing(listed)
        invariant Done(old(op.actions), old(op.env.heard), p, d)
        invariant if ok then Deletes(unmarked - todo, d, true) && Unmarked(op.s, p) <= todo else Deletes(unmarked, d, false)
        decreases todo, ok
      {
        var i :| i in todo;
        ghost var e;
        ok, e := DeleteOne(p, listed, i);
        DeletesOneMore(unmarked, todo, i, d, e, ok);
        d := PoolThen(d, e);
        if ok {
          todo := todo - {i};
        }
      }
      assert todo == {} ==> unmarked - todo == unmarked;
    }

    /** One call; an instance that is gone or marked by now is left as it is, and that is no error. */
    method DeleteOne(p: PoolID, listed: set<InstanceID>, i: InstanceID) returns (ok: bool, ghost d: PoolDeed)
      requires op.Valid() && InFlight(p, true) && op.s.poolPasses[p].at == Tearing(listed)
      requires Closing(op.s, p) && i in listed
      modifies op, op.locks, op.env
      ensures op.Valid() && InFlight(p, true) && op.s.poolPasses[p].at == Tearing(listed)
      ensures Closing(op.s, p) && Labelled(op.s, p) <= old(Labelled(op.s, p))
      ensures Done(old(op.actions), old(op.env.heard), p, d) && DeletesOne(i, d, ok)
      ensures Unmarked(op.s, p) <= if ok then old(Unmarked(op.s, p)) - {i} else old(Unmarked(op.s, p))
    {
      hide Closing, PoolOwn;
      Others(p);
      var o := op.env.Delete();
      d := PoolDeed([Wrote(o)], []);
      if o != Failed && i in Unmarked(op.s, p) {
        Do(PoolRun(p, PoolDeleteInstance(i)), p);
        d := PoolDeed([Wrote(o)], [PoolDeleteInstance(i)]);
      }
      ok := o == Confirmed;
    }

    /** The workflow's teardown job, then the finalizer. */
    method DropFinalizer(p: PoolID, spec: PoolSpec) returns (ghost d: PoolDeed)
      requires op.Valid() && InFlight(p, true) && op.s.poolPasses[p].at == Tearing({}) && Closing(op.s, p)
      modifies op, op.locks, op.env
      ensures op.Valid() && p !in op.s.poolPasses && Done(old(op.actions), old(op.env.heard), p, d)
      ensures TearsDown(spec, op.env.provider, d)
      ensures PoolDropFinalizer(Confirmed) in d.did ==> p !in op.s.pools
    {
      hide PoolOwn;
      ghost var asked: seq<Reply> := [];
      if spec.workflow {
        if !op.env.provider {
          Return(p);
          return Returns;
        }
        var done := op.env.Ask();
        asked := [Asked(done)];
        if !done {
          Return(p);
          return PoolDeed(asked, [PoolQuit]);
        }
      }
      hide Closing;
      Others(p);
      ghost var o := WriteFinalizer(p);
      d := PoolDeed(asked + [Wrote(o)], [PoolDropFinalizer(o)]);
    }

    method WriteFinalizer(p: PoolID) returns (ghost o: Outcome)
      requires op.Valid() && InFlight(p, true) && op.s.poolPasses[p].at == Tearing({})
      modifies op, op.locks, op.env
      ensures op.Valid() && p !in op.s.poolPasses
      ensures Done(old(op.actions), old(op.env.heard), p, PoolDeed([Wrote(o)], [PoolDropFinalizer(o)]))
      ensures o == Confirmed ==> p !in op.s.pools
    {
      hide PoolOwn, Closing;
      var out := op.env.Update(AcceptsPool(op.s, p, Confirmed));
      o := out;
      Do(PoolRun(p, PoolDropFinalizer(out)), p);
    }
  }
}
