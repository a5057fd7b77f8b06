/**
 The instance controller's passes in the form the program gives them: client calls, early
 returns and an unlock on every way out.  Each call is one step of the system of module Fleet,
 any number of steps of other actors may come between two calls, and the real lock table is
 used for TryLock and Unlock.  `Valid` says that what has happened so far is a run of that system,
 and each method says which steps of that run are its own.
 */
module Reconcile {
  import opened Wrappers
  import opened Fleet
  import opened FleetInvariant
  import opened Lease
  import opened SoloPass
  import opened Locks
  import opened Passes

  /** A step of another actor leaves the pass of i where it is. */
  lemma PassUntouched(s: State, a: Action, i: InstanceID)
    requires Enabled(s, a) && i in s.passes && !(a.Run? && a.i == i)
    ensures i in Next(s, a).passes && Next(s, a).passes[i] == s.passes[i]
  {
    if a.Run? {
      hide Ready, LocalNext;
    } else if a.PoolRun? {
      PoolRunObjects(s, a.p, a.pe);
      hide Ready, LocalNext, PoolNext;
    } else {
      hide Ready, LocalNext, PoolNext, PoolReady, View, WriteBack;
    }
  }

  predicate LocksHost(a: Action) {
    a.Run? && (a.e.LockForAssign? || a.e.LockForRelease?)
  }

  /** The set of locked hosts changes by LockForAssign, LockForRelease and Unlock only. */
  lemma LockedAfter(s: State, a: Action)
    requires Inv(s) && Enabled(s, a)
    ensures LocksHost(a) ==>
      HostOf(s, a.i).Some? && HostOf(s, a.i).value !in s.locked && Next(s, a).locked == s.locked + {HostOf(s, a.i).value}
    ensures a.Run? && a.e.Unlock? ==>
      HostOf(s, a.i).Some? && HostOf(s, a.i).value in s.locked && Next(s, a).locked == s.locked - {HostOf(s, a.i).value}
    ensures !LocksHost(a) && !(a.Run? && a.e.Unlock?) ==> Next(s, a).locked == s.locked
  {
    hide Inv, LocalNext, LocalOk;
    if a.Run? {
      hide Ready;
      InFlight(s, a.i, a.e);
      LocalHolds(s, a.i);
      LocalLocked(a.i, View(s, a.i), a.e);
    } else {
      hide Ready, View, WriteBack;
    }
  }

  lemma LocalLocked(i: InstanceID, l: Local, e: Event)
    requires LocalOk(i, l) && Ready(l, e)
    ensures if e.LockForAssign? || e.LockForRelease? then !l.locked && LocalNext(i, l, e).locked && l.pass.value.copy.host.Some?
            else if e.Unlock? then l.locked && !LocalNext(i, l, e).locked && l.pass.value.copy.host.Some?
            else LocalNext(i, l, e).locked == l.locked
  {
    if e.LockForAssign? || e.LockForRelease? || e.Unlock? {
      LocksAndUnlocks(i, l, e);
      hide *;
    } else if DeletionEvent(e) {
      hide LocalOk;
    } else {
      hide LocalOk;
    }
  }

  lemma LocksAndUnlocks(i: InstanceID, l: Local, e: Event)
    requires LocalOk(i, l) && Ready(l, e) && (e.LockForAssign? || e.LockForRelease? || e.Unlock?)
    ensures l.pass.value.copy.host.Some? && l.locked == e.Unlock? && LocalNext(i, l, e).locked == !e.Unlock?
  {
  }

  /** After these steps the pass has returned, or only the deferred Unlock is left of it. */
  predicate EndsPass(e: Event) {
    e.Quit? || e.AddInventoryFinalizer? || e.FindNothing? || e.StoreHost? || e.LockBusy? || e.StoreClass? || e.ClearHost?
    || e.AddManagementFinalizer? || e.Provision? || e.Manage? || e.DropInventoryFinalizer?
    || ((e.Claim? || e.Unassign?) && e.o != Confirmed && !e.again) || (e.DropManagementFinalizer? && e.o != Confirmed)
  }

  lemma Ends(i: InstanceID, l: Local, e: Event)
    requires Ready(l, e) && EndsPass(e)
    ensures l.pass.Some?
    ensures LocalNext(i, l, e).pass ==
      if l.pass.value.locking then Some(l.pass.value.(at := Returning)) else None
  {
    if DeletionEvent(e) {
      EndsLate(i, l, e);
      hide *;
    } else {
      EndsEarly(i, l, e);
      hide *;
    }
  }

  lemma EndsLate(i: InstanceID, l: Local, e: Event)
    requires Ready(l, e) && EndsPass(e) && DeletionEvent(e)
    ensures l.pass.Some?
    ensures LocalNext(i, l, e).pass ==
      if l.pass.value.locking then Some(l.pass.value.(at := Returning)) else None
  {
  }

  lemma EndsEarly(i: InstanceID, l: Local, e: Event)
    requires Ready(l, e) && EndsPass(e) && !DeletionEvent(e)
    ensures l.pass.Some?
    ensures LocalNext(i, l, e).pass ==
      if l.pass.value.locking then Some(l.pass.value.(at := Returning)) else None
  {
  }

  lemma PassAfter(s: State, i: InstanceID, e: Event)
    requires Enabled(s, Run(i, e))
    ensures Lookup(Next(s, Run(i, e)).passes, i) == LocalNext(i, View(s, i), e).pass
    ensures Lookup(Next(s, Run(i, e)).objs, i) == LocalNext(i, View(s, i), e).obj
    ensures Next(s, Run(i, e)).used == s.used
  {
    hide LocalNext;
  }

  /** An object that is gone does not come back: its UID is used. */
  ghost predicate Gone(s: State, i: InstanceID) {
    i in s.used && i !in s.objs
  }

  lemma GoneStays(s: State, a: Action, i: InstanceID)
    requires Inv(s) && Enabled(s, a) && Gone(s, i)
    ensures Gone(Next(s, a), i)
  {
    if a.Run? {
      RunGone(s, a.i, a.e, i);
      hide *;
    } else if a.PoolRun? {
      PoolRunObjects(s, a.p, a.pe);
      PoolUses(s, a.p, a.pe);
      hide Inv, PoolNext, Ready, LocalNext;
    } else {
      hide Inv, Ready, LocalNext, PoolReady, PoolNext;
    }
  }

  lemma PoolUses(s: State, p: PoolID, pe: PoolEvent)
    requires PoolReady(s, p, pe)
    ensures s.used <= PoolNext(s, p, pe).used
  {
  }

  lemma RunGone(s: State, j: InstanceID, e: Event, i: InstanceID)
    requires Inv(s) && Enabled(s, Run(j, e)) && Gone(s, i)
    ensures Gone(Next(s, Run(j, e)), i)
  {
    hide Inv, Ready, LocalNext, LocalOk;
    InFlight(s, j, e);
    if j == i {
      LocalHolds(s, i);
      Backed(s, i);
      LocalStep(i, View(s, i), e);
    }
  }

  lemma LocalLockable(l: Local)
    ensures HostNamed(l, Allocating(l, Started)) && !l.locked ==> Ready(l, LockForAssign)
    ensures HostNamed(l, Deleting(l, Releasing)) && !l.locked ==> Ready(l, LockForRelease)
  {
  }

  /** Where the two inventory writes leave a pass that holds the lock. */
  lemma LocalClaiming(i: InstanceID, l: Local, o: Outcome, again: bool)
    requires At(l, Claiming) && l.pass.value.locking && (again ==> o != Confirmed)
    ensures Ready(l, Claim(o, again))
    ensures LocalNext(i, l, Claim(o, again)).pass
         == Some(l.pass.value.(at := if o == Confirmed then Persisting else if again then Assigning else Returning))
  {
  }

  lemma LocalUnassign(i: InstanceID, l: Local, o: Outcome, again: bool)
    requires l.pass.Some? && l.pass.value.at.Clearing? && l.pass.value.locking && (again ==> o != Confirmed)
    ensures Ready(l, Unassign(o, again))
    ensures LocalNext(i, l, Unassign(o, again)).pass
         == Some(l.pass.value.(at := if o == Confirmed then Released else if again then Unassigning else Returning))
  {
  }

  // ---------------------------------------------------------------- what a pass does

  /** The steps of the passes of i among the actions. */
  function Own(acts: seq<Action>, i: InstanceID): seq<Event>
    decreases |acts|
  {
    if acts == [] then []
    else
      var last := acts[|acts| - 1];
      Own(acts[..|acts| - 1], i) + (if last.Run? && last.i == i then [last.e] else [])
  }

  lemma OwnOneMore(acts: seq<Action>, a: Action, i: InstanceID)
    ensures Own(acts + [a], i) == Own(acts, i) + (if a.Run? && a.i == i then [a.e] else [])
  {
    assert (acts + [a])[..|acts|] == acts;
  }

  /** Everything outside the program: it says what it likes, and what it said is on record. */
  class Environment {
    const provider: bool                // a provisioning provider is configured
    ghost var heard: seq<Reply>

    constructor (provider: bool)
      ensures this.provider == provider && heard == []
    {
      this.provider := provider;
      heard := [];
    }

    /** An Update, which a conflict turns into a failure. */
    method Update(accepted: bool) returns (o: Outcome)
      modifies this
      ensures o != Failed ==> accepted
      ensures heard == old(heard) + [Wrote(o)]
    {
      o := *;
      if o != Failed && !accepted {
        o := Failed;
      }
      heard := heard + [Wrote(o)];
    }

    /** A Delete, which needs no particular version. */
    method Delete() returns (o: Outcome)
      modifies this
      ensures heard == old(heard) + [Wrote(o)]
    {
      o := *;
      heard := heard + [Wrote(o)];
    }

    /** A call of the inventory, and whether an error of it is an authentication error and reconnecting works. */
    method Call() returns (o: Outcome, reconnected: bool)
      modifies this
      ensures reconnected ==> o != Confirmed
      ensures heard == old(heard) + [Called(o, reconnected)]
    {
      o, reconnected := *, *;
      reconnected := reconnected && o != Confirmed;
      heard := heard + [Called(o, reconnected)];
    }

    /** Whether a deprovisioning job is over. */
    method Ask() returns (done: bool)
      modifies this
      ensures heard == old(heard) + [Asked(done)]
    {
      done := *;
      heard := heard + [Asked(done)];
    }
  }

  class Operator {
    var s: State
    const locks: HostLocks
    const env: Environment
    ghost var states: seq<State>
    ghost var actions: seq<Action>

    ghost predicate Valid()
      reads this, locks
    {
      IsRun(states, actions) && states[|actions|] == s && locks.Held() == s.locked && s.locked <= locks.mutexes.Keys
    }

    constructor (provider: bool)
      ensures Valid() && s.objs == map[] && fresh(locks) && fresh(env) && env.provider == provider
    {
      s := State(map[], {}, map[], {}, map[], {}, {}, map[], {}, map[]);
      locks := new HostLocks();
      env := new Environment(provider);
      states := [State(map[], {}, map[], {}, map[], {}, {}, map[], {}, map[])];
      actions := [];
    }

    /** The run has gone on, with these steps of i. */
    ghost predicate Did(before: seq<Action>, i: InstanceID, es: seq<Event>)
      reads this
    {
      before <= actions && Own(actions, i) == Own(before, i) + es
    }

    /** The run has gone on with the steps of this deed of i, and the environment has said what it heard. */
    ghost predicate Done(before: seq<Action>, heard: seq<Reply>, i: InstanceID, d: Deed)
      reads this, env
    {
      Did(before, i, d.did) && env.heard == heard + d.heard
    }

    /** One step, lock table included. */
    method Do(a: Action, ghost i: InstanceID)
      requires Valid() && Enabled(s, a)
      modifies this, locks
      ensures Valid() && s == Next(old(s), a) && actions == old(actions) + [a]
      ensures Did(old(actions), i, if a.Run? && a.i == i then [a.e] else [])
      ensures old(Gone(s, i)) ==> Gone(s, i)
    {
      hide Inv, Enabled, Next, Gone, Own;
      RunsKeepInv(states, actions, |actions|);
      LockedAfter(s, a);
      OwnOneMore(actions, a, i);
      if Gone(s, i) {
        GoneStays(s, a, i);
      }
      if LocksHost(a) {
        var acquired := locks.TryLock(HostOf(s, a.i).value);
        assert acquired;
      } else if a.Run? && a.e.Unlock? {
        locks.Unlock(HostOf(s, a.i).value);
      }
      assert Steps(s, a, Next(s, a));
      s := Next(s, a);
      states, actions := states + [s], actions + [a];
    }

    /** Any number of steps of users, pools and passes of other instances. */
    method Others(i: InstanceID)
      requires Valid() && i in s.passes
      modifies this, locks
      ensures Valid() && i in s.passes && s.passes[i] == old(s.passes[i])
      ensures Did(old(actions), i, []) && (old(Gone(s, i)) ==> Gone(s, i))
    {
      hide Enabled, Next, IsRun, Own, Gone;
      var n: int := *;
      while n > 0
        invariant Valid() && i in s.passes && s.passes[i] == old(s.passes[i])
        invariant Did(old(actions), i, []) && (old(Gone(s, i)) ==> Gone(s, i))
      {
        n := n - 1;
        var a: Action := *;
        if Enabled(s, a) && !(a.Run? && a.i == i) {
          PassUntouched(s, a, i);
          Do(a, i);
        }
      }
    }

    /** A step of the pass of i, with what it does to that pass and its object. */
    method Step(i: InstanceID, e: Event)
      requires Valid() && Enabled(s, Run(i, e))
      modifies this, locks
      ensures Valid() && Did(old(actions), i, [e]) && (old(Gone(s, i)) ==> Gone(s, i)) && s.used == old(s.used)
      ensures Lookup(s.passes, i) == LocalNext(i, old(View(s, i)), e).pass
      ensures Lookup(s.objs, i) == LocalNext(i, old(View(s, i)), e).obj
    {
      hide Inv, Enabled, Gone, Own;
      PassAfter(s, i, e);
      Do(Run(i, e), i);
    }

    /** A step after which the pass returns; a deferred Unlock is all that may be left of it. */
    method Finish(i: InstanceID, e: Event)
      requires Valid() && Enabled(s, Run(i, e)) && EndsPass(e)
      modifies this, locks
      ensures Valid() && Did(old(actions), i, [e]) && (old(Gone(s, i)) ==> Gone(s, i)) && s.used == old(s.used)
      ensures if old(i in s.passes && s.passes[i].locking) then InFlight(i, Returning, true) else i !in s.passes
      ensures Lookup(s.objs, i) == LocalNext(i, old(View(s, i)), e).obj
    {
      hide IsRun, Next, LocalNext, Gone, Own;
      Ends(i, View(s, i), e);
      Step(i, e);
    }

    /** The deferred Unlock. */
    method ReleaseLock(i: InstanceID)
      requires Valid() && InFlight(i, Returning, true)
      modifies this, locks
      ensures Valid() && i !in s.passes && Did(old(actions), i, [Unlock]) && (old(Gone(s, i)) ==> Gone(s, i))
    {
      hide IsRun, Next, Gone, Own;
      Step(i, Unlock);
    }

    ghost predicate InFlight(i: InstanceID, stage: Stage, locking: bool)
      reads this
    {
      i in s.passes && s.passes[i].at == stage && s.passes[i].locking == locking
    }

    /** A pass that starts has read this object. */
    ghost predicate Starting(i: InstanceID, x: Instance)
      reads this
    {
      InFlight(i, Started, false) && s.passes[i].copy == x
    }

    /**
     Reconcile: from reading the object to the return, in any environment.  The pass runs to its end
     through the steps of module Fleet, and is one that module Passes allows for the object it read.
     If no reply stands in its way, its steps are those that the object asks for, and a deletion removes
     the object unless its host is locked.
     */
    method Reconcile(i: InstanceID) returns (ghost d: Deed)
      requires Valid() && i !in s.passes
      modifies this, locks, env
      ensures Valid() && i !in s.passes && Done(old(actions), old(env.heard), i, d)
      ensures i !in old(s.objs) ==> d == Nothing && s == old(s)
      ensures i in old(s.objs) ==> PassOf(old(s.objs[i]), env.provider, d)
      ensures i in old(s.objs) && NeedsProvider(old(s.objs[i])) && !env.provider ==> d == Deed([], [Quit])
      ensures i in old(s.objs) && (env.provider || !NeedsProvider(old(s.objs[i]))) && AllGood(d.heard) ==>
                PassTrace(old(s.objs[i]), d.did)
      ensures DropInventoryFinalizer(Confirmed) in d.did ==> Gone(s, i)
    {
      hide Ready, LocalNext, Inv, Next, IsRun, Own, Gone, UpdatePass, DeletionPass, PassTrace, AllGood;
      d := Nothing;
      if i !in s.objs {
        return;                                   // not found: nothing to do
      }
      ghost var x := s.objs[i];
      BeginPass(i);
      Others(i);
      if s.passes[i].copy.deleting {
        d := HandleDeletion(i);
      } else {
        d := HandleUpdate(i);
        NoDrops(x, env.provider, d);
      }
      assert PassOf(x, env.provider, d);
      hide PassOf;
      if NeedsProvider(x) && !env.provider {
        NoProviderNoWork(x, d);
      } else if AllGood(d.heard) {
        GoodPass(x, env.provider, d);
      }
    }

    method BeginPass(i: InstanceID)
      requires Valid() && i !in s.passes && i in s.objs
      modifies this, locks
      ensures Valid() && Starting(i, old(s.objs[i])) && Did(old(actions), i, [])
    {
      hide Own;
      Do(Begin(i), i);
    }

    method HandleUpdate(i: InstanceID) returns (ghost d: Deed)
      requires Valid() && InFlight(i, Started, false) && !s.passes[i].copy.deleting
      modifies this, locks, env
      ensures Valid() && i !in s.passes && Done(old(actions), old(env.heard), i, d)
      ensures UpdatePass(old(s.passes[i].copy), env.provider, d)
    {
      hide IsRun, Next, LocalNext, Own, AllocationPass, ManagementPass;
      if s.passes[i].copy.templated && !env.provider {
        Finish(i, Quit);
        return Deed([], [Quit]);
      }
      if !s.passes[i].copy.fulfilled {
        d := ReconcileInventory(i);
      } else {
        d := ReconcileManagement(i);
      }
    }

    method ReconcileInventory(i: InstanceID) returns (ghost d: Deed)
      requires Valid() && InFlight(i, Started, false)
      requires !s.passes[i].copy.deleting && !s.passes[i].copy.fulfilled
      modifies this, locks, env
      ensures Valid() && i !in s.passes && Done(old(actions), old(env.heard), i, d)
      ensures AllocationPass(old(s.passes[i].copy), d)
    {
      hide IsRun, Next, LocalNext, Own, Searches, ClaimsLocked;
      var copy := s.passes[i].copy;
      if !copy.inventoryFinalizer {
        var o := env.Update(Accepts(View(s, i), Confirmed));
        Finish(i, AddInventoryFinalizer(o));
        d := Deed([Wrote(o)], [AddInventoryFinalizer(o)]);
      } else if copy.host == None {
        d := PickHost(i);
      } else if copy.host.value in s.locked {
        Finish(i, LockBusy);
        d := Deed([], [LockBusy]);
      } else {
        d := ClaimUnderLock(i);
      }
    }

    /** TryLock, the claim, and the deferred Unlock. */
    method ClaimUnderLock(i: InstanceID) returns (ghost d: Deed)
      requires Valid() && InFlight(i, Started, false) && HostNamed(View(s, i), Allocating(View(s, i), Started))
      requires s.passes[i].copy.host.value !in s.locked
      modifies this, locks, env
      ensures Valid() && i !in s.passes && Done(old(actions), old(env.heard), i, d)
      ensures ClaimsLocked(d)
    {
      hide IsRun, Next, Own, LocalNext, Ready, Gone, Claims;
      LocalLockable(View(s, i));
      TakeLock(i, LockForAssign, Assigning);
      ghost var c := ClaimAndUnlock(i);
      d := Locked(LockForAssign, c);
    }

    method ClaimAndUnlock(i: InstanceID) returns (ghost c: Deed)
      requires Valid() && InFlight(i, Assigning, true)
      modifies this, locks, env
      ensures Valid() && i !in s.passes && Claims(c)
      ensures Done(old(actions), old(env.heard), i, Deed(c.heard, c.did + [Unlock]))
    {
      hide IsRun, Next, Own, LocalNext, Ready, Gone, Claims;
      c := ClaimHost(i);
      Others(i);
      ReleaseLock(i);
    }

    method TakeLock(i: InstanceID, e: Event, ghost stage: Stage)
      requires Valid() && Enabled(s, Run(i, e))
      requires (e == LockForAssign && stage == Assigning) || (e == LockForRelease && stage == Unassigning)
      modifies this, locks
      ensures Valid() && InFlight(i, stage, true) && Did(old(actions), i, [e])
    {
      hide IsRun, Next, Own, Gone;
      Step(i, e);
    }

    /** FindFreeHost and the Update that records its answer. */
    method PickHost(i: InstanceID) returns (ghost d: Deed)
      requires Valid() && InFlight(i, Started, false) && Searching(View(s, i))
      modifies this, locks, env
      ensures Valid() && i !in s.passes && Done(old(actions), old(env.heard), i, d)
      ensures Searches(old(s.passes[i].copy), d)
    {
      hide IsRun, Next, LocalNext, Own;
      var answer;
      ghost var calls;
      answer, calls := FindFreeHost(i);
      SearchEnds(s.passes[i].copy, calls, answer == Err);
      EndsSearch(i, answer);
      hide Searches, Answers, Enabled, Ready;
      match answer {
        case Err =>
          Finish(i, Quit);
          d := Deed(calls, [Quit]);
        case Ok(None) =>
          Finish(i, FindNothing);
          d := Deed(calls, [FindNothing]);
        case Ok(Some(h)) =>
          ghost var o := RecordHost(i, h);
          d := Deed(calls + [Wrote(o)], [FindHost(h), StoreHost(o)]);
      }
    }

    /** Where an answer lets a pass go on. */
    lemma EndsSearch(i: InstanceID, answer: Result<Option<HostID>>)
      requires i in s.passes && Searching(View(s, i)) && Found(i, answer)
      ensures Enabled(s, Run(i, Quit)) && (answer == Ok(None) ==> Enabled(s, Run(i, FindNothing)))
      ensures answer.Ok? && answer.value.Some? ==> answer.value.value in s.passes[i].copy.matching
    {
    }

    method RecordHost(i: InstanceID, h: HostID) returns (ghost o: Outcome)
      requires Valid() && InFlight(i, Started, false) && Searching(View(s, i)) && Found(i, Ok(Some(h)))
      modifies this, locks, env
      ensures Valid() && i !in s.passes
      ensures Done(old(actions), old(env.heard), i, Deed([Wrote(o)], [FindHost(h), StoreHost(o)]))
    {
      hide IsRun, Next, Own;
      Step(i, FindHost(h));
      Others(i);
      var out := env.Update(Accepts(View(s, i), Confirmed));
      o := out;
      Finish(i, StoreHost(out));
    }

    /** The inventory's answer: an error, a free matching host, or none when all are owned. */
    ghost predicate Found(i: InstanceID, answer: Result<Option<HostID>>)
      reads this
      requires i in s.passes
    {
      match answer
      case Err => true
      case Ok(None) => s.passes[i].copy.matching <= s.owner.Keys
      case Ok(Some(h)) => h in s.passes[i].copy.matching && h !in s.owner
    }

    /** FindFreeHost: after an authentication failure it reconnects and searches once more. */
    method FindFreeHost(i: InstanceID) returns (answer: Result<Option<HostID>>, ghost calls: seq<Reply>)
      requires Valid() && i in s.passes
      modifies this, locks, env
      ensures Valid() && i in s.passes && s.passes[i] == old(s.passes[i]) && Found(i, answer)
      ensures Done(old(actions), old(env.heard), i, Deed(calls, [])) && Answers(calls, answer == Err)
    {
      hide IsRun, Next, Own;
      var again;
      ghost var call;
      answer, again, call := FindOnce(i);
      calls := [call];
      if again {
        Others(i);
        answer, again, call := FindOnce(i);
        calls := calls + [call];
      }
    }

    /** One search, which reads the records in one moment. */
    method FindOnce(i: InstanceID) returns (answer: Result<Option<HostID>>, again: bool, ghost call: Reply)
      requires i in s.passes
      modifies env
      ensures Found(i, answer) && env.heard == old(env.heard) + [call]
      ensures call.Called? && (call.o != Confirmed <==> answer == Err) && (again <==> call.o != Confirmed && call.reconnected)
      ensures call.reconnected ==> call.o != Confirmed
    {
      var listed, reconnected := env.Call();
      call := Called(listed, reconnected);
      if listed != Confirmed {
        return Err, reconnected, call;
      }
      again := false;
      var free := s.passes[i].copy.matching - s.owner.Keys;
      if free == {} {
        assert forall h :: h in s.passes[i].copy.matching ==> h !in free;
        answer := Ok(None);
      } else {
        var h :| h in free;
        answer := Ok(Some(h));
      }
    }

    /**
     The part of reconcileInventory between TryLock and the deferred Unlock.  HostClass is stored only
     after a confirmed claim.
     */
    method ClaimHost(i: InstanceID) returns (ghost d: Deed)
      requires Valid() && InFlight(i, Assigning, true)
      modifies this, locks, env
      ensures Valid() && InFlight(i, Returning, true) && Done(old(actions), old(env.heard), i, d) && Claims(d)
    {
      hide IsRun, Next, Own, LocalNext, Ready, Gone, Assigns;
      var reply;
      ghost var a, b;
      reply, a := AssignHost(i);
      Others(i);
      b := Nothing;
      match reply {
        case Err =>
        case Ok(false) =>
          ghost var o := ClearHost(i);
          b := Deed([Wrote(o)], [Event.ClearHost(o)]);
        case Ok(true) =>
          ghost var o := StoreClass(i);
          b := Deed([Wrote(o)], [Event.StoreClass(o)]);
      }
      d := Then(a, b);
      assert Concludes(b, reply);
    }

    /** The tentative host is given up. */
    method ClearHost(i: InstanceID) returns (ghost o: Outcome)
      requires Valid() && InFlight(i, Refused, true)
      modifies this, locks, env
      ensures Valid() && InFlight(i, Returning, true)
      ensures Done(old(actions), old(env.heard), i, Deed([Wrote(o)], [Event.ClearHost(o)]))
    {
      hide IsRun, Next, Own, LocalNext, Gone;
      var out := env.Update(Accepts(View(s, i), Confirmed));
      o := out;
      Finish(i, Event.ClearHost(out));
    }

    method StoreClass(i: InstanceID) returns (ghost o: Outcome)
      requires Valid() && InFlight(i, Persisting, true)
      modifies this, locks, env
      ensures Valid() && InFlight(i, Returning, true)
      ensures Done(old(actions), old(env.heard), i, Deed([Wrote(o)], [Event.StoreClass(o)]))
    {
      hide IsRun, Next, Own, LocalNext, Gone;
      var out := env.Update(Accepts(View(s, i), Confirmed));
      o := out;
      Finish(i, Event.StoreClass(out));
    }

    /** Where an answer of AssignHost leaves the pass: an error, a refusal, or a claim. */
    ghost predicate Answered(i: InstanceID, reply: Result<bool>)
      reads this
    {
      InFlight(i, if reply.Err? then Returning else if reply.value then Persisting else Refused, true)
    }

    /**
     AssignHost: whatever call of it fails for authentication, it reconnects and starts over once, also
     when the write was applied all the same.  Ok(false) is a refusal.
     */
    method AssignHost(i: InstanceID) returns (reply: Result<bool>, ghost d: Deed)
      requires Valid() && InFlight(i, Assigning, true)
      modifies this, locks, env
      ensures Valid() && Answered(i, reply) && Done(old(actions), old(env.heard), i, d) && Assigns(d, reply)
    {
      hide IsRun, Next, Own, LocalNext, Ready, Gone, Attempts;
      var again;
      ghost var first;
      reply, again, first := AssignOnce(i, false);
      d := first;
      if again {
        Others(i);
        ghost var second;
        reply, again, second := AssignOnce(i, true);
        d := Then(first, second);
      }
    }

    /** One attempt: read, check, write.  An authentication failure asks for another unless it is the last. */
    method AssignOnce(i: InstanceID, last: bool) returns (reply: Result<bool>, again: bool, ghost d: Deed)
      requires Valid() && InFlight(i, Assigning, true)
      modifies this, locks, env
      ensures Valid() && Done(old(actions), old(env.heard), i, d) && Attempts(d, reply, again, last)
      ensures if again then !last && reply == Err && InFlight(i, Assigning, true) else Answered(i, reply)
    {
      hide IsRun, Next, Own, LocalNext, Ready, Gone;
      Others(i);
      var got, reconnected := env.Call();
      if got != Confirmed {
        ghost var es := GiveUp(i, reconnected && !last);
        return Err, reconnected && !last, Deed([Called(got, reconnected)], es);
      }
      var mine := ReadOwner(i);
      if !mine {
        return Ok(false), false, Deed([Called(got, reconnected)], [ReadForAssign]);
      }
      ghost var o, recovered;
      reply, again, o, recovered := WriteOwner(i, last);
      d := Deed([Called(got, reconnected), Called(o, recovered)], [ReadForAssign, Claim(o, again)]);
    }

    /** After a failing read: return with an error, or start over. */
    method GiveUp(i: InstanceID, again: bool) returns (ghost es: seq<Event>)
      requires Valid() && i in s.passes && s.passes[i].locking && s.passes[i].at in {Assigning, Unassigning}
      modifies this, locks
      ensures Valid() && Did(old(actions), i, es) && es == (if again then [] else [Quit])
      ensures InFlight(i, if again then old(s.passes[i].at) else Returning, true)
    {
      hide IsRun, Next, Own, LocalNext, Gone;
      es := [];
      if !again {
        Finish(i, Quit);
        es := [Quit];
      }
    }

    /** The owner check. */
    method ReadOwner(i: InstanceID) returns (mine: bool)
      requires Valid() && InFlight(i, Assigning, true)
      modifies this, locks
      ensures Valid() && Did(old(actions), i, [ReadForAssign]) && InFlight(i, if mine then Claiming else Refused, true)
    {
      hide IsRun, Next, Own, Gone;
      Step(i, ReadForAssign);
      mine := s.passes[i].at == Claiming;
    }

    /** The patch that makes i the owner in the record. */
    method WriteOwner(i: InstanceID, last: bool)
      returns (reply: Result<bool>, again: bool, ghost o: Outcome, ghost recovered: bool)
      requires Valid() && InFlight(i, Claiming, true)
      modifies this, locks, env
      ensures Valid() && Done(old(actions), old(env.heard), i, Deed([Called(o, recovered)], [Claim(o, again)]))
      ensures if again then !last && InFlight(i, Assigning, true) else Answered(i, reply)
      ensures again == (o != Confirmed && recovered && !last) && reply == if o == Confirmed then Ok(true) else Err
    {
      hide IsRun, Next, Own, LocalNext, Ready, Gone;
      Others(i);
      var out, reconnected := env.Call();
      o, recovered := out, reconnected;
      again := reconnected && !last;
      LocalClaiming(i, View(s, i), out, again);
      Step(i, Claim(out, again));
      reply := if out == Confirmed then Ok(true) else Err;
    }

    method ReconcileManagement(i: InstanceID) returns (ghost d: Deed)
      requires Valid() && InFlight(i, Started, false)
      requires !s.passes[i].copy.deleting && s.passes[i].copy.fulfilled
      modifies this, locks, env
      ensures Valid() && i !in s.passes && Done(old(actions), old(env.heard), i, d)
      ensures ManagementPass(old(s.passes[i].copy), d)
    {
      hide IsRun, Next, LocalNext, Own;
      if !s.passes[i].copy.managementFinalizer {
        var o := env.Update(Accepts(View(s, i), Confirmed));
        Finish(i, AddManagementFinalizer(o));
        d := Deed([Wrote(o)], [AddManagementFinalizer(o)]);
      } else if s.passes[i].copy.templated {
        Finish(i, Provision);
        d := Deed([], [Provision]);
      } else {
        Finish(i, Manage);
        d := Deed([], [Manage]);
      }
    }

    /** Removing the last finalizer removes the object, and nothing else does. */
    ghost predicate Removed(i: InstanceID, es: seq<Event>)
      reads this
    {
      DropInventoryFinalizer(Confirmed) in es ==> Gone(s, i)
    }

    method HandleDeletion(i: InstanceID) returns (ghost d: Deed)
      requires Valid() && InFlight(i, Started, false) && s.passes[i].copy.deleting
      modifies this, locks, env
      ensures Valid() && i !in s.passes && Done(old(actions), old(env.heard), i, d)
      ensures DeletionPass(old(s.passes[i].copy), env.provider, d) && Removed(i, d.did)
    {
      hide IsRun, Next, LocalNext, Ready, Own, Gone, Deprovisions, FreesHost;
      ghost var x := s.passes[i].copy;
      var goesOn;
      ghost var a;
      goesOn, a := CleanUpManagement(i);
      CleanUpDropsNothing(x, env.provider, a, goesOn);
      ghost var b := Nothing;
      if goesOn {
        Others(i);
        SameFreesHost(x, s.passes[i].copy);
        b := CleanUpInventory(i);
      }
      d := Then(a, b);
      assert GoesOn(x, b, goesOn);
    }

    method CleanUpInventory(i: InstanceID) returns (ghost d: Deed)
      requires Valid() && InFlight(i, Releasing, false) && s.passes[i].copy.deleting
      modifies this, locks, env
      ensures Valid() && i !in s.passes && Done(old(actions), old(env.heard), i, d)
      ensures FreesHost(old(s.passes[i].copy), d) && Removed(i, d.did)
    {
      hide IsRun, Next, LocalNext, Own, Gone, ReleasesLocked;
      if !s.passes[i].copy.inventoryFinalizer {
        Finish(i, Quit);                          // nothing of ours is left to clean up
        d := Deed([], [Quit]);
      } else if s.passes[i].copy.host == None {
        d := ReleaseNoHost(i);
      } else if s.passes[i].copy.host.value in s.locked {
        Finish(i, LockBusy);
        d := Deed([], [LockBusy]);
      } else {
        d := ReleaseUnderLock(i);
      }
    }

    method ReleaseUnderLock(i: InstanceID) returns (ghost d: Deed)
      requires Valid() && HostNamed(View(s, i), Deleting(View(s, i), Releasing)) && InFlight(i, Releasing, false)
      requires s.passes[i].copy.host.value !in s.locked
      modifies this, locks, env
      ensures Valid() && i !in s.passes && Done(old(actions), old(env.heard), i, d)
      ensures ReleasesLocked(d) && Removed(i, d.did)
    {
      hide IsRun, Next, Own, Gone, ReleasesHost, ReleasesLocked, LocalNext, Ready;
      LocalLockable(View(s, i));
      assert Enabled(s, Run(i, LockForRelease));
      hide Deleting, Enabled, View;
      TakeLock(i, LockForRelease, Unassigning);
      ghost var c := ReleaseAndUnlock(i);
      LockedRelease(c);
      d := Locked(LockForRelease, c);
    }

    method ReleaseAndUnlock(i: InstanceID) returns (ghost c: Deed)
      requires Valid() && InFlight(i, Unassigning, true)
      modifies this, locks, env
      ensures Valid() && i !in s.passes && ReleasesHost(c) && Removed(i, c.did)
      ensures Done(old(actions), old(env.heard), i, Deed(c.heard, c.did + [Unlock]))
    {
      hide IsRun, Next, Own, LocalNext, Ready, Gone, ReleasesHost;
      c := ReleaseHost(i);
      Others(i);
      ReleaseLock(i);
    }

    /** An instance that names no host has nothing to unassign. */
    method ReleaseNoHost(i: InstanceID) returns (ghost d: Deed)
      requires Valid() && InFlight(i, Releasing, false) && s.passes[i].copy.deleting
      requires s.passes[i].copy.inventoryFinalizer && s.passes[i].copy.host == None
      modifies this, locks, env
      ensures Valid() && i !in s.passes && Done(old(actions), old(env.heard), i, d)
      ensures OneWrite(d) && d.did == [SkipRelease, DropInventoryFinalizer(d.heard[0].o)] && Removed(i, d.did)
    {
      hide IsRun, Next, Own, Gone;
      Step(i, SkipRelease);
      hide LocalNext;
      ghost var o := DropFinalizer(i);
      d := Deed([Wrote(o)], [SkipRelease, DropInventoryFinalizer(o)]);
    }

    /** The last write of a deletion; the object is gone once it is confirmed. */
    method DropFinalizer(i: InstanceID) returns (ghost o: Outcome)
      requires Valid() && i in s.passes && s.passes[i].at == Released
      modifies this, locks, env
      ensures Valid() && Done(old(actions), old(env.heard), i, Deed([Wrote(o)], [DropInventoryFinalizer(o)]))
      ensures if old(s.passes[i].locking) then InFlight(i, Returning, true) else i !in s.passes
      ensures o == Confirmed ==> Gone(s, i)
    {
      hide IsRun, Next, Own;
      Others(i);
      ReleasedCopy(i);
      var out := env.Update(Accepts(View(s, i), Confirmed));
      o := out;
      Finish(i, DropInventoryFinalizer(out));
    }

    /** What a pass at this stage has read. */
    ghost method ReleasedCopy(i: InstanceID)
      requires Valid() && i in s.passes && s.passes[i].at == Released
      ensures s.passes[i].copy.deleting && !s.passes[i].copy.managementFinalizer && i in s.used
    {
      RunsKeepInv(states, actions, |actions|);
      LocalHolds(s, i);
    }

    /** Deprovisioning and the management finalizer; the pass ends here unless this half is over. */
    method CleanUpManagement(i: InstanceID) returns (goesOn: bool, ghost d: Deed)
      requires Valid() && InFlight(i, Started, false) && s.passes[i].copy.deleting
      modifies this, locks, env
      ensures Valid() && Done(old(actions), old(env.heard), i, d)
      ensures Deprovisions(old(s.passes[i].copy), env.provider, d, goesOn)
      ensures if goesOn then CleanedUp(i, old(s.passes[i].copy)) else i !in s.passes
    {
      hide IsRun, Next, Own, Gone;
      if !s.passes[i].copy.managementFinalizer {
        Step(i, SkipManagement);
        return true, Deed([], [SkipManagement]);
      }
      var done;
      ghost var a;
      done, a := ReconcileDeprovisioning(i);
      hide LocalNext, Ready;
      goesOn, d := false, a;
      if done {
        var o := DropManagement(i);
        goesOn, d := o == Confirmed, Then(a, Deed([Wrote(o)], [DropManagementFinalizer(o)]));
      }
    }

    /** The management half is over: the pass holds the object without the finalizer. */
    ghost predicate CleanedUp(i: InstanceID, x: Instance)
      reads this
    {
      InFlight(i, Releasing, false) && s.passes[i].copy.deleting && s.passes[i].copy.host == x.host
      && s.passes[i].copy.inventoryFinalizer == x.inventoryFinalizer && !s.passes[i].copy.managementFinalizer
    }

    /** A missing provider, a failure and a job still running all end the pass. */
    method ReconcileDeprovisioning(i: InstanceID) returns (done: bool, ghost d: Deed)
      requires Valid() && InFlight(i, Started, false)
      requires s.passes[i].copy.deleting && s.passes[i].copy.managementFinalizer
      modifies this, locks, env
      ensures Valid() && Done(old(actions), old(env.heard), i, d)
      ensures var x := old(s.passes[i].copy);
        if !x.templated then done && d == Deed([], [SkipDeprovision])
        else if !env.provider then !done && d == Deed([], [Quit])
        else d == Deed([Asked(done)], [if done then Deprovision else Quit])
      ensures if done then InFlight(i, Cleaned, false) && s.passes[i].copy == old(s.passes[i].copy) else i !in s.passes
    {
      hide IsRun, Next, Own, Gone;
      if !s.passes[i].copy.templated {
        Step(i, SkipDeprovision);
        return true, Deed([], [SkipDeprovision]);
      }
      if !env.provider {
        Finish(i, Quit);
        return false, Deed([], [Quit]);
      }
      done := env.Ask();
      if done {
        Step(i, Deprovision);
        d := Deed([Asked(true)], [Deprovision]);
      } else {
        Finish(i, Quit);
        d := Deed([Asked(false)], [Quit]);
      }
    }

    method DropManagement(i: InstanceID) returns (o: Outcome)
      requires Valid() && InFlight(i, Cleaned, false) && s.passes[i].copy.deleting
      modifies this, locks, env
      ensures Valid() && Done(old(actions), old(env.heard), i, Deed([Wrote(o)], [DropManagementFinalizer(o)]))
      ensures if o == Confirmed then CleanedUp(i, old(s.passes[i].copy)) else i !in s.passes
    {
      hide IsRun, Next, Own, Gone;
      Others(i);
      o := env.Update(Accepts(View(s, i), Confirmed));
      if o == Confirmed {
        Step(i, DropManagementFinalizer(o));
      } else {
        Finish(i, DropManagementFinalizer(o));
      }
    }

    /**
     The part of handleDeletion between TryLock and the deferred Unlock.  The finalizer goes directly
     after a confirmed unassign and at no other time.
     */
    method ReleaseHost(i: InstanceID) returns (ghost d: Deed)
      requires Valid() && InFlight(i, Unassigning, true)
      modifies this, locks, env
      ensures Valid() && InFlight(i, Returning, true) && Done(old(actions), old(env.heard), i, d)
      ensures ReleasesHost(d) && Removed(i, d.did)
    {
      hide IsRun, Next, LocalNext, Ready, Own, Gone, UnassignsHost;
      var unassigned;
      ghost var a, b;
      unassigned, a := UnassignHost(i);
      UnassignEnds(a, unassigned);
      b := Nothing;
      if unassigned {
        ghost var o := DropFinalizer(i);
        b := Deed([Wrote(o)], [DropInventoryFinalizer(o)]);
      }
      d := Then(a, b);
      assert Drops(b, unassigned);
    }

    /** UnassignHost: as AssignHost, it starts over once after an authentication failure of any of its calls. */
    method UnassignHost(i: InstanceID) returns (ok: bool, ghost d: Deed)
      requires Valid() && InFlight(i, Unassigning, true)
      modifies this, locks, env
      ensures Valid() && InFlight(i, if ok then Released else Returning, true)
      ensures Done(old(actions), old(env.heard), i, d) && UnassignsHost(d, ok)
    {
      hide IsRun, Next, Own, LocalNext, Ready, Gone, Tries;
      var again;
      ghost var first;
      ok, again, first := UnassignOnce(i, false);
      d := first;
      if again {
        Others(i);
        ghost var second;
        ok, again, second := UnassignOnce(i, true);
        d := Then(first, second);
      }
    }

    method UnassignOnce(i: InstanceID, last: bool) returns (ok: bool, again: bool, ghost d: Deed)
      requires Valid() && InFlight(i, Unassigning, true)
      modifies this, locks, env
      ensures Valid() && Done(old(actions), old(env.heard), i, d) && Tries(d, ok, again, last)
      ensures if again then !last && !ok && InFlight(i, Unassigning, true)
              else InFlight(i, if ok then Released else Returning, true)
    {
      hide IsRun, Next, Own, LocalNext, Ready, Gone;
      Others(i);
      var got, reconnected := env.Call();
      if got != Confirmed {
        ghost var es := GiveUp(i, reconnected && !last);
        return false, reconnected && !last, Deed([Called(got, reconnected)], es);
      }
      ReadRecord(i);
      ghost var o, recovered;
      ok, again, o, recovered := WriteFree(i, last);
      d := Deed([Called(got, reconnected), Called(o, recovered)], [ReadForRelease, Unassign(o, again)]);
    }

    method ReadRecord(i: InstanceID)
      requires Valid() && InFlight(i, Unassigning, true)
      modifies this, locks
      ensures Valid() && Did(old(actions), i, [ReadForRelease])
      ensures i in s.passes && s.passes[i].locking && s.passes[i].at.Clearing?
    {
      hide IsRun, Next, Own, Gone;
      Step(i, ReadForRelease);
    }

    /** The patch that removes the owner from the record. */
    method WriteFree(i: InstanceID, last: bool) returns (ok: bool, again: bool, ghost o: Outcome, ghost recovered: bool)
      requires Valid() && i in s.passes && s.passes[i].locking && s.passes[i].at.Clearing?
      modifies this, locks, env
      ensures Valid() && Done(old(actions), old(env.heard), i, Deed([Called(o, recovered)], [Unassign(o, again)]))
      ensures if again then !last && InFlight(i, Unassigning, true)
              else InFlight(i, if ok then Released else Returning, true)
      ensures again == (o != Confirmed && recovered && !last) && ok == (o == Confirmed)
    {
      hide IsRun, Next, Own, LocalNext, Ready, Gone;
      Others(i);
      var out, reconnected := env.Call();
      o, recovered := out, reconnected;
      again := reconnected && !last;
      ok := out == Confirmed;
      LocalUnassign(i, View(s, i), out, again);
      Step(i, Unassign(out, again));
    }
  }
}
