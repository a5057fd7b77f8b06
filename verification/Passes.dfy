/**
 What one pass of an instance may do, as a relation between the object it read, the replies it
 heard and the steps it took.  Module Reconcile proves its methods against these relations; the
 lemmas below say what the relations promise, whichever calls fail.
 */
module Passes {
  import opened Wrappers
  import opened Fleet
  import opened SoloPass

  /** An Update; a call of the inventory, with "authentication failed and reconnecting worked"; a job asked for. */
  datatype Reply = Wrote(o: Outcome) | Called(o: Outcome, reconnected: bool) | Asked(done: bool)

  predicate Good(r: Reply) {
    match r
    case Wrote(o) => o == Confirmed
    case Called(o, _) => o == Confirmed
    case Asked(done) => done
  }

  predicate AllGood(rs: seq<Reply>) {
    forall k :: 0 <= k < |rs| ==> Good(rs[k])
  }

  /** What a piece of a pass heard and did. */
  datatype Deed = Deed(heard: seq<Reply>, did: seq<Event>)

  const Nothing := Deed([], [])

  function Then(a: Deed, b: Deed): Deed {
    Deed(a.heard + b.heard, a.did + b.did)
  }

  /** Between TryLock and the deferred Unlock. */
  function Locked(lock: Event, c: Deed): Deed {
    Deed(c.heard, [lock] + c.did + [Unlock])
  }

  // ---------------------------------------------------------------- single writes

  /** All that is heard is the reply to one Update. */
  predicate OneWrite(d: Deed) {
    |d.heard| == 1 && d.heard[0].Wrote?
  }

  // ---------------------------------------------------------------- allocation

  /** The replies that count: a search that failed for authentication is repeated once. */
  function LastSearch(heard: seq<Reply>): seq<Reply> {
    if |heard| > 0 && heard[0].Called? && heard[0].o != Confirmed && heard[0].reconnected then heard[1..] else heard
  }

  /** What a search hears: one call, or two if the first failed for authentication. */
  predicate Answers(calls: seq<Reply>, failed: bool) {
    var h := LastSearch(calls);
    |h| == 1 && h[0].Called? && (h[0].o != Confirmed <==> failed)
  }

  lemma SearchEnds(x: Instance, calls: seq<Reply>, failed: bool)
    requires Answers(calls, failed)
    ensures Searches(x, Deed(calls, [if failed then Quit else FindNothing]))
    ensures !failed ==> forall h, o :: h in x.matching ==> Searches(x, Deed(calls + [Wrote(o)], [FindHost(h), StoreHost(o)]))
  {
    forall o
      ensures LastSearch(calls + [Wrote(o)]) == LastSearch(calls) + [Wrote(o)]
    {
    }
  }

  /** FindFreeHost and the Update that records its answer. */
  predicate Searches(x: Instance, d: Deed) {
    var h := LastSearch(d.heard);
    |h| > 0 && h[0].Called?
    && if h[0].o != Confirmed then |h| == 1 && d.did == [Quit]
       else
         (|h| == 1 && d.did == [FindNothing])
         || (|h| == 2 && h[1].Wrote? && |d.did| == 2 && d.did[0].FindHost? && d.did[0].h in x.matching
             && d.did[1] == StoreHost(h[1].o))
  }

  /** One attempt at AssignHost: read, check, write; Ok(false) is a refusal. */
  predicate Attempts(d: Deed, reply: Result<bool>, again: bool, last: bool) {
    |d.heard| > 0 && d.heard[0].Called?
    && if d.heard[0].o != Confirmed then
         |d.heard| == 1 && reply == Err && again == (d.heard[0].reconnected && !last)
         && d.did == if again then [] else [Quit]
       else if |d.heard| == 1 then reply == Ok(false) && !again && d.did == [ReadForAssign]
       else
         |d.heard| == 2 && d.heard[1].Called? && again == (d.heard[1].o != Confirmed && d.heard[1].reconnected && !last)
         && reply == (if d.heard[1].o == Confirmed then Ok(true) else Err)
         && d.did == [ReadForAssign, Claim(d.heard[1].o, again)]
  }

  /** AssignHost: one attempt, or two if the first failed for authentication. */
  ghost predicate Assigns(d: Deed, reply: Result<bool>) {
    Attempts(d, reply, false, false)
    || exists a, b :: Attempts(a, Err, true, false) && Attempts(b, reply, false, true) && d == Then(a, b)
  }

  /** What follows AssignHost: nothing after an error, else the host is given up or the class stored. */
  predicate Concludes(d: Deed, reply: Result<bool>) {
    match reply
    case Err => d == Nothing
    case Ok(claimed) => OneWrite(d) && d.did == [if claimed then StoreClass(d.heard[0].o) else ClearHost(d.heard[0].o)]
  }

  ghost predicate Claims(d: Deed) {
    exists a, b, reply :: Assigns(a, reply) && Concludes(b, reply) && d == Then(a, b)
  }

  ghost predicate ClaimsLocked(d: Deed) {
    exists c :: Claims(c) && d == Locked(LockForAssign, c)
  }

  ghost predicate AllocationPass(x: Instance, d: Deed) {
    if !x.inventoryFinalizer then OneWrite(d) && d.did == [AddInventoryFinalizer(d.heard[0].o)]
    else if x.host == None then Searches(x, d)
    else d == Deed([], [LockBusy]) || ClaimsLocked(d)
  }

  // ---------------------------------------------------------------- management

  predicate ManagementPass(x: Instance, d: Deed) {
    if !x.managementFinalizer then OneWrite(d) && d.did == [AddManagementFinalizer(d.heard[0].o)]
    else d == Deed([], [if x.templated then Provision else Manage])
  }

  /** A pass of an object that is not being deleted. */
  ghost predicate UpdatePass(x: Instance, provider: bool, d: Deed) {
    if x.templated && !provider then d == Deed([], [Quit])
    else if !x.fulfilled then AllocationPass(x, d)
    else ManagementPass(x, d)
  }

  // ---------------------------------------------------------------- deletion

  /** Deprovisioning and the management finalizer; the pass goes on when this is over. */
  predicate Deprovisions(x: Instance, provider: bool, d: Deed, goesOn: bool) {
    if !x.managementFinalizer then d == Deed([], [SkipManagement]) && goesOn
    else if !x.templated then
      OneWrite(d) && d.did == [SkipDeprovision, DropManagementFinalizer(d.heard[0].o)]
      && goesOn == (d.heard[0].o == Confirmed)
    else if !provider then d == Deed([], [Quit]) && !goesOn
    else
      |d.heard| > 0 && d.heard[0].Asked?
      && if !d.heard[0].done then |d.heard| == 1 && d.did == [Quit] && !goesOn
         else
           |d.heard| == 2 && d.heard[1].Wrote? && goesOn == (d.heard[1].o == Confirmed)
           && d.did == [Deprovision, DropManagementFinalizer(d.heard[1].o)]
  }

  /** One attempt at UnassignHost. */
  predicate Tries(d: Deed, ok: bool, again: bool, last: bool) {
    |d.heard| > 0 && d.heard[0].Called?
    && if d.heard[0].o != Confirmed then
         |d.heard| == 1 && !ok && again == (d.heard[0].reconnected && !last) && d.did == if again then [] else [Quit]
       else
         |d.heard| == 2 && d.heard[1].Called? && again == (d.heard[1].o != Confirmed && d.heard[1].reconnected && !last)
         && ok == (d.heard[1].o == Confirmed) && d.did == [ReadForRelease, Unassign(d.heard[1].o, again)]
  }

  ghost predicate UnassignsHost(d: Deed, ok: bool) {
    Tries(d, ok, false, false)
    || exists a, b :: Tries(a, false, true, false) && Tries(b, ok, false, true) && d == Then(a, b)
  }

  /** What follows UnassignHost: the finalizer goes, unless there was an error. */
  predicate Drops(d: Deed, ok: bool) {
    if ok then OneWrite(d) && d.did == [DropInventoryFinalizer(d.heard[0].o)] else d == Nothing
  }

  ghost predicate ReleasesHost(d: Deed) {
    exists a, b, ok :: UnassignsHost(a, ok) && Drops(b, ok) && d == Then(a, b)
  }

  ghost predicate ReleasesLocked(d: Deed) {
    exists c :: ReleasesHost(c) && d == Locked(LockForRelease, c)
  }

  ghost predicate FreesHost(x: Instance, d: Deed) {
    if !x.inventoryFinalizer then d == Deed([], [Quit])
    else if x.host == None then OneWrite(d) && d.did == [SkipRelease, DropInventoryFinalizer(d.heard[0].o)]
    else d == Deed([], [LockBusy]) || ReleasesLocked(d)
  }

  ghost predicate GoesOn(x: Instance, d: Deed, goesOn: bool) {
    if goesOn then FreesHost(x, d) else d == Nothing
  }

  ghost predicate DeletionPass(x: Instance, provider: bool, d: Deed) {
    exists a, b, goesOn :: Deprovisions(x, provider, a, goesOn) && GoesOn(x, b, goesOn) && d == Then(a, b)
  }

  /** Everything a pass that read x may do. */
  ghost predicate PassOf(x: Instance, provider: bool, d: Deed) {
    if x.deleting then DeletionPass(x, provider, d) else UpdatePass(x, provider, d)
  }

  // ---------------------------------------------------------------- when no reply stands in the way

  predicate ClaimTrace(es: seq<Event>) {
    es == [LockForAssign, ReadForAssign, Claim(Confirmed), StoreClass(Confirmed), Unlock]
    || es == [LockForAssign, ReadForAssign, ClearHost(Confirmed), Unlock]
  }

  predicate InventoryTrace(x: Instance, es: seq<Event>) {
    if !x.inventoryFinalizer then es == [AddInventoryFinalizer(Confirmed)]
    else if x.host == None then
      es == [FindNothing] || (|es| == 2 && es[0].FindHost? && es[0].h in x.matching && es[1] == StoreHost(Confirmed))
    else
      es == [LockBusy] || ClaimTrace(es)
  }

  predicate DeletionTrace(x: Instance, es: seq<Event>) {
    if !x.inventoryFinalizer then es == ManagementEvents(x) + [Quit]
    else es == ManagementEvents(x) + InventoryEvents(x) || (x.host.Some? && es == ManagementEvents(x) + [LockBusy])
  }

  /** A templated object is left alone as long as there is no provider, but for releasing its host. */
  predicate NeedsProvider(x: Instance) {
    x.templated && (x.deleting ==> x.managementFinalizer)
  }

  predicate PassTrace(x: Instance, es: seq<Event>) {
    if x.deleting then DeletionTrace(x, es)
    else if !x.fulfilled then InventoryTrace(x, es)
    else es == [if !x.managementFinalizer then AddManagementFinalizer(Confirmed) else if x.templated then Provision else Manage]
  }

  lemma GoodThen(a: Deed, b: Deed)
    requires AllGood(Then(a, b).heard)
    ensures AllGood(a.heard) && AllGood(b.heard)
  {
    var heard := Then(a, b).heard;
    assert forall k :: 0 <= k < |a.heard| ==> heard[k] == a.heard[k];
    forall k | 0 <= k < |b.heard|
      ensures Good(b.heard[k])
    {
      assert heard[|a.heard| + k] == b.heard[k];
    }
  }

  lemma GoodClaim(d: Deed)
    requires Claims(d) && AllGood(d.heard)
    ensures ClaimTrace(Locked(LockForAssign, d).did)
  {
    var a, b, reply :| Assigns(a, reply) && Concludes(b, reply) && d == Then(a, b);
    GoodThen(a, b);
    GoodAssign(a, reply);
  }

  lemma GoodAssign(d: Deed, reply: Result<bool>)
    requires Assigns(d, reply) && AllGood(d.heard)
    ensures d.did == if reply == Ok(true) then [ReadForAssign, Claim(Confirmed)] else [ReadForAssign]
    ensures reply.Ok?
  {
    if !Attempts(d, reply, false, false) {
      var a, b :| Attempts(a, Err, true, false) && Attempts(b, reply, false, true) && d == Then(a, b);
      GoodThen(a, b);
    }
  }

  lemma GoodUnassign(d: Deed, ok: bool)
    requires UnassignsHost(d, ok) && AllGood(d.heard)
    ensures ok && d.did == [ReadForRelease, Unassign(Confirmed)]
  {
    if !Tries(d, ok, false, false) {
      var a, b :| Tries(a, false, true, false) && Tries(b, ok, false, true) && d == Then(a, b);
      GoodThen(a, b);
    }
  }

  lemma GoodRelease(d: Deed)
    requires ReleasesHost(d) && AllGood(d.heard)
    ensures d.did == [ReadForRelease, Unassign(Confirmed), DropInventoryFinalizer(Confirmed)]
  {
    var a, b, ok :| UnassignsHost(a, ok) && Drops(b, ok) && d == Then(a, b);
    hide UnassignsHost;
    GoodThen(a, b);
    GoodUnassign(a, ok);
  }

  /** If every reply is good, a pass takes exactly the steps its object asks for. */
  lemma GoodPass(x: Instance, provider: bool, d: Deed)
    requires PassOf(x, provider, d) && AllGood(d.heard) && (provider || !NeedsProvider(x))
    ensures PassTrace(x, d.did)
  {
    hide AllocationPass, InventoryTrace, DeletionPass, DeletionTrace;
    if x.deleting {
      GoodDeletion(x, provider, d);
    } else if !x.fulfilled {
      GoodAllocation(x, d);
    }
  }

  lemma GoodDeletion(x: Instance, provider: bool, d: Deed)
    requires DeletionPass(x, provider, d) && AllGood(d.heard) && (provider || !x.templated || !x.managementFinalizer)
    ensures DeletionTrace(x, d.did)
  {
    var a, b, goesOn :| Deprovisions(x, provider, a, goesOn) && GoesOn(x, b, goesOn) && d == Then(a, b);
    GoodThen(a, b);
    assert goesOn && a.did == ManagementEvents(x);
    hide Deprovisions, FreesHost, InventoryEvents, ManagementEvents;
    GoodFree(x, b);
  }

  lemma GoodFree(x: Instance, d: Deed)
    requires FreesHost(x, d) && AllGood(d.heard)
    ensures if !x.inventoryFinalizer then d.did == [Quit]
            else d.did == InventoryEvents(x) || (x.host.Some? && d.did == [LockBusy])
  {
    if x.inventoryFinalizer && x.host.Some? && d != Deed([], [LockBusy]) {
      var c :| ReleasesHost(c) && d == Locked(LockForRelease, c);
      hide ReleasesHost;
      GoodRelease(c);
      assert d.did == [LockForRelease] + [ReadForRelease, Unassign(Confirmed), DropInventoryFinalizer(Confirmed)] + [Unlock];
    }
  }

  lemma GoodAllocation(x: Instance, d: Deed)
    requires AllocationPass(x, d) && AllGood(d.heard)
    ensures InventoryTrace(x, d.did)
  {
    if x.inventoryFinalizer && x.host.Some? && d != Deed([], [LockBusy]) {
      var c :| Claims(c) && d == Locked(LockForAssign, c);
      GoodClaim(c);
    }
  }

  // ---------------------------------------------------------------- whichever calls fail

  /** Without a provider a templated object is neither allocated, provisioned nor deprovisioned. */
  lemma NoProviderNoWork(x: Instance, d: Deed)
    requires PassOf(x, false, d) && NeedsProvider(x)
    ensures d == Deed([], [Quit])
  {
    if x.deleting {
      var a, b, goesOn :| Deprovisions(x, false, a, goesOn) && GoesOn(x, b, goesOn) && d == Then(a, b);
    }
  }

  /** The host of an object with a template is released only once its deprovisioning has been reported done. */
  lemma ReleasedOnlyWhenDone(x: Instance, provider: bool, d: Deed)
    requires PassOf(x, provider, d) && x.deleting && NeedsProvider(x)
    ensures d.did != [Quit] ==> |d.heard| > 0 && d.heard[0] == Asked(true) && d.did[0] == Deprovision
    ensures d.did == [Quit] || |d.did| == 2 || d.did[1] == DropManagementFinalizer(Confirmed)
  {
    var a, b, goesOn :| Deprovisions(x, provider, a, goesOn) && GoesOn(x, b, goesOn) && d == Then(a, b);
    hide FreesHost;
  }

  /** HostClass is stored directly after a confirmed claim and at no other time. */
  lemma StoredOnlyWhenClaimed(x: Instance, provider: bool, d: Deed, k: nat)
    requires PassOf(x, provider, d) && !x.deleting && k < |d.did| && d.did[k].StoreClass?
    ensures k > 0 && d.did[k - 1] == Claim(Confirmed)
  {
    var c :| Claims(c) && d == Locked(LockForAssign, c);
    hide Claims;
    ClaimEnds(c, k - 1);
    assert d.did[k - 1] == c.did[k - 2];
  }

  lemma ClaimEnds(d: Deed, k: nat)
    requires Claims(d) && k < |d.did| && d.did[k].StoreClass?
    ensures k > 0 && d.did[k - 1] == Claim(Confirmed)
  {
    var a, b, reply :| Assigns(a, reply) && Concludes(b, reply) && d == Then(a, b);
    AssignEnds(a, reply);
    hide Assigns;
    assert d.did == a.did + b.did;
    assert forall j :: 0 <= j < |a.did| ==> a.did[j] in a.did;
  }

  lemma AssignEnds(d: Deed, reply: Result<bool>)
    requires Assigns(d, reply)
    ensures |d.did| > 0 && (reply == Ok(true) ==> d.did[|d.did| - 1] == Claim(Confirmed))
    ensures forall e :: e in d.did ==> e.Quit? || e.ReadForAssign? || e.Claim?
  {
    if !Attempts(d, reply, false, false) {
      var a, b :| Attempts(a, Err, true, false) && Attempts(b, reply, false, true) && d == Then(a, b);
      assert d.did[|d.did| - 1] == b.did[|b.did| - 1];
    }
  }

  /** The inventory finalizer goes directly after a confirmed unassign, or when there is no host, and at no other time. */
  lemma DroppedOnlyWhenReleased(x: Instance, d: Deed, k: nat)
    requires FreesHost(x, d) && k < |d.did| && d.did[k].DropInventoryFinalizer?
    ensures k > 0 && d.did[k - 1] == if x.host == None then SkipRelease else Unassign(Confirmed)
  {
    if x.host.Some? {
      var c :| ReleasesHost(c) && d == Locked(LockForRelease, c);
      ReleaseEnds(c, k - 1);
      assert d.did[k - 1] == c.did[k - 2];
    }
  }

  lemma ReleaseEnds(d: Deed, k: nat)
    requires ReleasesHost(d) && k < |d.did| && d.did[k].DropInventoryFinalizer?
    ensures k > 0 && d.did[k - 1] == Unassign(Confirmed)
  {
    var a, b, ok :| UnassignsHost(a, ok) && Drops(b, ok) && d == Then(a, b);
    UnassignEnds(a, ok);
    hide UnassignsHost;
  }

  lemma UnassignEnds(d: Deed, ok: bool)
    requires UnassignsHost(d, ok)
    ensures |d.did| > 0 && (ok ==> d.did[|d.did| - 1] == Unassign(Confirmed))
    ensures forall e :: e in d.did ==> e.Quit? || e.ReadForRelease? || e.Unassign?
  {
    if !Tries(d, ok, false, false) {
      var a, b :| Tries(a, false, true, false) && Tries(b, ok, false, true) && d == Then(a, b);
      assert d.did[|d.did| - 1] == b.did[|b.did| - 1];
    }
  }

  /** Updating an object drops no finalizer. */
  lemma NoDrops(x: Instance, provider: bool, d: Deed)
    requires UpdatePass(x, provider, d)
    ensures forall e :: e in d.did ==> !e.DropInventoryFinalizer?
  {
    hide Claims;
    if ClaimsLocked(d) {
      var c :| Claims(c) && d == Locked(LockForAssign, c);
      ClaimDropsNothing(c);
    }
  }

  lemma ClaimDropsNothing(d: Deed)
    requires Claims(d)
    ensures forall e :: e in d.did ==> !e.DropInventoryFinalizer?
  {
    var a, b, reply :| Assigns(a, reply) && Concludes(b, reply) && d == Then(a, b);
    AssignEnds(a, reply);
    hide Assigns;
  }

  lemma LockedRelease(c: Deed)
    requires ReleasesHost(c)
    ensures ReleasesLocked(Locked(LockForRelease, c))
    ensures DropInventoryFinalizer(Confirmed) in Locked(LockForRelease, c).did <==> DropInventoryFinalizer(Confirmed) in c.did
  {
    hide ReleasesHost;
    var d := Locked(LockForRelease, c);
    assert d.did == [LockForRelease] + c.did + [Unlock];
  }

  lemma CleanUpDropsNothing(x: Instance, provider: bool, d: Deed, goesOn: bool)
    requires Deprovisions(x, provider, d, goesOn)
    ensures forall e :: e in d.did ==> !e.DropInventoryFinalizer?
  {
  }

  lemma SameFreesHost(x: Instance, y: Instance)
    requires x.host == y.host && x.inventoryFinalizer == y.inventoryFinalizer
    ensures forall d :: FreesHost(x, d) <==> FreesHost(y, d)
  {
  }
}
