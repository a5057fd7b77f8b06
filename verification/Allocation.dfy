/**
 Allocation makes progress.  Without deletions and creations a measure drops with every applied
 write of the allocation phase and never rises, however the passes interleave, however many claims
 are lost and whatever fails; it bounds the number of writes.
 */
module Allocation {
  import opened Wrappers
  import opened Fleet
  import opened FleetInvariant
  import opened SoloPass
  import opened Sums

  /** Nothing is being deleted, and no pass in flight has lost its object. */
  ghost predicate NoDeletions(s: State) {
    (forall i :: i in s.objs ==> !s.objs[i].deleting)
    && (forall i :: i in s.passes ==> i in s.objs && !s.passes[i].copy.deleting)
  }

  /** Hosts an instance may still end up with: free matching ones and the one it names or picked. */
  function Candidates(free: set<HostID>, x: Instance, pass: Option<Pass>): set<HostID> {
    free
    + (if x.host.Some? then {x.host.value} else {})
    + (if pass.Some? && pass.value.at.Picked? then {pass.value.at.candidate} else {})
  }

  function StageWeight(x: Instance): nat {
    (if x.inventoryFinalizer then 0 else 1) + (if x.host == None then 1 else 0)
  }

  function LocalWeight(free: set<HostID>, x: Option<Instance>, pass: Option<Pass>): nat {
    if x == None || x.value.fulfilled then 0
    else 2 * |Candidates(free, x.value, pass)| + StageWeight(x.value)
  }

  function Free(s: State, i: InstanceID): set<HostID>
    requires i in s.objs
  {
    s.objs[i].matching - s.owner.Keys
  }

  function Weight(s: State, i: InstanceID): nat {
    if i in s.objs then LocalWeight(Free(s, i), Some(s.objs[i]), Lookup(s.passes, i)) else 0
  }

  function Weights(s: State): map<InstanceID, nat> {
    map i | i in s.objs :: Weight(s, i)
  }

  ghost function Measure(s: State): nat {
    Sum(Weights(s))
  }

  /** The writes of reconcileInventory, when they are applied. */
  predicate AllocationWrite(e: Event) {
    (e.AddInventoryFinalizer? || e.StoreHost? || e.StoreClass? || e.ClearHost?) && e.o != Failed
  }

  predicate Writes(a: Action) {
    a.Run? && AllocationWrite(a.e)
  }

  /** The requeue-and-wait returns of reconcileInventory. */
  predicate Polls(a: Action) {
    a.Run? && (a.e.FindNothing? || a.e.LockBusy?)
  }

  /** Everything but creating and deleting instances: any step of any pass, and any edit. */
  predicate Calm(a: Action) {
    !a.CreateInstance? && !a.DeleteInstance? && !(a.PoolRun? && (a.pe.PoolCreateInstance? || a.pe.PoolDeleteInstance?))
  }

  // ---------------------------------------------------------------- one step

  ghost predicate Facts(i: InstanceID, l: Local, e: Event) {
    LocalOk(i, l) && Ready(l, e)
    && l.obj.Some? && !l.obj.value.deleting && !l.pass.value.copy.deleting
  }

  lemma NotDeleting(i: InstanceID, l: Local, e: Event)
    requires Facts(i, l, e)
    ensures !DeletionEvent(e)
  {
  }

  /** Steps that write no object, and the one write of the management phase that touches a fulfilled one. */
  ghost predicate OtherEffect(i: InstanceID, l: Local, l': Local, e: Event)
    requires l.obj.Some?
  {
    (if l.obj.value.fulfilled then l'.obj.Some? && l'.obj.value.fulfilled else l'.obj == l.obj)
    && (l'.pass.Some? && l'.pass.value.at.Picked? ==> e == FindHost(l'.pass.value.at.candidate))
  }

  lemma OtherSteps(i: InstanceID, l: Local, e: Event)
    requires Facts(i, l, e) && !DeletionEvent(e) && !AllocationWrite(e)
    ensures OtherEffect(i, l, LocalNext(i, l, e), e) && CalmEffect(l, LocalNext(i, l, e))
  {
  }

  /** No step takes an owner record away, marks a deletion or changes the selector. */
  ghost predicate CalmEffect(l: Local, l': Local) {
    (l.owner.Some? ==> l'.owner.Some?)
    && (l'.pass.Some? ==> !l'.pass.value.copy.deleting)
    && (l.obj.Some? ==> l'.obj.Some? && l'.obj.value.matching == l.obj.value.matching && !l'.obj.value.deleting)
  }

  lemma WriteSteps(i: InstanceID, l: Local, e: Event)
    requires Facts(i, l, e) && AllocationWrite(e)
    ensures WriteEffect(i, l, LocalNext(i, l, e), e) && CalmEffect(l, LocalNext(i, l, e))
  {
  }

  /** The four writes of the allocation phase, spelled out on the object. */
  ghost predicate WriteEffect(i: InstanceID, l: Local, l': Local, e: Event) {
    l.obj.Some? && l'.obj.Some? && l.pass.Some? && !l.obj.value.fulfilled
    && (l'.pass.Some? ==> l'.pass.value.at == Returning)
    && var x, x' := l.obj.value, l'.obj.value;
    match e
    case AddInventoryFinalizer(_) =>
      !x.inventoryFinalizer && !x'.fulfilled && x'.inventoryFinalizer && x'.host == x.host
    case StoreHost(_) =>
      l.pass.value.at.Picked? && x.host == None && x'.host == Some(l.pass.value.at.candidate)
      && x'.inventoryFinalizer == x.inventoryFinalizer && !x'.fulfilled
    case StoreClass(_) => x'.fulfilled && x.host.Some?
    case ClearHost(_) =>
      l.owner.Some? && x.host.Some? && x.host == l.pass.value.copy.host
      && x'.host == None && x'.inventoryFinalizer == x.inventoryFinalizer && !x'.fulfilled
    case _ => false
  }

  lemma WeightWrite(i: InstanceID, free: set<HostID>, free': set<HostID>, l: Local, l': Local, e: Event)
    requires WriteEffect(i, l, l', e) && free' <= free
    requires l.owner.Some? && l.pass.value.copy.host.Some? ==> l.pass.value.copy.host.value !in free
    ensures LocalWeight(free', l'.obj, l'.pass) < LocalWeight(free, l.obj, l.pass)
  {
    hide WriteEffect, LocalWeight;
    match e
    case AddInventoryFinalizer(_) => WeightFinalizer(i, free, free', l, l', e);
    case StoreHost(_) => WeightStore(i, free, free', l, l', e);
    case StoreClass(_) => WeightClass(i, free, free', l, l', e);
    case ClearHost(_) => WeightClear(i, free, free', l, l', e);
    case _ => NotAWrite(i, l, l', e);
  }

  lemma NotAWrite(i: InstanceID, l: Local, l': Local, e: Event)
    requires WriteEffect(i, l, l', e)
    ensures e.AddInventoryFinalizer? || e.StoreHost? || e.StoreClass? || e.ClearHost?
  {
  }

  lemma WeightFinalizer(i: InstanceID, free: set<HostID>, free': set<HostID>, l: Local, l': Local, e: Event)
    requires WriteEffect(i, l, l', e) && free' <= free
    requires l.owner.Some? && l.pass.value.copy.host.Some? ==> l.pass.value.copy.host.value !in free
    requires e.AddInventoryFinalizer?
    ensures LocalWeight(free', l'.obj, l'.pass) < LocalWeight(free, l.obj, l.pass)
  {
    SubsetSize(Candidates(free', l'.obj.value, l'.pass), Candidates(free, l.obj.value, l.pass));
  }

  lemma WeightStore(i: InstanceID, free: set<HostID>, free': set<HostID>, l: Local, l': Local, e: Event)
    requires WriteEffect(i, l, l', e) && free' <= free
    requires l.owner.Some? && l.pass.value.copy.host.Some? ==> l.pass.value.copy.host.value !in free
    requires e.StoreHost?
    ensures LocalWeight(free', l'.obj, l'.pass) < LocalWeight(free, l.obj, l.pass)
  {
    SubsetSize(Candidates(free', l'.obj.value, l'.pass), Candidates(free, l.obj.value, l.pass));
  }

  lemma WeightClass(i: InstanceID, free: set<HostID>, free': set<HostID>, l: Local, l': Local, e: Event)
    requires WriteEffect(i, l, l', e) && free' <= free
    requires l.owner.Some? && l.pass.value.copy.host.Some? ==> l.pass.value.copy.host.value !in free
    requires e.StoreClass?
    ensures LocalWeight(free', l'.obj, l'.pass) < LocalWeight(free, l.obj, l.pass)
  {
    SubsetSize({l.obj.value.host.value}, Candidates(free, l.obj.value, l.pass));
  }

  lemma WeightClear(i: InstanceID, free: set<HostID>, free': set<HostID>, l: Local, l': Local, e: Event)
    requires WriteEffect(i, l, l', e) && free' <= free
    requires l.owner.Some? && l.pass.value.copy.host.Some? ==> l.pass.value.copy.host.value !in free
    requires e.ClearHost?
    ensures LocalWeight(free', l'.obj, l'.pass) < LocalWeight(free, l.obj, l.pass)
  {
    var all, all' := Candidates(free, l.obj.value, l.pass), Candidates(free', l'.obj.value, l'.pass);
    assert l.obj.value.host.value in all - all';
    SubsetSize(all', all);
  }

  lemma WeightOther(i: InstanceID, free: set<HostID>, free': set<HostID>, l: Local, l': Local, e: Event)
    requires l.obj.Some? && OtherEffect(i, l, l', e) && free' <= free && (e.FindHost? ==> e.h in free)
    ensures LocalWeight(free', l'.obj, l'.pass) <= LocalWeight(free, l.obj, l.pass)
  {
    if !l.obj.value.fulfilled {
      SubsetSize(Candidates(free', l'.obj.value, l'.pass), Candidates(free, l.obj.value, l.pass));
    }
  }

  // ---------------------------------------------------------------- the whole system

  lemma LocalFacts(s: State, i: InstanceID, e: Event)
    requires Inv(s) && NoDeletions(s) && Enabled(s, Run(i, e))
    ensures i in s.passes && Facts(i, View(s, i), e) && !DeletionEvent(e)
    ensures e.FindHost? ==> e.h in Free(s, i)
  {
    assert LocalOk(i, View(s, i));
    NotDeleting(i, View(s, i), e);
  }

  /** What WriteBack of such a step leaves for the other instances. */
  lemma CalmBack(s: State, i: InstanceID, l': Local)
    requires NoDeletions(s) && i in s.passes && CalmEffect(View(s, i), l')
    ensures var s' := WriteBack(s, i, l');
      && NoDeletions(s') && s'.objs.Keys == s.objs.Keys && s.owner.Keys <= s'.owner.Keys
      && Lookup(s'.objs, i) == l'.obj && Lookup(s'.passes, i) == l'.pass && s'.objs[i].matching == s.objs[i].matching
      && forall j :: j in s.objs && j != i ==> s'.objs[j] == s.objs[j] && Lookup(s'.passes, j) == Lookup(s.passes, j)
  {
  }

  lemma RunWeights(s: State, i: InstanceID, e: Event)
    requires Inv(s) && NoDeletions(s) && Enabled(s, Run(i, e))
    ensures var s' := Next(s, Run(i, e));
      && NoDeletions(s') && s'.objs.Keys == s.objs.Keys && i in s.objs
      && (forall j :: j in s.objs ==> Weight(s', j) <= Weight(s, j))
      && (AllocationWrite(e) ==> Weight(s', i) < Weight(s, i))
  {
    hide Ready, LocalNext, LocalOk, Inv, LocalWeight;
    var l := View(s, i);
    var l' := LocalNext(i, l, e);
    LocalFacts(s, i, e);
    if AllocationWrite(e) {
      WriteSteps(i, l, e);
    } else {
      OtherSteps(i, l, e);
    }
    CalmBack(s, i, l');
    var s' := WriteBack(s, i, l');
    if AllocationWrite(e) {
      WeightWrite(i, Free(s, i), Free(s', i), l, l', e);
    } else {
      WeightOther(i, Free(s, i), Free(s', i), l, l', e);
    }
    forall j | j in s.objs && j != i
      ensures Weight(s', j) <= Weight(s, j)
    {
      OtherWeight(Free(s, j), Free(s', j), s.objs[j], Lookup(s.passes, j));
    }
  }

  lemma OtherWeight(free: set<HostID>, free': set<HostID>, x: Instance, pass: Option<Pass>)
    requires free' <= free
    ensures LocalWeight(free', Some(x), pass) <= LocalWeight(free, Some(x), pass)
  {
    SubsetSize(Candidates(free', x, pass), Candidates(free, x, pass));
  }

  /** No step but a creation or a deletion raises the measure, and every allocation write lowers it. */
  lemma StepMeasure(s: State, a: Action)
    requires Inv(s) && NoDeletions(s) && Enabled(s, a) && Calm(a)
    ensures NoDeletions(Next(s, a))
    ensures Measure(Next(s, a)) + (if Writes(a) then 1 else 0) <= Measure(s)
  {
    hide Inv, Ready, LocalNext, LocalWeight, PoolReady, PoolNext;
    var s' := Next(s, a);
    if a.Run? {
      RunWeights(s, a.i, a.e);
      SumMonotone(Weights(s), Weights(s'));
      if Writes(a) {
        SumSmaller(Weights(s), Weights(s'), a.i);
      }
    } else {
      CalmStep(s, a);
      hide NoDeletions, Next, Enabled;
      forall j | j in s.objs
        ensures Weight(s', j) == Weight(s, j)
      {
        CalmWeight(s, s', j);
      }
      assert Weights(s') == Weights(s);
    }
  }

  /** Edits, pool steps and the start of a pass leave what the measure looks at. */
  ghost predicate SameAllocation(s: State, s': State) {
    s'.objs.Keys == s.objs.Keys && s'.owner == s.owner
    && (forall j :: j in s.objs ==>
          s'.objs[j] == s.objs[j].(version := s'.objs[j].version, templated := s'.objs[j].templated))
    && forall j :: Lookup(s'.passes, j) == Lookup(s.passes, j)
                   || (j !in s.passes && j in s'.passes && s'.passes[j].at == Started && j in s.objs
                       && s'.passes[j].copy == s.objs[j])
  }

  lemma CalmStep(s: State, a: Action)
    requires NoDeletions(s) && Enabled(s, a) && Calm(a) && !a.Run?
    ensures SameAllocation(s, Next(s, a)) && NoDeletions(Next(s, a))
  {
    if a.PoolRun? {
      CalmPoolRun(s, a.p, a.pe);
      hide Next, PoolReady, PoolNext;
    } else {
      CalmEdit(s, a);
      hide Next, Ready, LocalNext, PoolReady, PoolNext;
    }
    hide Enabled;
    SameNoDeletions(s, Next(s, a));
  }

  lemma CalmPoolRun(s: State, p: PoolID, pe: PoolEvent)
    requires PoolReady(s, p, pe) && !pe.PoolCreateInstance? && !pe.PoolDeleteInstance?
    ensures SameAllocation(s, PoolNext(s, p, pe))
  {
  }

  lemma CalmEdit(s: State, a: Action)
    requires Enabled(s, a) && Calm(a) && !a.Run? && !a.PoolRun?
    ensures SameAllocation(s, Next(s, a))
  {
    hide Ready, LocalNext, PoolReady, PoolNext, View, WriteBack;
  }

  lemma SameNoDeletions(s: State, s': State)
    requires NoDeletions(s) && SameAllocation(s, s')
    ensures NoDeletions(s')
  {
    forall i | i in s'.passes
      ensures i in s'.objs && !s'.passes[i].copy.deleting
    {
      assert Lookup(s'.passes, i) == Lookup(s.passes, i) || s'.passes[i].copy == s.objs[i];
    }
  }

  lemma CalmWeight(s: State, s': State, j: InstanceID)
    requires SameAllocation(s, s') && j in s.objs
    ensures Weight(s', j) == Weight(s, j)
  {
    assert Lookup(s'.passes, j) == Lookup(s.passes, j) || s'.passes[j].at == Started;
    assert Free(s', j) == Free(s, j);
    SameWeight(Free(s, j), s.objs[j], s'.objs[j], Lookup(s.passes, j), Lookup(s'.passes, j));
  }

  lemma SameWeight(free: set<HostID>, x: Instance, x': Instance, pass: Option<Pass>, pass': Option<Pass>)
    requires x' == x.(version := x'.version, templated := x'.templated)
    requires pass' == pass || (pass == None && pass'.value.at == Started)
    ensures LocalWeight(free, Some(x'), pass') == LocalWeight(free, Some(x), pass)
  {
    assert Candidates(free, x', pass') == Candidates(free, x, pass);
  }

  function CountWrites(acts: seq<Action>): nat {
    if acts == [] then 0 else (if Writes(acts[0]) then 1 else 0) + CountWrites(acts[1..])
  }

  predicate AllSmooth(acts: seq<Action>) {
    forall a :: a in acts ==> Smooth(a)
  }

  predicate AllCalm(acts: seq<Action>) {
    forall a :: a in acts ==> Calm(a)
  }

  lemma SmoothIsCalm(acts: seq<Action>)
    requires AllSmooth(acts)
    ensures AllCalm(acts)
  {
  }

  /**
   However the passes interleave, and whatever fails, the allocation phase writes at most Measure(s)
   times, lost claims included.
   */
  lemma {:induction false} WritesBounded(s: State, acts: seq<Action>, s': State)
    requires Inv(s) && NoDeletions(s) && Performs(s, acts, s') && AllCalm(acts)
    ensures NoDeletions(s') && CountWrites(acts) + Measure(s') <= Measure(s)
    decreases |acts|
  {
    hide Inv, NoDeletions, Enabled, Next, Measure, Calm, Writes;
    if acts != [] {
      assert acts[0] in acts && forall a :: a in acts[1..] ==> a in acts;
      StepMeasure(s, acts[0]);
      StepInv(s, acts[0]);
      WritesBounded(Next(s, acts[0]), acts[1..], s');
    }
  }

  /** A fault-free pass in the allocation phase is over only after a poll or a write. */
  lemma PassEndsByWriteOrPoll(s: State, i: InstanceID, e: Event)
    requires Inv(s) && NoDeletions(s) && Enabled(s, Run(i, e)) && Smooth(Run(i, e))
    requires !s.passes[i].copy.fulfilled && s.passes[i].at != Returning
    requires var s' := Next(s, Run(i, e)); i !in s'.passes || s'.passes[i].at == Returning
    ensures Writes(Run(i, e)) || Polls(Run(i, e))
  {
    LocalFacts(s, i, e);
    EndsByWriteOrPoll(i, View(s, i), e);
  }

  lemma EndsByWriteOrPoll(i: InstanceID, l: Local, e: Event)
    requires Facts(i, l, e) && Smooth(Run(i, e)) && !DeletionEvent(e) && !l.pass.value.copy.fulfilled && l.pass.value.at != Returning
    requires var q := LocalNext(i, l, e).pass; q == None || q.value.at == Returning
    ensures Writes(Run(i, e)) || Polls(Run(i, e))
  {
  }

  /** The step is the last of a pass in the allocation phase, but for its Unlock, and the pass does not poll. */
  ghost predicate EndsAllocationPass(s: State, a: Action) {
    a.Run? && Enabled(s, a) && a.i in s.passes && !s.passes[a.i].copy.fulfilled && s.passes[a.i].at != Returning
    && (a.i !in Next(s, a).passes || Next(s, a).passes[a.i].at == Returning) && !Polls(a)
  }

  /** The passes of the allocation phase that come to their end without a fault and without polling. */
  ghost function CompletedPasses(s: State, acts: seq<Action>): nat
    decreases |acts|
  {
    if acts == [] || !Enabled(s, acts[0]) then 0
    else (if EndsAllocationPass(s, acts[0]) && Smooth(acts[0]) then 1 else 0) + CompletedPasses(Next(s, acts[0]), acts[1..])
  }

  /**
   So at most Measure(s) passes of the allocation phase end without a fault and do more than poll,
   whatever other passes meet.
   */
  lemma {:induction false} PassesBounded(s: State, acts: seq<Action>, s': State)
    requires Inv(s) && NoDeletions(s) && Performs(s, acts, s') && AllCalm(acts)
    ensures NoDeletions(s') && CompletedPasses(s, acts) + Measure(s') <= Measure(s)
    decreases |acts|
  {
    hide Inv, NoDeletions, Enabled, Next, Measure, Smooth, Calm, Writes, EndsAllocationPass;
    if acts != [] {
      assert acts[0] in acts && forall a :: a in acts[1..] ==> a in acts;
      StepMeasure(s, acts[0]);
      StepInv(s, acts[0]);
      CompletedWrites(s, acts[0]);
      PassesBounded(Next(s, acts[0]), acts[1..], s');
    }
  }

  lemma CompletedWrites(s: State, a: Action)
    requires Inv(s) && NoDeletions(s) && Enabled(s, a)
    ensures EndsAllocationPass(s, a) && Smooth(a) ==> Writes(a)
  {
    if EndsAllocationPass(s, a) && Smooth(a) {
      PassEndsByWriteOrPoll(s, a.i, a.e);
    }
    hide Inv, NoDeletions, Enabled, Next;
  }

  // ---------------------------------------------------------------- quiescence

  /** No host this instance could take: it has its finalizer, names no host, and every matching host is owned. */
  ghost predicate Starved(s: State, i: InstanceID) {
    i in s.objs && s.objs[i].inventoryFinalizer && s.objs[i].host == None && s.objs[i].matching <= s.owner.Keys
  }

  ghost predicate Settled(s: State) {
    forall i :: i in s.objs ==> s.objs[i].fulfilled || Starved(s, i)
  }

  /** One uninterrupted pass of an instance that is neither fulfilled nor starved lowers the measure. */
  lemma Progress(s: State, i: InstanceID) returns (acts: seq<Action>, s': State)
    requires Inv(s) && NoDeletions(s) && s.passes == map[]
    requires i in s.objs && !s.objs[i].fulfilled && !Starved(s, i)
    ensures Performs(s, acts, s') && AllSmooth(acts) && s'.passes == map[]
    ensures Measure(s') < Measure(s) && CountWrites(acts) > 0
  {
    NothingLocked(s);
    hide Inv, Performs, Measure;
    var x := s.objs[i];
    if !x.inventoryFinalizer {
      acts, s' := FinalizerPass(s, i);
    } else if x.host == None {
      var h :| h in x.matching && h !in s.owner;
      acts, s' := PickPass(s, i, h);
    } else if x.host.value in s.owner && s.owner[x.host.value] != i {
      acts, s' := RefusedPass(s, i, x.host.value);
    } else {
      acts, s' := ClaimPass(s, i, x.host.value);
    }
    assert AllSmooth(acts);
    if CountWrites(acts) == 0 {
      NoWriteNoChange(s, acts, s');
    }
    SmoothIsCalm(acts);
    WritesBounded(s, acts, s');
  }

  lemma NothingLocked(s: State)
    requires Inv(s) && s.passes == map[]
    ensures s.locked == {}
  {
  }

  /** Objects change only by writes. */
  lemma {:induction false} NoWriteNoChange(s: State, acts: seq<Action>, s': State)
    requires Inv(s) && NoDeletions(s) && Performs(s, acts, s') && AllSmooth(acts) && CountWrites(acts) == 0
    ensures forall i :: i in s.objs && !s.objs[i].fulfilled ==> i in s'.objs && s'.objs[i] == s.objs[i]
    decreases |acts|
  {
    hide Inv, NoDeletions, Enabled, Next, Writes;
    if acts != [] {
      assert acts[0] in acts && forall a :: a in acts[1..] ==> a in acts;
      StepMeasure(s, acts[0]);
      StepInv(s, acts[0]);
      NoWriteStep(s, acts[0]);
      NoWriteNoChange(Next(s, acts[0]), acts[1..], s');
    }
  }

  lemma NoWriteStep(s: State, a: Action)
    requires Inv(s) && NoDeletions(s) && Enabled(s, a) && Smooth(a) && !Writes(a)
    ensures forall i :: i in s.objs && !s.objs[i].fulfilled ==> i in Next(s, a).objs && Next(s, a).objs[i] == s.objs[i]
  {
    hide Ready, LocalNext, Inv, LocalOk;
    if a.Run? {
      LocalFacts(s, a.i, a.e);
      OtherSteps(a.i, View(s, a.i), a.e);
      CalmBack(s, a.i, LocalNext(a.i, View(s, a.i), a.e));
    }
  }

  /** From any state without passes in flight, fault-free passes lead to a settled state. */
  lemma {:induction false} AllocationCompletes(s: State) returns (acts: seq<Action>, s': State)
    requires Inv(s) && NoDeletions(s) && s.passes == map[]
    ensures Performs(s, acts, s') && AllSmooth(acts) && s'.passes == map[] && Settled(s')
    decreases Measure(s)
  {
    hide Inv, Performs, Measure, Smooth;
    if Settled(s) {
      PerformsNothing(s);
      acts, s' := [], s;
    } else {
      var i :| i in s.objs && !s.objs[i].fulfilled && !Starved(s, i);
      var first, s1 := Progress(s, i);
      PerformsInv(s, first, s1);
      SmoothIsCalm(first);
      WritesBounded(s, first, s1);
      var rest;
      rest, s' := AllocationCompletes(s1);
      PerformsConcat(s, first, s1, rest, s');
      acts := first + rest;
    }
  }

  lemma PerformsNothing(s: State)
    ensures Performs(s, [], s)
  {
  }

  /** Whatever fails or is edited, nothing is written any more until an instance is created or deleted. */
  ghost predicate Quiescent(s: State) {
    forall acts, s' :: Performs(s, acts, s') && AllCalm(acts) ==> CountWrites(acts) == 0
  }

  /** Settled, and every unfulfilled pass in flight is still at its start. */
  ghost predicate StaysSettled(s: State) {
    Settled(s) && NoDeletions(s)
    && forall i :: i in s.passes && !s.passes[i].copy.fulfilled ==> s.passes[i].at == Started
  }

  lemma LocalSettled(i: InstanceID, l: Local, e: Event)
    requires Facts(i, l, e) && !DeletionEvent(e) && !e.FindHost?
    requires l.obj.value.fulfilled || (l.obj.value.inventoryFinalizer && l.obj.value.host == None)
    requires !l.pass.value.copy.fulfilled ==> l.pass.value.at == Started
    ensures !AllocationWrite(e)
    ensures var q := LocalNext(i, l, e).pass; q.Some? && !q.value.copy.fulfilled ==> q.value.at == Started
  {
  }

  lemma SettledStep(s: State, a: Action)
    requires Inv(s) && StaysSettled(s) && Enabled(s, a) && Calm(a)
    ensures !Writes(a) && StaysSettled(Next(s, a))
  {
    hide Ready, LocalNext, Inv, LocalOk, Facts, OtherEffect;
    if a.Run? {
      var l := View(s, a.i);
      var l' := LocalNext(a.i, l, a.e);
      LocalFacts(s, a.i, a.e);
      assert s.objs[a.i].fulfilled || Starved(s, a.i);
      SelectorAgrees(s, a.i, a.e);
      LocalSettled(a.i, l, a.e);
      OtherSteps(a.i, l, a.e);
      hide StaysSettled;
      SettledBack(s, a.i, l', a.e);
    } else {
      CalmStep(s, a);
      hide Next, Enabled;
      SameSettled(s, Next(s, a));
    }
  }

  lemma SameSettled(s: State, s': State)
    requires StaysSettled(s) && SameAllocation(s, s') && NoDeletions(s')
    ensures StaysSettled(s')
  {
    forall i | i in s'.passes && !s'.passes[i].copy.fulfilled
      ensures s'.passes[i].at == Started
    {
      assert Lookup(s'.passes, i) == Lookup(s.passes, i) || s'.passes[i].at == Started;
    }
  }

  lemma SettledBack(s: State, i: InstanceID, l': Local, e: Event)
    requires StaysSettled(s) && i in s.passes
    requires OtherEffect(i, View(s, i), l', e) && CalmEffect(View(s, i), l')
    requires l'.pass.Some? && !l'.pass.value.copy.fulfilled ==> l'.pass.value.at == Started
    ensures StaysSettled(WriteBack(s, i, l'))
  {
  }

  /** A starved instance finds no host. */
  lemma SelectorAgrees(s: State, i: InstanceID, e: Event)
    requires Inv(s) && Enabled(s, Run(i, e)) && (i in s.objs && (s.objs[i].fulfilled || Starved(s, i)))
    ensures !e.FindHost?
  {
  }

  lemma {:induction false} SettledWritesNothing(s: State, acts: seq<Action>, s': State)
    requires Inv(s) && StaysSettled(s) && Performs(s, acts, s') && AllCalm(acts)
    ensures CountWrites(acts) == 0
    decreases |acts|
  {
    hide Inv, StaysSettled, Enabled, Next, Calm, Writes;
    if acts != [] {
      assert acts[0] in acts && forall a :: a in acts[1..] ==> a in acts;
      SettledStep(s, acts[0]);
      StepInv(s, acts[0]);
      SettledWritesNothing(Next(s, acts[0]), acts[1..], s');
    }
  }

  /**
   Between passes, nothing is left to write, whatever fails, exactly when every instance is fulfilled
   or finds every matching host owned.
   */
  lemma QuiescentIffSettled(s: State)
    requires Inv(s) && NoDeletions(s) && s.passes == map[]
    ensures Quiescent(s) <==> Settled(s)
  {
    hide Inv, Performs, Smooth, Calm;
    if !Settled(s) {
      var i :| i in s.objs && !s.objs[i].fulfilled && !Starved(s, i);
      var acts, s' := Progress(s, i);
      SmoothIsCalm(acts);
    } else {
      forall acts, s' | Performs(s, acts, s') && AllCalm(acts)
        ensures CountWrites(acts) == 0
      {
        SettledWritesNothing(s, acts, s');
      }
    }
  }
}
