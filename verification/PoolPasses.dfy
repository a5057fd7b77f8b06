/**
 What one pass of a pool may do, as a relation between its spec, the replies it heard and the steps it
 took.  Module PoolReconcile proves its methods against these relations.
 */
module PoolPasses {
  import opened Wrappers
  import opened Fleet
  import opened Passes
  import opened Sums

  /** Of a pool's spec: it names a profile; its checks succeed; the profile has a workflow for the pool itself. */
  datatype PoolSpec = PoolSpec(profiled: bool, valid: bool, workflow: bool)

  datatype PoolDeed = PoolDeed(heard: seq<Reply>, did: seq<PoolEvent>)

  const Idle := PoolDeed([], [])

  function PoolThen(a: PoolDeed, b: PoolDeed): PoolDeed {
    PoolDeed(a.heard + b.heard, a.did + b.did)
  }

  const Returns := PoolDeed([], [PoolQuit])

  // ---------------------------------------------------------------- update

  predicate Usable(spec: PoolSpec, provider: bool) {
    spec.valid && (spec.profiled ==> provider)
  }

  /** ensureFinalizer: the pass goes on only with the finalizer stored. */
  predicate Finalizes(hasFinalizer: bool, d: PoolDeed, ok: bool) {
    if hasFinalizer then d == PoolDeed([], [PoolScale]) && ok
    else
      |d.heard| == 1 && d.heard[0].Wrote? && d.did == [PoolAddFinalizer(d.heard[0].o)]
      && ok == (d.heard[0].o == Confirmed)
  }

  predicate Scales(did: seq<PoolEvent>) {
    forall k :: 0 <= k < |did| ==> did[k].PoolCreateInstance? || did[k].PoolDeleteInstance?
  }

  function Scaled(did: seq<PoolEvent>): PoolDeed {
    PoolDeed([], did + [PoolQuit])
  }

  ghost predicate PoolUpdatePass(spec: PoolSpec, provider: bool, hasFinalizer: bool, d: PoolDeed) {
    if !Usable(spec, provider) then d == Returns
    else
      Finalizes(hasFinalizer, d, false)
      || exists a, did :: Finalizes(hasFinalizer, a, true) && Scales(did) && d == PoolThen(a, Scaled(did))
  }

  // ---------------------------------------------------------------- deletion

  /** The deletion loop: one call for each instance that was not marked when listed, up to the first error. */
  predicate Deletes(unmarked: set<InstanceID>, d: PoolDeed, ok: bool) {
    (forall k :: 0 <= k < |d.heard| ==> d.heard[k].Wrote?)
    && (forall k :: 0 <= k < |d.did| ==> d.did[k].PoolDeleteInstance? && d.did[k].i in unmarked)
    && |d.did| <= |d.heard| <= |unmarked|
    && if ok then |d.heard| == |unmarked| && AllGood(d.heard)
       else
         d.heard != [] && !Good(d.heard[|d.heard| - 1]) && AllGood(d.heard[..|d.heard| - 1])
         && (d.heard[|d.heard| - 1].o == Failed ==> |d.did| < |d.heard|)
  }

  /** One round of that loop. */
  predicate DeletesOne(i: InstanceID, d: PoolDeed, ok: bool) {
    |d.heard| == 1 && d.heard[0].Wrote? && ok == (d.heard[0].o == Confirmed)
    && (d.did == [] || (d.did == [PoolDeleteInstance(i)] && d.heard[0].o != Failed))
  }

  lemma NoDeletesYet(unmarked: set<InstanceID>)
    ensures Deletes(unmarked - unmarked, Idle, true)
  {
    assert unmarked - unmarked == {};
  }

  lemma DeletesOneMore(unmarked: set<InstanceID>, todo: set<InstanceID>, i: InstanceID, d: PoolDeed, e: PoolDeed, ok: bool)
    requires i in todo && todo <= unmarked && Deletes(unmarked - todo, d, true) && DeletesOne(i, e, ok)
    ensures if ok then Deletes(unmarked - (todo - {i}), PoolThen(d, e), true) else Deletes(unmarked, PoolThen(d, e), false)
  {
    var all := PoolThen(d, e);
    assert unmarked - (todo - {i}) == unmarked - todo + {i};
    assert all.heard[..|all.heard| - 1] == d.heard;
    assert |unmarked - todo + {i}| == |unmarked - todo| + 1;
    SubsetSize(unmarked - todo + {i}, unmarked);
  }

  lemma LoopDropsNothing(unmarked: set<InstanceID>, d: PoolDeed, ok: bool)
    requires Deletes(unmarked, d, ok)
    ensures forall pe :: pe in d.did ==> !pe.PoolDropFinalizer?
  {
  }

  /** The workflow's teardown job, if there is one, then the finalizer. */
  predicate TearsDown(spec: PoolSpec, provider: bool, d: PoolDeed) {
    if !spec.workflow then |d.heard| == 1 && d.heard[0].Wrote? && d.did == [PoolDropFinalizer(d.heard[0].o)]
    else if !provider then d == Returns
    else
      |d.heard| > 0 && d.heard[0].Asked?
      && if !d.heard[0].done then |d.heard| == 1 && d.did == [PoolQuit]
         else |d.heard| == 2 && d.heard[1].Wrote? && d.did == [PoolDropFinalizer(d.heard[1].o)]
  }

  /** What follows the deletion loop. */
  predicate ConcludesDeletion(spec: PoolSpec, provider: bool, listed: set<InstanceID>, ok: bool, d: PoolDeed, requeue: bool) {
    requeue == (ok && listed != {})
    && if ok && listed == {} then TearsDown(spec, provider, d) else d == Returns
  }

  /** The List call. */
  predicate Lists(d: PoolDeed, ok: bool) {
    |d.heard| == 1 && d.heard[0].Called? && ok == (d.heard[0].o == Confirmed) && d.did == [if ok then PoolList else PoolQuit]
  }

  ghost predicate PoolDeletionPass(spec: PoolSpec, provider: bool, listed: set<InstanceID>, unmarked: set<InstanceID>,
                               d: PoolDeed, requeue: bool)
  {
    (Lists(d, false) && !requeue)
    || exists a, b, c, ok :: Lists(a, true) && Deletes(unmarked, b, ok)
                             && ConcludesDeletion(spec, provider, listed, ok, c, requeue) && d == PoolThen(a, PoolThen(b, c))
  }

  // ---------------------------------------------------------------- what this promises

  lemma GoodPoolThen(a: PoolDeed, b: PoolDeed)
    requires AllGood(PoolThen(a, b).heard)
    ensures AllGood(a.heard) && AllGood(b.heard)
  {
    GoodThen(Deed(a.heard, []), Deed(b.heard, []));
  }

  /**
   The finalizer is only written by a pass that found no instance left and, if the pool has a workflow,
   heard that its teardown is done; and it is the last thing the pass does.
   */
  lemma DroppedOnlyWhenTornDown(spec: PoolSpec, provider: bool, listed: set<InstanceID>, unmarked: set<InstanceID>,
                                d: PoolDeed, requeue: bool, o: Outcome)
    requires PoolDeletionPass(spec, provider, listed, unmarked, d, requeue) && PoolDropFinalizer(o) in d.did
    ensures listed == {} && !requeue && (spec.workflow ==> provider && Asked(true) in d.heard)
    ensures d.did[|d.did| - 1] == PoolDropFinalizer(o)
  {
    var a, b, c, ok :| Lists(a, true) && Deletes(unmarked, b, ok)
                       && ConcludesDeletion(spec, provider, listed, ok, c, requeue) && d == PoolThen(a, PoolThen(b, c));
    assert PoolDropFinalizer(o) in c.did;
    assert d.did[|d.did| - 1] == c.did[|c.did| - 1];
    assert Asked(true) in c.heard ==> Asked(true) in d.heard;
  }

  /** A pass that does not ask to be run again has dropped the finalizer, if no reply and no missing provider stood in the way. */
  lemma GoodDeletionDrops(spec: PoolSpec, provider: bool, listed: set<InstanceID>, unmarked: set<InstanceID>,
                          d: PoolDeed, requeue: bool)
    requires PoolDeletionPass(spec, provider, listed, unmarked, d, requeue) && AllGood(d.heard) && (spec.workflow ==> provider)
    ensures requeue <==> listed != {}
    ensures !requeue ==> PoolDropFinalizer(Confirmed) in d.did
  {
    var a, b, c, ok :| Lists(a, true) && Deletes(unmarked, b, ok)
                       && ConcludesDeletion(spec, provider, listed, ok, c, requeue) && d == PoolThen(a, PoolThen(b, c));
    GoodPoolThen(a, PoolThen(b, c));
    GoodPoolThen(b, c);
    assert PoolDropFinalizer(Confirmed) in c.did ==> PoolDropFinalizer(Confirmed) in d.did;
  }

  /** Instances are created or deleted by an update pass only behind a stored finalizer. */
  lemma ScaledOnlyBehindFinalizer(spec: PoolSpec, provider: bool, hasFinalizer: bool, d: PoolDeed, k: nat)
    requires PoolUpdatePass(spec, provider, hasFinalizer, d)
    requires k < |d.did| && (d.did[k].PoolCreateInstance? || d.did[k].PoolDeleteInstance?)
    ensures Usable(spec, provider) && k > 0 && d.did[0] == if hasFinalizer then PoolScale else PoolAddFinalizer(Confirmed)
  {
  }

  /** Of a pool pass only the two finalizer writes touch a pool as it is stored. */
  lemma PoolsWritten(s: State, p: PoolID, pe: PoolEvent)
    requires PoolReady(s, p, pe)
    ensures !(pe.PoolAddFinalizer? && pe.o != Failed) && !(pe.PoolDropFinalizer? && pe.o != Failed) ==>
              PoolNext(s, p, pe).pools == s.pools
    ensures pe.PoolAddFinalizer? && pe.o != Failed ==>
              p in s.pools && PoolNext(s, p, pe).pools
                == s.pools[p := s.poolPasses[p].copy.(finalizer := true, version := s.poolPasses[p].copy.version + 1)]
    ensures pe.PoolDropFinalizer? && pe.o != Failed && s.poolPasses[p].copy.deleting ==>
              PoolNext(s, p, pe).pools == s.pools - {p}
  {
  }
}
