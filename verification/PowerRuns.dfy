/**
 Runs of management passes.  Specs, replies and finalizers vary freely from turn to turn, and
 the status write of a turn may be lost, in which case the next turn starts from the old status, or
 from what the provisioning library stored in mid-pass.
 */
module PowerRuns {
  import opened Wrappers
  import opened Power

  datatype Turn = Turn(
    spec: Spec,
    hasFinalizer: bool,
    answers: Answers,
    persisted: bool,              // the status write at the end of the pass
    flushed: bool)                // the library's own status write, after its callback

  function End(st: Status, t: Turn): PassEnd {
    ManagePass(t.spec, st, t.hasFinalizer, t.answers)
  }

  function After(st: Status, t: Turn): Status {
    if t.persisted then End(st, t).status
    else if t.flushed && t.spec.templated && t.answers.provider && t.hasFinalizer then Provisioned(st, t.answers.provision)
    else st
  }

  /** sts[k] is the stored status turn k starts from. */
  ghost predicate IsRun(sts: seq<Status>, turns: seq<Turn>) {
    |sts| == |turns| + 1 && forall k :: 0 <= k < |turns| ==> sts[k + 1] == After(sts[k], turns[k])
  }

  /**
   A template that failed is on record even if the status write at the end of the pass is lost, once the
   library has stored its own; and of a lost pass nothing else is.
   */
  lemma LostPassLeaves(st: Status, t: Turn)
    requires !t.persisted
    ensures After(st, t) == st.(phase := After(st, t).phase, provisioned := After(st, t).provisioned)
    ensures t.flushed && t.spec.templated && t.answers.provider && t.hasFinalizer && t.answers.provision.callback == OnFailed ==>
              After(st, t).phase == Phase.Failed && After(st, t).provisioned == Some(Condition(IsFalse, TemplateFailed))
  {
  }

  // ---------------------------------------------------------------- stale reads

  /** Turn k ended with PowerSynced not True, and that was stored. */
  ghost predicate EndsUnsynced(sts: seq<Status>, turns: seq<Turn>, k: nat)
    requires IsRun(sts, turns) && k < |turns|
  {
    turns[k].persisted && !WasSynced(End(sts[k], turns[k]).status)
  }

  /** Turn m saw the power state converged, set PowerSynced, and asked for one more look. */
  ghost predicate Verifies(sts: seq<Status>, turns: seq<Turn>, m: nat)
    requires IsRun(sts, turns) && m < |turns|
  {
    var e := End(sts[m], turns[m]);
    turns[m].persisted && e.status.phase == Progressing
    && e.status.powerSynced.Some? && e.status.powerSynced.value.status == IsTrue
  }

  /**
   While a run strategy is specified, a turn that ends unsynced is followed by a verifying turn
   before any turn reports Ready, whichever status writes are lost in between.
   */
  lemma {:induction false} ReadyNeedsVerification(sts: seq<Status>, turns: seq<Turn>, k: nat, n: nat)
    requires IsRun(sts, turns) && k < n < |turns|
    requires forall m :: k <= m <= n ==> turns[m].spec.runStrategy != Unspecified
    requires EndsUnsynced(sts, turns, k) && EndsReady(End(sts[n], turns[n]))
    ensures exists m :: k < m < n && Verifies(sts, turns, m)
  {
    if forall m :: k < m < n ==> !Verifies(sts, turns, m) {
      StillUnsynced(sts, turns, k, n);
      UnsyncedStart(turns[n].spec, sts[n], turns[n].hasFinalizer, turns[n].answers);
      assert false;
    }
  }

  lemma {:induction false} StillUnsynced(sts: seq<Status>, turns: seq<Turn>, k: nat, n: nat)
    requires IsRun(sts, turns) && k < n < |turns|
    requires forall m :: k <= m <= n ==> turns[m].spec.runStrategy != Unspecified
    requires EndsUnsynced(sts, turns, k)
    requires forall m :: k < m < n ==> !Verifies(sts, turns, m)
    ensures !WasSynced(sts[n])
  {
    assert sts[n - 1 + 1] == After(sts[n - 1], turns[n - 1]);
    if k + 1 < n {
      StillUnsynced(sts, turns, k, n - 1);
      var t := turns[n - 1];
      UnsyncedStart(t.spec, sts[n - 1], t.hasFinalizer, t.answers);
      assert !Verifies(sts, turns, n - 1);
    }
  }

  // ---------------------------------------------------------------- restart accounting

  /** Accepted TriggerRestart calls of the turns before k. */
  function Restarted(sts: seq<Status>, turns: seq<Turn>, k: nat): nat
    requires |sts| == |turns| + 1 && k <= |turns|
  {
    if k == 0 then 0
    else Restarted(sts, turns, k - 1) + (if AcceptedRestart(End(sts[k - 1], turns[k - 1])) then 1 else 0)
  }

  /** Advances of the acknowledged trigger in the turns before k. */
  function Acknowledged(sts: seq<Status>, turns: seq<Turn>, k: nat): nat
    requires |sts| == |turns| + 1 && k <= |turns|
  {
    if k == 0 then 0
    else Acknowledged(sts, turns, k - 1) + (if sts[k].restartTrigger != sts[k - 1].restartTrigger then 1 else 0)
  }

  /** The trigger only grows, status writes are stored, and the completion check never fails. */
  ghost predicate Orderly(sts: seq<Status>, turns: seq<Turn>) {
    IsRun(sts, turns)
    && (|turns| > 0 ==> sts[0].restartTrigger <= turns[0].spec.restartTrigger)
    && (forall k {:trigger turns[k]} :: 0 <= k < |turns| ==> turns[k].persisted && turns[k].answers.complete.Ok?)
    && (forall k {:trigger turns[k].spec} :: 0 < k < |turns| ==>
          turns[k - 1].spec.restartTrigger <= turns[k].spec.restartTrigger)
  }

  /** The spec the stored status was last compared with. */
  function LastTrigger(sts: seq<Status>, turns: seq<Turn>, k: nat): int
    requires |sts| == |turns| + 1 && k <= |turns|
  {
    if k == 0 then sts[0].restartTrigger else turns[k - 1].spec.restartTrigger
  }

  /** A restart is under way: accepted and not acknowledged. */
  ghost predicate Pending(sts: seq<Status>, turns: seq<Turn>, k: nat)
    requires |sts| == |turns| + 1 && k <= |turns|
  {
    sts[k].restartTrigger < LastTrigger(sts, turns, k) && sts[k].powerSynced == RESTARTING
  }

  /** Accepted restarts never exceed acknowledgements by more than the one under way. */
  lemma {:induction false} RestartAccounting(sts: seq<Status>, turns: seq<Turn>, k: nat)
    requires Orderly(sts, turns) && k <= |turns|
    ensures sts[k].restartTrigger <= LastTrigger(sts, turns, k)
    ensures Restarted(sts, turns, k) <= Acknowledged(sts, turns, k) + (if Pending(sts, turns, k) then 1 else 0)
  {
    if k > 0 {
      RestartAccounting(sts, turns, k - 1);
      var t, st := turns[k - 1], sts[k - 1];
      assert sts[k - 1 + 1] == After(st, t);
      assert LastTrigger(sts, turns, k - 1) <= t.spec.restartTrigger;
      AccountingStep(t, st);
    }
  }

  lemma AccountingStep(t: Turn, st: Status)
    requires t.persisted && t.answers.complete.Ok? && st.restartTrigger <= t.spec.restartTrigger
    ensures var e := End(st, t); var changed := st.restartTrigger != t.spec.restartTrigger;
      && e.status.restartTrigger <= t.spec.restartTrigger
      && (AcceptedRestart(e) ==> changed && st.powerSynced != RESTARTING && e.status.restartTrigger == st.restartTrigger
                                 && e.status.powerSynced == RESTARTING)
      && (changed && st.powerSynced == RESTARTING ==>
            e.status.restartTrigger == t.spec.restartTrigger || e.status.powerSynced == RESTARTING)
  {
    GateKeepsPower(t.spec, st, t.answers.provision);
    RestartsIff(t.spec, st, t.hasFinalizer, t.answers);
    AcknowledgesIff(t.spec, st, t.hasFinalizer, t.answers);
  }

  /** Changes made while a restart is under way coalesce: no second restart, and one acknowledgement covers them all. */
  lemma ChangesCoalesce(t: Turn, st: Status)
    requires st.powerSynced == RESTARTING && t.spec.restartTrigger != st.restartTrigger
    ensures !Restarts(End(st, t))
    ensures End(st, t).status.restartTrigger != st.restartTrigger ==>
      End(st, t).status.restartTrigger == t.spec.restartTrigger
  {
    RestartsIff(t.spec, st, t.hasFinalizer, t.answers);
    AcknowledgesIff(t.spec, st, t.hasFinalizer, t.answers);
  }

  // ---------------------------------------------------------------- earned acknowledgements

  /** From turn 0 on the trigger differs from the acknowledged one, and no turn before n acknowledges it. */
  ghost predicate Waiting(sts: seq<Status>, turns: seq<Turn>, n: nat) {
    IsRun(sts, turns) && n < |turns|
    && (forall k {:trigger sts[k]} :: 0 <= k <= n ==> sts[k].restartTrigger == sts[0].restartTrigger)
    && (forall k {:trigger turns[k]} :: 0 <= k <= n ==>
          turns[k].spec.restartTrigger != sts[0].restartTrigger && turns[k].spec.runStrategy != Halted)
  }

  ghost predicate RestartedBefore(sts: seq<Status>, turns: seq<Turn>, n: nat)
    requires |sts| == |turns| + 1 && n < |turns|
  {
    exists k :: 0 <= k < n && AcceptedRestart(End(sts[k], turns[k]))
  }

  /**
   If no transition is on record when the change is first seen, the turn that acknowledges it comes
   strictly after an accepted restart and finds it complete, whichever writes and calls fail.
   */
  lemma AcknowledgementEarned(sts: seq<Status>, turns: seq<Turn>, n: nat)
    requires Waiting(sts, turns, n) && sts[0].powerSynced != RESTARTING
    requires End(sts[n], turns[n]).status.restartTrigger != sts[n].restartTrigger
    ensures RestartedBefore(sts, turns, n) && turns[n].answers.complete == Ok(true)
  {
    var t := turns[n];
    assert t.spec.runStrategy != Halted;
    AcknowledgesIff(t.spec, sts[n], t.hasFinalizer, t.answers);
    RestartingWasAccepted(sts, turns, n, n);
  }

  lemma {:induction false} RestartingWasAccepted(sts: seq<Status>, turns: seq<Turn>, n: nat, k: nat)
    requires Waiting(sts, turns, n) && k <= n && sts[0].powerSynced != RESTARTING && sts[k].powerSynced == RESTARTING
    ensures RestartedBefore(sts, turns, k)
  {
    var t, st := turns[k - 1], sts[k - 1];
    assert sts[k - 1 + 1] == After(st, t) && sts[k].restartTrigger == st.restartTrigger;
    assert t.spec.restartTrigger != st.restartTrigger && t.spec.runStrategy != Halted;
    if st.powerSynced == RESTARTING {
      RestartingWasAccepted(sts, turns, n, k - 1);
    } else {
      RestartingStep(t, st);
    }
  }

  /** With a change pending, only an accepted restart puts a transition on record. */
  lemma RestartingStep(t: Turn, st: Status)
    requires t.spec.restartTrigger != st.restartTrigger && t.spec.runStrategy != Halted && st.powerSynced != RESTARTING
    ensures End(st, t).status.powerSynced == RESTARTING <==> AcceptedRestart(End(st, t))
  {
  }

  /** With a transition on record and no failing check, nothing is restarted, and the record stays until the acknowledgement. */
  lemma NoRestartStep(t: Turn, st: Status)
    requires st.powerSynced == RESTARTING && t.spec.restartTrigger != st.restartTrigger && t.answers.complete.Ok?
    requires t.spec.runStrategy != Halted && After(st, t).restartTrigger == st.restartTrigger
    ensures After(st, t).powerSynced == RESTARTING
    ensures !AcceptedRestart(End(st, t))
  {
    GateKeepsPower(t.spec, st, t.answers.provision);
    RestartsIff(t.spec, st, t.hasFinalizer, t.answers);
  }

  /** With a transition already on record, the change is taken for the restart that is under way. */
  lemma {:induction false} NoRestartOnRecord(sts: seq<Status>, turns: seq<Turn>, n: nat, k: nat)
    requires Waiting(sts, turns, n) && k <= n && sts[0].powerSynced == RESTARTING
    requires forall m {:trigger turns[m]} :: 0 <= m <= n ==> turns[m].answers.complete.Ok?
    ensures sts[k].powerSynced == RESTARTING && !RestartedBefore(sts, turns, k)
  {
    if k > 0 {
      NoRestartOnRecord(sts, turns, n, k - 1);
      var t, st := turns[k - 1], sts[k - 1];
      assert sts[k - 1 + 1] == After(st, t) && sts[k].restartTrigger == st.restartTrigger;
      assert t.spec.restartTrigger != st.restartTrigger && t.spec.runStrategy != Halted && t.answers.complete.Ok?;
      NoRestartStep(t, st);
    }
  }

  /**
   As long as the completion check does not fail, an acknowledged change was restarted for
   exactly if no transition was on record when the change was first seen.
   */
  lemma EarnedIff(sts: seq<Status>, turns: seq<Turn>, n: nat)
    requires Waiting(sts, turns, n)
    requires forall m {:trigger turns[m]} :: 0 <= m <= n ==> turns[m].answers.complete.Ok?
    requires End(sts[n], turns[n]).status.restartTrigger != sts[n].restartTrigger
    ensures RestartedBefore(sts, turns, n) <==> sts[0].powerSynced != RESTARTING
  {
    if sts[0].powerSynced != RESTARTING {
      AcknowledgementEarned(sts, turns, n);
    } else {
      NoRestartOnRecord(sts, turns, n, n);
    }
  }

  /**
   A host that is merely being powered on has its restart request acknowledged without a restart: the
   first turn powers it on, the request arrives, and the second turn takes the finished power-on for
   the restart.
   */
  lemma UnearnedAcknowledgement() returns (sts: seq<Status>, turns: seq<Turn>)
    ensures IsRun(sts, turns) && |turns| == 2 && sts[0].powerSynced == None
    ensures turns[0].spec.restartTrigger == sts[0].restartTrigger
    ensures End(sts[0], turns[0]).commands == [SetPower(true, Accepted)]
    ensures turns[1].spec.restartTrigger != sts[1].restartTrigger && turns[1].spec.runStrategy == Always
    ensures sts[2].restartTrigger == turns[1].spec.restartTrigger && End(sts[1], turns[1]).commands == []
  {
    var off, starting, on := Power(PowerStatus(false, false)), Power(PowerStatus(false, true)), Power(PowerStatus(true, false));
    var quiet := ProvisionReply(Silent, Done, false);
    var first := Turn(Spec(false, Always, 0), true,
                      Answers(true, true, quiet, Ok(true), Accepted, off, Accepted, starting), true, false);
    var second := Turn(Spec(false, Always, 1), true,
                       Answers(true, true, quiet, Ok(true), Accepted, on, Accepted, on), true, false);
    var st0 := Status(Progressing, Unspecified, 0, None, None, true);
    var st1 := After(st0, first);
    var st2 := After(st1, second);
    assert st1 == Status(Progressing, Halted, 0, RESTARTING, None, true);
    AcknowledgesIff(second.spec, st1, true, second.answers);
    sts, turns := [st0, st1, st2], [first, second];
  }
}
