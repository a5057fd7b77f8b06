/**
 What a management pass leaves behind, one field at a time and in terms of the object, the replies
 and the old status only.  Together the laws leave nothing of a pass open.
 */
module PowerFields {
  import opened Wrappers
  import opened Power

  // ---------------------------------------------------------------- how far a pass gets

  predicate Blocked(spec: Spec, a: Answers) {
    spec.templated && !a.provider
  }

  /** The provisioning library is called. */
  predicate Provisions(spec: Spec, hasFinalizer: bool, a: Answers) {
    spec.templated && a.provider && hasFinalizer
  }

  /** The library's reply ends the pass without asking for another. */
  predicate TemplateBad(spec: Spec, st: Status, hasFinalizer: bool, a: Answers) {
    Provisions(spec, hasFinalizer, a)
    && (a.provision.failed || (a.provision.requeue == Done && !GateOpen(spec, st, a.provision)))
  }

  predicate RestartDue(spec: Spec, st: Status) {
    spec.restartTrigger != st.restartTrigger && spec.runStrategy != Halted
  }

  /** The restart call, or the check whether the restart is over, fails. */
  predicate RestartFails(spec: Spec, st: Status, a: Answers) {
    RestartDue(spec, st) && if st.powerSynced == RESTARTING then a.complete == Err else a.restart == Refused
  }

  /** The pass gets to reading the power state. */
  predicate Reads(spec: Spec, st: Status, hasFinalizer: bool, a: Answers) {
    Gated(spec, st, hasFinalizer, a) && TriggerSettled(spec, st, a)
  }

  /** The first reading shows a settled host that is not as the run strategy wants it. */
  predicate Drives(spec: Spec, a: Answers) {
    spec.runStrategy != Unspecified && a.first.Power? && !a.first.status.transitioning
    && a.first.status.on != (spec.runStrategy == Always)
  }

  predicate PowerFails(spec: Spec, a: Answers) {
    a.first == NoPower || (Drives(spec, a) && a.power == Refused) || (spec.runStrategy != Unspecified && a.second == NoPower)
  }

  /** What the status is brought up to date with. */
  function LastReading(spec: Spec, a: Answers): PowerReply {
    if spec.runStrategy == Unspecified then a.first else a.second
  }

  // ---------------------------------------------------------------- beyond the gate

  lemma ObservedBeyond(spec: Spec, st: Status, a: Answers)
    ensures RestartAndPower(spec, st, a).status.runStrategy
         == if TriggerSettled(spec, st, a) && !PowerFails(spec, a)
            then (if LastReading(spec, a).status.on then Always else Halted) else st.runStrategy
    ensures RestartAndPower(spec, st, a).status.provisioned == st.provisioned
  {
  }

  lemma SyncedBeyond(spec: Spec, st: Status, a: Answers)
    ensures var c := RestartAndPower(spec, st, a).status.powerSynced;
      if RestartFails(spec, st, a) then c == Some(Condition(IsFalse, PowerSyncFailed))
      else if !TriggerSettled(spec, st, a) then
        c == if st.powerSynced != RESTARTING && a.restart == Transitioning then Some(Condition(IsFalse, PowerSyncFailed))
             else RESTARTING
      else if PowerFails(spec, a) then c == Some(Condition(IsFalse, IronicAPIFailure))
      else
        var p := LastReading(spec, a).status;
        if p.transitioning || (spec.runStrategy != Unspecified && p.on != (spec.runStrategy == Always))
        then c == RESTARTING else c == Some(Condition(IsTrue, if p.on then PoweredOn else PoweredOff))
  {
  }

  // ---------------------------------------------------------------- the fields

  /** Ready is ReadyIff's; of the rest a pass is Failed in exactly these situations and Progressing in all others. */
  lemma PhaseIff(spec: Spec, st: Status, hasFinalizer: bool, a: Answers)
    ensures var e := ManagePass(spec, st, hasFinalizer, a);
      && e.status.phase in {Phase.Failed, Progressing, Ready}
      && (e.status.phase == Ready ==> EndsReady(e))
      && (e.status.phase == Phase.Failed <==>
            || Blocked(spec, a)
            || (!Blocked(spec, a) && !hasFinalizer && !a.finalizer)
            || TemplateBad(spec, st, hasFinalizer, a)
            || (Gated(spec, st, hasFinalizer, a) && RestartFails(spec, st, a))
            || (Reads(spec, st, hasFinalizer, a) && PowerFails(spec, a)))
  {
  }

  /** Which passes return an error. */
  lemma ErrorIff(spec: Spec, st: Status, hasFinalizer: bool, a: Answers)
    ensures ManagePass(spec, st, hasFinalizer, a).failed <==>
      || (!Blocked(spec, a) && !hasFinalizer && !a.finalizer)
      || (Provisions(spec, hasFinalizer, a) && a.provision.failed)
      || (Gated(spec, st, hasFinalizer, a) && RestartFails(spec, st, a))
      || (Reads(spec, st, hasFinalizer, a) && PowerFails(spec, a))
  {
  }

  /** A pass that is not over is looked at again: when the library says so, or when restart or power are under way. */
  lemma RequeueIff(spec: Spec, st: Status, hasFinalizer: bool, a: Answers)
    ensures var e := ManagePass(spec, st, hasFinalizer, a);
      e.requeue == if Provisions(spec, hasFinalizer, a) && !Gated(spec, st, hasFinalizer, a) then a.provision.requeue
                   else if Gated(spec, st, hasFinalizer, a) && e.status.phase == Progressing then RequeueAfter
                   else Done
  {
  }

  /** The observed run strategy follows the last reading, and stays when there is none. */
  lemma ObservedIff(spec: Spec, st: Status, hasFinalizer: bool, a: Answers)
    ensures ManagePass(spec, st, hasFinalizer, a).status.runStrategy
         == if Reads(spec, st, hasFinalizer, a) && !PowerFails(spec, a)
            then (if LastReading(spec, a).status.on then Always else Halted) else st.runStrategy
  {
    GateOpensIff(spec, st, a.provision);
    GateKeepsPower(spec, st, a.provision);
    hide RestartAndPower, ProvisionGate, GateOpen, PowerFails;
    if Gated(spec, st, hasFinalizer, a) {
      ObservedBeyond(spec, ProvisionGate(spec, st, a.provision).st, a);
    }
  }

  /** The power condition: True only for a settled host that is as wanted, with the reason of what failed otherwise. */
  lemma PowerSyncedIff(spec: Spec, st: Status, hasFinalizer: bool, a: Answers)
    ensures var c := ManagePass(spec, st, hasFinalizer, a).status.powerSynced;
      if !Gated(spec, st, hasFinalizer, a) then c == st.powerSynced
      else if RestartFails(spec, st, a) then c == Some(Condition(IsFalse, PowerSyncFailed))
      else if !TriggerSettled(spec, st, a) then
        c == if st.powerSynced != RESTARTING && a.restart == Transitioning then Some(Condition(IsFalse, PowerSyncFailed))
             else RESTARTING
      else if PowerFails(spec, a) then c == Some(Condition(IsFalse, IronicAPIFailure))
      else
        var p := LastReading(spec, a).status;
        if p.transitioning || (spec.runStrategy != Unspecified && p.on != (spec.runStrategy == Always))
        then c == RESTARTING else c == Some(Condition(IsTrue, if p.on then PoweredOn else PoweredOff))
  {
    GateOpensIff(spec, st, a.provision);
    GateKeepsPower(spec, st, a.provision);
    hide RestartAndPower, ProvisionGate, GateOpen, PowerFails;
    if Gated(spec, st, hasFinalizer, a) {
      SyncedBeyond(spec, ProvisionGate(spec, st, a.provision).st, a);
    }
  }

  /** The template condition: a failure is recorded and not overwritten by "in progress"; success is kept when the pass ends. */
  lemma ProvisionedIff(spec: Spec, st: Status, hasFinalizer: bool, a: Answers)
    ensures var c, r := ManagePass(spec, st, hasFinalizer, a).status.provisioned, a.provision;
      if Blocked(spec, a) then c == if st.hasHost then Some(Condition(IsFalse, TemplateFailed)) else st.provisioned
      else if !Provisions(spec, hasFinalizer, a) then c == st.provisioned
      else if r.callback == OnFailed then c == Some(Condition(IsFalse, TemplateFailed))
      else if r.failed || r.requeue != RequeueAfter then
        c == if r.callback == OnSuccess then Some(Condition(IsTrue, Succeeded)) else st.provisioned
      else if r.callback == Silent && st.provisioned.Some? && st.provisioned.value.reason == TemplateFailed
      then c == st.provisioned
      else c == Some(Condition(IsFalse, InProgress))
  {
    GateOpensIff(spec, st, a.provision);
    hide RestartAndPower, GateOpen;
    if Gated(spec, st, hasFinalizer, a) {
      ObservedBeyond(spec, ProvisionGate(spec, st, a.provision).st, a);
    }
  }

  /** The backend gets a restart, a power command or nothing. */
  lemma CommandsIff(spec: Spec, st: Status, hasFinalizer: bool, a: Answers)
    ensures ManagePass(spec, st, hasFinalizer, a).commands
         == if Gated(spec, st, hasFinalizer, a) && RestartDue(spec, st) && st.powerSynced != RESTARTING
            then [Restart(a.restart)]
            else if Reads(spec, st, hasFinalizer, a) && Drives(spec, a) then [SetPower(spec.runStrategy == Always, a.power)]
            else []
  {
  }

  /** A templated instance is commanded, or reported Ready, only with its template known to be complete. */
  lemma ActsOnlyWhenProvisioned(spec: Spec, st: Status, hasFinalizer: bool, a: Answers)
    requires spec.templated
    ensures var e := ManagePass(spec, st, hasFinalizer, a);
      e.commands != [] || EndsReady(e) ==>
        a.provider && hasFinalizer && !a.provision.failed && a.provision.requeue == Done && a.provision.callback != OnFailed
        && (e.status.provisioned == None || e.status.provisioned.value.status == IsTrue)
  {
  }
}
