/**
 The management phase of a pass: provisioning gate, restart trigger, power, status.  Every call
 to the provisioning library and to the management backend is answered from `Answers`, so
 the functions describe a pass against any backend and any sequence of replies.
 */
module Power {
  import opened Wrappers

  datatype RunStrategy = Unspecified | Always | Halted

  datatype Phase = Unset | Allocating | Progressing | Ready | Failed | Deleting

  datatype ConditionStatus = IsTrue | IsFalse | IsUnknown

  datatype Reason =
    | InProgress                  // "Progressing"
    | PowerSyncFailed
    | IronicAPIFailure
    | PoweredOn                   // "PowerOn"
    | PoweredOff                  // "PowerOff"
    | Completed
    | TemplateFailed
    | Succeeded

  datatype Condition = Condition(status: ConditionStatus, reason: Reason)

  datatype Spec = Spec(templated: bool, runStrategy: RunStrategy, restartTrigger: int)

  datatype Status = Status(
    phase: Phase,
    runStrategy: RunStrategy,             // observed power state
    restartTrigger: int,                  // last trigger acknowledged
    powerSynced: Option<Condition>,
    provisioned: Option<Condition>,       // ProvisionTemplateComplete
    hasHost: bool)                        // condition Allocated is True

  // ---------------------------------------------------------------- replies

  datatype PowerStatus = PowerStatus(on: bool, transitioning: bool)

  datatype PowerReply = NoPower | Power(status: PowerStatus)   // an error or nil, or a reading

  datatype CommandReply = Accepted | Transitioning | Refused

  datatype Callback = Silent | OnFailed | OnSuccess

  /** Whether a ctrl.Result asks for a requeue, at once or after a delay. */
  datatype Requeue = Done | RequeueNow | RequeueAfter

  datatype ProvisionReply = ProvisionReply(callback: Callback, requeue: Requeue, failed: bool)

  datatype Answers = Answers(
    finalizer: bool,              // the Update that adds the management finalizer is accepted
    provider: bool,               // a provisioning provider is configured
    provision: ProvisionReply,
    complete: Result<bool>,       // IsRestartComplete
    restart: CommandReply,        // TriggerRestart
    first: PowerReply,            // GetPowerState before reconcilePower
    power: CommandReply,          // SetPowerState
    second: PowerReply)           // GetPowerState after reconcilePower

  datatype Command = Restart(reply: CommandReply) | SetPower(on: bool, reply: CommandReply)

  datatype PassEnd = PassEnd(status: Status, requeue: Requeue, failed: bool, commands: seq<Command>)

  // ---------------------------------------------------------------- status

  const RESTARTING := Some(Condition(IsFalse, InProgress))

  function Observed(on: bool): RunStrategy {
    if on then Always else Halted
  }

  /** syncBareMetalInstanceStatus with an error. */
  function SyncError(st: Status): Status {
    st.(phase := Failed, powerSynced := Some(Condition(IsFalse, IronicAPIFailure)))
  }

  /** syncBareMetalInstanceStatus with a reading. */
  function Sync(spec: Spec, st: Status, p: PowerStatus): Status {
    var seen := Observed(p.on);
    st.(runStrategy := seen,
        powerSynced :=
          if p.transitioning || (spec.runStrategy != Unspecified && spec.runStrategy != seen) then RESTARTING
          else Some(Condition(IsTrue, if p.on then PoweredOn else PoweredOff)))
  }

  // ---------------------------------------------------------------- provisioning gate

  /** The gate is passed, or the pass ends here. */
  datatype Gate = Pass(st: Status) | Stop(end: PassEnd)

  function Provisioned(st: Status, r: ProvisionReply): Status {
    match r.callback
    case Silent => st
    case OnFailed => st.(phase := Failed, provisioned := Some(Condition(IsFalse, TemplateFailed)))
    case OnSuccess => st.(provisioned := Some(Condition(IsTrue, Succeeded)))
  }

  function ProvisionGate(spec: Spec, st: Status, r: ProvisionReply): Gate {
    if !spec.templated then Pass(st)
    else
      var st1 := Provisioned(st, r);
      if r.failed then Stop(PassEnd(st1.(phase := Failed), r.requeue, true, []))
      else
        var st2 :=
          if r.requeue == RequeueAfter && (st1.provisioned == None || st1.provisioned.value.reason != TemplateFailed)
          then st1.(provisioned := Some(Condition(IsFalse, InProgress))) else st1;
        if r.requeue != Done then Stop(PassEnd(st2.(phase := Progressing), r.requeue, false, []))
        else if st2.provisioned.Some? && st2.provisioned.value.status != IsTrue
        then Stop(PassEnd(st2.(phase := Failed), Done, false, []))
        else Pass(st2)
  }

  // ---------------------------------------------------------------- restart trigger

  function Acknowledge(spec: Spec, st: Status): Status {
    st.(restartTrigger := spec.restartTrigger, powerSynced := Some(Condition(IsTrue, Completed)))
  }

  function TriggerRestart(st: Status, reply: CommandReply): PassEnd {
    match reply
    case Accepted => PassEnd(st.(powerSynced := RESTARTING), RequeueAfter, false, [Restart(reply)])
    case Transitioning =>
      PassEnd(st.(powerSynced := Some(Condition(IsFalse, PowerSyncFailed))), RequeueAfter, false, [Restart(reply)])
    case Refused =>
      PassEnd(st.(powerSynced := Some(Condition(IsFalse, PowerSyncFailed))), Done, true, [Restart(reply)])
  }

  /** reconcileRestartTrigger. */
  function ReconcileRestart(spec: Spec, st: Status, a: Answers): PassEnd {
    if spec.restartTrigger == st.restartTrigger then PassEnd(st, Done, false, [])
    else if spec.runStrategy == Halted then PassEnd(Acknowledge(spec, st), Done, false, [])
    else if st.powerSynced != RESTARTING then TriggerRestart(st, a.restart)
    else match a.complete
      case Err => PassEnd(st.(powerSynced := Some(Condition(IsFalse, PowerSyncFailed))), Done, true, [])
      case Ok(done) => if done then PassEnd(Acknowledge(spec, st), Done, false, []) else PassEnd(st, RequeueAfter, false, [])
  }

  // ---------------------------------------------------------------- power

  /** reconcilePower: asks for a requeue, fails, or leaves the host alone. */
  datatype Drive = Drive(requeue: bool, failed: bool, commands: seq<Command>)

  function ReconcilePower(spec: Spec, p: PowerStatus, reply: CommandReply): Drive {
    var desired := spec.runStrategy == Always;
    if p.transitioning then Drive(true, false, [])
    else if desired == p.on then Drive(false, false, [])
    else Drive(reply != Refused, reply == Refused, [SetPower(desired, reply)])
  }

  function PowerPhase(spec: Spec, st: Status, a: Answers, wasSynced: bool): PassEnd {
    if a.first == NoPower then PassEnd(SyncError(st), Done, true, [])
    else if spec.runStrategy == Unspecified then PassEnd(Sync(spec, st, a.first.status).(phase := Ready), Done, false, [])
    else
      var d := ReconcilePower(spec, a.first.status, a.power);
      if d.failed || a.second == NoPower then PassEnd(SyncError(st), Done, true, d.commands)
      else
        var p := a.second.status;
        var st' := Sync(spec, st, p);
        if d.requeue || p.transitioning || (spec.runStrategy == Always) != p.on || !wasSynced
        then PassEnd(st'.(phase := Progressing), RequeueAfter, false, d.commands)
        else PassEnd(st'.(phase := Ready), Done, false, d.commands)
  }

  // ---------------------------------------------------------------- the pass

  predicate WasSynced(st: Status) {
    st.powerSynced == None || st.powerSynced.value.status == IsTrue
  }

  /** From the restart trigger on. */
  function RestartAndPower(spec: Spec, st: Status, a: Answers): PassEnd {
    var r := ReconcileRestart(spec, st, a);
    if r.failed then r.(status := r.status.(phase := Failed))
    else if r.requeue != Done then r.(status := r.status.(phase := Progressing))
    else PowerPhase(spec, r.status, a, WasSynced(st))
  }

  /** handleUpdate of a fulfilled instance; hasFinalizer tells whether the object already has the management finalizer. */
  function ManagePass(spec: Spec, st: Status, hasFinalizer: bool, a: Answers): PassEnd {
    if spec.templated && !a.provider then
      var st' := if st.hasHost then st.(provisioned := Some(Condition(IsFalse, TemplateFailed))) else st;
      PassEnd(st'.(phase := Failed), Done, false, [])
    else if !hasFinalizer then
      PassEnd(st.(phase := if a.finalizer then Progressing else Failed), Done, !a.finalizer, [])
    else
      match ProvisionGate(spec, st, a.provision)
      case Stop(end) => end
      case Pass(st') => RestartAndPower(spec, st', a)
  }

  /**
   Nothing stands between a pass and power: there is no template, or the library's reply has no error and
   no requeue and the template is not known to have failed or to be incomplete.
   */
  predicate GateOpen(spec: Spec, st: Status, r: ProvisionReply) {
    !spec.templated
    || (!r.failed && r.requeue == Done
        && (r.callback == OnSuccess
            || (r.callback == Silent && (st.provisioned == None || st.provisioned.value.status == IsTrue))))
  }

  /** The pass gets as far as the restart trigger. */
  predicate Gated(spec: Spec, st: Status, hasFinalizer: bool, a: Answers) {
    !(spec.templated && !a.provider) && hasFinalizer && GateOpen(spec, st, a.provision)
  }

  predicate EndsReady(e: PassEnd) {
    e.status.phase == Ready && e.requeue == Done && !e.failed
  }

  /** A reading shows the host at rest in the desired state. */
  predicate AtRest(spec: Spec, r: PowerReply) {
    r.Power? && !r.status.transitioning && (spec.runStrategy == Always) == r.status.on
  }

  // ---------------------------------------------------------------- single passes

  /** The gate lets a pass through exactly when it is open; a template that failed stops it. */
  lemma GateOpensIff(spec: Spec, st: Status, r: ProvisionReply)
    ensures ProvisionGate(spec, st, r).Pass? <==> GateOpen(spec, st, r)
    ensures ProvisionGate(spec, st, r).Pass? && spec.templated ==>
      var c := ProvisionGate(spec, st, r).st.provisioned; c == None || c.value.status == IsTrue
  {
  }

  /** The gate touches neither the power condition nor the acknowledged trigger. */
  lemma GateKeepsPower(spec: Spec, st: Status, r: ProvisionReply)
    ensures var g := ProvisionGate(spec, st, r); var st' := if g.Pass? then g.st else g.end.status;
      st'.powerSynced == st.powerSynced && st'.restartTrigger == st.restartTrigger && st'.runStrategy == st.runStrategy
    ensures var g := ProvisionGate(spec, st, r); g.Stop? ==> g.end.commands == [] && g.end.status.phase != Ready
  {
  }

  /** The trigger is settled before power: nothing pending, or acknowledged in this pass. */
  predicate TriggerSettled(spec: Spec, st: Status, a: Answers) {
    spec.restartTrigger == st.restartTrigger || spec.runStrategy == Halted
    || (st.powerSynced == RESTARTING && a.complete == Ok(true))
  }

  /** Exactly when a pass of a managed instance reports Ready; without a run strategy one reading is enough. */
  lemma ReadyIff(spec: Spec, st: Status, hasFinalizer: bool, a: Answers)
    ensures EndsReady(ManagePass(spec, st, hasFinalizer, a)) <==>
      Gated(spec, st, hasFinalizer, a) && TriggerSettled(spec, st, a)
      && if spec.runStrategy == Unspecified then a.first.Power?
         else WasSynced(st) && AtRest(spec, a.first) && AtRest(spec, a.second)
  {
  }

  /** Ready: condition True, observed state and trigger equal to the spec, and no command was issued. */
  lemma ReadyIsTruthful(spec: Spec, st: Status, hasFinalizer: bool, a: Answers)
    requires EndsReady(ManagePass(spec, st, hasFinalizer, a))
    ensures var e := ManagePass(spec, st, hasFinalizer, a);
      && e.commands == [] && e.status.restartTrigger == spec.restartTrigger
      && (spec.runStrategy != Unspecified ==>
            e.status.runStrategy == spec.runStrategy
            && e.status.powerSynced.Some? && e.status.powerSynced.value.status == IsTrue)
  {
  }

  /** A pass advances the acknowledged trigger exactly in these two situations. */
  lemma AcknowledgesIff(spec: Spec, st: Status, hasFinalizer: bool, a: Answers)
    ensures ManagePass(spec, st, hasFinalizer, a).status.restartTrigger != st.restartTrigger <==>
      Gated(spec, st, hasFinalizer, a) && spec.restartTrigger != st.restartTrigger
      && (spec.runStrategy == Halted || (st.powerSynced == RESTARTING && a.complete == Ok(true)))
    ensures ManagePass(spec, st, hasFinalizer, a).status.restartTrigger in {st.restartTrigger, spec.restartTrigger}
  {
    GateKeepsPower(spec, st, a.provision);
  }

  predicate Restarts(e: PassEnd) {
    exists r :: Restart(r) in e.commands
  }

  predicate AcceptedRestart(e: PassEnd) {
    Restart(Accepted) in e.commands
  }

  /** A pass asks for a restart exactly when a change is pending, no transition is on record and the host is wanted up. */
  lemma RestartsIff(spec: Spec, st: Status, hasFinalizer: bool, a: Answers)
    ensures Restarts(ManagePass(spec, st, hasFinalizer, a)) <==>
      Gated(spec, st, hasFinalizer, a) && spec.restartTrigger != st.restartTrigger
      && spec.runStrategy != Halted && st.powerSynced != RESTARTING
    ensures AcceptedRestart(ManagePass(spec, st, hasFinalizer, a)) <==>
      Restarts(ManagePass(spec, st, hasFinalizer, a)) && a.restart == Accepted
    ensures Restarts(ManagePass(spec, st, hasFinalizer, a)) ==>
      ManagePass(spec, st, hasFinalizer, a).commands == [Restart(a.restart)]
  {
    GateKeepsPower(spec, st, a.provision);
    var e := ManagePass(spec, st, hasFinalizer, a);
    if Gated(spec, st, hasFinalizer, a) && spec.restartTrigger != st.restartTrigger
       && spec.runStrategy != Halted && st.powerSynced != RESTARTING {
      assert Restart(a.restart) in e.commands;
    }
  }

  /** SetPowerState is called only once the trigger is acknowledged. */
  lemma SetPowerOnlyWhenAcknowledged(spec: Spec, st: Status, hasFinalizer: bool, a: Answers, on: bool, r: CommandReply)
    requires SetPower(on, r) in ManagePass(spec, st, hasFinalizer, a).commands
    ensures ManagePass(spec, st, hasFinalizer, a).status.restartTrigger == spec.restartTrigger
    ensures on == (spec.runStrategy == Always) && spec.runStrategy != Unspecified
    ensures a.first.Power? && !a.first.status.transitioning && a.first.status.on != on
  {
    GateKeepsPower(spec, st, a.provision);
  }

  /** Where a pass leaves the power condition when it was not synced before. */
  lemma UnsyncedStart(spec: Spec, st: Status, hasFinalizer: bool, a: Answers)
    requires !WasSynced(st) && spec.runStrategy != Unspecified
    ensures var e := ManagePass(spec, st, hasFinalizer, a);
      !EndsReady(e) && (WasSynced(e.status) ==> e.status.powerSynced.Some? && e.status.phase == Progressing)
  {
    GateKeepsPower(spec, st, a.provision);
  }
}
