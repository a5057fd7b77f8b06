/**
 The management phase in the form the program gives it: methods that update the instance's
 status field by field, call the backend and return early.  Each is proved to do what the
 function of module Power says.
 */
module PowerController {
  import opened Wrappers
  import opened Power

  /** A management backend; `answers` fixes what it will reply in this pass. */
  class ManagementClient {
    const answers: Answers
    var readings: nat
    var commands: seq<Command>

    constructor (answers: Answers)
      ensures this.answers == answers && readings == 0 && commands == []
    {
      this.answers := answers;
      readings, commands := 0, [];
    }

    method GetPowerState() returns (r: PowerReply)
      modifies this`readings
      ensures readings == old(readings) + 1
      ensures r == if old(readings) == 0 then answers.first else answers.second
    {
      r := if readings == 0 then answers.first else answers.second;
      readings := readings + 1;
    }

    method SetPowerState(on: bool) returns (r: CommandReply)
      modifies this`commands
      ensures r == answers.power && commands == old(commands) + [SetPower(on, r)]
    {
      r := answers.power;
      commands := commands + [SetPower(on, r)];
    }

    method TriggerRestart() returns (r: CommandReply)
      modifies this`commands
      ensures r == answers.restart && commands == old(commands) + [Restart(r)]
    {
      r := answers.restart;
      commands := commands + [Restart(r)];
    }

    method IsRestartComplete() returns (r: Result<bool>)
      ensures r == answers.complete
    {
      r := answers.complete;
    }
  }

  /** The fields of a BareMetalInstance that the management phase reads and writes. */
  class BareMetalInstance {
    const spec: Spec
    const hasHost: bool                   // condition Allocated
    var managementFinalizer: bool
    var phase: Phase
    var runStrategy: RunStrategy
    var restartTrigger: int
    var powerSynced: Option<Condition>
    var provisioned: Option<Condition>

    ghost function Current(): Status
      reads this
    {
      Status(phase, runStrategy, restartTrigger, powerSynced, provisioned, hasHost)
    }

    constructor (spec: Spec, st: Status, managementFinalizer: bool)
      ensures this.spec == spec && Current() == st && this.managementFinalizer == managementFinalizer
    {
      this.spec, this.hasHost, this.managementFinalizer := spec, st.hasHost, managementFinalizer;
      phase, runStrategy, restartTrigger := st.phase, st.runStrategy, st.restartTrigger;
      powerSynced, provisioned := st.powerSynced, st.provisioned;
    }
  }

  class Reconciler {
    const client: ManagementClient

    constructor (client: ManagementClient)
      ensures this.client == client
    {
      this.client := client;
    }

    /** handleUpdate of an instance whose HostClass is set. */
    method HandleUpdate(x: BareMetalInstance) returns (requeue: Requeue, failed: bool)
      requires client.readings == 0 && client.commands == []
      modifies x, client
      ensures PassEnd(x.Current(), requeue, failed, client.commands)
           == ManagePass(x.spec, old(x.Current()), old(x.managementFinalizer), client.answers)
      ensures x.managementFinalizer <==> old(x.managementFinalizer) || !(x.spec.templated && !client.answers.provider)
    {
      if x.spec.templated && !client.answers.provider {
        x.phase := Failed;
        if x.hasHost {
          x.provisioned := Some(Condition(IsFalse, TemplateFailed));
        }
        return Done, false;
      }
      requeue, failed := ReconcileManagement(x);
    }

    method ReconcileManagement(x: BareMetalInstance) returns (requeue: Requeue, failed: bool)
      requires client.readings == 0 && client.commands == []
      requires !(x.spec.templated && !client.answers.provider)
      modifies x, client
      ensures PassEnd(x.Current(), requeue, failed, client.commands)
           == ManagePass(x.spec, old(x.Current()), old(x.managementFinalizer), client.answers)
      ensures x.managementFinalizer
    {
      if !x.managementFinalizer {
        x.managementFinalizer := true;
        if !client.answers.finalizer {
          x.phase := Failed;
          return Done, true;
        }
        x.phase := Progressing;
        return Done, false;
      }

      var stop;
      stop, requeue, failed := ReconcileProvisioning(x);
      if stop {
        return;
      }

      var powerWasPreviouslySynced := x.powerSynced == None || x.powerSynced.value.status == IsTrue;

      requeue, failed := ReconcileRestartTrigger(x);
      if failed {
        x.phase := Failed;
        return;
      }
      if requeue != Done {
        x.phase := Progressing;
        return;
      }
      requeue, failed := ReconcilePowerState(x, powerWasPreviouslySynced);
    }

    /** The provisioning gate of reconcileManagement. */
    method ReconcileProvisioning(x: BareMetalInstance) returns (stop: bool, requeue: Requeue, failed: bool)
      requires client.commands == []
      modifies x`phase, x`provisioned
      ensures match ProvisionGate(x.spec, old(x.Current()), client.answers.provision)
              case Pass(st) => !stop && requeue == Done && !failed && x.Current() == st
              case Stop(end) => stop && PassEnd(x.Current(), requeue, failed, []) == end
      ensures !stop <==> GateOpen(x.spec, old(x.Current()), client.answers.provision)
    {
      GateOpensIff(x.spec, x.Current(), client.answers.provision);
      stop, requeue, failed := false, Done, false;
      if x.spec.templated {
        var reply := client.answers.provision;
        match reply.callback {
          case Silent =>
          case OnFailed =>
            x.phase := Failed;
            x.provisioned := Some(Condition(IsFalse, TemplateFailed));
          case OnSuccess =>
            x.provisioned := Some(Condition(IsTrue, Succeeded));
        }
        if reply.failed {
          x.phase := Failed;
          return true, reply.requeue, true;
        }
        if reply.requeue == RequeueAfter && (x.provisioned == None || x.provisioned.value.reason != TemplateFailed) {
          x.provisioned := Some(Condition(IsFalse, InProgress));
        }
        if reply.requeue != Done {
          x.phase := Progressing;
          return true, reply.requeue, false;
        }
        if x.provisioned.Some? && x.provisioned.value.status != IsTrue {
          x.phase := Failed;
          return true, Done, false;
        }
      }
    }

    method ReconcileRestartTrigger(x: BareMetalInstance) returns (requeue: Requeue, failed: bool)
      requires client.commands == []
      modifies x`restartTrigger, x`powerSynced, client`commands
      ensures PassEnd(x.Current(), requeue, failed, client.commands)
           == ReconcileRestart(x.spec, old(x.Current()), client.answers)
    {
      if x.spec.restartTrigger == x.restartTrigger {
        return Done, false;
      }
      if x.spec.runStrategy == Halted {
        x.restartTrigger := x.spec.restartTrigger;
        x.powerSynced := Some(Condition(IsTrue, Completed));
        return Done, false;
      }
      if x.powerSynced.Some? && x.powerSynced.value.status == IsFalse && x.powerSynced.value.reason == InProgress {
        var completed := client.IsRestartComplete();
        if completed == Err {
          x.powerSynced := Some(Condition(IsFalse, PowerSyncFailed));
          return Done, true;
        }
        if !completed.value {
          return RequeueAfter, false;
        }
      } else {
        requeue, failed := Trigger(x);
        if failed {
          x.powerSynced := Some(Condition(IsFalse, PowerSyncFailed));
        }
        return;                                   // triggerRestart never answers "done"
      }
      x.restartTrigger := x.spec.restartTrigger;
      x.powerSynced := Some(Condition(IsTrue, Completed));
      return Done, false;
    }

    /** triggerRestart: an accepted or postponed restart is looked at again later. */
    method Trigger(x: BareMetalInstance) returns (requeue: Requeue, failed: bool)
      modifies x`powerSynced, client`commands
      ensures client.commands == old(client.commands) + [Restart(client.answers.restart)]
      ensures failed <==> client.answers.restart == Refused
      ensures requeue == if failed then Done else RequeueAfter
      ensures x.powerSynced == match client.answers.restart
                               case Accepted => RESTARTING
                               case Transitioning => Some(Condition(IsFalse, PowerSyncFailed))
                               case Refused => old(x.powerSynced)
    {
      var reply := client.TriggerRestart();
      match reply {
        case Transitioning =>
          x.powerSynced := Some(Condition(IsFalse, PowerSyncFailed));
          return RequeueAfter, false;
        case Refused =>
          return Done, true;
        case Accepted =>
          x.powerSynced := Some(Condition(IsFalse, InProgress));
          return RequeueAfter, false;
      }
    }

    /** The rest of reconcileManagement, from the first GetPowerState on. */
    method ReconcilePowerState(x: BareMetalInstance, powerWasPreviouslySynced: bool) returns (requeue: Requeue, failed: bool)
      requires client.readings == 0 && client.commands == []
      modifies x`phase, x`runStrategy, x`powerSynced, client
      ensures PassEnd(x.Current(), requeue, failed, client.commands)
           == PowerPhase(x.spec, old(x.Current()), client.answers, powerWasPreviouslySynced)
    {
      var reply := client.GetPowerState();
      if reply == NoPower {
        SyncFailure(x);
        return Done, true;
      }
      var powerNeedsRequeue := false;
      if x.spec.runStrategy != Unspecified {
        powerNeedsRequeue, failed := Drive(x, reply.status);
        if failed {
          SyncFailure(x);
          return Done, true;
        }
        reply := client.GetPowerState();
        if reply == NoPower {
          SyncFailure(x);
          return Done, true;
        }
      }
      SyncStatus(x, reply.status);
      if x.spec.runStrategy != Unspecified {
        var desiredOn := x.spec.runStrategy == Always;
        if powerNeedsRequeue || reply.status.transitioning || desiredOn != reply.status.on {
          x.phase := Progressing;
          return RequeueAfter, false;
        }
        if !powerWasPreviouslySynced {
          x.phase := Progressing;
          return RequeueAfter, false;
        }
      }
      x.phase := Ready;
      return Done, false;
    }

    /** reconcilePower. */
    method Drive(x: BareMetalInstance, p: PowerStatus) returns (needsRequeue: bool, failed: bool)
      modifies client`commands
      ensures var d := ReconcilePower(x.spec, p, client.answers.power);
        needsRequeue == d.requeue && failed == d.failed && client.commands == old(client.commands) + d.commands
    {
      if p.transitioning {
        return true, false;
      }
      var desiredOn := x.spec.runStrategy == Always;
      if desiredOn == p.on {
        return false, false;
      }
      var reply := client.SetPowerState(desiredOn);
      if reply == Refused {
        return false, true;
      }
      return true, false;
    }

    method SyncFailure(x: BareMetalInstance)
      modifies x`phase, x`powerSynced
      ensures x.Current() == SyncError(old(x.Current()))
    {
      x.phase := Failed;
      x.powerSynced := Some(Condition(IsFalse, IronicAPIFailure));
    }

    method SyncStatus(x: BareMetalInstance, p: PowerStatus)
      modifies x`runStrategy, x`powerSynced
      ensures x.Current() == Sync(x.spec, old(x.Current()), p)
    {
      x.runStrategy := if p.on then Always else Halted;
      if p.transitioning {
        x.powerSynced := Some(Condition(IsFalse, InProgress));
        return;
      }
      if x.spec.runStrategy != Unspecified && x.spec.runStrategy != x.runStrategy {
        x.powerSynced := Some(Condition(IsFalse, InProgress));
      } else if p.on {
        x.powerSynced := Some(Condition(IsTrue, PoweredOn));
      } else {
        x.powerSynced := Some(Condition(IsTrue, PoweredOff));
      }
    }
  }
}
