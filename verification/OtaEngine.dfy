/** The OTA engine as the device runs it, against a platform that may answer anything. */
module OtaEngine {
  import opened Text
  import opened OtaTypes
  import opened OtaMachine
  import opened OtaTerminal

  // The two predicates below quantify over a log that equals the one given, so that the methods carry them
  // from effect to effect without the verifier unfolding `Run` along the way; `LeadsOn` and `RestsThere` unfold it.

  /** The log is accepted from `s` and leads to `t`. */
  ghost predicate Leads(s: State, log: seq<Event>, t: State) {
    forall l: seq<Event> :: l == log ==> Run(s, l) == Some(t)
  }

  ghost predicate LeadsToRest(s: State, log: seq<Event>) {
    forall l: seq<Event> :: l == log ==> Run(s, l).Some? && Run(s, l).value.call.Idle?
  }

  lemma {:induction false} LeadsOn(s: State, log: seq<Event>, t: State, e: Event)
    requires Leads(s, log, t) && Step(t, e).Some?
    ensures Leads(s, log + [e], Step(t, e).value)
  {
    assert Run(s, log) == Some(t);
    assert (log + [e])[..|log|] == log;
  }

  lemma {:induction false} RestsThere(s: State, log: seq<Event>, t: State)
    requires Leads(s, log, t) && t.call.Idle?
    ensures LeadsToRest(s, log)
  {
    assert Run(s, log) == Some(t);
  }

  /** How a call goes on that asked its adapter whether it needs a reboot. */
  function Answered(c: Call, answer: bool): Call
    requires c.Active? && (c.pc.AskingReboot? || c.pc.AskingRollbackReboot?)
  {
    var a, tx := c.adapter, c.tx;
    match c.pc
    case AskingReboot => Active(a, tx, if answer then BootForReboot else Health)
    case AskingRollbackReboot(class_, cause) =>
      if answer then Active(a, tx, BootForRollback)
      else Active(a, tx.(phase := RolledBack), Saving(false, Finish(FailedReply(tx.request, class_, cause))))
  }

  /** How a call goes on that read the boot id. */
  function WithBootId(c: Call, id: string): Call
    requires c.Active? && (c.pc.BootForReboot? || c.pc.BootForRollback? || c.pc.Resuming?)
  {
    var a, tx := c.adapter, c.tx;
    match c.pc
    case BootForReboot => Active(a, tx.(phase := RebootRequested, bootId := id), Saving(true, FirstReboot))
    case BootForRollback =>
      Active(a, tx.(phase := RollbackRebootRequested, bootId := id), Saving(false, RollbackReboot))
    case Resuming => if id == tx.bootId then Active(a, tx, Timing) else AfterReboot(a, tx)
  }

  /** Adapters, disk, clock and system commands: every outcome is up to them, and every effect is logged.
      An effect is permitted only where the event machine expects it. */
  class Platform {
    var disk: map<string, Transaction>
    var boot: string
    ghost const start: State
    ghost var log: seq<Event>
    ghost var state: State
    ghost var prior: seq<Event> // the log when the delivery in progress began
    ghost var opening: Event    // and the event it began with

    ghost predicate Valid()
      reads this
    {
      && Leads(start, log, state) && state.disk == disk && state.boot == boot
      && LogShape() && (|prior| < |log| || state.call.Idle?)
    }

    ghost predicate LogShape()
      reads this
    {
      && start.call.Idle? && LeadsToRest(start, prior)
      && prior <= log && (|prior| < |log| ==> log[|prior|] == opening)
      && forall i :: |prior| < i < |log| ==> Inner(log[i])
    }

    /** The call in progress is at point `pc`, with this adapter and request. */
    ghost predicate At(a: Adapter, r: Request, pc: Pc)
      reads this
    {
      Valid() && state.call.Active? && state.call.adapter == a && state.call.tx.request == r && state.call.pc == pc
    }

    /** Exactly this happened, and the call goes on with `c`. */
    twostate predicate Went(new e: Event, new c: Call)
      reads this
    {
      Valid() && log == old(log) + [e] && state == old(state).(call := c)
    }

    /** This save happened, and left the new file or the old one. */
    twostate predicate Written(new tx: Transaction, new now: int, new err: Error)
      reads this
    {
      log == old(log) + [Save(tx, now, err)]
          && disk == if err == None then old(disk)[Key(tx.request) := Stored(tx, now)] else old(disk)
    }

    constructor (disk: map<string, Transaction>, boot: string)
      ensures Valid() && start == state == State(disk, boot, Idle) && log == []
    {
      this.disk, this.boot := disk, boot;
      start := State(disk, boot, Idle);
      log, prior, opening, state := [], [], Crash, State(disk, boot, Idle);
    }

    ghost method Record(e: Event)
      requires Leads(start, log, state) && LogShape() && |prior| < |log|
      requires Inner(e) && Step(state, e).Some?
      requires Step(state, e).value.disk == disk && Step(state, e).value.boot == boot
      modifies `log, `state
      ensures Valid() && log == old(log) + [e] && Some(state) == Step(old(state), e)
    {
      LeadsOn(start, log, state, e);
      log := log + [e];
      state := Step(state, e).value;
    }

    /** Power is lost, or the process dies, at any moment: only the files stay. */
    method Restart(newBoot: string)
      requires Valid()
      modifies `boot, `log, `state, `prior
      ensures Valid() && log == old(log) + [Reboot(newBoot)] && prior == log
              && state == old(state).(boot := newBoot, call := Idle)
    {
      LeadsOn(start, log, state, Reboot(newBoot));
      log := log + [Reboot(newBoot)];
      prior, boot, state := log, newBoot, state.(boot := newBoot, call := Idle);
      RestsThere(start, log, state);
    }

    ghost method Open(e: Event)
      requires Valid() && state.call.Idle? && e.Begin? && Step(state, e).Some?
      modifies `log, `state, `prior, `opening
      ensures Valid() && log == old(log) + [e] && Some(state) == Step(old(state), e) && prior == old(log)
    {
      RestsThere(start, log, state);
      LeadsOn(start, log, state, e);
      prior, opening := log, e;
      log := log + [e];
      state := Step(state, e).value;
    }

    /** Validation, adapter lookup and availability. */
    method Enter(request: Request) returns (gate: Gate)
      requires Valid() && state.call.Idle?
      modifies `log, `state, `prior, `opening
      ensures prior == old(log) && Went(Begin(request, gate), Entered(request, gate))
      ensures gate.Ready? ==> gate.adapter.name == request.adapter
    {
      gate := *;
      if gate.Ready? { gate := Ready(gate.adapter.(name := request.adapter)); }
      Open(Begin(request, gate));
    }

    method Answer(reply: Reply)
      requires Valid() && state.call == Finishing(reply)
      modifies `log, `state
      ensures Went(Return(reply), Idle) && prior == old(prior)
    {
      Record(Return(reply));
    }

    method ReadFile(request: Request) returns (outcome: LoadOutcome)
      requires Valid() && state.call.Loading? && state.call.request == request
      modifies `log, `state
      ensures AfterLoad(disk, request, old(state.call.adapter), outcome).Some?
      ensures Went(Load(outcome), AfterLoad(disk, request, old(state.call.adapter), outcome).value)
    {
      var cause: Error := *;
      outcome := if cause.Some? then Unreadable(cause.value)
                 else if Key(request) in disk then Found(disk[Key(request)]) else Missing;
      Record(Load(outcome));
    }

    /** Write a temporary file, sync it and rename it: all or nothing. */
    method WriteFile(tx: Transaction) returns (err: Error)
      requires Valid() && state.call.Active? && state.call.pc.Saving? && state.call.tx == tx
      requires AfterSave(state.call.adapter, tx, state.call.pc.next).Some?
      modifies `disk, `log, `state
      ensures Valid() && exists now :: Written(tx, now, err)
      ensures err.Some? && old(state.call.pc.strict) ==>
              state.call == Finishing(FailedReply(tx.request, StateError, Reported(err.value)))
      ensures err == None || !old(state.call.pc.strict) ==>
                Some(state.call) == AfterSave(old(state.call.adapter), tx, old(state.call.pc.next))
    {
      var now: int := *;
      err := *;
      if err == None { disk := disk[Key(tx.request) := Stored(tx, now)]; }
      assert Step(state, Save(tx, now, err)).Some?;
      Record(Save(tx, now, err));
      assert Written(tx, now, err);
    }

    method CurrentVersion(a: Adapter, r: Request) returns (reported: Result<string>)
      requires At(a, r, Preflight) || At(a, r, Confirming)
      modifies `log, `state
      ensures Went(Event.CurrentVersion(a, r, reported),
                   if old(state.call.pc).Preflight? then AfterPreflight(a, old(state.call.tx), reported)
                   else AfterConfirmation(a, old(state.call.tx), reported))
    {
      reported := *;
      Record(Event.CurrentVersion(a, r, reported));
    }

    method EnsureFreeSpace(ghost a: Adapter, ghost r: Request) returns (err: Error)
      requires At(a, r, CheckingSpace)
      modifies `log, `state
      ensures Went(FreeSpace(err), OnError(err, a, old(state.call.tx), SpaceBefore,
              AdvanceTo(a, old(state.call.tx), Prepared)))
    {
      err := *;
      Record(FreeSpace(err));
    }

    method Fetch(ghost a: Adapter, r: Request) returns (path: Result<string>)
      requires At(a, r, Fetching)
      modifies `log, `state
      ensures Went(Event.Fetch(r, path),
                   if path.Err? then Fail(a, old(state.call.tx), Downloading, Reported(path.message))
                   else AdvanceTo(a, old(state.call.tx).(artifactPath := path.value), Downloaded))
    {
      path := *;
      Record(Event.Fetch(r, path));
    }

    method VerifyArtifact(ghost a: Adapter, artifact: string, r: Request) returns (err: Error)
      requires At(a, r, VerifyingArtifact) && artifact == state.call.tx.artifactPath
      modifies `log, `state
      ensures Went(Event.VerifyArtifact(artifact, r, err),
                   OnError(err, a, old(state.call.tx), Verification, Active(a, old(state.call.tx), Checking)))
    {
      err := *;
      Record(Event.VerifyArtifact(artifact, r, err));
    }

    method VerifySignature(ghost a: Adapter, r: Request) returns (err: Error)
      requires At(a, r, VerifyingSignature)
      modifies `log, `state
      ensures Went(Event.VerifySignature(r, err),
                   OnError(err, a, old(state.call.tx), Verification, Active(a, old(state.call.tx), Checking)))
    {
      err := *;
      Record(Event.VerifySignature(r, err));
    }

    method Check(a: Adapter, r: Request, artifact: string) returns (err: Error)
      requires At(a, r, Checking) && artifact == state.call.tx.artifactPath
      modifies `log, `state
      ensures Went(Event.Check(a, r, artifact, err),
                   OnError(err, a, old(state.call.tx), NativeVerification, AdvanceTo(a, old(state.call.tx), Verified)))
    {
      err := *;
      Record(Event.Check(a, r, artifact, err));
    }

    method Install(a: Adapter, r: Request, artifact: string) returns (err: Error)
      requires At(a, r, Installing) && artifact == state.call.tx.artifactPath
      modifies `log, `state
      ensures Went(Event.Install(a, r, artifact, err),
                   OnError(err, a, old(state.call.tx), Installation, AdvanceTo(a, old(state.call.tx), Installed)))
    {
      err := *;
      Record(Event.Install(a, r, artifact, err));
    }

    method Activate(a: Adapter, r: Request) returns (err: Error)
      requires At(a, r, Activating)
      modifies `log, `state
      ensures Went(Event.Activate(a, r, err),
                   OnError(err, a, old(state.call.tx), Activation, AdvanceTo(a, old(state.call.tx), Activated)))
    {
      err := *;
      Record(Event.Activate(a, r, err));
    }

    method Commit(a: Adapter, r: Request) returns (err: Error)
      requires At(a, r, Committing)
      modifies `log, `state
      ensures Went(Event.Commit(a, r, err),
                   OnError(err, a, old(state.call.tx), Committal,
                           Active(a, old(state.call.tx).(phase := Completed), Saving(true, Confirmed))))
    {
      err := *;
      Record(Event.Commit(a, r, err));
    }

    method Rollback(a: Adapter, r: Request, previous: string, ghost class_: FailureClass, ghost cause: Cause)
      returns (err: Error)
      requires At(a, r, RollingBack(class_, cause)) && previous == state.call.tx.previousVersion
      modifies `log, `state
      ensures Went(Event.Rollback(a, r, previous, err),
                   if err.Some? then RollbackFailing(a, old(state.call.tx), RollbackError(err.value))
                   else Active(a, old(state.call.tx), AskingRollbackReboot(class_, cause)))
    {
      err := *;
      Record(Event.Rollback(a, r, previous, err));
    }

    method RequiresReboot(a: Adapter) returns (answer: bool)
      requires Valid() && state.call.Active? && state.call.adapter == a
      requires state.call.pc.AskingReboot? || state.call.pc.AskingRollbackReboot?
      modifies `log, `state
      ensures Went(AskReboot(a, answer), Answered(old(state.call), answer))
    {
      answer := *;
      if !a.plugin { answer := a.name != Flatpak; }
      Record(AskReboot(a, answer));
    }

    /** The kernel's boot id; a file that cannot be read gives the empty text. */
    method BootId() returns (id: string)
      requires Valid() && state.call.Active?
      requires state.call.pc.BootForReboot? || state.call.pc.BootForRollback? || state.call.pc.Resuming?
      modifies `log, `state
      ensures id == boot || id == ""
      ensures Went(ReadBootId(id), WithBootId(old(state.call), id))
    {
      var readable: bool := *;
      id := if readable then boot else "";
      Record(ReadBootId(id));
    }

    method Now() returns (now: int)
      requires Valid() && state.call.Active? && state.call.pc.Timing?
      modifies `log, `state
      ensures Went(ReadClock(now), Overdue(old(state.call.adapter), old(state.call.tx), now))
    {
      now := *;
      Record(ReadClock(now));
    }

    method SystemReboot(enabled: bool) returns (err: Error)
      requires Valid() && state.call.Active? && state.call.pc.Requesting?
      modifies `log, `state
      ensures Went(RequestReboot(err),
                   AfterRebootRequest(old(state.call.adapter), old(state.call.tx), old(state.call.pc.after), err))
    {
      err := *;
      if !enabled { err := Some("automatic reboot is disabled"); }
      Record(RequestReboot(err));
    }

    method HealthCheck(ghost a: Adapter, ghost r: Request) returns (err: Error)
      requires At(a, r, Health)
      modifies `log, `state
      ensures Went(Event.HealthCheck(err),
              OnError(err, a, old(state.call.tx), HealthFailure, Active(a, old(state.call.tx), Confirming)))
    {
      err := *;
      Record(Event.HealthCheck(err));
    }

    method Remove(artifact: string)
      requires Valid() && state.call.Active? && state.call.pc.Removing? && artifact == state.call.tx.artifactPath
      modifies `log, `state
      ensures Went(RemoveArtifact(artifact), Finishing(ReplyTo(old(state.call.tx).request, Succeeded, [])))
    {
      Record(RemoveArtifact(artifact));
    }
  }

  class Engine {
    const device: Platform
    const autoReboot: bool
    var tx: Transaction // the transaction the call in progress works on

    constructor (device: Platform, autoReboot: bool)
      ensures this.device == device && this.autoReboot == autoReboot
    {
      this.device, this.autoReboot := device, autoReboot;
      tx := *;
    }

    /** The machine's call is the one this engine is making. */
    ghost predicate Holds(a: Adapter, pc: Pc)
      reads this, device
    {
      device.Valid() && device.state.call == Active(a, tx, pc)
    }

    ghost predicate Done(reply: Reply)
      reads device
    {
      device.Valid() && device.state.call == Finishing(reply)
    }

    method Execute(request: Request) returns (reply: Reply)
      requires device.Valid() && device.state.call.Idle?
      modifies this, device
      ensures device.Valid() && device.state.call.Idle? && device.prior == old(device.log)
      ensures device.prior <= device.log
      ensures IsDelivery(device.log[|device.prior|..], request, reply)
      ensures Run(old(device.state), device.log[|device.prior|..]) == Some(device.state)
      ensures reply.updateId == request.updateId && reply.adapter == request.adapter && reply.version == request.version
      ensures reply.state == Succeeded ==> CompletedFor(device.disk, request)
    {
      var gate := device.Enter(request);
      if gate.Rejected? {
        reply := FailedReply(request, gate.class_, Reported(gate.cause));
      } else {
        reply := Deliver(request, gate.adapter);
      }
      device.Answer(reply);
      assert device.log[..|device.prior|] == device.prior;
      assert Run(device.start, device.prior).Some? && Run(device.start, device.log) == Some(device.state);
      AnswerTellsTheTruth(device.start, device.log, |device.prior|, request, reply);
    }

    method Deliver(request: Request, adapter: Adapter) returns (reply: Reply)
      requires device.Valid() && device.state.call == Loading(request, adapter)
      modifies this, device`log, device`state, device`disk
      ensures Done(reply)
    {
      var err := LoadOrCreate(request, adapter);
      if err.Some? { return FailedReply(request, StateError, Reported(err.value)); }
      if tx.request != request { return FailedReply(request, StateError, OtherRequest); }
      if tx.phase.Unknown? { return FailedReply(request, StateError, UnknownPhase(tx.phase.name)); }
      if tx.phase == Completed { return ReplyTo(request, Succeeded, []); }
      if tx.phase == RolledBack { return FailedReply(request, WasRolledBack, Earlier(tx.failure)); }
      if tx.phase == RollbackFailed { return FailedReply(request, RollbackBroke, Earlier(tx.failure)); }
      if tx.phase == RebootRequested || tx.phase == RollbackRebootRequested {
        reply := ResumeAfterReboot(adapter);
        return;
      }
      reply := RunPhases(adapter);
    }

    method RunPhases(adapter: Adapter) returns (reply: Reply)
      requires device.Valid() && Early(tx.phase) && device.state.call == Proceed(adapter, tx)
      modifies this, device`log, device`state, device`disk
      ensures Done(reply)
    {
      var stopped := Prepare(adapter);
      if stopped.Some? { return stopped.value; }
      stopped := VerifyAndInstall(adapter);
      if stopped.Some? { return stopped.value; }
      stopped := ActivateUpdate(adapter);
      if stopped.Some? { return stopped.value; }
      reply := ConfirmAndCommit(adapter);
    }

    /** `loadOrCreate`. */
    method LoadOrCreate(request: Request, ghost a: Adapter) returns (err: Error)
      requires device.Valid() && device.state.call == Loading(request, a)
      modifies this, device`log, device`state, device`disk
      ensures err.Some? ==> Done(FailedReply(request, StateError, Reported(err.value)))
      ensures err == None ==> device.Valid() && device.state.call == Resume(a, request, tx)
    {
      var outcome := device.ReadFile(request);
      match outcome {
        case Unreadable(cause) => err := Some(cause);
        case Found(found) =>
          tx := found;
          err := None;
        case Missing =>
          tx := FreshTransaction(request);
          err := Save(a, true, Continue);
      }
    }

    /** `save`, which leaves the transaction in memory as it is. */
    method Save(ghost a: Adapter, ghost strict: bool, ghost next: After) returns (err: Error)
      requires Holds(a, Saving(strict, next)) && AfterSave(a, tx, next).Some?
      modifies device`log, device`state, device`disk
      ensures err.Some? && strict ==> Done(FailedReply(tx.request, StateError, Reported(err.value)))
      ensures err == None || !strict ==> device.Valid() && Some(device.state.call) == AfterSave(a, tx, next)
    {
      err := device.WriteFile(tx);
    }

    /** Preflight and download: the blocks of `Execute` for `created` and `prepared`. */
    method Prepare(a: Adapter) returns (stopped: Option<Reply>)
      requires device.Valid() && Early(tx.phase) && device.state.call == Proceed(a, tx)
      modifies this, device`log, device`state, device`disk
      ensures stopped.Some? ==> Done(stopped.value)
      ensures stopped == None ==>
                device.Valid() && Early(tx.phase) && !tx.phase.Created? && !tx.phase.Prepared?
                    && device.state.call == Proceed(a, tx)
    {
      if tx.phase == Created {
        stopped := RunPreflight(a);
        if stopped.Some? { return; }
      }
      var err: Error := None;
      if tx.phase == Prepared && NeedsArtifact(a, tx.request) {
        var path := device.Fetch(a, tx.request);
        if path.Err? {
          var reply := FailAndRollback(a, Downloading, Reported(path.message));
          return Some(reply);
        }
        tx := tx.(artifactPath := path.value, phase := Downloaded);
        err := Save(a, true, Continue);
      } else if tx.phase == Prepared {
        tx := tx.(phase := Downloaded);
        err := Save(a, true, Continue);
      }
      stopped := if err.Some? then Some(FailedReply(tx.request, StateError, Reported(err.value))) else None;
    }

    method RunPreflight(a: Adapter) returns (stopped: Option<Reply>)
      requires Holds(a, Preflight) && tx.phase == Created
      modifies this, device`log, device`state, device`disk
      ensures stopped.Some? ==> Done(stopped.value)
      ensures stopped == None ==> device.Valid() && tx.phase == Prepared && device.state.call == Proceed(a, tx)
    {
      var previous := device.CurrentVersion(a, tx.request);
      if previous.Err? {
        var reply := FailAndRollback(a, VersionBefore, Reported(previous.message));
        return Some(reply);
      }
      tx := tx.(previousVersion := TrimSpace(previous.value));
      if !CompatibleFrom(tx.request, tx.previousVersion) {
        var reply := FailAndRollback(a, Compatibility, NotCompatible);
        return Some(reply);
      }
      if NeedsArtifact(a, tx.request) {
        var full := device.EnsureFreeSpace(a, tx.request);
        if full.Some? {
          var reply := FailAndRollback(a, SpaceBefore, Reported(full.value));
          return Some(reply);
        }
      }
      tx := tx.(phase := Prepared);
      var err := Save(a, true, Continue);
      stopped := if err.Some? then Some(FailedReply(tx.request, StateError, Reported(err.value))) else None;
    }

    /** The blocks of `Execute` for `downloaded` and `verified`. */
    method VerifyAndInstall(a: Adapter) returns (stopped: Option<Reply>)
      requires device.Valid() && Early(tx.phase) && !tx.phase.Created? && !tx.phase.Prepared?
      requires device.state.call == Proceed(a, tx)
      modifies this, device`log, device`state, device`disk
      ensures stopped.Some? ==> Done(stopped.value)
      ensures stopped == None ==>
                device.Valid() && (tx.phase.Installed? || tx.phase.Activated?) && device.state.call == Proceed(a, tx)
    {
      if tx.phase == Downloaded {
        stopped := Verify(a);
        if stopped.Some? { return; }
      }
      stopped := None;
      if tx.phase == Verified {
        var err := device.Install(a, tx.request, tx.artifactPath);
        if err.Some? {
          var reply := FailAndRollback(a, Installation, Reported(err.value));
          return Some(reply);
        }
        tx := tx.(phase := Installed);
        err := Save(a, true, Continue);
        if err.Some? { return Some(FailedReply(tx.request, StateError, Reported(err.value))); }
      }
    }

    method Verify(a: Adapter) returns (stopped: Option<Reply>)
      requires tx.phase == Downloaded && device.Valid() && device.state.call == Proceed(a, tx)
      modifies this, device`log, device`state, device`disk
      ensures stopped.Some? ==> Done(stopped.value)
      ensures stopped == None ==> device.Valid() && tx.phase == Verified && device.state.call == Proceed(a, tx)
    {
      var err: Error := None;
      if NeedsArtifact(a, tx.request) {
        err := device.VerifyArtifact(a, tx.artifactPath, tx.request);
      } else if UsesRepository(tx.request) {
        err := device.VerifySignature(a, tx.request);
      }
      if err.Some? {
        var reply := FailAndRollback(a, Verification, Reported(err.value));
        return Some(reply);
      }
      err := device.Check(a, tx.request, tx.artifactPath);
      if err.Some? {
        var reply := FailAndRollback(a, NativeVerification, Reported(err.value));
        return Some(reply);
      }
      tx := tx.(phase := Verified);
      err := Save(a, true, Continue);
      stopped := if err.Some? then Some(FailedReply(tx.request, StateError, Reported(err.value))) else None;
    }

    /** The blocks of `Execute` for `installed` and `activated`; what is left is to confirm the update. */
    method ActivateUpdate(a: Adapter) returns (stopped: Option<Reply>)
      requires device.Valid() && (tx.phase.Installed? || tx.phase.Activated?) && device.state.call == Proceed(a, tx)
      modifies this, device`log, device`state, device`disk
      ensures stopped.Some? ==> Done(stopped.value)
      ensures stopped == None ==> Holds(a, Health) && tx.phase.Activated?
    {
      if tx.phase == Installed {
        var err := device.Activate(a, tx.request);
        if err.Some? {
          var reply := FailAndRollback(a, Activation, Reported(err.value));
          return Some(reply);
        }
        tx := tx.(phase := Activated);
        err := Save(a, true, Continue);
        if err.Some? { return Some(FailedReply(tx.request, StateError, Reported(err.value))); }
      }
      stopped := None;
      var reboot := device.RequiresReboot(a);
      if reboot {
        var reply := AskForReboot(a);
        return Some(reply);
      }
    }

    method AskForReboot(a: Adapter) returns (reply: Reply)
      requires Holds(a, BootForReboot)
      modifies this, device`log, device`state, device`disk
      ensures Done(reply)
    {
      var id := device.BootId();
      tx := tx.(phase := RebootRequested, bootId := id);
      var err := Save(a, true, FirstReboot);
      if err.Some? { return FailedReply(tx.request, StateError, Reported(err.value)); }
      err := device.SystemReboot(autoReboot);
      if err.Some? {
        reply := FailAndRollback(a, Rebooting, Reported(err.value));
        return;
      }
      reply := ReplyTo(tx.request, RebootPending, []);
    }

    method ResumeAfterReboot(a: Adapter) returns (reply: Reply)
      requires tx.phase.RebootRequested? || tx.phase.RollbackRebootRequested?
      requires device.Valid() && device.state.call == Resume(a, tx.request, tx)
      modifies this, device`log, device`state, device`disk
      ensures Done(reply)
    {
      if tx.bootId != "" {
        var id := device.BootId();
        if tx.bootId == id {
          reply := StillOnOldBoot(a);
          return;
        }
      }
      if tx.phase == RollbackRebootRequested {
        tx := tx.(phase := RolledBack);
        reply := FailedReply(tx.request, WasRolledBack, Earlier(tx.failure));
        var err := Save(a, true, Finish(reply));
        if err.Some? { reply := FailedReply(tx.request, StateError, Reported(err.value)); }
        return;
      }
      reply := ConfirmAndCommit(a);
    }

    method StillOnOldBoot(a: Adapter) returns (reply: Reply)
      requires Holds(a, Timing) && (tx.phase.RebootRequested? || tx.phase.RollbackRebootRequested?)
      modifies this, device`log, device`state, device`disk
      ensures Done(reply)
    {
      var now := device.Now();
      if now - tx.updatedAt >= RETRY_AFTER {
        if tx.rebootAttempts >= MAX_REBOOT_REQUESTS {
          if tx.phase == RollbackRebootRequested {
            tx := tx.(phase := RollbackFailed, failure := tx.failure + [NoRebootAfterRollback]);
            reply := FailedReply(tx.request, RollbackBroke, Earlier(tx.failure));
            var _ := Save(a, false, Finish(reply));
            return;
          }
          reply := FailAndRollback(a, Rebooting, NeverRebooted);
          return;
        }
        tx := tx.(rebootAttempts := tx.rebootAttempts + 1);
        var err := Save(a, true, RetryReboot);
        if err.Some? { return FailedReply(tx.request, StateError, Reported(err.value)); }
        err := device.SystemReboot(autoReboot);
        if err.Some? { return FailedReply(tx.request, Rebooting, Reported(err.value)); }
      }
      reply := ReplyTo(tx.request, RebootPending, []);
    }

    method ConfirmAndCommit(a: Adapter) returns (reply: Reply)
      requires Holds(a, Health) && !BeforeInstall(tx.phase)
      modifies this, device`log, device`state, device`disk
      ensures Done(reply)
    {
      var err := device.HealthCheck(a, tx.request);
      if err.Some? {
        reply := FailAndRollback(a, HealthFailure, Reported(err.value));
        return;
      }
      var refused := ConfirmVersion(a);
      if refused.Some? { return refused.value; }
      err := device.Commit(a, tx.request);
      if err.Some? {
        reply := FailAndRollback(a, Committal, Reported(err.value));
        return;
      }
      tx := tx.(phase := Completed);
      err := Save(a, true, Confirmed);
      if err.Some? { return FailedReply(tx.request, StateError, Reported(err.value)); }
      if tx.artifactPath != "" { device.Remove(tx.artifactPath); }
      reply := ReplyTo(tx.request, Succeeded, []);
    }

    method ConfirmVersion(a: Adapter) returns (refused: Option<Reply>)
      requires Holds(a, Confirming) && !BeforeInstall(tx.phase)
      modifies this, device`log, device`state, device`disk
      ensures refused.Some? ==> Done(refused.value)
      ensures refused == None ==> Holds(a, Committing) && tx == old(tx)
    {
      var reported := device.CurrentVersion(a, tx.request);
      if reported.Err? {
        var reply := FailAndRollback(a, VersionAfter, Reported(reported.message));
        return Some(reply);
      }
      var expected, current := ExpectedRevision(tx.request), TrimSpace(reported.value);
      if ReportsCommits(tx.request) && expected != "" && !EqualFold(current, expected) {
        var reply := FailAndRollback(a, VersionAfter, WrongRevision(current));
        return Some(reply);
      }
      if !ReportsCommits(tx.request) && expected != "" && current != "" && !Contains(current, expected) {
        var reply := FailAndRollback(a, VersionAfter, WrongRevision(current));
        return Some(reply);
      }
      refused := None;
    }

    method FailAndRollback(a: Adapter, class_: FailureClass, cause: Cause) returns (reply: Reply)
      requires device.Valid() && device.state.call == Fail(a, tx, class_, cause)
      modifies this, device`log, device`state, device`disk
      ensures Done(reply)
    {
      reply := FailedReply(tx.request, class_, cause);
      tx := tx.(failure := [Because(class_, cause)]);
      if BeforeInstall(tx.phase) {
        tx := tx.(phase := RolledBack);
        var _ := Save(a, false, Finish(reply));
        return;
      }
      var err := device.Rollback(a, tx.request, tx.previousVersion, class_, cause);
      if err.Some? {
        reply := RollbackFails(a, RollbackError(err.value));
        return;
      }
      var reboot := device.RequiresReboot(a);
      if reboot {
        reply := RebootIntoPrevious(a);
        return;
      }
      tx := tx.(phase := RolledBack);
      var _ := Save(a, false, Finish(reply));
    }

    method RebootIntoPrevious(a: Adapter) returns (reply: Reply)
      requires Holds(a, BootForRollback)
      modifies this, device`log, device`state, device`disk
      ensures Done(reply)
    {
      var id := device.BootId();
      tx := tx.(phase := RollbackRebootRequested, bootId := id);
      var _ := Save(a, false, RollbackReboot);
      var err := device.SystemReboot(autoReboot);
      if err.Some? {
        reply := RollbackFails(a, RollbackRebootError(err.value));
        return;
      }
      reply := ReplyTo(tx.request, RebootPending, tx.failure);
    }

    method RollbackFails(a: Adapter, detail: Note) returns (reply: Reply)
      requires device.Valid() && device.state.call == RollbackFailing(a, tx, detail)
      modifies this, device`log, device`state, device`disk
      ensures Done(reply)
    {
      tx := tx.(phase := RollbackFailed, failure := tx.failure + [detail]);
      reply := FailedReply(tx.request, RollbackBroke, Earlier(tx.failure));
      var _ := Save(a, false, Finish(reply));
    }
  }
}
