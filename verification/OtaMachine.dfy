/** The engine as an event machine: which effect a call may have next, and what it leaves behind.

    A log holds every effect with its outcome, and also crashes and reboots, which may come
    anywhere. A run of the device is any log the machine accepts. */
module OtaMachine {
  import opened Text
  import opened OtaTypes

  const RETRY_AFTER := 120_000_000_000
  const MAX_REBOOT_REQUESTS := 3

  /** What follows a `save`. */
  datatype After =
    | Continue              // go on with the next phase
    | FirstReboot | RetryReboot | RollbackReboot
    | Confirmed             // the completed transaction is on disk
    | Finish(reply: Reply)

  datatype Pc =
    | Preflight | CheckingSpace | Fetching
    | VerifyingArtifact | VerifyingSignature | Checking
    | Installing | Activating | AskingReboot | BootForReboot
    | Requesting(after: After)
    | Resuming | Timing
    | Health | Confirming | Committing
    | RollingBack(class_: FailureClass, cause: Cause)
    | AskingRollbackReboot(class_: FailureClass, cause: Cause)
    | BootForRollback
    | Saving(strict: bool, next: After)
    | Removing

  datatype Call =
    | Idle
    | Loading(request: Request, adapter: Adapter)
    | Active(adapter: Adapter, tx: Transaction, pc: Pc)
    | Finishing(reply: Reply)

  // Groups of points that the proofs take together.

  predicate PreflightPoint(pc: Pc) {
    pc.Preflight? || pc.CheckingSpace? || pc.Fetching?
  }

  predicate InstallPoint(pc: Pc) {
    pc.VerifyingArtifact? || pc.VerifyingSignature? || pc.Checking? || pc.Installing? || pc.Activating?
  }

  predicate RebootPoint(pc: Pc) {
    pc.AskingReboot? || pc.BootForReboot? || pc.Resuming? || pc.Timing? || pc.Requesting?
  }

  predicate ConfirmingPoint(pc: Pc) {
    pc.Health? || pc.Confirming? || pc.Committing?
  }

  predicate RollbackPoint(pc: Pc) {
    pc.RollingBack? || pc.AskingRollbackReboot? || pc.BootForRollback? || pc.Removing?
  }

  /** The transaction files by name, the current boot, and the call in progress. */
  datatype State = State(disk: map<string, Transaction>, boot: string, call: Call)

  /** Where a call goes on when it holds a transaction in an early phase. */
  function Proceed(a: Adapter, tx: Transaction): Call
    requires Early(tx.phase)
  {
    match tx.phase
    case Created => Active(a, tx, Preflight)
    case Prepared =>
      if NeedsArtifact(a, tx.request) then Active(a, tx, Fetching)
      else Active(a, tx.(phase := Downloaded), Saving(true, Continue))
    case Downloaded =>
      Active(a, tx,
             if NeedsArtifact(a, tx.request) then VerifyingArtifact
             else if UsesRepository(tx.request) then VerifyingSignature
             else Checking)
    case Verified => Active(a, tx, Installing)
    case Installed => Active(a, tx, Activating)
    case Activated => Active(a, tx, AskingReboot)
  }

  function AfterReboot(a: Adapter, tx: Transaction): Call {
    if tx.phase.RollbackRebootRequested? then
      Active(a, tx.(phase := RolledBack),
          Saving(true, Finish(FailedReply(tx.request, WasRolledBack, Earlier(tx.failure)))))
    else
      Active(a, tx, Health)
  }

  /** A transaction read from disk, for the request that was delivered. */
  function Resume(a: Adapter, r: Request, tx: Transaction): Call {
    if tx.request != r then
      Finishing(FailedReply(r, StateError, OtherRequest))
    else match tx.phase
      case Unknown(name) => Finishing(FailedReply(r, StateError, UnknownPhase(name)))
      case Completed => Finishing(ReplyTo(r, Succeeded, []))
      case RolledBack => Finishing(FailedReply(r, WasRolledBack, Earlier(tx.failure)))
      case RollbackFailed => Finishing(FailedReply(r, RollbackBroke, Earlier(tx.failure)))
      case RebootRequested => if tx.bootId != "" then Active(a, tx, Resuming) else AfterReboot(a, tx)
      case RollbackRebootRequested => if tx.bootId != "" then Active(a, tx, Resuming) else AfterReboot(a, tx)
      case _ => Proceed(a, tx)
  }

  /** Failing: roll back only if something may have been installed. */
  function Fail(a: Adapter, tx: Transaction, class_: FailureClass, cause: Cause): Call {
    var failed := tx.(failure := [Because(class_, cause)]);
    if BeforeInstall(tx.phase) then
      Active(a, failed.(phase := RolledBack), Saving(false, Finish(FailedReply(tx.request, class_, cause))))
    else
      Active(a, failed, RollingBack(class_, cause))
  }

  function RollbackFailing(a: Adapter, tx: Transaction, detail: Note): Call {
    var failed := tx.(phase := RollbackFailed, failure := tx.failure + [detail]);
    Active(a, failed, Saving(false, Finish(FailedReply(tx.request, RollbackBroke, Earlier(failed.failure)))))
  }

  /** The call after an effect that went well, or after failing with its error. */
  function OnError(err: Error, a: Adapter, tx: Transaction, class_: FailureClass, next: Call): Call {
    if err.Some? then Fail(a, tx, class_, Reported(err.value)) else next
  }

  function AdvanceTo(a: Adapter, tx: Transaction, phase: Phase): Call {
    Active(a, tx.(phase := phase), Saving(true, Continue))
  }

  function AfterSave(a: Adapter, tx: Transaction, next: After): Option<Call> {
    match next
    case Continue => if Early(tx.phase) then Some(Proceed(a, tx)) else None
    case Confirmed =>
      Some(if tx.artifactPath != "" then Active(a, tx, Removing) else Finishing(ReplyTo(tx.request, Succeeded, [])))
    case Finish(reply) => Some(Finishing(reply))
    case _ => Some(Active(a, tx, Requesting(next)))
  }

  function AfterRebootRequest(a: Adapter, tx: Transaction, after: After, err: Error): Call {
    if err == None then Finishing(ReplyTo(tx.request, RebootPending, if after.RollbackReboot? then tx.failure else []))
    else if after.FirstReboot? then Fail(a, tx, Rebooting, Reported(err.value))
    else if after.RollbackReboot? then RollbackFailing(a, tx, RollbackRebootError(err.value))
    else Finishing(FailedReply(tx.request, Rebooting, Reported(err.value)))
  }

  function Overdue(a: Adapter, tx: Transaction, now: int): Call {
    if now - tx.updatedAt < RETRY_AFTER then Finishing(ReplyTo(tx.request, RebootPending, []))
    else if tx.rebootAttempts < MAX_REBOOT_REQUESTS then
      Active(a, tx.(rebootAttempts := tx.rebootAttempts + 1), Saving(true, RetryReboot))
    else if tx.phase.RollbackRebootRequested? then
      RollbackFailing(a, tx, NoRebootAfterRollback)
    else Fail(a, tx, Rebooting, NeverRebooted)
  }

  /** The preflight version, trimmed and checked against the releases the update starts from. */
  function AfterPreflight(a: Adapter, tx: Transaction, reported: Result<string>): Call {
    match reported
    case Err(m) => Fail(a, tx, VersionBefore, Reported(m))
    case Ok(v) =>
      var tx := tx.(previousVersion := TrimSpace(v));
      if !CompatibleFrom(tx.request, tx.previousVersion) then
        Fail(a, tx, Compatibility, NotCompatible)
      else if NeedsArtifact(a, tx.request) then Active(a, tx, CheckingSpace)
      else AdvanceTo(a, tx, Prepared)
  }

  function AfterConfirmation(a: Adapter, tx: Transaction, reported: Result<string>): Call {
    match reported
    case Err(m) => Fail(a, tx, VersionAfter, Reported(m))
    case Ok(v) =>
      if Confirms(tx.request, v) then Active(a, tx, Committing)
      else Fail(a, tx, VersionAfter, WrongRevision(TrimSpace(v)))
  }

  predicate BootAnswer(boot: string, e: Event) {
    e.ReadBootId? && (e.id == boot || e.id == "")
  }

  /** The call after the adapter was asked for its version, before the update or to confirm it. */
  function VersionStep(a: Adapter, tx: Transaction, e: Event, confirming: bool): Option<Call> {
    if e.CurrentVersion? && e.adapter == a && e.request == tx.request then
      Some(if confirming then AfterConfirmation(a, tx, e.reported) else AfterPreflight(a, tx, e.reported))
    else None
  }

  /** The checks before anything is installed, and the download. */
  function PreflightStep(a: Adapter, tx: Transaction, pc: Pc, e: Event): Option<Call>
    requires PreflightPoint(pc)
  {
    match pc
    case Preflight => VersionStep(a, tx, e, false)
    case CheckingSpace =>
      if e.FreeSpace? then Some(OnError(e.err, a, tx, SpaceBefore, AdvanceTo(a, tx, Prepared))) else None
    case Fetching =>
      if e.Fetch? && e.request == tx.request then
        Some(if e.path.Err? then Fail(a, tx, Downloading, Reported(e.path.message))
             else AdvanceTo(a, tx.(artifactPath := e.path.value), Downloaded))
      else None
  }

  /** Verification, installation and activation. */
  function InstallStep(a: Adapter, tx: Transaction, pc: Pc, e: Event): Option<Call>
    requires InstallPoint(pc)
  {
    match pc
    case VerifyingArtifact =>
      if e.VerifyArtifact? && e.artifact == tx.artifactPath && e.request == tx.request
      then Some(OnError(e.err, a, tx, Verification, Active(a, tx, Checking))) else None
    case VerifyingSignature =>
      if e.VerifySignature? && e.request == tx.request
      then Some(OnError(e.err, a, tx, Verification, Active(a, tx, Checking))) else None
    case Checking =>
      if e.Check? && e.adapter == a && e.request == tx.request && e.artifact == tx.artifactPath
      then Some(OnError(e.err, a, tx, NativeVerification, AdvanceTo(a, tx, Verified))) else None
    case Installing =>
      if e.Install? && e.adapter == a && e.request == tx.request && e.artifact == tx.artifactPath
      then Some(OnError(e.err, a, tx, Installation, AdvanceTo(a, tx, Installed))) else None
    case Activating =>
      if e.Activate? && e.adapter == a && e.request == tx.request
      then Some(OnError(e.err, a, tx, Activation, AdvanceTo(a, tx, Activated))) else None
  }

  /** Reboots: asking for one, and resuming after one or without one. */
  function RebootStep(boot: string, a: Adapter, tx: Transaction, pc: Pc, e: Event): Option<Call>
    requires RebootPoint(pc)
  {
    match pc
    case AskingReboot =>
      if e.AskReboot? && e.adapter == a && a.MayAnswerReboot(e.answer)
      then Some(Active(a, tx, if e.answer then BootForReboot else Health)) else None
    case BootForReboot =>
      if BootAnswer(boot, e)
      then Some(Active(a, tx.(phase := RebootRequested, bootId := e.id), Saving(true, FirstReboot))) else None
    case Requesting(after) =>
      if e.RequestReboot? then Some(AfterRebootRequest(a, tx, after, e.err)) else None
    case Resuming =>
      if BootAnswer(boot, e)
      then Some(if e.id == tx.bootId then Active(a, tx, Timing) else AfterReboot(a, tx)) else None
    case Timing =>
      if e.ReadClock? then Some(Overdue(a, tx, e.now)) else None
  }

  /** Health, confirmation and commit. */
  function ConfirmingStep(a: Adapter, tx: Transaction, pc: Pc, e: Event): Option<Call>
    requires ConfirmingPoint(pc)
  {
    match pc
    case Health =>
      if e.HealthCheck? then Some(OnError(e.err, a, tx, HealthFailure, Active(a, tx, Confirming))) else None
    case Confirming => VersionStep(a, tx, e, true)
    case Committing =>
      if e.Commit? && e.adapter == a && e.request == tx.request
      then Some(OnError(e.err, a, tx, Committal, Active(a, tx.(phase := Completed), Saving(true, Confirmed)))) else None
  }

  /** Rolling back, and cleaning up after success. */
  function RollbackStep(boot: string, a: Adapter, tx: Transaction, pc: Pc, e: Event): Option<Call>
    requires RollbackPoint(pc)
  {
    match pc
    case RollingBack(class_, cause) =>
      if e.Rollback? && e.adapter == a && e.request == tx.request && e.previous == tx.previousVersion then
        Some(if e.err.Some? then RollbackFailing(a, tx, RollbackError(e.err.value))
             else Active(a, tx, AskingRollbackReboot(class_, cause)))
      else None
    case AskingRollbackReboot(class_, cause) =>
      if e.AskReboot? && e.adapter == a && a.MayAnswerReboot(e.answer) then
        Some(if e.answer then Active(a, tx, BootForRollback)
             else Active(a, tx.(phase := RolledBack), Saving(false, Finish(FailedReply(tx.request, class_, cause)))))
      else None
    case BootForRollback =>
      if BootAnswer(boot, e)
      then Some(Active(a, tx.(phase := RollbackRebootRequested, bootId := e.id), Saving(false, RollbackReboot)))
      else None
    case Removing =>
      if e.RemoveArtifact? && e.artifact == tx.artifactPath then Some(Finishing(ReplyTo(tx.request, Succeeded, [])))
      else None
  }

  /** One effect of an active call that is not a `save`. */
  function CallStep(boot: string, a: Adapter, tx: Transaction, pc: Pc, e: Event): Option<Call> {
    if PreflightPoint(pc) then PreflightStep(a, tx, pc, e)
    else if InstallPoint(pc) then InstallStep(a, tx, pc, e)
    else if RebootPoint(pc) then RebootStep(boot, a, tx, pc, e)
    else if ConfirmingPoint(pc) then ConfirmingStep(a, tx, pc, e)
    else if RollbackPoint(pc) then RollbackStep(boot, a, tx, pc, e)
    else None
  }

  function AfterLoad(disk: map<string, Transaction>, r: Request, a: Adapter, outcome: LoadOutcome): Option<Call> {
    match outcome
    case Missing => if Key(r) in disk then None else Some(Active(a, FreshTransaction(r), Saving(true, Continue)))
    case Unreadable(cause) => Some(Finishing(FailedReply(r, StateError, Reported(cause))))
    case Found(tx) => if Key(r) in disk && disk[Key(r)] == tx then Some(Resume(a, r, tx)) else None
  }

  function Entered(r: Request, gate: Gate): Call {
    match gate
    case Rejected(class_, cause) => Finishing(FailedReply(r, class_, Reported(cause)))
    case Ready(a) => Loading(r, a)
  }

  /** Writing the transaction file: the new file, or the old one and an error. */
  function SaveStep(s: State, tx: Transaction, now: int, err: Error): Option<State>
    requires s.call.Active? && s.call.pc.Saving?
  {
    var a, pc := s.call.adapter, s.call.pc;
    if tx != s.call.tx then None
    else if err.Some? && pc.strict then
      Some(s.(call := Finishing(FailedReply(tx.request, StateError, Reported(err.value)))))
    else
      var disk := if err == None then s.disk[Key(tx.request) := Stored(tx, now)] else s.disk;
      match AfterSave(a, tx, pc.next)
      case Some(c) => Some(s.(disk := disk, call := c))
      case None => None
  }

  function WithCall(s: State, c: Option<Call>): Option<State> {
    match c
    case Some(call) => Some(s.(call := call))
    case None => None
  }

  function Step(s: State, e: Event): Option<State> {
    if e.Crash? then Some(s.(call := Idle))
    else if e.Reboot? then Some(s.(boot := e.bootId, call := Idle))
    else match s.call
      case Idle =>
        if e.Begin? && (e.gate.Ready? ==> e.gate.adapter.name == e.request.adapter)
        then Some(s.(call := Entered(e.request, e.gate))) else None
      case Loading(r, a) => if e.Load? then WithCall(s, AfterLoad(s.disk, r, a, e.outcome)) else None
      case Finishing(reply) => if e == Return(reply) then Some(s.(call := Idle)) else None
      case Active(a, tx, pc) =>
        if pc.Saving? then (if e.Save? then SaveStep(s, e.tx, e.now, e.err) else None)
        else WithCall(s, CallStep(s.boot, a, tx, pc, e))
  }

  /** Where a log leads, if the machine accepts it. */
  function Run(s: State, log: seq<Event>): Option<State>
    decreases |log|
  {
    if log == [] then Some(s)
    else match Run(s, log[..|log| - 1])
      case Some(t) => Step(t, log[|log| - 1])
      case None => None
  }

  /** A device that has never seen an update. */
  function NewDevice(boot: string): State {
    State(map[], boot, Idle)
  }
}
