/** Requests, transactions and replies of the device's OTA engine, and the effects it can have. */
module OtaTypes {
  import opened Text

  /** The adapter names the engine itself tells apart. */
  datatype AdapterName = Flatpak | OSTree | OtherAdapter(name: string)

  datatype Request = Request(
    updateId: string,
    adapter: AdapterName,
    version: string,
    compatibleFrom: Option<seq<string>>, // None is Go's nil slice
    ostreeRemote: string,
    ostreeCommit: string,
    flatpakCommit: string,
    artifactUrl: string,
    artifactSize: int,
    digest: string,
    others: seq<string>) // the remaining text fields, carried verbatim

  datatype Phase =
    | Created | Prepared | Downloaded | Verified | Installed | Activated
    | RebootRequested | RollbackRebootRequested
    | Completed | RolledBack | RollbackFailed
    | Unknown(name: string)

  datatype FailureClass =
    | Validation | NoAdapter | StateError
    | VersionBefore | Compatibility | SpaceBefore | Downloading | Verification | NativeVerification
    | Installation | Activation | Rebooting | HealthFailure | VersionAfter | Committal
    | WasRolledBack | RollbackBroke

  datatype Cause =
    | Reported(message: string)        // an error of the adapter, the disk or the network
    | NotCompatible
    | WrongRevision(reported: string)
    | NeverRebooted
    | OtherRequest | UnknownPhase(name: string)
    | Earlier(failure: seq<Note>)      // the failure text that was persisted

  /** A failure text is the sequence of the pieces it is joined from. */
  datatype Note =
    | Because(class_: FailureClass, cause: Cause)
    | RollbackError(message: string)
    | RollbackRebootError(message: string)
    | NoRebootAfterRollback

  datatype Transaction = Transaction(
    request: Request,
    phase: Phase,
    artifactPath: string,
    previousVersion: string,
    bootId: string,
    failure: seq<Note>,
    rebootAttempts: int,
    updatedAt: int) // nanoseconds

  /** `omitempty` drops an empty list, so reading it back gives nil. */
  function Reloaded(r: Request): Request {
    if r.compatibleFrom == Some([]) then r.(compatibleFrom := None) else r
  }

  /** What reading the transaction file gives after `save` wrote it. */
  function Stored(tx: Transaction, now: int): Transaction {
    tx.(request := Reloaded(tx.request), updatedAt := now)
  }

  function FreshTransaction(r: Request): Transaction {
    Transaction(r, Created, "", "", "", [], 0, 0)
  }

  function Key(r: Request): string {
    SafeId(r.updateId)
  }

  predicate SameWire(a: Request, b: Request) {
    Reloaded(a) == Reloaded(b)
  }

  predicate Terminal(p: Phase) {
    p.Completed? || p.RolledBack? || p.RollbackFailed?
  }

  /** Phases in which nothing has been installed yet. */
  predicate BeforeInstall(p: Phase) {
    p.Created? || p.Prepared? || p.Downloaded? || p.Verified?
  }

  predicate Early(p: Phase) {
    BeforeInstall(p) || p.Installed? || p.Activated?
  }

  /** An adapter resolved by name; a plugin of the same name overrides the built-in one. */
  datatype Adapter = Adapter(name: AdapterName, plugin: bool) {
    predicate ArtifactRequired() { plugin || name != Flatpak }
    /** A built-in adapter always gives the same answer; a plugin is asked every time. */
    predicate MayAnswerReboot(answer: bool) { plugin || answer == (name != Flatpak) }
  }

  predicate UsesRepository(r: Request) {
    r.adapter == OSTree && r.ostreeRemote != ""
  }

  predicate NeedsArtifact(a: Adapter, r: Request) {
    a.ArtifactRequired() && !UsesRepository(r)
  }

  datatype ReplyState = Succeeded | Failed | RebootPending

  /** The status and error that `Execute` returns; `error` is the status text. */
  datatype Reply = Reply(
    updateId: string, adapter: AdapterName, version: string,
    state: ReplyState, error: seq<Note>)

  function ReplyTo(r: Request, state: ReplyState, error: seq<Note>): Reply {
    Reply(r.updateId, r.adapter, r.version, state, error)
  }

  function FailedReply(r: Request, class_: FailureClass, cause: Cause): Reply {
    ReplyTo(r, Failed, [Because(class_, cause)])
  }

  /** The revision the updated device must report. */
  function ExpectedRevision(r: Request): string {
    if r.adapter == OSTree then r.ostreeCommit
    else if r.adapter == Flatpak then r.flatpakCommit
    else r.version
  }

  predicate ReportsCommits(r: Request) {
    r.adapter == OSTree || r.adapter == Flatpak
  }

  /** The release is confirmed: an exact commit, or a version text that contains the release. */
  predicate Confirms(r: Request, reported: string) {
    var expected, current := ExpectedRevision(r), TrimSpace(reported);
    expected == "" ||
    if ReportsCommits(r) then EqualFold(current, expected)
    else current == "" || Contains(current, expected)
  }

  predicate CompatibleFrom(r: Request, current: string) {
    r.compatibleFrom == None || r.compatibleFrom.value == [] || current in r.compatibleFrom.value
  }

  /** Why `Execute` stops before it looks at the transaction, or the adapter it resolved. */
  datatype Gate = Rejected(class_: FailureClass, cause: string) | Ready(adapter: Adapter)

  datatype LoadOutcome = Missing | Unreadable(cause: string) | Found(tx: Transaction)

  /** Everything an engine call does or observes, in order, and what can happen to the device. */
  datatype Event =
    | Begin(request: Request, gate: Gate)
    | Load(outcome: LoadOutcome)
    | CurrentVersion(adapter: Adapter, request: Request, reported: Result<string>)
    | FreeSpace(err: Error)
    | Fetch(request: Request, path: Result<string>)
    | VerifyArtifact(artifact: string, request: Request, err: Error)
    | VerifySignature(request: Request, err: Error)
    | Check(adapter: Adapter, request: Request, artifact: string, err: Error)
    | Install(adapter: Adapter, request: Request, artifact: string, err: Error)
    | Activate(adapter: Adapter, request: Request, err: Error)
    | Commit(adapter: Adapter, request: Request, err: Error)
    | Rollback(adapter: Adapter, request: Request, previous: string, err: Error)
    | AskReboot(adapter: Adapter, answer: bool)
    | ReadBootId(id: string)
    | ReadClock(now: int)
    | RequestReboot(err: Error)
    | HealthCheck(err: Error)
    | Save(tx: Transaction, now: int, err: Error)
    | RemoveArtifact(artifact: string)
    | Return(reply: Reply)
    | Crash
    | Reboot(bootId: string)
}
