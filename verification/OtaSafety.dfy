/** What holds over every run of the OTA engine: crashes and reboots anywhere, failed saves,
    redeliveries and any answers from adapters. */
module OtaSafety {
  import opened Text
  import opened OtaTypes
  import opened OtaMachine

  // ---------- what a log says about the past ----------

  /** The native check of `r` passed at `j`, right after the verification the adapter calls for. */
  ghost predicate CheckedAt(log: seq<Event>, j: nat, r: Request, artifact: string) {
    && j < |log|
    && log[j].Check? && log[j].err == None && SameWire(log[j].request, r) && log[j].artifact == artifact
    && (NeedsArtifact(log[j].adapter, r) ==> j > 0 && log[j - 1] == VerifyArtifact(artifact, log[j].request, None))
    && (UsesRepository(r) ==> j > 0 && log[j - 1] == VerifySignature(log[j].request, None))
  }

  ghost predicate Checked(log: seq<Event>, r: Request, artifact: string) {
    exists j: nat :: CheckedAt(log, j, r, artifact)
  }

  /** The call holds a transaction that was only just created. */
  predicate HoldsCreated(e: Event) {
    (e.Save? && e.tx.phase.Created?) || (e.Load? && e.outcome.Found? && e.outcome.tx.phase.Created?)
  }

  /** At `j` the device reported, in preflight, a version that trims to `version`. */
  ghost predicate PreflightAt(log: seq<Event>, j: nat, r: Request, version: string) {
    && 0 < j < |log| && HoldsCreated(log[j - 1])
    && log[j].CurrentVersion? && SameWire(log[j].request, r)
    && log[j].reported.Ok? && TrimSpace(log[j].reported.value) == version
  }

  ghost predicate PreflightReported(log: seq<Event>, r: Request, version: string) {
    exists j: nat :: PreflightAt(log, j, r, version)
  }

  /** At `j` the preflight version was persisted. */
  ghost predicate PreparedAt(log: seq<Event>, j: nat, r: Request, version: string) {
    && j < |log| && log[j].Save? && log[j].err == None
    && log[j].tx.phase.Prepared? && SameWire(log[j].tx.request, r) && log[j].tx.previousVersion == version
    && PreflightReported(log[..j], r, version)
  }

  ghost predicate PreparedOver(log: seq<Event>, r: Request, version: string) {
    exists j: nat :: PreparedAt(log, j, r, version)
  }

  /** `Install` succeeded at `j`, for an update prepared over `version` and checked. */
  ghost predicate InstalledAt(log: seq<Event>, j: nat, r: Request, version: string) {
    && j < |log|
    && log[j].Install? && log[j].err == None && SameWire(log[j].request, r)
    && PreparedOver(log[..j], r, version)
    && Checked(log[..j], r, log[j].artifact)
  }

  ghost predicate InstalledOver(log: seq<Event>, r: Request, version: string) {
    exists j: nat :: InstalledAt(log, j, r, version)
  }

  /** At `j` the update was committed, right after the device was healthy and reported the release. */
  ghost predicate ConfirmedAt(log: seq<Event>, j: nat, r: Request) {
    && 2 <= j < |log|
    && log[j - 2] == HealthCheck(None)
    && log[j - 1].CurrentVersion? && log[j - 1].request == r
    && log[j - 1].reported.Ok? && Confirms(r, log[j - 1].reported.value)
    && log[j].Commit? && log[j].request == r && log[j].err == None
  }

  ghost predicate CommittedHealthy(log: seq<Event>, r: Request) {
    exists j: nat, q: Request :: SameWire(q, r) && ConfirmedAt(log, j, q)
  }

  /** The past of a log, gathered by the wire form of the request. */
  datatype Facts = Facts(
    preflight: iset<(Request, string)>,
    prepared: iset<(Request, string)>,
    checked: iset<(Request, string)>,
    installed: iset<(Request, string)>,
    committed: iset<Request>)
  {
    ghost predicate Within(g: Facts) {
      && preflight <= g.preflight && prepared <= g.prepared && checked <= g.checked
      && installed <= g.installed && committed <= g.committed
    }
  }

  ghost function Past(log: seq<Event>): Facts {
    Facts(iset p: (Request, string) | PreflightReported(log, p.0, p.1),
          iset p: (Request, string) | PreparedOver(log, p.0, p.1),
          iset p: (Request, string) | Checked(log, p.0, p.1),
          iset p: (Request, string) | InstalledOver(log, p.0, p.1),
          iset r: Request | CommittedHealthy(log, r))
  }

  lemma {:induction false} PastGrows(log: seq<Event>, e: Event)
    ensures Past(log).Within(Past(log + [e]))
  {
    var more := log + [e];
    forall r, p | Checked(log, r, p) ensures Checked(more, r, p) {
      var j: nat :| CheckedAt(log, j, r, p);
      assert CheckedAt(more, j, r, p);
    }
    forall r, v | PreflightReported(log, r, v) ensures PreflightReported(more, r, v) {
      var j: nat :| PreflightAt(log, j, r, v);
      assert PreflightAt(more, j, r, v);
    }
    forall r, v | PreparedOver(log, r, v) ensures PreparedOver(more, r, v) {
      var j: nat :| PreparedAt(log, j, r, v);
      assert more[..j] == log[..j];
      assert PreparedAt(more, j, r, v);
    }
    forall r, v | InstalledOver(log, r, v) ensures InstalledOver(more, r, v) {
      var j: nat :| InstalledAt(log, j, r, v);
      assert more[..j] == log[..j];
      assert InstalledAt(more, j, r, v);
    }
    forall r | CommittedHealthy(log, r) ensures CommittedHealthy(more, r) {
      var j: nat, q: Request :| SameWire(q, r) && ConfirmedAt(log, j, q);
      assert ConfirmedAt(more, j, q);
    }
  }

  lemma {:induction false} PreflightNoted(log: seq<Event>, r: Request)
    requires |log| > 1 && HoldsCreated(log[|log| - 2])
    requires var e := log[|log| - 1]; e.CurrentVersion? && e.request == r && e.reported.Ok?
    ensures (Reloaded(r), TrimSpace(log[|log| - 1].reported.value)) in Past(log).preflight
  {
    assert PreflightAt(log, |log| - 1, Reloaded(r), TrimSpace(log[|log| - 1].reported.value));
  }

  lemma {:induction false} PrepareNoted(log: seq<Event>, tx: Transaction, now: int)
    requires tx.phase.Prepared? && (Reloaded(tx.request), tx.previousVersion) in Past(log).preflight
    ensures (Reloaded(tx.request), tx.previousVersion) in Past(log + [Save(tx, now, None)]).prepared
  {
    var more := log + [Save(tx, now, None)];
    assert more[..|log|] == log;
    assert PreparedAt(more, |log|, Reloaded(tx.request), tx.previousVersion);
  }

  lemma {:induction false} CheckNoted(log: seq<Event>, a: Adapter, r: Request, artifact: string)
    requires log != [] && log[|log| - 1] == Check(a, r, artifact, None)
    requires NeedsArtifact(a, r) ==> Last(log, 1, VerifyArtifact(artifact, r, None))
    requires UsesRepository(r) ==> Last(log, 1, VerifySignature(r, None))
    ensures (Reloaded(r), artifact) in Past(log).checked
  {
    assert CheckedAt(log, |log| - 1, Reloaded(r), artifact);
  }

  lemma {:induction false} InstallNoted(log: seq<Event>, a: Adapter, r: Request, artifact: string, version: string)
    requires (Reloaded(r), artifact) in Past(log).checked
    requires (Reloaded(r), version) in Past(log).prepared
    ensures (Reloaded(r), version) in Past(log + [Install(a, r, artifact, None)]).installed
  {
    var more := log + [Install(a, r, artifact, None)];
    assert more[..|log|] == log;
    assert InstalledAt(more, |log|, Reloaded(r), version);
  }

  lemma {:induction false} CommitNoted(log: seq<Event>, r: Request)
    requires log != [] && ConfirmedAt(log, |log| - 1, r)
    ensures Reloaded(r) in Past(log).committed
  {
    assert SameWire(r, Reloaded(r));
  }

  // ---------- the invariant ----------

  /** Phases that only a successful `Install` leads to. */
  predicate AfterInstall(p: Phase) {
    p.Installed? || p.Activated? || p.RebootRequested? || p.RollbackRebootRequested? || p.RollbackFailed?
        || p.Completed?
  }

  /** What a transaction, in memory or on disk, says about the past. */
  ghost predicate Justified(f: Facts, tx: Transaction) {
    var r := Reloaded(tx.request);
    && !tx.phase.Unknown?
    && (tx.phase.Prepared? ==> (r, tx.previousVersion) in f.preflight)
    && (tx.phase.Downloaded? || tx.phase.Verified? ==> (r, tx.previousVersion) in f.prepared)
    && (tx.phase.Verified? ==> (r, tx.artifactPath) in f.checked)
    && (AfterInstall(tx.phase) ==> (r, tx.previousVersion) in f.installed)
    && (tx.phase.Completed? ==> r in f.committed)
    && 0 <= tx.rebootAttempts <= MAX_REBOOT_REQUESTS
    && (Early(tx.phase) ==> tx.rebootAttempts == 0)
  }

  ghost predicate Last(log: seq<Event>, back: nat, e: Event) {
    back < |log| && log[|log| - 1 - back] == e
  }

  /** What the point reached in a call adds to that. */
  ghost predicate PointJustified(f: Facts, log: seq<Event>, a: Adapter, tx: Transaction, pc: Pc) {
    match pc
    case Preflight => tx.phase.Created? && log != [] && HoldsCreated(log[|log| - 1])
    case CheckingSpace => tx.phase.Created? && (Reloaded(tx.request), tx.previousVersion) in f.preflight
    case Fetching => tx.phase.Prepared? && (Reloaded(tx.request), tx.previousVersion) in f.prepared
    case VerifyingArtifact => tx.phase.Downloaded? && NeedsArtifact(a, tx.request)
    case VerifyingSignature => tx.phase.Downloaded? && UsesRepository(tx.request)
    case Checking =>
      && tx.phase.Downloaded?
      && (NeedsArtifact(a, tx.request) ==> Last(log, 0, VerifyArtifact(tx.artifactPath, tx.request, None)))
      && (UsesRepository(tx.request) ==> Last(log, 0, VerifySignature(tx.request, None)))
    case Installing => tx.phase.Verified?
    case Activating => tx.phase.Installed?
    case AskingReboot => tx.phase.Activated?
    case BootForReboot => tx.phase.Activated?
    case Requesting(FirstReboot) => tx.phase.RebootRequested?
    case Requesting(RollbackReboot) => tx.phase.RollbackRebootRequested?
    case Requesting(RetryReboot) => true
    case Requesting(_) => false
    case Resuming => tx.phase.RebootRequested? || tx.phase.RollbackRebootRequested?
    case Timing => tx.phase.RebootRequested? || tx.phase.RollbackRebootRequested?
    case Health => tx.phase.Activated? || tx.phase.RebootRequested?
    case Confirming => (tx.phase.Activated? || tx.phase.RebootRequested?) && Last(log, 0, HealthCheck(None))
    case Committing =>
      && (tx.phase.Activated? || tx.phase.RebootRequested?)
      && Last(log, 1, HealthCheck(None))
      && |log| > 0 && log[|log| - 1].CurrentVersion? && log[|log| - 1].request == tx.request
      && log[|log| - 1].reported.Ok? && Confirms(tx.request, log[|log| - 1].reported.value)
    case RollingBack(_, _) => AfterInstall(tx.phase) && !tx.phase.Completed?
    case AskingRollbackReboot(_, _) => AfterInstall(tx.phase) && !tx.phase.Completed?
    case BootForRollback => AfterInstall(tx.phase) && !tx.phase.Completed?
    case Saving(strict, next) =>
      && (next.Continue? ==> strict && Early(tx.phase))
      && (next.FirstReboot? ==> strict && tx.phase.RebootRequested?)
      && (next.RetryReboot? ==> strict && (tx.phase.RebootRequested? || tx.phase.RollbackRebootRequested?))
      && (next.RollbackReboot? ==> !strict && tx.phase.RollbackRebootRequested?)
      && (next.Confirmed? <==> tx.phase.Completed?)
      && (next.Confirmed? ==> strict && |log| >= 3 && ConfirmedAt(log, |log| - 1, tx.request))
      && (next.Finish? ==> next.reply.state == Failed && (tx.phase.RollbackFailed? || tx.phase.RolledBack?))
    case Removing => tx.phase.Completed?
  }

  ghost predicate DiskJustified(f: Facts, disk: map<string, Transaction>) {
    forall k :: k in disk ==>
      && k == Key(disk[k].request) && Reloaded(disk[k].request) == disk[k].request
      && Justified(f, disk[k])
      && (disk[k].phase.Prepared? ==> (disk[k].request, disk[k].previousVersion) in f.prepared)
  }

  ghost predicate CallJustified(f: Facts, log: seq<Event>, c: Call) {
    match c
    case Active(a, tx, pc) => Justified(f, tx) && PointJustified(f, log, a, tx, pc) && a.name == tx.request.adapter
    case Loading(r, a) => a.name == r.adapter
    case _ => true
  }

  ghost predicate Inv(log: seq<Event>, s: State) {
    DiskJustified(Past(log), s.disk) && CallJustified(Past(log), log, s.call)
  }

  lemma {:induction false} SaveKeepsDisk(f: Facts, log: seq<Event>, s: State, e: Event)
    requires DiskJustified(f, s.disk) && CallJustified(f, log, s.call)
    requires s.call.Active? && s.call.pc.Saving? && e.Save?
    requires e.err == None && e.tx.phase.Prepared? ==> (Reloaded(e.tx.request), e.tx.previousVersion) in f.prepared
    requires SaveStep(s, e.tx, e.now, e.err).Some?
    ensures DiskJustified(f, SaveStep(s, e.tx, e.now, e.err).value.disk)
  {
    assert Justified(f, Stored(s.call.tx, e.now));
  }

  lemma {:induction false} SaveAndContinueKeepsCall(f: Facts, log: seq<Event>, s: State, e: Event)
    requires CallJustified(f, log, s.call)
    requires s.call.Active? && s.call.pc.Saving? && s.call.pc.next.Continue? && e.Save?
    requires e.err == None && e.tx.phase.Prepared? ==> (Reloaded(e.tx.request), e.tx.previousVersion) in f.prepared
    requires SaveStep(s, e.tx, e.now, e.err).Some?
    ensures CallJustified(f, log + [e], SaveStep(s, e.tx, e.now, e.err).value.call)
  {}

  lemma {:induction false} SaveKeepsCall(f: Facts, log: seq<Event>, s: State, e: Event)
    requires CallJustified(f, log, s.call)
    requires s.call.Active? && s.call.pc.Saving? && e.Save?
    requires e.err == None && e.tx.phase.Prepared? ==> (Reloaded(e.tx.request), e.tx.previousVersion) in f.prepared
    requires SaveStep(s, e.tx, e.now, e.err).Some?
    ensures CallJustified(f, log + [e], SaveStep(s, e.tx, e.now, e.err).value.call)
  {
    if s.call.pc.next.Continue? { SaveAndContinueKeepsCall(f, log, s, e); }
  }

  /** The facts that the effect itself adds. */
  ghost predicate Noted(g: Facts, tx: Transaction, pc: Pc, e: Event) {
    var r := Reloaded(tx.request);
    && (pc.Preflight? && e.CurrentVersion? && e.reported.Ok? ==> (r, TrimSpace(e.reported.value)) in g.preflight)
    && (pc.Checking? && e.Check? && e.err == None ==> (r, tx.artifactPath) in g.checked)
    && (pc.Installing? && e.Install? && e.err == None ==> (r, tx.previousVersion) in g.installed)
    && (pc.Committing? && e.Commit? && e.err == None ==> r in g.committed)
  }

  lemma {:induction false} PreflightIsNoted(log: seq<Event>, a: Adapter, tx: Transaction, reported: Result<string>)
    requires log != [] && HoldsCreated(log[|log| - 1])
    ensures Noted(Past(log + [CurrentVersion(a, tx.request, reported)]), tx, Preflight,
            CurrentVersion(a, tx.request, reported))
  {
    if reported.Ok? { PreflightNoted(log + [CurrentVersion(a, tx.request, reported)], tx.request); }
  }

  lemma {:induction false} CheckIsNoted(log: seq<Event>, a: Adapter, tx: Transaction, err: Error)
    requires PointJustified(Past(log), log, a, tx, Checking)
    ensures var e := Check(a, tx.request, tx.artifactPath, err); Noted(Past(log + [e]), tx, Checking, e)
  {
    if err == None { CheckNoted(log + [Check(a, tx.request, tx.artifactPath, err)], a, tx.request, tx.artifactPath); }
  }

  lemma {:induction false} InstallIsNoted(log: seq<Event>, a: Adapter, tx: Transaction, err: Error)
    requires (Reloaded(tx.request), tx.artifactPath) in Past(log).checked
    requires (Reloaded(tx.request), tx.previousVersion) in Past(log).prepared
    ensures var e := Install(a, tx.request, tx.artifactPath, err); Noted(Past(log + [e]), tx, Installing, e)
  {
    if err == None { InstallNoted(log, a, tx.request, tx.artifactPath, tx.previousVersion); }
  }

  lemma {:induction false} CommitIsNoted(log: seq<Event>, a: Adapter, tx: Transaction, err: Error)
    requires PointJustified(Past(log), log, a, tx, Committing)
    ensures var e := Commit(a, tx.request, err); Noted(Past(log + [e]), tx, Committing, e)
  {
    if err == None { CommitNoted(log + [Commit(a, tx.request, err)], tx.request); }
  }

  /** The effects whose success is a fact to note. */
  lemma {:induction false} EventAt(boot: string, a: Adapter, tx: Transaction, pc: Pc, e: Event)
    requires CallStep(boot, a, tx, pc, e).Some?
    ensures pc.Preflight? ==> e.CurrentVersion? && e == CurrentVersion(a, tx.request, e.reported)
    ensures pc.Checking? ==> e.Check? && e == Check(a, tx.request, tx.artifactPath, e.err)
    ensures pc.Installing? ==> e.Install? && e == Install(a, tx.request, tx.artifactPath, e.err)
    ensures pc.Committing? ==> e.Commit? && e == Commit(a, tx.request, e.err)
  {}

  lemma {:induction false} NotedByPast(log: seq<Event>, boot: string, a: Adapter, tx: Transaction, pc: Pc, e: Event)
    requires Justified(Past(log), tx) && PointJustified(Past(log), log, a, tx, pc)
    requires CallStep(boot, a, tx, pc, e).Some?
    ensures Noted(Past(log + [e]), tx, pc, e)
  {
    EventAt(boot, a, tx, pc, e);
    if pc.Preflight? { PreflightIsNoted(log, a, tx, e.reported); }
    else if pc.Checking? { CheckIsNoted(log, a, tx, e.err); }
    else if pc.Installing? { InstallIsNoted(log, a, tx, e.err); }
    else if pc.Committing? { CommitIsNoted(log, a, tx, e.err); }
  }

  /** An effect of an active call, given the facts that hold after it. */
  ghost predicate Effect(g: Facts, log: seq<Event>, a: Adapter, tx: Transaction, pc: Pc, e: Event) {
    && Justified(g, tx) && PointJustified(g, log, a, tx, pc) && a.name == tx.request.adapter
    && Noted(g, tx, pc, e)
  }

  lemma {:induction false} PreflightKeeps(g: Facts, log: seq<Event>, a: Adapter, tx: Transaction, e: Event)
    requires Effect(g, log, a, tx, Preflight, e) && PreflightStep(a, tx, Preflight, e).Some?
    ensures CallJustified(g, log + [e], PreflightStep(a, tx, Preflight, e).value)
  {}

  lemma {:induction false} SpaceKeeps(g: Facts, log: seq<Event>, a: Adapter, tx: Transaction, e: Event)
    requires Effect(g, log, a, tx, CheckingSpace, e) && PreflightStep(a, tx, CheckingSpace, e).Some?
    ensures CallJustified(g, log + [e], PreflightStep(a, tx, CheckingSpace, e).value)
  {}

  lemma {:induction false} FetchKeeps(g: Facts, log: seq<Event>, a: Adapter, tx: Transaction, pc: Pc, e: Event)
    requires pc.Fetching? && Effect(g, log, a, tx, pc, e) && PreflightStep(a, tx, pc, e).Some?
    ensures CallJustified(g, log + [e], PreflightStep(a, tx, pc, e).value)
  {}

  lemma {:induction false} VerifyKeeps(g: Facts, log: seq<Event>, a: Adapter, tx: Transaction, pc: Pc, e: Event)
    requires (pc.VerifyingArtifact? || pc.VerifyingSignature? || pc.Checking?) && Effect(g, log, a, tx, pc, e)
    requires InstallStep(a, tx, pc, e).Some?
    ensures CallJustified(g, log + [e], InstallStep(a, tx, pc, e).value)
  {}

  lemma {:induction false} InstallKeeps(g: Facts, log: seq<Event>, a: Adapter, tx: Transaction, pc: Pc, e: Event)
    requires (pc.Installing? || pc.Activating?) && Effect(g, log, a, tx, pc, e) && InstallStep(a, tx, pc, e).Some?
    ensures CallJustified(g, log + [e], InstallStep(a, tx, pc, e).value)
  {}

  lemma {:induction false} AskKeeps(g: Facts, log: seq<Event>, boot: string, a: Adapter, tx: Transaction, pc: Pc,
                                    e: Event)
    requires (pc.AskingReboot? || pc.BootForReboot? || pc.Requesting?) && Effect(g, log, a, tx, pc, e)
    requires RebootStep(boot, a, tx, pc, e).Some?
    ensures CallJustified(g, log + [e], RebootStep(boot, a, tx, pc, e).value)
  {}

  lemma {:induction false} ResumeKeeps(g: Facts, log: seq<Event>, boot: string, a: Adapter, tx: Transaction, pc: Pc,
                                       e: Event)
    requires (pc.Resuming? || pc.Timing?) && Effect(g, log, a, tx, pc, e) && RebootStep(boot, a, tx, pc, e).Some?
    ensures CallJustified(g, log + [e], RebootStep(boot, a, tx, pc, e).value)
  {}

  lemma {:induction false} HealthKeeps(g: Facts, log: seq<Event>, a: Adapter, tx: Transaction, e: Event)
    requires Effect(g, log, a, tx, Health, e) && ConfirmingStep(a, tx, Health, e).Some?
    ensures CallJustified(g, log + [e], ConfirmingStep(a, tx, Health, e).value)
  {}

  lemma {:induction false} ConfirmedKeeps(g: Facts, log: seq<Event>, a: Adapter, tx: Transaction, v: string)
    requires Justified(g, tx) && PointJustified(g, log, a, tx, Confirming) && Confirms(tx.request, v)
    ensures PointJustified(g, log + [CurrentVersion(a, tx.request, Ok(v))], a, tx, Committing)
  {}

  lemma {:induction false} ConfirmingKeeps(g: Facts, log: seq<Event>, a: Adapter, tx: Transaction, e: Event)
    requires Effect(g, log, a, tx, Confirming, e) && ConfirmingStep(a, tx, Confirming, e).Some?
    ensures CallJustified(g, log + [e], ConfirmingStep(a, tx, Confirming, e).value)
  {
    if e.reported.Ok? && Confirms(tx.request, e.reported.value) { ConfirmedKeeps(g, log, a, tx, e.reported.value); }
  }

  lemma {:induction false} CommitKeeps(g: Facts, log: seq<Event>, a: Adapter, tx: Transaction, pc: Pc, e: Event)
    requires pc.Committing? && Effect(g, log, a, tx, pc, e) && ConfirmingStep(a, tx, pc, e).Some?
    ensures CallJustified(g, log + [e], ConfirmingStep(a, tx, pc, e).value)
  {}

  lemma {:induction false} RollbackKeeps(g: Facts, log: seq<Event>, boot: string, a: Adapter, tx: Transaction,
                                         pc: Pc, e: Event)
    requires RollbackPoint(pc) && Effect(g, log, a, tx, pc, e) && RollbackStep(boot, a, tx, pc, e).Some?
    ensures CallJustified(g, log + [e], RollbackStep(boot, a, tx, pc, e).value)
  {}

  lemma {:induction false} EffectKeepsCall(g: Facts, log: seq<Event>, boot: string, a: Adapter, tx: Transaction,
                                           pc: Pc, e: Event)
    requires Effect(g, log, a, tx, pc, e) && CallStep(boot, a, tx, pc, e).Some?
    ensures CallJustified(g, log + [e], CallStep(boot, a, tx, pc, e).value)
  {
    if pc.Fetching? { FetchKeeps(g, log, a, tx, pc, e); }
    else if pc.Preflight? { PreflightKeeps(g, log, a, tx, e); }
    else if pc.CheckingSpace? { SpaceKeeps(g, log, a, tx, e); }
    else if pc.Installing? || pc.Activating? { InstallKeeps(g, log, a, tx, pc, e); }
    else if InstallPoint(pc) { VerifyKeeps(g, log, a, tx, pc, e); }
    else if pc.Resuming? || pc.Timing? { ResumeKeeps(g, log, boot, a, tx, pc, e); }
    else if RebootPoint(pc) { AskKeeps(g, log, boot, a, tx, pc, e); }
    else if pc.Committing? { CommitKeeps(g, log, a, tx, pc, e); }
    else if pc.Health? { HealthKeeps(g, log, a, tx, e); }
    else if pc.Confirming? { ConfirmingKeeps(g, log, a, tx, e); }
    else { RollbackKeeps(g, log, boot, a, tx, pc, e); }
  }

  lemma {:induction false} JustifiedGrows(f: Facts, g: Facts, s: State, log: seq<Event>)
    requires f.Within(g) && DiskJustified(f, s.disk) && CallJustified(f, log, s.call)
    ensures DiskJustified(g, s.disk) && CallJustified(g, log, s.call)
  {}

  lemma {:induction false} ProceedKeepsInv(g: Facts, log: seq<Event>, a: Adapter, tx: Transaction)
    requires Justified(g, tx) && a.name == tx.request.adapter && Early(tx.phase)
    requires tx.phase.Prepared? ==> (Reloaded(tx.request), tx.previousVersion) in g.prepared
    requires log != [] && log[|log| - 1] == Load(Found(tx))
    ensures CallJustified(g, log, Proceed(a, tx))
  {}

  lemma {:induction false} ResumeKeepsInv(g: Facts, log: seq<Event>, a: Adapter, r: Request, tx: Transaction)
    requires Justified(g, tx) && a.name == r.adapter
    requires tx.phase.Prepared? ==> (Reloaded(tx.request), tx.previousVersion) in g.prepared
    requires log != [] && log[|log| - 1] == Load(Found(tx))
    ensures CallJustified(g, log, Resume(a, r, tx))
  {
    if tx.request == r && Early(tx.phase) { ProceedKeepsInv(g, log, a, tx); }
  }

  lemma {:induction false} LoadKeepsInv(g: Facts, log: seq<Event>, s: State, e: Event)
    requires DiskJustified(g, s.disk) && CallJustified(g, log, s.call)
    requires !s.call.Active? || e.Crash? || e.Reboot?
    requires Step(s, e).Some?
    ensures DiskJustified(g, Step(s, e).value.disk) && CallJustified(g, log + [e], Step(s, e).value.call)
  {
    if s.call.Loading? && e.Load? && e.outcome.Found? {
      ResumeKeepsInv(g, log + [e], s.call.adapter, s.call.request, e.outcome.tx);
    }
  }

  lemma {:induction false} StepKeepsInv(log: seq<Event>, s: State, e: Event)
    requires Inv(log, s)
    requires Step(s, e).Some?
    ensures Inv(log + [e], Step(s, e).value)
  {
    PastGrows(log, e);
    var f, g := Past(log), Past(log + [e]);
    JustifiedGrows(f, g, s, log);
    if !s.call.Active? || e.Crash? || e.Reboot? { LoadKeepsInv(g, log, s, e); }
    else if s.call.pc.Saving? {
      if e.err == None && e.tx.phase.Prepared? { PrepareNoted(log, e.tx, e.now); }
      SaveKeepsDisk(g, log, s, e);
      SaveKeepsCall(g, log, s, e);
    }
    else {
      NotedByPast(log, s.boot, s.call.adapter, s.call.tx, s.call.pc, e);
      EffectKeepsCall(g, log, s.boot, s.call.adapter, s.call.tx, s.call.pc, e);
    }
  }

  /** Every state a new device can reach satisfies the invariant. */
  lemma {:induction false} RunInv(boot: string, log: seq<Event>)
    requires Run(NewDevice(boot), log).Some?
    ensures Inv(log, Run(NewDevice(boot), log).value)
    decreases |log|
  {
    if log != [] {
      var before := log[..|log| - 1];
      RunInv(boot, before);
      StepKeepsInv(before, Run(NewDevice(boot), before).value, log[|log| - 1]);
      assert before + [log[|log| - 1]] == log;
    }
  }

  // ---------- the main results ----------

  lemma {:induction false} RunPrefix(s: State, log: seq<Event>, n: nat)
    requires Run(s, log).Some? && n <= |log|
    ensures Run(s, log[..n]).Some?
    decreases |log|
  {
    if n < |log| {
      RunPrefix(s, log[..|log| - 1], n);
      assert log[..|log| - 1][..n] == log[..n];
    } else {
      assert log[..n] == log;
    }
  }

  lemma {:induction false} Snoc(s: State, log: seq<Event>, e: Event)
    requires Run(s, log).Some?
    ensures Run(s, log + [e]) == Step(Run(s, log).value, e)
  {
    assert (log + [e])[..|log|] == log;
  }

  /** A run can be cut anywhere and continued from the state it had there. */
  lemma {:induction false} RunConcat(s: State, a: seq<Event>, b: seq<Event>)
    requires Run(s, a).Some?
    ensures Run(s, a + b) == Run(Run(s, a).value, b)
    decreases |b|
  {
    if b == [] {
      assert a + b == a;
    } else {
      RunConcat(s, a, b[..|b| - 1]);
      assert (a + b)[..|a + b| - 1] == a + b[..|b| - 1];
    }
  }

  /** The state in which event `i` of a run happens. */
  ghost function StateAt(s: State, log: seq<Event>, i: nat): (t: State)
    requires Run(s, log).Some? && i < |log|
    ensures Run(s, log[..i]) == Some(t) && Step(t, log[i]).Some?
  {
    RunPrefix(s, log, i);
    RunPrefix(s, log, i + 1);
    assert log[..i + 1][..i] == log[..i];
    Run(s, log[..i]).value
  }

  lemma {:induction false} InstallHappensAt(s: State, e: Event)
    requires e.Install? && Step(s, e).Some?
    ensures s.call.Active? && s.call.pc.Installing? && e.request == s.call.tx.request
            && e.artifact == s.call.tx.artifactPath
  {}

  lemma {:induction false} RollbackHappensAt(s: State, e: Event)
    requires e.Rollback? && Step(s, e).Some?
    ensures s.call.Active? && s.call.pc.RollingBack? && e.request == s.call.tx.request
            && e.previous == s.call.tx.previousVersion
  {}

  lemma {:induction false} SaveHappensAt(s: State, e: Event)
    requires e.Save? && Step(s, e).Some?
    ensures s.call.Active? && s.call.pc.Saving? && e.tx == s.call.tx
  {}

  lemma {:induction false} SameWireInstalled(log: seq<Event>, q: Request, r: Request, v: string)
    requires SameWire(q, r) && InstalledOver(log, q, v)
    ensures InstalledOver(log, r, v)
  {
    var j: nat :| InstalledAt(log, j, q, v);
    var i: nat :| CheckedAt(log[..j], i, q, log[j].artifact);
    assert CheckedAt(log[..j], i, r, log[j].artifact);
    var k: nat :| PreparedAt(log[..j], k, q, v);
    var m: nat :| PreflightAt(log[..j][..k], m, q, v);
    assert PreflightAt(log[..j][..k], m, r, v);
    assert PreparedAt(log[..j], k, r, v);
    assert InstalledAt(log, j, r, v);
  }

  lemma {:induction false} SameWireChecked(log: seq<Event>, q: Request, r: Request, p: string)
    requires SameWire(q, r) && Checked(log, q, p)
    ensures Checked(log, r, p)
  {
    var j: nat :| CheckedAt(log, j, q, p);
    assert CheckedAt(log, j, r, p);
  }

  /** An update is installed only after the native check passed for the same request and artifact,
      itself right after the digest and signature checks that the adapter calls for. */
  lemma {:induction false} InstallOnlyAfterChecks(boot: string, log: seq<Event>, i: nat)
    requires Run(NewDevice(boot), log).Some?
    requires i < |log| && log[i].Install?
    ensures Checked(log[..i], log[i].request, log[i].artifact)
  {
    InstallHappensAt(StateAt(NewDevice(boot), log, i), log[i]);
    RunInv(boot, log[..i]);
    SameWireChecked(log[..i], Reloaded(log[i].request), log[i].request, log[i].artifact);
  }

  /** A rollback happens only after a successful installation of the same update, and restores
      exactly the trimmed version that preflight had persisted for it. */
  lemma {:induction false} RollbackOnlyAfterInstall(boot: string, log: seq<Event>, i: nat)
    requires Run(NewDevice(boot), log).Some?
    requires i < |log| && log[i].Rollback?
    ensures InstalledOver(log[..i], log[i].request, log[i].previous)
  {
    RollbackHappensAt(StateAt(NewDevice(boot), log, i), log[i]);
    RunInv(boot, log[..i]);
    SameWireInstalled(log[..i], Reloaded(log[i].request), log[i].request, log[i].previous);
  }

  /** What follows `past` is an effect of an update in which nothing was installed yet, and it failed. */
  predicate FailsEarly(past: seq<Event>, e: Event) {
    match e
    case CurrentVersion(_, r, reported) =>
      && past != [] && HoldsCreated(past[|past| - 1])
      && (reported.Ok? ==> r.compatibleFrom.Some? && r.compatibleFrom.value != []
                           && TrimSpace(reported.value) !in r.compatibleFrom.value)
    case FreeSpace(err) => err.Some?
    case Fetch(_, path) => path.Err?
    case VerifyArtifact(_, _, err) => err.Some?
    case VerifySignature(_, err) => err.Some?
    case Check(_, _, _, err) => err.Some?
    case Install(_, _, _, err) => err.Some?
    case _ => false
  }

  /** The class and cause of such a failure. */
  function EarlyNote(e: Event): Note
    requires e.CurrentVersion? || e.Fetch? || e.FreeSpace? || e.VerifyArtifact? || e.VerifySignature? || e.Check?
             || e.Install?
    requires !e.CurrentVersion? ==> if e.Fetch? then e.path.Err? else e.err.Some?
  {
    match e
    case CurrentVersion(_, _, reported) =>
      if reported.Err? then Because(VersionBefore, Reported(reported.message))
      else Because(Compatibility, NotCompatible)
    case FreeSpace(err) => Because(SpaceBefore, Reported(err.value))
    case Fetch(_, path) => Because(Downloading, Reported(path.message))
    case VerifyArtifact(_, _, err) => Because(Verification, Reported(err.value))
    case VerifySignature(_, err) => Because(Verification, Reported(err.value))
    case Check(_, _, _, err) => Because(NativeVerification, Reported(err.value))
    case Install(_, _, _, err) => Because(Installation, Reported(err.value))
  }

  /** A reply of failure to `r`, for this reason. */
  predicate Fails(reply: Reply, r: Request, note: Note) {
    && reply.state == Failed && reply.error == [note]
    && reply.updateId == r.updateId && reply.adapter == r.adapter && reply.version == r.version
  }

  /** A call that has only one thing left to do: to record its transaction as rolled back, and reply. */
  predicate GivenUp(r: Request, note: Note, c: Call) {
    && c.Active? && c.tx.phase == RolledBack && c.tx.request == r && c.tx.failure == [note]
    && c.pc.Saving? && !c.pc.strict && c.pc.next.Finish? && Fails(c.pc.next.reply, r, note)
  }

  lemma {:induction false} PreflightGivesUp(f: Facts, past: seq<Event>, a: Adapter, tx: Transaction, pc: Pc, e: Event)
    requires PreflightPoint(pc) && PointJustified(f, past, a, tx, pc) && FailsEarly(past, e)
    requires PreflightStep(a, tx, pc, e).Some?
    ensures GivenUp(tx.request, EarlyNote(e), PreflightStep(a, tx, pc, e).value)
  {}

  lemma {:induction false} InstallGivesUp(f: Facts, past: seq<Event>, a: Adapter, tx: Transaction, pc: Pc, e: Event)
    requires InstallPoint(pc) && PointJustified(f, past, a, tx, pc) && FailsEarly(past, e)
    requires InstallStep(a, tx, pc, e).Some?
    ensures GivenUp(tx.request, EarlyNote(e), InstallStep(a, tx, pc, e).value)
  {}

  lemma {:induction false} EarlyPoint(f: Facts, past: seq<Event>, s: State, e: Event)
    requires FailsEarly(past, e) && Step(s, e).Some?
    requires s.call.Active? ==> PointJustified(f, past, s.call.adapter, s.call.tx, s.call.pc)
    ensures s.call.Active? && !s.call.pc.Saving? && (PreflightPoint(s.call.pc) || InstallPoint(s.call.pc))
  {}

  lemma {:induction false} EarlyFailureGivesUp(f: Facts, past: seq<Event>, s: State, e: Event)
    requires FailsEarly(past, e) && Step(s, e).Some?
    requires s.call.Active? ==> PointJustified(f, past, s.call.adapter, s.call.tx, s.call.pc)
    ensures s.call.Active? && GivenUp(s.call.tx.request, EarlyNote(e), Step(s, e).value.call)
  {
    EarlyPoint(f, past, s, e);
    var a, tx, pc := s.call.adapter, s.call.tx, s.call.pc;
    if PreflightPoint(pc) { PreflightGivesUp(f, past, a, tx, pc, e); } else { InstallGivesUp(f, past, a, tx, pc, e); }
  }

  predicate GoesDown(e: Event) {
    e.Crash? || e.Reboot?
  }

  predicate RecordsRollback(e: Event, r: Request, note: Note) {
    e.Save? && e.tx.phase == RolledBack && e.tx.request == r && e.tx.failure == [note]
  }

  lemma {:induction false} GivenUpIsSaved(t: State, r: Request, note: Note, e: Event)
    requires GivenUp(r, note, t.call) && Step(t, e).Some? && !GoesDown(e)
    ensures RecordsRollback(e, r, note)
    ensures Step(t, e).value.call.Finishing? && Fails(Step(t, e).value.call.reply, r, note)
  {}

  lemma {:induction false} EarlyFailureAfter(boot: string, past: seq<Event>, s: State, e: Event)
    requires Run(NewDevice(boot), past) == Some(s) && FailsEarly(past, e) && Step(s, e).Some?
    ensures s.call.Active? && GivenUp(s.call.tx.request, EarlyNote(e), Step(s, e).value.call)
  {
    RunInv(boot, past);
    assert CallJustified(Past(past), past, s.call);
    EarlyFailureGivesUp(Past(past), past, s, e);
  }

  lemma {:induction false} FinishingReplies(s: State, r: Request, note: Note, e: Event)
    requires s.call.Finishing? && Fails(s.call.reply, r, note) && Step(s, e).Some?
    ensures GoesDown(e) || (e.Return? && Fails(e.reply, r, note))
  {}

  lemma {:induction false} NextState(s: State, log: seq<Event>, i: nat)
    requires Run(s, log).Some? && i + 1 < |log|
    ensures Step(StateAt(s, log, i), log[i]) == Some(StateAt(s, log, i + 1))
  {
    assert log[..i + 1][..i] == log[..i];
  }

  /** In every run, a failure before anything is installed is the end of the update: as long as the device stays
      up, what comes next is that it is recorded as rolled back, with its class and cause, and then the reply that
      says so. No rollback is called for. */
  lemma {:induction false} EarlyFailureEndsRolledBack(boot: string, log: seq<Event>, i: nat)
    requires Run(NewDevice(boot), log).Some? && i < |log| && FailsEarly(log[..i], log[i])
    ensures StateAt(NewDevice(boot), log, i).call.Active?
    ensures var r, note := StateAt(NewDevice(boot), log, i).call.tx.request, EarlyNote(log[i]);
            && (i + 1 < |log| ==> GoesDown(log[i + 1]) || RecordsRollback(log[i + 1], r, note))
            && (i + 2 < |log| && !GoesDown(log[i + 1]) ==>
                  GoesDown(log[i + 2]) || (log[i + 2].Return? && Fails(log[i + 2].reply, r, note)))
  {
    var first, note := NewDevice(boot), EarlyNote(log[i]);
    var s := StateAt(first, log, i);
    EarlyFailureAfter(boot, log[..i], s, log[i]);
    if i + 1 < |log| && !GoesDown(log[i + 1]) {
      NextState(first, log, i);
      GivenUpIsSaved(StateAt(first, log, i + 1), s.call.tx.request, note, log[i + 1]);
      if i + 2 < |log| {
        NextState(first, log, i + 1);
        FinishingReplies(StateAt(first, log, i + 2), s.call.tx.request, note, log[i + 2]);
      }
    }
  }

  lemma {:induction false} CompletedIsConfirmed(f: Facts, log: seq<Event>, a: Adapter, tx: Transaction, pc: Pc)
    requires Justified(f, tx) && PointJustified(f, log, a, tx, pc) && pc.Saving? && tx.phase.Completed?
    ensures log != [] && ConfirmedAt(log, |log| - 1, tx.request)
  {}

  lemma {:induction false} SavingCompleted(log: seq<Event>, s: State, e: Event)
    requires Inv(log, s) && Step(s, e).Some? && e.Save? && e.tx.phase.Completed?
    ensures log != [] && ConfirmedAt(log, |log| - 1, e.tx.request)
  {
    SaveHappensAt(s, e);
    CompletedIsConfirmed(Past(log), log, s.call.adapter, s.call.tx, s.call.pc);
  }

  lemma {:induction false} CompletedAfter(boot: string, past: seq<Event>, e: Event)
    requires Run(NewDevice(boot), past + [e]).Some? && e.Save? && e.tx.phase.Completed?
    ensures past != [] && ConfirmedAt(past, |past| - 1, e.tx.request)
  {
    assert (past + [e])[..|past|] == past;
    RunInv(boot, past);
    SavingCompleted(past, Run(NewDevice(boot), past).value, e);
  }

  lemma {:induction false} ConfirmedInPrefix(log: seq<Event>, i: nat, r: Request)
    requires i <= |log| && log[..i] != [] && ConfirmedAt(log[..i], |log[..i]| - 1, r)
    ensures i > 0 && ConfirmedAt(log, i - 1, r)
  {}

  /** A completed transaction is written only straight after a passing health check, an accepted
      version and a successful commit, with no other effect, crash or reboot between them. */
  lemma {:induction false} CompletedOnlyAfterHealthyCommit(boot: string, log: seq<Event>, i: nat)
    requires Run(NewDevice(boot), log).Some?
    requires i < |log| && log[i].Save? && log[i].tx.phase.Completed?
    ensures i > 0 && ConfirmedAt(log, i - 1, log[i].tx.request)
  {
    RunPrefix(NewDevice(boot), log, i + 1);
    assert log[..i + 1] == log[..i] + [log[i]];
    CompletedAfter(boot, log[..i], log[i]);
    ConfirmedInPrefix(log, i, log[i].tx.request);
  }

  /** What the files of a device that ran anything at all say about what happened to it. */
  lemma {:induction false} FilesTellThePast(boot: string, log: seq<Event>, k: string)
    requires Run(NewDevice(boot), log).Some?
    requires k in Run(NewDevice(boot), log).value.disk
    ensures var tx := Run(NewDevice(boot), log).value.disk[k];
            && k == Key(tx.request)
            && (tx.phase.Verified? ==> Checked(log, tx.request, tx.artifactPath))
            && (AfterInstall(tx.phase) ==> InstalledOver(log, tx.request, tx.previousVersion))
            && (tx.phase.Completed? ==> CommittedHealthy(log, tx.request))
  {
    RunInv(boot, log);
  }
}
