/** What each step of an update is worth, over every run: which versions it starts from, that it was fetched,
    activated and recorded before what follows, and what the reported version decides. */
module OtaSteps {
  import opened Text
  import opened OtaTypes
  import opened OtaMachine
  import opened OtaSafety

  // ---------- an invariant of the steps ----------

  /** The release may be installed over `version`: it names no releases, or this one. */
  predicate StartsFrom(r: Request, version: string) {
    r.compatibleFrom.Some? && r.compatibleFrom.value != [] ==> version in r.compatibleFrom.value
  }

  predicate PastPreflight(p: Phase) {
    p.Prepared? || p.Downloaded? || p.Verified? || AfterInstall(p)
  }

  ghost predicate ActivatedIn(log: seq<Event>, r: Request) {
    exists j: nat :: j < |log| && log[j].Activate? && log[j].err == None && SameWire(log[j].request, r)
  }

  ghost predicate FetchedIn(log: seq<Event>, r: Request, path: string) {
    exists j: nat :: j < |log| && log[j].Fetch? && log[j].path == Ok(path) && SameWire(log[j].request, r)
  }

  ghost predicate StepsTrue(log: seq<Event>, tx: Transaction) {
    && (PastPreflight(tx.phase) ==> StartsFrom(tx.request, tx.previousVersion))
    && (tx.phase.Activated? || tx.phase.RebootRequested? || tx.phase.Completed? ==> ActivatedIn(log, tx.request))
    && (tx.artifactPath != "" ==> FetchedIn(log, tx.request, tx.artifactPath))
  }

  /** The device had room for the artifact, or there is none to fetch. */
  predicate HasRoom(a: Adapter, r: Request, e: Event) {
    e == FreeSpace(None)
    || (e.CurrentVersion? && (a == Adapter(Flatpak, false) || (r.adapter == OSTree && r.ostreeRemote != "")))
  }

  predicate RecordsRequest(tx: Transaction, after: After, e: Event) {
    && e.Save? && e.tx == tx && (after.FirstReboot? || after.RetryReboot? ==> e.err == None)
    && (after.FirstReboot? ==> tx.phase.RebootRequested?)
    && (after.RollbackReboot? ==> tx.phase.RollbackRebootRequested?)
  }

  ghost predicate CallTrue(log: seq<Event>, c: Call) {
    c.Active? ==>
      var a, tx, pc := c.adapter, c.tx, c.pc;
      && StepsTrue(log, tx)
      && (pc.CheckingSpace? ==> StartsFrom(tx.request, tx.previousVersion))
      && (pc.Requesting? ==> log != [] && RecordsRequest(tx, pc.after, log[|log| - 1]))
      && (pc.Saving? && tx.phase.Prepared? ==> log != [] && HasRoom(a, tx.request, log[|log| - 1]))
  }

  ghost predicate AllTrue(log: seq<Event>, s: State) {
    (forall k :: k in s.disk ==> StepsTrue(log, s.disk[k])) && CallTrue(log, s.call)
  }

  lemma {:induction false} StepsTrueGrows(log: seq<Event>, e: Event, tx: Transaction)
    requires StepsTrue(log, tx)
    ensures StepsTrue(log + [e], tx)
  {
    var more, r := log + [e], tx.request;
    if ActivatedIn(log, r) {
      var j: nat :| j < |log| && log[j].Activate? && log[j].err == None && SameWire(log[j].request, r);
      assert more[j].Activate?;
    }
    if FetchedIn(log, r, tx.artifactPath) {
      var j: nat :| j < |log| && log[j].Fetch? && log[j].path == Ok(tx.artifactPath) && SameWire(log[j].request, r);
      assert more[j].Fetch?;
    }
  }

  lemma {:induction false} FetchNoted(log: seq<Event>, r: Request, path: string)
    requires Last(log, 0, Fetch(r, Ok(path)))
    ensures FetchedIn(log, r, path)
  {
    assert log[|log| - 1].Fetch?;
  }

  lemma {:induction false} ActivationNoted(log: seq<Event>, a: Adapter, r: Request)
    requires Last(log, 0, Activate(a, r, None))
    ensures ActivatedIn(log, r)
  {
    assert log[|log| - 1].Activate?;
  }

  lemma {:induction false} PreflightTrue(log: seq<Event>, a: Adapter, tx: Transaction, pc: Pc, e: Event)
    requires (pc.Preflight? || pc.CheckingSpace?) && tx.phase.Created? && StepsTrue(log, tx) && Last(log, 0, e)
    requires pc.CheckingSpace? ==> StartsFrom(tx.request, tx.previousVersion)
    requires a.name == tx.request.adapter && PreflightStep(a, tx, pc, e).Some?
    ensures CallTrue(log, PreflightStep(a, tx, pc, e).value)
  {}

  lemma {:induction false} FetchTrue(log: seq<Event>, a: Adapter, tx: Transaction, e: Event)
    requires StepsTrue(log, tx) && Last(log, 0, e) && tx.phase.Prepared? && PreflightStep(a, tx, Fetching, e).Some?
    ensures CallTrue(log, PreflightStep(a, tx, Fetching, e).value)
  {
    if e.path.Ok? { FetchNoted(log, tx.request, e.path.value); }
  }

  lemma {:induction false} VerifyTrue(log: seq<Event>, a: Adapter, tx: Transaction, pc: Pc, e: Event)
    requires (pc.VerifyingArtifact? || pc.VerifyingSignature? || pc.Checking? || pc.Installing?) && StepsTrue(log, tx)
    requires tx.phase.Downloaded? || tx.phase.Verified?
    requires InstallStep(a, tx, pc, e).Some?
    ensures CallTrue(log, InstallStep(a, tx, pc, e).value)
  {}

  lemma {:induction false} ActivationTrue(log: seq<Event>, a: Adapter, tx: Transaction, e: Event)
    requires StepsTrue(log, tx) && Last(log, 0, e) && tx.phase.Installed? && InstallStep(a, tx, Activating, e).Some?
    ensures CallTrue(log, InstallStep(a, tx, Activating, e).value)
  {
    if e.err == None { ActivationNoted(log, a, tx.request); }
  }

  predicate RebootPhase(tx: Transaction, pc: Pc) {
    && (pc.AskingReboot? || pc.BootForReboot? ==> tx.phase.Activated?)
    && (pc.Resuming? || pc.Timing? ==> tx.phase.RebootRequested? || tx.phase.RollbackRebootRequested?)
    && (pc.Requesting? && pc.after.FirstReboot? ==> tx.phase.RebootRequested?)
    && (pc.Requesting? && pc.after.RollbackReboot? ==> tx.phase.RollbackRebootRequested?)
  }

  lemma {:induction false} RebootTrue(log: seq<Event>, boot: string, a: Adapter, tx: Transaction, pc: Pc, e: Event)
    requires RebootPoint(pc) && StepsTrue(log, tx) && RebootPhase(tx, pc)
    requires RebootStep(boot, a, tx, pc, e).Some?
    ensures CallTrue(log, RebootStep(boot, a, tx, pc, e).value)
  {}

  lemma {:induction false} ConfirmingTrue(log: seq<Event>, a: Adapter, tx: Transaction, pc: Pc, e: Event)
    requires ConfirmingPoint(pc) && StepsTrue(log, tx) && (tx.phase.Activated? || tx.phase.RebootRequested?)
    requires ConfirmingStep(a, tx, pc, e).Some?
    ensures CallTrue(log, ConfirmingStep(a, tx, pc, e).value)
  {}

  lemma {:induction false} RollbackTrue(log: seq<Event>, boot: string, a: Adapter, tx: Transaction, pc: Pc, e: Event)
    requires RollbackPoint(pc) && StepsTrue(log, tx) && AfterInstall(tx.phase) && RollbackStep(boot, a, tx, pc, e).Some?
    ensures CallTrue(log, RollbackStep(boot, a, tx, pc, e).value)
  {}

  /** The phases that the effects of a call work from. */
  lemma {:induction false} PointPhases(f: Facts, log: seq<Event>, a: Adapter, tx: Transaction, pc: Pc)
    requires Justified(f, tx) && PointJustified(f, log, a, tx, pc)
    ensures pc.Fetching? ==> tx.phase.Prepared?
    ensures pc.VerifyingArtifact? || pc.VerifyingSignature? || pc.Checking? ==> tx.phase.Downloaded?
    ensures (pc.Installing? ==> tx.phase.Verified?) && (pc.Activating? ==> tx.phase.Installed?)
    ensures ConfirmingPoint(pc) ==> tx.phase.Activated? || tx.phase.RebootRequested?
    ensures RollbackPoint(pc) ==> AfterInstall(tx.phase)
    ensures RebootPhase(tx, pc)
    ensures pc.Preflight? || pc.CheckingSpace? ==> tx.phase.Created?
  {}

  lemma {:induction false} EffectTrue(f: Facts, log: seq<Event>, boot: string, a: Adapter, tx: Transaction, pc: Pc,
                                      e: Event)
    requires Justified(f, tx) && PointJustified(f, log, a, tx, pc) && a.name == tx.request.adapter
    requires CallTrue(log, Active(a, tx, pc)) && CallStep(boot, a, tx, pc, e).Some?
    ensures CallTrue(log + [e], CallStep(boot, a, tx, pc, e).value)
  {
    StepsTrueGrows(log, e, tx);
    PointPhases(f, log, a, tx, pc);
    var more := log + [e];
    if pc.Fetching? { FetchTrue(more, a, tx, e); }
    else if PreflightPoint(pc) { PreflightTrue(more, a, tx, pc, e); }
    else if pc.Activating? { ActivationTrue(more, a, tx, e); }
    else if InstallPoint(pc) { VerifyTrue(more, a, tx, pc, e); }
    else if RebootPoint(pc) { RebootTrue(more, boot, a, tx, pc, e); }
    else if ConfirmingPoint(pc) { ConfirmingTrue(more, a, tx, pc, e); }
    else { RollbackTrue(more, boot, a, tx, pc, e); }
  }

  lemma {:induction false} SaveTrue(log: seq<Event>, s: State, e: Event)
    requires s.call.Active? && s.call.pc.Saving? && e.Save? && SaveStep(s, e.tx, e.now, e.err).Some?
    requires StepsTrue(log, s.call.tx) && Last(log, 0, e)
    requires s.call.pc.next.Continue? || s.call.pc.next.FirstReboot? || s.call.pc.next.RetryReboot? ==> s.call.pc.strict
    requires s.call.pc.next.FirstReboot? ==> s.call.tx.phase.RebootRequested?
    requires s.call.pc.next.RollbackReboot? ==> s.call.tx.phase.RollbackRebootRequested?
    ensures CallTrue(log, SaveStep(s, e.tx, e.now, e.err).value.call)
  {}

  lemma {:induction false} SavedTrue(log: seq<Event>, s: State, e: Event)
    requires s.call.Active? && s.call.pc.Saving? && e.Save? && SaveStep(s, e.tx, e.now, e.err).Some?
    requires StepsTrue(log, s.call.tx) && forall k :: k in s.disk ==> StepsTrue(log, s.disk[k])
    ensures var disk := SaveStep(s, e.tx, e.now, e.err).value.disk; forall k :: k in disk ==> StepsTrue(log, disk[k])
  {
    StoredTrue(log, s.call.tx, e.now);
  }

  lemma {:induction false} StoredTrue(log: seq<Event>, tx: Transaction, now: int)
    requires StepsTrue(log, tx)
    ensures StepsTrue(log, Stored(tx, now))
  {
    var r, q := tx.request, Reloaded(tx.request);
    assert ActivatedIn(log, r) ==> ActivatedIn(log, q);
    assert FetchedIn(log, r, tx.artifactPath) ==> FetchedIn(log, q, tx.artifactPath);
  }

  /** Saves that a reboot follows are ones that must succeed. */
  predicate Strict(c: Call) {
    c.Active? && c.pc.Saving? && (c.pc.next.FirstReboot? || c.pc.next.RetryReboot?) ==> c.pc.strict
  }

  lemma {:induction false} InstallingIsStrict(a: Adapter, tx: Transaction, pc: Pc, e: Event)
    requires PreflightPoint(pc) || InstallPoint(pc)
    ensures PreflightPoint(pc) && PreflightStep(a, tx, pc, e).Some? ==> Strict(PreflightStep(a, tx, pc, e).value)
    ensures InstallPoint(pc) && InstallStep(a, tx, pc, e).Some? ==> Strict(InstallStep(a, tx, pc, e).value)
  {}

  lemma {:induction false} RebootIsStrict(boot: string, a: Adapter, tx: Transaction, pc: Pc, e: Event)
    requires RebootPoint(pc) && RebootStep(boot, a, tx, pc, e).Some?
    ensures Strict(RebootStep(boot, a, tx, pc, e).value)
  {}

  lemma {:induction false} EndingIsStrict(boot: string, a: Adapter, tx: Transaction, pc: Pc, e: Event)
    requires ConfirmingPoint(pc) || RollbackPoint(pc)
    ensures ConfirmingPoint(pc) && ConfirmingStep(a, tx, pc, e).Some? ==> Strict(ConfirmingStep(a, tx, pc, e).value)
    ensures RollbackPoint(pc) && RollbackStep(boot, a, tx, pc, e).Some? ==>
            Strict(RollbackStep(boot, a, tx, pc, e).value)
  {}

  lemma {:induction false} StrictStep(s: State, e: Event)
    requires Step(s, e).Some?
    ensures Strict(Step(s, e).value.call)
  {
    if s.call.Active? && !e.Crash? && !e.Reboot? && !s.call.pc.Saving? {
      var a, tx, pc := s.call.adapter, s.call.tx, s.call.pc;
      if PreflightPoint(pc) || InstallPoint(pc) { InstallingIsStrict(a, tx, pc, e); }
      else if RebootPoint(pc) { RebootIsStrict(s.boot, a, tx, pc, e); }
      else { EndingIsStrict(s.boot, a, tx, pc, e); }
    }
  }

  lemma {:induction false} ResumeTrue(log: seq<Event>, a: Adapter, r: Request, tx: Transaction)
    requires StepsTrue(log, tx) && !(tx.phase.RollbackRebootRequested? && !AfterInstall(tx.phase))
    ensures CallTrue(log, Resume(a, r, tx))
  {}

  lemma {:induction false} FreshTrue(log: seq<Event>, a: Adapter, r: Request)
    ensures CallTrue(log, Active(a, FreshTransaction(r), Saving(true, Continue)))
  {}

  lemma {:induction false} LoadTrue(log: seq<Event>, disk: map<string, Transaction>, r: Request, a: Adapter,
                                    outcome: LoadOutcome)
    requires (forall k :: k in disk ==> StepsTrue(log, disk[k])) && AfterLoad(disk, r, a, outcome).Some?
    ensures CallTrue(log, AfterLoad(disk, r, a, outcome).value)
  {
    match outcome {
      case Missing => FreshTrue(log, a, r);
      case Found(tx) => ResumeTrue(log, a, r, tx);
      case _ =>
    }
  }

  lemma {:induction false} SavePhases(f: Facts, log: seq<Event>, a: Adapter, tx: Transaction, pc: Pc)
    requires PointJustified(f, log, a, tx, pc) && pc.Saving?
    ensures pc.next.Continue? ==> pc.strict
    ensures pc.next.FirstReboot? ==> tx.phase.RebootRequested?
    ensures pc.next.RollbackReboot? ==> tx.phase.RollbackRebootRequested?
  {}

  lemma {:induction false} StepTrue(f: Facts, log: seq<Event>, s: State, e: Event)
    requires AllTrue(log, s) && CallJustified(f, log, s.call) && Strict(s.call) && Step(s, e).Some?
    ensures AllTrue(log + [e], Step(s, e).value)
  {
    var more := log + [e];
    forall k | k in s.disk ensures StepsTrue(more, s.disk[k]) { StepsTrueGrows(log, e, s.disk[k]); }
    if e.Crash? || e.Reboot? {
    } else if s.call.Active? {
      var a, tx, pc := s.call.adapter, s.call.tx, s.call.pc;
      if pc.Saving? {
        StepsTrueGrows(log, e, tx);
        SavePhases(f, log, a, tx, pc);
        SaveTrue(more, s, e);
        SavedTrue(more, s, e);
      } else {
        EffectTrue(f, log, s.boot, a, tx, pc, e);
      }
    } else if s.call.Loading? {
      LoadTrue(more, s.disk, s.call.request, s.call.adapter, e.outcome);
    }
  }

  lemma {:induction false} RunTrue(boot: string, log: seq<Event>)
    requires Run(NewDevice(boot), log).Some?
    ensures AllTrue(log, Run(NewDevice(boot), log).value) && Strict(Run(NewDevice(boot), log).value.call)
    decreases |log|
  {
    if log != [] {
      var before, last := log[..|log| - 1], log[|log| - 1];
      var s := Run(NewDevice(boot), before).value;
      RunTrue(boot, before);
      RunInv(boot, before);
      StepTrue(Past(before), before, s, last);
      StrictStep(s, last);
      assert before + [last] == log;
    }
  }

  // ---------- over runs ----------

  lemma {:induction false} StateIsTrue(boot: string, log: seq<Event>, i: nat)
    requires Run(NewDevice(boot), log).Some? && i < |log|
    ensures AllTrue(log[..i], StateAt(NewDevice(boot), log, i))
    ensures CallJustified(Past(log[..i]), log[..i], StateAt(NewDevice(boot), log, i).call)
  {
    var s := StateAt(NewDevice(boot), log, i);
    RunTrue(boot, log[..i]);
    RunInv(boot, log[..i]);
  }

  lemma {:induction false} InstallsFrom(f: Facts, past: seq<Event>, s: State, e: Event)
    requires AllTrue(past, s) && CallJustified(f, past, s.call) && e.Install? && Step(s, e).Some?
    ensures s.call.Active? && e.request == s.call.tx.request && e.artifact == s.call.tx.artifactPath
    ensures (Reloaded(e.request), s.call.tx.previousVersion) in f.prepared && s.call.tx.phase.Verified?
    ensures StartsFrom(e.request, s.call.tx.previousVersion)
    ensures e.artifact != "" ==> FetchedIn(past, e.request, e.artifact)
  {
    InstallHappensAt(s, e);
  }

  lemma {:induction false} SameWirePrepared(log: seq<Event>, q: Request, r: Request, v: string)
    requires SameWire(q, r) && PreparedOver(log, q, v)
    ensures PreparedOver(log, r, v)
  {
    var k: nat :| PreparedAt(log, k, q, v);
    var m: nat :| PreflightAt(log[..k], m, q, v);
    assert PreflightAt(log[..k], m, r, v);
    assert PreparedAt(log, k, r, v);
  }

  /** An update is installed only over a version that was reported and recorded for it in preflight, and that the
      release names when it names any; and what is installed was fetched for this update. */
  lemma {:induction false} InstallOnlyOverNamedVersions(boot: string, log: seq<Event>, i: nat)
    requires Run(NewDevice(boot), log).Some? && i < |log| && log[i].Install?
    ensures exists v ::
              && PreparedOver(log[..i], log[i].request, v)
              && (log[i].request.compatibleFrom.Some? && log[i].request.compatibleFrom.value != [] ==>
                    v in log[i].request.compatibleFrom.value)
    ensures log[i].artifact != "" ==> FetchedIn(log[..i], log[i].request, log[i].artifact)
  {
    var s := StateAt(NewDevice(boot), log, i);
    StateIsTrue(boot, log, i);
    InstallsFrom(Past(log[..i]), log[..i], s, log[i]);
    SameWirePrepared(log[..i], Reloaded(log[i].request), log[i].request, s.call.tx.previousVersion);
  }

  lemma {:induction false} CommitsActivated(f: Facts, past: seq<Event>, s: State, e: Event)
    requires AllTrue(past, s) && CallJustified(f, past, s.call) && e.Commit? && Step(s, e).Some?
    ensures ActivatedIn(past, e.request)
  {}

  /** An update is committed only after it was activated. */
  lemma {:induction false} CommitOnlyAfterActivation(boot: string, log: seq<Event>, i: nat)
    requires Run(NewDevice(boot), log).Some? && i < |log| && log[i].Commit?
    ensures ActivatedIn(log[..i], log[i].request)
  {
    StateIsTrue(boot, log, i);
    CommitsActivated(Past(log[..i]), log[..i], StateAt(NewDevice(boot), log, i), log[i]);
  }

  lemma {:induction false} RequestsRecorded(past: seq<Event>, s: State, e: Event)
    requires AllTrue(past, s) && e.RequestReboot? && Step(s, e).Some?
    ensures past != [] && s.call.Active? && s.call.pc.Requesting?
            && RecordsRequest(s.call.tx, s.call.pc.after, past[|past| - 1])
  {}

  lemma {:induction false} RequestPhases(f: Facts, past: seq<Event>, s: State)
    requires s.call.Active? && s.call.pc.Requesting? && CallJustified(f, past, s.call)
    requires past != [] && RecordsRequest(s.call.tx, s.call.pc.after, past[|past| - 1])
    ensures s.call.pc.after.FirstReboot? || s.call.pc.after.RetryReboot? || s.call.pc.after.RollbackReboot?
  {}

  /** A reboot is asked for only right after saving that it is: the first one and each retry only when that was
      written, the one of a rollback in any case. */
  lemma {:induction false} RebootOnlyAfterItIsRecorded(boot: string, log: seq<Event>, i: nat)
    requires Run(NewDevice(boot), log).Some? && i < |log| && log[i].RequestReboot?
    ensures i > 0 && log[i - 1].Save?
    ensures log[i - 1].err == None || log[i - 1].tx.phase == RollbackRebootRequested
  {
    var s := StateAt(NewDevice(boot), log, i);
    StateIsTrue(boot, log, i);
    RequestsRecorded(log[..i], s, log[i]);
    RequestPhases(Past(log[..i]), log[..i], s);
  }

  lemma {:induction false} PreparesWithRoom(past: seq<Event>, s: State, e: Event)
    requires AllTrue(past, s) && e.Save? && e.tx.phase.Prepared? && Step(s, e).Some?
    ensures past != [] && s.call.Active? && HasRoom(s.call.adapter, e.tx.request, past[|past| - 1])
  {}

  /** Preflight is passed only when there is room for the artifact, or nothing to fetch: the built-in flatpak
      adapter, or an OSTree release from a remote. */
  lemma {:induction false} PreparedOnlyWithRoom(boot: string, log: seq<Event>, i: nat)
    requires Run(NewDevice(boot), log).Some? && i < |log| && log[i].Save? && log[i].tx.phase.Prepared?
    ensures i > 0
    ensures || log[i - 1] == FreeSpace(None)
            || (log[i - 1].CurrentVersion? && log[i].tx.request.adapter == OSTree
               && log[i].tx.request.ostreeRemote != "")
            || (log[i - 1].CurrentVersion? && StateAt(NewDevice(boot), log, i).call.Active?
                && StateAt(NewDevice(boot), log, i).call.adapter == Adapter(Flatpak, false))
  {
    StateIsTrue(boot, log, i);
    PreparesWithRoom(log[..i], StateAt(NewDevice(boot), log, i), log[i]);
  }

  // ---------- files ----------

  /** Save `i` succeeded, for the update of file `k`, and left this. */
  predicate WroteFile(log: seq<Event>, i: nat, k: string, file: Transaction) {
    && i < |log| && log[i].Save? && log[i].err == None && SafeId(log[i].tx.request.updateId) == k
    && file.updatedAt == log[i].now
    && file.request == log[i].tx.request.(compatibleFrom := file.request.compatibleFrom)
    && (file.request.compatibleFrom ==
          if log[i].tx.request.compatibleFrom == Some([]) then None else log[i].tx.request.compatibleFrom)
    && file == log[i].tx.(request := file.request, updatedAt := file.updatedAt)
  }

  predicate SavesFile(e: Event, k: string) {
    e.Save? && e.err == None && SafeId(e.tx.request.updateId) == k
  }

  ghost predicate FilesAreSaves(log: seq<Event>, disk: map<string, Transaction>) {
    && (forall k :: k in disk ==> exists i: nat ::
          WroteFile(log, i, k, disk[k]) && forall j :: i < j < |log| ==> !SavesFile(log[j], k))
    && (forall k :: k !in disk ==> forall j :: 0 <= j < |log| ==> !SavesFile(log[j], k))
  }

  lemma {:induction false} NoSaveNoChange(s: State, e: Event)
    requires Step(s, e).Some? && !(e.Save? && e.err == None)
    ensures Step(s, e).value.disk == s.disk
  {}

  lemma {:induction false} SaveChangesOne(s: State, e: Event)
    requires Step(s, e).Some? && e.Save? && e.err == None
    ensures var k := Key(e.tx.request); Step(s, e).value.disk == s.disk[k := Stored(e.tx, e.now)]
  {}

  lemma {:induction false} FileStays(log: seq<Event>, e: Event, k: string, file: Transaction, i: nat)
    requires WroteFile(log, i, k, file) && (forall j :: i < j < |log| ==> !SavesFile(log[j], k)) && !SavesFile(e, k)
    ensures WroteFile(log + [e], i, k, file) && forall j :: i < j < |log + [e]| ==> !SavesFile((log + [e])[j], k)
  {}

  lemma {:induction false} FilesStep(log: seq<Event>, s: State, e: Event)
    requires FilesAreSaves(log, s.disk) && Step(s, e).Some?
    ensures FilesAreSaves(log + [e], Step(s, e).value.disk)
  {
    var more, disk := log + [e], Step(s, e).value.disk;
    if e.Save? && e.err == None { SaveChangesOne(s, e); } else { NoSaveNoChange(s, e); }
    forall k | k in disk ensures exists i: nat ::
        WroteFile(more, i, k, disk[k]) && forall j :: i < j < |more| ==> !SavesFile(more[j], k)
    {
      if SavesFile(e, k) {
        assert WroteFile(more, |log|, k, disk[k]);
      } else {
        var i: nat :| WroteFile(log, i, k, s.disk[k]) && forall j :: i < j < |log| ==> !SavesFile(log[j], k);
        FileStays(log, e, k, s.disk[k], i);
      }
    }
  }

  /** A transaction file is what the last save that succeeded for it wrote, with the time of that save; an empty
      list of releases reads back as none. */
  lemma {:induction false} FileIsTheLastSave(boot: string, log: seq<Event>)
    requires Run(NewDevice(boot), log).Some?
    ensures FilesAreSaves(log, Run(NewDevice(boot), log).value.disk)
    decreases |log|
  {
    if log != [] {
      var before, last := log[..|log| - 1], log[|log| - 1];
      FileIsTheLastSave(boot, before);
      LastFiles(boot, before, last, log);
    }
  }

  lemma {:induction false} LastFiles(boot: string, before: seq<Event>, last: Event, log: seq<Event>)
    requires Run(NewDevice(boot), before).Some? && Step(Run(NewDevice(boot), before).value, last).Some?
    requires FilesAreSaves(before, Run(NewDevice(boot), before).value.disk) && log == before + [last]
    ensures FilesAreSaves(log, Step(Run(NewDevice(boot), before).value, last).value.disk)
  {
    FilesStep(before, Run(NewDevice(boot), before).value, last);
  }
}
