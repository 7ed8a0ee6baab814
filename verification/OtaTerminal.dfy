/** Finished updates stay finished, and when a commit can happen twice. */
module OtaTerminal {
  import opened Text
  import opened OtaTypes
  import opened OtaMachine
  import opened OtaSafety
  import opened OtaReboot

  /** The transaction file of the update that the event does something for. */
  function WorkedOn(e: Event): Option<string> {
    match e
    case Save(tx, _, _) => Some(Key(tx.request))
    case CurrentVersion(_, r, _) => Some(Key(r))
    case Fetch(r, _) => Some(Key(r))
    case VerifyArtifact(_, r, _) => Some(Key(r))
    case VerifySignature(r, _) => Some(Key(r))
    case Check(_, r, _, _) => Some(Key(r))
    case Install(_, r, _, _) => Some(Key(r))
    case Activate(_, r, _) => Some(Key(r))
    case Commit(_, r, _) => Some(Key(r))
    case Rollback(_, r, _, _) => Some(Key(r))
    case _ => None
  }

  predicate Works(e: Event, k: string) {
    WorkedOn(e) == Some(k)
  }

  /** The reply names the update, the adapter and the version of the request. */
  predicate Answers(reply: Reply, r: Request) {
    reply.updateId == r.updateId && reply.adapter == r.adapter && reply.version == r.version
  }

  /** Everything a delivery does, and its reply, is about the request that was delivered. */
  predicate About(c: Call, r: Request) {
    match c
    case Idle => true
    case Loading(q, _) => q == r
    case Finishing(reply) => Answers(reply, r)
    case Active(_, tx, pc) =>
      tx.request == r && (pc.Saving? && pc.next.Finish? ==> Answers(pc.next.reply, r))
  }

  /** A save leads to success only for a completed transaction that must be written. */
  predicate SavesSincerely(tx: Transaction, pc: Pc) {
    pc.Saving? ==>
      && (pc.next.Confirmed? ==> pc.strict && tx.phase == Completed)
      && (pc.next.Finish? ==> pc.next.reply.state == Failed)
  }

  /** The effect is one for the update in hand, and says nothing about success before it is recorded. */
  predicate Own(tx: Transaction, pc: Pc, e: Event, c: Call) {
    && About(c, tx.request) && (WorkedOn(e) == None || WorkedOn(e) == Some(Key(tx.request)))
    && (c.Finishing? && c.reply.state == Succeeded ==> pc.Removing?)
    && (c.Active? ==> !c.pc.Removing? && SavesSincerely(c.tx, c.pc))
  }

  lemma {:induction false} PreflightIsOwn(a: Adapter, tx: Transaction, pc: Pc, e: Event)
    requires PreflightPoint(pc) && PreflightStep(a, tx, pc, e).Some?
    ensures Own(tx, pc, e, PreflightStep(a, tx, pc, e).value)
  {}

  lemma {:induction false} InstallIsOwn(a: Adapter, tx: Transaction, pc: Pc, e: Event)
    requires InstallPoint(pc) && InstallStep(a, tx, pc, e).Some?
    ensures Own(tx, pc, e, InstallStep(a, tx, pc, e).value)
  {}

  lemma {:induction false} RebootIsOwn(boot: string, a: Adapter, tx: Transaction, pc: Pc, e: Event)
    requires RebootPoint(pc) && RebootStep(boot, a, tx, pc, e).Some?
    ensures Own(tx, pc, e, RebootStep(boot, a, tx, pc, e).value)
  {}

  lemma {:induction false} ConfirmingIsOwn(a: Adapter, tx: Transaction, pc: Pc, e: Event)
    requires ConfirmingPoint(pc) && ConfirmingStep(a, tx, pc, e).Some?
    ensures Own(tx, pc, e, ConfirmingStep(a, tx, pc, e).value)
  {}

  lemma {:induction false} RollbackIsOwn(boot: string, a: Adapter, tx: Transaction, pc: Pc, e: Event)
    requires RollbackPoint(pc) && RollbackStep(boot, a, tx, pc, e).Some?
    ensures Own(tx, pc, e, RollbackStep(boot, a, tx, pc, e).value)
  {}

  lemma {:induction false} EffectIsOwn(boot: string, a: Adapter, tx: Transaction, pc: Pc, e: Event)
    requires CallStep(boot, a, tx, pc, e).Some?
    ensures Own(tx, pc, e, CallStep(boot, a, tx, pc, e).value)
  {
    if PreflightPoint(pc) { PreflightIsOwn(a, tx, pc, e); }
    else if InstallPoint(pc) { InstallIsOwn(a, tx, pc, e); }
    else if RebootPoint(pc) { RebootIsOwn(boot, a, tx, pc, e); }
    else if ConfirmingPoint(pc) { ConfirmingIsOwn(a, tx, pc, e); }
    else { RollbackIsOwn(boot, a, tx, pc, e); }
  }

  /** No call is working on file `k`. */
  predicate AtRest(s: State, k: string) {
    s.call.Active? && Key(s.call.tx.request) == k ==> s.call.pc.Removing?
  }

  lemma {:induction false} TerminalActive(s: State, e: Event, k: string)
    requires k in s.disk && AtRest(s, k) && s.call.Active? && !e.Crash? && !e.Reboot?
    requires Step(s, e).Some?
    ensures var t := Step(s, e).value; k in t.disk && t.disk[k] == s.disk[k] && AtRest(t, k)
    ensures !Works(e, k)
  {
    if s.call.pc.Saving? {
      SaveAbout(s, e);
    } else {
      EffectIsOwn(s.boot, s.call.adapter, s.call.tx, s.call.pc, e);
      if Key(s.call.tx.request) == k { assert e.RemoveArtifact?; }
    }
  }

  lemma {:induction false} SaveAbout(s: State, e: Event)
    requires s.call.Active? && s.call.pc.Saving? && e.Save? && SaveStep(s, e.tx, e.now, e.err).Some?
    ensures var t := SaveStep(s, e.tx, e.now, e.err).value;
            && e.tx == s.call.tx && (t.call.Active? ==> t.call.tx.request == s.call.tx.request)
            && forall k :: k in s.disk && k != Key(s.call.tx.request) ==> k in t.disk && t.disk[k] == s.disk[k]
  {}

  lemma {:induction false} TerminalStep(s: State, e: Event, k: string)
    requires k in s.disk && Terminal(s.disk[k].phase) && AtRest(s, k)
    requires Step(s, e).Some?
    ensures var t := Step(s, e).value; k in t.disk && t.disk[k] == s.disk[k] && AtRest(t, k)
    ensures !Works(e, k)
  {
    if s.call.Active? && !e.Crash? && !e.Reboot? { TerminalActive(s, e, k); }
  }

  /** Whatever runs, crashes or reboots after an update has ended, its file stays as it is and
      nothing more is done for it. */
  lemma {:induction false} TerminalIsForever(s: State, log: seq<Event>, k: string)
    requires k in s.disk && Terminal(s.disk[k].phase) && AtRest(s, k)
    requires Run(s, log).Some?
    ensures var t := Run(s, log).value; k in t.disk && t.disk[k] == s.disk[k] && AtRest(t, k)
    ensures forall i :: 0 <= i < |log| ==> !Works(log[i], k)
    decreases |log|
  {
    if log != [] {
      var before := log[..|log| - 1];
      TerminalIsForever(s, before, k);
      TerminalStep(Run(s, before).value, log[|log| - 1], k);
      assert forall i :: 0 <= i < |before| ==> log[i] == before[i];
    }
  }

  lemma {:induction false} CommitRecorded(s0: State, log: seq<Event>, i: nat)
    requires Run(s0, log).Some? && i + 1 < |log|
    requires log[i].Commit? && log[i].err == None && log[i + 1].Save? && log[i + 1].err == None
    ensures Run(s0, log[..i + 2]).Some?
    ensures var k, u := Key(log[i].request), Run(s0, log[..i + 2]).value;
            k in u.disk && u.disk[k].phase == Completed && AtRest(u, k)
  {
    RunPrefix(s0, log, i + 2);
    var s, t := StateAt(s0, log, i), StateAt(s0, log, i + 1);
    assert log[..i + 1][..i] == log[..i] && log[..i + 2][..i + 1] == log[..i + 1];
    CommitThenSave(s, t, log[i], log[i + 1]);
  }

  /** Once a successful commit is recorded, nothing more is done for that update: in particular it is
      never committed again and never rolled back. */
  lemma {:induction false} NothingAfterRecordedCommit(boot: string, log: seq<Event>, i: nat, j: nat)
    requires Run(NewDevice(boot), log).Some?
    requires i + 1 < j < |log|
    requires log[i].Commit? && log[i].err == None
    requires log[i + 1].Save? && log[i + 1].err == None
    ensures !Works(log[j], Key(log[i].request))
  {
    var head, rest := log[..i + 2], log[i + 2..];
    CommitRecorded(NewDevice(boot), log, i);
    assert log == head + rest;
    RunConcat(NewDevice(boot), head, rest);
    TerminalIsForever(Run(NewDevice(boot), head).value, rest, Key(log[i].request));
    assert log[j] == rest[j - i - 2];
  }

  lemma {:induction false} CommitThenSave(s: State, t: State, c: Event, e: Event)
    requires c.Commit? && c.err == None && Step(s, c) == Some(t)
    requires e.Save? && e.err == None && Step(t, e).Some?
    ensures var k, u := Key(c.request), Step(t, e).value;
            k in u.disk && u.disk[k].phase == Completed && AtRest(u, k)
  {}

  // ---------- deliveries ----------

  /** Events that only happen inside a delivery. */
  predicate Inner(e: Event) {
    !e.Begin? && !e.Crash? && !e.Reboot?
  }

  /** The events of one delivery of `r`, answered with `reply`. */
  ghost predicate IsDelivery(log: seq<Event>, r: Request, reply: Reply) {
    && |log| > 1 && log[0].Begin? && log[0].request == r && log[|log| - 1] == Return(reply)
    && forall i :: 0 < i < |log| ==> Inner(log[i])
  }

  /** The file of `r` says that exactly this request completed. */
  predicate CompletedFor(disk: map<string, Transaction>, r: Request) {
    Key(r) in disk && disk[Key(r)].phase == Completed && SameWire(disk[Key(r)].request, r)
  }

  /** A reply of success to `r` is only given when its file says so. */
  predicate Truthful(disk: map<string, Transaction>, c: Call, r: Request) {
    match c
    case Finishing(reply) => reply.state == Succeeded ==> CompletedFor(disk, r)
    case Active(_, tx, pc) => (pc.Removing? ==> CompletedFor(disk, r)) && SavesSincerely(tx, pc)
    case _ => true
  }

  lemma {:induction false} TruthfulSave(s: State, e: Event, r: Request)
    requires s.call.Active? && s.call.pc.Saving? && e.Save? && SaveStep(s, e.tx, e.now, e.err).Some?
    requires Truthful(s.disk, s.call, r) && About(s.call, r)
    ensures var t := SaveStep(s, e.tx, e.now, e.err).value; Truthful(t.disk, t.call, r) && About(t.call, r)
  {}

  lemma {:induction false} TruthfulResume(disk: map<string, Transaction>, a: Adapter, r: Request)
    requires Key(r) in disk
    ensures var c := Resume(a, r, disk[Key(r)]); Truthful(disk, c, r) && About(c, r)
  {}

  lemma {:induction false} TruthfulStep(s: State, e: Event, r: Request)
    requires Truthful(s.disk, s.call, r) && About(s.call, r) && Inner(e) && Step(s, e).Some?
    ensures var t := Step(s, e).value; Truthful(t.disk, t.call, r) && About(t.call, r)
    ensures e.Return? ==>
              && Answers(e.reply, r)
              && (e.reply.state == Succeeded ==> CompletedFor(Step(s, e).value.disk, r))
  {
    if s.call.Active? {
      if s.call.pc.Saving? { TruthfulSave(s, e, r); }
      else { EffectIsOwn(s.boot, s.call.adapter, s.call.tx, s.call.pc, e); }
    } else if s.call.Loading? && e.outcome.Found? { TruthfulResume(s.disk, s.call.adapter, r); }
  }

  lemma {:induction false} DeliveryAbout(s: State, log: seq<Event>, r: Request)
    requires s.call.Idle? && log != [] && log[0].Begin? && log[0].request == r && Run(s, log).Some?
    requires forall i :: 0 < i < |log| ==> Inner(log[i])
    ensures var t := Run(s, log).value; About(t.call, r) && Truthful(t.disk, t.call, r)
    ensures log[|log| - 1].Return? ==>
              && Answers(log[|log| - 1].reply, r)
              && (log[|log| - 1].reply.state == Succeeded ==> CompletedFor(Run(s, log).value.disk, r))
    decreases |log|
  {
    var before := log[..|log| - 1];
    if |log| == 1 {
      assert before == [];
    } else {
      assert before[0] == log[0];
      DeliveryAbout(s, before, r);
      TruthfulStep(Run(s, before).value, log[|log| - 1], r);
    }
  }

  /** The reply to a delivery names its update, and a reply of success is worth a completed file. */
  lemma {:induction false} AnswerTellsTheTruth(s: State, log: seq<Event>, from: nat, r: Request, reply: Reply)
    requires s.call.Idle? && Run(s, log).Some? && from <= |log|
    requires Run(s, log[..from]).Some? && Run(s, log[..from]).value.call.Idle?
    requires IsDelivery(log[from..], r, reply)
    ensures reply.updateId == r.updateId && reply.adapter == r.adapter && reply.version == r.version
    ensures reply.state == Succeeded ==> CompletedFor(Run(s, log).value.disk, r)
    ensures Run(Run(s, log[..from]).value, log[from..]) == Run(s, log)
  {
    var before, d := log[..from], log[from..];
    assert log == before + d;
    RunConcat(s, before, d);
    DeliveryAbout(Run(s, before).value, d, r);
  }

  /** A completed file stays completed through anything that runs later. */
  lemma {:induction false} CompletedIsForever(s: State, log: seq<Event>, r: Request)
    requires s.call.Idle? && CompletedFor(s.disk, r) && Run(s, log).Some?
    ensures CompletedFor(Run(s, log).value.disk, r)
  {
    TerminalIsForever(s, log, Key(r));
  }

  // ---------- when a commit can happen twice ----------

  /** The file of the update in hand is in the phase the call works from. */
  predicate Synced(disk: map<string, Transaction>, c: Call) {
    c.Active? ==>
      var tx, pc := c.tx, c.pc;
      && (pc == Saving(true, Confirmed) ==>
            RecordedIn(disk, tx.request, Activated) || RecordedIn(disk, tx.request, RebootRequested))
      && (!pc.Saving? && !pc.Requesting? && !pc.Removing? ==> RecordedIn(disk, tx.request, tx.phase))
      && (pc.Saving? ==>
            && (pc.next.Continue? ==> pc.strict && Early(tx.phase))
            && (pc.next.Confirmed? <==> tx.phase.Completed?)
            && (pc.next.FirstReboot? ==> pc.strict))
      && (pc == Requesting(FirstReboot) ==> RecordedIn(disk, tx.request, tx.phase))
      && (ConfirmingPoint(pc) ==> tx.phase.Activated? || tx.phase.RebootRequested?)
      && (pc.AskingReboot? || pc.BootForReboot? ==> tx.phase.Activated?)
      && (pc.Resuming? || pc.Timing? ==> tx.phase.RebootRequested? || tx.phase.RollbackRebootRequested?)
  }

  predicate RecordedIn(disk: map<string, Transaction>, r: Request, phase: Phase) {
    Key(r) in disk && disk[Key(r)].phase == phase && disk[Key(r)].request == Reloaded(r)
  }

  lemma {:induction false} SyncedPreflight(disk: map<string, Transaction>, a: Adapter, tx: Transaction, e: Event)
    requires Synced(disk, Active(a, tx, Preflight)) && PreflightStep(a, tx, Preflight, e).Some?
    ensures Synced(disk, PreflightStep(a, tx, Preflight, e).value)
  {}

  lemma {:induction false} SyncedDownload(disk: map<string, Transaction>, a: Adapter, tx: Transaction, pc: Pc, e: Event)
    requires (pc.CheckingSpace? || pc.Fetching?) && Synced(disk, Active(a, tx, pc)) && PreflightStep(a, tx, pc, e).Some?
    ensures Synced(disk, PreflightStep(a, tx, pc, e).value)
  {}

  lemma {:induction false} SyncedVerify(disk: map<string, Transaction>, a: Adapter, tx: Transaction, pc: Pc, e: Event)
    requires (pc.VerifyingArtifact? || pc.VerifyingSignature? || pc.Checking?) && Synced(disk, Active(a, tx, pc))
    requires InstallStep(a, tx, pc, e).Some?
    ensures Synced(disk, InstallStep(a, tx, pc, e).value)
  {}

  lemma {:induction false} SyncedInstall(disk: map<string, Transaction>, a: Adapter, tx: Transaction, pc: Pc, e: Event)
    requires (pc.Installing? || pc.Activating?) && Synced(disk, Active(a, tx, pc)) && InstallStep(a, tx, pc, e).Some?
    ensures Synced(disk, InstallStep(a, tx, pc, e).value)
  {}

  lemma {:induction false} SyncedReboot(disk: map<string, Transaction>, boot: string, a: Adapter, tx: Transaction,
                                        pc: Pc, e: Event)
    requires RebootPoint(pc) && Synced(disk, Active(a, tx, pc)) && RebootStep(boot, a, tx, pc, e).Some?
    ensures Synced(disk, RebootStep(boot, a, tx, pc, e).value)
  {}

  lemma {:induction false} SyncedConfirming(disk: map<string, Transaction>, a: Adapter, tx: Transaction, pc: Pc,
                                            e: Event)
    requires ConfirmingPoint(pc) && Synced(disk, Active(a, tx, pc)) && ConfirmingStep(a, tx, pc, e).Some?
    ensures Synced(disk, ConfirmingStep(a, tx, pc, e).value)
  {}

  lemma {:induction false} SyncedRollback(disk: map<string, Transaction>, boot: string, a: Adapter, tx: Transaction,
                                          pc: Pc, e: Event)
    requires RollbackPoint(pc) && Synced(disk, Active(a, tx, pc)) && RollbackStep(boot, a, tx, pc, e).Some?
    ensures Synced(disk, RollbackStep(boot, a, tx, pc, e).value)
  {}

  lemma {:induction false} SyncedEffect(disk: map<string, Transaction>, boot: string, a: Adapter, tx: Transaction,
                                        pc: Pc, e: Event)
    requires Synced(disk, Active(a, tx, pc)) && CallStep(boot, a, tx, pc, e).Some?
    ensures Synced(disk, CallStep(boot, a, tx, pc, e).value)
  {
    if pc.Preflight? { SyncedPreflight(disk, a, tx, e); }
    else if PreflightPoint(pc) { SyncedDownload(disk, a, tx, pc, e); }
    else if pc.Installing? || pc.Activating? { SyncedInstall(disk, a, tx, pc, e); }
    else if InstallPoint(pc) { SyncedVerify(disk, a, tx, pc, e); }
    else if RebootPoint(pc) { SyncedReboot(disk, boot, a, tx, pc, e); }
    else if ConfirmingPoint(pc) { SyncedConfirming(disk, a, tx, pc, e); }
    else { SyncedRollback(disk, boot, a, tx, pc, e); }
  }

  lemma {:induction false} SyncedSave(s: State, e: Event)
    requires s.call.Active? && s.call.pc.Saving? && e.Save? && Synced(s.disk, s.call)
    requires SaveStep(s, e.tx, e.now, e.err).Some?
    ensures var t := SaveStep(s, e.tx, e.now, e.err).value; Synced(t.disk, t.call)
  {}

  lemma {:induction false} SyncedResume(disk: map<string, Transaction>, a: Adapter, r: Request)
    requires Key(r) in disk && Reloaded(disk[Key(r)].request) == disk[Key(r)].request
    ensures Synced(disk, Resume(a, r, disk[Key(r)]))
  {}

  lemma {:induction false} SyncedStep(s: State, e: Event)
    requires Synced(s.disk, s.call) && Step(s, e).Some?
    requires forall k :: k in s.disk ==> Reloaded(s.disk[k].request) == s.disk[k].request
    ensures var t := Step(s, e).value; Synced(t.disk, t.call)
  {
    if e.Crash? || e.Reboot? {
    } else if s.call.Active? {
      if s.call.pc.Saving? { SyncedSave(s, e); }
      else { SyncedEffect(s.disk, s.boot, s.call.adapter, s.call.tx, s.call.pc, e); }
    } else if s.call.Loading? && e.outcome.Found? { SyncedResume(s.disk, s.call.adapter, s.call.request); }
  }

  lemma {:induction false} RunSynced(boot: string, log: seq<Event>)
    requires Run(NewDevice(boot), log).Some?
    ensures var s := Run(NewDevice(boot), log).value; Synced(s.disk, s.call)
    decreases |log|
  {
    if log != [] {
      var before := log[..|log| - 1];
      RunSynced(boot, before);
      RunInv(boot, before);
      SyncedStep(Run(NewDevice(boot), before).value, log[|log| - 1]);
    }
  }

  /** A delivery that resumes a transaction waiting to be confirmed, up to its commit. */
  function ConfirmAgain(a: Adapter, tx: Transaction, version: string): seq<Event> {
    [Begin(tx.request, Ready(a)), Load(Found(tx))] + Asks(a, tx)
    + [HealthCheck(None), CurrentVersion(a, tx.request, Ok(version)), Commit(a, tx.request, None)]
  }

  lemma {:induction false} TwoSteps(s: State, d: Event, e: Event)
    requires Step(s, d).Some?
    ensures Run(s, [d, e]) == Step(Step(s, d).value, e)
  {
    Snoc(s, [], d);
    Snoc(s, [d], e);
    assert [] + [d] == [d] && [d] + [e] == [d, e];
  }

  lemma {:induction false} HealthyCommit(s: State, version: string)
    requires s.call.Active? && s.call.pc.Health? && Confirms(s.call.tx.request, version)
    ensures var a, r := s.call.adapter, s.call.tx.request;
            Run(s, [HealthCheck(None), CurrentVersion(a, r, Ok(version)), Commit(a, r, None)]).Some?
  {
    var a, r := s.call.adapter, s.call.tx.request;
    var first := [HealthCheck(None), CurrentVersion(a, r, Ok(version))];
    TwoSteps(s, first[0], first[1]);
    Snoc(s, first, Commit(a, r, None));
    assert first + [Commit(a, r, None)] == [HealthCheck(None), CurrentVersion(a, r, Ok(version)), Commit(a, r, None)];
  }

  lemma {:induction false} Resumed(s: State, a: Adapter, tx: Transaction)
    requires s.call.Idle? && Key(tx.request) in s.disk && s.disk[Key(tx.request)] == tx && a.name == tx.request.adapter
    ensures Run(s, [Begin(tx.request, Ready(a)), Load(Found(tx))]) == Some(s.(call := Resume(a, tx.request, tx)))
  {
    TwoSteps(s, Begin(tx.request, Ready(a)), Load(Found(tx)));
  }

  /** What the resumed call asks before it checks the device's health. */
  function Asks(a: Adapter, tx: Transaction): seq<Event> {
    if tx.phase.Activated? then [AskReboot(a, false)] else if tx.bootId != "" then [ReadBootId("")] else []
  }

  lemma {:induction false} OneStep(s: State, e: Event)
    ensures Run(s, [e]) == Step(s, e)
  {
    Snoc(s, [], e);
    assert [] + [e] == [e];
  }

  lemma {:induction false} AskedNoReboot(s: State, a: Adapter, tx: Transaction)
    requires tx.phase.Activated? && a.MayAnswerReboot(false)
    ensures Step(s.(call := Resume(a, tx.request, tx)), AskReboot(a, false)) == Some(s.(call := Active(a, tx, Health)))
  {}

  lemma {:induction false} ReadNoBootId(s: State, a: Adapter, tx: Transaction)
    requires tx.phase.RebootRequested? && tx.bootId != ""
    ensures Step(s.(call := Resume(a, tx.request, tx)), ReadBootId("")) == Some(s.(call := Active(a, tx, Health)))
  {}

  lemma {:induction false} AsksThenChecks(s: State, a: Adapter, tx: Transaction)
    requires (tx.phase.Activated? && a.MayAnswerReboot(false)) || tx.phase.RebootRequested?
    ensures Run(s.(call := Resume(a, tx.request, tx)), Asks(a, tx)) == Some(s.(call := Active(a, tx, Health)))
  {
    var t := s.(call := Resume(a, tx.request, tx));
    if tx.phase.Activated? {
      OneStep(t, AskReboot(a, false));
      AskedNoReboot(s, a, tx);
    } else if tx.bootId != "" {
      OneStep(t, ReadBootId(""));
      ReadNoBootId(s, a, tx);
    }
  }

  lemma {:induction false} Chained(s: State, a: seq<Event>, b: seq<Event>, c: seq<Event>, t: State, u: State)
    requires Run(s, a) == Some(t) && Run(t, b) == Some(u) && Run(u, c).Some?
    ensures Run(s, a + (b + c)).Some?
  {
    RunConcat(t, b, c);
    RunConcat(s, a, b + c);
  }

  lemma {:induction false} ConfirmsAgain(s: State, a: Adapter, tx: Transaction, version: string)
    requires s.call.Idle? && Key(tx.request) in s.disk && s.disk[Key(tx.request)] == tx
    requires a.name == tx.request.adapter
    requires (tx.phase.Activated? && a.MayAnswerReboot(false)) || tx.phase.RebootRequested?
    requires Confirms(tx.request, version)
    ensures Run(s, ConfirmAgain(a, tx, version)).Some?
  {
    var r := tx.request;
    var first, last := [Begin(r, Ready(a)), Load(Found(tx))],
        [HealthCheck(None), CurrentVersion(a, r, Ok(version)), Commit(a, r, None)];
    var t, u := s.(call := Resume(a, r, tx)), s.(call := Active(a, tx, Health));
    Resumed(s, a, tx);
    AsksThenChecks(s, a, tx);
    HealthyCommit(u, version);
    Chained(s, first, Asks(a, tx), last, t, u);
    assert ConfirmAgain(a, tx, version) == first + (Asks(a, tx) + last);
  }

  /** The version that confirmed a committing call, and the phase its file is in. */
  lemma {:induction false} ReadyToCommit(boot: string, log: seq<Event>, e: Event)
    requires Run(NewDevice(boot), log + [e]).Some? && e.Commit?
    ensures Run(NewDevice(boot), log).Some?
    ensures var r, s := e.request, Run(NewDevice(boot), log).value;
            && log != [] && log[|log| - 1].CurrentVersion? && log[|log| - 1].reported.Ok?
            && Confirms(r, log[|log| - 1].reported.value)
            && (RecordedIn(s.disk, r, Activated) || RecordedIn(s.disk, r, RebootRequested))
  {
    assert (log + [e])[..|log|] == log;
    var s := Run(NewDevice(boot), log).value;
    RunSynced(boot, log);
    RunInv(boot, log);
    CommitHappensAt(s, e);
    assert CallJustified(Past(log), log, s.call);
    CommittingAfterVersion(Past(log), log, s.call.adapter, s.call.tx);
  }

  lemma {:induction false} CommittingAfterVersion(f: Facts, log: seq<Event>, a: Adapter, tx: Transaction)
    requires PointJustified(f, log, a, tx, Committing)
    ensures log != [] && log[|log| - 1].CurrentVersion? && log[|log| - 1].reported.Ok?
            && Confirms(tx.request, log[|log| - 1].reported.value)
  {}

  /** After a crash, a reboot or a failed save, the call is over or about to reply, and the files are as before. */
  lemma {:induction false} Interrupted(s: State, c: Event, e: Event)
    requires c.Commit? && c.err == None && Step(s, c).Some? && Step(Step(s, c).value, e).Some?
    requires !(e.Save? && e.err == None)
    ensures var t := Step(Step(s, c).value, e).value;
            t.disk == s.disk && (t.call.Idle? || t.call.Finishing?)
  {}

  lemma {:induction false} FinishCall(t: State)
    requires t.call.Idle? || t.call.Finishing?
    ensures exists back: seq<Event> :: Run(t, back) == Some(t.(call := Idle))
  {
    if t.call.Idle? {
      assert Run(t, []) == Some(t.(call := Idle));
    } else {
      OneStep(t, Return(t.call.reply));
      assert Run(t, [Return(t.call.reply)]) == Some(t.(call := Idle));
    }
  }

  ghost predicate CommitsAgain(boot: string, log: seq<Event>, k: string, more: seq<Event>) {
    && Run(NewDevice(boot), log + more).Some?
    && exists i: nat :: i < |more| && more[i].Commit? && Key(more[i].request) == k
  }

  /** Some continuation of the run commits the update of file `k` again. */
  ghost predicate CommitMayRepeat(boot: string, log: seq<Event>, k: string) {
    exists more: seq<Event> :: CommitsAgain(boot, log, k, more)
  }

  /** With its file still waiting to be confirmed, an update can always be committed again. */
  lemma {:induction false} CanCommitFrom(t: State, r: Request, version: string) returns (more: seq<Event>)
    requires t.call.Idle? || t.call.Finishing?
    requires (RecordedIn(t.disk, r, Activated) || RecordedIn(t.disk, r, RebootRequested)) && Confirms(r, version)
    ensures Run(t, more).Some? && more != [] && more[|more| - 1].Commit? && Key(more[|more| - 1].request) == Key(r)
  {
    FinishCall(t);
    var back: seq<Event> :| Run(t, back) == Some(t.(call := Idle));
    var tx, a := t.disk[Key(r)], Adapter(r.adapter, true);
    ConfirmsAgain(t.(call := Idle), a, tx, version);
    RunConcat(t, back, ConfirmAgain(a, tx, version));
    more := back + ConfirmAgain(a, tx, version);
    assert more[|more| - 1] == Commit(a, tx.request, None);
  }

  lemma {:induction false} UnrecordedCommitRepeats(boot: string, log: seq<Event>, c: Event, e: Event)
    requires Run(NewDevice(boot), log + [c] + [e]).Some? && c.Commit? && c.err == None
    requires !(e.Save? && e.err == None)
    ensures CommitMayRepeat(boot, log + [c] + [e], Key(c.request))
  {
    var s0 := NewDevice(boot);
    assert (log + [c] + [e])[..|log| + 1] == log + [c];
    ReadyToCommit(boot, log, c);
    var s := Run(s0, log).value;
    Snoc(s0, log, c);
    Snoc(s0, log + [c], e);
    Interrupted(s, c, e);
    var t := Run(s0, log + [c] + [e]).value;
    var more := CanCommitFrom(t, c.request, log[|log| - 1].reported.value);
    RunConcat(s0, log + [c] + [e], more);
    assert CommitsAgain(boot, log + [c] + [e], Key(c.request), more);
  }

  lemma {:induction false} RecordedCommitIsLast(boot: string, log: seq<Event>, e: Event, more: seq<Event>)
    requires log != [] && log[|log| - 1].Commit? && log[|log| - 1].err == None && e.Save? && e.err == None
    requires Run(NewDevice(boot), log + [e] + more).Some?
    ensures !CommitsAgain(boot, log + [e], Key(log[|log| - 1].request), more)
  {
    var whole := log + [e] + more;
    forall i: nat | i < |more| ensures !(more[i].Commit? && Key(more[i].request) == Key(log[|log| - 1].request)) {
      NothingAfterRecordedCommit(boot, whole, |log| - 1, |log| + 1 + i);
      assert whole[|log| + 1 + i] == more[i];
    }
  }

  /** When a commit may be followed by another one for the same update: exactly when the event right
      after it is not a successful save of the completed transaction. */
  lemma {:induction false} CommitRepeatsExactlyWhenUnrecorded(boot: string, log: seq<Event>, e: Event)
    requires log != [] && Run(NewDevice(boot), log + [e]).Some?
    requires log[|log| - 1].Commit? && log[|log| - 1].err == None
    ensures CommitMayRepeat(boot, log + [e], Key(log[|log| - 1].request)) <==> !(e.Save? && e.err == None)
  {
    if e.Save? && e.err == None {
      forall more: seq<Event> | Run(NewDevice(boot), log + [e] + more).Some?
        ensures !CommitsAgain(boot, log + [e], Key(log[|log| - 1].request), more)
      {
        RecordedCommitIsLast(boot, log, e, more);
      }
    } else {
      assert log == log[..|log| - 1] + [log[|log| - 1]];
      UnrecordedCommitRepeats(boot, log[..|log| - 1], log[|log| - 1], e);
    }
  }

  /** Asking for a reboot without a readable boot id, up to the reply. */
  function AskedBlindly(a: Adapter, tx: Transaction): seq<Event> {
    [AskReboot(a, true), ReadBootId(""), Save(tx, 0, None)] + [RequestReboot(None),
        Return(ReplyTo(tx.request, RebootPending, []))]
  }

  lemma {:induction false} AsksBlindly(s: State)
    requires s.call.Active? && s.call.pc.AskingReboot? && s.call.adapter.MayAnswerReboot(true)
    requires s.call.tx.phase.Activated?
    ensures var tx := s.call.tx.(phase := RebootRequested, bootId := "");
            Run(s, AskedBlindly(s.call.adapter, tx))
                == Some(State(s.disk[Key(tx.request) := Stored(tx, 0)], s.boot, Idle))
  {
    var a := s.call.adapter;
    var tx := s.call.tx.(phase := RebootRequested, bootId := "");
    var ask, request := [AskReboot(a, true), ReadBootId("")],
        [RequestReboot(None), Return(ReplyTo(tx.request, RebootPending, []))];
    var saved := State(s.disk[Key(tx.request) := Stored(tx, 0)], s.boot, Active(a, tx, Requesting(FirstReboot)));
    TwoSteps(s, ask[0], ask[1]);
    Snoc(s, ask, Save(tx, 0, None));
    assert Run(s, ask + [Save(tx, 0, None)]) == Some(saved);
    TwoSteps(saved, request[0], request[1]);
    RunConcat(s, ask + [Save(tx, 0, None)], request);
    assert AskedBlindly(a, tx) == ask + [Save(tx, 0, None)] + request;
  }

  /** Nothing reboots, and every adapter that is asked wants a reboot. */
  predicate NeverReboots(log: seq<Event>) {
    forall i :: 0 <= i < |log| ==> !log[i].Reboot? && (log[i].AskReboot? ==> log[i].answer)
  }

  /** The run ends with a commit of the update, on the boot it started on. */
  ghost predicate CommitsHere(s: State, log: seq<Event>, a: Adapter, r: Request) {
    Run(s, log).Some? && log != [] && log[|log| - 1] == Commit(a, r, None) && NeverReboots(log)
  }

  /** Why boot ids must be readable for a reboot to be certain: when one is not, the next delivery
      commits the update on the very boot that asked for the reboot. */
  lemma {:induction false} UnreadableBootIdSkipsTheReboot(s: State, version: string)
    requires s.call.Active? && s.call.pc.AskingReboot? && s.call.adapter.MayAnswerReboot(true)
    requires s.call.tx.phase.Activated? && Reloaded(s.call.tx.request) == s.call.tx.request
    requires s.call.adapter.name == s.call.tx.request.adapter && Confirms(s.call.tx.request, version)
    ensures exists log :: CommitsHere(s, log, s.call.adapter, s.call.tx.request)
  {
    var a, tx := s.call.adapter, s.call.tx.(phase := RebootRequested, bootId := "");
    AsksBlindly(s);
    var asked, again := AskedBlindly(a, tx), ConfirmAgain(a, Stored(tx, 0), version);
    var t := Run(s, asked).value;
    ConfirmsAgain(t, a, Stored(tx, 0), version);
    RunConcat(s, asked, again);
    assert NeverReboots(asked);
    BlindNeverReboots(a, Stored(tx, 0), version);
    assert NeverReboots(asked + again);
    assert CommitsHere(s, asked + again, a, tx.request);
  }

  lemma {:induction false} BlindNeverReboots(a: Adapter, tx: Transaction, version: string)
    requires tx.phase.RebootRequested? && tx.bootId == ""
    ensures var again := ConfirmAgain(a, tx, version);
            NeverReboots(again) && again != [] && again[|again| - 1] == Commit(a, tx.request, None)
  {}

  // ---------- which redeliveries are recognised ----------

  /** A delivery of the request that a transaction file was written for is recognised exactly when
      the request does not carry an empty, non-nil compatibility list: that list comes back as nil. */
  lemma {:induction false} RedeliveryRecognised(s: State, r: Request, a: Adapter)
    requires s.call.Idle? && a.name == r.adapter
    requires Key(r) in s.disk && s.disk[Key(r)].request == Reloaded(r)
    ensures var log := [Begin(r, Ready(a)), Load(Found(s.disk[Key(r)]))];
            Run(s, log).Some? &&
            (Run(s, log).value.call == Finishing(FailedReply(r, StateError, OtherRequest)) <==>
                r.compatibleFrom == Some([]))
  {
    TwoSteps(s, Begin(r, Ready(a)), Load(Found(s.disk[Key(r)])));
  }
}
