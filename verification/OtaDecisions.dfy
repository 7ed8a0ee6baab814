/** What the answers that a call gets decide, in every run: what the next event is, unless the device goes down. */
module OtaDecisions {
  import opened Text
  import opened OtaTypes
  import opened OtaMachine
  import opened OtaSafety

  /** The state in which event `i` happens, and what the run says about it. */
  lemma {:induction false} CallAt(boot: string, log: seq<Event>, i: nat)
    requires Run(NewDevice(boot), log).Some? && i < |log|
    ensures var s := StateAt(NewDevice(boot), log, i);
            && CallJustified(Past(log[..i]), log[..i], s.call)
            && (i + 1 < |log| ==> Step(s, log[i]) == Some(StateAt(NewDevice(boot), log, i + 1)))
            && (i + 1 < |log| ==> Step(StateAt(NewDevice(boot), log, i + 1), log[i + 1]).Some?)
  {
    var s := StateAt(NewDevice(boot), log, i);
    RunInv(boot, log[..i]);
    if i + 1 < |log| { NextState(NewDevice(boot), log, i); }
  }

  predicate StaysUpAfter(log: seq<Event>, i: nat) {
    i + 1 < |log| && !GoesDown(log[i + 1])
  }

  // ---------- the version that is reported after the update ----------

  lemma {:induction false} ConfirmingAt(f: Facts, past: seq<Event>, s: State, e: Event)
    requires CallJustified(f, past, s.call) && Step(s, e).Some? && e.CurrentVersion?
    requires past != [] && past[|past| - 1] == HealthCheck(None)
    ensures s.call.Active? && s.call.pc.Confirming? && e.request == s.call.tx.request && e.adapter == s.call.adapter
    ensures s.call.tx.phase.Activated? || s.call.tx.phase.RebootRequested?
  {}

  lemma {:induction false} AfterVersion(s: State, e: Event, next: Event)
    requires s.call.Active? && s.call.pc.Confirming? && (s.call.tx.phase.Activated? || s.call.tx.phase.RebootRequested?)
    requires e.CurrentVersion? && Step(s, e).Some? && Step(Step(s, e).value, next).Some? && !GoesDown(next)
    ensures if e.reported.Ok? && Confirms(e.request, e.reported.value)
            then next.Commit? && next.request == e.request && next.adapter == e.adapter
            else next.Rollback? && next.request == e.request && next.adapter == e.adapter
  {}

  /** Which reported version confirms an update: for an OSTree or flatpak release that names its commit, that commit
      in any case of letters; for any other that names its version, a text that contains it, or none at all. */
  lemma {:induction false} ConfirmsWhat(r: Request, reported: string)
    ensures var v := TrimSpace(reported);
            Confirms(r, reported) <==>
              if r.adapter == OSTree then r.ostreeCommit == "" || EqualFold(v, r.ostreeCommit)
              else if r.adapter == Flatpak then r.flatpakCommit == "" || EqualFold(v, r.flatpakCommit)
              else r.version == "" || v == "" || Contains(v, r.version)
  {}

  /** After a passing health check, the version that the device reports decides between commit and rollback. */
  lemma {:induction false} VersionDecides(boot: string, log: seq<Event>, i: nat)
    requires Run(NewDevice(boot), log).Some? && 0 < i < |log| && StaysUpAfter(log, i)
    requires log[i - 1] == HealthCheck(None) && log[i].CurrentVersion?
    ensures var r, next := log[i].request, log[i + 1];
            var v := if log[i].reported.Ok? then TrimSpace(log[i].reported.value) else "";
            var right := if r.adapter == OSTree then r.ostreeCommit == "" || EqualFold(v, r.ostreeCommit)
                         else if r.adapter == Flatpak then r.flatpakCommit == "" || EqualFold(v, r.flatpakCommit)
                         else r.version == "" || v == "" || Contains(v, r.version);
            (if log[i].reported.Ok? && right then next.Commit? else next.Rollback?) && next.request == r
  {
    CallAt(boot, log, i);
    var s := StateAt(NewDevice(boot), log, i);
    ConfirmingAt(Past(log[..i]), log[..i], s, log[i]);
    AfterVersion(s, log[i], log[i + 1]);
    if log[i].reported.Ok? { ConfirmsWhat(log[i].request, log[i].reported.value); }
  }

  /** A completed transaction is saved only when the device had just reported the very release. */
  lemma {:induction false} CompletedReportsTheRelease(boot: string, log: seq<Event>, i: nat)
    requires Run(NewDevice(boot), log).Some? && i < |log| && log[i].Save? && log[i].tx.phase.Completed?
    ensures i >= 3 && log[i - 2].CurrentVersion? && log[i - 2].reported.Ok?
    ensures var r, v := log[i].tx.request, TrimSpace(log[i - 2].reported.value);
            && (r.adapter == OSTree && r.ostreeCommit != "" ==> EqualFold(v, r.ostreeCommit))
            && (r.adapter == Flatpak && r.flatpakCommit != "" ==> EqualFold(v, r.flatpakCommit))
            && (r.adapter != OSTree && r.adapter != Flatpak && r.version != "" && v != "" ==> Contains(v, r.version))
  {
    CompletedOnlyAfterHealthyCommit(boot, log, i);
    ConfirmsWhat(log[i].tx.request, log[i - 2].reported.value);
  }

  // ---------- failures after the installation ----------

  /** An effect that only comes after the installation, and failed. */
  predicate FailsLate(past: seq<Event>, e: Event) {
    match e
    case Activate(_, _, err) => err.Some?
    case HealthCheck(err) => err.Some?
    case CurrentVersion(_, _, reported) => reported.Err? && past != [] && past[|past| - 1] == HealthCheck(None)
    case Commit(_, _, err) => err.Some?
    case _ => false
  }

  function LateNote(e: Event): Note
    requires e.Activate? || e.HealthCheck? || e.CurrentVersion? || e.Commit?
    requires if e.CurrentVersion? then e.reported.Err? else e.err.Some?
  {
    match e
    case Activate(_, _, err) => Because(Activation, Reported(err.value))
    case HealthCheck(err) => Because(HealthFailure, Reported(err.value))
    case CurrentVersion(_, _, reported) => Because(VersionAfter, Reported(reported.message))
    case Commit(_, _, err) => Because(Committal, Reported(err.value))
  }

  predicate LatePoint(tx: Transaction, pc: Pc) {
    || (pc.Activating? && tx.phase.Installed?)
    || (ConfirmingPoint(pc) && (tx.phase.Activated? || tx.phase.RebootRequested?))
  }

  lemma {:induction false} LateAt(f: Facts, past: seq<Event>, s: State, e: Event)
    requires CallJustified(f, past, s.call) && Step(s, e).Some? && FailsLate(past, e)
    ensures s.call.Active? && LatePoint(s.call.tx, s.call.pc)
  {}

  lemma {:induction false} LateFailure(past: seq<Event>, s: State, e: Event)
    requires s.call.Active? && LatePoint(s.call.tx, s.call.pc) && Step(s, e).Some? && FailsLate(past, e)
    ensures var c := Step(s, e).value.call;
            && c.Active? && c.adapter == s.call.adapter && c.pc.RollingBack?
               && c.tx == s.call.tx.(failure := [LateNote(e)])
            && Because(c.pc.class_, c.pc.cause) == LateNote(e)
  {}

  lemma {:induction false} RollingBackNext(s: State, e: Event)
    requires s.call.Active? && s.call.pc.RollingBack? && Step(s, e).Some? && !GoesDown(e)
    ensures e.Rollback? && e.adapter == s.call.adapter && e.request == s.call.tx.request
            && e.previous == s.call.tx.previousVersion
  {}

  /** A failure after the installation is answered by a rollback of the same update, to the recorded version, and
      its class and cause are kept. */
  lemma {:induction false} LateFailureRollsBack(boot: string, log: seq<Event>, i: nat)
    requires Run(NewDevice(boot), log).Some? && i < |log| && StaysUpAfter(log, i) && FailsLate(log[..i], log[i])
    ensures StateAt(NewDevice(boot), log, i).call.Active?
    ensures var tx := StateAt(NewDevice(boot), log, i).call.tx;
            && log[i + 1].Rollback? && log[i + 1].request == tx.request && log[i + 1].previous == tx.previousVersion
            && StateAt(NewDevice(boot), log, i + 1).call.Active?
            && StateAt(NewDevice(boot), log, i + 1).call.tx.failure == [LateNote(log[i])]
  {
    CallAt(boot, log, i);
    var s := StateAt(NewDevice(boot), log, i);
    LateAt(Past(log[..i]), log[..i], s, log[i]);
    LateFailure(log[..i], s, log[i]);
    RollingBackNext(StateAt(NewDevice(boot), log, i + 1), log[i + 1]);
  }

  lemma {:induction false} AfterRollback(s: State, e: Event, next: Event)
    requires s.call.Active? && s.call.pc.RollingBack? && e.Rollback? && Step(s, e).Some? && !GoesDown(next)
    requires Step(Step(s, e).value, next).Some?
    ensures var tx := s.call.tx;
            if e.err.Some?
            then next.Save?
                 && next.tx == tx.(phase := RollbackFailed, failure := tx.failure + [RollbackError(e.err.value)])
            else next.AskReboot? && next.adapter == e.adapter
  {}

  /** A rollback that fails is recorded as that, with what went wrong added; one that works is followed by asking
      the adapter for a reboot. */
  lemma {:induction false} RollbackDecides(boot: string, log: seq<Event>, i: nat)
    requires Run(NewDevice(boot), log).Some? && i < |log| && StaysUpAfter(log, i) && log[i].Rollback?
    ensures StateAt(NewDevice(boot), log, i).call.Active?
    ensures var tx, next := StateAt(NewDevice(boot), log, i).call.tx, log[i + 1];
            if log[i].err.Some?
            then next.Save?
                 && next.tx == tx.(phase := RollbackFailed, failure := tx.failure + [RollbackError(log[i].err.value)])
            else next.AskReboot? && next.adapter == log[i].adapter
  {
    CallAt(boot, log, i);
    RollbackHappensAt(StateAt(NewDevice(boot), log, i), log[i]);
    AfterRollback(StateAt(NewDevice(boot), log, i), log[i], log[i + 1]);
  }

  lemma {:induction false} AskingBackAt(f: Facts, past: seq<Event>, s: State, e: Event)
    requires CallJustified(f, past, s.call) && Step(s, e).Some? && e.AskReboot?
    ensures s.call.Active? && (s.call.pc.AskingReboot? || s.call.pc.AskingRollbackReboot?)
    ensures s.call.pc.AskingReboot? ==> s.call.tx.phase.Activated?
    ensures !e.adapter.plugin ==> (e.answer <==> e.adapter.name != Flatpak)
  {}

  lemma {:induction false} AfterAnswer(s: State, e: Event, next: Event)
    requires s.call.Active? && (s.call.pc.AskingReboot? || s.call.pc.AskingRollbackReboot?)
    requires e.AskReboot? && Step(s, e).Some? && !GoesDown(next) && Step(Step(s, e).value, next).Some?
    ensures e.answer ==> next.ReadBootId?
    ensures !e.answer ==>
              if s.call.pc.AskingReboot? then next.HealthCheck?
              else next.Save? && next.tx == s.call.tx.(phase := RolledBack)
  {}

  /** Of the built-in adapters all but flatpak want a reboot. The answer decides: a reboot is prepared by reading the
      boot id; otherwise the update goes on to its health check, and a rollback is recorded as done. */
  lemma {:induction false} AnswerDecides(boot: string, log: seq<Event>, i: nat)
    requires Run(NewDevice(boot), log).Some? && i < |log| && StaysUpAfter(log, i) && log[i].AskReboot?
    ensures StateAt(NewDevice(boot), log, i).call.Active?
    ensures !log[i].adapter.plugin ==> (log[i].answer <==> log[i].adapter.name != Flatpak)
    ensures log[i].answer ==> log[i + 1].ReadBootId?
    ensures !log[i].answer ==>
              if StateAt(NewDevice(boot), log, i).call.pc.AskingReboot? then log[i + 1].HealthCheck?
              else log[i + 1].Save? && log[i + 1].tx == StateAt(NewDevice(boot), log, i).call.tx.(phase := RolledBack)
  {
    CallAt(boot, log, i);
    AskingBackAt(Past(log[..i]), log[..i], StateAt(NewDevice(boot), log, i), log[i]);
    AfterAnswer(StateAt(NewDevice(boot), log, i), log[i], log[i + 1]);
  }

  // ---------- waiting for a reboot ----------

  lemma {:induction false} ClockAt(f: Facts, past: seq<Event>, s: State, e: Event)
    requires CallJustified(f, past, s.call) && Step(s, e).Some? && e.ReadClock?
    ensures s.call.Active? && s.call.pc.Timing?
    ensures s.call.tx.phase.RebootRequested? || s.call.tx.phase.RollbackRebootRequested?
  {}

  lemma {:induction false} AfterClock(s: State, e: Event, next: Event)
    requires s.call.Active? && s.call.pc.Timing?
             && (s.call.tx.phase.RebootRequested? || s.call.tx.phase.RollbackRebootRequested?)
    requires e.ReadClock? && Step(s, e).Some? && !GoesDown(next) && Step(Step(s, e).value, next).Some?
    ensures var tx := s.call.tx;
            if e.now - tx.updatedAt < 120_000_000_000 then next.Return? && next.reply.state == RebootPending
            else if tx.rebootAttempts < 3 then next.Save? && next.tx == tx.(rebootAttempts := tx.rebootAttempts + 1)
            else if tx.phase.RebootRequested? then next.Rollback? && next.request == tx.request
            else next.Save? && next.tx.phase == RollbackFailed && next.tx.request == tx.request
  {}

  /** What the clock decides for an update that waits on its old boot: less than two minutes after its file was
      written, a reply that it waits; then, three times, another reboot request that is recorded first; and then
      a rollback, or, if it is one that waits, its failure. */
  lemma {:induction false} ClockDecides(boot: string, log: seq<Event>, i: nat)
    requires Run(NewDevice(boot), log).Some? && i < |log| && StaysUpAfter(log, i) && log[i].ReadClock?
    ensures StateAt(NewDevice(boot), log, i).call.Active?
    ensures var tx, next := StateAt(NewDevice(boot), log, i).call.tx, log[i + 1];
            if log[i].now - tx.updatedAt < 120_000_000_000 then next.Return? && next.reply.state == RebootPending
            else if tx.rebootAttempts < 3 then next.Save? && next.tx == tx.(rebootAttempts := tx.rebootAttempts + 1)
            else if tx.phase.RebootRequested? then next.Rollback? && next.request == tx.request
            else next.Save? && next.tx.phase == RollbackFailed && next.tx.request == tx.request
  {
    CallAt(boot, log, i);
    ClockAt(Past(log[..i]), log[..i], StateAt(NewDevice(boot), log, i), log[i]);
    AfterClock(StateAt(NewDevice(boot), log, i), log[i], log[i + 1]);
  }

  lemma {:induction false} ResumingAt(f: Facts, past: seq<Event>, s: State, e: Event)
    requires CallJustified(f, past, s.call) && Step(s, e).Some? && e.ReadBootId? && s.call.Active?
             && s.call.pc.Resuming?
    ensures s.call.tx.phase.RebootRequested? || s.call.tx.phase.RollbackRebootRequested?
  {}

  lemma {:induction false} AfterBootId(s: State, e: Event, next: Event)
    requires s.call.Active? && s.call.pc.Resuming?
             && (s.call.tx.phase.RebootRequested? || s.call.tx.phase.RollbackRebootRequested?)
    requires e.ReadBootId? && Step(s, e).Some? && !GoesDown(next) && Step(Step(s, e).value, next).Some?
    ensures var tx := s.call.tx;
            if e.id == tx.bootId then next.ReadClock?
            else if tx.phase.RebootRequested? then next.HealthCheck?
            else next.Save? && next.tx == tx.(phase := RolledBack)
  {}

  /** The boot id that is read decides whether the update still waits: the stored one means it does. */
  lemma {:induction false} BootIdDecides(boot: string, log: seq<Event>, i: nat)
    requires Run(NewDevice(boot), log).Some? && i < |log| && StaysUpAfter(log, i) && log[i].ReadBootId?
    requires StateAt(NewDevice(boot), log, i).call.Active? && StateAt(NewDevice(boot), log, i).call.pc.Resuming?
    ensures var tx, next := StateAt(NewDevice(boot), log, i).call.tx, log[i + 1];
            if log[i].id == tx.bootId then next.ReadClock?
            else if tx.phase.RebootRequested? then next.HealthCheck?
            else next.Save? && next.tx == tx.(phase := RolledBack)
  {
    CallAt(boot, log, i);
    ResumingAt(Past(log[..i]), log[..i], StateAt(NewDevice(boot), log, i), log[i]);
    AfterBootId(StateAt(NewDevice(boot), log, i), log[i], log[i + 1]);
  }

  // ---------- what is read decides how a delivery goes on ----------

  /** The built-in flatpak adapter, and an OSTree release from a remote, fetch no artifact. */
  predicate NothingToFetch(a: Adapter, r: Request) {
    a == Adapter(Flatpak, false) || (r.adapter == OSTree && r.ostreeRemote != "")
  }

  /** What follows the loading of a transaction for the request it was written for. */
  predicate Resumes(a: Adapter, tx: Transaction, next: Event) {
    match tx.phase
    case Created => next.CurrentVersion? && next.adapter == a && next.request == tx.request
    case Prepared =>
      if NothingToFetch(a, tx.request) then next.Save? && next.tx == tx.(phase := Downloaded)
      else next.Fetch? && next.request == tx.request
    case Downloaded =>
      if tx.request.adapter == OSTree && tx.request.ostreeRemote != ""
      then next.VerifySignature? && next.request == tx.request
      else if NothingToFetch(a, tx.request) then next.Check? && next.request == tx.request
      else next.VerifyArtifact? && next.artifact == tx.artifactPath && next.request == tx.request
    case Verified => next.Install? && next.request == tx.request && next.artifact == tx.artifactPath
    case Installed => next.Activate? && next.request == tx.request
    case Activated => next.AskReboot? && next.adapter == a
    case RebootRequested => if tx.bootId != "" then next.ReadBootId? else next.HealthCheck?
    case RollbackRebootRequested =>
      if tx.bootId != "" then next.ReadBootId? else next.Save? && next.tx == tx.(phase := RolledBack)
    case Completed => next.Return? && next.reply.state == Succeeded
    case RolledBack => next.Return? && next.reply.state == Failed
    case RollbackFailed => next.Return? && next.reply.state == Failed
    case Unknown(_) => next.Return? && next.reply.state == Failed
  }

  lemma {:induction false} DownloadResumes(s: State, a: Adapter, tx: Transaction, next: Event)
    requires tx.phase.Prepared? || tx.phase.Downloaded?
    requires s.call == Proceed(a, tx) && Step(s, next).Some? && !GoesDown(next)
    ensures Resumes(a, tx, next)
  {}

  lemma {:induction false} EarlyResumes(s: State, a: Adapter, tx: Transaction, next: Event)
    requires Early(tx.phase) && s.call == Proceed(a, tx) && Step(s, next).Some? && !GoesDown(next)
    ensures Resumes(a, tx, next)
  {
    if tx.phase.Prepared? || tx.phase.Downloaded? { DownloadResumes(s, a, tx, next); }
  }

  lemma {:induction false} LateResumes(s: State, a: Adapter, r: Request, tx: Transaction, next: Event)
    requires !Early(tx.phase) && tx.request == r && s.call == Resume(a, r, tx) && Step(s, next).Some? && !GoesDown(next)
    ensures Resumes(a, tx, next)
  {}

  /** A loaded transaction goes on from the phase it is in; one of another request is refused. */
  lemma {:induction false} FileDecides(boot: string, log: seq<Event>, i: nat)
    requires Run(NewDevice(boot), log).Some? && i < |log| && StaysUpAfter(log, i) && log[i].Load?
             && log[i].outcome.Found?
    ensures StateAt(NewDevice(boot), log, i).call.Loading?
    ensures var tx, c, next := log[i].outcome.tx, StateAt(NewDevice(boot), log, i).call, log[i + 1];
            if tx.request == c.request then Resumes(c.adapter, tx, next) else next.Return? && next.reply.state == Failed
  {
    CallAt(boot, log, i);
    var s, t, tx := StateAt(NewDevice(boot), log, i), StateAt(NewDevice(boot), log, i + 1), log[i].outcome.tx;
    LoadingAt(s, log[i]);
    if tx.request == s.call.request {
      if Early(tx.phase) { EarlyResumes(t, s.call.adapter, tx, log[i + 1]); }
      else { LateResumes(t, s.call.adapter, s.call.request, tx, log[i + 1]); }
    }
  }

  lemma {:induction false} LoadingAt(s: State, e: Event)
    requires e.Load? && Step(s, e).Some?
    ensures s.call.Loading?
  {}

  lemma {:induction false} AfterBegin(s: State, e: Event, next: Event)
    requires e.Begin? && Step(s, e).Some? && !GoesDown(next) && Step(Step(s, e).value, next).Some?
    ensures match e.gate
            case Rejected(class_, cause) =>
              next.Return? && Fails(next.reply, e.request, Because(class_, Reported(cause)))
            case Ready(_) => next.Load?
  {}

  /** A request that is not valid, or has no adapter, is refused with that reason; any other has its file read. */
  lemma {:induction false} GateDecides(boot: string, log: seq<Event>, i: nat)
    requires Run(NewDevice(boot), log).Some? && i < |log| && StaysUpAfter(log, i) && log[i].Begin?
    ensures match log[i].gate
            case Rejected(class_, cause) =>
              log[i + 1].Return? && Fails(log[i + 1].reply, log[i].request, Because(class_, Reported(cause)))
            case Ready(_) => log[i + 1].Load?
  {
    CallAt(boot, log, i);
    AfterBegin(StateAt(NewDevice(boot), log, i), log[i], log[i + 1]);
  }

  /** The transaction that a new update starts with. */
  predicate IsNew(tx: Transaction, r: Request) {
    && tx.request == r && tx.phase == Created && tx.artifactPath == "" && tx.previousVersion == "" && tx.bootId == ""
    && tx.failure == [] && tx.rebootAttempts == 0
  }

  lemma {:induction false} AfterNoFile(s: State, e: Event, next: Event)
    requires s.call.Loading? && e.Load? && !e.outcome.Found? && Step(s, e).Some?
    requires !GoesDown(next) && Step(Step(s, e).value, next).Some?
    ensures match e.outcome
            case Missing => next.Save? && IsNew(next.tx, s.call.request)
            case Unreadable(cause) =>
              next.Return? && Fails(next.reply, s.call.request, Because(StateError, Reported(cause)))
  {}

  /** Without a file a new transaction is saved; one that cannot be read is an error, and stays. */
  lemma {:induction false} NoFileDecides(boot: string, log: seq<Event>, i: nat)
    requires Run(NewDevice(boot), log).Some? && i < |log| && StaysUpAfter(log, i) && log[i].Load?
    requires !log[i].outcome.Found?
    ensures StateAt(NewDevice(boot), log, i).call.Loading?
    ensures var r, next := StateAt(NewDevice(boot), log, i).call.request, log[i + 1];
            match log[i].outcome
            case Missing => next.Save? && IsNew(next.tx, r)
            case Unreadable(cause) => next.Return? && Fails(next.reply, r, Because(StateError, Reported(cause)))
  {
    CallAt(boot, log, i);
    LoadingAt(StateAt(NewDevice(boot), log, i), log[i]);
    AfterNoFile(StateAt(NewDevice(boot), log, i), log[i], log[i + 1]);
  }

  // ---------- reboots and completion ----------

  lemma {:induction false} RequestAt(f: Facts, past: seq<Event>, s: State, e: Event)
    requires CallJustified(f, past, s.call) && Step(s, e).Some? && e.RequestReboot?
    ensures s.call.Active? && s.call.pc.Requesting?
    ensures var after := s.call.pc.after;
            && (after.FirstReboot? ==> s.call.tx.phase.RebootRequested?)
            && (after.FirstReboot? || after.RetryReboot? || after.RollbackReboot?)
  {}

  lemma {:induction false} AfterRequest(s: State, e: Event, next: Event)
    requires s.call.Active? && s.call.pc.Requesting?
             && (s.call.pc.after.FirstReboot? ==> s.call.tx.phase.RebootRequested?)
    requires s.call.pc.after.FirstReboot? || s.call.pc.after.RetryReboot? || s.call.pc.after.RollbackReboot?
    requires e.RequestReboot? && Step(s, e).Some? && !GoesDown(next) && Step(Step(s, e).value, next).Some?
    ensures var after := s.call.pc.after;
            if e.err == None then next.Return? && next.reply.state == RebootPending
            else if after.FirstReboot? then next.Rollback? && next.request == s.call.tx.request
            else if after.RollbackReboot? then next.Save? && next.tx.phase == RollbackFailed
            else next.Return? && next.reply.state == Failed
  {}

  /** A reboot that was asked for ends the call with a reply that it is pending. When asking fails, the update is
      rolled back, a rollback has failed, and a retry is only reported. */
  lemma {:induction false} RequestDecides(boot: string, log: seq<Event>, i: nat)
    requires Run(NewDevice(boot), log).Some? && i < |log| && StaysUpAfter(log, i) && log[i].RequestReboot?
    ensures StateAt(NewDevice(boot), log, i).call.Active? && StateAt(NewDevice(boot), log, i).call.pc.Requesting?
    ensures var after, next := StateAt(NewDevice(boot), log, i).call.pc.after, log[i + 1];
            if log[i].err == None then next.Return? && next.reply.state == RebootPending
            else if after.FirstReboot? then next.Rollback?
            else if after.RollbackReboot? then next.Save? && next.tx.phase == RollbackFailed
            else next.Return? && next.reply.state == Failed
  {
    CallAt(boot, log, i);
    RequestAt(Past(log[..i]), log[..i], StateAt(NewDevice(boot), log, i), log[i]);
    AfterRequest(StateAt(NewDevice(boot), log, i), log[i], log[i + 1]);
  }

  lemma {:induction false} CompletingAt(f: Facts, past: seq<Event>, s: State, e: Event)
    requires CallJustified(f, past, s.call) && Step(s, e).Some? && e.Save? && e.tx.phase.Completed?
    ensures s.call.Active? && s.call.pc == Saving(true, Confirmed) && s.call.tx == e.tx
  {
    SaveHappensAt(s, e);
  }

  lemma {:induction false} AfterCompleting(s: State, e: Event, next: Event)
    requires e.Save? && s.call.Active? && s.call.pc == Saving(true, Confirmed) && s.call.tx == e.tx
    requires Step(s, e).Some? && !GoesDown(next) && Step(Step(s, e).value, next).Some?
    ensures if e.err.Some?
            then next.Return? && Fails(next.reply, e.tx.request, Because(StateError, Reported(e.err.value)))
            else if e.tx.artifactPath != "" then next == RemoveArtifact(e.tx.artifactPath)
            else next.Return? && next.reply.state == Succeeded
  {}

  /** A completion that was recorded is reported as success, after the artifact is removed if there is one; one
      that could not be recorded is reported as an error. */
  lemma {:induction false} CompletionIsReported(boot: string, log: seq<Event>, i: nat)
    requires Run(NewDevice(boot), log).Some? && i < |log| && StaysUpAfter(log, i)
    requires log[i].Save? && log[i].tx.phase.Completed?
    ensures var tx, next := log[i].tx, log[i + 1];
            if log[i].err.Some?
            then next.Return? && Fails(next.reply, tx.request, Because(StateError, Reported(log[i].err.value)))
            else if tx.artifactPath != "" then next == RemoveArtifact(tx.artifactPath)
            else next.Return? && next.reply.state == Succeeded
  {
    CallAt(boot, log, i);
    CompletingAt(Past(log[..i]), log[..i], StateAt(NewDevice(boot), log, i), log[i]);
    AfterCompleting(StateAt(NewDevice(boot), log, i), log[i], log[i + 1]);
  }

  lemma {:induction false} AfterRemoval(s: State, e: Event, next: Event)
    requires e.RemoveArtifact? && Step(s, e).Some? && !GoesDown(next) && Step(Step(s, e).value, next).Some?
    ensures next.Return? && next.reply.state == Succeeded
  {}

  lemma {:induction false} RemovalIsReported(boot: string, log: seq<Event>, i: nat)
    requires Run(NewDevice(boot), log).Some? && i < |log| && StaysUpAfter(log, i) && log[i].RemoveArtifact?
    ensures log[i + 1].Return? && log[i + 1].reply.state == Succeeded
  {
    CallAt(boot, log, i);
    AfterRemoval(StateAt(NewDevice(boot), log, i), log[i], log[i + 1]);
  }

  // ---------- saves ----------

  lemma {:induction false} SavingAt(f: Facts, past: seq<Event>, s: State, e: Event)
    requires CallJustified(f, past, s.call) && Step(s, e).Some? && e.Save?
    ensures s.call.Active? && s.call.pc.Saving? && s.call.tx == e.tx
    ensures PointJustified(f, past, s.call.adapter, e.tx, s.call.pc)
  {
    SaveHappensAt(s, e);
  }

  lemma {:induction false} AfterEarlySave(f: Facts, past: seq<Event>, s: State, e: Event, next: Event)
    requires e.Save? && s.call.Active? && s.call.tx == e.tx && s.call.pc.Saving? && Early(e.tx.phase)
    requires PointJustified(f, past, s.call.adapter, e.tx, s.call.pc)
    requires Step(s, e).Some? && !GoesDown(next) && Step(Step(s, e).value, next).Some?
    ensures if e.err.Some?
            then next.Return? && Fails(next.reply, e.tx.request, Because(StateError, Reported(e.err.value)))
            else Resumes(s.call.adapter, e.tx, next)
  {
    assert s.call.pc == Saving(true, Continue);
    if e.err == None { EarlyResumes(Step(s, e).value, s.call.adapter, e.tx, next); }
  }

  lemma {:induction false} AfterLateSave(f: Facts, past: seq<Event>, s: State, e: Event, next: Event)
    requires e.Save? && s.call.Active? && s.call.tx == e.tx && s.call.pc.Saving? && !Early(e.tx.phase)
    requires PointJustified(f, past, s.call.adapter, e.tx, s.call.pc) && !e.tx.phase.Unknown? && !e.tx.phase.Completed?
    requires Step(s, e).Some? && !GoesDown(next) && Step(Step(s, e).value, next).Some?
    ensures match e.tx.phase
            case RebootRequested =>
              if e.err == None then next.RequestReboot?
              else next.Return? && Fails(next.reply, e.tx.request, Because(StateError, Reported(e.err.value)))
            case RollbackRebootRequested => next.RequestReboot? || (e.err.Some? && next.Return?)
            case _ => next.Return? && next.reply.state == Failed
  {}

  /** What a save decides. A phase on the way to the reboot, or the request for it, that cannot be saved ends the call
      with an error. One that is saved goes on as if it had been loaded, and the reboot is asked for. A rollback that
      is done, or has failed, ends the call as failed, and one that waits for a reboot asks for it. */
  lemma {:induction false} SaveDecides(boot: string, log: seq<Event>, i: nat)
    requires Run(NewDevice(boot), log).Some? && i < |log| && StaysUpAfter(log, i)
    requires log[i].Save? && !log[i].tx.phase.Completed?
    ensures StateAt(NewDevice(boot), log, i).call.Active?
    ensures var a, e, next := StateAt(NewDevice(boot), log, i).call.adapter, log[i], log[i + 1];
            var refused :=
              && e.err.Some? && next.Return?
              && Fails(next.reply, e.tx.request, Because(StateError, Reported(e.err.value)));
            match e.tx.phase
            case RebootRequested => if e.err == None then next.RequestReboot? else refused
            case RollbackRebootRequested => next.RequestReboot? || (e.err.Some? && next.Return?)
            case RolledBack => next.Return? && next.reply.state == Failed
            case RollbackFailed => next.Return? && next.reply.state == Failed
            case _ => if e.err == None then Resumes(a, e.tx, next) else refused
  {
    CallAt(boot, log, i);
    var s := StateAt(NewDevice(boot), log, i);
    SavingAt(Past(log[..i]), log[..i], s, log[i]);
    PhaseIsKnown(Past(log[..i]), log[..i], s.call);
    if Early(log[i].tx.phase) { AfterEarlySave(Past(log[..i]), log[..i], s, log[i], log[i + 1]); }
    else { AfterLateSave(Past(log[..i]), log[..i], s, log[i], log[i + 1]); }
  }

  lemma {:induction false} PhaseIsKnown(f: Facts, past: seq<Event>, c: Call)
    requires CallJustified(f, past, c) && c.Active?
    ensures !c.tx.phase.Unknown?
  {}
}
