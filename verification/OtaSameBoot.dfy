/** Exactly when an update that waits for a reboot can be committed without one. */
module OtaSameBoot {
  import opened Text
  import opened OtaTypes
  import opened OtaMachine
  import opened OtaTerminal

  /** The device does not reboot; calls may still crash. */
  predicate StaysUp(log: seq<Event>) {
    forall i :: 0 <= i < |log| ==> !log[i].Reboot?
  }

  predicate BootIdReadable(e: Event) {
    e.ReadBootId? ==> e.id != ""
  }

  predicate BootIdsReadable(log: seq<Event>) {
    forall i :: 0 <= i < |log| ==> BootIdReadable(log[i])
  }

  /** The run ends with a commit of the update, and the device stayed up all the time. */
  ghost predicate CommitsWithoutReboot(s: State, log: seq<Event>, r: Request) {
    && Run(s, log).Some? && StaysUp(log)
    && log != [] && log[|log| - 1].Commit? && SameWire(log[|log| - 1].request, r)
  }

  // ---------- with an id stored, the reboot is waited for ----------

  /** The update waits for a reboot from this boot, or is being rolled back or has been. */
  predicate Waits(tx: Transaction, boot: string) {
    || (tx.phase.RebootRequested? && tx.bootId == boot)
    || tx.phase.RollbackRebootRequested? || tx.phase.RolledBack? || tx.phase.RollbackFailed?
  }

  predicate WaitingPoint(tx: Transaction, pc: Pc) {
    match pc
    case Resuming => tx.phase.RebootRequested? || tx.phase.RollbackRebootRequested?
    case Timing => true
    case Requesting(_) => true
    case RollingBack(_, _) => true
    case AskingRollbackReboot(_, _) => true
    case BootForRollback => true
    case Saving(_, next) => next.RetryReboot? || next.RollbackReboot? || next.Finish?
    case _ => false
  }

  predicate CallWaits(c: Call, boot: string, k: string) {
    c.Active? && Key(c.tx.request) == k ==> Waits(c.tx, boot) && WaitingPoint(c.tx, c.pc)
  }

  predicate Held(s: State, k: string) {
    s.boot != "" && k in s.disk && Waits(s.disk[k], s.boot) && CallWaits(s.call, s.boot, k)
  }

  lemma {:induction false} WaitingForReboot(boot: string, a: Adapter, tx: Transaction, pc: Pc, e: Event)
    requires boot != "" && Waits(tx, boot) && WaitingPoint(tx, pc) && RebootPoint(pc) && BootIdReadable(e)
    requires RebootStep(boot, a, tx, pc, e).Some?
    ensures CallWaits(RebootStep(boot, a, tx, pc, e).value, boot, Key(tx.request)) && !e.Commit?
  {}

  lemma {:induction false} WaitingInRollback(boot: string, a: Adapter, tx: Transaction, pc: Pc, e: Event)
    requires boot != "" && Waits(tx, boot) && WaitingPoint(tx, pc) && RollbackPoint(pc)
    requires RollbackStep(boot, a, tx, pc, e).Some?
    ensures CallWaits(RollbackStep(boot, a, tx, pc, e).value, boot, Key(tx.request)) && !e.Commit?
  {}

  lemma {:induction false} WaitingEffect(boot: string, a: Adapter, tx: Transaction, pc: Pc, e: Event)
    requires boot != "" && Waits(tx, boot) && WaitingPoint(tx, pc) && !pc.Saving? && BootIdReadable(e)
    requires CallStep(boot, a, tx, pc, e).Some?
    ensures CallWaits(CallStep(boot, a, tx, pc, e).value, boot, Key(tx.request)) && !e.Commit?
  {
    if RebootPoint(pc) { WaitingForReboot(boot, a, tx, pc, e); } else { WaitingInRollback(boot, a, tx, pc, e); }
  }

  lemma {:induction false} WaitingSave(s: State, e: Event, k: string)
    requires Held(s, k) && s.call.Active? && s.call.pc.Saving? && e.Save? && SaveStep(s, e.tx, e.now, e.err).Some?
    ensures Held(SaveStep(s, e.tx, e.now, e.err).value, k)
  {
    SaveAbout(s, e);
  }

  lemma {:induction false} WaitingResume(a: Adapter, r: Request, tx: Transaction, boot: string)
    requires boot != "" && Waits(tx, boot)
    ensures CallWaits(Resume(a, r, tx), boot, Key(r))
  {}

  lemma {:induction false} HeldStep(s: State, e: Event, k: string)
    requires Held(s, k) && Step(s, e).Some? && !e.Reboot? && BootIdReadable(e)
    ensures Held(Step(s, e).value, k) && !(e.Commit? && Key(e.request) == k)
  {
    if s.call.Active? && !e.Crash? {
      var a, tx, pc := s.call.adapter, s.call.tx, s.call.pc;
      if pc.Saving? {
        WaitingSave(s, e, k);
      } else {
        EffectIsOwn(s.boot, a, tx, pc, e);
        if Key(tx.request) == k { WaitingEffect(s.boot, a, tx, pc, e); }
      }
    } else if s.call.Loading? && e.Load? && e.outcome.Found? {
      if Key(s.call.request) == k { WaitingResume(s.call.adapter, s.call.request, e.outcome.tx, s.boot); }
      ResumedAbout(s.call.adapter, s.call.request, e.outcome.tx);
    }
  }

  lemma {:induction false} ResumedAbout(a: Adapter, r: Request, tx: Transaction)
    ensures About(Resume(a, r, tx), r)
  {}

  /** As long as boot ids can be read and the device stays up, the update is not committed. */
  lemma {:induction false} HeldRun(s: State, log: seq<Event>, k: string)
    requires Held(s, k) && Run(s, log).Some? && StaysUp(log) && BootIdsReadable(log)
    ensures Held(Run(s, log).value, k)
    ensures log != [] && log[|log| - 1].Commit? ==> Key(log[|log| - 1].request) != k
    decreases |log|
  {
    if log != [] {
      HeldRun(s, log[..|log| - 1], k);
      HeldStep(Run(s, log[..|log| - 1]).value, log[|log| - 1], k);
    }
  }

  // ---------- when it is not ----------

  /** A delivery that commits at once. It reads the boot id only when one is stored, and then fails to. */
  lemma {:induction false} CommitsAtOnce(s: State, r: Request, version: string) returns (log: seq<Event>)
    requires s.call.Idle? && RecordedIn(s.disk, r, RebootRequested) && Confirms(r, version)
    ensures CommitsWithoutReboot(s, log, r)
    ensures s.disk[Key(r)].bootId == "" ==> BootIdsReadable(log)
  {
    var tx, a := s.disk[Key(r)], Adapter(r.adapter, true);
    ConfirmsAgain(s, a, tx, version);
    log := ConfirmAgain(a, tx, version);
    assert log[|log| - 1] == Commit(a, tx.request, None);
  }

  /** A reboot was requested on this boot and its transaction is on disk. When the device stays up and its boot
      ids can be read, the update can be committed if and only if no boot id was stored with the request. */
  lemma {:induction false} CommitsOnTheSameBootExactlyWhen(s: State, r: Request, version: string)
    requires s.call.Idle? && RecordedIn(s.disk, r, RebootRequested) && Confirms(r, version)
    requires s.disk[Key(r)].bootId == "" || s.disk[Key(r)].bootId == s.boot
    ensures (exists log :: CommitsWithoutReboot(s, log, r) && BootIdsReadable(log)) <==> s.disk[Key(r)].bootId == ""
  {
    if s.disk[Key(r)].bootId == "" {
      var log := CommitsAtOnce(s, r, version);
    } else {
      forall log | CommitsWithoutReboot(s, log, r) ensures !BootIdsReadable(log) {
        if BootIdsReadable(log) { HeldRun(s, log, Key(r)); }
      }
    }
  }

  /** With its boot id stored, the update can still be committed without a reboot: in exactly the runs that
      fail to read the boot id, and there are such runs. */
  lemma {:induction false} StoredBootIdNeedsAFailedRead(s: State, r: Request, version: string)
    requires s.call.Idle? && RecordedIn(s.disk, r, RebootRequested) && Confirms(r, version)
    requires s.disk[Key(r)].bootId == s.boot != ""
    ensures exists log :: CommitsWithoutReboot(s, log, r)
    ensures forall log :: CommitsWithoutReboot(s, log, r) ==> ReadBootId("") in log
  {
    var some := CommitsAtOnce(s, r, version);
    forall log | CommitsWithoutReboot(s, log, r) ensures ReadBootId("") in log {
      if BootIdsReadable(log) { HeldRun(s, log, Key(r)); }
      var i :| 0 <= i < |log| && !BootIdReadable(log[i]);
      assert log[i] == ReadBootId("");
    }
  }
}
