/** Whether a device that must reboot for an update really rebooted before the update was committed. */
module OtaReboot {
  import opened Text
  import opened OtaTypes
  import opened OtaMachine
  import opened OtaSafety

  /** At `i` a requested reboot for `r` was persisted, on the boot it names. */
  ghost predicate RequestedAt(log: seq<Event>, i: nat, r: Request, bootId: string) {
    && i < |log| && log[i].Save? && log[i].err == None
    && log[i].tx.phase.RebootRequested? && SameWire(log[i].tx.request, r) && log[i].tx.bootId == bootId
  }

  ghost predicate Requested(log: seq<Event>, r: Request, bootId: string) {
    exists i: nat :: RequestedAt(log, i, r, bootId)
  }

  /** The device rebooted after that. */
  ghost predicate Rebooted(log: seq<Event>, r: Request, bootId: string) {
    exists i: nat, j: nat :: i < j < |log| && RequestedAt(log, i, r, bootId) && log[j].Reboot?
  }

  lemma {:induction false} RebootFactsGrow(log: seq<Event>, e: Event, r: Request, b: string)
    ensures Requested(log, r, b) ==> Requested(log + [e], r, b)
    ensures Rebooted(log, r, b) ==> Rebooted(log + [e], r, b)
    ensures Requested(log, r, b) && e.Reboot? ==> Rebooted(log + [e], r, b)
  {
    var more := log + [e];
    if Requested(log, r, b) {
      var i: nat :| RequestedAt(log, i, r, b);
      assert RequestedAt(more, i, r, b);
      if e.Reboot? { assert more[|log|].Reboot?; }
    }
    if Rebooted(log, r, b) {
      var i: nat, j: nat :| i < j < |log| && RequestedAt(log, i, r, b) && log[j].Reboot?;
      assert RequestedAt(more, i, r, b) && more[j].Reboot?;
    }
  }

  /** What a call that goes on to the health check saw just before it, at `j`, in an update of `r`: an adapter
      that wants no reboot, a stored request without a boot id, a boot id that could not be read, or the id of
      a boot that came after the one that persisted the request. */
  ghost predicate ReadyAt(log: seq<Event>, j: int, boot: string, a: Adapter, r: Request) {
    && 0 <= j < |log|
    && (|| (log[j] == AskReboot(a, false) && a.MayAnswerReboot(false))
        || (log[j].Load? && Requested(log, r, ""))
        || log[j] == ReadBootId("")
        || (log[j] == ReadBootId(boot) && exists b :: b != boot && Rebooted(log, r, b)))
  }

  ghost predicate Anchored(log: seq<Event>, boot: string, tx: Transaction) {
    var r := Reloaded(tx.request);
    tx.phase.RebootRequested? ==>
      && Requested(log, r, tx.bootId)
      && (tx.bootId != "" && boot != tx.bootId ==> Rebooted(log, r, tx.bootId))
  }

  ghost predicate CallAnchored(log: seq<Event>, boot: string, c: Call) {
    c.Active? ==>
      var a, tx, pc := c.adapter, c.tx, c.pc;
      && (if pc == Saving(true, FirstReboot)
          then tx.phase.RebootRequested? && (tx.bootId == boot || tx.bootId == "")
          else Anchored(log, boot, tx))
      && (pc.Health? ==> ReadyAt(log, |log| - 1, boot, a, Reloaded(tx.request)))
      && (pc.Confirming? ==> ReadyAt(log, |log| - 2, boot, a, Reloaded(tx.request)))
      && (pc.Committing? ==> ReadyAt(log, |log| - 3, boot, a, Reloaded(tx.request)))
      && (pc.Resuming? || pc.Timing? ==>
         tx.bootId != "" && (tx.phase.RebootRequested? || tx.phase.RollbackRebootRequested?))
  }

  ghost predicate BootInv(log: seq<Event>, s: State) {
    && (forall k :: k in s.disk ==>
       Reloaded(s.disk[k].request) == s.disk[k].request && Anchored(log, s.boot, s.disk[k]))
    && CallAnchored(log, s.boot, s.call)
  }

  lemma {:induction false} AnchorGrows(log: seq<Event>, e: Event, boot: string, tx: Transaction)
    requires Anchored(log, boot, tx)
    ensures Anchored(log + [e], if e.Reboot? then e.bootId else boot, tx)
  {
    RebootFactsGrow(log, e, Reloaded(tx.request), tx.bootId);
  }

  lemma {:induction false} SaveAnchors(log: seq<Event>, boot: string, tx: Transaction, now: int)
    requires tx.phase.RebootRequested? && (tx.bootId == boot || tx.bootId == "")
    ensures Anchored(log + [Save(tx, now, None)], boot, tx)
  {
    assert RequestedAt(log + [Save(tx, now, None)], |log|, Reloaded(tx.request), tx.bootId);
  }

  lemma {:induction false} SaveKeepsDisk(log: seq<Event>, s: State, e: Event)
    requires BootInv(log, s) && s.call.Active? && s.call.pc.Saving? && e.Save? && SaveStep(s, e.tx, e.now, e.err).Some?
    ensures forall k :: k in SaveStep(s, e.tx, e.now, e.err).value.disk ==>
              var tx := SaveStep(s, e.tx, e.now, e.err).value.disk[k];
              Reloaded(tx.request) == tx.request && Anchored(log + [e], s.boot, tx)
  {
    var tx := s.call.tx;
    forall k | k in s.disk ensures Anchored(log + [e], s.boot, s.disk[k]) { AnchorGrows(log, e, s.boot, s.disk[k]); }
    if s.call.pc != Saving(true, FirstReboot) { AnchorGrows(log, e, s.boot, tx); }
    else if e.err == None { SaveAnchors(log, s.boot, tx, e.now); }
  }

  lemma {:induction false} SaveKeepsCall(log: seq<Event>, s: State, e: Event)
    requires BootInv(log, s) && s.call.Active? && s.call.pc.Saving? && e.Save? && SaveStep(s, e.tx, e.now, e.err).Some?
    ensures CallAnchored(log + [e], s.boot, SaveStep(s, e.tx, e.now, e.err).value.call)
  {
    var tx := s.call.tx;
    if s.call.pc != Saving(true, FirstReboot) { AnchorGrows(log, e, s.boot, tx); }
    else if e.err == None { SaveAnchors(log, s.boot, tx, e.now); }
  }

  lemma {:induction false} PreflightAnchored(log: seq<Event>, boot: string, a: Adapter, tx: Transaction, pc: Pc,
                                             e: Event)
    requires PreflightPoint(pc) && Anchored(log, boot, tx) && PreflightStep(a, tx, pc, e).Some?
    ensures CallAnchored(log, boot, PreflightStep(a, tx, pc, e).value)
  {}

  lemma {:induction false} InstallAnchored(log: seq<Event>, boot: string, a: Adapter, tx: Transaction, pc: Pc, e: Event)
    requires InstallPoint(pc) && Anchored(log, boot, tx) && InstallStep(a, tx, pc, e).Some?
    ensures CallAnchored(log, boot, InstallStep(a, tx, pc, e).value)
  {}

  lemma {:induction false} AskAnchored(log: seq<Event>, boot: string, a: Adapter, tx: Transaction, pc: Pc, e: Event)
    requires (pc.AskingReboot? || pc.BootForReboot? || pc.Requesting?) && Anchored(log, boot, tx) && Last(log, 0, e)
    requires RebootStep(boot, a, tx, pc, e).Some?
    ensures CallAnchored(log, boot, RebootStep(boot, a, tx, pc, e).value)
  {}

  lemma {:induction false} ResumeAnchored(log: seq<Event>, boot: string, a: Adapter, tx: Transaction, pc: Pc, e: Event)
    requires (pc.Resuming? || pc.Timing?) && CallAnchored(log, boot, Active(a, tx, pc)) && Last(log, 0, e)
    requires RebootStep(boot, a, tx, pc, e).Some?
    ensures CallAnchored(log, boot, RebootStep(boot, a, tx, pc, e).value)
  {}

  lemma {:induction false} ReadyGrows(log: seq<Event>, e: Event, j: int, boot: string, a: Adapter, r: Request)
    requires ReadyAt(log, j, boot, a, r)
    ensures ReadyAt(log + [e], j, boot, a, r)
  {
    RebootFactsGrow(log, e, r, "");
    if b :| b != boot && Rebooted(log, r, b) { RebootFactsGrow(log, e, r, b); }
  }

  lemma {:induction false} ConfirmingAnchored(log: seq<Event>, boot: string, a: Adapter, tx: Transaction, pc: Pc,
                                              e: Event)
    requires ConfirmingPoint(pc) && Anchored(log, boot, tx)
    requires pc.Health? ==> ReadyAt(log, |log| - 2, boot, a, Reloaded(tx.request))
    requires pc.Confirming? ==> ReadyAt(log, |log| - 3, boot, a, Reloaded(tx.request))
    requires ConfirmingStep(a, tx, pc, e).Some?
    ensures CallAnchored(log, boot, ConfirmingStep(a, tx, pc, e).value)
  {}

  lemma {:induction false} RollbackAnchored(log: seq<Event>, boot: string, a: Adapter, tx: Transaction, pc: Pc,
                                            e: Event)
    requires RollbackPoint(pc) && Anchored(log, boot, tx) && RollbackStep(boot, a, tx, pc, e).Some?
    ensures CallAnchored(log, boot, RollbackStep(boot, a, tx, pc, e).value)
  {}

  lemma {:induction false} EffectAnchored(log: seq<Event>, boot: string, a: Adapter, tx: Transaction, pc: Pc, e: Event)
    requires CallAnchored(log, boot, Active(a, tx, pc)) && Anchored(log + [e], boot, tx)
    requires CallStep(boot, a, tx, pc, e).Some?
    ensures CallAnchored(log + [e], boot, CallStep(boot, a, tx, pc, e).value)
  {
    if PreflightPoint(pc) { PreflightAnchored(log + [e], boot, a, tx, pc, e); }
    else if InstallPoint(pc) { InstallAnchored(log + [e], boot, a, tx, pc, e); }
    else if pc.Resuming? || pc.Timing? { ResumeAnchored(log + [e], boot, a, tx, pc, e); }
    else if RebootPoint(pc) { AskAnchored(log + [e], boot, a, tx, pc, e); }
    else if ConfirmingPoint(pc) {
      ReadyGrows(log, e, |log| - (if pc.Health? then 1 else if pc.Confirming? then 2 else 3), boot, a,
          Reloaded(tx.request));
      ConfirmingAnchored(log + [e], boot, a, tx, pc, e);
    }
    else { RollbackAnchored(log + [e], boot, a, tx, pc, e); }
  }

  lemma {:induction false} LoadAnchored(log: seq<Event>, boot: string, disk: map<string, Transaction>, r: Request,
                                        a: Adapter, outcome: LoadOutcome)
    requires (forall k :: k in disk ==> Anchored(log, boot, disk[k])) && AfterLoad(disk, r, a, outcome).Some?
    requires Last(log, 0, Load(outcome))
    ensures CallAnchored(log, boot, AfterLoad(disk, r, a, outcome).value)
  {}

  lemma {:induction false} StepKeepsBootInv(log: seq<Event>, s: State, e: Event)
    requires BootInv(log, s) && Step(s, e).Some?
    ensures BootInv(log + [e], Step(s, e).value)
  {
    if s.call.Active? && s.call.pc.Saving? && e.Save? {
      SaveKeepsDisk(log, s, e);
      SaveKeepsCall(log, s, e);
    } else {
      var t := Step(s, e).value;
      forall k | k in s.disk ensures Anchored(log + [e], t.boot, s.disk[k]) { AnchorGrows(log, e, s.boot, s.disk[k]); }
      if !e.Crash? && !e.Reboot? {
        if s.call.Active? {
          AnchorGrows(log, e, s.boot, s.call.tx);
          EffectAnchored(log, s.boot, s.call.adapter, s.call.tx, s.call.pc, e);
        } else if s.call.Loading? {
          LoadAnchored(log + [e], s.boot, s.disk, s.call.request, s.call.adapter, e.outcome);
        }
      }
    }
  }

  lemma {:induction false} RunBootInv(boot: string, log: seq<Event>)
    requires Run(NewDevice(boot), log).Some?
    ensures BootInv(log, Run(NewDevice(boot), log).value)
    decreases |log|
  {
    if log != [] {
      var before := log[..|log| - 1];
      RunBootInv(boot, before);
      StepKeepsBootInv(before, Run(NewDevice(boot), before).value, log[|log| - 1]);
      assert before + [log[|log| - 1]] == log;
    }
  }

  lemma {:induction false} CommitHappensAt(s: State, e: Event)
    requires e.Commit? && Step(s, e).Some?
    ensures s.call.Active? && s.call.pc.Committing? && e.request == s.call.tx.request && e.adapter == s.call.adapter
  {}

  lemma {:induction false} SameWireRequested(log: seq<Event>, q: Request, r: Request, b: string)
    requires SameWire(q, r)
    ensures Requested(log, q, b) ==> Requested(log, r, b)
    ensures Rebooted(log, q, b) ==> Rebooted(log, r, b)
  {
    forall i: nat | RequestedAt(log, i, q, b) ensures RequestedAt(log, i, r, b) {}
  }

  lemma {:induction false} SameWireReady(log: seq<Event>, j: int, boot: string, a: Adapter, q: Request, r: Request)
    requires SameWire(q, r) && ReadyAt(log, j, boot, a, q)
    ensures ReadyAt(log, j, boot, a, r)
  {
    SameWireRequested(log, q, r, "");
    if b :| b != boot && Rebooted(log, q, b) { SameWireRequested(log, q, r, b); }
  }

  lemma {:induction false} CommittingIsReady(boot: string, log: seq<Event>, s: State, e: Event, j: int)
    requires Run(NewDevice(boot), log) == Some(s) && e.Commit? && Step(s, e).Some? && j == |log| - 3
    ensures ReadyAt(log, j, s.boot, e.adapter, e.request)
  {
    RunBootInv(boot, log);
    CommitHappensAt(s, e);
    SameWireReady(log, |log| - 3, s.boot, e.adapter, Reloaded(e.request), e.request);
  }

  /** Every commit, in every run of any device: the device was found ready for it just before its health was
      checked, either because the adapter that commits wants no reboot, or after a reboot since the one that
      was asked for was persisted, or because a boot id could not be read, when the reboot was asked for or now. */
  lemma {:induction false} EveryCommitIsAccountedFor(boot: string, log: seq<Event>, i: nat)
    requires Run(NewDevice(boot), log).Some?
    requires i < |log| && log[i].Commit?
    ensures ReadyAt(log[..i], i - 3, StateAt(NewDevice(boot), log, i).boot, log[i].adapter, log[i].request)
  {
    CommittingIsReady(boot, log[..i], StateAt(NewDevice(boot), log, i), log[i], i - 3);
  }

  /** The boot id could be read when a reboot was asked for in an update of `r`, and in the delivery that
      event `i` belongs to, when it was resumed. */
  ghost predicate BootIdsRead(log: seq<Event>, i: nat, r: Request) {
    i <= |log| && !Requested(log[..i], r, "") && (i >= 3 ==> log[i - 3] != ReadBootId(""))
  }

  /** When the boot ids of an update could be read, it is committed only by an adapter that wants no reboot, or
      on a boot other than the one that persisted its reboot request, with a reboot in between. What other
      updates did does not matter. */
  lemma {:induction false} CommitOnlyOnANewBoot(boot: string, log: seq<Event>, i: nat)
    requires Run(NewDevice(boot), log).Some?
    requires i < |log| && log[i].Commit? && BootIdsRead(log, i, log[i].request)
    ensures || (i >= 3 && log[i - 3] == AskReboot(log[i].adapter, false)
                && (log[i].adapter.plugin || log[i].adapter.name == Flatpak))
            || (exists b :: b != StateAt(NewDevice(boot), log, i).boot && Rebooted(log[..i], log[i].request, b))
  {
    EveryCommitIsAccountedFor(boot, log, i);
  }
}
