/** How soon an update ends: at most six deliveries, whether or not the device ever reboots. */
module OtaProgress {
  import opened Text
  import opened OtaTypes
  import opened OtaMachine
  import opened OtaTerminal

  /** How many deliveries an update in this phase may still need. */
  function Budget(tx: Transaction): int {
    if Terminal(tx.phase) then 0
    else if tx.phase.RollbackRebootRequested? then 4 - tx.rebootAttempts
    else if tx.phase.RebootRequested? then 5 - tx.rebootAttempts
    else 6
  }

  function BudgetAt(disk: map<string, Transaction>, k: string): int {
    if k in disk then Budget(disk[k]) else 6
  }

  /** A file that an engine wrote for `r`. */
  predicate Resumable(disk: map<string, Transaction>, r: Request) {
    Key(r) in disk ==>
      var tx := disk[Key(r)];
      && tx.request == r && !tx.phase.Unknown?
      && 0 <= tx.rebootAttempts <= MAX_REBOOT_REQUESTS
      && (Early(tx.phase) ==> tx.rebootAttempts == 0)
  }

  /** An event of a delivery that goes undisturbed: files can be read and written, and two minutes
      have passed since the file was last written. */
  predicate Undisturbed(e: Event, writtenAt: int) {
    && !e.Crash? && !e.Reboot?
    && (e.Save? ==> e.err == None)
    && (e.Load? ==> !e.outcome.Unreadable?)
    && (e.ReadClock? ==> e.now - writtenAt >= RETRY_AFTER)
  }

  /** What a delivery that began with `budget` keeps true of the transaction it holds. */
  predicate OnBudget(budget: int, disk: map<string, Transaction>, r: Request, writtenAt: int, c: Call) {
    match c
    case Idle => budget == 0 || BudgetAt(disk, Key(r)) < budget
    case Finishing(_) => budget == 0 || BudgetAt(disk, Key(r)) < budget
    case Loading(q, _) => q == r && BudgetAt(disk, Key(r)) == budget
    case Active(_, tx, pc) =>
      && tx.request == r && !tx.phase.Unknown?
      && 0 <= tx.rebootAttempts <= MAX_REBOOT_REQUESTS && budget > 0
      && match pc {
        case Saving(_, next) =>
          (if next.Continue? then Early(tx.phase) && tx.rebootAttempts == 0 && budget == 6
           else !Early(tx.phase) && Budget(tx) < budget)
          && (next.FirstReboot? ==> tx.phase.RebootRequested? && tx.rebootAttempts == 0 && budget == 6)
          && (next.RollbackReboot? ==> tx.phase.RollbackRebootRequested?)
        case Requesting(FirstReboot) =>
          tx.phase.RebootRequested? && tx.rebootAttempts == 0 && budget == 6 && BudgetAt(disk, Key(r)) < budget
        case Requesting(RollbackReboot) => tx.phase.RollbackRebootRequested? && BudgetAt(disk, Key(r)) < budget
        case Requesting(_) => BudgetAt(disk, Key(r)) < budget
        case Resuming => WaitsForReboot(tx) && budget == Budget(tx) && tx.updatedAt == writtenAt
        case Timing => WaitsForReboot(tx) && budget == Budget(tx) && tx.updatedAt == writtenAt
        case Health => MayCommit(tx, budget)
        case Confirming => MayCommit(tx, budget)
        case Committing => MayCommit(tx, budget)
        case RollingBack(_, _) => 4 - tx.rebootAttempts < budget
        case AskingRollbackReboot(_, _) => 4 - tx.rebootAttempts < budget
        case BootForRollback => 4 - tx.rebootAttempts < budget
        case Removing => BudgetAt(disk, Key(r)) < budget
        case _ =>
          && Early(tx.phase) && tx.rebootAttempts == 0 && budget == 6
          && (pc.AskingReboot? || pc.BootForReboot? ==> tx.phase.Activated?)
      }
  }

  predicate WaitsForReboot(tx: Transaction) {
    tx.phase.RebootRequested? || tx.phase.RollbackRebootRequested?
  }

  predicate MayCommit(tx: Transaction, budget: int) {
    && (tx.phase.Activated? || tx.phase.RebootRequested?)
    && 4 - tx.rebootAttempts < budget
  }

  lemma {:induction false} VersionOnBudget(b: int, disk: map<string, Transaction>, a: Adapter, tx: Transaction,
                                           w: int, e: Event)
    requires OnBudget(b, disk, tx.request, w, Active(a, tx, Preflight)) && PreflightStep(a, tx, Preflight, e).Some?
    ensures var c := PreflightStep(a, tx, Preflight, e).value; OnBudget(b, disk, tx.request, w, c) && !c.Loading?
  {}

  lemma {:induction false} PreflightOnBudget(b: int, disk: map<string, Transaction>, a: Adapter, tx: Transaction,
                                             pc: Pc, w: int, e: Event)
    requires PreflightPoint(pc) && OnBudget(b, disk, tx.request, w, Active(a, tx, pc)) && Undisturbed(e, w)
    requires PreflightStep(a, tx, pc, e).Some?
    ensures var c := PreflightStep(a, tx, pc, e).value; OnBudget(b, disk, tx.request, w, c) && !c.Loading?
  {
    if pc.Preflight? { VersionOnBudget(b, disk, a, tx, w, e); }
  }

  lemma {:induction false} VerifyOnBudget(b: int, disk: map<string, Transaction>, a: Adapter, tx: Transaction,
                                          pc: Pc, w: int, e: Event)
    requires (pc.VerifyingArtifact? || pc.VerifyingSignature? || pc.Checking?)
    requires OnBudget(b, disk, tx.request, w, Active(a, tx, pc)) && Undisturbed(e, w)
    requires InstallStep(a, tx, pc, e).Some?
    ensures var c := InstallStep(a, tx, pc, e).value; OnBudget(b, disk, tx.request, w, c) && !c.Loading?
  {}

  lemma {:induction false} InstallOnBudget(b: int, disk: map<string, Transaction>, a: Adapter, tx: Transaction,
                                           pc: Pc, w: int, e: Event)
    requires (pc.Installing? || pc.Activating?) && OnBudget(b, disk, tx.request, w, Active(a, tx, pc))
    requires Undisturbed(e, w)
    requires InstallStep(a, tx, pc, e).Some?
    ensures var c := InstallStep(a, tx, pc, e).value; OnBudget(b, disk, tx.request, w, c) && !c.Loading?
  {}

  lemma {:induction false} AskOnBudget(b: int, disk: map<string, Transaction>, boot: string, a: Adapter,
                                       tx: Transaction, pc: Pc, w: int, e: Event)
    requires (pc.AskingReboot? || pc.BootForReboot? || pc.Requesting?)
    requires OnBudget(b, disk, tx.request, w, Active(a, tx, pc)) && Undisturbed(e, w)
    requires RebootStep(boot, a, tx, pc, e).Some?
    ensures var c := RebootStep(boot, a, tx, pc, e).value; OnBudget(b, disk, tx.request, w, c) && !c.Loading?
  {}

  lemma {:induction false} ResumeOnBudget(b: int, disk: map<string, Transaction>, boot: string, a: Adapter,
                                          tx: Transaction, pc: Pc, w: int, e: Event)
    requires (pc.Resuming? || pc.Timing?) && OnBudget(b, disk, tx.request, w, Active(a, tx, pc)) && Undisturbed(e, w)
    requires RebootStep(boot, a, tx, pc, e).Some?
    ensures var c := RebootStep(boot, a, tx, pc, e).value; OnBudget(b, disk, tx.request, w, c) && !c.Loading?
  {}

  lemma {:induction false} ConfirmingOnBudget(b: int, disk: map<string, Transaction>, a: Adapter, tx: Transaction,
                                              pc: Pc, w: int, e: Event)
    requires ConfirmingPoint(pc) && OnBudget(b, disk, tx.request, w, Active(a, tx, pc)) && Undisturbed(e, w)
    requires ConfirmingStep(a, tx, pc, e).Some?
    ensures var c := ConfirmingStep(a, tx, pc, e).value; OnBudget(b, disk, tx.request, w, c) && !c.Loading?
  {}

  lemma {:induction false} RollbackOnBudget(b: int, disk: map<string, Transaction>, boot: string, a: Adapter,
                                            tx: Transaction, pc: Pc, w: int, e: Event)
    requires RollbackPoint(pc) && OnBudget(b, disk, tx.request, w, Active(a, tx, pc)) && Undisturbed(e, w)
    requires RollbackStep(boot, a, tx, pc, e).Some?
    ensures var c := RollbackStep(boot, a, tx, pc, e).value; OnBudget(b, disk, tx.request, w, c) && !c.Loading?
  {}

  lemma {:induction false} EffectOnBudget(b: int, disk: map<string, Transaction>, boot: string, a: Adapter,
                                          tx: Transaction, pc: Pc, w: int, e: Event)
    requires OnBudget(b, disk, tx.request, w, Active(a, tx, pc)) && Undisturbed(e, w)
    requires CallStep(boot, a, tx, pc, e).Some?
    ensures var c := CallStep(boot, a, tx, pc, e).value; OnBudget(b, disk, tx.request, w, c) && !c.Loading?
  {
    if PreflightPoint(pc) { PreflightOnBudget(b, disk, a, tx, pc, w, e); }
    else if pc.Installing? || pc.Activating? { InstallOnBudget(b, disk, a, tx, pc, w, e); }
    else if InstallPoint(pc) { VerifyOnBudget(b, disk, a, tx, pc, w, e); }
    else if pc.Resuming? || pc.Timing? { ResumeOnBudget(b, disk, boot, a, tx, pc, w, e); }
    else if RebootPoint(pc) { AskOnBudget(b, disk, boot, a, tx, pc, w, e); }
    else if ConfirmingPoint(pc) { ConfirmingOnBudget(b, disk, a, tx, pc, w, e); }
    else { RollbackOnBudget(b, disk, boot, a, tx, pc, w, e); }
  }

  lemma {:induction false} SaveKeepsResumable(b: int, s: State, r: Request, w: int, e: Event)
    requires OnBudget(b, s.disk, r, w, s.call) && s.call.Active? && s.call.pc.Saving?
    requires Reloaded(r) == r
    requires e.Save? && e.err == None && SaveStep(s, e.tx, e.now, e.err).Some?
    ensures var t := SaveStep(s, e.tx, e.now, e.err).value;
            Resumable(t.disk, r) && BudgetAt(t.disk, Key(r)) == Budget(s.call.tx) && !t.call.Loading?
  {
    var tx := s.call.tx;
    assert e.tx == tx && SaveStep(s, e.tx, e.now, e.err).value.disk[Key(r)] == Stored(tx, e.now);
    assert Budget(Stored(tx, e.now)) == Budget(tx);
  }

  lemma {:induction false} SaveOnBudget(b: int, s: State, r: Request, w: int, e: Event)
    requires OnBudget(b, s.disk, r, w, s.call) && s.call.Active? && s.call.pc.Saving?
    requires Reloaded(r) == r && Resumable(s.disk, r)
    requires e.Save? && e.err == None && SaveStep(s, e.tx, e.now, e.err).Some?
    ensures var t := SaveStep(s, e.tx, e.now, e.err).value;
            OnBudget(b, t.disk, r, w, t.call) && Resumable(t.disk, r) && !t.call.Loading?
  {
    SaveKeepsResumable(b, s, r, w, e);
  }

  lemma {:induction false} LoadOnBudget(b: int, disk: map<string, Transaction>, r: Request, a: Adapter, w: int,
                                        outcome: LoadOutcome)
    requires BudgetAt(disk, Key(r)) == b && Resumable(disk, r) && (Key(r) in disk ==> disk[Key(r)].updatedAt == w)
    requires AfterLoad(disk, r, a, outcome).Some? && !outcome.Unreadable?
    ensures OnBudget(b, disk, r, w, AfterLoad(disk, r, a, outcome).value)
            && !AfterLoad(disk, r, a, outcome).value.Loading?
  {}

  lemma {:induction false} StepOnBudget(b: int, s: State, r: Request, w: int, e: Event)
    requires OnBudget(b, s.disk, r, w, s.call) && Reloaded(r) == r && Resumable(s.disk, r)
    requires s.call.Loading? && Key(r) in s.disk ==> s.disk[Key(r)].updatedAt == w
    requires Step(s, e).Some? && Undisturbed(e, w) && !e.Begin?
    ensures var t := Step(s, e).value; OnBudget(b, t.disk, r, w, t.call) && Resumable(t.disk, r) && !t.call.Loading?
  {
    if s.call.Active? {
      if s.call.pc.Saving? { SaveOnBudget(b, s, r, w, e); }
      else { EffectOnBudget(b, s.disk, s.boot, s.call.adapter, s.call.tx, s.call.pc, w, e); }
    } else if s.call.Loading? { LoadOnBudget(b, s.disk, r, s.call.adapter, w, e.outcome); }
  }

  // ---------- deliveries ----------

  function WrittenAt(s: State, r: Request): int {
    if Key(r) in s.disk then s.disk[Key(r)].updatedAt else 0
  }

  /** One delivery of `r` that ends with a reply and is not disturbed. */
  ghost predicate Serves(s: State, a: Adapter, log: seq<Event>, r: Request) {
    && s.call.Idle? && log != [] && log[0] == Begin(r, Ready(a))
    && Run(s, log).Some? && Run(s, log).value.call.Idle?
    && (forall i :: 1 <= i < |log| ==> !log[i].Begin? && Undisturbed(log[i], WrittenAt(s, r)))
  }

  lemma {:induction false} DeliveryOnBudget(s: State, a: Adapter, log: seq<Event>, r: Request)
    requires s.call.Idle? && log != [] && log[0] == Begin(r, Ready(a)) && Run(s, log).Some?
    requires forall i :: 1 <= i < |log| ==> !log[i].Begin? && Undisturbed(log[i], WrittenAt(s, r))
    requires Reloaded(r) == r && Resumable(s.disk, r)
    ensures var t, b := Run(s, log).value, BudgetAt(s.disk, Key(r));
            && Resumable(t.disk, r) && OnBudget(b, t.disk, r, WrittenAt(s, r), t.call)
            && (t.call.Loading? ==> t.disk == s.disk)
    decreases |log|
  {
    var b, w, before := BudgetAt(s.disk, Key(r)), WrittenAt(s, r), log[..|log| - 1];
    if |log| == 1 {
      assert before == [];
    } else {
      assert before[0] == log[0];
      DeliveryOnBudget(s, a, before, r);
      StepOnBudget(b, Run(s, before).value, r, w, log[|log| - 1]);
    }
  }

  lemma {:induction false} BudgetSign(disk: map<string, Transaction>, r: Request)
    requires Resumable(disk, r)
    ensures BudgetAt(disk, Key(r)) >= 0
    ensures BudgetAt(disk, Key(r)) == 0 <==> Key(r) in disk && Terminal(disk[Key(r)].phase)
  {}

  /** An undisturbed delivery of an unfinished update brings its end nearer, whatever the adapter,
      the health check and the reboot command answer. */
  lemma {:induction false} DeliveryMakesProgress(s: State, a: Adapter, log: seq<Event>, r: Request)
    requires Serves(s, a, log, r) && Reloaded(r) == r && Resumable(s.disk, r)
    ensures var t, k := Run(s, log).value, Key(r);
            && Resumable(t.disk, r)
            && (BudgetAt(s.disk, k) > 0 ==> BudgetAt(t.disk, k) < BudgetAt(s.disk, k))
            && (BudgetAt(s.disk, k) == 0 ==> k in s.disk && k in t.disk && t.disk[k] == s.disk[k])
  {
    DeliveryOnBudget(s, a, log, r);
    BudgetSign(s.disk, r);
    if BudgetAt(s.disk, Key(r)) == 0 { TerminalIsForever(s, log, Key(r)); }
  }

  /** The deliveries of one update, each on the boot the device then has. */
  datatype Delivery = Delivery(boot: string, adapter: Adapter, log: seq<Event>)

  ghost predicate ServesAll(s: State, ds: seq<Delivery>, r: Request)
    decreases |ds|
  {
    ds == [] ||
    var here := s.(boot := ds[0].boot);
    Serves(here, ds[0].adapter, ds[0].log, r) && ServesAll(Run(here, ds[0].log).value, ds[1..], r)
  }

  ghost function Served(s: State, ds: seq<Delivery>, r: Request): State
    requires ServesAll(s, ds, r)
    decreases |ds|
  {
    if ds == [] then s else Served(Run(s.(boot := ds[0].boot), ds[0].log).value, ds[1..], r)
  }

  lemma {:induction false} BudgetRunsOut(s: State, ds: seq<Delivery>, r: Request)
    requires ServesAll(s, ds, r) && Reloaded(r) == r && Resumable(s.disk, r)
    ensures var t := Served(s, ds, r);
            Resumable(t.disk, r) && (BudgetAt(t.disk, Key(r)) <= BudgetAt(s.disk, Key(r)) - |ds|
                || BudgetAt(t.disk, Key(r)) == 0)
    decreases |ds|
  {
    if ds != [] {
      var here := s.(boot := ds[0].boot);
      DeliveryMakesProgress(here, ds[0].adapter, ds[0].log, r);
      var next := Run(here, ds[0].log).value;
      BudgetRunsOut(next, ds[1..], r);
      BudgetSign(s.disk, r);
      BudgetSign(Served(next, ds[1..], r).disk, r);
    }
  }

  /** Six undisturbed deliveries finish any update that the same request can resume: it has completed,
      was rolled back, or the rollback failed; the device need not reboot for that. */
  lemma {:induction false} SixDeliveriesFinish(s: State, ds: seq<Delivery>, r: Request)
    requires ServesAll(s, ds, r) && Reloaded(r) == r && Resumable(s.disk, r)
    requires |ds| >= 6
    ensures var disk := Served(s, ds, r).disk; Key(r) in disk && Terminal(disk[Key(r)].phase)
  {
    BudgetRunsOut(s, ds, r);
    BudgetSign(Served(s, ds, r).disk, r);
  }
}
