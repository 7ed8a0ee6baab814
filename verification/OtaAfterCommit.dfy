/** What can still happen to an update whose commit was not recorded: it may even be rolled back. */
module OtaAfterCommit {
  import opened Text
  import opened OtaTypes
  import opened OtaMachine
  import opened OtaSafety
  import opened OtaTerminal

  ghost predicate RollsBack(boot: string, log: seq<Event>, k: string, more: seq<Event>) {
    && Run(NewDevice(boot), log + more).Some?
    && exists i: nat :: i < |more| && more[i].Rollback? && Key(more[i].request) == k
  }

  /** Some continuation of the run rolls back the update of file `k`. */
  ghost predicate RollbackMayFollow(boot: string, log: seq<Event>, k: string) {
    exists more: seq<Event> :: RollsBack(boot, log, k, more)
  }

  /** A delivery that resumes a transaction waiting to be confirmed, and finds the device unhealthy. */
  function FailHealth(a: Adapter, tx: Transaction): seq<Event> {
    [Begin(tx.request, Ready(a)), Load(Found(tx))]
    + (Asks(a, tx) + [HealthCheck(Some("")), Rollback(a, tx.request, tx.previousVersion, None)])
  }

  lemma {:induction false} UnhealthyRollsBack(s: State)
    requires s.call.Active? && s.call.pc.Health? && !BeforeInstall(s.call.tx.phase)
    ensures var a, tx := s.call.adapter, s.call.tx;
            Run(s, [HealthCheck(Some("")), Rollback(a, tx.request, tx.previousVersion, None)]).Some?
  {
    var a, tx := s.call.adapter, s.call.tx;
    TwoSteps(s, HealthCheck(Some("")), Rollback(a, tx.request, tx.previousVersion, None));
  }

  lemma {:induction false} FailsHealth(s: State, a: Adapter, tx: Transaction)
    requires s.call.Idle? && Key(tx.request) in s.disk && s.disk[Key(tx.request)] == tx
    requires a.name == tx.request.adapter
    requires (tx.phase.Activated? && a.MayAnswerReboot(false)) || tx.phase.RebootRequested?
    ensures Run(s, FailHealth(a, tx)).Some?
  {
    var t, u := s.(call := Resume(a, tx.request, tx)), s.(call := Active(a, tx, Health));
    Resumed(s, a, tx);
    AsksThenChecks(s, a, tx);
    UnhealthyRollsBack(u);
    Chained(s, [Begin(tx.request, Ready(a)), Load(Found(tx))], Asks(a, tx),
            [HealthCheck(Some("")), Rollback(a, tx.request, tx.previousVersion, None)], t, u);
  }

  lemma {:induction false} CanRollBackFrom(t: State, r: Request) returns (more: seq<Event>)
    requires t.call.Idle? || t.call.Finishing?
    requires RecordedIn(t.disk, r, Activated) || RecordedIn(t.disk, r, RebootRequested)
    ensures Run(t, more).Some? && more != [] && more[|more| - 1].Rollback? && Key(more[|more| - 1].request) == Key(r)
  {
    FinishCall(t);
    var back: seq<Event> :| Run(t, back) == Some(t.(call := Idle));
    var tx, a := t.disk[Key(r)], Adapter(r.adapter, true);
    FailsHealth(t.(call := Idle), a, tx);
    RunConcat(t, back, FailHealth(a, tx));
    more := back + FailHealth(a, tx);
    assert more[|more| - 1] == Rollback(a, tx.request, tx.previousVersion, None);
  }

  lemma {:induction false} UnrecordedCommitRollsBack(boot: string, log: seq<Event>, c: Event, e: Event)
    requires Run(NewDevice(boot), log + [c] + [e]).Some? && c.Commit? && c.err == None
    requires !(e.Save? && e.err == None)
    ensures RollbackMayFollow(boot, log + [c] + [e], Key(c.request))
  {
    var s0 := NewDevice(boot);
    assert (log + [c] + [e])[..|log| + 1] == log + [c];
    ReadyToCommit(boot, log, c);
    var s := Run(s0, log).value;
    Snoc(s0, log, c);
    Snoc(s0, log + [c], e);
    Interrupted(s, c, e);
    var more := CanRollBackFrom(Run(s0, log + [c] + [e]).value, c.request);
    RunConcat(s0, log + [c] + [e], more);
    assert RollsBack(boot, log + [c] + [e], Key(c.request), more);
  }

  lemma {:induction false} RecordedCommitStays(boot: string, log: seq<Event>, e: Event, more: seq<Event>)
    requires log != [] && log[|log| - 1].Commit? && log[|log| - 1].err == None && e.Save? && e.err == None
    requires Run(NewDevice(boot), log + [e] + more).Some?
    ensures !RollsBack(boot, log + [e], Key(log[|log| - 1].request), more)
  {
    var whole := log + [e] + more;
    forall i: nat | i < |more| ensures !(more[i].Rollback? && Key(more[i].request) == Key(log[|log| - 1].request)) {
      NothingAfterRecordedCommit(boot, whole, |log| - 1, |log| + 1 + i);
      assert whole[|log| + 1 + i] == more[i];
    }
  }

  /** When an update that was committed may yet be rolled back: exactly when the event right after the commit is
      not a successful save of the completed transaction. */
  lemma {:induction false} RollbackFollowsExactlyWhenUnrecorded(boot: string, log: seq<Event>, e: Event)
    requires log != [] && Run(NewDevice(boot), log + [e]).Some?
    requires log[|log| - 1].Commit? && log[|log| - 1].err == None
    ensures RollbackMayFollow(boot, log + [e], Key(log[|log| - 1].request)) <==> !(e.Save? && e.err == None)
  {
    if e.Save? && e.err == None {
      forall more: seq<Event> | Run(NewDevice(boot), log + [e] + more).Some?
        ensures !RollsBack(boot, log + [e], Key(log[|log| - 1].request), more)
      {
        RecordedCommitStays(boot, log, e, more);
      }
    } else {
      assert log == log[..|log| - 1] + [log[|log| - 1]];
      UnrecordedCommitRollsBack(boot, log[..|log| - 1], log[|log| - 1], e);
    }
  }
}
