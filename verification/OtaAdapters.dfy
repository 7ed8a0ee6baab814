/** Whether the adapter that installs an update is the one that had it checked: adapters are resolved anew
    on every delivery, and a plugin may come or go between two of them. */
module OtaAdapters {
  import opened Text
  import opened OtaTypes
  import opened OtaMachine
  import opened OtaSafety

  // ---------- where adapters come from ----------

  predicate StartedAt(log: seq<Event>, i: nat, a: Adapter) {
    i < |log| && log[i].Begin? && log[i].gate == Ready(a)
  }

  ghost predicate Started(log: seq<Event>, a: Adapter) {
    exists i: nat :: StartedAt(log, i, a)
  }

  predicate SameAdapter(c: Call, a: Adapter) {
    (c.Active? ==> c.adapter == a) && !c.Loading?
  }

  lemma {:induction false} PreflightSameAdapter(a: Adapter, tx: Transaction, pc: Pc, e: Event)
    requires PreflightPoint(pc) && PreflightStep(a, tx, pc, e).Some?
    ensures SameAdapter(PreflightStep(a, tx, pc, e).value, a)
  {}

  lemma {:induction false} InstallSameAdapter(a: Adapter, tx: Transaction, pc: Pc, e: Event)
    requires InstallPoint(pc) && InstallStep(a, tx, pc, e).Some?
    ensures SameAdapter(InstallStep(a, tx, pc, e).value, a)
  {}

  lemma {:induction false} LaterSameAdapter(boot: string, a: Adapter, tx: Transaction, pc: Pc, e: Event)
    requires !PreflightPoint(pc) && !InstallPoint(pc) && CallStep(boot, a, tx, pc, e).Some?
    ensures SameAdapter(CallStep(boot, a, tx, pc, e).value, a)
  {}

  lemma {:induction false} StepSameAdapter(s: State, e: Event)
    requires Step(s, e).Some? && s.call.Active?
    ensures SameAdapter(Step(s, e).value.call, s.call.adapter)
  {
    if !e.Crash? && !e.Reboot? && !s.call.pc.Saving? {
      var a, tx, pc := s.call.adapter, s.call.tx, s.call.pc;
      if PreflightPoint(pc) { PreflightSameAdapter(a, tx, pc, e); }
      else if InstallPoint(pc) { InstallSameAdapter(a, tx, pc, e); }
      else { LaterSameAdapter(s.boot, a, tx, pc, e); }
    }
  }

  ghost predicate FromBegin(log: seq<Event>, c: Call) {
    c.Active? || c.Loading? ==> Started(log, c.adapter)
  }

  lemma {:induction false} StartedGrows(log: seq<Event>, e: Event, a: Adapter)
    requires Started(log, a)
    ensures Started(log + [e], a)
  {
    var i: nat :| StartedAt(log, i, a);
    assert StartedAt(log + [e], i, a);
  }

  lemma {:induction false} StepFromBegin(log: seq<Event>, s: State, e: Event)
    requires FromBegin(log, s.call) && Step(s, e).Some?
    ensures FromBegin(log + [e], Step(s, e).value.call)
  {
    if s.call.Active? {
      StepSameAdapter(s, e);
      StartedGrows(log, e, s.call.adapter);
    } else if s.call.Loading? {
      StartedGrows(log, e, s.call.adapter);
    } else if e.Begin? && e.gate.Ready? {
      assert StartedAt(log + [e], |log|, e.gate.adapter);
    }
  }

  lemma {:induction false} RunFromBegin(boot: string, log: seq<Event>)
    requires Run(NewDevice(boot), log).Some?
    ensures FromBegin(log, Run(NewDevice(boot), log).value.call)
    decreases |log|
  {
    if log != [] {
      var before := log[..|log| - 1];
      RunFromBegin(boot, before);
      StepFromBegin(before, Run(NewDevice(boot), before).value, log[|log| - 1]);
      assert before + [log[|log| - 1]] == log;
    }
  }

  // ---------- the adapters of checks and installations ----------

  predicate PassedAt(log: seq<Event>, j: nat, r: Request, artifact: string) {
    j < |log| && log[j].Check? && log[j].err == None && SameWire(log[j].request, r) && log[j].artifact == artifact
  }

  /** The artifact's digest and signature were verified right before the check. */
  predicate VerifiedAt(log: seq<Event>, j: nat, r: Request, artifact: string) {
    PassedAt(log, j, r, artifact) && j > 0 && log[j - 1] == VerifyArtifact(artifact, log[j].request, None)
  }

  lemma {:induction false} ActsAt(s: State, e: Event)
    requires (e.Check? || e.Install? || e.VerifyArtifact?) && Step(s, e).Some?
    ensures s.call.Active? && e.request == s.call.tx.request
    ensures e.Check? ==> s.call.pc.Checking? && e.adapter == s.call.adapter && e.artifact == s.call.tx.artifactPath
    ensures e.Install? ==> s.call.pc.Installing? && e.adapter == s.call.adapter
    ensures e.VerifyArtifact? ==> s.call.pc.VerifyingArtifact?
  {}

  lemma {:induction false} CallIsJustified(boot: string, past: seq<Event>, s: State)
    requires Run(NewDevice(boot), past) == Some(s) && s.call.Active?
    ensures PointJustified(Past(past), past, s.call.adapter, s.call.tx, s.call.pc)
    ensures s.call.adapter.name == s.call.tx.request.adapter
  {
    RunInv(boot, past);
    assert CallJustified(Past(past), past, s.call);
  }

  lemma {:induction false} ActorAt(boot: string, past: seq<Event>, s: State, e: Event)
    requires Run(NewDevice(boot), past) == Some(s) && Step(s, e).Some?
    requires e.Check? || e.Install?
    ensures e.adapter.name == e.request.adapter && Started(past, e.adapter)
  {
    ActsAt(s, e);
    CallIsJustified(boot, past, s);
    RunFromBegin(boot, past);
  }

  lemma {:induction false} ActorIs(boot: string, log: seq<Event>, j: nat)
    requires Run(NewDevice(boot), log).Some? && j < |log| && (log[j].Check? || log[j].Install?)
    ensures log[j].adapter.name == log[j].request.adapter && Started(log[..j], log[j].adapter)
  {
    ActorAt(boot, log[..j], StateAt(NewDevice(boot), log, j), log[j]);
  }

  lemma {:induction false} CheckingJustified(f: Facts, past: seq<Event>, a: Adapter, tx: Transaction)
    requires PointJustified(f, past, a, tx, Checking) && NeedsArtifact(a, tx.request)
    ensures Last(past, 0, VerifyArtifact(tx.artifactPath, tx.request, None))
  {}

  lemma {:induction false} CheckFollows(boot: string, past: seq<Event>, s: State, e: Event)
    requires Run(NewDevice(boot), past) == Some(s) && Step(s, e).Some? && e.Check?
             && NeedsArtifact(e.adapter, e.request)
    ensures Last(past, 0, VerifyArtifact(e.artifact, e.request, None))
  {
    ActsAt(s, e);
    CallIsJustified(boot, past, s);
    CheckingJustified(Past(past), past, s.call.adapter, s.call.tx);
  }

  /** A check by an adapter that needs an artifact comes right after the artifact was verified. */
  lemma {:induction false} CheckAfterVerification(boot: string, log: seq<Event>, j: nat, r: Request, artifact: string)
    requires Run(NewDevice(boot), log).Some? && PassedAt(log, j, r, artifact) && NeedsArtifact(log[j].adapter, r)
    ensures VerifiedAt(log, j, r, artifact)
  {
    CheckFollows(boot, log[..j], StateAt(NewDevice(boot), log, j), log[j]);
  }

  lemma {:induction false} VerifyingJustified(f: Facts, past: seq<Event>, a: Adapter, tx: Transaction)
    requires PointJustified(f, past, a, tx, VerifyingArtifact)
    ensures a.ArtifactRequired()
  {}

  lemma {:induction false} VerifierStep(boot: string, past: seq<Event>, s: State, v: Event, c: Event)
    requires Run(NewDevice(boot), past) == Some(s)
    requires v.VerifyArtifact? && c.Check? && Step(s, v).Some? && Step(Step(s, v).value, c).Some?
    ensures c.adapter.ArtifactRequired()
  {
    ActsAt(s, v);
    CallIsJustified(boot, past, s);
    VerifyingJustified(Past(past), past, s.call.adapter, s.call.tx);
    StepSameAdapter(s, v);
    ActsAt(Step(s, v).value, c);
  }

  /** Only adapters that need artifacts have them verified before the check. */
  lemma {:induction false} VerifierNeedsArtifact(boot: string, log: seq<Event>, j: nat)
    requires Run(NewDevice(boot), log).Some?
    requires 0 < j < |log| && log[j - 1].VerifyArtifact? && log[j].Check?
    ensures log[j].adapter.ArtifactRequired()
  {
    var s, t := StateAt(NewDevice(boot), log, j - 1), StateAt(NewDevice(boot), log, j);
    assert log[..j][..j - 1] == log[..j - 1];
    VerifierStep(boot, log[..j - 1], s, log[j - 1], log[j]);
  }

  lemma {:induction false} SignatureFollows(f: Facts, past: seq<Event>, a: Adapter, tx: Transaction)
    requires PointJustified(f, past, a, tx, Checking)
    ensures tx.request.adapter == OSTree && tx.request.ostreeRemote != "" ==>
            Last(past, 0, VerifySignature(tx.request, None))
    ensures !(tx.request.adapter == OSTree && tx.request.ostreeRemote != "") && a != BUILT_IN_FLATPAK ==>
              Last(past, 0, VerifyArtifact(tx.artifactPath, tx.request, None))
  {}

  lemma {:induction false} CheckComesAfter(boot: string, past: seq<Event>, s: State, e: Event)
    requires Run(NewDevice(boot), past) == Some(s) && Step(s, e).Some? && e.Check?
    ensures e.request.adapter == OSTree && e.request.ostreeRemote != "" ==>
            Last(past, 0, VerifySignature(e.request, None))
    ensures !(e.request.adapter == OSTree && e.request.ostreeRemote != "") && e.adapter != BUILT_IN_FLATPAK ==>
              Last(past, 0, VerifyArtifact(e.artifact, e.request, None))
  {
    ActsAt(s, e);
    CallIsJustified(boot, past, s);
    SignatureFollows(Past(past), past, s.call.adapter, s.call.tx);
  }

  /** What is verified before the native check: the release signature of an OSTree release from a remote, the
      artifact of every other one, except by the built-in flatpak adapter. */
  lemma {:induction false} WhatIsVerified(boot: string, log: seq<Event>, i: nat)
    requires Run(NewDevice(boot), log).Some? && i < |log| && log[i].Check?
    ensures var r := log[i].request;
            if r.adapter == OSTree && r.ostreeRemote != "" then i > 0 && log[i - 1] == VerifySignature(r, None)
            else log[i].adapter != Adapter(Flatpak, false) ==>
                i > 0 && log[i - 1] == VerifyArtifact(log[i].artifact, r, None)
  {
    CheckComesAfter(boot, log[..i], StateAt(NewDevice(boot), log, i), log[i]);
  }

  const BUILT_IN_FLATPAK := Adapter(Flatpak, false)

  /** Every delivery for this adapter name so far resolved it the same way. */
  predicate Unchanged(log: seq<Event>, name: AdapterName) {
    forall i, j :: 0 <= i < j < |log| && Resolves(log[i], name) && Resolves(log[j], name) ==>
      log[i].gate.adapter == log[j].gate.adapter
  }

  predicate Resolves(e: Event, name: AdapterName) {
    e.Begin? && e.gate.Ready? && e.gate.adapter.name == name
  }

  lemma {:induction false} OneAdapter(log: seq<Event>, a: Adapter, b: Adapter)
    requires Unchanged(log, a.name) && a.name == b.name && Started(log, a) && Started(log, b)
    ensures a == b
  {
    var i: nat :| StartedAt(log, i, a);
    var j: nat :| StartedAt(log, j, b);
    assert Resolves(log[i], a.name) && Resolves(log[j], a.name);
  }

  lemma {:induction false} StartedInPrefix(log: seq<Event>, j: nat, i: nat, a: Adapter)
    requires j <= i <= |log| && Started(log[..j], a)
    ensures Started(log[..i], a)
  {
    var m: nat :| StartedAt(log[..j], m, a);
    assert StartedAt(log[..i], m, a);
  }

  lemma {:induction false} SomeCheckPassed(log: seq<Event>, i: nat, r: Request, artifact: string) returns (j: nat)
    requires i <= |log| && Checked(log[..i], r, artifact)
    ensures j < i && CheckedAt(log, j, r, artifact) && PassedAt(log, j, r, artifact)
  {
    j :| CheckedAt(log[..i], j, r, artifact);
  }

  /** Unless a plugin came or went in between, an update is installed by the very adapter that had it checked,
      after all the verification that this adapter calls for. */
  lemma {:induction false} InstallerIsTheChecker(boot: string, log: seq<Event>, i: nat)
    requires Run(NewDevice(boot), log).Some? && i < |log| && log[i].Install?
    requires Unchanged(log[..i], log[i].request.adapter)
    ensures exists j: nat :: j < i && CheckedAt(log, j, log[i].request, log[i].artifact)
                                && log[j].adapter == log[i].adapter
  {
    InstallOnlyAfterChecks(boot, log, i);
    var j := SomeCheckPassed(log, i, log[i].request, log[i].artifact);
    ActorIs(boot, log, i);
    ActorIs(boot, log, j);
    StartedInPrefix(log, j, i, log[j].adapter);
    OneAdapter(log[..i], log[i].adapter, log[j].adapter);
  }

  /** An adapter that needs an artifact installs one whose digest and signature were never verified if and only
      if every check the artifact passed was made by the built-in flatpak adapter, which needs none. */
  lemma {:induction false} InstallsUnverifiedExactlyWhen(boot: string, log: seq<Event>, i: nat)
    requires Run(NewDevice(boot), log).Some? && i < |log| && log[i].Install?
    requires NeedsArtifact(log[i].adapter, log[i].request)
    ensures (forall j: nat :: j < i ==> !VerifiedAt(log, j, log[i].request, log[i].artifact))
            <==> (forall j: nat :: j < i && PassedAt(log, j, log[i].request, log[i].artifact) ==>
                log[j].adapter == BUILT_IN_FLATPAK)
  {
    var r, artifact := log[i].request, log[i].artifact;
    forall j: nat | j < i && PassedAt(log, j, r, artifact)
      ensures VerifiedAt(log, j, r, artifact) <==> log[j].adapter != BUILT_IN_FLATPAK
    {
      if log[j].adapter != BUILT_IN_FLATPAK { CheckAfterVerification(boot, log, j, r, artifact); }
      if VerifiedAt(log, j, r, artifact) { VerifierNeedsArtifact(boot, log, j); }
    }
  }

  /** So for every other adapter, built in or plugin, an artifact is never installed unverified. */
  lemma {:induction false} OthersAlwaysVerify(boot: string, log: seq<Event>, i: nat)
    requires Run(NewDevice(boot), log).Some? && i < |log| && log[i].Install?
    requires NeedsArtifact(log[i].adapter, log[i].request) && log[i].adapter.name != Flatpak
    ensures exists j: nat :: j < i && VerifiedAt(log, j, log[i].request, log[i].artifact)
  {
    InstallOnlyAfterChecks(boot, log, i);
    var j := SomeCheckPassed(log, i, log[i].request, log[i].artifact);
    ActorIs(boot, log, i);
    ActorIs(boot, log, j);
    CheckAfterVerification(boot, log, j, log[i].request, log[i].artifact);
  }

  // ---------- a run that does ----------

  lemma {:induction false} Then(s: State, log: seq<Event>, t: State, e: Event, u: State)
    requires Run(s, log) == Some(t) && Step(t, e) == Some(u)
    ensures Run(s, log + [e]) == Some(u)
  {
    Snoc(s, log, e);
  }

  /** The built-in adapter prepares and checks an update, up to its verified file. */
  function CheckedByBuiltIn(r: Request): seq<Event> {
    var a, tx := BUILT_IN_FLATPAK, FreshTransaction(r);
    [Begin(r, Ready(a)), Load(Missing), Save(tx, 0, None), CurrentVersion(a, r, Ok(""))]
    + [Save(tx.(phase := Prepared), 0, None)] + [Save(tx.(phase := Downloaded), 0, None)]
    + [Check(a, r, "", None)] + [Save(tx.(phase := Verified), 0, None)]
  }

  lemma {:induction false} StartsPreflight(r: Request)
    requires r.adapter == Flatpak && r.compatibleFrom == None
    ensures var a, tx := BUILT_IN_FLATPAK, FreshTransaction(r);
            Run(NewDevice(""), [Begin(r, Ready(a)), Load(Missing), Save(tx, 0, None), CurrentVersion(a, r, Ok(""))])
            == Some(State(map[Key(r) := tx], "", Active(a, tx.(phase := Prepared), Saving(true, Continue))))
  {
    var a, tx := BUILT_IN_FLATPAK, FreshTransaction(r);
    var s, disk := NewDevice(""), map[Key(r) := tx];
    var s1, s2 := s.(call := Loading(r, a)), s.(call := Active(a, tx, Saving(true, Continue)));
    var s3 := State(disk, "", Active(a, tx, Preflight));
    assert [] + [Begin(r, Ready(a))] == [Begin(r, Ready(a))];
    Then(s, [], s, Begin(r, Ready(a)), s1);
    Then(s, [Begin(r, Ready(a))], s1, Load(Missing), s2);
    assert [Begin(r, Ready(a))] + [Load(Missing)] == [Begin(r, Ready(a)), Load(Missing)];
    Then(s, [Begin(r, Ready(a)), Load(Missing)], s2, Save(tx, 0, None), s3);
    assert [Begin(r, Ready(a)), Load(Missing)] + [Save(tx, 0, None)]
           == [Begin(r, Ready(a)), Load(Missing), Save(tx, 0, None)];
    Snoc(s, [Begin(r, Ready(a)), Load(Missing), Save(tx, 0, None)], CurrentVersion(a, r, Ok("")));
    assert [Begin(r, Ready(a)), Load(Missing), Save(tx, 0, None)] + [CurrentVersion(a, r, Ok(""))]
        == [Begin(r, Ready(a)), Load(Missing), Save(tx, 0, None), CurrentVersion(a, r, Ok(""))];
  }

  lemma {:induction false} SavesOnly(r: Request, was: Transaction, a: Adapter, tx: Transaction)
    requires tx.request == r && r.compatibleFrom == None && tx.updatedAt == 0 && Early(tx.phase)
    ensures Step(State(map[Key(r) := was], "", Active(a, tx, Saving(true, Continue))), Save(tx, 0, None))
            == Some(State(map[Key(r) := tx], "", Proceed(a, tx)))
  {
    assert map[Key(r) := was][Key(r) := tx] == map[Key(r) := tx];
  }

  lemma {:induction false} BuiltInChecks(r: Request)
    requires r.adapter == Flatpak && r.compatibleFrom == None
    ensures var a, tx := BUILT_IN_FLATPAK, FreshTransaction(r).(phase := Verified);
            Run(NewDevice(""), CheckedByBuiltIn(r)) == Some(State(map[Key(r) := tx], "", Active(a, tx, Installing)))
  {
    var a, tx, s := BUILT_IN_FLATPAK, FreshTransaction(r), NewDevice("");
    var prepared, downloaded, verified := tx.(phase := Prepared), tx.(phase := Downloaded), tx.(phase := Verified);
    var log := [Begin(r, Ready(a)), Load(Missing), Save(tx, 0, None), CurrentVersion(a, r, Ok(""))];
    StartsPreflight(r);
    SavesOnly(r, tx, a, prepared);
    Snoc(s, log, Save(prepared, 0, None));
    var more := log + [Save(prepared, 0, None)];
    SavesOnly(r, prepared, a, downloaded);
    Snoc(s, more, Save(downloaded, 0, None));
    more := more + [Save(downloaded, 0, None)];
    ChecksDownloaded(r, downloaded);
    Snoc(s, more, Check(a, r, "", None));
    more := more + [Check(a, r, "", None)];
    SavesOnly(r, downloaded, a, verified);
    Snoc(s, more, Save(verified, 0, None));
  }

  lemma {:induction false} ChecksDownloaded(r: Request, tx: Transaction)
    requires r.adapter == Flatpak && tx.request == r && tx.artifactPath == "" && tx.phase == Downloaded
    ensures var a, s := BUILT_IN_FLATPAK, State(map[Key(r) := tx], "", Proceed(BUILT_IN_FLATPAK, tx));
            Step(s, Check(a, r, "", None))
                == Some(s.(call := Active(a, tx.(phase := Verified), Saving(true, Continue))))
  {}

  /** A plugin of that name then takes over the verified file, and installs. */
  function InstalledByPlugin(r: Request): seq<Event> {
    var a, tx := Adapter(Flatpak, true), FreshTransaction(r).(phase := Verified);
    [Crash] + [Begin(r, Ready(a))] + [Load(Found(tx))] + [Install(a, r, "", None)]
  }

  lemma {:induction false} PluginInstalls(r: Request)
    requires r.adapter == Flatpak
    ensures var tx := FreshTransaction(r).(phase := Verified);
            Run(State(map[Key(r) := tx], "", Active(BUILT_IN_FLATPAK, tx, Installing)), InstalledByPlugin(r)).Some?
  {
    var a, tx := Adapter(Flatpak, true), FreshTransaction(r).(phase := Verified);
    var disk := map[Key(r) := tx];
    var s := State(disk, "", Active(BUILT_IN_FLATPAK, tx, Installing));
    var idle, loading, installing := s.(call := Idle), s.(call := Loading(r, a)), s.(call := Active(a, tx, Installing));
    assert [] + [Crash] == [Crash];
    Then(s, [], s, Crash, idle);
    Then(s, [Crash], idle, Begin(r, Ready(a)), loading);
    Then(s, [Crash] + [Begin(r, Ready(a))], loading, Load(Found(tx)), installing);
    Snoc(s, [Crash] + [Begin(r, Ready(a))] + [Load(Found(tx))], Install(a, r, "", None));
  }

  /** When a flatpak plugin appears after the built-in adapter checked the update, the plugin, which needs an
      artifact, installs without any digest or signature having been verified. */
  lemma {:induction false} PluginInstallsUnverified(r: Request)
    requires r.adapter == Flatpak && r.compatibleFrom == None
    ensures var log := CheckedByBuiltIn(r) + InstalledByPlugin(r);
            && Run(NewDevice(""), log).Some? && log[|log| - 1] == Install(Adapter(Flatpak, true), r, "", None)
            && NeedsArtifact(Adapter(Flatpak, true), r)
            && forall i :: 0 <= i < |log| ==> !log[i].VerifyArtifact? && !log[i].VerifySignature?
  {
    BuiltInChecks(r);
    PluginInstalls(r);
    RunConcat(NewDevice(""), CheckedByBuiltIn(r), InstalledByPlugin(r));
  }
}
