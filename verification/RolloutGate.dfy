/** The gate between the pilot group of a campaign and everyone else: what `canary_complete` is worth, over every
    run, with handlers that fail or stop anywhere, saves that fail and a server that restarts. */
module RolloutGate {
  import opened Text
  import opened CloudTypes
  import opened CloudIntegrity
  import opened Rollout

  predicate AllSucceeded(db: Db, c: Campaign) {
    forall id :: id in db.jobs && Holds(c, db.jobs[id]) ==> db.jobs[id].state == Succeeded
  }

  /** If the campaign says that its pilot is complete, every job it holds has succeeded. */
  predicate Truthful(db: Db, k: string) {
    k in db.campaigns && db.campaigns[k].state == CanaryComplete ==> AllSucceeded(db, db.campaigns[k])
  }

  // ---------- single store calls, in any order ----------

  /** Nobody but the store itself says `canary_complete`, and jobs of a campaign are new when they are queued. */
  predicate Conventional(op: Op) {
    && (op.CreateCampaign? || op.UpdateCampaign? ==> op.campaign.state != CanaryComplete)
    && (op.CreateJob? && op.job.deployment != "" ==> op.job.state == Unset || op.job.state == Queued)
  }

  /** The call really adds a job to campaign `k`, while `k` says that its pilot is complete. */
  predicate OpensGate(db: Db, op: Op, k: string) {
    && op.CreateJob? && OwnDevice(db.devices, op.tenant, op.job.device) && !KeyTaken(db.jobs, op.tenant, op.job.key)
    && k in db.campaigns && db.campaigns[k].tenant == op.tenant && op.job.deployment == k
    && db.campaigns[k].state == CanaryComplete
  }

  lemma {:induction false} CreationOpens(db: Db, issued: set<string>, op: Op, k: string)
    requires Sound(db, issued) && Allowed(db, issued, op) && Conventional(op) && Truthful(db, k) && k != ""
    requires op.CreateJob?
    ensures !Truthful(Apply(db, op), k) <==> OpensGate(db, op, k)
  {
    var post := Apply(db, op);
    if OpensGate(db, op, k) {
      assert Holds(post.campaigns[k], post.jobs[op.id]);
    }
  }

  lemma {:induction false} RemovalKeepsTruthful(db: Db, tenant: string, device: string, k: string)
    requires Truthful(db, k)
    ensures Truthful(Deleted(db, tenant, device), k)
  {}

  lemma {:induction false} PollKeepsTruthful(db: Db, issued: set<string>, op: Op, k: string)
    requires op.NextJob? && Allowed(db, issued, op) && Truthful(db, k)
    ensures Truthful(Apply(db, op), k)
  {}

  lemma {:induction false} StateFromJobsTruthful(c: Campaign, jobs: map<string, Job>)
    requires StateFromJobs(c, jobs) == CanaryComplete && JobsOf(c, jobs) != {}
    ensures forall id :: id in jobs && Holds(c, jobs[id]) ==> jobs[id].state == Succeeded
  {
    forall id | id in jobs && Holds(c, jobs[id]) ensures jobs[id].state == Succeeded { assert id in JobsOf(c, jobs); }
  }

  lemma {:induction false} CompletionKeepsTruthful(db: Db, issued: set<string>, op: Op, k: string)
    requires Sound(db, issued) && op.CompleteJob? && Truthful(db, k)
    ensures Truthful(Apply(db, op), k)
  {
    var post := Apply(db, op);
    if op.id in db.jobs && db.jobs[op.id].tenant == op.tenant && k in db.campaigns {
      var c := db.campaigns[k];
      if Holds(c, post.jobs[op.id]) {
        assert op.id in JobsOf(c, post.jobs);
        if post.campaigns[k].state == CanaryComplete { StateFromJobsTruthful(c, post.jobs); }
      } else {
        assert post.campaigns[k] == c;
      }
    }
  }

  lemma {:induction false} OthersKeepTruthful(db: Db, issued: set<string>, op: Op, k: string)
    requires Sound(db, issued) && Allowed(db, issued, op) && Conventional(op) && Truthful(db, k)
    requires !op.CreateJob? && !op.DeleteDevice? && !op.NextJob? && !op.CompleteJob?
    ensures Truthful(Apply(db, op), k)
  {}

  /** One store call makes a truthful campaign untruthful if and only if it adds a job to it while it says that
      its pilot is complete. */
  lemma {:induction false} GateOpensExactlyWhen(db: Db, issued: set<string>, op: Op, k: string)
    requires Sound(db, issued) && Allowed(db, issued, op) && Conventional(op) && Truthful(db, k) && k != ""
    ensures !Truthful(Apply(db, op), k) <==> OpensGate(db, op, k)
  {
    match op {
      case CreateJob(_, _, _) => CreationOpens(db, issued, op, k);
      case DeleteDevice(tenant, device) => RemovalKeepsTruthful(db, tenant, device, k);
      case NextJob(_, _, _, _, _) => PollKeepsTruthful(db, issued, op, k);
      case CompleteJob(_, _, _, _) => CompletionKeepsTruthful(db, issued, op, k);
      case _ => OthersKeepTruthful(db, issued, op, k);
    }
  }

  predicate SoundCloud(s: Cloud) {
    Sound(s.mem, s.issued) && Sound(s.file, s.issued)
  }

  predicate TruthfulCloud(s: Cloud, k: string) {
    Truthful(s.mem, k) && Truthful(s.file, k)
  }

  lemma {:induction false} StepKeepsSound(s: Cloud, step: Step)
    requires SoundCloud(s) && CanTake(s, step)
    ensures SoundCloud(Take(s, step))
  {
    if step.Do? { ApplyKeepsSound(s.mem, s.issued, step.op); }
  }

  lemma {:induction false} StepsKeepSound(s: Cloud, steps: seq<Step>)
    requires SoundCloud(s) && CanRun(s, steps)
    ensures SoundCloud(RunSteps(s, steps))
    decreases |steps|
  {
    if steps != [] {
      StepsKeepSound(s, steps[..|steps| - 1]);
      StepKeepsSound(RunSteps(s, steps[..|steps| - 1]), steps[|steps| - 1]);
    }
  }

  predicate ConventionalSteps(steps: seq<Step>) {
    forall i :: 0 <= i < |steps| && steps[i].Do? ==> Conventional(steps[i].op)
  }

  lemma {:induction false} CanRunPrefix(s: Cloud, steps: seq<Step>, n: nat)
    requires CanRun(s, steps) && n <= |steps|
    ensures CanRun(s, steps[..n])
    ensures n < |steps| ==> CanTake(RunSteps(s, steps[..n]), steps[n])
    decreases |steps|
  {
    if n < |steps| {
      var front := steps[..|steps| - 1];
      if n < |front| {
        CanRunPrefix(s, front, n);
        assert front[..n] == steps[..n];
      }
    } else {
      assert steps[..n] == steps;
    }
  }

  /** Step `i` opens the gate of campaign `k`. */
  predicate OpensAt(s: Cloud, steps: seq<Step>, i: nat, k: string) {
    i < |steps| && steps[i].Do? && OpensGate(RunSteps(s, steps[..i]).mem, steps[i].op, k)
  }

  predicate GateHeld(s: Cloud, steps: seq<Step>, k: string) {
    forall i: nat :: i < |steps| ==> !OpensAt(s, steps, i, k)
  }

  predicate StaysTruthful(s: Cloud, steps: seq<Step>, k: string) {
    forall n :: 0 <= n <= |steps| ==> Truthful(RunSteps(s, steps[..n]).mem, k)
  }

  lemma {:induction false} HeldIsTruthful(s: Cloud, steps: seq<Step>, k: string)
    requires SoundCloud(s) && TruthfulCloud(s, k) && CanRun(s, steps) && ConventionalSteps(steps) && k != ""
    requires GateHeld(s, steps, k)
    ensures TruthfulCloud(RunSteps(s, steps), k)
    decreases |steps|
  {
    if steps != [] {
      var front, last := steps[..|steps| - 1], steps[|steps| - 1];
      forall i: nat | i < |front| ensures !OpensAt(s, front, i, k) {
        assert front[..i] == steps[..i];
        assert !OpensAt(s, steps, i, k);
      }
      HeldIsTruthful(s, front, k);
      StepsKeepSound(s, front);
      assert !OpensAt(s, steps, |front|, k);
      var t := RunSteps(s, front);
      if last.Do? { GateOpensExactlyWhen(t.mem, t.issued, last.op, k); }
    }
  }

  lemma {:induction false} HeldPrefix(s: Cloud, steps: seq<Step>, n: nat, k: string)
    requires GateHeld(s, steps, k) && n <= |steps|
    ensures GateHeld(s, steps[..n], k)
  {
    forall i: nat | i < n ensures !OpensAt(s, steps[..n], i, k) {
      assert steps[..n][..i] == steps[..i];
      assert !OpensAt(s, steps, i, k);
    }
  }

  lemma {:induction false} OpeningIsUntruthful(s: Cloud, steps: seq<Step>, i: nat, k: string)
    requires SoundCloud(s) && CanRun(s, steps) && ConventionalSteps(steps) && k != "" && OpensAt(s, steps, i, k)
    ensures !StaysTruthful(s, steps, k)
  {
    CanRunPrefix(s, steps, i);
    StepsKeepSound(s, steps[..i]);
    assert steps[..i + 1][..i] == steps[..i];
    var t := RunSteps(s, steps[..i]);
    if Truthful(t.mem, k) {
      GateOpensExactlyWhen(t.mem, t.issued, steps[i].op, k);
      assert !Truthful(RunSteps(s, steps[..i + 1]).mem, k);
    }
  }

  /** Over every run, whatever handlers interleave, saves fail or restarts happen: a campaign's word for its pilot
      holds at every moment if and only if no job is ever added to it while it says that the pilot is complete. */
  lemma {:induction false} PilotTruthExactlyWhile(steps: seq<Step>, k: string)
    requires CanRun(NEW_CLOUD, steps) && ConventionalSteps(steps) && k != ""
    ensures StaysTruthful(NEW_CLOUD, steps, k) <==> GateHeld(NEW_CLOUD, steps, k)
  {
    if GateHeld(NEW_CLOUD, steps, k) {
      forall n | 0 <= n <= |steps| ensures Truthful(RunSteps(NEW_CLOUD, steps[..n]).mem, k) {
        CanRunPrefix(NEW_CLOUD, steps, n);
        HeldPrefix(NEW_CLOUD, steps, n, k);
        HeldIsTruthful(NEW_CLOUD, steps[..n], k);
      }
    }
    if i: nat :| OpensAt(NEW_CLOUD, steps, i, k) { OpeningIsUntruthful(NEW_CLOUD, steps, i, k); }
  }

  // ---------- the handlers, each as far as it came ----------

  const NEW_CLOUD := Cloud(EMPTY, EMPTY, {""}) // no record ever has an empty id

  datatype Move =
    | Call(step: Step)                                       // a store call outside the two handlers, or a restart
    | Create(tenant: string, campaign: Campaign, id: string, // a creation, from its first store call on
             steps: seq<Step>)
    | Promote(tenant: string, id: string, steps: seq<Step>)  // a promotion, from its first store call on

  /** Campaigns are written only by the two handlers, and only they queue jobs that name a campaign. */
  predicate Outside(op: Op) {
    !op.CreateCampaign? && !op.UpdateCampaign? && (op.CreateJob? ==> op.job.deployment == "")
  }

  predicate HandlerSteps(c: Campaign, targets: seq<string>, steps: seq<Step>) {
    forall i :: 0 <= i < |steps| ==> steps[i].Do? && HandlerCall(c, targets, steps[i].op)
  }

  predicate CreationSteps(tenant: string, c: Campaign, id: string, steps: seq<Step>) {
    && ValidRollout(c) && (c.tenant == "" || c.tenant == tenant)
    && steps != [] && steps[0].Do? && steps[0].op == CreateCampaign(tenant, c.(state := CampaignState.Ready), id)
    && HandlerSteps(NewCampaign(c, tenant, id), Pilot(c), steps[1..])
  }

  predicate CanMove(s: Cloud, m: Move) {
    CanRun(s, Steps(m)) &&
    match m
    case Call(step) => step.Do? ==> Outside(step.op)
    case Create(tenant, c, id, steps) => CreationSteps(tenant, c, id, steps)
    case Promote(tenant, id, steps) =>
      Promotable(s.mem, tenant, id) &&
      HandlerSteps(s.mem.campaigns[id], Remaining(s.mem, s.mem.campaigns[id], s.mem.campaigns[id].targets), steps)
  }

  function Steps(m: Move): seq<Step> {
    match m
    case Call(step) => [step]
    case _ => m.steps
  }

  /** Where a run of the server leads, if each of its moves is possible when it comes. */
  function Outcome(moves: seq<Move>): Option<Cloud>
    decreases |moves|
  {
    if moves == [] then Some(NEW_CLOUD)
    else match Outcome(moves[..|moves| - 1])
      case Some(s) => MoveOutcome(s, moves[|moves| - 1])
      case None => None
  }

  function MoveOutcome(s: Cloud, m: Move): Option<Cloud> {
    if CanMove(s, m) then Some(RunSteps(s, Steps(m))) else None
  }

  lemma {:induction false} OutcomePrefix(moves: seq<Move>, n: nat)
    requires Outcome(moves).Some? && n <= |moves|
    ensures Outcome(moves[..n]).Some?
    ensures n < |moves| ==> CanMove(Outcome(moves[..n]).value, moves[n])
    decreases |moves|
  {
    if n < |moves| {
      var front := moves[..|moves| - 1];
      if n < |front| {
        OutcomePrefix(front, n);
        assert front[..n] == moves[..n];
      }
    } else {
      assert moves[..n] == moves;
    }
  }

  lemma {:induction false} OutcomeIsSound(moves: seq<Move>)
    requires Outcome(moves).Some?
    ensures SoundCloud(Outcome(moves).value)
    decreases |moves|
  {
    if moves != [] {
      var n := |moves| - 1;
      OutcomeIsSound(moves[..n]);
      StepsKeepSound(Outcome(moves[..n]).value, Steps(moves[n]));
    }
  }

  // ---------- what a handler does to its campaign and to the others ----------

  lemma {:induction false} HandlerIsConventional(c: Campaign, targets: seq<string>, op: Op)
    requires HandlerCall(c, targets, op)
    ensures Conventional(op)
  {}

  lemma {:induction false} MoveIsConventional(s: Cloud, m: Move)
    requires CanMove(s, m)
    ensures ConventionalSteps(Steps(m))
  {
    forall i | 0 <= i < |Steps(m)| && Steps(m)[i].Do? ensures Conventional(Steps(m)[i].op) {
      match m {
        case Call(_) =>
        case Create(tenant, c, id, steps) =>
          if i > 0 {
            assert steps[1..][i - 1] == steps[i];
            HandlerIsConventional(NewCampaign(c, tenant, id), Pilot(c), steps[i].op);
          }
        case Promote(_, id, steps) =>
          var c := s.mem.campaigns[id];
          HandlerIsConventional(c, Remaining(s.mem, c, c.targets), steps[i].op);
      }
    }
  }

  /** The campaign a handler works on. */
  predicate WorksOn(m: Move, k: string) {
    !m.Call? && m.id == k
  }

  lemma {:induction false} OnlyOwnCampaignOpens(s: Cloud, m: Move, k: string, db: Db, i: nat)
    requires SoundCloud(s) && CanMove(s, m) && !WorksOn(m, k) && k != "" && i < |Steps(m)| && Steps(m)[i].Do?
    ensures !OpensGate(db, Steps(m)[i].op, k)
  {
    match m {
      case Call(_) =>
      case Create(tenant, c, id, steps) => if i > 0 { assert steps[1..][i - 1] == steps[i]; }
      case Promote(_, id, steps) => assert s.mem.campaigns[id].id == id;
    }
  }

  /** Whatever is done for other campaigns leaves this one truthful. */
  lemma {:induction false} OtherMovesKeepTruthful(s: Cloud, m: Move, k: string)
    requires SoundCloud(s) && TruthfulCloud(s, k) && CanMove(s, m) && !WorksOn(m, k) && k != ""
    ensures TruthfulCloud(RunSteps(s, Steps(m)), k)
  {
    MoveIsConventional(s, m);
    forall i: nat | i < |Steps(m)| ensures !OpensAt(s, Steps(m), i, k) {
      if Steps(m)[i].Do? { OnlyOwnCampaignOpens(s, m, k, RunSteps(s, Steps(m)[..i]).mem, i); }
    }
    HeldIsTruthful(s, Steps(m), k);
  }

  /** The campaign does not say that its pilot is complete. */
  predicate Quiet(db: Db, k: string) {
    k in db.campaigns ==> db.campaigns[k].state != CanaryComplete
  }

  lemma {:induction false} HandlerStaysQuiet(db: Db, c: Campaign, targets: seq<string>, op: Op, k: string)
    requires HandlerCall(c, targets, op) && Quiet(db, k)
    ensures Quiet(Apply(db, op), k)
  {}

  lemma {:induction false} StartsQuiet(s: Cloud, m: Move)
    requires m.Create? && SoundCloud(s) && CanMove(s, m)
    ensures Quiet(s.mem, m.id) && Quiet(Take(s, m.steps[0]).mem, m.id)
  {
    CanRunPrefix(s, m.steps, 0);
    assert m.steps[..0] == [];
  }

  lemma {:induction false} HandlersStayQuiet(s: Cloud, c: Campaign, targets: seq<string>, steps: seq<Step>, k: string)
    requires steps != [] && HandlerSteps(c, targets, steps[1..]) && Quiet(Take(s, steps[0]).mem, k)
    ensures Quiet(RunSteps(s, steps).mem, k)
    decreases |steps|
  {
    var front, last := steps[..|steps| - 1], steps[|steps| - 1];
    if front == [] {
      assert RunSteps(s, front) == s;
    } else {
      assert forall i :: 0 <= i < |front| - 1 ==> front[1..][i] == steps[1..][i];
      assert steps[1..][|steps| - 2] == last;
      HandlersStayQuiet(s, c, targets, front, k);
      HandlerStaysQuiet(RunSteps(s, front).mem, c, targets, last.op, k);
    }
  }

  lemma {:induction false} CreationIsQuiet(s: Cloud, m: Move, n: nat)
    requires m.Create? && SoundCloud(s) && CanMove(s, m) && n <= |m.steps|
    ensures Quiet(RunSteps(s, m.steps[..n]).mem, m.id)
  {
    StartsQuiet(s, m);
    if n > 0 {
      var some := m.steps[..n];
      assert forall i :: 0 <= i < n - 1 ==> some[1..][i] == m.steps[1..][i];
      HandlersStayQuiet(s, NewCampaign(m.campaign, m.tenant, m.id), Pilot(m.campaign), some, m.id);
    }
  }

  /** A creation, however it ends, leaves its campaign truthful. */
  lemma {:induction false} CreationKeepsTruthful(s: Cloud, m: Move)
    requires m.Create? && m.id != "" && SoundCloud(s) && TruthfulCloud(s, m.id) && CanMove(s, m)
    ensures TruthfulCloud(RunSteps(s, m.steps), m.id)
  {
    MoveIsConventional(s, m);
    forall i: nat | i < |m.steps| ensures !OpensAt(s, m.steps, i, m.id) { CreationIsQuiet(s, m, i); }
    HeldIsTruthful(s, m.steps, m.id);
  }

  // ---------- promotions ----------

  predicate Writes(step: Step) {
    step.Do? && step.op.UpdateCampaign?
  }

  /** The promotion came to its end: the campaign was written and saved, last of all. */
  predicate CameToItsEnd(m: Move) {
    m.Promote? && m.steps != [] && Writes(m.steps[|m.steps| - 1]) && m.steps[|m.steps| - 1].saved
  }

  predicate AddedJobs(s: Cloud, m: Move) {
    RunSteps(s, Steps(m)).mem.jobs != s.mem.jobs
  }

  /** In the middle of a promotion of `c`: until the campaign is written nothing but jobs is added, and then it
      is quiet. */
  predicate Promoting(before: Db, db: Db, c: Campaign, targets: seq<string>, written: bool) {
    && c.id in db.campaigns && db.campaigns[c.id].tenant == c.tenant
    && (written ==> Quiet(db, c.id))
    && (!written ==> OnlyAdds(before, db, c, targets) && db.campaigns[c.id] == c)
  }

  predicate AnyWrites(steps: seq<Step>) {
    exists i :: 0 <= i < |steps| && Writes(steps[i])
  }

  lemma {:induction false} PromotionStep(before: Db, db: Db, issued: set<string>, c: Campaign, targets: seq<string>,
                                         written: bool, op: Op)
    requires Promoting(before, db, c, targets, written) && HandlerCall(c, targets, op)
    requires Sound(db, issued) && Allowed(db, issued, op)
    ensures Promoting(before, Apply(db, op), c, targets, written || op.UpdateCampaign?)
  {}

  lemma {:induction false} AnyWritesLast(steps: seq<Step>)
    requires steps != []
    ensures AnyWrites(steps) <==> AnyWrites(steps[..|steps| - 1]) || Writes(steps[|steps| - 1])
  {
    var front := steps[..|steps| - 1];
    if AnyWrites(front) {
      var i :| 0 <= i < |front| && Writes(front[i]);
      assert Writes(steps[i]);
    }
    if AnyWrites(steps) {
      var i :| 0 <= i < |steps| && Writes(steps[i]);
      assert i < |front| ==> Writes(front[i]);
    }
  }

  lemma {:induction false} PromotionSteps(s: Cloud, c: Campaign, targets: seq<string>, steps: seq<Step>)
    requires SoundCloud(s) && CanRun(s, steps) && HandlerSteps(c, targets, steps)
    requires c.id in s.mem.campaigns && s.mem.campaigns[c.id] == c
    ensures Promoting(s.mem, RunSteps(s, steps).mem, c, targets, AnyWrites(steps))
    decreases |steps|
  {
    if steps != [] {
      var front, last := steps[..|steps| - 1], steps[|steps| - 1];
      PromotionSteps(s, c, targets, front);
      StepsKeepSound(s, front);
      var t := RunSteps(s, front);
      PromotionStep(s.mem, t.mem, t.issued, c, targets, AnyWrites(front), last.op);
      AnyWritesLast(steps);
    }
  }

  lemma {:induction false} MoreKeys(a: map<string, Job>, b: map<string, Job>)
    requires forall id :: id in a ==> id in b && b[id] == a[id]
    ensures a == b || exists id :: id in b && id !in a
  {
    if forall id :: id in b ==> id in a { assert a == b; }
  }

  lemma {:induction false} AddedIsUntruthful(before: Db, after: Db, c: Campaign, targets: seq<string>)
    requires OnlyAdds(before, after, c, targets) && before.jobs != after.jobs
    requires forall id :: id in after.jobs && id !in before.jobs ==> after.jobs[id].state == Queued
    ensures !AllSucceeded(after, c)
  {
    var a, b := before.jobs, after.jobs;
    MoreKeys(a, b);
    var id :| id in b && id !in a;
    assert Holds(c, b[id]) && b[id].state == Queued;
  }

  predicate NewAreQueued(before: Db, after: Db) {
    forall id :: id in after.jobs && id !in before.jobs ==> after.jobs[id].state == Queued
  }

  lemma {:induction false} HandlersQueue(s: Cloud, c: Campaign, targets: seq<string>, steps: seq<Step>)
    requires HandlerSteps(c, targets, steps)
    ensures NewAreQueued(s.mem, RunSteps(s, steps).mem)
    decreases |steps|
  {
    if steps != [] { HandlersQueue(s, c, targets, steps[..|steps| - 1]); }
  }

  /** A promotion, however it ends, leaves the campaign saying something false if and only if it added a job and
      did not get as far as writing the campaign. */
  lemma {:induction false} PromotionMisleadsExactlyWhen(s: Cloud, m: Move)
    requires m.Promote? && SoundCloud(s) && Truthful(s.mem, m.id) && CanMove(s, m)
    ensures !Truthful(RunSteps(s, m.steps).mem, m.id) <==> AddedJobs(s, m) && !AnyWrites(m.steps)
  {
    var c := s.mem.campaigns[m.id];
    var targets, t := Remaining(s.mem, c, c.targets), RunSteps(s, m.steps);
    PromotionSteps(s, c, targets, m.steps);
    HandlersQueue(s, c, targets, m.steps);
    if !AnyWrites(m.steps) && AddedJobs(s, m) { AddedIsUntruthful(s.mem, t.mem, c, targets); }
  }

  /** A promotion that came to its end leaves memory and file truthful. */
  lemma {:induction false} FinishedPromotionIsTruthful(s: Cloud, m: Move)
    requires CameToItsEnd(m) && SoundCloud(s) && Truthful(s.mem, m.id) && CanMove(s, m)
    ensures TruthfulCloud(RunSteps(s, m.steps), m.id)
  {
    assert AnyWrites(m.steps);
    PromotionMisleadsExactlyWhen(s, m);
  }

  /** Wherever a promotion has a job to add it may stop right there, with the job added and its save failed. */
  lemma {:induction false} PromotionMayStopShort(s: Cloud, tenant: string, k: string, device: string, id: string,
      now: int)
    requires SoundCloud(s) && Truthful(s.mem, k) && Promotable(s.mem, tenant, k) && id !in s.issued
    requires device in Remaining(s.mem, s.mem.campaigns[k], s.mem.campaigns[k].targets)
    requires OwnDevice(s.mem.devices, tenant, device)
             && !KeyTaken(s.mem.jobs, tenant, JobKey(s.mem.campaigns[k], device))
    ensures var m := Promote(tenant, k, [Do(CreateJob(tenant, OtaJob(s.mem.campaigns[k], device, now), id), false)]);
            CanMove(s, m) && !Truthful(RunSteps(s, m.steps).mem, k)
  {
    var c := s.mem.campaigns[k];
    var op := CreateJob(tenant, OtaJob(c, device, now), id);
    var steps := [Do(op, false)];
    assert steps[..0] == [] && CanRun(s, steps[..0]) && RunSteps(s, steps[..0]) == s;
    assert RunSteps(s, steps).mem == Apply(s.mem, op);
    assert id in Apply(s.mem, op).jobs && id !in s.mem.jobs;
    assert AddedJobs(s, Promote(tenant, k, steps));
    PromotionMisleadsExactlyWhen(s, Promote(tenant, k, steps));
  }

  /** What a restart finds of a promotion: the part up to its last successful save. */
  function SavedPart(steps: seq<Step>): seq<Step>
    decreases |steps|
  {
    if steps == [] || (steps[|steps| - 1].Do? && steps[|steps| - 1].saved) then steps
    else SavedPart(steps[..|steps| - 1])
  }

  lemma {:induction false} FileIsSavedPart(s: Cloud, c: Campaign, targets: seq<string>, steps: seq<Step>)
    requires CanRun(s, steps) && HandlerSteps(c, targets, steps)
    ensures var part := SavedPart(steps);
            && CanRun(s, part) && HandlerSteps(c, targets, part)
            && RunSteps(s, steps).file == if part == [] then s.file else RunSteps(s, part).mem
    decreases |steps|
  {
    if steps != [] && !steps[|steps| - 1].saved { FileIsSavedPart(s, c, targets, steps[..|steps| - 1]); }
  }

  /** And after a restart it says something false if and only if that part added a job and did not write it. */
  lemma {:induction false} RestartMisleadsExactlyWhen(s: Cloud, m: Move)
    requires m.Promote? && SoundCloud(s) && TruthfulCloud(s, m.id) && CanMove(s, m)
    ensures var part := Promote(m.tenant, m.id, SavedPart(m.steps));
            !Truthful(RunSteps(s, m.steps).file, m.id) <==> AddedJobs(s, part) && !AnyWrites(part.steps)
  {
    var c := s.mem.campaigns[m.id];
    FileIsSavedPart(s, c, Remaining(s.mem, c, c.targets), m.steps);
    PromotionMisleadsExactlyWhen(s, Promote(m.tenant, m.id, SavedPart(m.steps)));
  }

  lemma {:induction false} HandlerGrows(db: Db, c: Campaign, targets: seq<string>, op: Op)
    requires HandlerCall(c, targets, op)
    ensures db.jobs.Keys <= Apply(db, op).jobs.Keys
  {}

  lemma {:induction false} JobsOnlyGrow(s: Cloud, c: Campaign, targets: seq<string>, steps: seq<Step>, i: nat)
    requires HandlerSteps(c, targets, steps) && i <= |steps|
    ensures RunSteps(s, steps[..i]).mem.jobs.Keys <= RunSteps(s, steps).mem.jobs.Keys
    decreases |steps|
  {
    if i < |steps| {
      var front, last := steps[..|steps| - 1], steps[|steps| - 1];
      JobsOnlyGrow(s, c, targets, front, i);
      assert front[..i] == steps[..i];
      HandlerGrows(RunSteps(s, front).mem, c, targets, last.op);
      assert RunSteps(s, steps).mem == Apply(RunSteps(s, front).mem, last.op);
    } else {
      assert steps[..i] == steps;
    }
  }

  lemma {:induction false} OpeningAddsAJob(s: Cloud, m: Move, i: nat, k: string)
    requires m.Promote? && SoundCloud(s) && CanMove(s, m) && OpensAt(s, m.steps, i, k)
    ensures AddedJobs(s, m)
  {
    var c := s.mem.campaigns[m.id];
    var targets, before := Remaining(s.mem, c, c.targets), m.steps[..i];
    CanRunPrefix(s, m.steps, i);
    StepsKeepSound(s, before);
    JobsOnlyGrow(s, c, targets, before, 0);
    JobsOnlyGrow(s, c, targets, m.steps, i + 1);
    assert before[..0] == [];
    OpeningAdds(s, m.steps, i, k);
  }

  lemma {:induction false} OpeningAdds(s: Cloud, steps: seq<Step>, i: nat, k: string)
    requires CanRun(s, steps) && OpensAt(s, steps, i, k) && SoundCloud(RunSteps(s, steps[..i]))
    ensures var t := RunSteps(s, steps[..i]).mem;
            steps[i].op.CreateJob? && steps[i].op.id !in t.jobs
                && steps[i].op.id in RunSteps(s, steps[..i + 1]).mem.jobs
  {
    CanRunPrefix(s, steps, i);
    assert steps[..i + 1][..i] == steps[..i];
  }

  lemma {:induction false} IdlePromotionIsTruthful(s: Cloud, m: Move)
    requires m.Promote? && m.id != "" && SoundCloud(s) && TruthfulCloud(s, m.id) && CanMove(s, m) && !AddedJobs(s, m)
    ensures TruthfulCloud(RunSteps(s, m.steps), m.id)
  {
    MoveIsConventional(s, m);
    forall i: nat | i < |m.steps| ensures !OpensAt(s, m.steps, i, m.id) {
      if OpensAt(s, m.steps, i, m.id) { OpeningAddsAJob(s, m, i, m.id); }
    }
    HeldIsTruthful(s, m.steps, m.id);
  }

  // ---------- over runs ----------

  /** Move `i` is a promotion of `k` that added a job, and did not come to its end. */
  predicate Broken(moves: seq<Move>, i: nat, k: string) {
    && i < |moves| && moves[i].Promote? && moves[i].id == k && !CameToItsEnd(moves[i])
    && Outcome(moves[..i]).Some? && AddedJobs(Outcome(moves[..i]).value, moves[i])
  }

  lemma {:induction false} MoveKeepsTruthful(s: Cloud, m: Move, k: string)
    requires SoundCloud(s) && TruthfulCloud(s, k) && CanMove(s, m) && k != ""
    requires m.Promote? && m.id == k && !CameToItsEnd(m) ==> !AddedJobs(s, m)
    ensures TruthfulCloud(RunSteps(s, Steps(m)), k)
  {
    if !WorksOn(m, k) { OtherMovesKeepTruthful(s, m, k); }
    else if m.Create? { CreationKeepsTruthful(s, m); }
    else if CameToItsEnd(m) { FinishedPromotionIsTruthful(s, m); }
    else { IdlePromotionIsTruthful(s, m); }
  }

  /** In every state the server can reach, in memory and in its file, with handlers that fail or stop anywhere,
      saves that fail, and restarts: a campaign that says its pilot is complete holds only succeeded jobs, unless
      a promotion of it added a job and then did not come to its end. */
  lemma {:induction false} PilotCompleteIsTrue(moves: seq<Move>, k: string)
    requires Outcome(moves).Some? && k != ""
    requires forall i: nat :: !Broken(moves, i, k)
    ensures TruthfulCloud(Outcome(moves).value, k)
    decreases |moves|
  {
    if moves != [] {
      var n := |moves| - 1;
      forall i: nat ensures !Broken(moves[..n], i, k) {
        assert !Broken(moves, i, k);
        if i < n { assert moves[..n][..i] == moves[..i]; }
      }
      PilotCompleteIsTrue(moves[..n], k);
      OutcomeIsSound(moves[..n]);
      assert !Broken(moves, n, k);
      MoveKeepsTruthful(Outcome(moves[..n]).value, moves[n], k);
    }
  }

  // ---------- who gets a job ----------

  /** The campaign was created with this device in its pilot group. */
  predicate Piloted(m: Move, campaign: string, device: string) {
    m.Create? && m.id == campaign && ValidRollout(m.campaign) && device in Pilot(m.campaign)
  }

  predicate Promotes(m: Move, campaign: string) {
    m.Promote? && m.id == campaign
  }

  /** Move `i` promoted the campaign, when it said `canary_complete` and every job it held had succeeded. */
  predicate PromotedAt(moves: seq<Move>, i: nat, campaign: string) {
    && i < |moves| && Promotes(moves[i], campaign) && Outcome(moves[..i]).Some?
    && var db := Outcome(moves[..i]).value.mem;
       && campaign in db.campaigns && db.campaigns[campaign].state == CanaryComplete
       && AllSucceeded(db, db.campaigns[campaign])
  }

  ghost predicate Admitted(moves: seq<Move>, campaign: string, device: string) {
    || (exists i: nat :: i < |moves| && Piloted(moves[i], campaign, device))
    || (exists i: nat :: i < |moves| && Promotes(moves[i], campaign))
  }

  lemma {:induction false} AdmittedGrows(moves: seq<Move>, campaign: string, device: string)
    requires moves != [] && Admitted(moves[..|moves| - 1], campaign, device)
    ensures Admitted(moves, campaign, device)
  {
    var before := moves[..|moves| - 1];
    if i: nat :| i < |before| && Piloted(before[i], campaign, device) {
      assert Piloted(moves[i], campaign, device);
    } else {
      var i: nat :| i < |before| && Promotes(before[i], campaign);
      assert Promotes(moves[i], campaign);
    }
  }

  ghost predicate AllAdmitted(moves: seq<Move>, jobs: map<string, Job>) {
    forall id :: id in jobs && jobs[id].deployment != "" ==> Admitted(moves, jobs[id].deployment, jobs[id].device)
  }

  /** The jobs are those of before, or of the campaign and for the devices given. */
  predicate Adds(before: map<string, Job>, after: map<string, Job>, campaign: string, devices: seq<string>) {
    forall id :: id in after && after[id].deployment != "" ==>
      || (id in before && before[id].deployment == after[id].deployment && before[id].device == after[id].device)
      || (after[id].deployment == campaign && after[id].device in devices)
  }

  lemma {:induction false} OutsideAddsNone(db: Db, issued: set<string>, op: Op)
    requires Outside(op) && Sound(db, issued) && Allowed(db, issued, op)
    ensures Adds(db.jobs, Apply(db, op).jobs, "", [])
  {
    if op.NextJob? { PollAddsNone(db.jobs, op.expired, op.chosen); }
    else if op.CompleteJob? && op.id in db.jobs { FinishAddsNone(db, op.id, op.reported, op.result); }
  }

  lemma {:induction false} PollAddsNone(jobs: map<string, Job>, expired: set<string>, chosen: Option<string>)
    ensures Adds(jobs, Polled(jobs, expired, chosen), "", [])
  {}

  lemma {:induction false} FinishAddsNone(db: Db, k: string, reported: JobState, result: string)
    requires k in db.jobs
    ensures Adds(db.jobs, Finished(db, k, reported, result).jobs, "", [])
  {}

  lemma {:induction false} HandlerAdds(db: Db, c: Campaign, targets: seq<string>, op: Op)
    requires HandlerCall(c, targets, op)
    ensures Adds(db.jobs, Apply(db, op).jobs, c.id, targets)
  {}

  lemma {:induction false} AdmittedAfter(moves: seq<Move>, before: map<string, Job>, after: map<string, Job>,
                                         campaign: string, devices: seq<string>)
    requires AllAdmitted(moves, before) && Adds(before, after, campaign, devices)
    requires forall d :: d in devices ==> Admitted(moves, campaign, d)
    ensures AllAdmitted(moves, after)
  {}

  /** The campaign and the devices that a move may add jobs for. */
  function Reach(s: Cloud, m: Move): (string, seq<string>)
    requires CanMove(s, m)
  {
    match m
    case Call(_) => ("", [])
    case Create(_, c, id, _) => (id, Pilot(c))
    case Promote(_, id, _) => (id, Remaining(s.mem, s.mem.campaigns[id], s.mem.campaigns[id].targets))
  }

  lemma {:induction false} StepAdds(s: Cloud, m: Move, i: nat, db: Db, issued: set<string>)
    requires SoundCloud(s) && CanMove(s, m) && i < |Steps(m)| && Steps(m)[i].Do?
    requires Sound(db, issued) && Allowed(db, issued, Steps(m)[i].op)
    ensures var (campaign, devices) := Reach(s, m); Adds(db.jobs, Apply(db, Steps(m)[i].op).jobs, campaign, devices)
  {
    var op := Steps(m)[i].op;
    match m {
      case Call(_) => OutsideAddsNone(db, issued, op);
      case Create(tenant, c, id, steps) =>
        if i > 0 {
          assert steps[1..][i - 1] == steps[i];
          HandlerAdds(db, NewCampaign(c, tenant, id), Pilot(c), op);
        }
      case Promote(_, id, _) =>
        assert s.mem.campaigns[id].id == id;
        HandlerAdds(db, s.mem.campaigns[id], Reach(s, m).1, op);
    }
  }

  ghost predicate CloudAdmitted(moves: seq<Move>, s: Cloud) {
    AllAdmitted(moves, s.mem.jobs) && AllAdmitted(moves, s.file.jobs)
  }

  lemma {:induction false} TakeKeepsAdmitted(moves: seq<Move>, t: Cloud, step: Step, campaign: string,
                                             devices: seq<string>)
    requires CloudAdmitted(moves, t) && forall d :: d in devices ==> Admitted(moves, campaign, d)
    requires step.Do? ==> Adds(t.mem.jobs, Apply(t.mem, step.op).jobs, campaign, devices)
    ensures CloudAdmitted(moves, Take(t, step))
  {
    if step.Do? { AdmittedAfter(moves, t.mem.jobs, Apply(t.mem, step.op).jobs, campaign, devices); }
  }

  lemma {:induction false} MoveStepAdds(s: Cloud, m: Move, i: nat)
    requires SoundCloud(s) && CanMove(s, m) && i < |Steps(m)| && Steps(m)[i].Do?
    ensures var (campaign, devices) := Reach(s, m);
            var t := RunSteps(s, Steps(m)[..i]); Adds(t.mem.jobs, Apply(t.mem, Steps(m)[i].op).jobs, campaign, devices)
  {
    CanRunPrefix(s, Steps(m), i);
    StepsKeepSound(s, Steps(m)[..i]);
    var t := RunSteps(s, Steps(m)[..i]);
    StepAdds(s, m, i, t.mem, t.issued);
  }

  lemma {:induction false} StepsKeepAdmitted(moves: seq<Move>, s: Cloud, m: Move, n: nat)
    requires SoundCloud(s) && CanMove(s, m) && n <= |Steps(m)| && CloudAdmitted(moves, s)
    requires forall d :: d in Reach(s, m).1 ==> Admitted(moves, Reach(s, m).0, d)
    ensures CloudAdmitted(moves, RunSteps(s, Steps(m)[..n]))
    decreases n
  {
    if n > 0 {
      StepsKeepAdmitted(moves, s, m, n - 1);
      if Steps(m)[n - 1].Do? { MoveStepAdds(s, m, n - 1); }
      TakeKeepsAdmitted(moves, RunSteps(s, Steps(m)[..n - 1]), Steps(m)[n - 1], Reach(s, m).0, Reach(s, m).1);
      assert Steps(m)[..n][..n - 1] == Steps(m)[..n - 1];
    }
  }

  lemma {:induction false} ReachIsAdmitted(moves: seq<Move>, s: Cloud)
    requires moves != [] && CanMove(s, moves[|moves| - 1])
    ensures var m := moves[|moves| - 1]; forall d :: d in Reach(s, m).1 ==> Admitted(moves, Reach(s, m).0, d)
  {
    var m, n := moves[|moves| - 1], |moves| - 1;
    forall d | d in Reach(s, m).1 ensures Admitted(moves, Reach(s, m).0, d) {
      if m.Create? { assert Piloted(moves[n], m.id, d); } else { assert Promotes(moves[n], m.id); }
    }
  }

  lemma {:induction false} EveryJobIsAdmitted(moves: seq<Move>)
    requires Outcome(moves).Some?
    ensures CloudAdmitted(moves, Outcome(moves).value)
    decreases |moves|
  {
    if moves != [] {
      var n := |moves| - 1;
      var s := Outcome(moves[..n]).value;
      EveryJobIsAdmitted(moves[..n]);
      OutcomeIsSound(moves[..n]);
      forall k, d | Admitted(moves[..n], k, d) ensures Admitted(moves, k, d) { AdmittedGrows(moves, k, d); }
      ReachIsAdmitted(moves, s);
      StepsKeepAdmitted(moves, s, moves[n], |Steps(moves[n])|);
      assert Steps(moves[n])[..|Steps(moves[n])|] == Steps(moves[n]);
    }
  }

  /** Whatever happens to promotions later, the first one of a campaign comes when all its jobs had succeeded. */
  lemma {:induction false} FirstPromotionIsEarned(moves: seq<Move>, i: nat, k: string)
    requires Outcome(moves).Some? && i < |moves| && Promotes(moves[i], k) && k != ""
    requires forall j :: 0 <= j < i ==> !Promotes(moves[j], k)
    ensures PromotedAt(moves, i, k)
  {
    OutcomePrefix(moves, i);
    forall j: nat ensures !Broken(moves[..i], j, k) {
      assert j < i ==> moves[..i][j] == moves[j] && !Promotes(moves[j], k);
    }
    PilotCompleteIsTrue(moves[..i], k);
  }

  lemma {:induction false} FirstPromotion(moves: seq<Move>, n: nat, k: string) returns (i: nat)
    requires n < |moves| && Promotes(moves[n], k)
    ensures i <= n && Promotes(moves[i], k) && forall j :: 0 <= j < i ==> !Promotes(moves[j], k)
  {
    if j: nat :| j < n && Promotes(moves[j], k) { i := FirstPromotion(moves, j, k); } else { i := n; }
  }

  /** In every run, with handlers that fail or stop anywhere, failed saves and restarts, a device that has a job of a
      campaign was in its pilot group, or the campaign was promoted at a moment when it said `canary_complete` and
      every job it held had succeeded. */
  lemma {:induction false} OnlyPilotsBeforePromotion(moves: seq<Move>, id: string)
    requires Outcome(moves).Some?
    requires var jobs := Outcome(moves).value.mem.jobs; id in jobs && jobs[id].deployment != ""
    ensures var j := Outcome(moves).value.mem.jobs[id];
            || (exists i: nat :: i < |moves| && Piloted(moves[i], j.deployment, j.device))
            || (exists i: nat :: PromotedAt(moves, i, j.deployment))
  {
    var j := Outcome(moves).value.mem.jobs[id];
    EveryJobIsAdmitted(moves);
    if n: nat :| n < |moves| && Promotes(moves[n], j.deployment) {
      var i := FirstPromotion(moves, n, j.deployment);
      FirstPromotionIsEarned(moves, i, j.deployment);
    }
  }
}
