/** The two campaign handlers as the server runs them: several store calls, any of which may fail. */
module RolloutHandlers {
  import opened Text
  import opened CloudTypes
  import opened CloudStore
  import opened CloudIntegrity
  import opened Rollout
  import opened RolloutGate

  datatype CreateReply =
    | InvalidCampaign | UnknownTarget | IncompatibleTarget | CampaignError | QueueFailed | UpdateFailed
    | CampaignCreated(campaign: Campaign)

  datatype PromoteReply =
    | CampaignNotFound | NotPromotable | AlreadyPromoted | PromotionQueueFailed | PromotionUpdateFailed
    | Promoted(campaign: Campaign)

  /** What a handler did is a sequence of its store calls. */
  predicate Worked(before: Cloud, after: Cloud, c: Campaign, targets: seq<string>, steps: seq<Step>) {
    CanRun(before, steps) && after == RunSteps(before, steps) && HandlerSteps(c, targets, steps)
  }

  lemma {:induction false} WorkedMore(before: Cloud, middle: Cloud, c: Campaign, targets: seq<string>,
                                      steps: seq<Step>, step: Step)
    requires Worked(before, middle, c, targets, steps)
    requires CanTake(middle, step) && step.Do? && HandlerCall(c, targets, step.op)
    ensures Worked(before, Take(middle, step), c, targets, steps + [step])
  {
    assert (steps + [step])[..|steps|] == steps;
  }

  lemma {:induction false} StepFirst(s: Cloud, step: Step, steps: seq<Step>)
    requires CanTake(s, step) && CanRun(Take(s, step), steps)
    ensures CanRun(s, [step] + steps) && RunSteps(s, [step] + steps) == RunSteps(Take(s, step), steps)
    decreases |steps|
  {
    var all := [step] + steps;
    if steps == [] {
      assert all[..|all| - 1] == [] && all[|all| - 1] == step;
      assert CanRun(s, all[..|all| - 1]) && RunSteps(s, all[..|all| - 1]) == s;
    } else {
      var front, last := steps[..|steps| - 1], steps[|steps| - 1];
      StepFirst(s, step, front);
      assert all[..|all| - 1] == [step] + front && all[|all| - 1] == last;
      assert RunSteps(s, all) == Take(RunSteps(s, [step] + front), last);
    }
  }

  lemma {:induction false} CreationMoved(before: Cloud, after: Cloud, tenant: string, c: Campaign, id: string,
                                         first: Step, more: seq<Step>)
    requires ValidRollout(c) && (c.tenant == "" || c.tenant == tenant) && CanTake(before, first)
    requires first.Do? && first.op == CreateCampaign(tenant, c.(state := CampaignState.Ready), id)
    requires Worked(Take(before, first), after, NewCampaign(c, tenant, id), Pilot(c), more)
    ensures MoveOutcome(before, Move.Create(tenant, c, id, [first] + more)) == Some(after)
  {
    StepFirst(before, first, more);
    assert ([first] + more)[1..] == more;
  }

  predicate Spend(issued: set<string>, ids: seq<string>, now: set<string>) {
    issued <= now && forall id :: id in now && id !in issued ==> id in ids
  }

  lemma {:induction false} SpendMore(ids: seq<string>, i: nat, before: set<string>, middle: set<string>,
      after: set<string>)
    requires i < |ids| && Spend(before, ids[..i], middle) && Spend(middle, [ids[i]], after)
    ensures Spend(before, ids[..i + 1], after)
  {
    assert ids[..i + 1] == ids[..i] + [ids[i]];
  }

  lemma {:induction false} SpendAll(ids: seq<string>, i: nat, before: set<string>, after: set<string>)
    requires i <= |ids| && Spend(before, ids[..i], after)
    ensures Spend(before, ids, after)
  {}

  lemma {:induction false} NextIsFresh(ids: seq<string>, i: nat, before: set<string>, now: set<string>)
    requires i < |ids| && FreshIds(ids, before) && Spend(before, ids[..i], now)
    ensures ids[i] !in now
  {
    assert ids[i] !in ids[..i];
  }

  lemma {:induction false} QueueNext(db: Db, c: Campaign, targets: seq<string>, ids: seq<string>, now: int, i: nat)
    requires i < |targets| == |ids|
    ensures QueueJobs(db, c, targets[..i + 1], ids[..i + 1], now)
            == Apply(QueueJobs(db, c, targets[..i], ids[..i], now),
                CreateJob(c.tenant, OtaJob(c, targets[i], now), ids[i]))
  {
    assert targets[..i + 1][..i] == targets[..i] && ids[..i + 1][..i] == ids[..i];
  }

  class Handlers {
    const store: Store

    constructor (store: Store)
      ensures this.store == store
    {
      this.store := store;
    }

    ghost function Now(): Cloud
      reads store
    {
      Cloud(store.Contents(), store.file, store.issued)
    }

    /** `queueOTAJobs`: stops at the first job that cannot be created. */
    method Queue(c: Campaign, targets: seq<string>, ids: seq<string>, now: int)
      returns (err: Failure, ghost steps: seq<Step>)
      requires |ids| == |targets| && FreshIds(ids, store.issued)
      modifies store
      ensures Worked(old(Now()), Now(), c, targets, steps) && !AnyWrites(steps)
      ensures err == None ==> store.Contents() == QueueJobs(old(store.Contents()), c, targets, ids, now)
      ensures store.campaigns == old(store.campaigns) && Spend(old(store.issued), ids, store.issued)
    {
      steps := [];
      ghost var db := store.Contents();
      var i := 0;
      while i < |targets|
        modifies store
        invariant 0 <= i <= |targets|
        invariant Worked(old(Now()), Now(), c, targets, steps) && !AnyWrites(steps)
        invariant store.Contents() == QueueJobs(db, c, targets[..i], ids[..i], now)
        invariant store.campaigns == old(store.campaigns) && Spend(old(store.issued), ids[..i], store.issued)
      {
        ghost var spent := store.issued;
        NextIsFresh(ids, i, old(store.issued), spent);
        QueueNext(db, c, targets, ids, now, i);
        var refused;
        refused, steps := QueueOne(c, targets, targets[i], ids[i], now, old(Now()), steps);
        SpendMore(ids, i, old(store.issued), spent, store.issued);
        if refused.Some? {
          SpendAll(ids, i + 1, old(store.issued), store.issued);
          return refused, steps;
        }
        i := i + 1;
      }
      assert targets[..i] == targets && ids[..i] == ids;
      err := None;
    }

    /** One job: the call is a step of the handler unless the store refuses it or knows the job already. */
    method QueueOne(c: Campaign, ghost targets: seq<string>, device: string, id: string, now: int,
                    ghost start: Cloud, ghost done: seq<Step>)
      returns (refused: Failure, ghost steps: seq<Step>)
      requires id !in store.issued && device in targets
      requires Worked(start, Now(), c, targets, done) && !AnyWrites(done)
      modifies store
      ensures Worked(start, Now(), c, targets, steps) && !AnyWrites(steps)
      ensures refused == None ==>
                store.Contents() == Apply(old(store.Contents()), CreateJob(c.tenant, OtaJob(c, device, now), id))
      ensures store.campaigns == old(store.campaigns) && Spend(old(store.issued), [id], store.issued)
    {
      ghost var before := Now();
      var _, err := store.CreateJob(c.tenant, OtaJob(c, device, now), id);
      ghost var step := Do(CreateJob(c.tenant, OtaJob(c, device, now), id), err == None);
      refused, steps := err, done;
      if Now() != before {
        WorkedMore(start, before, c, targets, done, step);
        AnyWritesLast(done + [step]);
        assert (done + [step])[..|done|] == done;
        steps := done + [step];
      }
    }

    /** The checks of a new campaign's targets. */
    method CheckTargets(tenant: string, c: Campaign, fits: Device -> bool) returns (refusal: Option<CreateReply>)
      ensures refusal == None ==> OwnTargets(store.Contents(), tenant, c.targets)
                                  && forall i :: 0 <= i < |c.targets| ==> fits(store.devices[c.targets[i]])
      ensures refusal.Some? ==> refusal.value.UnknownTarget? || refusal.value.IncompatibleTarget?
      ensures refusal == Some(UnknownTarget) ==> !OwnTargets(store.Contents(), tenant, c.targets)
      ensures refusal == Some(IncompatibleTarget) ==>
                exists i :: 0 <= i < |c.targets| && OwnDevice(store.devices, tenant, c.targets[i])
                            && !fits(store.devices[c.targets[i]])
    {
      for i := 0 to |c.targets|
        invariant forall k :: 0 <= k < i ==>
                  OwnDevice(store.devices, tenant, c.targets[k]) && fits(store.devices[c.targets[k]])
      {
        var device, err := store.GetDevice(tenant, c.targets[i]);
        if err.Some? { return Some(UnknownTarget); }
        if !fits(device.value) { return Some(IncompatibleTarget); }
      }
      refusal := None;
    }

    /** POST: create a campaign and queue its pilot group. `fits` is the architecture and adapter check. */
    method Create(tenant: string, c: Campaign, metadataValid: bool, fits: Device -> bool, id: string,
                  ids: seq<string>, now: int)
      returns (reply: CreateReply, ghost steps: seq<Step>)
      requires ValidRollout(c) ==> |ids| == |Pilot(c)|
      requires id !in store.issued && FreshIds(ids, store.issued + {id})
      modifies store
      ensures reply.InvalidCampaign? <==> !(metadataValid && ValidRollout(c))
      ensures reply.UnknownTarget? ==> !OwnTargets(old(store.Contents()), tenant, c.targets)
      ensures steps == [] ==> Now() == old(Now())
      ensures steps != [] ==> MoveOutcome(old(Now()), Move.Create(tenant, c, id, steps)) == Some(Now())
      ensures reply.InvalidCampaign? || reply.UnknownTarget? || reply.IncompatibleTarget? ==> steps == []
      ensures reply.CampaignError? ==>
                steps == if c.tenant == "" || c.tenant == tenant
                         then [Do(CreateCampaign(tenant, c.(state := CampaignState.Ready), id), false)] else []
      ensures reply.QueueFailed? || reply.UpdateFailed? || reply.CampaignCreated? ==>
                && steps != [] && id in store.campaigns
                && (reply.QueueFailed? <==> store.campaigns[id].state == CampaignFailed)
      ensures reply.CampaignCreated? ==>
                && OwnTargets(old(store.Contents()), tenant, c.targets)
                && store.Contents() == AfterCreate(old(store.Contents()), tenant, c, id, ids, now)
                && reply.campaign == store.campaigns[id] && store.file == store.Contents()
    {
      steps := [];
      if !metadataValid || !(1 <= c.canaryPercent <= 100) || |c.targets| == 0 { return InvalidCampaign, []; }
      var refusal := CheckTargets(tenant, c, fits);
      if refusal.Some? { return refusal.value, []; }
      PilotSizeInRange(|c.targets|, c.canaryPercent);
      reply, steps := Launch(tenant, c, id, ids, now);
    }

    /** The store calls of a creation whose checks passed. */
    method Launch(tenant: string, c: Campaign, id: string, ids: seq<string>, now: int)
      returns (reply: CreateReply, ghost steps: seq<Step>)
      requires ValidRollout(c) && |ids| == |Pilot(c)| && id !in store.issued && FreshIds(ids, store.issued + {id})
      modifies store
      ensures reply.CampaignError? || reply.QueueFailed? || reply.UpdateFailed? || reply.CampaignCreated?
      ensures steps == [] ==> Now() == old(Now())
      ensures steps != [] ==> MoveOutcome(old(Now()), Move.Create(tenant, c, id, steps)) == Some(Now())
      ensures reply.CampaignError? ==>
                steps == if c.tenant == "" || c.tenant == tenant
                         then [Do(CreateCampaign(tenant, c.(state := CampaignState.Ready), id), false)] else []
      ensures !reply.CampaignError? ==> steps != []
      ensures !reply.CampaignError? ==>
                id in store.campaigns && (reply.QueueFailed? <==> store.campaigns[id].state == CampaignFailed)
      ensures reply.CampaignCreated? ==>
                && store.Contents() == AfterCreate(old(store.Contents()), tenant, c, id, ids, now)
                && reply.campaign == store.campaigns[id] && store.file == store.Contents()
    {
      ghost var before := Now();
      var made, err := store.CreateCampaign(tenant, c.(state := CampaignState.Ready), id);
      if c.tenant != "" && c.tenant != tenant { return CampaignError, []; }
      ghost var first := Do(CreateCampaign(tenant, c.(state := CampaignState.Ready), id), err == None);
      assert Now() == Take(before, first);
      if err.Some? {
        CreationMoved(before, Now(), tenant, c, id, first, []);
        assert [first] + [] == [first];
        return CampaignError, [first];
      }
      ghost var more;
      reply, more := StartPilot(tenant, made.value, ids, now);
      CreationMoved(before, Now(), tenant, c, id, first, more);
      steps := [first] + more;
    }

    /** Queue the pilot group of a campaign just created, and say so in the campaign. */
    method StartPilot(tenant: string, c: Campaign, ids: seq<string>, now: int)
      returns (reply: CreateReply, ghost steps: seq<Step>)
      requires ValidRollout(c) && c.tenant == tenant && |ids| == |Pilot(c)| && FreshIds(ids, store.issued)
      requires c.id in store.campaigns && store.campaigns[c.id] == c
      modifies store
      ensures reply.QueueFailed? || reply.UpdateFailed? || reply.CampaignCreated?
      ensures c.id in store.campaigns && (reply.QueueFailed? <==> store.campaigns[c.id].state == CampaignFailed)
      ensures Worked(old(Now()), Now(), c, Pilot(c), steps)
      ensures reply.CampaignCreated? ==>
                var queued := QueueJobs(old(store.Contents()), c, Pilot(c), ids, now);
                && reply.campaign == c.(state := if |Pilot(c)| < |c.targets| then CanaryQueued else AllQueued)
                && store.Contents() == queued.(campaigns := queued.campaigns[c.id := reply.campaign])
                && store.file == store.Contents()
    {
      PilotSizeInRange(|c.targets|, c.canaryPercent);
      var created, canary := c, PilotSize(|c.targets|, c.canaryPercent);
      ghost var start := Now();
      var err;
      err, steps := Queue(created, created.targets[..canary], ids, now);
      ghost var middle := Now();
      created := created.(state := if err.Some? then CampaignFailed else if canary < |created.targets| then CanaryQueued
          else AllQueued);
      var refused := store.UpdateCampaign(tenant, created);
      ghost var step := Do(UpdateCampaign(tenant, created), refused == None);
      assert Now() == Take(middle, step);
      WorkedMore(start, middle, c, Pilot(c), steps, step);
      steps := steps + [step];
      if err.Some? { return QueueFailed, steps; }
      if refused.Some? { return UpdateFailed, steps; }
      reply := CampaignCreated(created);
    }

    /** The targets that have no job of the campaign yet, in order. */
    method FindRemaining(tenant: string, c: Campaign) returns (remaining: seq<string>)
      requires c.tenant == tenant
      ensures remaining == Remaining(store.Contents(), c, c.targets)
    {
      ghost var at;
      var found;
      found, at := store.JobsForDeployment(tenant, c.id);
      var existing: set<string> := {};
      for i := 0 to |found|
        invariant existing == set k | 0 <= k < i :: found[k].device
      {
        existing := existing + {found[i].device};
      }
      remaining := [];
      for i := 0 to |c.targets|
        invariant remaining + Remaining(store.Contents(), c, c.targets[i..])
                  == Remaining(store.Contents(), c, c.targets)
      {
        ghost var rest := Remaining(store.Contents(), c, c.targets[i + 1..]);
        assert c.targets[i..][0] == c.targets[i] && c.targets[i..][1..] == c.targets[i + 1..];
        HasJobAsFound(c, found, at, existing, c.targets[i]);
        if c.targets[i] !in existing {
          assert (remaining + [c.targets[i]]) + rest == remaining + ([c.targets[i]] + rest);
          remaining := remaining + [c.targets[i]];
        } else {
          assert [] + rest == rest;
        }
      }
      assert remaining + [] == remaining;
    }

    lemma {:induction false} HasJobAsFound(c: Campaign, found: seq<Job>, at: seq<string>, existing: set<string>,
                                           device: string)
      requires |at| == |found| && forall i :: 0 <= i < |at| ==> at[i] in store.jobs && found[i] == store.jobs[at[i]]
      requires forall id :: id in at <==> store.OfDeployment(id, c.tenant, c.id)
      requires existing == set k | 0 <= k < |found| :: found[k].device
      ensures device in existing <==> HasJob(store.Contents(), c, device)
    {
      if device in existing {
        var k :| 0 <= k < |found| && found[k].device == device;
        assert at[k] in at;
        assert Holds(c, store.Contents().jobs[at[k]]);
      }
      if HasJob(store.Contents(), c, device) {
        var id :| id in store.Contents().jobs && Holds(c, store.jobs[id]) && store.jobs[id].device == device;
        assert store.OfDeployment(id, c.tenant, c.id);
        var k :| 0 <= k < |at| && at[k] == id;
        assert found[k].device == device;
      }
    }

    /** PATCH: promote a campaign whose pilot group is complete. `ids` holds enough fresh job ids. */
    method Promote(tenant: string, id: string, promote: bool, ids: seq<string>, now: int)
      returns (reply: PromoteReply, ghost steps: seq<Step>)
      requires FreshIds(ids, store.issued)
      requires id in store.campaigns ==> store.campaigns[id].id == id && |ids| >= |store.campaigns[id].targets|
      modifies store
      ensures reply.CampaignNotFound? <==> !(id in old(store.campaigns) && old(store.campaigns)[id].tenant == tenant)
      ensures reply.PromotionQueueFailed? || reply.PromotionUpdateFailed? || reply.Promoted?
              <==> promote && Promotable(old(store.Contents()), tenant, id)
      ensures if promote && Promotable(old(store.Contents()), tenant, id)
              then MoveOutcome(old(Now()), Move.Promote(tenant, id, steps)) == Some(Now())
              else Now() == old(Now())
      ensures reply.PromotionQueueFailed? ==> !AnyWrites(steps)
      ensures reply.PromotionUpdateFailed? ==>
                steps != [] && Writes(steps[|steps| - 1]) && !steps[|steps| - 1].saved
      ensures reply.Promoted? ==>
                var db, c := old(store.Contents()), old(store.campaigns)[id];
                var n := |Remaining(db, c, c.targets)|;
                && CameToItsEnd(Move.Promote(tenant, id, steps)) && n <= |ids|
                && store.Contents() == AfterPromote(db, tenant, id, ids[..n], now) && store.file == store.Contents()
    {
      steps := [];
      var found, err := store.GetCampaign(tenant, id);
      if err.Some? { return CampaignNotFound, []; }
      var c := found.value;
      if !promote || c.state != CanaryComplete { return NotPromotable, []; }
      var remaining := FindRemaining(tenant, c);
      if |remaining| == 0 { return AlreadyPromoted, []; }
      RemainingAreTargets(store.Contents(), c, c.targets);
      reply, steps := QueueRest(tenant, c, remaining, ids[..|remaining|], now);
    }

    /** Queue the rest of a promoted campaign, and say so in the campaign. */
    method QueueRest(tenant: string, c: Campaign, rest: seq<string>, ids: seq<string>, now: int)
      returns (reply: PromoteReply, ghost steps: seq<Step>)
      requires c.tenant == tenant && |ids| == |rest| && FreshIds(ids, store.issued)
      requires c.id in store.campaigns && store.campaigns[c.id] == c
      modifies store
      ensures reply.PromotionQueueFailed? || reply.PromotionUpdateFailed? || reply.Promoted?
      ensures Worked(old(Now()), Now(), c, rest, steps)
      ensures reply.PromotionQueueFailed? ==> !AnyWrites(steps)
      ensures !reply.PromotionQueueFailed? ==>
                steps != [] && Writes(steps[|steps| - 1]) && (steps[|steps| - 1].saved <==> reply.Promoted?)
      ensures reply.Promoted? ==>
                var queued := QueueJobs(old(store.Contents()), c, rest, ids, now);
                && store.Contents() == queued.(campaigns := queued.campaigns[c.id := c.(state := AllQueued)])
                && store.file == store.Contents()
    {
      ghost var start := Now();
      var err;
      err, steps := Queue(c, rest, ids, now);
      if err.Some? { return PromotionQueueFailed, steps; }
      ghost var middle := Now();
      var promoted := c.(state := AllQueued);
      err := store.UpdateCampaign(tenant, promoted);
      ghost var step := Do(UpdateCampaign(tenant, promoted), err == None);
      assert Now() == Take(middle, step);
      WorkedMore(start, middle, c, rest, steps, step);
      steps := steps + [step];
      if err.Some? { return PromotionUpdateFailed, steps; }
      reply := Promoted(promoted);
    }
  }

  lemma {:induction false} RemainingAreTargets(db: Db, c: Campaign, targets: seq<string>)
    ensures |Remaining(db, c, targets)| <= |targets|
    ensures forall d :: d in Remaining(db, c, targets) <==> d in targets && !HasJob(db, c, d)
  {
    if targets != [] { RemainingAreTargets(db, c, targets[1..]); }
  }
}
