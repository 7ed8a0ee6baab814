/** Staged rollouts: the pilot group of a campaign, its jobs, and what the two campaign handlers do. */
module Rollout {
  import opened Text
  import opened CloudTypes
  import opened CloudIntegrity

  const JOB_LIFETIME := 24 * 3600 * 1_000_000_000

  /** ceil(targets * percent / 100), and at least one. */
  function PilotSize(targets: nat, percent: int): int {
    var share := (targets * percent + 99) / 100;
    if share < 1 then 1 else share
  }

  predicate ValidRollout(c: Campaign) {
    1 <= c.canaryPercent <= 100 && c.targets != []
  }

  lemma {:induction false} PilotSizeInRange(targets: nat, percent: int)
    requires targets >= 1 && 1 <= percent <= 100
    ensures 1 <= PilotSize(targets, percent) <= targets
    ensures percent == 100 ==> PilotSize(targets, percent) == targets
    ensures 100 * PilotSize(targets, percent) >= targets * percent > 100 * (PilotSize(targets, percent) - 1)
  {
    assert targets * percent <= targets * 100;
    assert targets * percent >= 1;
  }

  function Pilot(c: Campaign): (pilot: seq<string>)
    requires ValidRollout(c)
    ensures pilot <= c.targets && pilot != []
  {
    PilotSizeInRange(|c.targets|, c.canaryPercent);
    c.targets[..PilotSize(|c.targets|, c.canaryPercent)]
  }

  function JobKey(c: Campaign, device: string): string {
    c.id + ":" + device
  }

  function OtaJob(c: Campaign, device: string, now: int): Job {
    Job("", "", device, c.id, "ota_update", Some(c.release.(updateId := c.id)), now + JOB_LIFETIME, 0, Queued,
        JobKey(c, device), "")
  }

  // ---------- the handlers on values, each taken as one step ----------

  /** `queueOTAJobs` while every job can be created. */
  function QueueJobs(db: Db, c: Campaign, targets: seq<string>, ids: seq<string>, now: int): Db
    requires |ids| == |targets|
    decreases |targets|
  {
    if targets == [] then db
    else
      var n := |targets| - 1;
      Apply(QueueJobs(db, c, targets[..n], ids[..n], now), CreateJob(c.tenant, OtaJob(c, targets[n], now), ids[n]))
  }

  function NewCampaign(c: Campaign, tenant: string, id: string): Campaign {
    c.(id := id, tenant := tenant, state := CampaignState.Ready)
  }

  function AfterCreate(db: Db, tenant: string, c: Campaign, id: string, ids: seq<string>, now: int): Db
    requires ValidRollout(c) && |ids| == |Pilot(c)|
  {
    var created := NewCampaign(c, tenant, id);
    var queued := QueueJobs(db.(campaigns := db.campaigns[id := created]), created, Pilot(c), ids, now);
    queued.(campaigns := queued.campaigns[id :=
        created.(state := if |Pilot(c)| < |c.targets| then CanaryQueued else AllQueued)])
  }

  predicate HasJob(db: Db, c: Campaign, device: string) {
    exists id :: id in db.jobs && Holds(c, db.jobs[id]) && db.jobs[id].device == device
  }

  function Remaining(db: Db, c: Campaign, targets: seq<string>): seq<string> {
    if targets == [] then []
    else (if HasJob(db, c, targets[0]) then [] else [targets[0]]) + Remaining(db, c, targets[1..])
  }

  predicate Promotable(db: Db, tenant: string, id: string) {
    && id in db.campaigns && db.campaigns[id].tenant == tenant && db.campaigns[id].state == CanaryComplete
    && Remaining(db, db.campaigns[id], db.campaigns[id].targets) != []
  }

  function AfterPromote(db: Db, tenant: string, id: string, ids: seq<string>, now: int): Db
    requires Promotable(db, tenant, id)
    requires |ids| == |Remaining(db, db.campaigns[id], db.campaigns[id].targets)|
  {
    var c := db.campaigns[id];
    var queued := QueueJobs(db, c, Remaining(db, c, c.targets), ids, now);
    queued.(campaigns := queued.campaigns[id := c.(state := AllQueued)])
  }

  predicate Distinct(ids: seq<string>) {
    forall i, j :: 0 <= i < j < |ids| ==> ids[i] != ids[j]
  }

  predicate FreshIds(ids: seq<string>, issued: set<string>) {
    Distinct(ids) && forall i :: 0 <= i < |ids| ==> ids[i] !in issued
  }

  predicate OwnTargets(db: Db, tenant: string, targets: seq<string>) {
    forall i :: 0 <= i < |targets| ==> OwnDevice(db.devices, tenant, targets[i])
  }

  lemma {:induction false} CreationAddsOneJob(db: Db, issued: set<string>, c: Campaign, device: string, id: string,
                                              now: int)
    requires Sound(db, issued) && id !in issued
    ensures OnlyAdds(db, Apply(db, CreateJob(c.tenant, OtaJob(c, device, now), id)), c, [device])
  {}

  /** `after` has more jobs than `before`, all of this campaign and for these devices, and is otherwise the same. */
  predicate OnlyAdds(before: Db, after: Db, c: Campaign, targets: seq<string>) {
    && after.(jobs := before.jobs) == before
    && (forall id :: id in before.jobs ==> id in after.jobs && after.jobs[id] == before.jobs[id])
    && (forall id :: id in after.jobs && id !in before.jobs ==>
       Holds(c, after.jobs[id]) && after.jobs[id].device in targets)
  }

  lemma {:induction false} AddsOneMore(a: Db, b: Db, d: Db, c: Campaign, targets: seq<string>, device: string)
    requires OnlyAdds(a, b, c, targets) && OnlyAdds(b, d, c, [device])
    ensures OnlyAdds(a, d, c, targets + [device])
  {}

  function IdsOf(ids: seq<string>): set<string> {
    set i | 0 <= i < |ids| :: ids[i]
  }

  lemma {:induction false} QueueOneMore(db: Db, q: Db, issued: set<string>, c: Campaign, front: seq<string>,
                                        device: string, id: string, now: int)
    requires OnlyAdds(db, q, c, front) && Sound(q, issued) && id !in issued
    ensures var post := Apply(q, CreateJob(c.tenant, OtaJob(c, device, now), id));
            OnlyAdds(db, post, c, front + [device]) && Sound(post, issued + {id})
  {
    var op := CreateJob(c.tenant, OtaJob(c, device, now), id);
    CreationAddsOneJob(q, issued, c, device, id, now);
    ApplyKeepsSound(q, issued, op);
    AddsOneMore(db, q, Apply(q, op), c, front, device);
  }

  /** What queueing does to the store: new jobs of this campaign for these targets, and nothing else. */
  lemma {:induction false} QueueAddsOnlyItsJobs(db: Db, issued: set<string>, c: Campaign, targets: seq<string>,
                                                ids: seq<string>, now: int)
    requires |ids| == |targets| && Sound(db, issued) && FreshIds(ids, issued)
    ensures var q := QueueJobs(db, c, targets, ids, now);
            OnlyAdds(db, q, c, targets) && Sound(q, issued + IdsOf(ids))
    decreases |targets|
  {
    if targets == [] {
      assert issued + IdsOf(ids) == issued;
    } else {
      var n := |targets| - 1;
      var front, q := targets[..n], QueueJobs(db, c, targets[..n], ids[..n], now);
      OneMoreId(ids, issued, n);
      QueueAddsOnlyItsJobs(db, issued, c, front, ids[..n], now);
      QueueOneMore(db, q, issued + IdsOf(ids[..n]), c, front, targets[n], ids[n], now);
      assert targets == front + [targets[n]];
    }
  }

  lemma {:induction false} OneMoreId(ids: seq<string>, issued: set<string>, n: nat)
    requires FreshIds(ids, issued) && n == |ids| - 1
    ensures FreshIds(ids[..n], issued) && ids[n] !in issued + IdsOf(ids[..n])
    ensures issued + IdsOf(ids) == issued + IdsOf(ids[..n]) + {ids[n]}
  {
    assert forall i :: 0 <= i < n ==> ids[..n][i] == ids[i];
  }

  // ---------- what the handlers do ----------

  /** A store call that a handler holding campaign `c` may make while it queues jobs for `targets`: create one
      of these jobs, or write `c` back in a state the handlers use. */
  predicate HandlerCall(c: Campaign, targets: seq<string>, op: Op) {
    || (op.CreateJob? && op.tenant == c.tenant && op.job.device in targets
        && op.job == OtaJob(c, op.job.device, op.job.expiresAt - JOB_LIFETIME))
    || (op.UpdateCampaign? && op.tenant == c.tenant && op.campaign == c.(state := op.campaign.state)
        && (op.campaign.state == CampaignFailed || op.campaign.state == CanaryQueued || op.campaign.state == AllQueued))
  }

  predicate HandlerOp(c: Campaign, op: Op) {
    HandlerCall(c, c.targets, op)
  }
}
