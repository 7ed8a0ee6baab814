/** What the store's operations mean for the records, in terms of their fields. */
module StoreMeaning {
  import opened Text
  import opened CloudTypes
  import opened CloudIntegrity

  // ---------- polls ----------

  /** A poll finds a job exactly when the device has one that is queued, delivered, running or rebooting and whose
      deadline has not passed; it hands out such a job; and it expires only ones whose deadline has passed, all of
      them when it finds none. */
  lemma {:induction false} PollMeans(db: Db, issued: set<string>, tenant: string, device: string, now: int,
                                     expired: set<string>, chosen: Option<string>)
    requires Allowed(db, issued, NextJob(tenant, device, now, expired, chosen))
    ensures chosen.Some? <==>
              exists id :: id in db.jobs && db.jobs[id].tenant == tenant && db.jobs[id].device == device
                           && db.jobs[id].state in {Queued, Delivered, Running, InReboot}
                           && now <= db.jobs[id].expiresAt
    ensures chosen.Some? ==>
              var j := db.jobs[chosen.value];
              && chosen.value in db.jobs && j.tenant == tenant && j.device == device
              && j.state in {Queued, Delivered, Running, InReboot} && now <= j.expiresAt
    ensures forall id :: id in expired ==>
              && id in db.jobs && db.jobs[id].tenant == tenant && db.jobs[id].device == device
              && db.jobs[id].state in {Queued, Delivered, Running, InReboot} && now > db.jobs[id].expiresAt
    ensures chosen == None ==>
              forall id | id in db.jobs && db.jobs[id].tenant == tenant && db.jobs[id].device == device
                          && db.jobs[id].state in {Queued, Delivered, Running, InReboot} :: id in expired
  {
    if id :| id in db.jobs && db.jobs[id].tenant == tenant && db.jobs[id].device == device
             && db.jobs[id].state in {Queued, Delivered, Running, InReboot} && now <= db.jobs[id].expiresAt {
      assert Due(db.jobs[id], tenant, device, now);
      assert !CloudTypes.Overdue(db.jobs[id], tenant, device, now);
    }
  }

  /** What a poll makes of each job: the one that is handed out is delivered and counts one more attempt, the
      expired ones say so, and every other stays as it is. */
  lemma {:induction false} PollLeaves(db: Db, issued: set<string>, op: Op, id: string)
    requires op.NextJob? && Allowed(db, issued, op) && id in db.jobs
    ensures var post := Apply(db, op);
            id in post.jobs && post == db.(jobs := post.jobs) && post.jobs.Keys == db.jobs.Keys
    ensures var j, k := db.jobs[id], Apply(db, op).jobs[id];
            if op.chosen == Some(id) then k == j.(state := Delivered, attempt := j.attempt + 1)
            else if id in op.expired then k == j.(state := Expired)
            else k == j
  {}

  // ---------- results and campaigns ----------

  /** A result is taken for a job of the tenant: success, failure, a pending reboot and running are recorded as
      reported, anything else as failure; no other job changes. */
  lemma {:induction false} ResultMeans(db: Db, op: Op)
    requires op.CompleteJob? && op.id in db.jobs && db.jobs[op.id].tenant == op.tenant
    ensures var jobs := Apply(db, op).jobs;
            && jobs.Keys == db.jobs.Keys
            && (forall id :: id in db.jobs && id != op.id ==> jobs[id] == db.jobs[id])
            && jobs[op.id] == db.jobs[op.id].(state := jobs[op.id].state, result := op.result)
            && (jobs[op.id].state == Succeeded <==> op.reported == Succeeded)
            && (jobs[op.id].state == InReboot <==> op.reported == InReboot)
            && (jobs[op.id].state == Running <==> op.reported == Running)
            && (jobs[op.id].state in {Succeeded, InReboot, Running, JobState.Failed})
  {}

  /** The jobs that belong to a campaign. */
  predicate Belongs(c: Campaign, jobs: map<string, Job>, id: string) {
    id in jobs && jobs[id].tenant == c.tenant && jobs[id].deployment == c.id
  }

  /** The state that a campaign's jobs stand for: failed with one that failed or expired; otherwise running with
      one that has not succeeded; otherwise its pilot is complete or it is, by whether there are fewer jobs than
      targets. Without jobs it keeps its state. */
  lemma {:induction false} CampaignStateMeans(c: Campaign, jobs: map<string, Job>)
    ensures (forall id :: !Belongs(c, jobs, id)) ==> StateFromJobs(c, jobs) == c.state
    ensures (exists id :: Belongs(c, jobs, id)) ==>
              var state := StateFromJobs(c, jobs);
              var broken := exists id :: Belongs(c, jobs, id) && jobs[id].state in {JobState.Failed, Expired};
              var allDone := forall id :: Belongs(c, jobs, id) ==> jobs[id].state == Succeeded;
              var fewer := |set id | id in jobs && Belongs(c, jobs, id)| < |c.targets|;
              && (state == CampaignFailed <==> broken)
              && (state == InProgress <==> !broken && !allDone)
              && (state == CanaryComplete <==> allDone && fewer)
              && (state == CampaignCompleted <==> allDone && !fewer)
  {
    assert JobsOf(c, jobs) == set id | id in jobs && Belongs(c, jobs, id);
    if id :| Belongs(c, jobs, id) { assert id in JobsOf(c, jobs); }
    if broken: string :| Belongs(c, jobs, broken) && jobs[broken].state in {JobState.Failed, Expired} {
      assert broken in JobsOf(c, jobs);
    }
    if slow: string :| Belongs(c, jobs, slow) && jobs[slow].state != Succeeded { assert slow in JobsOf(c, jobs); }
  }

  /** After a result the campaign of the job, if it is the tenant's, has the state that its jobs now stand for, and
      no other campaign changes. */
  lemma {:induction false} ResultReachesCampaign(db: Db, issued: set<string>, op: Op, k: string)
    requires Sound(db, issued) && op.CompleteJob? && op.id in db.jobs && db.jobs[op.id].tenant == op.tenant
    requires k in db.campaigns
    ensures var c, post := db.campaigns[k], Apply(db, op);
            && k in post.campaigns
            && post.campaigns[k] == c.(state := if k == db.jobs[op.id].deployment && c.tenant == op.tenant
                                               then StateFromJobs(c, post.jobs) else c.state)
  {}

  // ---------- creation and removal of jobs ----------

  /** One of the tenant's jobs has this key, which is not empty. */
  predicate HasJobOfKey(db: Db, tenant: string, key: string) {
    key != "" && exists id :: id in db.jobs && db.jobs[id].tenant == tenant && db.jobs[id].key == key
  }

  lemma {:induction false} KeyTakenMeans(db: Db, tenant: string, key: string)
    ensures KeyTaken(db.jobs, tenant, key) <==> HasJobOfKey(db, tenant, key)
  {
    if KeyTaken(db.jobs, tenant, key) {
      var id :| id in db.jobs && SameKey(db.jobs[id], tenant, key);
      assert db.jobs[id].key == key;
    }
    if HasJobOfKey(db, tenant, key) {
      var id :| id in db.jobs && db.jobs[id].tenant == tenant && db.jobs[id].key == key;
      assert SameKey(db.jobs[id], tenant, key);
    }
  }

  /** A job is created for a device of the tenant, unless one of the tenant's jobs has its key already; it is queued
      unless it says otherwise, gets its id and tenant, and nothing else changes. */
  lemma {:induction false} CreationMeans(db: Db, issued: set<string>, op: Op)
    requires Sound(db, issued) && Allowed(db, issued, op) && op.CreateJob?
    ensures var own := op.job.device in db.devices && db.devices[op.job.device].tenant == op.tenant;
            var state := if op.job.state == Unset then Queued else op.job.state;
            var made := op.job.(id := op.id, tenant := op.tenant, state := state);
            Apply(db, op) ==
              if own && !HasJobOfKey(db, op.tenant, op.job.key) then db.(jobs := db.jobs[op.id := made]) else db
  {
    KeyTakenMeans(db, op.tenant, op.job.key);
  }

  /** A job is removed exactly when it is the tenant's and has succeeded, failed, expired or been cancelled. */
  lemma {:induction false} RemovalMeans(db: Db, op: Op, id: string)
    requires op.DeleteJob? && id in db.jobs
    ensures var post := Apply(db, op);
            && post == db.(jobs := post.jobs)
            && (id !in post.jobs <==>
                  id == op.id && db.jobs[id].tenant == op.tenant
                  && db.jobs[id].state in {Succeeded, JobState.Failed, Expired, Cancelled})
            && (id in post.jobs ==> post.jobs[id] == db.jobs[id])
  {}

  // ---------- campaigns and devices ----------

  /** A campaign is created for its own tenant, or one that names none, under its new id. */
  lemma {:induction false} CampaignCreationMeans(db: Db, op: Op)
    requires op.CreateCampaign?
    ensures var c := op.campaign;
            var made := c.(id := op.id, tenant := op.tenant, state := if c.state == NoState then Ready else c.state);
            Apply(db, op) ==
              if c.tenant != "" && c.tenant != op.tenant then db else db.(campaigns := db.campaigns[op.id := made])
  {}

  /** A campaign is replaced only within its tenant. */
  lemma {:induction false} CampaignUpdateMeans(db: Db, op: Op)
    requires op.UpdateCampaign?
    ensures var c := op.campaign;
            Apply(db, op) ==
              if c.id in db.campaigns && db.campaigns[c.id].tenant == op.tenant && c.tenant == op.tenant
              then db.(campaigns := db.campaigns[c.id := c]) else db
  {}

  /** Of a batch of at most 5000 metrics those before the first one that is refused are taken: one for a device that
      is not the tenant's, or with more than twelve labels. */
  lemma {:induction false} TelemetryMeans(db: Db, op: Op)
    requires op.AddTelemetry?
    ensures var n := Accepted(db.devices, op.tenant, op.batch);
            && n <= |op.batch|
            && (forall i :: 0 <= i < n ==>
                  && op.batch[i].device in db.devices && db.devices[op.batch[i].device].tenant == op.tenant
                  && op.batch[i].labels <= 12)
            && (n < |op.batch| ==>
                  || op.batch[n].device !in db.devices || db.devices[op.batch[n].device].tenant != op.tenant
                  || op.batch[n].labels > 12)
            && Apply(db, op) == if |op.batch| > 5000 then db else db.(telemetry := db.telemetry + op.batch[..n])
  {
    AcceptedMeans(db.devices, op.tenant, op.batch);
  }

  lemma {:induction false} AcceptedMeans(devices: map<string, Device>, tenant: string, batch: seq<Metric>)
    ensures var n := Accepted(devices, tenant, batch);
            && n <= |batch|
            && (forall i :: 0 <= i < n ==> AcceptsMetric(devices, tenant, batch[i]))
            && (n < |batch| ==> !AcceptsMetric(devices, tenant, batch[n]))
  {
    if batch != [] && AcceptsMetric(devices, tenant, batch[0]) {
      AcceptedMeans(devices, tenant, batch[1..]);
      var n := Accepted(devices, tenant, batch[1..]);
      assert forall i :: 1 <= i < n + 1 ==> batch[i] == batch[1..][i - 1];
      assert n + 1 < |batch| ==> batch[n + 1] == batch[1..][n];
    }
  }

  /** Over every interleaving, with failed saves and restarts, in memory and on file: two jobs of a tenant with the
      same key that is not empty are the same, and each job, metric and inventory entry is one of a device there is,
      a job one of its own tenant. */
  lemma {:induction false} RunsMean(steps: seq<Step>)
    requires CanRun(Cloud(EMPTY, EMPTY, {}), steps)
    ensures var s := RunSteps(Cloud(EMPTY, EMPTY, {}), steps);
            forall db :: db == s.mem || db == s.file ==>
              && (forall a, b | a in db.jobs && b in db.jobs && db.jobs[a].tenant == db.jobs[b].tenant
                                && db.jobs[a].key == db.jobs[b].key != "" :: a == b)
              && (forall id :: id in db.jobs ==>
                    db.jobs[id].device in db.devices && db.devices[db.jobs[id].device].tenant == db.jobs[id].tenant)
              && (forall i :: 0 <= i < |db.telemetry| ==> db.telemetry[i].device in db.devices)
              && (forall d :: d in db.inventory ==> d in db.devices)
  {
    EveryRunIsSound(steps);
    var s := RunSteps(Cloud(EMPTY, EMPTY, {}), steps);
    SoundMeans(s.mem, s.issued);
    SoundMeans(s.file, s.issued);
  }

  lemma {:induction false} SoundMeans(db: Db, issued: set<string>)
    requires Sound(db, issued)
    ensures forall a, b | a in db.jobs && b in db.jobs && db.jobs[a].tenant == db.jobs[b].tenant
                          && db.jobs[a].key == db.jobs[b].key != "" :: a == b
    ensures forall id :: id in db.jobs ==>
              db.jobs[id].device in db.devices && db.devices[db.jobs[id].device].tenant == db.jobs[id].tenant
    ensures forall d :: d in db.inventory ==> d in db.devices
  {
    forall a, b | a in db.jobs && b in db.jobs && db.jobs[a].tenant == db.jobs[b].tenant
                  && db.jobs[a].key == db.jobs[b].key != "" ensures a == b {
      assert SameKey(db.jobs[a], db.jobs[b].tenant, db.jobs[b].key);
    }
  }
}
