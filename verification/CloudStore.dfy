/** The control plane's store: maps and lists updated in place under one lock, and saved as a whole. */
module CloudStore {
  import opened Text
  import opened CloudTypes

  class Store {
    var devices: map<string, Device>
    var jobs: map<string, Job>
    var campaigns: map<string, Campaign>
    var telemetry: seq<Metric>
    var inventory: map<string, string>
    var file: Db                   // what a restart would read
    ghost var issued: set<string>  // every id given out so far

    function Contents(): Db
      reads this
    {
      Db(devices, jobs, campaigns, telemetry, inventory)
    }

    /** The operation took place; it was saved if `err` says so. */
    twostate predicate Did(new op: Op, new err: Failure)
      reads this
    {
      && Allowed(old(Contents()), old(issued), op)
      && Contents() == Apply(old(Contents()), op) && issued == old(issued) + Issued(op)
      && (err == None ==> file == Contents())
      && (err.Some? ==> err.value.SaveFailed? && file == old(file))
    }

    /** The operation was refused and nothing changed. */
    twostate predicate Refused(new err: Failure, new reason: StoreError)
      reads this
    {
      err == Some(reason) && Contents() == old(Contents()) && file == old(file) && issued == old(issued)
    }

    constructor Open(file: Db, ghost issued: set<string>)
      ensures Contents() == file && this.file == file && this.issued == issued
    {
      devices, jobs, campaigns := file.devices, file.jobs, file.campaigns;
      telemetry, inventory := file.telemetry, file.inventory;
      this.file, this.issued := file, issued;
    }

    /** `saveLocked`: the whole store is written, or the old file stays. */
    method Save() returns (err: Failure)
      modifies `file
      ensures err == None ==> file == Contents()
      ensures err.Some? ==> err.value.SaveFailed? && file == old(file)
    {
      var cause: Error := *;
      if cause.Some? { return Some(SaveFailed(cause.value)); }
      file := Contents();
      err := None;
    }

    method GetDevice(tenant: string, id: string) returns (device: Option<Device>, err: Failure)
      ensures OwnDevice(devices, tenant, id) <==> err == None
      ensures err == None ==> device == Some(devices[id])
      ensures err.Some? ==> err == Some(if id in devices then TenantMismatch else NotFound)
    {
      if id !in devices { return None, Some(NotFound); }
      if devices[id].tenant != tenant { return None, Some(TenantMismatch); }
      return Some(devices[id]), None;
    }

    method CreateDevice(tenant: string, info: string, id: string) returns (err: Failure)
      requires id !in issued
      modifies this
      ensures Did(Op.CreateDevice(tenant, id, info), err)
    {
      devices := devices[id := Device(id, tenant, info)];
      issued := issued + {id};
      err := Save();
    }

    method UpdateDevice(device: Device) returns (err: Failure)
      modifies this
      ensures if device.id !in old(devices) then Refused(err, NotFound)
              else if old(devices)[device.id].tenant != device.tenant then Refused(err, TenantMismatch)
              else Did(Op.UpdateDevice(device), err)
    {
      if device.id !in devices { return Some(NotFound); }
      if devices[device.id].tenant != device.tenant { return Some(TenantMismatch); }
      devices := devices[device.id := device];
      err := Save();
    }

    method AddTelemetry(tenant: string, batch: seq<Metric>) returns (err: Failure)
      modifies this
      ensures if |batch| > MAX_METRICS then Refused(err, QuotaExceeded)
              else if Accepted(old(devices), tenant, batch) == |batch| then Did(Op.AddTelemetry(tenant, batch), err)
              else
                // the metrics before the refused one stay, in memory only
                && Contents() == Apply(old(Contents()), Op.AddTelemetry(tenant, batch))
                && file == old(file) && issued == old(issued)
                && err == Some(if OwnDevice(devices, tenant, batch[Accepted(devices, tenant, batch)].device)
                               then QuotaExceeded else TenantMismatch)
    {
      if |batch| > MAX_METRICS { return Some(QuotaExceeded); }
      var i := 0;
      while i < |batch|
        modifies this
        invariant 0 <= i <= |batch|
        invariant devices == old(devices) && jobs == old(jobs) && campaigns == old(campaigns)
                  && inventory == old(inventory)
        invariant file == old(file) && issued == old(issued)
        invariant telemetry == old(telemetry) + batch[..i]
        invariant Accepted(devices, tenant, batch) == i + Accepted(devices, tenant, batch[i..])
      {
        var m := batch[i];
        assert batch[i..][0] == m && batch[i..][1..] == batch[i + 1..];
        if m.device !in devices || devices[m.device].tenant != tenant { return Some(TenantMismatch); }
        if m.labels > MAX_LABELS { return Some(QuotaExceeded); }
        telemetry := telemetry + [m];
        i := i + 1;
      }
      assert batch[..|batch|] == batch;
      err := Save();
    }

    method SaveInventory(tenant: string, id: string, payload: string) returns (err: Failure)
      modifies this
      ensures if OwnDevice(old(devices), tenant, id) then Did(Op.SaveInventory(tenant, id, payload), err)
              else Refused(err, if id in devices then TenantMismatch else NotFound)
    {
      var _, refused := GetDevice(tenant, id);
      if refused.Some? { return refused; }
      inventory := inventory[id := payload];
      err := Save();
    }

    /** An existing job with the same non-empty key is returned instead of a new one. */
    method CreateJob(tenant: string, job: Job, id: string) returns (created: Option<Job>, err: Failure)
      requires id !in issued
      modifies this
      ensures if !OwnDevice(old(devices), tenant, job.device) then Refused(err, TenantMismatch) && created == None
              else if KeyTaken(old(jobs), tenant, job.key) then
                && Contents() == old(Contents()) && file == old(file) && issued == old(issued) && err == None
                && created.Some? && created.value in jobs.Values && SameKey(created.value, tenant, job.key)
              else
                && Did(Op.CreateJob(tenant, job, id), err)
                && created == Some(Stamped(job, tenant, id)) && jobs[id] == created.value
    {
      if job.device !in devices || devices[job.device].tenant != tenant { return None, Some(TenantMismatch); }
      var todo := jobs.Keys;
      while todo != {}
        invariant todo <= jobs.Keys
        invariant forall k :: k in jobs && k !in todo ==> !SameKey(jobs[k], tenant, job.key)
      {
        var k :| k in todo;
        todo := todo - {k};
        if job.key != "" && jobs[k].tenant == tenant && jobs[k].key == job.key { return Some(jobs[k]), None; }
      }
      var stamped := job.(id := id, tenant := tenant);
      if stamped.state == Unset { stamped := stamped.(state := Queued); }
      jobs := jobs[id := stamped];
      issued := issued + {id};
      created := Some(stamped);
      err := Save();
    }

    method DeleteJob(tenant: string, id: string) returns (err: Failure)
      modifies this
      ensures if id !in old(jobs) then Refused(err, NotFound)
              else if old(jobs)[id].tenant != tenant then Refused(err, TenantMismatch)
              else if !TerminalJob(old(jobs)[id].state) then Refused(err, NotTerminal)
              else Did(Op.DeleteJob(tenant, id), err)
    {
      if id !in jobs { return Some(NotFound); }
      if jobs[id].tenant != tenant { return Some(TenantMismatch); }
      var state := jobs[id].state;
      if state != Succeeded && state != Failed && state != Expired && state != Cancelled { return Some(NotTerminal); }
      jobs := jobs - {id};
      err := Save();
    }

    method CreateCampaign(tenant: string, campaign: Campaign, id: string) returns (created: Option<Campaign>,
                          err: Failure)
      requires id !in issued
      modifies this
      ensures if campaign.tenant != "" && campaign.tenant != tenant then Refused(err, TenantMismatch) && created == None
              else Did(Op.CreateCampaign(tenant, campaign, id), err) && created == Some(campaigns[id])
    {
      if campaign.tenant != "" && campaign.tenant != tenant { return None, Some(TenantMismatch); }
      var c := campaign.(id := id, tenant := tenant);
      if c.state == NoState { c := c.(state := Ready); }
      campaigns := campaigns[id := c];
      issued := issued + {id};
      created := Some(c);
      err := Save();
    }

    method GetCampaign(tenant: string, id: string) returns (c: Option<Campaign>, err: Failure)
      ensures err == None <==> id in campaigns && campaigns[id].tenant == tenant
      ensures err == None ==> c == Some(campaigns[id])
      ensures err.Some? ==> err == Some(if id in campaigns then TenantMismatch else NotFound)
    {
      if id !in campaigns { return None, Some(NotFound); }
      if campaigns[id].tenant != tenant { return None, Some(TenantMismatch); }
      return Some(campaigns[id]), None;
    }

    method UpdateCampaign(tenant: string, c: Campaign) returns (err: Failure)
      modifies this
      ensures if c.id !in old(campaigns) then Refused(err, NotFound)
              else if old(campaigns)[c.id].tenant != tenant || c.tenant != tenant then Refused(err, TenantMismatch)
              else Did(Op.UpdateCampaign(tenant, c), err)
    {
      if c.id !in campaigns { return Some(NotFound); }
      if campaigns[c.id].tenant != tenant || c.tenant != tenant { return Some(TenantMismatch); }
      campaigns := campaigns[c.id := c];
      err := Save();
    }

    predicate OfDeployment(id: string, tenant: string, deployment: string)
      reads this
    {
      id in jobs && jobs[id].tenant == tenant && jobs[id].deployment == deployment
    }

    /** Each of the tenant's jobs of the deployment, exactly once: `at` names where each was found. */
    method JobsForDeployment(tenant: string, deployment: string) returns (found: seq<Job>, ghost at: seq<string>)
      ensures |at| == |found| && forall i :: 0 <= i < |at| ==> at[i] in jobs && found[i] == jobs[at[i]]
      ensures forall i, j :: 0 <= i < j < |at| ==> at[i] != at[j]
      ensures forall id :: id in at <==> OfDeployment(id, tenant, deployment)
      ensures forall j :: j in found <==> j in jobs.Values && j.tenant == tenant && j.deployment == deployment
    {
      found, at := [], [];
      var todo := jobs.Keys;
      while todo != {}
        invariant todo <= jobs.Keys
        invariant |at| == |found| && forall i :: 0 <= i < |at| ==> at[i] in jobs && found[i] == jobs[at[i]]
        invariant forall i, j :: 0 <= i < j < |at| ==> at[i] != at[j]
        invariant forall id :: id in at <==> OfDeployment(id, tenant, deployment) && id !in todo
        invariant forall j :: j in found ==> j in jobs.Values && j.tenant == tenant && j.deployment == deployment
        invariant forall k :: k !in todo && OfDeployment(k, tenant, deployment) ==> jobs[k] in found
      {
        var k :| k in todo;
        todo := todo - {k};
        if jobs[k].tenant == tenant && jobs[k].deployment == deployment { found, at := found + [jobs[k]], at + [k]; }
      }
    }

    lemma {:induction false} OneMoreExpired(before: map<string, Job>, expired: set<string>, id: string)
      requires id in before && id !in expired
      ensures Polled(before, expired + {id}, None) == Polled(before, expired, None)[id := before[id].(state := Expired)]
    {}

    lemma {:induction false} Chosen(before: map<string, Job>, expired: set<string>, id: string)
      requires id in before && id !in expired
      ensures Polled(before, expired, Some(id))
              == Polled(before, expired, None)[id := before[id].(state := Delivered, attempt := before[id].attempt + 1)]
    {}

    /** A poll that has yet to look at `todo` came upon no job that was due, and expired those that were overdue. */
    ghost predicate PassedOver(before: map<string, Job>, todo: set<string>, expired: set<string>, tenant: string,
                               device: string, now: int)
    {
      && todo <= before.Keys && expired <= before.Keys - todo
      && (forall id :: id in expired ==> CloudTypes.Overdue(before[id], tenant, device, now))
      && (forall id :: id in before && id !in todo && Waiting(before[id], tenant, device) ==> id in expired)
    }

    lemma {:induction false} PassesOver(before: map<string, Job>, todo: set<string>, expired: set<string>,
                                        tenant: string, device: string, now: int, id: string)
      requires PassedOver(before, todo, expired, tenant, device, now) && id in todo
      ensures var overdue := CloudTypes.Overdue(before[id], tenant, device, now);
              !CloudTypes.Due(before[id], tenant, device, now) ==>
                PassedOver(before, todo - {id}, if overdue then expired + {id} else expired, tenant, device, now)
    {}

    lemma {:induction false} PollFindsNone(db: Db, issued: set<string>, expired: set<string>, tenant: string,
                                           device: string, now: int)
      requires PassedOver(db.jobs, {}, expired, tenant, device, now)
      ensures Allowed(db, issued, Op.NextJob(tenant, device, now, expired, None))
    {}

    lemma {:induction false} PollFinds(db: Db, issued: set<string>, todo: set<string>, expired: set<string>,
                                       tenant: string, device: string, now: int, id: string)
      requires PassedOver(db.jobs, todo, expired, tenant, device, now) && id in todo
      requires CloudTypes.Due(db.jobs[id], tenant, device, now)
      ensures Allowed(db, issued, Op.NextJob(tenant, device, now, expired, Some(id)))
    {}

    /** A poll: overdue jobs met on the way are marked expired, and the first job that is due is delivered. */
    method NextJob(tenant: string, device: string, now: int) returns (job: Option<Job>, err: Failure,
                   ghost expired: set<string>, ghost chosen: Option<string>)
      modifies this
      ensures Allowed(old(Contents()), old(issued), Op.NextJob(tenant, device, now, expired, chosen))
      ensures Contents() == Apply(old(Contents()), Op.NextJob(tenant, device, now, expired, chosen))
              && issued == old(issued)
      ensures file == Contents() || file == old(file)
      ensures chosen == None ==> job == None && err == Some(NotFound) && file == old(file)
      ensures chosen.Some? ==> err == None && job == Some(jobs[chosen.value])
    {
      var found;
      found, expired := FirstDue(tenant, device, now);
      chosen := found;
      if found == None { return None, Some(NotFound), expired, chosen; }
      var j := jobs[found.value].(state := Delivered, attempt := jobs[found.value].attempt + 1);
      jobs := jobs[found.value := j];
      Chosen(old(jobs), expired, found.value);
      var _ := Save();
      return Some(j), None, expired, chosen;
    }

    /** The loop of a poll, up to the first job that is due. */
    method FirstDue(tenant: string, device: string, now: int)
      returns (found: Option<string>, ghost expired: set<string>)
      modifies `jobs
      ensures Allowed(old(Contents()), issued, Op.NextJob(tenant, device, now, expired, found))
      ensures jobs == Polled(old(jobs), expired, None)
      ensures found.Some? ==> found.value in jobs && found.value !in expired
    {
      expired := {};
      var todo := jobs.Keys;
      while todo != {}
        modifies `jobs
        invariant jobs == Polled(old(jobs), expired, None)
        invariant PassedOver(old(jobs), todo, expired, tenant, device, now)
      {
        var id :| id in todo;
        assert jobs[id] == old(jobs)[id];
        ghost var left := todo;
        todo := todo - {id};
        var j := jobs[id];
        PassesOver(old(jobs), left, expired, tenant, device, now, id);
        if j.tenant == tenant && j.device == device
            && (j.state == Queued || j.state == Delivered || j.state == Running || j.state == InReboot) {
          if now <= j.expiresAt {
            PollFinds(old(Contents()), issued, left, expired, tenant, device, now, id);
            return Some(id), expired;
          }
          jobs := jobs[id := j.(state := Expired)];
          OneMoreExpired(old(jobs), expired, id);
          expired := expired + {id};
        }
      }
      PollFindsNone(old(Contents()), issued, expired, tenant, device, now);
      return None, expired;
    }

    /** A device's result: whatever the job's state was, it becomes the reported one. */
    method CompleteJob(tenant: string, id: string, reported: JobState, result: string) returns (err: Failure)
      modifies this
      ensures if id !in old(jobs) then Refused(err, NotFound)
              else if old(jobs)[id].tenant != tenant then Refused(err, TenantMismatch)
              else Did(Op.CompleteJob(tenant, id, reported, result), err)
    {
      if id !in jobs { return Some(NotFound); }
      var job := jobs[id];
      if job.tenant != tenant { return Some(TenantMismatch); }
      job := job.(state := reported);
      if job.state != Succeeded && job.state != Failed && job.state != InReboot && job.state != Running {
        job := job.(state := Failed);
      }
      job := job.(result := result);
      jobs := jobs[id := job];
      if job.deployment in campaigns && campaigns[job.deployment].tenant == tenant {
        var c := campaigns[job.deployment];
        var state := CampaignStateOf(c);
        campaigns := campaigns[c.id := c.(state := state)];
      }
      err := Save();
    }

    /** `campaignState`: gather the campaign's jobs, then look at each. */
    method CampaignStateOf(c: Campaign) returns (state: CampaignState)
      ensures state == StateFromJobs(c, jobs)
    {
      var held: set<string> := {};
      var todo := jobs.Keys;
      while todo != {}
        invariant todo <= jobs.Keys
        invariant held == set id | id in jobs && id !in todo && Holds(c, jobs[id])
      {
        var id :| id in todo;
        todo := todo - {id};
        if jobs[id].tenant == c.tenant && jobs[id].deployment == c.id { held := held + {id}; }
      }
      assert held == JobsOf(c, jobs);
      if |held| == 0 { return c.state; }
      var allSucceeded := true;
      todo := held;
      while todo != {}
        invariant todo <= held
        invariant forall id :: id in held && id !in todo ==> jobs[id].state != Failed && jobs[id].state != Expired
        invariant allSucceeded <==> forall id :: id in held && id !in todo ==> jobs[id].state == Succeeded
      {
        var id :| id in todo;
        todo := todo - {id};
        if jobs[id].state == Failed || jobs[id].state == Expired { return CampaignFailed; }
        if jobs[id].state != Succeeded { allSucceeded := false; }
      }
      if allSucceeded { return if |held| < |c.targets| then CanaryComplete else CampaignCompleted; }
      return InProgress;
    }

    /** A device goes with everything that names it; campaigns of the tenant left without a target go too. */
    method DeleteDevice(tenant: string, id: string) returns (err: Failure)
      modifies this
      ensures if id !in old(devices) then Refused(err, NotFound)
              else if old(devices)[id].tenant != tenant then Refused(err, TenantMismatch)
              else Did(Op.DeleteDevice(tenant, id), err)
    {
      if id !in devices { return Some(NotFound); }
      if devices[id].tenant != tenant { return Some(TenantMismatch); }
      devices := devices - {id};
      inventory := inventory - {id};
      DropMetrics(id);
      DropJobs(id);
      DropTargets(tenant, id);
      err := Save();
    }

    method DropMetrics(device: string)
      modifies `telemetry
      ensures telemetry == MetricsWithout(old(telemetry), device)
    {
      var kept: seq<Metric> := [];
      for i := 0 to |telemetry|
        invariant kept + MetricsWithout(telemetry[i..], device) == MetricsWithout(telemetry, device)
      {
        assert telemetry[i..][0] == telemetry[i] && telemetry[i..][1..] == telemetry[i + 1..];
        if telemetry[i].device != device { kept := kept + [telemetry[i]]; }
      }
      assert kept + [] == kept;
      telemetry := kept;
    }

    method DropJobs(device: string)
      modifies `jobs
      ensures jobs == map id | id in old(jobs) && old(jobs)[id].device != device :: old(jobs)[id]
    {
      var todo := jobs.Keys;
      while todo != {}
        modifies `jobs
        invariant todo <= old(jobs).Keys
        invariant jobs == map id | id in old(jobs) && (id in todo || old(jobs)[id].device != device) :: old(jobs)[id]
      {
        var id :| id in todo;
        todo := todo - {id};
        if jobs[id].device == device { jobs := jobs - {id}; }
      }
    }

    static method KeepOthers(all: seq<string>, device: string) returns (targets: seq<string>)
      ensures targets == Without(all, device)
    {
      targets := [];
      for i := 0 to |all|
        invariant targets + Without(all[i..], device) == Without(all, device)
      {
        var rest := Without(all[i + 1..], device);
        assert all[i..][0] == all[i] && all[i..][1..] == all[i + 1..];
        if all[i] != device {
          assert (targets + [all[i]]) + rest == targets + ([all[i]] + rest);
          targets := targets + [all[i]];
        } else {
          assert [] + rest == rest;
        }
      }
      assert targets + [] == targets;
    }

    method DropTargets(tenant: string, device: string)
      modifies `campaigns
      ensures campaigns == map id | id in old(campaigns)
              && Survives(old(campaigns)[id], tenant, device) :: Trimmed(old(campaigns)[id], tenant, device)
    {
      var todo := campaigns.Keys;
      while todo != {}
        modifies `campaigns
        invariant todo <= old(campaigns).Keys
        invariant campaigns == map id | id in old(campaigns)
                  && (id in todo || Survives(old(campaigns)[id], tenant, device)) ::
                                 if id in todo then old(campaigns)[id] else Trimmed(old(campaigns)[id], tenant, device)
      {
        var id :| id in todo;
        todo := todo - {id};
        var c := campaigns[id];
        if c.tenant != tenant { continue; }
        var targets := KeepOthers(c.targets, device);
        if |targets| == 0 { campaigns := campaigns - {id}; }
        else { campaigns := campaigns[id := c.(targets := targets)]; }
      }
    }
  }
}
