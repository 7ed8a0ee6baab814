/** What the store keeps under every interleaving of its operations, failed saves and restarts. */
module CloudIntegrity {
  import opened Text
  import opened CloudTypes

  // ---------- runs ----------

  /** The store in memory, the file a restart reads, and every id given out. */
  datatype Cloud = Cloud(mem: Db, file: Db, issued: set<string>)

  datatype Step = Do(op: Op, saved: bool) | Restart

  const EMPTY := Db(map[], map[], map[], [], map[])

  predicate CanTake(s: Cloud, step: Step) {
    step.Do? ==> Allowed(s.mem, s.issued, step.op)
  }

  function Take(s: Cloud, step: Step): Cloud {
    match step
    case Restart => s.(mem := s.file)
    case Do(op, saved) =>
      var mem := Apply(s.mem, op);
      Cloud(mem, if saved then mem else s.file, s.issued + Issued(op))
  }

  predicate CanRun(s: Cloud, steps: seq<Step>)
    decreases |steps|
  {
    steps == [] ||
    var last := |steps| - 1;
    CanRun(s, steps[..last]) && CanTake(RunSteps(s, steps[..last]), steps[last])
  }

  function RunSteps(s: Cloud, steps: seq<Step>): Cloud
    decreases |steps|
  {
    if steps == [] then s else Take(RunSteps(s, steps[..|steps| - 1]), steps[|steps| - 1])
  }

  // ---------- the invariant ----------

  /** No two live jobs of a tenant share a non-empty idempotency key. */
  predicate KeysUnique(jobs: map<string, Job>) {
    forall a, b :: a in jobs && b in jobs && SameKey(jobs[a], jobs[b].tenant, jobs[b].key) ==> a == b
  }

  predicate Sound(db: Db, issued: set<string>) {
    && (forall d :: d in db.devices ==> db.devices[d].id == d && d in issued)
    && (forall j :: j in db.jobs ==>
       db.jobs[j].id == j && j in issued && OwnDevice(db.devices, db.jobs[j].tenant, db.jobs[j].device))
    && (forall c :: c in db.campaigns ==> db.campaigns[c].id == c && c in issued)
    && KeysUnique(db.jobs)
    && (forall i :: 0 <= i < |db.telemetry| ==> db.telemetry[i].device in db.devices)
    && db.inventory.Keys <= db.devices.Keys
  }

  lemma {:induction false} WithoutDropsMetrics(metrics: seq<Metric>, device: string)
    ensures forall i :: 0 <= i < |MetricsWithout(metrics, device)| ==>
              MetricsWithout(metrics, device)[i].device != device && MetricsWithout(metrics, device)[i] in metrics
  {
    if metrics != [] { WithoutDropsMetrics(metrics[1..], device); }
  }

  lemma {:induction false} AcceptedAreOwn(devices: map<string, Device>, tenant: string, batch: seq<Metric>)
    ensures forall i :: 0 <= i < Accepted(devices, tenant, batch) <= |batch| ==>
            OwnDevice(devices, tenant, batch[i].device)
  {
    TakenIsPrefix(devices, tenant, batch);
    if batch != [] && AcceptsMetric(devices, tenant, batch[0]) {
      AcceptedAreOwn(devices, tenant, batch[1..]);
      forall i | 0 <= i < Accepted(devices, tenant, batch) ensures OwnDevice(devices, tenant, batch[i].device) {
        if i > 0 { assert batch[i] == batch[1..][i - 1]; }
      }
    }
  }

  lemma {:induction false} DeletionKeepsSound(db: Db, issued: set<string>, tenant: string, device: string)
    requires Sound(db, issued)
    ensures Sound(Deleted(db, tenant, device), issued)
  {
    WithoutDropsMetrics(db.telemetry, device);
    var post := Deleted(db, tenant, device);
    forall i | 0 <= i < |post.telemetry| ensures post.telemetry[i].device in post.devices {
      var m :| 0 <= m < |db.telemetry| && db.telemetry[m] == post.telemetry[i];
    }
  }

  lemma {:induction false} CreationKeepsSound(db: Db, issued: set<string>, op: Op)
    requires Sound(db, issued) && Allowed(db, issued, op) && op.CreateJob?
    ensures Sound(Apply(db, op), issued + Issued(op))
  {}

  predicate SameIdentity(a: Job, b: Job) {
    a.id == b.id && a.tenant == b.tenant && a.device == b.device && a.key == b.key
  }

  /** Jobs may be rewritten, as long as each keeps its identity. */
  predicate Rewritten(after: map<string, Job>, before: map<string, Job>) {
    forall id :: id in after ==> id in before && SameIdentity(after[id], before[id])
  }

  lemma {:induction false} RewrittenStayUnique(after: map<string, Job>, before: map<string, Job>)
    requires KeysUnique(before) && Rewritten(after, before)
    ensures KeysUnique(after)
  {
    forall a, b | a in after && b in after && SameKey(after[a], after[b].tenant, after[b].key) ensures a == b {
      assert SameKey(before[a], before[b].tenant, before[b].key);
    }
  }

  lemma {:induction false} RewritingKeepsSound(db: Db, issued: set<string>, jobs: map<string, Job>)
    requires Sound(db, issued) && Rewritten(jobs, db.jobs)
    ensures Sound(db.(jobs := jobs), issued)
  {
    RewrittenStayUnique(jobs, db.jobs);
  }

  lemma {:induction false} PollKeepsSound(db: Db, issued: set<string>, expired: set<string>, chosen: Option<string>)
    requires Sound(db, issued)
    ensures Sound(db.(jobs := Polled(db.jobs, expired, chosen)), issued)
  {
    assert Rewritten(Polled(db.jobs, expired, chosen), db.jobs);
    RewritingKeepsSound(db, issued, Polled(db.jobs, expired, chosen));
  }

  lemma {:induction false} CompletionKeepsSound(db: Db, issued: set<string>, op: Op)
    requires Sound(db, issued) && op.CompleteJob?
    ensures Sound(Apply(db, op), issued)
  {
    if op.id in db.jobs && db.jobs[op.id].tenant == op.tenant {
      var post := Finished(db, op.id, op.reported, op.result);
      RewritingKeepsSound(db, issued, post.jobs);
    }
  }

  lemma {:induction false} DeviceKeepsSound(db: Db, issued: set<string>, id: string, d: Device)
    requires Sound(db, issued) && d.id == id && (id in db.devices ==> d.tenant == db.devices[id].tenant)
    ensures Sound(db.(devices := db.devices[id := d]), issued + {id})
  {}

  lemma {:induction false} CampaignKeepsSound(db: Db, issued: set<string>, id: string, c: Campaign)
    requires Sound(db, issued) && c.id == id
    ensures Sound(db.(campaigns := db.campaigns[id := c]), issued + {id})
  {}

  lemma {:induction false} TelemetryKeepsSound(db: Db, issued: set<string>, more: seq<Metric>)
    requires Sound(db, issued) && forall i :: 0 <= i < |more| ==> more[i].device in db.devices
    ensures Sound(db.(telemetry := db.telemetry + more), issued)
  {}

  lemma {:induction false} InventoryKeepsSound(db: Db, issued: set<string>, id: string, payload: string)
    requires Sound(db, issued) && id in db.devices
    ensures Sound(db.(inventory := db.inventory[id := payload]), issued)
  {}

  lemma {:induction false} DeviceOpsKeepSound(db: Db, issued: set<string>, op: Op)
    requires Sound(db, issued) && Allowed(db, issued, op)
    requires (op.CreateDevice? || op.UpdateDevice? || op.AddTelemetry? || op.SaveInventory?)
    ensures Sound(Apply(db, op), issued + Issued(op))
  {
    match op {
      case CreateDevice(tenant, id, info) => DeviceKeepsSound(db, issued, id, Device(id, tenant, info));
      case UpdateDevice(d) =>
        if OwnDevice(db.devices, d.tenant, d.id) {
          DeviceKeepsSound(db, issued, d.id, d);
          assert issued + {d.id} == issued;
        }
      case AddTelemetry(t, batch) =>
        AcceptedAreOwn(db.devices, t, batch);
        TelemetryKeepsSound(db, issued, batch[..Taken(db.devices, t, batch)]);
      case SaveInventory(t, id, payload) =>
        if OwnDevice(db.devices, t, id) { InventoryKeepsSound(db, issued, id, payload); }
    }
  }

  lemma {:induction false} CampaignOpsKeepSound(db: Db, issued: set<string>, op: Op)
    requires Sound(db, issued) && Allowed(db, issued, op) && (op.CreateCampaign? || op.UpdateCampaign?)
    ensures Sound(Apply(db, op), issued + Issued(op))
  {
    match op {
      case CreateCampaign(tenant, c, id) =>
        CampaignKeepsSound(db, issued, id,
            c.(id := id, tenant := tenant, state := if c.state == NoState then Ready else c.state));
      case UpdateCampaign(tenant, c) =>
        if c.id in db.campaigns { CampaignKeepsSound(db, issued, c.id, c); assert issued + {c.id} == issued; }
    }
  }

  lemma {:induction false} ApplyKeepsSound(db: Db, issued: set<string>, op: Op)
    requires Sound(db, issued) && Allowed(db, issued, op)
    ensures Sound(Apply(db, op), issued + Issued(op))
  {
    assert issued + {} == issued;
    match op {
      case DeleteDevice(t, d) => if OwnDevice(db.devices, t, d) { DeletionKeepsSound(db, issued, t, d); }
      case CreateJob(_, _, _) => CreationKeepsSound(db, issued, op);
      case DeleteJob(_, id) => RewritingKeepsSound(db, issued, db.jobs - {id});
      case NextJob(_, _, _, expired, chosen) => PollKeepsSound(db, issued, expired, chosen);
      case CompleteJob(_, _, _, _) => CompletionKeepsSound(db, issued, op);
      case CreateCampaign(_, _, _) => CampaignOpsKeepSound(db, issued, op);
      case UpdateCampaign(_, _) => CampaignOpsKeepSound(db, issued, op);
      case _ => DeviceOpsKeepSound(db, issued, op);
    }
  }

  /** Whatever operations run in whatever order, with saves failing and the server restarting from an
      older file at any time: live idempotency keys are unique within a tenant, and every job, metric
      and inventory entry belongs to a live device, a job to one of its own tenant. */
  lemma {:induction false} EveryRunIsSound(steps: seq<Step>)
    requires CanRun(Cloud(EMPTY, EMPTY, {}), steps)
    ensures var s := RunSteps(Cloud(EMPTY, EMPTY, {}), steps); Sound(s.mem, s.issued) && Sound(s.file, s.issued)
    decreases |steps|
  {
    if steps != [] {
      var before, last := steps[..|steps| - 1], steps[|steps| - 1];
      EveryRunIsSound(before);
      var s := RunSteps(Cloud(EMPTY, EMPTY, {}), before);
      if last.Do? { ApplyKeepsSound(s.mem, s.issued, last.op); }
    }
  }

  // ---------- tenants do not see each other ----------

  function OpTenant(op: Op): string {
    match op
    case UpdateDevice(d) => d.tenant
    case _ => op.tenant
  }

  function MetricsOf(metrics: seq<Metric>, devices: map<string, Device>, tenant: string): seq<Metric> {
    if metrics == [] then []
    else
      (if OwnDevice(devices, tenant, metrics[0].device) then [metrics[0]] else [])
      + MetricsOf(metrics[1..], devices, tenant)
  }

  function DevicesOf(devices: map<string, Device>, tenant: string): map<string, Device> {
    map d | d in devices && devices[d].tenant == tenant :: devices[d]
  }

  function JobsOfTenant(jobs: map<string, Job>, tenant: string): map<string, Job> {
    map j | j in jobs && jobs[j].tenant == tenant :: jobs[j]
  }

  function CampaignsOf(campaigns: map<string, Campaign>, tenant: string): map<string, Campaign> {
    map c | c in campaigns && campaigns[c].tenant == tenant :: campaigns[c]
  }

  function InventoryOf(inventory: map<string, string>, devices: map<string, Device>,
                       tenant: string): map<string, string> {
    map d | d in inventory && OwnDevice(devices, tenant, d) :: inventory[d]
  }

  /** Everything of the store that belongs to one tenant. */
  function View(db: Db, tenant: string): Db {
    Db(DevicesOf(db.devices, tenant), JobsOfTenant(db.jobs, tenant), CampaignsOf(db.campaigns, tenant),
       MetricsOf(db.telemetry, db.devices, tenant), InventoryOf(db.inventory, db.devices, tenant))
  }

  /** Metrics of a tenant depend only on which of the devices they name are the tenant's. */
  lemma {:induction false} MetricsOfSame(metrics: seq<Metric>, a: map<string, Device>, b: map<string, Device>,
                                         tenant: string)
    requires forall i :: 0 <= i < |metrics| ==>
             (OwnDevice(a, tenant, metrics[i].device) <==> OwnDevice(b, tenant, metrics[i].device))
    ensures MetricsOf(metrics, a, tenant) == MetricsOf(metrics, b, tenant)
  {
    if metrics != [] {
      assert forall i :: 0 <= i < |metrics| - 1 ==> metrics[1..][i] == metrics[i + 1];
      MetricsOfSame(metrics[1..], a, b, tenant);
    }
  }

  lemma {:induction false} MetricsOfForeign(metrics: seq<Metric>, more: seq<Metric>, devices: map<string, Device>,
                                            tenant: string)
    requires forall i :: 0 <= i < |more| ==> !OwnDevice(devices, tenant, more[i].device)
    ensures MetricsOf(metrics + more, devices, tenant) == MetricsOf(metrics, devices, tenant)
  {
    if metrics == [] {
      assert metrics + more == more;
      if more != [] { MetricsOfForeign([], more[1..], devices, tenant); assert [] + more[1..] == more[1..]; }
    } else {
      assert (metrics + more)[1..] == metrics[1..] + more;
      MetricsOfForeign(metrics[1..], more, devices, tenant);
    }
  }

  lemma {:induction false} MetricsOfWithout(metrics: seq<Metric>, devices: map<string, Device>, tenant: string,
                                            device: string)
    requires !OwnDevice(devices, tenant, device)
    ensures MetricsOf(MetricsWithout(metrics, device), devices - {device}, tenant)
            == MetricsOf(metrics, devices, tenant)
  {
    if metrics != [] {
      MetricsOfWithout(metrics[1..], devices, tenant, device);
      var rest := MetricsWithout(metrics[1..], device);
      if metrics[0].device == device { assert MetricsWithout(metrics, device) == rest; }
      else { assert ([metrics[0]] + rest)[1..] == rest; }
    }
  }

  lemma {:induction false} OwnersStay(db: Db, issued: set<string>, op: Op, tenant: string, device: string)
    requires Sound(db, issued) && Allowed(db, issued, op) && !op.DeleteDevice? && device in db.devices
    ensures OwnDevice(Apply(db, op).devices, tenant, device) <==> OwnDevice(db.devices, tenant, device)
  {}

  lemma {:induction false} TelemetryFrame(db: Db, issued: set<string>, op: Op, other: string)
    requires Sound(db, issued) && Allowed(db, issued, op) && other != OpTenant(op)
    ensures MetricsOf(Apply(db, op).telemetry, Apply(db, op).devices, other)
            == MetricsOf(db.telemetry, db.devices, other)
  {
    match op {
      case DeleteDevice(t, d) =>
        if OwnDevice(db.devices, t, d) { MetricsOfWithout(db.telemetry, db.devices, other, d); }
      case AddTelemetry(t, batch) =>
        AcceptedAreOwn(db.devices, t, batch);
        if |batch| <= MAX_METRICS {
          MetricsOfForeign(db.telemetry, batch[..Taken(db.devices, t, batch)], db.devices, other);
        }
      case _ =>
        var post := Apply(db, op);
        forall i | 0 <= i < |db.telemetry| { OwnersStay(db, issued, op, other, db.telemetry[i].device); }
        MetricsOfSame(db.telemetry, db.devices, post.devices, other);
        assert post.telemetry == db.telemetry;
    }
  }

  lemma {:induction false} OneJobFrame(jobs: map<string, Job>, id: string, j: Job, other: string)
    requires j.tenant != other && (id in jobs ==> jobs[id].tenant != other)
    ensures JobsOfTenant(jobs[id := j], other) == JobsOfTenant(jobs, other)
    ensures JobsOfTenant(jobs - {id}, other) == JobsOfTenant(jobs, other)
  {}

  lemma {:induction false} PollFrame(jobs: map<string, Job>, expired: set<string>, chosen: Option<string>,
                                     other: string)
    requires forall id :: id in jobs && (id in expired || chosen == Some(id)) ==> jobs[id].tenant != other
    ensures JobsOfTenant(Polled(jobs, expired, chosen), other) == JobsOfTenant(jobs, other)
  {}

  lemma {:induction false} RemovalFrame(db: Db, device: string, tenant: string, other: string)
    requires forall id :: id in db.jobs && db.jobs[id].device == device ==> db.jobs[id].tenant != other
    requires tenant != other
    ensures JobsOfTenant(Deleted(db, tenant, device).jobs, other) == JobsOfTenant(db.jobs, other)
    ensures CampaignsOf(Deleted(db, tenant, device).campaigns, other) == CampaignsOf(db.campaigns, other)
  {}

  lemma {:induction false} OneCampaignFrame(campaigns: map<string, Campaign>, id: string, c: Campaign, other: string)
    requires c.tenant != other && (id in campaigns ==> campaigns[id].tenant != other)
    ensures CampaignsOf(campaigns[id := c], other) == CampaignsOf(campaigns, other)
  {}

  lemma {:induction false} OneJobOpFrame(db: Db, issued: set<string>, op: Op, other: string)
    requires Sound(db, issued) && Allowed(db, issued, op) && other != OpTenant(op)
    requires (op.CreateJob? || op.DeleteJob? || op.CompleteJob?)
    ensures JobsOfTenant(Apply(db, op).jobs, other) == JobsOfTenant(db.jobs, other)
  {
    match op {
      case CreateJob(tenant, job, id) => OneJobFrame(db.jobs, id, Stamped(job, tenant, id), other);
      case DeleteJob(tenant, id) =>
        if id in db.jobs && db.jobs[id].tenant == tenant { OneJobFrame(db.jobs, id, db.jobs[id], other); }
      case CompleteJob(tenant, id, reported, result) =>
        if id in db.jobs && db.jobs[id].tenant == tenant {
          OneJobFrame(db.jobs, id, Finished(db, id, reported, result).jobs[id], other);
        }
    }
  }

  lemma {:induction false} JobsFrame(db: Db, issued: set<string>, op: Op, other: string)
    requires Sound(db, issued) && Allowed(db, issued, op) && other != OpTenant(op)
    ensures JobsOfTenant(Apply(db, op).jobs, other) == JobsOfTenant(db.jobs, other)
  {
    if op.CreateJob? || op.DeleteJob? || op.CompleteJob? { OneJobOpFrame(db, issued, op, other); }
    else if op.NextJob? { PollFrame(db.jobs, op.expired, op.chosen, other); }
    else if op.DeleteDevice? { RemovalJobsFrame(db, issued, op, other); }
  }

  lemma {:induction false} RemovalJobsFrame(db: Db, issued: set<string>, op: Op, other: string)
    requires Sound(db, issued) && op.DeleteDevice? && other != op.tenant
    ensures JobsOfTenant(Apply(db, op).jobs, other) == JobsOfTenant(db.jobs, other)
    ensures CampaignsOf(Apply(db, op).campaigns, other) == CampaignsOf(db.campaigns, other)
  {
    if OwnDevice(db.devices, op.tenant, op.id) { RemovalFrame(db, op.id, op.tenant, other); }
  }

  lemma {:induction false} CompletionCampaignsFrame(db: Db, op: Op, other: string)
    requires op.CompleteJob? && other != op.tenant
    requires forall k :: k in db.campaigns ==> db.campaigns[k].id == k
    ensures CampaignsOf(Apply(db, op).campaigns, other) == CampaignsOf(db.campaigns, other)
  {
    if op.id in db.jobs && db.jobs[op.id].tenant == op.tenant {
      var k := db.jobs[op.id].deployment;
      if k in db.campaigns && db.campaigns[k].tenant == op.tenant {
        OneCampaignFrame(db.campaigns, k, Finished(db, op.id, op.reported, op.result).campaigns[k], other);
      }
    }
  }

  lemma {:induction false} WrittenCampaignsFrame(db: Db, issued: set<string>, op: Op, other: string)
    requires op.CreateCampaign? || op.UpdateCampaign?
    requires Sound(db, issued) && Allowed(db, issued, op) && other != op.tenant
    ensures CampaignsOf(Apply(db, op).campaigns, other) == CampaignsOf(db.campaigns, other)
  {
    if op.CreateCampaign? {
      if op.id in Apply(db, op).campaigns {
        OneCampaignFrame(db.campaigns, op.id, Apply(db, op).campaigns[op.id].(tenant := op.tenant), other);
      }
    } else if op.campaign.id in db.campaigns && db.campaigns[op.campaign.id].tenant == op.tenant == op.campaign.tenant {
      OneCampaignFrame(db.campaigns, op.campaign.id, op.campaign, other);
    }
  }

  lemma {:induction false} CampaignsFrame(db: Db, issued: set<string>, op: Op, other: string)
    requires Sound(db, issued) && Allowed(db, issued, op) && other != OpTenant(op)
    ensures CampaignsOf(Apply(db, op).campaigns, other) == CampaignsOf(db.campaigns, other)
  {
    if op.CompleteJob? { CompletionCampaignsFrame(db, op, other); }
    else if op.DeleteDevice? { RemovalJobsFrame(db, issued, op, other); }
    else if op.CreateCampaign? || op.UpdateCampaign? { WrittenCampaignsFrame(db, issued, op, other); }
  }

  lemma {:induction false} OneDeviceFrame(devices: map<string, Device>, id: string, d: Device, other: string)
    requires d.tenant != other && (id in devices ==> devices[id].tenant != other)
    ensures DevicesOf(devices[id := d], other) == DevicesOf(devices, other)
    ensures DevicesOf(devices - {id}, other) == DevicesOf(devices, other)
  {}

  lemma {:induction false} OneInventoryFrame(db: Db, id: string, d: Device, payload: string, other: string)
    requires d.tenant != other && (id in db.devices ==> db.devices[id].tenant != other)
    ensures InventoryOf(db.inventory, db.devices[id := d], other) == InventoryOf(db.inventory, db.devices, other)
    ensures InventoryOf(db.inventory - {id}, db.devices - {id}, other) == InventoryOf(db.inventory, db.devices, other)
    ensures InventoryOf(db.inventory[id := payload], db.devices, other) == InventoryOf(db.inventory, db.devices, other)
  {}

  lemma {:induction false} DevicesFrame(db: Db, issued: set<string>, op: Op, other: string)
    requires Sound(db, issued) && Allowed(db, issued, op) && other != OpTenant(op)
    ensures DevicesOf(Apply(db, op).devices, other) == DevicesOf(db.devices, other)
  {
    match op {
      case CreateDevice(tenant, id, info) => OneDeviceFrame(db.devices, id, Device(id, tenant, info), other);
      case UpdateDevice(d) => if OwnDevice(db.devices, d.tenant, d.id) { OneDeviceFrame(db.devices, d.id, d, other); }
      case DeleteDevice(tenant, id) =>
        if OwnDevice(db.devices, tenant, id) { OneDeviceFrame(db.devices, id, db.devices[id], other); }
      case _ =>
    }
  }

  lemma {:induction false} DeviceInventoryFrame(db: Db, issued: set<string>, op: Op, other: string)
    requires Sound(db, issued) && Allowed(db, issued, op) && other != OpTenant(op)
    requires op.CreateDevice? || op.UpdateDevice?
    ensures InventoryOf(Apply(db, op).inventory, Apply(db, op).devices, other)
            == InventoryOf(db.inventory, db.devices, other)
  {
    if op.CreateDevice? {
      OneInventoryFrame(db, op.id, Device(op.id, op.tenant, op.info), "", other);
    } else if OwnDevice(db.devices, op.record.tenant, op.record.id) {
      OneInventoryFrame(db, op.record.id, op.record, "", other);
    }
  }

  lemma {:induction false} OwnInventoryFrame(db: Db, op: Op, other: string)
    requires op.DeleteDevice? || op.SaveInventory?
    requires other != op.tenant
    ensures InventoryOf(Apply(db, op).inventory, Apply(db, op).devices, other)
            == InventoryOf(db.inventory, db.devices, other)
  {
    if OwnDevice(db.devices, op.tenant, op.id) {
      OneInventoryFrame(db, op.id, db.devices[op.id], if op.SaveInventory? then op.payload else "", other);
    }
  }

  lemma {:induction false} InventoryFrame(db: Db, issued: set<string>, op: Op, other: string)
    requires Sound(db, issued) && Allowed(db, issued, op) && other != OpTenant(op)
    ensures InventoryOf(Apply(db, op).inventory, Apply(db, op).devices, other)
            == InventoryOf(db.inventory, db.devices, other)
  {
    if op.CreateDevice? || op.UpdateDevice? { DeviceInventoryFrame(db, issued, op, other); }
    else if op.DeleteDevice? || op.SaveInventory? { OwnInventoryFrame(db, op, other); }
  }

  /** An operation in one tenant's context leaves everything of every other tenant as it was. */
  lemma {:induction false} OtherTenantsUntouched(db: Db, issued: set<string>, op: Op, other: string)
    requires Sound(db, issued) && Allowed(db, issued, op) && other != OpTenant(op)
    ensures View(Apply(db, op), other) == View(db, other)
  {
    DevicesFrame(db, issued, op, other);
    InventoryFrame(db, issued, op, other);
    TelemetryFrame(db, issued, op, other);
    JobsFrame(db, issued, op, other);
    CampaignsFrame(db, issued, op, other);
  }

  // ---------- removing a device ----------

  lemma {:induction false} WithoutIsGone(targets: seq<string>, device: string)
    ensures forall d :: d in Without(targets, device) <==> d in targets && d != device
  {
    if targets != [] { WithoutIsGone(targets[1..], device); }
  }

  predicate Names(db: Db, tenant: string, device: string) {
    || (exists j :: j in db.jobs && db.jobs[j].device == device)
    || (exists i :: 0 <= i < |db.telemetry| && db.telemetry[i].device == device)
    || device in db.inventory
    || (exists c :: c in db.campaigns && db.campaigns[c].tenant == tenant && device in db.campaigns[c].targets)
  }

  function MetricsFrom(metrics: seq<Metric>, device: string): seq<Metric> {
    if metrics == [] then []
    else (if metrics[0].device == device then [metrics[0]] else []) + MetricsFrom(metrics[1..], device)
  }

  lemma {:induction false} WithoutKeepsOthers(metrics: seq<Metric>, device: string, other: string)
    requires other != device
    ensures MetricsFrom(MetricsWithout(metrics, device), other) == MetricsFrom(metrics, other)
  {
    if metrics != [] {
      WithoutKeepsOthers(metrics[1..], device, other);
      var rest := MetricsWithout(metrics[1..], device);
      if metrics[0].device == device { assert MetricsWithout(metrics, device) == rest; }
      else { assert ([metrics[0]] + rest)[1..] == rest; }
    }
  }

  lemma {:induction false} NothingNamesRemoved(db: Db, tenant: string, device: string)
    ensures !Names(Deleted(db, tenant, device), tenant, device)
  {
    WithoutDropsMetrics(db.telemetry, device);
    forall c | c in db.campaigns { WithoutIsGone(db.campaigns[c].targets, device); }
  }

  /** Everything of a device is as before. */
  predicate KeepsDevice(db: Db, post: Db, other: string) {
    && (other in db.devices ==> other in post.devices && post.devices[other] == db.devices[other])
    && MetricsFrom(post.telemetry, other) == MetricsFrom(db.telemetry, other)
    && (other in db.inventory ==> other in post.inventory && post.inventory[other] == db.inventory[other])
    && (forall j :: j in db.jobs && db.jobs[j].device == other ==> j in post.jobs && post.jobs[j] == db.jobs[j])
    && (forall c :: c in db.campaigns && other in db.campaigns[c].targets ==>
          && c in post.campaigns && other in post.campaigns[c].targets
          && post.campaigns[c].state == db.campaigns[c].state)
  }

  lemma {:induction false} RemovalKeepsDevice(db: Db, tenant: string, device: string, other: string)
    requires other != device
    ensures KeepsDevice(db, Deleted(db, tenant, device), other)
  {
    WithoutKeepsOthers(db.telemetry, device, other);
    forall c | c in db.campaigns { WithoutIsGone(db.campaigns[c].targets, device); }
  }

  /** After a device is removed nothing of its tenant names it and no campaign of the tenant is left
      without targets; every other device keeps its jobs, metrics, inventory and campaigns. */
  lemma {:induction false} RemovalIsCompleteAndExact(db: Db, issued: set<string>, tenant: string, device: string)
    requires Sound(db, issued) && OwnDevice(db.devices, tenant, device)
    ensures var post := Apply(db, DeleteDevice(tenant, device));
            && !Names(post, tenant, device)
            && (forall c :: c in post.campaigns && post.campaigns[c].tenant == tenant ==>
                  post.campaigns[c].targets != [])
            && (forall other :: other != device ==> KeepsDevice(db, post, other))
  {
    NothingNamesRemoved(db, tenant, device);
    forall other | other != device ensures KeepsDevice(db, Deleted(db, tenant, device), other) {
      RemovalKeepsDevice(db, tenant, device, other);
    }
  }

  // ---------- polling ----------

  /** A poll hands out a job exactly while one is due; when it finds none, none is left waiting; a
      delivery is counted once and leaves every other job's attempts alone. */
  lemma {:induction false} PollDeliversWhatIsDue(db: Db, issued: set<string>, tenant: string, device: string, now: int,
                                                 expired: set<string>, chosen: Option<string>)
    requires Allowed(db, issued, NextJob(tenant, device, now, expired, chosen))
    ensures var post := Apply(db, NextJob(tenant, device, now, expired, chosen));
            && (chosen.Some? <==> exists id :: id in db.jobs && Due(db.jobs[id], tenant, device, now))
            && (chosen == None ==> forall id :: id in post.jobs ==> !Waiting(post.jobs[id], tenant, device))
            && (chosen.Some? ==> post.jobs[chosen.value].state == Delivered)
            && (forall id :: id in db.jobs ==>
                  id in post.jobs && post.jobs[id].attempt
                      == db.jobs[id].attempt + (if chosen == Some(id) then 1 else 0))
  {}

  /** How often a run handed out job `id`. */
  function Deliveries(steps: seq<Step>, id: string): nat
    decreases |steps|
  {
    if steps == [] then 0
    else
      Deliveries(steps[..|steps| - 1], id)
      + (if steps[|steps| - 1].Do? && Delivers(steps[|steps| - 1].op, id) then 1 else 0)
  }

  predicate Delivers(op: Op, id: string) {
    op.NextJob? && op.chosen == Some(id)
  }

  predicate Counted(before: map<string, Job>, after: map<string, Job>, issued: set<string>, op: Op, id: string) {
    id in after ==>
      if id in before then after[id].attempt == before[id].attempt + (if Delivers(op, id) then 1 else 0)
      else after[id].attempt == 0 && id !in issued && !Delivers(op, id)
  }

  lemma {:induction false} PollCounts(db: Db, issued: set<string>, op: Op, id: string)
    requires Sound(db, issued) && Allowed(db, issued, op) && op.NextJob?
    ensures Counted(db.jobs, Apply(db, op).jobs, issued, op, id) && (Delivers(op, id) ==> id in issued)
  {}

  lemma {:induction false} CreationCounts(db: Db, issued: set<string>, op: Op, id: string)
    requires Sound(db, issued) && Allowed(db, issued, op) && op.CreateJob? && op.job.attempt == 0
    ensures Counted(db.jobs, Apply(db, op).jobs, issued, op, id)
  {}

  lemma {:induction false} OthersCount(db: Db, issued: set<string>, op: Op, id: string)
    requires !op.NextJob? && !op.CreateJob?
    ensures Counted(db.jobs, Apply(db, op).jobs, issued, op, id)
  {}

  lemma {:induction false} AttemptsAfter(db: Db, issued: set<string>, op: Op, id: string)
    requires Sound(db, issued) && Allowed(db, issued, op) && (op.CreateJob? ==> op.job.attempt == 0)
    ensures Counted(db.jobs, Apply(db, op).jobs, issued, op, id) && (Delivers(op, id) ==> id in issued)
  {
    if op.NextJob? { PollCounts(db, issued, op, id); }
    else if op.CreateJob? { CreationCounts(db, issued, op, id); }
    else { OthersCount(db, issued, op, id); }
  }

  /** Over a run without restarts, a job that was created with no attempts has exactly as many as it
      was handed out times. */
  lemma {:induction false} AttemptsCountDeliveries(steps: seq<Step>, id: string)
    requires CanRun(Cloud(EMPTY, EMPTY, {}), steps)
    requires forall i :: 0 <= i < |steps| ==> steps[i].Do? && (steps[i].op.CreateJob? ==> steps[i].op.job.attempt == 0)
    ensures var s := RunSteps(Cloud(EMPTY, EMPTY, {}), steps);
            (id in s.mem.jobs ==> s.mem.jobs[id].attempt == Deliveries(steps, id))
            && (id !in s.issued ==> Deliveries(steps, id) == 0)
    decreases |steps|
  {
    if steps != [] {
      var before, last := steps[..|steps| - 1], steps[|steps| - 1];
      AttemptsCountDeliveries(before, id);
      EveryRunIsSound(before);
      var s := RunSteps(Cloud(EMPTY, EMPTY, {}), before);
      AttemptsAfter(s.mem, s.issued, last.op, id);
    }
  }

  // ---------- what a state says, and for how long ----------

  lemma {:induction false} PollLeavesEnded(db: Db, issued: set<string>, op: Op, id: string)
    requires op.NextJob? && Allowed(db, issued, op) && id in db.jobs && TerminalJob(db.jobs[id].state)
    ensures Apply(db, op).jobs[id] == db.jobs[id]
  {}

  lemma {:induction false} CreationLeavesOthers(db: Db, issued: set<string>, op: Op, id: string)
    requires Sound(db, issued) && op.CreateJob? && Allowed(db, issued, op) && id in db.jobs
    ensures Apply(db, op).jobs[id] == db.jobs[id]
  {}

  lemma {:induction false} OthersOnlyRemove(db: Db, op: Op, id: string)
    requires !op.CompleteJob? && !op.NextJob? && !op.CreateJob? && id in db.jobs && id in Apply(db, op).jobs
    ensures Apply(db, op).jobs[id] == db.jobs[id]
  {}

  lemma {:induction false} EndedJobStays(db: Db, issued: set<string>, op: Op, id: string)
    requires Sound(db, issued) && Allowed(db, issued, op) && !op.CompleteJob?
    requires id in db.jobs && TerminalJob(db.jobs[id].state) && id in Apply(db, op).jobs
    ensures Apply(db, op).jobs[id] == db.jobs[id]
  {
    if op.NextJob? { PollLeavesEnded(db, issued, op, id); }
    else if op.CreateJob? { CreationLeavesOthers(db, issued, op, id); }
    else { OthersOnlyRemove(db, op, id); }
  }

  /** A job that has ended stays as it ended, unless it is reported again: the store takes a later report
      of any device of the tenant, whatever the job's state. */
  lemma {:induction false} EndedJobReopensExactlyWhenReported(db: Db, issued: set<string>, op: Op, id: string)
    requires Sound(db, issued) && Allowed(db, issued, op)
    requires id in db.jobs && TerminalJob(db.jobs[id].state) && id in Apply(db, op).jobs
    ensures Apply(db, op).jobs[id].state != db.jobs[id].state <==>
              op.CompleteJob? && op.id == id && op.tenant == db.jobs[id].tenant
                  && AcceptedState(op.reported) != db.jobs[id].state
  {
    if !op.CompleteJob? { EndedJobStays(db, issued, op, id); }
  }

  /** The campaign says what its jobs stand for. */
  predicate Current(c: Campaign, jobs: map<string, Job>) {
    c.state == StateFromJobs(c, jobs)
  }

  predicate Broken(c: Campaign, jobs: map<string, Job>) {
    exists id :: id in JobsOf(c, jobs) && (jobs[id].state == Failed || jobs[id].state == Expired)
  }

  lemma {:induction false} PollKeepsHeld(c: Campaign, jobs: map<string, Job>, expired: set<string>,
                                         chosen: Option<string>)
    ensures JobsOf(c, Polled(jobs, expired, chosen)) == JobsOf(c, jobs)
  {}

  /** The store's choices in a poll: it expires overdue jobs, and chooses one that is due. */
  predicate PollChoices(jobs: map<string, Job>, expired: set<string>, chosen: Option<string>) {
    && (forall id :: id in expired ==> id in jobs && Deliverable(jobs[id].state))
    && (chosen.Some? ==> chosen.value in jobs && chosen.value !in expired && Deliverable(jobs[chosen.value].state))
  }

  lemma {:induction false} PollLeavesRunning(jobs: map<string, Job>, c: Campaign, expired: set<string>,
                                             chosen: Option<string>, id: string)
    requires PollChoices(jobs, expired, chosen) && !Broken(c, jobs)
    requires id in JobsOf(c, jobs) && jobs[id].state != Succeeded && forall k :: k in JobsOf(c, jobs) ==> k !in expired
    ensures StateFromJobs(c, jobs) == InProgress == StateFromJobs(c, Polled(jobs, expired, chosen))
  {
    var after := Polled(jobs, expired, chosen);
    PollKeepsHeld(c, jobs, expired, chosen);
    forall k | k in JobsOf(c, after) ensures after[k].state != Failed && after[k].state != Expired {}
    assert after[id].state != Succeeded;
  }

  lemma {:induction false} PollLeavesSucceeded(jobs: map<string, Job>, c: Campaign, expired: set<string>,
                                               chosen: Option<string>)
    requires PollChoices(jobs, expired, chosen) && forall id :: id in JobsOf(c, jobs) ==> jobs[id].state == Succeeded
    ensures StateFromJobs(c, Polled(jobs, expired, chosen)) == StateFromJobs(c, jobs)
  {
    var after := Polled(jobs, expired, chosen);
    PollKeepsHeld(c, jobs, expired, chosen);
    forall id | id in JobsOf(c, jobs) ensures after[id].state == Succeeded {}
  }

  lemma {:induction false} PollLeavesUnfinished(jobs: map<string, Job>, c: Campaign, expired: set<string>,
                                                chosen: Option<string>)
    requires PollChoices(jobs, expired, chosen) && Current(c, jobs)
    requires (forall id :: id in JobsOf(c, jobs) ==> id !in expired) && !Broken(c, jobs)
    ensures Current(c, Polled(jobs, expired, chosen))
  {
    if id :| id in JobsOf(c, jobs) && jobs[id].state != Succeeded { PollLeavesRunning(jobs, c, expired, chosen, id); }
    else { PollLeavesSucceeded(jobs, c, expired, chosen); }
  }

  lemma {:induction false} PollBreaks(jobs: map<string, Job>, c: Campaign, expired: set<string>,
                                      chosen: Option<string>, id: string)
    requires PollChoices(jobs, expired, chosen) && Current(c, jobs) && !Broken(c, jobs)
    requires id in JobsOf(c, jobs) && id in expired
    ensures !Current(c, Polled(jobs, expired, chosen))
  {
    PollKeepsHeld(c, jobs, expired, chosen);
    assert Polled(jobs, expired, chosen)[id].state == Expired && jobs[id].state != Succeeded;
  }

  lemma {:induction false} BrokenIsFailed(c: Campaign, jobs: map<string, Job>)
    requires Broken(c, jobs)
    ensures StateFromJobs(c, jobs) == CampaignFailed
  {}

  lemma {:induction false} PollKeepsBroken(jobs: map<string, Job>, c: Campaign, expired: set<string>,
                                           chosen: Option<string>)
    requires PollChoices(jobs, expired, chosen) && Broken(c, jobs)
    ensures Broken(c, Polled(jobs, expired, chosen))
  {
    PollKeepsHeld(c, jobs, expired, chosen);
    var id :| id in JobsOf(c, jobs) && (jobs[id].state == Failed || jobs[id].state == Expired);
    assert id in JobsOf(c, Polled(jobs, expired, chosen));
  }

  lemma {:induction false} PollLeavesBroken(jobs: map<string, Job>, c: Campaign, expired: set<string>,
                                            chosen: Option<string>)
    requires PollChoices(jobs, expired, chosen) && Current(c, jobs) && Broken(c, jobs)
    ensures Current(c, Polled(jobs, expired, chosen))
  {
    BrokenIsFailed(c, jobs);
    PollKeepsBroken(jobs, c, expired, chosen);
    BrokenIsFailed(c, Polled(jobs, expired, chosen));
  }

  /** A poll leaves a current campaign current exactly when it expires none of the campaign's jobs, or one
      had failed or expired already: expiry is not passed on to the campaign. */
  lemma {:induction false} PollLeavesCurrentExactlyWhen(db: Db, issued: set<string>, op: Op, c: Campaign)
    requires op.NextJob? && Allowed(db, issued, op) && Current(c, db.jobs)
    ensures Current(c, Apply(db, op).jobs) <==>
            (forall id :: id in JobsOf(c, db.jobs) ==> id !in op.expired) || Broken(c, db.jobs)
  {
    assert PollChoices(db.jobs, op.expired, op.chosen);
    if Broken(c, db.jobs) {
      PollLeavesBroken(db.jobs, c, op.expired, op.chosen);
    } else if id :| id in JobsOf(c, db.jobs) && id in op.expired {
      PollBreaks(db.jobs, c, op.expired, op.chosen, id);
    } else {
      PollLeavesUnfinished(db.jobs, c, op.expired, op.chosen);
    }
  }

  /** A poll that the store may make, in some order of its jobs, after which the campaign is behind them. */
  ghost predicate LeavesBehind(db: Db, issued: set<string>, op: Op, c: Campaign) {
    Allowed(db, issued, op) && !Current(c, Apply(db, op).jobs)
  }

  /** The campaign has a job for the device that is overdue, and none that failed or expired before. */
  predicate AboutToExpire(db: Db, tenant: string, device: string, now: int, c: Campaign) {
    !Broken(c, db.jobs) && exists id :: id in JobsOf(c, db.jobs) && Overdue(db.jobs[id], tenant, device, now)
  }

  predicate SomeDue(db: Db, tenant: string, device: string, now: int) {
    exists id :: id in db.jobs && Due(db.jobs[id], tenant, device, now)
  }

  /** The poll that comes upon every overdue job before it hands one out, if it can. */
  lemma {:induction false} ThoroughPoll(db: Db, issued: set<string>, tenant: string, device: string, now: int)
    returns (op: Op)
    ensures op.NextJob? && op == NextJob(tenant, device, now, op.expired, op.chosen) && Allowed(db, issued, op)
    ensures forall id :: id in db.jobs && Overdue(db.jobs[id], tenant, device, now) ==> id in op.expired
  {
    var expired := set id | id in db.jobs && Overdue(db.jobs[id], tenant, device, now);
    if id :| id in db.jobs && Due(db.jobs[id], tenant, device, now) {
      op := NextJob(tenant, device, now, expired, Some(id));
    } else {
      op := NextJob(tenant, device, now, expired, None);
    }
  }

  /** Whether a poll of a device can leave a campaign saying something else than its jobs stand for: exactly when
      none of the campaign's jobs had failed or expired, and one of those for this device is overdue. */
  lemma {:induction false} ExpiryLeavesCampaignBehind(db: Db, issued: set<string>, tenant: string, device: string,
                                                      now: int, c: Campaign)
    requires Current(c, db.jobs)
    ensures (exists expired, chosen :: LeavesBehind(db, issued, NextJob(tenant, device, now, expired, chosen), c))
            <==> AboutToExpire(db, tenant, device, now, c)
  {
    if AboutToExpire(db, tenant, device, now, c) {
      var op := ThoroughPoll(db, issued, tenant, device, now);
      PollLeavesCurrentExactlyWhen(db, issued, op, c);
      assert LeavesBehind(db, issued, NextJob(tenant, device, now, op.expired, op.chosen), c);
    }
    forall expired, chosen | LeavesBehind(db, issued, NextJob(tenant, device, now, expired, chosen), c)
      ensures AboutToExpire(db, tenant, device, now, c)
    {
      PollLeavesCurrentExactlyWhen(db, issued, NextJob(tenant, device, now, expired, chosen), c);
    }
  }

  /** And whether it is bound to, whatever the order of the jobs: exactly when, besides, no job is due that the
      poll could hand out first. */
  lemma {:induction false} ExpiryMustLeaveCampaignBehind(db: Db, issued: set<string>, tenant: string, device: string,
                                                         now: int, c: Campaign)
    requires Current(c, db.jobs)
    ensures (forall expired, chosen :: Allowed(db, issued, NextJob(tenant, device, now, expired, chosen)) ==>
               LeavesBehind(db, issued, NextJob(tenant, device, now, expired, chosen), c))
            <==> AboutToExpire(db, tenant, device, now, c) && !SomeDue(db, tenant, device, now)
  {
    if id :| id in db.jobs && Due(db.jobs[id], tenant, device, now) {
      var op := NextJob(tenant, device, now, {}, Some(id));
      PollLeavesCurrentExactlyWhen(db, issued, op, c);
      assert Allowed(db, issued, op) && !LeavesBehind(db, issued, op, c);
    } else {
      var op := ThoroughPoll(db, issued, tenant, device, now);
      PollLeavesCurrentExactlyWhen(db, issued, op, c);
      assert Allowed(db, issued, NextJob(tenant, device, now, op.expired, op.chosen));
      forall expired, chosen | Allowed(db, issued, NextJob(tenant, device, now, expired, chosen))
        ensures LeavesBehind(db, issued, NextJob(tenant, device, now, expired, chosen), c) <==>
                AboutToExpire(db, tenant, device, now, c)
      {
        PollLeavesCurrentExactlyWhen(db, issued, NextJob(tenant, device, now, expired, chosen), c);
      }
    }
  }
}
