/** The control plane's records, and what each store operation makes of them. */
module CloudTypes {
  import opened Text
  import OtaTypes

  datatype JobState =
    | Unset | Queued | Delivered | Running | InReboot | Succeeded | Failed | Expired | Cancelled
    | OtherState(name: string)

  datatype Device = Device(id: string, tenant: string, info: string)

  datatype Job = Job(
    id: string, tenant: string, device: string, deployment: string,
    kind: string, payload: Option<OtaTypes.Request>, // the OTA request that an ota_update payload parses to
    expiresAt: int, attempt: nat, state: JobState, key: string, result: string)

  datatype CampaignState =
    | NoState | Ready | CanaryQueued | AllQueued | InProgress | CanaryComplete | CampaignCompleted | CampaignFailed

  datatype Campaign = Campaign(
    id: string, tenant: string, targets: seq<string>, canaryPercent: int,
    release: OtaTypes.Request, // what the jobs ask for; the update id is the campaign's
    state: CampaignState)

  datatype Metric = Metric(device: string, labels: nat, sample: string)

  datatype Db = Db(
    devices: map<string, Device>,
    jobs: map<string, Job>,
    campaigns: map<string, Campaign>,
    telemetry: seq<Metric>,
    inventory: map<string, string>)

  datatype StoreError = NotFound | TenantMismatch | QuotaExceeded | NotTerminal | SaveFailed(cause: string)

  type Failure = Option<StoreError>

  const MAX_METRICS := 5000
  const MAX_LABELS := 12

  predicate Deliverable(s: JobState) {
    s == Queued || s == Delivered || s == Running || s == InReboot
  }

  predicate TerminalJob(s: JobState) {
    s == Succeeded || s == Failed || s == Expired || s == Cancelled
  }

  /** The state a device reported, or failed when it is not one a device may report. */
  function AcceptedState(reported: JobState): JobState {
    if reported == Succeeded || reported == Failed || reported == InReboot || reported == Running then reported
    else Failed
  }

  // ---------- campaigns and their jobs ----------

  predicate Holds(c: Campaign, j: Job) {
    j.tenant == c.tenant && j.deployment == c.id
  }

  function JobsOf(c: Campaign, jobs: map<string, Job>): set<string> {
    set id | id in jobs && Holds(c, jobs[id])
  }

  /** The campaign state that its jobs stand for. */
  function StateFromJobs(c: Campaign, jobs: map<string, Job>): CampaignState {
    var held := JobsOf(c, jobs);
    if held == {} then c.state
    else if exists id :: id in held && (jobs[id].state == Failed || jobs[id].state == Expired) then CampaignFailed
    else if exists id :: id in held && jobs[id].state != Succeeded then InProgress
    else if |held| < |c.targets| then CanaryComplete
    else CampaignCompleted
  }

  function Without(targets: seq<string>, device: string): seq<string> {
    if targets == [] then []
    else (if targets[0] == device then [] else [targets[0]]) + Without(targets[1..], device)
  }

  function MetricsWithout(metrics: seq<Metric>, device: string): seq<Metric> {
    if metrics == [] then []
    else (if metrics[0].device == device then [] else [metrics[0]]) + MetricsWithout(metrics[1..], device)
  }

  /** How many metrics of a batch are taken before the first one that is refused. */
  function Accepted(devices: map<string, Device>, tenant: string, batch: seq<Metric>): nat {
    if batch == [] || !AcceptsMetric(devices, tenant, batch[0]) then 0
    else 1 + Accepted(devices, tenant, batch[1..])
  }

  predicate AcceptsMetric(devices: map<string, Device>, tenant: string, m: Metric) {
    OwnDevice(devices, tenant, m.device) && m.labels <= MAX_LABELS
  }

  predicate OwnDevice(devices: map<string, Device>, tenant: string, device: string) {
    device in devices && devices[device].tenant == tenant
  }

  // ---------- the operations ----------

  /** One store operation, with the choices that the store makes itself: new ids, and where the
      iteration over the job map stops. */
  datatype Op =
    | CreateDevice(tenant: string, id: string, info: string)
    | UpdateDevice(record: Device)
    | DeleteDevice(tenant: string, id: string)
    | AddTelemetry(tenant: string, batch: seq<Metric>)
    | SaveInventory(tenant: string, id: string, payload: string)
    | CreateJob(tenant: string, job: Job, id: string)
    | DeleteJob(tenant: string, id: string)
    | CreateCampaign(tenant: string, campaign: Campaign, id: string)
    | UpdateCampaign(tenant: string, campaign: Campaign)
    | NextJob(tenant: string, device: string, now: int, expired: set<string>, chosen: Option<string>)
    | CompleteJob(tenant: string, id: string, reported: JobState, result: string)

  predicate SameKey(j: Job, tenant: string, key: string) {
    key != "" && j.tenant == tenant && j.key == key
  }

  predicate KeyTaken(jobs: map<string, Job>, tenant: string, key: string) {
    exists id :: id in jobs && SameKey(jobs[id], tenant, key)
  }

  function Stamped(j: Job, tenant: string, id: string): Job {
    j.(id := id, tenant := tenant, state := if j.state == Unset then Queued else j.state)
  }

  predicate Waiting(j: Job, tenant: string, device: string) {
    j.tenant == tenant && j.device == device && Deliverable(j.state)
  }

  /** The jobs that a poll of the device may hand out, and those it may only expire. */
  predicate Due(j: Job, tenant: string, device: string, now: int) {
    Waiting(j, tenant, device) && now <= j.expiresAt
  }

  predicate Overdue(j: Job, tenant: string, device: string, now: int) {
    Waiting(j, tenant, device) && now > j.expiresAt
  }

  /** Whether the choices in `op` are ones the store can make; `issued` holds every id ever given out. */
  predicate Allowed(db: Db, issued: set<string>, op: Op) {
    match op
    case CreateDevice(_, id, _) => id !in issued
    case CreateJob(tenant, job, id) => id !in issued
    case CreateCampaign(tenant, c, id) => id !in issued
    case NextJob(tenant, device, now, expired, chosen) =>
      && (forall id :: id in expired ==> id in db.jobs && Overdue(db.jobs[id], tenant, device, now))
      && (chosen.Some? ==> chosen.value in db.jobs && Due(db.jobs[chosen.value], tenant, device, now))
      && (chosen == None ==>
            forall id :: id in db.jobs && Waiting(db.jobs[id], tenant, device) ==> id in expired)
    case _ => true
  }

  function Issued(op: Op): set<string> {
    match op
    case CreateDevice(_, id, _) => {id}
    case CreateJob(_, _, id) => {id}
    case CreateCampaign(_, _, id) => {id}
    case _ => {}
  }

  function Apply(db: Db, op: Op): Db {
    match op
    case CreateDevice(tenant, id, info) => db.(devices := db.devices[id := Device(id, tenant, info)])
    case UpdateDevice(d) =>
      if OwnDevice(db.devices, d.tenant, d.id) then db.(devices := db.devices[d.id := d]) else db
    case DeleteDevice(tenant, id) => if OwnDevice(db.devices, tenant, id) then Deleted(db, tenant, id) else db
    case AddTelemetry(tenant, batch) =>
      if |batch| > MAX_METRICS then db
      else db.(telemetry := db.telemetry + batch[..Taken(db.devices, tenant, batch)])
    case SaveInventory(tenant, id, payload) =>
      if OwnDevice(db.devices, tenant, id) then db.(inventory := db.inventory[id := payload]) else db
    case CreateJob(tenant, job, id) =>
      if OwnDevice(db.devices, tenant, job.device) && !KeyTaken(db.jobs, tenant, job.key)
      then db.(jobs := db.jobs[id := Stamped(job, tenant, id)]) else db
    case DeleteJob(tenant, id) =>
      if id in db.jobs && db.jobs[id].tenant == tenant && TerminalJob(db.jobs[id].state)
      then db.(jobs := db.jobs - {id}) else db
    case CreateCampaign(tenant, c, id) =>
      if c.tenant != "" && c.tenant != tenant then db
      else db.(campaigns := db.campaigns[id :=
          c.(id := id, tenant := tenant, state := if c.state == NoState then Ready else c.state)])
    case UpdateCampaign(tenant, c) =>
      if c.id in db.campaigns && db.campaigns[c.id].tenant == tenant && c.tenant == tenant
      then db.(campaigns := db.campaigns[c.id := c]) else db
    case NextJob(_, _, _, expired, chosen) => db.(jobs := Polled(db.jobs, expired, chosen))
    case CompleteJob(tenant, id, reported, result) =>
      if id in db.jobs && db.jobs[id].tenant == tenant then Finished(db, id, reported, result) else db
  }

  function Taken(devices: map<string, Device>, tenant: string, batch: seq<Metric>): (n: nat)
    ensures n <= |batch|
  {
    TakenIsPrefix(devices, tenant, batch);
    Accepted(devices, tenant, batch)
  }

  lemma TakenIsPrefix(devices: map<string, Device>, tenant: string, batch: seq<Metric>)
    ensures Accepted(devices, tenant, batch) <= |batch|
  {}

  function Deleted(db: Db, tenant: string, device: string): Db {
    Db(db.devices - {device},
       map id | id in db.jobs && db.jobs[id].device != device :: db.jobs[id],
       map id | id in db.campaigns && Survives(db.campaigns[id], tenant, device) ::
         Trimmed(db.campaigns[id], tenant, device),
       MetricsWithout(db.telemetry, device),
       db.inventory - {device})
  }

  predicate Survives(c: Campaign, tenant: string, device: string) {
    c.tenant != tenant || Without(c.targets, device) != []
  }

  function Trimmed(c: Campaign, tenant: string, device: string): Campaign {
    if c.tenant != tenant then c else c.(targets := Without(c.targets, device))
  }

  function Polled(jobs: map<string, Job>, expired: set<string>, chosen: Option<string>): map<string, Job> {
    map id | id in jobs ::
      if chosen == Some(id) then jobs[id].(state := Delivered, attempt := jobs[id].attempt + 1)
      else if id in expired then jobs[id].(state := Expired)
      else jobs[id]
  }

  function Finished(db: Db, id: string, reported: JobState, result: string): Db
    requires id in db.jobs
  {
    var job := db.jobs[id].(state := AcceptedState(reported), result := result);
    var jobs := db.jobs[id := job];
    if job.deployment in db.campaigns && db.campaigns[job.deployment].tenant == job.tenant then
      var c := db.campaigns[job.deployment];
      db.(jobs := jobs, campaigns := db.campaigns[c.id := c.(state := StateFromJobs(c, jobs))])
    else db.(jobs := jobs)
  }
}
