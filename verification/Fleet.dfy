/** The whole fleet: the control plane, its handlers and many agents, with messages lost, repeated or
    late, saves failing and anything restarting at any time. */
module Fleet {
  import opened Text
  import OtaTypes
  import OtaMachine
  import OtaSafety
  import OtaTerminal
  import opened CloudTypes
  import opened CloudIntegrity
  import opened Rollout
  import opened AgentJobs

  /** What is known of the past: every job and campaign as it was created, the jobs whose success an
      agent reported, and every id given out. */
  datatype Ledger = Ledger(made: map<string, Job>, launched: map<string, Campaign>, succeeded: set<string>,
      issued: set<string>)

  datatype Fleet = Fleet(
    cloud: Cloud,
    seen: set<Campaign>,        // copies of campaigns that a handler of the running server may hold
    deliveries: set<Job>,       // every job ever handed out: a poll's answer may arrive late or twice
    agents: map<string, Agent>, // by device
    ledger: Ledger)

  datatype Act =
    | Serve(step: CloudIntegrity.Step)
    | Work(job: Job, after: Agent, state: JobState)         // an agent runs a delivered job and lives to report
    | Interrupted(device: string, id: string, after: Agent) // it crashes or reboots, in the middle of job `id` or idle

  const NEW_AGENT := Agent(History([], OtaMachine.NewDevice("")), NoFile)

  const NEW_FLEET := Fleet(Cloud(EMPTY, EMPTY, {""}), {}, {}, map[], Ledger(map[], map[], {}, {""}))

  function AgentOf(agents: map<string, Agent>, device: string): Agent {
    if device in agents then agents[device] else NEW_AGENT
  }

  /** Clients queue jobs that name no campaign; campaigns and their jobs are written by the handlers,
      each of whose store calls is a step of its own here; a success is reported by an agent. */
  predicate CanServe(f: Fleet, op: Op) {
    Allowed(f.cloud.mem, f.cloud.issued, op) &&
    match op
    case CreateJob(_, job, _) =>
      || (job.deployment == "" && (job.state == Unset || job.state == Queued))
      || exists c :: c in f.seen && HandlerOp(c, op)
    case UpdateCampaign(_, _) => exists c :: c in f.seen && HandlerOp(c, op)
    case CreateCampaign(_, c, _) => c.state == Ready
    case CompleteJob(_, id, reported, _) => reported == Succeeded ==> id in f.ledger.succeeded
    case _ => true
  }

  /** The device did something more, and no call is in progress. */
  ghost predicate Follows(a: History, b: History) {
    b.device.call.Idle? && exists more :: b.log == a.log + more && OtaMachine.Run(a.device, more) == Some(b.device)
  }

  /** An agent that stops in the middle of job `id`, or of nothing. */
  ghost predicate Halted(a: Agent, b: Agent, id: string) {
    EntriesFrom(a.file, b.file, id, None) && Follows(a.ota, b.ota)
  }

  ghost predicate CanAct(f: Fleet, act: Act) {
    match act
    case Serve(step) => step.Do? ==> CanServe(f, step.op)
    case Work(j, after, state) => j in f.deliveries && Executed(AgentOf(f.agents, j.device), after, j, state)
    case Interrupted(device, id, after) => Halted(AgentOf(f.agents, device), after, id)
  }

  function Recorded(l: Ledger, op: Op, post: Db): Ledger {
    Ledger(
      if op.CreateJob? && op.id in post.jobs then l.made[op.id := post.jobs[op.id]] else l.made,
      if op.CreateCampaign? && op.id in post.campaigns then l.launched[op.id := post.campaigns[op.id]] else l.launched,
      l.succeeded, l.issued + Issued(op))
  }

  function HandedOut(op: Op, post: Db): set<Job> {
    if op.NextJob? && op.chosen.Some? && op.chosen.value in post.jobs then {post.jobs[op.chosen.value]} else {}
  }

  function Result(f: Fleet, act: Act): Fleet {
    match act
    case Serve(Restart) =>
      f.(cloud := Take(f.cloud, Restart), seen := f.cloud.file.campaigns.Values)
    case Serve(Do(op, saved)) =>
      var cloud := Take(f.cloud, Do(op, saved));
      Fleet(cloud, f.seen + cloud.mem.campaigns.Values, f.deliveries + HandedOut(op, cloud.mem), f.agents,
          Recorded(f.ledger, op, cloud.mem))
    case Work(j, after, state) =>
      f.(agents := f.agents[j.device := after],
         ledger := f.ledger.(succeeded := f.ledger.succeeded + if state == Succeeded then {j.id} else {}))
    case Interrupted(device, _, after) => f.(agents := f.agents[device := after])
  }

  /** Where a run of the fleet leads, if each act is possible when it comes. */
  ghost function Reached(acts: seq<Act>): Option<Fleet>
    decreases |acts|
  {
    if acts == [] then Some(NEW_FLEET)
    else match Reached(acts[..|acts| - 1])
      case Some(f) => if CanAct(f, acts[|acts| - 1]) then Some(Result(f, acts[|acts| - 1])) else None
      case None => None
  }

  // ---------- what the ledger knows ----------

  /** What a campaign asks a device to install. */
  function Asked(c: Campaign): OtaTypes.Request {
    c.release.(updateId := c.id)
  }

  predicate SameJob(a: Job, b: Job) {
    a == b.(state := a.state, attempt := a.attempt, result := a.result)
  }

  /** The job is the one a handler of its campaign queues for its device. */
  predicate ByCampaign(j: Job, launched: map<string, Campaign>) {
    j.deployment in launched &&
    var c := launched[j.deployment];
    && j.tenant == c.tenant && j.device in c.targets && j.key == JobKey(c, j.device)
    && j.kind == "ota_update" && j.payload == Some(Asked(c))
  }

  predicate MadeWell(l: Ledger) {
    && "" in l.issued
    && (forall id :: id in l.made ==>
          l.made[id].id == id && id in l.issued && (l.made[id].deployment == "" || ByCampaign(l.made[id], l.launched)))
    && (forall k :: k in l.launched ==> l.launched[k].id == k && k in l.issued && k != "")
  }

  /** A copy of a campaign may lack targets only because their devices are gone. */
  predicate Faithful(c: Campaign, l: Ledger, devices: map<string, Device>) {
    c.id in l.launched &&
    var first := l.launched[c.id];
    && c.tenant == first.tenant && c.release == first.release
    && (forall d :: d in c.targets ==> d in first.targets)
    && (forall d :: d in first.targets ==> d in c.targets || (d in l.issued && d !in devices))
  }

  predicate Known(j: Job, l: Ledger) {
    j.id in l.made && SameJob(j, l.made[j.id])
  }

  predicate JobsKnown(jobs: map<string, Job>, l: Ledger) {
    forall id :: id in jobs ==>
      && jobs[id].id == id && Known(jobs[id], l)
      && (jobs[id].state == Succeeded ==> id in l.succeeded)
  }

  predicate CampaignsKnown(db: Db, l: Ledger) {
    forall k :: k in db.campaigns ==> Faithful(db.campaigns[k], l, db.devices)
  }

  /** An agent reported that the campaign's job for this device succeeded. */
  ghost predicate Confirmed(l: Ledger, k: string, device: string) {
    exists id :: ConfirmedBy(l, k, device, id)
  }

  predicate ConfirmedBy(l: Ledger, k: string, device: string, id: string) {
    id in l.succeeded && id in l.made && l.made[id].deployment == k && l.made[id].device == device
  }

  ghost predicate CompletionsTrue(campaigns: map<string, Campaign>, l: Ledger) {
    forall k :: k in campaigns && campaigns[k].state == CampaignCompleted ==>
      forall d :: d in campaigns[k].targets ==> Confirmed(l, k, d)
  }

  ghost predicate DbTrue(db: Db, l: Ledger) {
    Sound(db, l.issued) && JobsKnown(db.jobs, l) && CampaignsKnown(db, l) && CompletionsTrue(db.campaigns, l)
  }

  predicate SeenFaithful(seen: set<Campaign>, devices: map<string, Device>, l: Ledger) {
    forall c :: c in seen ==> Faithful(c, l, devices)
  }

  predicate DeliveriesKnown(deliveries: set<Job>, l: Ledger) {
    forall j :: j in deliveries ==> Known(j, l)
  }

  predicate Extends(l: Ledger, m: Ledger) {
    && (forall id :: id in l.made ==> id in m.made && m.made[id] == l.made[id])
    && (forall k :: k in l.launched ==> k in m.launched && m.launched[k] == l.launched[k])
    && l.succeeded <= m.succeeded && l.issued <= m.issued
  }

  lemma {:induction false} RecordingExtends(l: Ledger, op: Op, db: Db)
    requires MadeWell(l) && Allowed(db, l.issued, op)
    ensures Extends(l, Recorded(l, op, Apply(db, op)))
  {}

  lemma {:induction false} DbStaysTrue(db: Db, l: Ledger, m: Ledger)
    requires DbTrue(db, l) && Extends(l, m)
    ensures DbTrue(db, m)
  {
    forall k, d | k in db.campaigns && db.campaigns[k].state == CampaignCompleted && d in db.campaigns[k].targets
      ensures Confirmed(m, k, d)
    {
      var id :| ConfirmedBy(l, k, d, id);
      assert ConfirmedBy(m, k, d, id);
    }
  }

  // ---------- counting jobs is enough ----------

  function DevicesIn(held: set<string>, jobs: map<string, Job>): set<string>
    requires held <= jobs.Keys
  {
    set id | id in held :: jobs[id].device
  }

  lemma {:induction false} AsManyDevices(held: set<string>, jobs: map<string, Job>)
    requires held <= jobs.Keys
    requires forall a, b :: a in held && b in held && jobs[a].device == jobs[b].device ==> a == b
    ensures |DevicesIn(held, jobs)| == |held|
  {
    if held == {} {
      assert DevicesIn(held, jobs) == {};
    } else {
      var id :| id in held;
      AsManyDevices(held - {id}, jobs);
      assert DevicesIn(held, jobs) == DevicesIn(held - {id}, jobs) + {jobs[id].device};
    }
  }

  function AsSet(targets: seq<string>): set<string> {
    set d | d in targets
  }

  lemma {:induction false} AtMostLength(targets: seq<string>)
    ensures |AsSet(targets)| <= |targets|
  {
    if targets == [] {
      assert AsSet(targets) == {};
    } else {
      AtMostLength(targets[1..]);
      assert AsSet(targets) == AsSet(targets[1..]) + {targets[0]};
    }
  }

  lemma {:induction false} StrictlyFewer<T>(a: set<T>, b: set<T>)
    requires a < b
    ensures |a| < |b|
  {
    assert a + (b - a) == b && b - a != {};
  }

  lemma {:induction false} SubsetAsLarge<T>(a: set<T>, b: set<T>)
    requires a <= b && |a| >= |b|
    ensures a == b
  {
    if a != b { StrictlyFewer(a, b); }
  }

  lemma {:induction false} HeldJobsOfOneDevice(db: Db, l: Ledger, c: Campaign, a: string, b: string)
    requires MadeWell(l) && Sound(db, l.issued) && JobsKnown(db.jobs, l) && c.id != ""
    requires a in JobsOf(c, db.jobs) && b in JobsOf(c, db.jobs) && db.jobs[a].device == db.jobs[b].device
    ensures a == b
  {
    assert ByCampaign(l.made[a], l.launched) && ByCampaign(l.made[b], l.launched);
    assert SameKey(db.jobs[a], db.jobs[b].tenant, db.jobs[b].key);
  }

  lemma {:induction false} HeldJobIsForATarget(db: Db, l: Ledger, c: Campaign, id: string)
    requires MadeWell(l) && Sound(db, l.issued) && JobsKnown(db.jobs, l) && Faithful(c, l, db.devices)
    requires id in JobsOf(c, db.jobs)
    ensures db.jobs[id].device in c.targets
  {
    assert ByCampaign(l.made[id], l.launched);
  }

  /** `campaignState` compares two counts; here that is as good as looking at every target: when it
      says completed, each target has its own succeeded job of the campaign. */
  lemma {:induction false} CompletedMeansEveryTarget(db: Db, l: Ledger, c: Campaign, device: string)
    requires MadeWell(l) && Sound(db, l.issued) && JobsKnown(db.jobs, l) && Faithful(c, l, db.devices)
    requires JobsOf(c, db.jobs) != {} && StateFromJobs(c, db.jobs) == CampaignCompleted && device in c.targets
    ensures exists id :: id in JobsOf(c, db.jobs) && db.jobs[id].device == device && db.jobs[id].state == Succeeded
  {
    var held := JobsOf(c, db.jobs);
    forall a, b | a in held && b in held && db.jobs[a].device == db.jobs[b].device ensures a == b {
      HeldJobsOfOneDevice(db, l, c, a, b);
    }
    AsManyDevices(held, db.jobs);
    AtMostLength(c.targets);
    var devices := DevicesIn(held, db.jobs);
    forall d | d in devices ensures d in AsSet(c.targets) {
      var id :| id in held && db.jobs[id].device == d;
      HeldJobIsForATarget(db, l, c, id);
    }
    SubsetAsLarge(devices, AsSet(c.targets));
    assert device in devices;
  }

  // ---------- the control plane keeps to the ledger ----------

  ghost predicate CloudTrue(f: Fleet) {
    && MadeWell(f.ledger) && f.cloud.issued == f.ledger.issued
    && DbTrue(f.cloud.mem, f.ledger) && DbTrue(f.cloud.file, f.ledger)
    && SeenFaithful(f.seen, f.cloud.mem.devices, f.ledger)
    && DeliveriesKnown(f.deliveries, f.ledger)
  }

  /** Devices only go, or are new. */
  predicate OnlyNew(before: map<string, Device>, after: map<string, Device>, issued: set<string>) {
    forall d :: d in after ==> d in before || d !in issued
  }

  lemma {:induction false} DevicesOnlyNew(db: Db, l: Ledger, op: Op)
    requires Allowed(db, l.issued, op) && Sound(db, l.issued)
    ensures OnlyNew(db.devices, Apply(db, op).devices, l.issued)
  {}

  lemma {:induction false} StaysFaithful(c: Campaign, l: Ledger, m: Ledger, devices: map<string, Device>,
                                         after: map<string, Device>)
    requires Faithful(c, l, devices) && Extends(l, m) && OnlyNew(devices, after, l.issued)
    ensures Faithful(c, m, after)
  {}

  lemma {:induction false} CampaignJobIsWell(f: Fleet, op: Op)
    requires CloudTrue(f) && CanServe(f, op) && op.CreateJob? && op.job.deployment != ""
    ensures ByCampaign(Stamped(op.job, op.tenant, op.id), f.ledger.launched)
  {
    var c :| c in f.seen && HandlerOp(c, op);
    assert Faithful(c, f.ledger, f.cloud.mem.devices);
  }

  lemma {:induction false} OneMoreMade(l: Ledger, id: string, j: Job)
    requires MadeWell(l) && j.id == id && (j.deployment == "" || ByCampaign(j, l.launched))
    ensures MadeWell(l.(made := l.made[id := j], issued := l.issued + {id})) && MadeWell(l.(issued := l.issued + {id}))
  {}

  lemma {:induction false} CreatedJobIsWell(f: Fleet, op: Op)
    requires CloudTrue(f) && CanServe(f, op) && op.CreateJob?
    ensures MadeWell(Recorded(f.ledger, op, Apply(f.cloud.mem, op)))
  {
    if op.job.deployment != "" { CampaignJobIsWell(f, op); }
    OneMoreMade(f.ledger, op.id, Stamped(op.job, op.tenant, op.id));
    assert op.id in Apply(f.cloud.mem, op).jobs ==>
           Apply(f.cloud.mem, op).jobs[op.id] == Stamped(op.job, op.tenant, op.id);
  }

  lemma {:induction false} RecordedWell(f: Fleet, op: Op)
    requires CloudTrue(f) && CanServe(f, op)
    ensures MadeWell(Recorded(f.ledger, op, Apply(f.cloud.mem, op)))
  {
    if op.CreateJob? { CreatedJobIsWell(f, op); }
  }

  lemma {:induction false} PolledJobsKnown(jobs: map<string, Job>, expired: set<string>, chosen: Option<string>,
                                           l: Ledger)
    requires JobsKnown(jobs, l)
    ensures JobsKnown(Polled(jobs, expired, chosen), l)
  {}

  lemma {:induction false} OneJobRewritten(jobs: map<string, Job>, l: Ledger, id: string, j: Job)
    requires JobsKnown(jobs, l) && id in jobs && SameJob(j, jobs[id]) && (j.state == Succeeded ==> id in l.succeeded)
    ensures JobsKnown(jobs[id := j], l)
  {}

  lemma {:induction false} FinishedJobsKnown(db: Db, l: Ledger, id: string, reported: JobState, result: string)
    requires JobsKnown(db.jobs, l) && id in db.jobs && (reported == Succeeded ==> id in l.succeeded)
    ensures JobsKnown(Finished(db, id, reported, result).jobs, l)
  {
    var j := db.jobs[id].(state := AcceptedState(reported), result := result);
    OneJobRewritten(db.jobs, l, id, j);
    assert Finished(db, id, reported, result).jobs == db.jobs[id := j];
  }

  lemma {:induction false} OneMoreKnown(jobs: map<string, Job>, l: Ledger, m: Ledger, id: string, j: Job)
    requires JobsKnown(jobs, l) && m.succeeded == l.succeeded && m.made == l.made[id := j] && id !in l.made
    requires j.id == id && j.state != Succeeded
    ensures JobsKnown(jobs[id := j], m)
  {}

  lemma {:induction false} QueuedJobsKnown(f: Fleet, op: Op)
    requires CloudTrue(f) && CanServe(f, op) && op.CreateJob?
    ensures JobsKnown(Apply(f.cloud.mem, op).jobs, Recorded(f.ledger, op, Apply(f.cloud.mem, op)))
  {
    var db, l, post := f.cloud.mem, f.ledger, Apply(f.cloud.mem, op);
    var m := Recorded(l, op, post);
    assert op.id !in l.made;
    if op.id in post.jobs {
      QueuedNotDone(f, op);
      OneMoreKnown(db.jobs, l, m, op.id, Stamped(op.job, op.tenant, op.id));
    } else {
      KnownInMore(db.jobs, l, m);
    }
  }

  lemma {:induction false} QueuedNotDone(f: Fleet, op: Op)
    requires CanServe(f, op) && op.CreateJob?
    ensures Stamped(op.job, op.tenant, op.id).state != Succeeded
  {
    if op.job.deployment != "" { var c :| c in f.seen && HandlerOp(c, op); }
  }

  lemma {:induction false} FewerJobsKnown(jobs: map<string, Job>, fewer: map<string, Job>, l: Ledger)
    requires JobsKnown(jobs, l) && forall id :: id in fewer ==> id in jobs && fewer[id] == jobs[id]
    ensures JobsKnown(fewer, l)
  {}

  lemma {:induction false} JobsStayKnown(f: Fleet, op: Op)
    requires CloudTrue(f) && CanServe(f, op)
    ensures JobsKnown(Apply(f.cloud.mem, op).jobs, Recorded(f.ledger, op, Apply(f.cloud.mem, op)))
  {
    var db, l := f.cloud.mem, f.ledger;
    if op.CreateJob? {
      QueuedJobsKnown(f, op);
    } else {
      if op.NextJob? { PolledJobsKnown(db.jobs, op.expired, op.chosen, l); }
      else if op.CompleteJob? && op.id in db.jobs { FinishedJobsKnown(db, l, op.id, op.reported, op.result); }
      else { FewerJobsKnown(db.jobs, Apply(db, op).jobs, l); }
      KnownInMore(Apply(db, op).jobs, l, Recorded(l, op, Apply(db, op)));
    }
  }

  lemma {:induction false} KnownInMore(jobs: map<string, Job>, l: Ledger, m: Ledger)
    requires JobsKnown(jobs, l) && m.made == l.made && m.succeeded == l.succeeded
    ensures JobsKnown(jobs, m)
  {}

  lemma {:induction false} TrimmedFaithful(db: Db, l: Ledger, tenant: string, device: string, k: string)
    requires Sound(db, l.issued) && CampaignsKnown(db, l) && OwnDevice(db.devices, tenant, device)
    requires k in Deleted(db, tenant, device).campaigns
    ensures Faithful(Deleted(db, tenant, device).campaigns[k], l, db.devices - {device})
    ensures forall d :: d in Deleted(db, tenant, device).campaigns[k].targets ==> d in db.campaigns[k].targets
  {
    WithoutIsGone(db.campaigns[k].targets, device);
  }

  lemma {:induction false} WrittenCampaignFaithful(f: Fleet, op: Op)
    requires CloudTrue(f) && CanServe(f, op) && op.UpdateCampaign?
    ensures Faithful(op.campaign, f.ledger, f.cloud.mem.devices) && op.campaign.state != CampaignCompleted
  {
    var c :| c in f.seen && HandlerOp(c, op);
  }

  predicate WritesCampaigns(op: Op) {
    op.CreateCampaign? || op.UpdateCampaign? || op.DeleteDevice?
  }

  /** Other operations only ever change a campaign's state, and only to the one its jobs stand for. */
  /** A call that does not write campaigns leaves one as it was, or gives it the state its jobs stand for. */
  predicate AsBefore(db: Db, post: Db, k: string)
    requires k in db.campaigns && k in post.campaigns
  {
    && post.campaigns[k] == db.campaigns[k].(state := post.campaigns[k].state)
    && (post.campaigns[k] == db.campaigns[k]
        || (post.devices == db.devices && JobsOf(db.campaigns[k], post.jobs) != {}
            && post.campaigns[k].state == StateFromJobs(db.campaigns[k], post.jobs)))
  }

  lemma {:induction false} CompletionAsBefore(db: Db, op: Op, k: string)
    requires op.CompleteJob? && k in Apply(db, op).campaigns
    requires forall c :: c in db.campaigns ==> db.campaigns[c].id == c
    ensures k in db.campaigns && AsBefore(db, Apply(db, op), k)
  {
    var post := Apply(db, op);
    if post.campaigns[k] != db.campaigns[k] {
      assert op.id in JobsOf(db.campaigns[k], post.jobs);
    }
  }

  lemma {:induction false} CampaignAsBefore(db: Db, issued: set<string>, op: Op, k: string)
    requires Sound(db, issued) && !WritesCampaigns(op) && k in Apply(db, op).campaigns
    ensures k in db.campaigns && AsBefore(db, Apply(db, op), k)
  {
    if op.CompleteJob? { CompletionAsBefore(db, op, k); }
  }

  /** A campaign after such an operation is as before, new, written by a handler, or trimmed. */
  lemma {:induction false} WrittenHow(db: Db, op: Op, k: string)
    requires WritesCampaigns(op) && k in Apply(db, op).campaigns
    ensures var post := Apply(db, op);
            || (k in db.campaigns && post.campaigns[k] == db.campaigns[k] && post.devices == db.devices)
            || (op.CreateCampaign? && k == op.id
               && post.campaigns[k].state == (if op.campaign.state == NoState then Ready else op.campaign.state)
                && post.campaigns[k].id == k)
            || (op.UpdateCampaign? && post.campaigns[k] == op.campaign && post.devices == db.devices)
            || (op.DeleteDevice? && OwnDevice(db.devices, op.tenant, op.id) && post == Deleted(db, op.tenant, op.id))
  {}

  lemma {:induction false} CampaignFaithful(f: Fleet, op: Op, k: string)
    requires CloudTrue(f) && CanServe(f, op) && k in Apply(f.cloud.mem, op).campaigns
    ensures var post := Apply(f.cloud.mem, op); Faithful(post.campaigns[k], Recorded(f.ledger, op, post), post.devices)
  {
    var db, l, post := f.cloud.mem, f.ledger, Apply(f.cloud.mem, op);
    var m := Recorded(l, op, post);
    RecordingExtends(l, op, db);
    DevicesOnlyNew(db, l, op);
    if WritesCampaigns(op) {
      WrittenHow(db, op, k);
      if op.UpdateCampaign? {
        WrittenCampaignFaithful(f, op);
        StaysFaithful(op.campaign, l, m, db.devices, post.devices);
      }
      if op.DeleteDevice? && OwnDevice(db.devices, op.tenant, op.id) { TrimmedFaithful(db, l, op.tenant, op.id, k); }
    } else {
      CampaignAsBefore(db, l.issued, op, k);
    }
    if k in db.campaigns { StaysFaithful(db.campaigns[k], l, m, db.devices, post.devices); }
  }

  /** How a campaign can come to be completed, or stay so. */
  lemma {:induction false} CompletedHow(f: Fleet, op: Op, k: string)
    requires CloudTrue(f) && CanServe(f, op)
    requires var post := Apply(f.cloud.mem, op); k in post.campaigns && post.campaigns[k].state == CampaignCompleted
    ensures var db, post := f.cloud.mem, Apply(f.cloud.mem, op);
            && k in db.campaigns
            && ((db.campaigns[k].state == CampaignCompleted
                 && forall d :: d in post.campaigns[k].targets ==> d in db.campaigns[k].targets)
                || (post.campaigns[k].targets == db.campaigns[k].targets && post.devices == db.devices
                    && JobsOf(db.campaigns[k], post.jobs) != {}
                       && StateFromJobs(db.campaigns[k], post.jobs) == CampaignCompleted))
  {
    var db := f.cloud.mem;
    if WritesCampaigns(op) {
      WrittenHow(db, op, k);
      if op.UpdateCampaign? { WrittenCampaignFaithful(f, op); }
      if op.DeleteDevice? && OwnDevice(db.devices, op.tenant, op.id) {
        TrimmedFaithful(db, f.ledger, op.tenant, op.id, k);
      }
    } else {
      CampaignAsBefore(db, f.ledger.issued, op, k);
    }
  }

  lemma {:induction false} CompletionsStayTrue(f: Fleet, op: Op)
    requires CloudTrue(f) && CanServe(f, op)
    ensures var post := Apply(f.cloud.mem, op); CompletionsTrue(post.campaigns, Recorded(f.ledger, op, post))
  {
    var db, l, post := f.cloud.mem, f.ledger, Apply(f.cloud.mem, op);
    var m := Recorded(l, op, post);
    RecordingExtends(l, op, db);
    DbStaysTrue(db, l, m);
    RecordedWell(f, op);
    ApplyKeepsSound(db, l.issued, op);
    JobsStayKnown(f, op);
    forall k, d | k in post.campaigns && post.campaigns[k].state == CampaignCompleted && d in post.campaigns[k].targets
      ensures Confirmed(m, k, d)
    {
      CompletedHow(f, op, k);
      if db.campaigns[k].state != CampaignCompleted || d !in db.campaigns[k].targets {
        CompletedMeansEveryTarget(post, m, db.campaigns[k], d);
        var id :| id in JobsOf(db.campaigns[k], post.jobs) && post.jobs[id].device == d
            && post.jobs[id].state == Succeeded;
        assert ConfirmedBy(m, k, d, id);
      }
    }
  }

  lemma {:induction false} ServingKeepsDbTrue(f: Fleet, op: Op)
    requires CloudTrue(f) && CanServe(f, op)
    ensures DbTrue(Apply(f.cloud.mem, op), Recorded(f.ledger, op, Apply(f.cloud.mem, op)))
  {
    var db, l, post := f.cloud.mem, f.ledger, Apply(f.cloud.mem, op);
    ApplyKeepsSound(db, l.issued, op);
    JobsStayKnown(f, op);
    CompletionsStayTrue(f, op);
    forall k | k in post.campaigns ensures Faithful(post.campaigns[k], Recorded(l, op, post), post.devices) {
      CampaignFaithful(f, op, k);
    }
  }

  lemma {:induction false} ServingKeepsSeen(f: Fleet, op: Op)
    requires CloudTrue(f) && CanServe(f, op)
    ensures var post := Apply(f.cloud.mem, op);
            SeenFaithful(f.seen + post.campaigns.Values, post.devices, Recorded(f.ledger, op, post))
  {
    var db, l, post := f.cloud.mem, f.ledger, Apply(f.cloud.mem, op);
    var m := Recorded(l, op, post);
    RecordingExtends(l, op, db);
    DevicesOnlyNew(db, l, op);
    forall k | k in post.campaigns ensures Faithful(post.campaigns[k], m, post.devices) { CampaignFaithful(f, op, k); }
    forall c | c in f.seen ensures Faithful(c, m, post.devices) { StaysFaithful(c, l, m, db.devices, post.devices); }
  }

  lemma {:induction false} ServingKeepsCloudTrue(f: Fleet, op: Op, saved: bool)
    requires CloudTrue(f) && CanServe(f, op)
    ensures CloudTrue(Result(f, Serve(Do(op, saved))))
  {
    var m := Recorded(f.ledger, op, Apply(f.cloud.mem, op));
    RecordingExtends(f.ledger, op, f.cloud.mem);
    RecordedWell(f, op);
    ServingKeepsDbTrue(f, op);
    DbStaysTrue(f.cloud.file, f.ledger, m);
    ServingKeepsSeen(f, op);
  }

  lemma {:induction false} RestartKeepsCloudTrue(f: Fleet)
    requires CloudTrue(f)
    ensures CloudTrue(Result(f, Serve(Restart)))
  {}

  // ---------- agents do what they report ----------

  /** What success of a job is worth on the device. */
  predicate Done(disk: map<string, OtaTypes.Transaction>, j: Job) {
    j.kind == "ota_update" ==> j.payload.Some? && OtaTerminal.CompletedFor(disk, j.payload.value)
  }

  predicate Vouched(a: Agent, device: string, id: string, made: map<string, Job>)
    requires SucceededIn(a.file, id)
  {
    && a.file.states[id].result.state == Succeeded
    && id in made && made[id].device == device && Done(a.ota.device.disk, made[id])
  }

  predicate Genuine(h: History) {
    OtaMachine.Run(OtaMachine.NewDevice(""), h.log) == Some(h.device) && h.device.call.Idle?
  }

  ghost predicate AgentTrue(a: Agent, device: string, made: map<string, Job>) {
    Genuine(a.ota) && forall id :: SucceededIn(a.file, id) ==> Vouched(a, device, id, made)
  }

  lemma {:induction false} FollowsKeeps(a: History, b: History, j: Job)
    requires Genuine(a) && (Follows(a, b) || a == b)
    ensures Genuine(b) && (Done(a.device.disk, j) ==> Done(b.device.disk, j))
  {
    if a != b {
      var more :| b.log == a.log + more && OtaMachine.Run(a.device, more) == Some(b.device);
      OtaSafety.RunConcat(OtaMachine.NewDevice(""), a.log, more);
      if Done(a.device.disk, j) && j.kind == "ota_update" {
        OtaTerminal.CompletedIsForever(a.device, more, j.payload.value);
      }
    }
  }

  lemma {:induction false} HandlerIsHonest(a: History, b: History, j: Job, state: JobState)
    requires Genuine(a) && HandlerRan(a, b, j, state)
    ensures a == b || Follows(a, b)
    ensures state == Succeeded ==> Done(b.device.disk, j)
  {
    if j.kind == "ota_update" && j.payload.Some? {
      var r := j.payload.value;
      var reply, more :| Served(a, b, r, reply, more) && state == StateOfReply(reply);
      OtaTerminal.DeliveryAbout(a.device, more, r);
    }
  }

  /** The entries of the job state file stay worth what they say. */
  lemma {:induction false} EntriesStayTrue(a: Agent, b: Agent, device: string, j: Job, outcome: Option<JobState>,
                                           made: map<string, Job>)
    requires AgentTrue(a, device, made) && (Follows(a.ota, b.ota) || a.ota == b.ota)
    requires EntriesFrom(a.file, b.file, j.id, outcome)
    requires outcome == Some(Succeeded) ==>
               j.id in made && made[j.id].device == device && Done(b.ota.device.disk, made[j.id])
    ensures AgentTrue(b, device, made)
  {
    FollowsKeeps(a.ota, b.ota, j);
    forall id | SucceededIn(b.file, id) ensures Vouched(b, device, id, made) {
      if SucceededIn(a.file, id) && b.file.states[id] == a.file.states[id] {
        assert Vouched(a, device, id, made);
        FollowsKeeps(a.ota, b.ota, made[id]);
      }
    }
  }

  lemma {:induction false} WorkIsHonest(a: Agent, b: Agent, j: Job, state: JobState, l: Ledger)
    requires AgentTrue(a, j.device, l.made) && Known(j, l) && Executed(a, b, j, state)
    ensures AgentTrue(b, j.device, l.made) && (Follows(a.ota, b.ota) || a.ota == b.ota)
    ensures state == Succeeded ==> Done(b.ota.device.disk, l.made[j.id])
  {
    if b != a {
      HandlerIsHonest(a.ota, b.ota, j, state);
      EntriesStayTrue(a, b, j.device, j, Some(state), l.made);
    } else if state == Succeeded && SucceededIn(a.file, j.id) {
      assert Vouched(a, j.device, j.id, l.made);
    } else if state == Succeeded {
      HandlerIsHonest(a.ota, b.ota, j, state);
    }
  }

  // ---------- the fleet ----------

  ghost predicate AgentsTrue(agents: map<string, Agent>, l: Ledger) {
    forall d :: AgentTrue(AgentOf(agents, d), d, l.made)
  }

  predicate SuccessesTrue(agents: map<string, Agent>, l: Ledger) {
    forall id :: id in l.succeeded ==>
        id in l.made && Done(AgentOf(agents, l.made[id].device).ota.device.disk, l.made[id])
  }

  ghost predicate FleetTrue(f: Fleet) {
    CloudTrue(f) && AgentsTrue(f.agents, f.ledger) && SuccessesTrue(f.agents, f.ledger)
  }

  lemma {:induction false} VouchedStays(a: Agent, device: string, made: map<string, Job>, more: map<string, Job>)
    requires AgentTrue(a, device, made) && forall id :: id in made ==> id in more && more[id] == made[id]
    ensures AgentTrue(a, device, more)
  {
    forall id | SucceededIn(a.file, id) ensures Vouched(a, device, id, more) { assert Vouched(a, device, id, made); }
  }

  lemma {:induction false} ServingKeepsAgentsTrue(f: Fleet, op: Op, saved: bool)
    requires FleetTrue(f) && CanServe(f, op)
    ensures FleetTrue(Result(f, Serve(Do(op, saved))))
  {
    var l, m := f.ledger, Recorded(f.ledger, op, Apply(f.cloud.mem, op));
    ServingKeepsCloudTrue(f, op, saved);
    RecordingExtends(l, op, f.cloud.mem);
    forall d ensures AgentTrue(AgentOf(f.agents, d), d, m.made) {
      VouchedStays(AgentOf(f.agents, d), d, l.made, m.made);
    }
  }

  lemma {:induction false} OthersStayTrue(agents: map<string, Agent>, device: string, b: Agent, l: Ledger, m: Ledger)
    requires AgentsTrue(agents, l) && AgentTrue(b, device, l.made) && m.made == l.made
    ensures AgentsTrue(agents[device := b], m)
  {
    var after := agents[device := b];
    forall d ensures AgentTrue(AgentOf(after, d), d, m.made) {
      assert AgentTrue(AgentOf(agents, d), d, l.made);
    }
  }

  lemma {:induction false} SuccessesStayTrue(agents: map<string, Agent>, device: string, b: Agent, l: Ledger,
                                             more: set<string>)
    requires SuccessesTrue(agents, l) && Genuine(AgentOf(agents, device).ota)
    requires var a := AgentOf(agents, device); Follows(a.ota, b.ota) || a.ota == b.ota
    requires forall id :: id in more ==>
             id in l.made && l.made[id].device == device && Done(b.ota.device.disk, l.made[id])
    ensures SuccessesTrue(agents[device := b], l.(succeeded := l.succeeded + more))
  {
    var a, after, m := AgentOf(agents, device), agents[device := b], l.(succeeded := l.succeeded + more);
    forall id | id in m.succeeded ensures id in l.made
        && Done(AgentOf(after, l.made[id].device).ota.device.disk, l.made[id]) {
      if id in l.succeeded && l.made[id].device == device { FollowsKeeps(a.ota, b.ota, l.made[id]); }
    }
  }

  /** One agent did something; the ledger may gain one success of a job of that device. */
  lemma {:induction false} AgentActs(f: Fleet, device: string, b: Agent, more: set<string>)
    requires FleetTrue(f) && AgentTrue(b, device, f.ledger.made)
    requires var a := AgentOf(f.agents, device); Follows(a.ota, b.ota) || a.ota == b.ota
    requires forall id :: id in more ==>
             id in f.ledger.made && f.ledger.made[id].device == device && Done(b.ota.device.disk, f.ledger.made[id])
    ensures FleetTrue(f.(agents := f.agents[device := b], ledger := f.ledger.(succeeded := f.ledger.succeeded + more)))
  {
    var l, m := f.ledger, f.ledger.(succeeded := f.ledger.succeeded + more);
    DbStaysTrue(f.cloud.mem, l, m);
    DbStaysTrue(f.cloud.file, l, m);
    OthersStayTrue(f.agents, device, b, l, m);
    assert AgentTrue(AgentOf(f.agents, device), device, l.made);
    SuccessesStayTrue(f.agents, device, b, l, more);
  }

  lemma {:induction false} ActKeepsFleetTrue(f: Fleet, act: Act)
    requires FleetTrue(f) && CanAct(f, act)
    ensures FleetTrue(Result(f, act))
  {
    match act {
      case Serve(Restart) => RestartKeepsCloudTrue(f);
      case Serve(Do(op, saved)) => ServingKeepsAgentsTrue(f, op, saved);
      case Work(j, after, state) =>
        WorkIsHonest(AgentOf(f.agents, j.device), after, j, state, f.ledger);
        AgentActs(f, j.device, after, if state == Succeeded then {j.id} else {});
      case Interrupted(device, id, after) =>
        var j := Job(id, "", device, "", "", None, 0, 0, Queued, "", "");
        EntriesStayTrue(AgentOf(f.agents, device), after, device, j, None, f.ledger.made);
        AgentActs(f, device, after, {});
        assert f.ledger.succeeded + {} == f.ledger.succeeded;
    }
  }

  lemma {:induction false} NewFleetTrue()
    ensures FleetTrue(NEW_FLEET)
  {}

  lemma {:induction false} EveryFleetIsTrue(acts: seq<Act>)
    requires Reached(acts).Some?
    ensures FleetTrue(Reached(acts).value)
    decreases |acts|
  {
    if acts == [] {
      NewFleetTrue();
    } else {
      EveryFleetIsTrue(acts[..|acts| - 1]);
      ActKeepsFleetTrue(Reached(acts[..|acts| - 1]).value, acts[|acts| - 1]);
    }
  }

  // ---------- end to end ----------

  /** The device really went through the update: its file says so, and so does everything it ever did. */
  ghost predicate Updated(a: Agent, r: OtaTypes.Request) {
    && OtaTerminal.CompletedFor(a.ota.device.disk, r)
    && OtaSafety.CommittedHealthy(a.ota.log, r)
    && exists version :: OtaSafety.InstalledOver(a.ota.log, r, version)
  }

  lemma {:induction false} CompletedIsUpdated(a: Agent, r: OtaTypes.Request)
    requires Genuine(a.ota) && OtaTerminal.CompletedFor(a.ota.device.disk, r)
    ensures Updated(a, r)
  {
    var tx := a.ota.device.disk[OtaTypes.Key(r)];
    OtaSafety.FilesTellThePast("", a.ota.log, OtaTypes.Key(r));
    OtaSafety.SameWireInstalled(a.ota.log, tx.request, r, tx.previousVersion);
    var j: nat, q: OtaTypes.Request :| OtaTypes.SameWire(q, tx.request) && OtaSafety.ConfirmedAt(a.ota.log, j, q);
    assert OtaTypes.SameWire(q, r) && OtaSafety.ConfirmedAt(a.ota.log, j, q);
  }

  /** Whenever the server says a campaign is completed, every device the campaign still targets has
      installed exactly the campaign's release, after all checks, and committed it after it was healthy
      and reported that release. This holds in every run: messages late, repeated or lost, handlers
      interleaved with anything, server restarts from old files, agents crashing and devices rebooting. */
  lemma {:induction false} CompletedCampaignIsInstalled(acts: seq<Act>, k: string, device: string)
    requires Reached(acts).Some?
    requires var db := Reached(acts).value.cloud.mem;
             k in db.campaigns && db.campaigns[k].state == CampaignCompleted && device in db.campaigns[k].targets
    ensures var f := Reached(acts).value; Updated(AgentOf(f.agents, device), Asked(f.cloud.mem.campaigns[k]))
  {
    EveryFleetIsTrue(acts);
    var f := Reached(acts).value;
    var l, c, a := f.ledger, f.cloud.mem.campaigns[k], AgentOf(f.agents, device);
    assert Confirmed(l, k, device);
    var id :| ConfirmedBy(l, k, device, id);
    assert ByCampaign(l.made[id], l.launched) && Done(a.ota.device.disk, l.made[id]);
    assert AgentTrue(a, device, l.made);
    CompletedIsUpdated(a, Asked(c));
  }

  /** The same for each single job that the server says has succeeded. */
  lemma {:induction false} SucceededJobIsInstalled(acts: seq<Act>, id: string)
    requires Reached(acts).Some?
    requires var db := Reached(acts).value.cloud.mem;
             id in db.jobs && db.jobs[id].state == Succeeded && db.jobs[id].kind == "ota_update"
    ensures var f := Reached(acts).value;
            var j := f.cloud.mem.jobs[id];
            j.payload.Some? && Updated(AgentOf(f.agents, j.device), j.payload.value)
  {
    EveryFleetIsTrue(acts);
    var f := Reached(acts).value;
    var j := f.ledger.made[id];
    var a := AgentOf(f.agents, j.device);
    assert Done(a.ota.device.disk, j) && AgentTrue(a, j.device, f.ledger.made);
    CompletedIsUpdated(a, j.payload.value);
  }

  /** However the handlers interleave, a campaign never holds two jobs for one device. */
  lemma {:induction false} OneJobPerDevice(acts: seq<Act>, a: string, b: string)
    requires Reached(acts).Some?
    requires var jobs := Reached(acts).value.cloud.mem.jobs;
             a in jobs && b in jobs && jobs[a].deployment == jobs[b].deployment != ""
                 && jobs[a].device == jobs[b].device
    ensures a == b
  {
    EveryFleetIsTrue(acts);
    var f := Reached(acts).value;
    assert ByCampaign(f.ledger.made[a], f.ledger.launched) && ByCampaign(f.ledger.made[b], f.ledger.launched);
    assert SameKey(f.cloud.mem.jobs[a], f.cloud.mem.jobs[b].tenant, f.cloud.mem.jobs[b].key);
  }
}
