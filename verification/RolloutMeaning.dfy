/** What the campaign handlers queue, and for whom, in terms of the records. */
module RolloutMeaning {
  import opened Text
  import opened CloudTypes
  import opened CloudIntegrity
  import opened Rollout

  /** The pilot group is the first targets, as many as the rounded-up share of them: at least one. */
  lemma {:induction false} PilotMeans(c: Campaign)
    requires c.targets != [] && 1 <= c.canaryPercent <= 100
    ensures var n, all, percent := |Pilot(c)|, |c.targets|, c.canaryPercent;
            && 1 <= n <= all && Pilot(c) == c.targets[..n]
            && 100 * n >= all * percent > 100 * (n - 1)
  {
    PilotSizeInRange(|c.targets|, c.canaryPercent);
  }

  /** A job that a handler queued for the update of a device. */
  predicate IsUpdateJob(j: Job, c: Campaign, now: int) {
    && j.tenant == c.tenant && j.deployment == c.id && j.kind == "ota_update"
    && j.payload == Some(c.release.(updateId := c.id))
    && j.expiresAt == now + 86_400_000_000_000 && j.attempt == 0 && j.state == Queued
    && j.key == c.id + ":" + j.device
  }

  /** Some job of the tenant has the key of the campaign and the device. */
  predicate HasKey(jobs: map<string, Job>, c: Campaign, device: string) {
    exists id :: id in jobs && jobs[id].tenant == c.tenant && jobs[id].key == c.id + ":" + device
  }

  predicate QueuedFor(before: map<string, Job>, after: map<string, Job>, c: Campaign, targets: seq<string>, now: int) {
    && (forall id :: id in after && id !in before ==> IsUpdateJob(after[id], c, now) && after[id].device in targets)
    && (forall i :: 0 <= i < |targets| ==> HasKey(after, c, targets[i]))
    && (forall id :: id in before ==> id in after && after[id] == before[id])
  }

  lemma {:induction false} OneIsQueued(db: Db, issued: set<string>, c: Campaign, device: string, id: string, now: int)
    requires Sound(db, issued) && id !in issued && OwnDevice(db.devices, c.tenant, device)
    ensures var post := Apply(db, CreateJob(c.tenant, OtaJob(c, device, now), id));
            QueuedFor(db.jobs, post.jobs, c, [device], now) && post.devices == db.devices
  {
    var post := Apply(db, CreateJob(c.tenant, OtaJob(c, device, now), id));
    var key := c.id + ":" + device;
    assert JobKey(c, device) == key != "";
    if KeyTaken(db.jobs, c.tenant, key) {
      var k :| k in db.jobs && SameKey(db.jobs[k], c.tenant, key);
      assert post.jobs[k].key == key;
    } else {
      assert post.jobs[id].key == key;
    }
  }

  lemma {:induction false} QueuedOneMore(a: map<string, Job>, b: map<string, Job>, d: map<string, Job>, c: Campaign,
                                         front: seq<string>, device: string, now: int)
    requires QueuedFor(a, b, c, front, now) && QueuedFor(b, d, c, [device], now)
    ensures QueuedFor(a, d, c, front + [device], now)
  {
    var targets := front + [device];
    forall i | 0 <= i < |targets| ensures HasKey(d, c, targets[i]) {
      if i < |front| {
        assert HasKey(b, c, front[i]);
        var id :| id in b && b[id].tenant == c.tenant && b[id].key == c.id + ":" + front[i];
        assert d[id].key == c.id + ":" + targets[i];
      } else {
        assert HasKey(d, c, [device][0]);
      }
    }
    assert forall x :: x in [device] ==> x == device;
  }

  lemma {:induction false} QueuedAndOne(db: Db, q: Db, issued: set<string>, c: Campaign, front: seq<string>,
                                        device: string, id: string, now: int)
    requires QueuedFor(db.jobs, q.jobs, c, front, now) && Sound(q, issued) && id !in issued
    requires OwnDevice(q.devices, c.tenant, device)
    ensures var post := Apply(q, CreateJob(c.tenant, OtaJob(c, device, now), id));
            QueuedFor(db.jobs, post.jobs, c, front + [device], now) && post.devices == q.devices
  {
    OneIsQueued(q, issued, c, device, id, now);
    QueuedOneMore(db.jobs, q.jobs, Apply(q, CreateJob(c.tenant, OtaJob(c, device, now), id)).jobs, c, front, device,
        now);
  }

  lemma {:induction false} QueueIsSound(db: Db, issued: set<string>, c: Campaign, targets: seq<string>,
                                        ids: seq<string>,
                                        now: int)
    requires |ids| == |targets| && Sound(db, issued) && FreshIds(ids, issued)
    ensures Sound(QueueJobs(db, c, targets, ids, now), issued + IdsOf(ids))
  {
    QueueAddsOnlyItsJobs(db, issued, c, targets, ids, now);
  }

  lemma {:induction false} QueueLast(db: Db, c: Campaign, targets: seq<string>, ids: seq<string>, now: int, n: nat)
    requires |ids| == |targets| == n + 1
    ensures QueueJobs(db, c, targets, ids, now)
            == Apply(QueueJobs(db, c, targets[..n], ids[..n], now),
                CreateJob(c.tenant, OtaJob(c, targets[n], now), ids[n]))
  {}

  lemma {:induction false} NoneIsQueued(jobs: map<string, Job>, c: Campaign, now: int)
    ensures QueuedFor(jobs, jobs, c, [], now)
  {}

  /** When queueing goes through for devices of the tenant, each of them has a job with the key of the campaign and
      the device; every job that is new asks for the campaign's release on its device, for a day, and is queued. */
  lemma {:induction false} QueueMeans(db: Db, issued: set<string>, c: Campaign, targets: seq<string>, ids: seq<string>,
                                      now: int)
    requires |ids| == |targets| && Sound(db, issued) && FreshIds(ids, issued) && OwnTargets(db, c.tenant, targets)
    ensures var q := QueueJobs(db, c, targets, ids, now);
            QueuedFor(db.jobs, q.jobs, c, targets, now) && q.devices == db.devices
    decreases |targets|
  {
    if targets == [] {
      NoneIsQueued(db.jobs, c, now);
    } else {
      var n := |targets| - 1;
      OneMoreId(ids, issued, n);
      QueueMeans(db, issued, c, targets[..n], ids[..n], now);
      QueueMoreMeans(db, issued, c, targets, ids, now, n);
    }
  }

  lemma {:induction false} QueueMoreMeans(db: Db, issued: set<string>, c: Campaign, targets: seq<string>,
                                          ids: seq<string>, now: int, n: nat)
    requires |ids| == |targets| == n + 1 && Sound(db, issued) && FreshIds(ids[..n], issued)
    requires ids[n] !in issued + IdsOf(ids[..n]) && OwnDevice(db.devices, c.tenant, targets[n])
    requires var q := QueueJobs(db, c, targets[..n], ids[..n], now);
             QueuedFor(db.jobs, q.jobs, c, targets[..n], now) && q.devices == db.devices
    ensures var q := QueueJobs(db, c, targets, ids, now);
            QueuedFor(db.jobs, q.jobs, c, targets, now) && q.devices == db.devices
  {
    QueueIsSound(db, issued, c, targets[..n], ids[..n], now);
    QueueLast(db, c, targets, ids, now, n);
    var q := QueueJobs(db, c, targets[..n], ids[..n], now);
    QueuedAndOne(db, q, issued + IdsOf(ids[..n]), c, targets[..n], targets[n], ids[n], now);
    assert targets == targets[..n] + [targets[n]];
  }

  /** A created campaign says at once that all is queued exactly when its pilot is everyone: when a hundredth part of
      targets times percent, rounded up, is all of them. Otherwise its pilot is queued. */
  lemma {:induction false} CreationStateMeans(db: Db, tenant: string, c: Campaign, id: string, ids: seq<string>,
                                              now: int)
    requires ValidRollout(c) && |ids| == |Pilot(c)|
    ensures var made := AfterCreate(db, tenant, c, id, ids, now).campaigns;
            && id in made && made[id] == c.(id := id, tenant := tenant, state := made[id].state)
            && (made[id].state ==
                  if |c.targets| * c.canaryPercent > 100 * (|c.targets| - 1) then AllQueued else CanaryQueued)
  {
    PilotMeans(c);
  }

  /** The job is one of the campaign's, for this device. */
  predicate IsJobFor(j: Job, c: Campaign, device: string) {
    j.tenant == c.tenant && j.deployment == c.id && j.device == device
  }

  /** Those who are left for a promotion are the targets without a job of the campaign. */
  lemma {:induction false} RemainingMeans(db: Db, c: Campaign, targets: seq<string>, device: string)
    ensures device in Remaining(db, c, targets) <==>
              device in targets && !exists id :: id in db.jobs && IsJobFor(db.jobs[id], c, device)
  {
    if targets != [] { RemainingMeans(db, c, targets[1..], device); }
    if HasJob(db, c, device) {
      var id :| id in db.jobs && Holds(c, db.jobs[id]) && db.jobs[id].device == device;
      assert IsJobFor(db.jobs[id], c, device);
    }
    if id :| id in db.jobs && IsJobFor(db.jobs[id], c, device) { assert Holds(c, db.jobs[id]); }
  }

  /** A promotion is for a campaign of the tenant that says its pilot is complete, with a target left; it says that
      all is queued afterwards. */
  lemma {:induction false} PromotionMeans(db: Db, issued: set<string>, tenant: string, id: string, ids: seq<string>,
                                          now: int)
    requires Promotable(db, tenant, id) && Sound(db, issued)
    requires |ids| == |Remaining(db, db.campaigns[id], db.campaigns[id].targets)| && FreshIds(ids, issued)
    ensures db.campaigns[id].tenant == tenant && db.campaigns[id].state == CanaryComplete
    ensures var made := AfterPromote(db, tenant, id, ids, now).campaigns;
            id in made && made[id] == db.campaigns[id].(state := AllQueued)
  {}
}
