/** The agent's job registry: jobs delivered at least once, and run at most once to success. */
module AgentJobs {
  import opened Text
  import OtaTypes
  import OtaMachine
  import OtaTerminal
  import OtaEngine
  import opened CloudTypes

  /** `result` of a job; a time of 0 is Go's zero time. */
  datatype JobResult = JobResult(jobId: string, state: JobState, stdout: string, stderr: string, startedAt: int,
      finishedAt: int)

  datatype Saved = Saved(state: JobState, result: JobResult)

  /** The file of job states. It is written in place, so a failure can leave it broken. */
  datatype StateFile = NoFile | Readable(states: map<string, Saved>) | Broken

  const MAX_OUTPUT := 64 * 1024

  function Shortened(text: string): string {
    if |text| > MAX_OUTPUT then text[..MAX_OUTPUT] else text
  }

  /** Output is cut to its first 65536 characters. */
  lemma {:induction false} ShortenedMeans(text: string)
    ensures Shortened(text) <= text && |Shortened(text)| == if |text| > 65536 then 65536 else |text|
  {}

  function Rejected(j: Job, now: int, cause: string): JobResult {
    JobResult(j.id, Failed, "", cause, now, now)
  }

  /** Identity fields, expiry (0 is no expiry) and payload digest. */
  predicate ValidJob(j: Job, digestMatches: bool, now: int) {
    && j.id != "" && j.tenant != "" && j.device != "" && j.kind != ""
    && (j.expiresAt == 0 || now <= j.expiresAt)
    && digestMatches
  }

  predicate SucceededIn(f: StateFile, id: string) {
    f.Readable? && id in f.states && f.states[id].state == Succeeded
  }

  /** The entries of `g` are those of `f`, except for job `id`, which may say it runs or how it ended. */
  predicate EntriesFrom(f: StateFile, g: StateFile, id: string, outcome: Option<JobState>) {
    g.Readable? ==>
      forall k :: k in g.states ==>
        || (f.Readable? && k in f.states && g.states[k] == f.states[k])
        || (k == id && (g.states[k].state == Running
           || (outcome.Some? && g.states[k].state == g.states[k].result.state == outcome.value)))
  }

  lemma {:induction false} EntriesChain(f: StateFile, g: StateFile, h: StateFile, id: string, outcome: Option<JobState>)
    requires EntriesFrom(f, g, id, Some(Running)) && EntriesFrom(g, h, id, outcome)
    ensures EntriesFrom(f, h, id, outcome)
  {}

  function StateOfReply(reply: OtaTypes.Reply): JobState {
    match reply.state
    case Succeeded => Succeeded
    case RebootPending => InReboot
    case Failed => Failed
  }

  /** A job is valid when it names itself, its tenant, its device and its type, its deadline has not passed, and the
      digest of its payload is right; a deadline of 0 is none. */
  lemma {:induction false} ValidJobMeans(j: Job, digestMatches: bool, now: int)
    ensures ValidJob(j, digestMatches, now) <==>
              && j.id != "" && j.tenant != "" && j.device != "" && j.kind != "" && digestMatches
              && !(j.expiresAt != 0 && now > j.expiresAt)
  {}

  /** Everything an OTA engine ever did, and the device as that left it. */
  datatype History = History(log: seq<OtaTypes.Event>, device: OtaMachine.State)

  datatype Agent = Agent(ota: History, file: StateFile)

  /** The engine of `a` served `r` by the events `more`, which left `b`. */
  ghost predicate Served(a: History, b: History, r: OtaTypes.Request, reply: OtaTypes.Reply,
                         more: seq<OtaTypes.Event>) {
    && OtaTerminal.IsDelivery(more, r, reply)
    && b.log == a.log + more
    && OtaMachine.Run(a.device, more) == Some(b.device)
    && b.device.call.Idle?
  }

  ghost predicate HandlerRan(a: History, b: History, j: Job, state: JobState) {
    if j.kind == "ota_update" && j.payload.Some? then
      exists reply, more :: Served(a, b, j.payload.value, reply, more) && state == StateOfReply(reply)
    else b == a && (j.kind == "ota_update" ==> state == Failed)
  }

  /** The result of an OTA job: it has succeeded when the engine says so, it reboots while a reboot is pending, and it
      has failed otherwise, or when its payload could not be read. Nothing else reaches the engine. */
  lemma {:induction false} HandlerMeans(a: History, b: History, j: Job, state: JobState)
    requires HandlerRan(a, b, j, state)
    ensures j.kind == "ota_update" && j.payload.Some? ==>
              exists reply, more ::
                && Served(a, b, j.payload.value, reply, more)
                && (state == Succeeded <==> reply.state == OtaTypes.Succeeded)
                && (state == InReboot <==> reply.state == OtaTypes.RebootPending)
                && (state == JobState.Failed <==> reply.state == OtaTypes.Failed)
    ensures j.kind == "ota_update" && j.payload == None ==> state == JobState.Failed && b == a
    ensures j.kind != "ota_update" ==> b == a
  {
    if j.kind == "ota_update" && j.payload.Some? {
      var reply, more :| Served(a, b, j.payload.value, reply, more) && state == StateOfReply(reply);
    }
  }

  /** What executing a delivered job may do, when the agent lives to report the result. */
  ghost predicate Executed(a: Agent, b: Agent, j: Job, state: JobState) {
    || (b == a && state == Failed)
    || (b == a && SucceededIn(a.file, j.id) && state == a.file.states[j.id].result.state)
    || (HandlerRan(a.ota, b.ota, j, state) && EntriesFrom(a.file, b.file, j.id, Some(state)))
  }

  class Registry {
    const engine: OtaEngine.Engine
    const otaEnabled: bool
    var file: StateFile

    ghost function Engine(): History
      reads engine.device
    {
      History(engine.device.log, engine.device.state)
    }

    ghost function Snapshot(): Agent
      reads this, engine.device
    {
      Agent(Engine(), file)
    }

    constructor (engine: OtaEngine.Engine, otaEnabled: bool, file: StateFile)
      ensures this.engine == engine && this.otaEnabled == otaEnabled && this.file == file
    {
      this.engine, this.otaEnabled, this.file := engine, otaEnabled, file;
    }

    ghost predicate Valid()
      reads this, engine, engine.device
    {
      engine.device.Valid() && engine.device.state.call.Idle?
    }

    /** `LoadJobState`; with `faulty` storage the read may fail. */
    method Load(id: string, faulty: bool) returns (saved: Option<Saved>)
      ensures saved.Some? ==> file.Readable? && id in file.states && saved.value == file.states[id]
      ensures !faulty && file.Readable? && id in file.states ==> saved.Some?
    {
      var unreadable: bool := *;
      if (faulty && unreadable) || !file.Readable? || id !in file.states { return None; }
      saved := Some(file.states[id]);
    }

    /** `SaveJobState`: what cannot be read is dropped, and a failed write may break the file. */
    method Record(id: string, saved: Saved, faulty: bool)
      requires saved.state == Running || saved.state == saved.result.state
      modifies `file
      ensures EntriesFrom(old(file), file, id, Some(saved.state))
      ensures !faulty ==> file == Readable((if old(file).Readable? then old(file).states else map[])[id := saved])
    {
      var unreadable: bool := *;
      var written: bool := *;
      var broken: bool := *;
      var states := if file.Readable? && !(faulty && unreadable) then file.states else map[];
      if !faulty || written { file := Readable(states[id := saved]); }
      else if broken { file := Broken; }
    }

    /** Run the job unless it is known to have succeeded. */
    method Execute(j: Job, digestMatches: bool, supported: bool, payloadValid: bool, faulty: bool, now: int)
      returns (res: JobResult, ghost ran: bool)
      requires Valid()
      modifies this, engine, engine.device
      ensures Valid() && Executed(old(Snapshot()), Snapshot(), j, res.state)
      // a job that is not known to have succeeded runs exactly when it is valid and its handler takes it
      ensures ran ==> ValidJob(j, digestMatches, now)
      ensures ValidJob(j, digestMatches, now) && !SucceededIn(old(file), j.id) ==>
                (ran <==> supported && payloadValid && (j.kind == "ota_update" ==> otaEnabled))
      ensures !ran ==> Snapshot() == old(Snapshot()) && engine.device.log == old(engine.device.log)
      ensures !ran && !SucceededIn(old(file), j.id) ==> res.state == Failed && res.jobId == j.id
      ensures ran ==> HandlerRan(old(Engine()), Engine(), j, res.state)
      // a job known to have succeeded is not run again, and a valid replay gets the saved result
      ensures !faulty && SucceededIn(old(file), j.id) ==>
                !ran && (ValidJob(j, digestMatches, now) ==> res == old(file).states[j.id].result)
      // and what is known stays known
      ensures !faulty ==> forall id :: SucceededIn(old(file), id) ==>
              SucceededIn(file, id) && file.states[id] == old(file).states[id]
      ensures !faulty && ran && res.state == Succeeded ==> SucceededIn(file, j.id) && file.states[j.id].result == res
    {
      ran := false;
      if !ValidJob(j, digestMatches, now) { return Rejected(j, now, "validation"), false; }
      var saved := Load(j.id, faulty);
      if saved.Some? && saved.value.state == Succeeded { return saved.value.result, false; }
      if !supported { return Rejected(j, now, "unsupported_type"), false; }
      if !payloadValid || (j.kind == "ota_update" && !otaEnabled) { return Rejected(j, now, "validation"), false; }
      ran := true;
      res := RunToEnd(j, faulty, now);
    }

    /** What the handler left open in its result is filled in, and its output is cut. */
    static method Completed(given: JobResult, id: string, now: int) returns (res: JobResult)
      ensures res.state == given.state
      ensures res.jobId == (if given.jobId == "" then id else given.jobId)
      ensures res.startedAt == (if given.startedAt == 0 then now else given.startedAt)
      ensures res.finishedAt == (if given.finishedAt == 0 then now else given.finishedAt)
      ensures res.stdout == Shortened(given.stdout) && res.stderr == Shortened(given.stderr)
    {
      res := given;
      if res.jobId == "" { res := res.(jobId := id); }
      if res.startedAt == 0 { res := res.(startedAt := now); }
      if res.finishedAt == 0 { res := res.(finishedAt := now); }
      res := res.(stdout := Shortened(res.stdout), stderr := Shortened(res.stderr));
    }

    /** Run the handler between the two records of its state, and complete its result. */
    method RunToEnd(j: Job, faulty: bool, now: int) returns (res: JobResult)
      requires Valid()
      modifies this, engine, engine.device
      ensures Valid() && HandlerRan(old(Engine()), Engine(), j, res.state)
      ensures EntriesFrom(old(file), file, j.id, Some(res.state))
      ensures !faulty ==>
                var states := if old(file).Readable? then old(file).states else map[];
                file == Readable(states[j.id := Saved(res.state, res)])
    {
      Record(j.id, Saved(Running, JobResult("", Unset, "", "", 0, 0)), faulty);
      ghost var running := file;
      res := Handle(j);
      res := Completed(res, j.id, now);
      Record(j.id, Saved(res.state, res), faulty);
      EntriesChain(old(file), running, file, j.id, Some(res.state));
    }

    /** The handler of the job's type; only the OTA handler touches what is modelled here. */
    method Handle(j: Job) returns (res: JobResult)
      requires Valid()
      modifies engine, engine.device
      ensures Valid() && file == old(file) && HandlerRan(old(Engine()), Engine(), j, res.state)
    {
      if j.kind == "ota_update" {
        res := HandleOta(j);
      } else {
        res := *;
      }
    }

    method HandleOta(j: Job) returns (res: JobResult)
      requires Valid() && j.kind == "ota_update"
      modifies engine, engine.device
      ensures Valid() && file == old(file) && HandlerRan(old(Engine()), Engine(), j, res.state)
    {
      if j.payload == None { return JobResult(j.id, Failed, "", "validation", 0, 0); }
      ghost var before := Engine();
      var reply := engine.Execute(j.payload.value);
      assert Served(before, Engine(), j.payload.value, reply, engine.device.log[|before.log|..]);
      res := JobResult(j.id,
          if reply.state.Succeeded? then Succeeded else if reply.state.RebootPending? then InReboot else Failed,
          "", "", 0, 0);
    }
  }
}
