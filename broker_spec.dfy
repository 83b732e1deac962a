/**
 * The broker as a state machine over values: the job store, the backlog and
 * the result map, and one transition function per endpoint. Each function
 * returns the new state together with the reply the endpoint sends.
 */
module BrokerSpec {
  import opened Wrappers
  import opened Messages
  import opened Gates
  import opened Dispatch

  /** Job store (id to job), backlog of unclaimed ids, and result map (id to last ack body). */
  datatype State = State(jobs: map<string, Job>, pending: seq<string>, results: map<string, AckReq>)

  /** The state after an endpoint ran, and the endpoint's reply. */
  datatype Step<R> = Step(state: State, reply: R)

  /** The empty broker a fresh process starts with. */
  const Initial: State := State(map[], [], map[])

  /**
   * The broker invariant: every backlog entry refers to a stored job, no id is
   * queued twice, and every job is stored under its own id.
   */
  predicate Inv(s: State) {
    && PendingKnown(s.jobs, s.pending)
    && Distinct(s.pending)
    && (forall id :: id in s.jobs ==> s.jobs[id].id == id)
  }

  /** Machine `m`'s queue in the backlog, oldest first. */
  function MachineQueue(s: State, m: string): seq<string>
    requires PendingKnown(s.jobs, s.pending)
  {
    ForMachine(s.jobs, s.pending, m)
  }

  /** The job record enqueue builds from a request, a fresh id and a timestamp. */
  function NewJob(req: EnqueueReq, jid: string, ts: int): (job: Job)
    ensures job.id == jid && job.ts == ts
    ensures job.machineId == req.machineId && job.command == req.command && job.params == req.params
  {
    Job(jid, req.machineId, req.command, req.params, ts)
  }

  /**
   * Enqueue: the admin gate, then the allow-list gate, then store the job
   * under `jid`, append `jid` to the backlog and sign the job.
   */
  function Enqueue(c: Config, s: State, key: Option<string>, req: EnqueueReq, jid: string, ts: int)
    : (out: Step<Result<Enqueued, Error>>)
    ensures out.reply.Failure? <==> RequireAdmin(c, key).Fail? || !MachineAllowed(c, req.machineId)
    ensures out.reply.Failure? ==> out.state == s
    ensures RequireAdmin(c, key).Fail? ==> out.reply == Failure(BadAdminKey)
    ensures RequireAdmin(c, key).Pass? && !MachineAllowed(c, req.machineId)
            ==> out.reply == Failure(MachineNotAllowed)
    ensures out.reply.Success? ==>
              && out.reply.value.jobId == jid
              && jid in out.state.jobs
              && out.state.jobs[jid] == Job(jid, req.machineId, req.command, req.params, ts)
              && (forall id :: id in s.jobs && id != jid ==> id in out.state.jobs && out.state.jobs[id] == s.jobs[id])
              && out.state.jobs.Keys == s.jobs.Keys + {jid}
              && out.state.pending == s.pending + [jid]
              && |out.state.pending| == |s.pending| + 1
              && out.state.results == s.results
              && out.reply.value.sig == c.sign(c.serializeJob(out.state.jobs[jid]))
  {
    match RequireAdmin(c, key)
    case Fail(e) => Step(s, Failure(e))
    case Pass =>
      if !MachineAllowed(c, req.machineId) then Step(s, Failure(MachineNotAllowed))
      else
        var job := NewJob(req, jid, ts);
        var s' := s.(jobs := s.jobs[jid := job], pending := s.pending + [jid]);
        Step(s', Success(Enqueued(jid, c.sign(c.serializeJob(job)))))
  }

  /**
   * Poll: verify the request signature, then the allow-list gate (a rejected
   * machine is told "no job"), then claim the first backlog entry for the
   * caller's machine.
   */
  function Poll(c: Config, s: State, req: PollReq, sig: string): (out: Step<Result<PollReply, Error>>)
    requires PendingKnown(s.jobs, s.pending)
    ensures out.reply.Failure? <==> sig != c.sign(c.serializePoll(req))
    ensures out.reply.Failure? ==> out.reply.error == BadSignature && out.state == s
    ensures out.state.jobs == s.jobs && out.state.results == s.results
    ensures PendingKnown(out.state.jobs, out.state.pending)
    ensures out.reply.Success? && out.reply.value.NoJob? ==> out.state == s
    ensures out.reply.Success? && !MachineAllowed(c, req.machineId) ==> out.reply.value.NoJob? && out.state == s
    ensures out.reply == Success(NoJob) && MachineAllowed(c, req.machineId)
            ==> forall k :: 0 <= k < |s.pending| ==> s.jobs[s.pending[k]].machineId != req.machineId
    ensures out.reply.Success? && out.reply.value.Claimed? ==>
              && MachineAllowed(c, req.machineId)
              && FirstFor(s.jobs, s.pending, req.machineId).Some?
              && var i := FirstFor(s.jobs, s.pending, req.machineId).value;
              && out.reply.value.job == s.jobs[s.pending[i]]
              && out.reply.value.job.machineId == req.machineId
              && (forall k :: 0 <= k < i ==> s.jobs[s.pending[k]].machineId != req.machineId)
              && out.state.pending == RemoveAt(s.pending, i)
              && |out.state.pending| == |s.pending| - 1
              && out.reply.value.sig == c.sign(c.serializeJob(out.reply.value.job))
  {
    match Verify(c, sig, c.serializePoll(req))
    case Fail(e) => Step(s, Failure(e))
    case Pass =>
      if !MachineAllowed(c, req.machineId) then Step(s, Success(NoJob))
      else
        match FirstFor(s.jobs, s.pending, req.machineId)
        case None => Step(s, Success(NoJob))
        case Some(i) =>
          RemoveAtKnown(s.jobs, s.pending, i);
          var job := s.jobs[s.pending[i]];
          Step(s.(pending := RemoveAt(s.pending, i)), Success(Claimed(job, c.sign(c.serializeJob(job)))))
  }

  /**
   * Ack: verify the request signature, then record the ack body as the result
   * for its job id, whether or not that id was ever enqueued.
   */
  function Ack(c: Config, s: State, req: AckReq, sig: string): (out: Step<Outcome<Error>>)
    ensures out.reply.Fail? <==> sig != c.sign(c.serializeAck(req))
    ensures out.reply.Fail? ==> out.reply.error == BadSignature && out.state == s
    ensures out.state.jobs == s.jobs && out.state.pending == s.pending
    ensures out.reply.Pass? ==>
              && out.state.results.Keys == s.results.Keys + {req.jobId}
              && out.state.results[req.jobId] == req
              && forall id :: id in s.results && id != req.jobId ==> out.state.results[id] == s.results[id]
  {
    match Verify(c, sig, c.serializeAck(req))
    case Fail(e) => Step(s, Fail(e))
    case Pass => Step(s.(results := s.results[req.jobId := req]), Pass)
  }

  /**
   * Result lookup: the admin gate, then the stored ack body for the id or the
   * not-found marker.
   */
  function FetchResult(c: Config, s: State, key: Option<string>, jobId: string): (r: Result<Lookup, Error>)
    ensures r.Failure? <==> RequireAdmin(c, key).Fail?
    ensures r.Failure? ==> r.error == BadAdminKey
    ensures r.Success? ==> (r.value == NotFound <==> jobId !in s.results)
    ensures r.Success? && jobId in s.results ==> r.value == Found(s.results[jobId])
  {
    match RequireAdmin(c, key)
    case Fail(e) => Failure(e)
    case Pass => if jobId in s.results then Success(Found(s.results[jobId])) else Success(NotFound)
  }

  /** Health: the backlog depth. */
  function Health(s: State): (n: nat)
    ensures n == |s.pending|
  {
    |s.pending|
  }
}
