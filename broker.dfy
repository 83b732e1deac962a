/**
 * The broker service as the program runs it: one object that owns the job
 * store, the backlog and the result map and updates them in place. Each
 * endpoint is proved to take exactly the step the state machine in
 * BrokerSpec prescribes, and to keep the broker invariant.
 */
module BrokerService {
  import opened Wrappers
  import opened Messages
  import opened Gates
  import opened Dispatch
  import BrokerSpec
  import BrokerProperties

  class Broker {
    const cfg: Config
    var jobs: map<string, Job>
    var pending: seq<string>
    var results: map<string, AckReq>

    /** The broker's state as a value. */
    function Snapshot(): BrokerSpec.State
      reads this
    {
      BrokerSpec.State(jobs, pending, results)
    }

    ghost predicate Valid()
      reads this
    {
      BrokerSpec.Inv(Snapshot())
    }

    /** A broker starts with an empty store, backlog and result map. */
    constructor (config: Config)
      ensures Valid()
      ensures cfg == config
      ensures Snapshot() == BrokerSpec.Initial
    {
      cfg := config;
      jobs, pending, results := map[], [], map[];
    }

    /** Enqueue a job for a machine under the fresh id `jid`, stamped `ts`. */
    method Enqueue(key: Option<string>, req: EnqueueReq, jid: string, ts: int) returns (r: Result<Enqueued, Error>)
      requires Valid()
      requires jid !in jobs
      modifies this
      ensures Valid()
      ensures BrokerSpec.Step(Snapshot(), r) == BrokerSpec.Enqueue(cfg, old(Snapshot()), key, req, jid, ts)
    {
      ghost var s := Snapshot();
      BrokerProperties.EnqueuePreservesInv(cfg, s, key, req, jid, ts);
      var gate := RequireAdmin(cfg, key);
      if gate.Fail? {
        return Failure(gate.error);
      }
      if !MachineAllowed(cfg, req.machineId) {
        return Failure(MachineNotAllowed);
      }
      var job := Job(jid, req.machineId, req.command, req.params, ts);
      jobs := jobs[jid := job];
      pending := pending + [jid];
      r := Success(Enqueued(jid, cfg.sign(cfg.serializeJob(job))));
    }

    /**
     * Poll for work: scan the backlog front to back and claim the first job
     * that targets the caller's machine.
     */
    method Poll(req: PollReq, sig: string) returns (r: Result<PollReply, Error>)
      requires Valid()
      modifies this
      ensures Valid()
      ensures BrokerSpec.Step(Snapshot(), r) == BrokerSpec.Poll(cfg, old(Snapshot()), req, sig)
    {
      BrokerProperties.PollPreservesInv(cfg, Snapshot(), req, sig);
      if Verify(cfg, sig, cfg.serializePoll(req)).Fail? {
        return Failure(BadSignature);
      }
      if !MachineAllowed(cfg, req.machineId) {
        return Success(NoJob);
      }
      var i := 0;
      while i < |pending|
        invariant 0 <= i <= |pending|
        invariant Snapshot() == old(Snapshot())
        invariant forall k :: 0 <= k < i ==> jobs[pending[k]].machineId != req.machineId
      {
        var job := jobs[pending[i]];
        if job.machineId == req.machineId {
          pending := RemoveAt(pending, i);
          return Success(Claimed(job, cfg.sign(cfg.serializeJob(job))));
        }
        i := i + 1;
      }
      return Success(NoJob);
    }

    /** Record the result a machine reports for a job. */
    method Ack(req: AckReq, sig: string) returns (r: Outcome<Error>)
      requires Valid()
      modifies this
      ensures Valid()
      ensures BrokerSpec.Step(Snapshot(), r) == BrokerSpec.Ack(cfg, old(Snapshot()), req, sig)
    {
      if Verify(cfg, sig, cfg.serializeAck(req)).Fail? {
        return Fail(BadSignature);
      }
      results := results[req.jobId := req];
      r := Pass;
    }

    /** The result lookup endpoint, on the current state. */
    function FetchResult(key: Option<string>, jobId: string): (r: Result<Lookup, Error>)
      reads this
      ensures r.Failure? <==> RequireAdmin(cfg, key).Fail?
      ensures r.Success? ==> (r.value == NotFound <==> jobId !in results)
      ensures r.Success? && jobId in results ==> r.value == Found(results[jobId])
    {
      BrokerSpec.FetchResult(cfg, Snapshot(), key, jobId)
    }

    /** The health endpoint: the current backlog depth. */
    function Health(): (n: nat)
      reads this
      ensures n == |pending|
    {
      BrokerSpec.Health(Snapshot())
    }
  }
}
