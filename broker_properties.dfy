/**
 * Properties of the broker that relate several endpoints or several calls:
 * the invariant, FIFO order per machine, exclusive claims, last-write-wins
 * results, and the backlog depth that health reports.
 */
module BrokerProperties {
  import opened Wrappers
  import opened Messages
  import opened Gates
  import opened Dispatch
  import opened BrokerSpec

  lemma InitialInv()
    ensures Inv(Initial)
    ensures Health(Initial) == 0
  {
  }

  /**
   * Under the invariant, the depth that health reports is the number of
   * stored jobs still waiting for a claim.
   */
  lemma HealthCountsWaitingJobs(s: State)
    requires Inv(s)
    ensures Health(s) == |set id | id in s.jobs && id in s.pending|
  {
    assert (set id | id in s.jobs && id in s.pending) == (set id | id in s.pending);
    DistinctCard(s.pending);
  }

  /** Enqueue with a fresh id keeps the invariant. */
  lemma EnqueuePreservesInv(c: Config, s: State, key: Option<string>, req: EnqueueReq, jid: string, ts: int)
    requires Inv(s) && jid !in s.jobs
    ensures Inv(Enqueue(c, s, key, req, jid, ts).state)
  {
  }

  /** Poll keeps the invariant. */
  lemma PollPreservesInv(c: Config, s: State, req: PollReq, sig: string)
    requires Inv(s)
    ensures Inv(Poll(c, s, req, sig).state)
  {
  }

  /** Ack keeps the invariant. */
  lemma AckPreservesInv(c: Config, s: State, req: AckReq, sig: string)
    requires Inv(s)
    ensures Inv(Ack(c, s, req, sig).state)
  {
  }

  /**
   * Poll serves each machine in FIFO order: a claim hands out the head of the
   * caller's queue and pops it, every other machine's queue is untouched, and
   * an authorised, signed poll answers "no job" only when the caller's queue
   * is empty.
   */
  lemma PollIsFifoPerMachine(c: Config, s: State, req: PollReq, sig: string, n: string)
    requires Inv(s)
    ensures PendingKnown(Poll(c, s, req, sig).state.jobs, Poll(c, s, req, sig).state.pending)
    ensures var out := Poll(c, s, req, sig);
            out.reply.Success? && out.reply.value.Claimed? ==>
              && MachineQueue(s, req.machineId) != []
              && out.reply.value.job.id == MachineQueue(s, req.machineId)[0]
              && MachineQueue(out.state, n)
                 == if n == req.machineId then MachineQueue(s, n)[1..] else MachineQueue(s, n)
    ensures var out := Poll(c, s, req, sig);
            (out.reply.Success? && out.reply.value.NoJob? && MachineAllowed(c, req.machineId))
            ==> MachineQueue(s, req.machineId) == []
  {
    PollPreservesInv(c, s, req, sig);
    FirstForIsMachineHead(s.jobs, s.pending, req.machineId);
    var out := Poll(c, s, req, sig);
    if out.reply.Success? && out.reply.value.Claimed? {
      ClaimAdvancesMachineQueue(s.jobs, s.pending, req.machineId, n);
    }
  }

  /**
   * A successful enqueue appends the new id to the back of its machine's
   * queue and leaves every other machine's queue unchanged.
   */
  lemma EnqueueIsFifoPerMachine(c: Config, s: State, key: Option<string>, req: EnqueueReq, jid: string, ts: int, n: string)
    requires Inv(s) && jid !in s.jobs
    ensures Inv(Enqueue(c, s, key, req, jid, ts).state)
    ensures var out := Enqueue(c, s, key, req, jid, ts);
            out.reply.Success? ==>
              MachineQueue(out.state, n)
              == MachineQueue(s, n) + (if req.machineId == n then [jid] else [])
  {
    EnqueuePreservesInv(c, s, key, req, jid, ts);
    var out := Enqueue(c, s, key, req, jid, ts);
    if out.reply.Success? {
      AppendExtendsMachineQueue(s.jobs, s.pending, NewJob(req, jid, ts), n);
    }
  }

  /** A retired job is stored but no longer waiting in the backlog. */
  predicate Retired(s: State, id: string) {
    id in s.jobs && id !in s.pending
  }

  /**
   * A claim is exclusive: the claimed job is retired right after the claim,
   * with its record unchanged in the job store.
   */
  lemma ClaimIsExclusive(c: Config, s: State, req: PollReq, sig: string)
    requires Inv(s)
    ensures var out := Poll(c, s, req, sig);
            out.reply.Success? && out.reply.value.Claimed? ==>
              && Retired(out.state, out.reply.value.job.id)
              && out.state.jobs[out.reply.value.job.id] == out.reply.value.job
  {
  }

  /**
   * A retired job stays retired through every later enqueue (with a fresh
   * id), poll and ack, so no later poll can hand it out again.
   */
  lemma RetiredStaysRetired(c: Config, s: State, id: string,
                            key: Option<string>, ereq: EnqueueReq, jid: string, ts: int,
                            preq: PollReq, psig: string, areq: AckReq, asig: string)
    requires Inv(s) && Retired(s, id) && jid !in s.jobs
    ensures Retired(Enqueue(c, s, key, ereq, jid, ts).state, id)
    ensures Retired(Poll(c, s, preq, psig).state, id)
    ensures Retired(Ack(c, s, areq, asig).state, id)
    ensures var out := Poll(c, s, preq, psig);
            out.reply.Success? && out.reply.value.Claimed? ==> out.reply.value.job.id != id
  {
    var out := Poll(c, s, preq, psig);
    if out.reply.Success? && out.reply.value.Claimed? {
      var i := FirstFor(s.jobs, s.pending, preq.machineId).value;
      assert s.pending[i] in multiset(s.pending);
      assert id !in multiset(s.pending);
      assert id !in multiset(out.state.pending);
    }
  }

  /** An authorised lookup after a signed ack returns exactly the acked body. */
  lemma AckThenFetch(c: Config, s: State, req: AckReq, key: Option<string>)
    requires RequireAdmin(c, key).Pass?
    ensures var s' := Ack(c, s, req, c.sign(c.serializeAck(req))).state;
            FetchResult(c, s', key, req.jobId) == Success(Found(req))
  {
  }

  /** Results are last-write-wins: the second of two signed acks for an id is what a lookup returns. */
  lemma AckIsLastWriteWins(c: Config, s: State, first: AckReq, second: AckReq, key: Option<string>)
    requires first.jobId == second.jobId
    requires RequireAdmin(c, key).Pass?
    ensures var s1 := Ack(c, s, first, c.sign(c.serializeAck(first))).state;
            var s2 := Ack(c, s1, second, c.sign(c.serializeAck(second))).state;
            FetchResult(c, s2, key, first.jobId) == Success(Found(second))
  {
  }

  /** An ack for one id leaves the lookup of every other id as it was. */
  lemma AckLeavesOtherResults(c: Config, s: State, req: AckReq, sig: string, key: Option<string>, other: string)
    requires other != req.jobId
    ensures FetchResult(c, Ack(c, s, req, sig).state, key, other) == FetchResult(c, s, key, other)
  {
  }

  /** Until an id is acked, an authorised lookup gives the not-found marker. */
  lemma FetchBeforeAckIsNotFound(c: Config, s: State, key: Option<string>, jobId: string)
    requires jobId !in s.results && RequireAdmin(c, key).Pass?
    ensures FetchResult(c, s, key, jobId) == Success(NotFound)
  {
  }

  /** The backlog depth that health reports grows by one per enqueue and drops by one per claim. */
  lemma HealthTracksBacklog(c: Config, s: State, key: Option<string>, ereq: EnqueueReq, jid: string, ts: int,
                            preq: PollReq, psig: string, areq: AckReq, asig: string)
    requires PendingKnown(s.jobs, s.pending)
    ensures var e := Enqueue(c, s, key, ereq, jid, ts);
            Health(e.state) == if e.reply.Success? then Health(s) + 1 else Health(s)
    ensures var p := Poll(c, s, preq, psig);
            Health(p.state) == if p.reply.Success? && p.reply.value.Claimed? then Health(s) - 1 else Health(s)
    ensures Health(Ack(c, s, areq, asig).state) == Health(s)
  {
  }

  /** The signature a poll returns for a job is the one enqueue returned for it. */
  lemma EnqueueThenPoll(c: Config, s: State, key: Option<string>, req: EnqueueReq, jid: string, ts: int, preq: PollReq)
    requires Inv(s) && jid !in s.jobs
    requires RequireAdmin(c, key).Pass? && MachineAllowed(c, req.machineId)
    requires MachineQueue(s, req.machineId) == []
    requires preq.machineId == req.machineId
    ensures var e := Enqueue(c, s, key, req, jid, ts);
            var p1 := Poll(c, e.state, preq, c.sign(c.serializePoll(preq)));
            var p2 := Poll(c, p1.state, preq, c.sign(c.serializePoll(preq)));
            && e.reply.Success? && Inv(e.state)
            && p1.reply.Success? && p1.reply.value.Claimed?
            && p1.reply.value.job.id == jid
            && p1.reply.value.sig == e.reply.value.sig
            && p2.reply == Success(NoJob)
  {
    var m := req.machineId;
    var sig := c.sign(c.serializePoll(preq));
    var e := Enqueue(c, s, key, req, jid, ts);
    EnqueueIsFifoPerMachine(c, s, key, req, jid, ts, m);
    assert MachineQueue(e.state, m) == [jid];
    FirstForIsMachineHead(e.state.jobs, e.state.pending, m);
    var p1 := Poll(c, e.state, preq, sig);
    PollIsFifoPerMachine(c, e.state, preq, sig, m);
    PollPreservesInv(c, e.state, preq, sig);
    assert MachineQueue(p1.state, m) == [];
    FirstForIsMachineHead(p1.state.jobs, p1.state.pending, m);
  }

  /** Three successful enqueues for machines X, Y, X fill X's queue with [a, d] and Y's with [b]. */
  lemma EnqueueThree(c: Config, s0: State, key: Option<string>, t1: int, t2: int, t3: int,
                     ra: EnqueueReq, rb: EnqueueReq, rc: EnqueueReq, a: string, b: string, d: string)
    requires Inv(s0)
    requires RequireAdmin(c, key).Pass?
    requires ra.machineId == rc.machineId && ra.machineId != rb.machineId
    requires MachineAllowed(c, ra.machineId) && MachineAllowed(c, rb.machineId)
    requires MachineQueue(s0, ra.machineId) == [] && MachineQueue(s0, rb.machineId) == []
    requires a !in s0.jobs && b !in s0.jobs && d !in s0.jobs && a != b && b != d && a != d
    ensures var s1 := Enqueue(c, s0, key, ra, a, t1).state;
            var s2 := Enqueue(c, s1, key, rb, b, t2).state;
            var s3 := Enqueue(c, s2, key, rc, d, t3).state;
            && Inv(s3)
            && MachineQueue(s3, ra.machineId) == [a, d]
            && MachineQueue(s3, rb.machineId) == [b]
  {
    var x, y := ra.machineId, rb.machineId;
    var s1 := Enqueue(c, s0, key, ra, a, t1).state;
    EnqueueTwoQueues(c, s0, key, ra, a, t1, x, y);
    assert Inv(s1) && MachineQueue(s1, x) == [a] && MachineQueue(s1, y) == [];
    var s2 := Enqueue(c, s1, key, rb, b, t2).state;
    EnqueueTwoQueues(c, s1, key, rb, b, t2, x, y);
    assert Inv(s2) && MachineQueue(s2, x) == [a] && MachineQueue(s2, y) == [b];
    EnqueueTwoQueues(c, s2, key, rc, d, t3, x, y);
  }

  /** One successful enqueue, seen from two machines' queues. */
  lemma EnqueueTwoQueues(c: Config, s: State, key: Option<string>, req: EnqueueReq, jid: string, ts: int, x: string, y: string)
    requires Inv(s) && jid !in s.jobs
    requires RequireAdmin(c, key).Pass? && MachineAllowed(c, req.machineId)
    ensures var s' := Enqueue(c, s, key, req, jid, ts).state;
            && Inv(s')
            && jid in s'.jobs
            && MachineQueue(s', x) == MachineQueue(s, x) + (if req.machineId == x then [jid] else [])
            && MachineQueue(s', y) == MachineQueue(s, y) + (if req.machineId == y then [jid] else [])
  {
    EnqueueIsFifoPerMachine(c, s, key, req, jid, ts, x);
    EnqueueIsFifoPerMachine(c, s, key, req, jid, ts, y);
  }

  /**
   * From queues X: [a, d] and Y: [b], signed polls by X, Y and X receive a,
   * b and d; the two polls by X may carry different requests.
   */
  lemma PollThree(c: Config, s3: State, px1: PollReq, py: PollReq, px3: PollReq, a: string, b: string, d: string)
    requires Inv(s3)
    requires px1.machineId == px3.machineId && px1.machineId != py.machineId
    requires MachineAllowed(c, px1.machineId) && MachineAllowed(c, py.machineId)
    requires MachineQueue(s3, px1.machineId) == [a, d] && MachineQueue(s3, py.machineId) == [b]
    ensures var p1 := Poll(c, s3, px1, c.sign(c.serializePoll(px1)));
            var p2 := Poll(c, p1.state, py, c.sign(c.serializePoll(py)));
            var p3 := Poll(c, p2.state, px3, c.sign(c.serializePoll(px3)));
            && p1.reply.Success? && p1.reply.value.Claimed? && p1.reply.value.job.id == a
            && p2.reply.Success? && p2.reply.value.Claimed? && p2.reply.value.job.id == b
            && p3.reply.Success? && p3.reply.value.Claimed? && p3.reply.value.job.id == d
  {
    var x, y := px1.machineId, py.machineId;
    var sx1 := c.sign(c.serializePoll(px1));
    var sy := c.sign(c.serializePoll(py));
    var sx3 := c.sign(c.serializePoll(px3));
    FirstForIsMachineHead(s3.jobs, s3.pending, x);
    var p1 := Poll(c, s3, px1, sx1);
    PollIsFifoPerMachine(c, s3, px1, sx1, x);
    PollIsFifoPerMachine(c, s3, px1, sx1, y);
    PollPreservesInv(c, s3, px1, sx1);
    assert MachineQueue(p1.state, x) == [d];

    FirstForIsMachineHead(p1.state.jobs, p1.state.pending, y);
    var p2 := Poll(c, p1.state, py, sy);
    PollIsFifoPerMachine(c, p1.state, py, sy, x);
    PollIsFifoPerMachine(c, p1.state, py, sy, y);
    PollPreservesInv(c, p1.state, py, sy);

    FirstForIsMachineHead(p2.state.jobs, p2.state.pending, x);
    PollIsFifoPerMachine(c, p2.state, px3, sx3, x);
  }

  /**
   * Jobs enqueued in the order a, b, d for machines X, Y, X, each at its own
   * timestamp: signed polls by X, Y and X again receive a, b and d, so a
   * machine's jobs never wait behind another machine's.
   */
  lemma InterleavedMachines(c: Config, s0: State, key: Option<string>, t1: int, t2: int, t3: int,
                            ra: EnqueueReq, rb: EnqueueReq, rc: EnqueueReq, a: string, b: string, d: string,
                            px1: PollReq, py: PollReq, px3: PollReq)
    requires Inv(s0)
    requires RequireAdmin(c, key).Pass?
    requires ra.machineId == rc.machineId == px1.machineId == px3.machineId
    requires rb.machineId == py.machineId && px1.machineId != py.machineId
    requires MachineAllowed(c, px1.machineId) && MachineAllowed(c, py.machineId)
    requires MachineQueue(s0, px1.machineId) == [] && MachineQueue(s0, py.machineId) == []
    requires a !in s0.jobs && b !in s0.jobs && d !in s0.jobs && a != b && b != d && a != d
    ensures var s1 := Enqueue(c, s0, key, ra, a, t1).state;
            var s2 := Enqueue(c, s1, key, rb, b, t2).state;
            var s3 := Enqueue(c, s2, key, rc, d, t3).state;
            var p1 := Poll(c, s3, px1, c.sign(c.serializePoll(px1)));
            var p2 := Poll(c, p1.state, py, c.sign(c.serializePoll(py)));
            var p3 := Poll(c, p2.state, px3, c.sign(c.serializePoll(px3)));
            && Inv(s3)
            && p1.reply.Success? && p1.reply.value.Claimed? && p1.reply.value.job.id == a
            && p2.reply.Success? && p2.reply.value.Claimed? && p2.reply.value.job.id == b
            && p3.reply.Success? && p3.reply.value.Claimed? && p3.reply.value.job.id == d
  {
    EnqueueThree(c, s0, key, t1, t2, t3, ra, rb, rc, a, b, d);
    var s1 := Enqueue(c, s0, key, ra, a, t1).state;
    var s2 := Enqueue(c, s1, key, rb, b, t2).state;
    var s3 := Enqueue(c, s2, key, rc, d, t3).state;
    PollThree(c, s3, px1, py, px3, a, b, d);
  }
}
