# Job broker model

A Dafny model of a minimal push-pull job broker. An administrator enqueues
commands for named machines. Machines poll to claim work, run it, and ack
the result. The administrator then fetches the result. The broker keeps
three pieces of in-memory state:

- the job store `JOBS`: job id to job record;
- the backlog `PENDING`: the ordered list of ids not yet claimed;
- the result map `RESULTS`: job id to the last ack body.

Most endpoints pass through gates before they touch the state. Enqueue
passes the admin gate (the admin key) and then the allow-list gate (the
machine). Poll passes the signature gate (an HMAC-style signature over
the canonical request body) and then the allow-list gate. Ack passes only
the signature gate, and result passes only the admin gate. Health has no
gate.

Layout:

- `wrappers.dfy` (`Wrappers`): `Option`, `Result`, `Outcome`.
- `messages.dfy` (`Messages`): jobs, the enqueue/poll/ack request bodies,
  replies, and the three rejections with their HTTP status and detail text.
- `gates.dfy` (`Gates`): the configuration, plus `Verify`, `RequireAdmin`
  and `MachineAllowed`.
- `dispatch.dfy` (`Dispatch`): the backlog scan `FirstFor`, the removal
  `RemoveAt`, and the per-machine view `ForMachine`. Its lemmas show that
  the one shared list acts as a FIFO queue for each machine.
- `broker_spec.dfy` (`BrokerSpec`): the broker as a state machine over
  values. There is one transition function per endpoint, and each returns
  the new state and the reply.
- `broker_properties.dfy` (`BrokerProperties`): lemmas that span several
  calls. They cover the invariant, FIFO order per machine, exclusive
  claims, last-write-wins results and the backlog depth. They also prove
  two worked scenarios.
- `broker.dfy` (`BrokerService`): the class `Broker`. It owns the three
  structures and updates them in place; `Poll` is the front-to-back loop
  with early return. Each method is proved to take exactly the step that
  `BrokerSpec` prescribes and to keep the invariant.

Abstract parameters, fixed per broker in `Gates.Config`:

- `sign` stands for HMAC-SHA256 under the shared secret, as an
  uninterpreted total function. A signature "verifies" when it equals
  `sign` of the bytes.
- `serializeJob`, `serializePoll` and `serializeAck` stand for the compact
  JSON encoders.
- `adminKey` is empty when no admin key is configured.
- `allowed` is empty when no allow-list is configured.

The fresh job id (`uuid4`) and the timestamp (`int(time.time())`) are
inputs to `Enqueue`. The source does not check that the id is unused. The
model therefore requires `jid !in jobs` wherever the invariant must be
kept: in `Broker.Enqueue` and in the invariant lemmas. `BrokerSpec.Enqueue`
itself models the code as written.

The model follows the code's own types:

- `took_ms` is any integer, because the request model does not bound it.
- The admin header is optional. When a key is configured, a missing header
  is rejected like a wrong key.

## Model

| member | source | states |
|---|---|---|
| Messages.StatusCode | server.py:18-22 | a bad signature and a bad admin key are reported as 401; a disallowed machine is the only 403 (server.py:54) |
| Messages.Detail | server.py:18-22 | each rejection has its own detail text ("Bad signature", "Bad admin key", "Machine not allowed" at server.py:54), and each text belongs to exactly one rejection |
| Gates.MachineAllowed | server.py:53-54 | an empty allow-list admits every machine; a non-empty one admits exactly its members (the same test at server.py:66) |
| Gates.Verify | server.py:16-18 | passes exactly when the tag equals the signer's tag over the bytes; otherwise fails with the "bad signature" rejection, status 401 |
| Gates.VerifyAcceptsExactlyTheSignerTag | server.py:13-18 | the signer's own tag over some bytes always verifies, and every other tag is rejected |
| Gates.RequireAdmin | server.py:20-22 | rejects with "bad admin key" (401) exactly when a key is configured and the supplied key is absent or different |
| Gates.AdminGateOpenWhenUnconfigured | server.py:20-22 | with no admin key configured, every caller passes, including one that sends no key |
| Gates.AdminGateClosedToOtherKeys | server.py:20-22 | with a key configured, only that exact key passes; a missing header is rejected |
| Dispatch.FirstFor | server.py:68-70 | the scan returns the index of an entry whose job targets the machine, with no such entry before it; it returns None exactly when no entry in the backlog targets the machine |
| Dispatch.RemoveAt | server.py:71 | removing entry i shortens the backlog by one, keeps every other entry in its relative order, and removes exactly one copy of the claimed id (multiset difference) |
| Dispatch.RemoveAtKnown | server.py:69-71 | after a removal, every remaining entry still refers to a stored job |
| Dispatch.RemoveAtDistinct | server.py:71 | removing an entry from a duplicate-free backlog leaves it duplicate-free and without the removed id |
| Dispatch.ForMachine | server.py:68-70 | a machine's queue contains only ids of stored jobs that target that machine, so it is never longer than the backlog |
| Dispatch.FirstForIsMachineHead | server.py:68-74 | the scan finds nothing exactly when the machine's queue is empty; otherwise it finds the head of that queue |
| Dispatch.ClaimAdvancesMachineQueue | server.py:68-73 | claiming the first entry for machine m pops the head of m's queue and leaves every other machine's queue unchanged |
| Dispatch.AppendExtendsMachineQueue | server.py:57-58 | storing a fresh job and appending its id adds that id to the back of its own machine's queue and to no other queue |
| BrokerSpec.NewJob | server.py:56 | the job record carries the fresh id, the timestamp, and the request's machine, command and params unchanged |
| BrokerSpec.Enqueue | server.py:50-60 | fails exactly when the admin gate or the allow-list gate fails, and the admin gate is checked first (401 before 403); a failure leaves the state unchanged; on success the job is stored under jid with the request's machine, command and params and the given timestamp, other jobs are unchanged, jid goes to the back of the backlog (depth + 1), results are untouched, and the reply carries jid and the signature over the stored job |
| BrokerSpec.Poll | server.py:62-74 | fails (401) exactly when the request signature is wrong, and then nothing changes; a machine not on a non-empty allow-list gets "no job" with no change; "no job" for an allowed machine means no backlog entry targets it; a claim returns the job of the first matching entry, which targets the caller; no entry before it matched; exactly that entry is removed; the signature is over the job; the job store and results are never touched |
| BrokerSpec.Ack | server.py:76-81 | fails (401) exactly when the signature is wrong, and then nothing changes; on success the result for the job id becomes this ack body, whether or not the id was enqueued, every other result and the job store and backlog are unchanged |
| BrokerSpec.FetchResult | server.py:83-86 | fails exactly when the admin gate fails; otherwise it returns the stored ack body for the id, or the not-found marker exactly when no ack was recorded |
| BrokerSpec.Health | server.py:46-48 | the reported depth is the length of the backlog |
| BrokerProperties.HealthCountsWaitingJobs | server.py:46-48 | under the invariant, the reported depth equals the number of stored jobs still waiting for a claim |
| Dispatch.DistinctCard | server.py:48 | a duplicate-free backlog holds as many distinct ids as it has entries, so its length counts jobs |
| BrokerProperties.InitialInv | server.py:24-26 | the empty broker satisfies the invariant and has depth 0 |
| BrokerProperties.EnqueuePreservesInv | server.py:55-58 | enqueue with a fresh id keeps the invariant: every pending id is a stored job, pending ids are distinct, and each job is stored under its own id |
| BrokerProperties.PollPreservesInv | server.py:68-73 | poll keeps the invariant that line 69 relies on |
| BrokerProperties.AckPreservesInv | server.py:78-80 | ack keeps the invariant |
| BrokerProperties.PollIsFifoPerMachine | server.py:68-74 | a claim hands out the head of the caller's queue and pops it, every other machine's queue is untouched, and an authorised signed poll returns "no job" only when the caller's queue is empty |
| BrokerProperties.EnqueueIsFifoPerMachine | server.py:55-58 | a successful enqueue adds the new id to the back of its machine's queue and leaves the other queues unchanged |
| BrokerProperties.ClaimIsExclusive | server.py:69-71 | right after a claim the claimed job is retired: it is out of the backlog and still in the job store with its record unchanged |
| BrokerProperties.RetiredStaysRetired | server.py:57-80 | a retired job stays retired through any later enqueue (with a fresh id), poll or ack, and no later poll hands it out again |
| BrokerProperties.AckThenFetch | server.py:78-86 | after a signed ack, an authorised lookup of its id returns exactly the acked body |
| BrokerProperties.AckIsLastWriteWins | server.py:80 | after two signed acks for the same id, the lookup returns only the second body |
| BrokerProperties.AckLeavesOtherResults | server.py:80 | an ack for one id leaves the lookup of every other id as it was |
| BrokerProperties.FetchBeforeAckIsNotFound | server.py:86 | before any ack for an id, an authorised lookup returns the not-found marker, not a failure |
| BrokerProperties.HealthTracksBacklog | server.py:46-48 | the depth that health reports goes up by one on a successful enqueue, down by one on a claim, and is unchanged by every other outcome and by ack |
| BrokerProperties.EnqueueThenPoll | server.py:50-74 | from a state where machine A has no pending job: enqueue for machine A, then a signed poll by A, returns that job with the same signature enqueue returned; a second poll by A returns "no job" |
| BrokerProperties.EnqueueThree | server.py:55-58 | from a state where machines X and Y have no pending job: three successful enqueues for X, Y, X, each with its own timestamp, leave X's queue as [a, d] and Y's as [b] and keep the invariant |
| BrokerProperties.PollThree | server.py:62-74 | starting from queues X: [a, d] and Y: [b], signed polls by X, Y and X receive a, b and d; the two X polls may send different requests, each with its own signature |
| BrokerProperties.InterleavedMachines | server.py:50-74 | from a state where machines X and Y have no pending job: jobs enqueued in the order a, b, d for X, Y, X at any timestamps are received in the order a, b, d by signed polls from X, Y, X, whatever requests the two X polls send |
| BrokerService.Broker.constructor | server.py:24-26 | a new broker stores the configuration, starts with an empty store, backlog and result map, and satisfies the invariant |
| BrokerService.Broker.Enqueue | server.py:50-60 | the in-place update of the store and the backlog yields exactly the state and reply of BrokerSpec.Enqueue, and keeps the invariant |
| BrokerService.Broker.Poll | server.py:62-74 | the front-to-back loop with early return yields exactly the state and reply of BrokerSpec.Poll, and keeps the invariant |
| BrokerService.Broker.FetchResult | server.py:83-86 | on the current result map: fails exactly on the admin gate; otherwise returns the stored body, or the not-found marker exactly when no ack was recorded |
| BrokerService.Broker.Health | server.py:46-48 | the current backlog length |
| BrokerService.Broker.Ack | server.py:76-81 | the in-place update of the result map yields exactly the state and reply of BrokerSpec.Ack, and keeps the invariant |

## Left out

- HMAC-SHA256 and the shared secret: `sign` is an uninterpreted function, so the model cannot show that changing one message byte breaks the signature. It shows only that any tag other than the signer's is rejected.
- `Gates.Verify`: the constant-time comparison `compare_digest` is modelled as plain equality. Timing is outside the model. On `str` arguments, `compare_digest` also raises `TypeError` when the supplied tag contains a non-ASCII character, so such a poll or ack ends in an unhandled server error (500) instead of the 401 that the model returns. The state is unchanged in both cases.
- JSON encoding and the request models' `model_dump` are abstract encoders in `Config`; their stable field order is not modelled.
- `uuid4` and `time.time()`: the id and the timestamp are inputs to `Enqueue`. The id's freshness is a precondition wherever the invariant must hold, because the code never checks it.
- Reading `SHARED_SECRET`, `ADMIN_API_KEY` and `ALLOWED_MACHINES` from the environment, including the comma splitting and stripping, and the startup failure when the secret is missing: this is process configuration. The model takes the resulting key and set as given.
- HTTP routing, header extraction, request parsing and `HTTPException`: rejections are `Messages.Error` values, with their status codes and detail texts given by `StatusCode` and `Detail`.
- Concurrency: the source has no lock. Each endpoint is one atomic step, so the model says nothing about what interleaved requests would do.
- `capabilities` appears only in the poll request's signed bytes, as in the source; it never filters jobs.
- Floating-point parameter values are not among the `Value` cases.
- `Broker.Health` and `Broker.FetchResult` are read-only wrappers that apply `BrokerSpec.Health` and `BrokerSpec.FetchResult` to the current state. The cross-call properties are stated on the `BrokerSpec` functions.
