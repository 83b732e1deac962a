/**
 * The dispatch queue: an ordered backlog of job ids over one list, with a
 * targeted claim that takes the first entry for a given machine. Viewed per
 * machine, the backlog is a FIFO queue (ForMachine).
 */
module Dispatch {
  import opened Wrappers
  import opened Messages

  /** Every backlog entry names a stored job. */
  predicate PendingKnown(jobs: map<string, Job>, pending: seq<string>) {
    forall i :: 0 <= i < |pending| ==> pending[i] in jobs
  }

  /** No id occurs twice in the backlog. */
  predicate Distinct(s: seq<string>) {
    forall i, j :: 0 <= i < j < |s| ==> s[i] != s[j]
  }

  /** A duplicate-free backlog holds as many ids as it has entries. */
  lemma {:induction false} DistinctCard(s: seq<string>)
    requires Distinct(s)
    ensures |set id | id in s| == |s|
    decreases |s|
  {
    if s != [] {
      DistinctCard(s[1..]);
      assert (set id | id in s) == {s[0]} + (set id | id in s[1..]);
      assert s[0] !in (set id | id in s[1..]);
    }
  }

  /**
   * Front-to-back scan: the index of the first entry whose job targets
   * machine `m`, or None when no entry does.
   */
  function FirstFor(jobs: map<string, Job>, pending: seq<string>, m: string): (r: Option<nat>)
    requires PendingKnown(jobs, pending)
    ensures r.Some? ==> r.value < |pending| && jobs[pending[r.value]].machineId == m
    ensures r.Some? ==> forall k :: 0 <= k < r.value ==> jobs[pending[k]].machineId != m
    ensures r.None? <==> forall k :: 0 <= k < |pending| ==> jobs[pending[k]].machineId != m
    decreases |pending|
  {
    if pending == [] then None
    else if jobs[pending[0]].machineId == m then Some(0)
    else
      match FirstFor(jobs, pending[1..], m)
      case None => None
      case Some(j) => Some(j + 1)
  }

  /** The backlog with entry `i` taken out; every other entry keeps its place in the order. */
  function RemoveAt<T>(s: seq<T>, i: nat): (r: seq<T>)
    requires i < |s|
    ensures |r| == |s| - 1
    ensures forall k :: 0 <= k < i ==> r[k] == s[k]
    ensures forall k :: i <= k < |r| ==> r[k] == s[k + 1]
    ensures multiset(r) == multiset(s) - multiset{s[i]}
  {
    assert s == s[..i] + [s[i]] + s[i + 1..];
    s[..i] + s[i + 1..]
  }

  /** Taking one entry out keeps the backlog referring to stored jobs. */
  lemma RemoveAtKnown(jobs: map<string, Job>, s: seq<string>, i: nat)
    requires PendingKnown(jobs, s) && i < |s|
    ensures PendingKnown(jobs, RemoveAt(s, i))
  {
  }

  /** Taking an entry out of a duplicate-free backlog leaves none of its copies behind. */
  lemma RemoveAtDistinct(s: seq<string>, i: nat)
    requires Distinct(s) && i < |s|
    ensures Distinct(RemoveAt(s, i))
    ensures s[i] !in RemoveAt(s, i)
  {
  }

  /** The ids in the backlog that target machine `m`, in backlog order. */
  function ForMachine(jobs: map<string, Job>, pending: seq<string>, m: string): (q: seq<string>)
    requires PendingKnown(jobs, pending)
    ensures |q| <= |pending|
    ensures forall k :: 0 <= k < |q| ==> q[k] in jobs && jobs[q[k]].machineId == m
    decreases |pending|
  {
    if pending == [] then []
    else
      var rest := ForMachine(jobs, pending[1..], m);
      if jobs[pending[0]].machineId == m then [pending[0]] + rest else rest
  }

  /**
   * The scan finds nothing exactly when machine `m` has no queued job, and
   * otherwise finds the head of that machine's queue.
   */
  lemma {:induction false} FirstForIsMachineHead(jobs: map<string, Job>, p: seq<string>, m: string)
    requires PendingKnown(jobs, p)
    ensures FirstFor(jobs, p, m).None? <==> ForMachine(jobs, p, m) == []
    ensures FirstFor(jobs, p, m).Some? ==> ForMachine(jobs, p, m)[0] == p[FirstFor(jobs, p, m).value]
    decreases |p|
  {
    if p != [] && jobs[p[0]].machineId != m {
      FirstForIsMachineHead(jobs, p[1..], m);
    }
  }

  /**
   * Claiming the first entry for `m` pops the head of `m`'s queue and leaves
   * every other machine's queue exactly as it was.
   */
  lemma {:induction false} ClaimAdvancesMachineQueue(jobs: map<string, Job>, p: seq<string>, m: string, n: string)
    requires PendingKnown(jobs, p)
    requires FirstFor(jobs, p, m).Some?
    ensures PendingKnown(jobs, RemoveAt(p, FirstFor(jobs, p, m).value))
    ensures ForMachine(jobs, p, m) != []
    ensures ForMachine(jobs, RemoveAt(p, FirstFor(jobs, p, m).value), n)
         == if n == m then ForMachine(jobs, p, m)[1..] else ForMachine(jobs, p, n)
    decreases |p|
  {
    var i := FirstFor(jobs, p, m).value;
    RemoveAtKnown(jobs, p, i);
    FirstForIsMachineHead(jobs, p, m);
    var r := RemoveAt(p, i);
    if i == 0 {
      assert r == p[1..];
    } else {
      var i' := FirstFor(jobs, p[1..], m).value;
      assert i' == i - 1;
      ClaimAdvancesMachineQueue(jobs, p[1..], m, n);
      assert r[1..] == RemoveAt(p[1..], i') by {
        assert r == [p[0]] + RemoveAt(p[1..], i');
      }
      assert ForMachine(jobs, p, m) == ForMachine(jobs, p[1..], m);
      UnfoldForMachine(jobs, r, n);
      UnfoldForMachine(jobs, p, n);
    }
  }

  /** One step of ForMachine on a non-empty backlog. */
  lemma UnfoldForMachine(jobs: map<string, Job>, p: seq<string>, n: string)
    requires PendingKnown(jobs, p) && p != []
    ensures ForMachine(jobs, p, n)
         == (if jobs[p[0]].machineId == n then [p[0]] else []) + ForMachine(jobs, p[1..], n)
  {
  }

  /**
   * Appending a freshly stored job to the back of the backlog appends its id
   * to its machine's queue and to no other.
   */
  lemma {:induction false} AppendExtendsMachineQueue(jobs: map<string, Job>, p: seq<string>, job: Job, m: string)
    requires PendingKnown(jobs, p)
    requires job.id !in jobs
    ensures PendingKnown(jobs[job.id := job], p + [job.id])
    ensures ForMachine(jobs[job.id := job], p + [job.id], m)
         == ForMachine(jobs, p, m) + (if job.machineId == m then [job.id] else [])
    decreases |p|
  {
    var jobs' := jobs[job.id := job];
    if p != [] {
      assert (p + [job.id])[1..] == p[1..] + [job.id];
      AppendExtendsMachineQueue(jobs, p[1..], job, m);
      assert jobs'[p[0]] == jobs[p[0]];
    }
  }
}
