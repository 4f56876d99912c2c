/**
 The worker's own code over the in-memory backend: one pass of its loop while nobody else enqueues
 and its lease is not lost. The interleaved behaviour of many workers is in Workers.
 */
module WorkerLoop {
  import opened Contract
  import opened Oracle
  import opened Invariant
  import opened MemoryBackend
  import History

  /** Some clock reading not before the last one. */
  method Clock(last: int) returns (now: int)
    ensures now >= last
  {
    now :| now >= last;
  }

  /** The unit k has been worked through its first done entries, and nothing else has changed. */
  ghost predicate WorkedThrough(before: State<Key>, after: State<Key>, k: Key, done: nat) {
    && k in before.units && done <= |before.units[k].queue| && after.cfg == before.cfg && after.dlq == before.dlq
    && after.units - {k} == before.units - {k}
    && UnitOf(after, k).queue == before.units[k].queue[done..]
    && (k in after.units <==> done < |before.units[k].queue|)
  }

  /** A unit the queue let go of by itself: free, below the threshold, its head not yet due. */
  ghost predicate Rebuffered(u: Unit, now: int) {
    u.lease.None? && !u.eligible && u.pendingCost < u.threshold && u.flushDeadline > now
  }

  lemma CoveredRun(u: Unit, n: nat)
    requires Contiguous(u) && 1 <= n <= |u.queue|
    ensures Covered(u.queue, u.queue[n - 1].task.seqNo) == n
  {
    CoveredExact(u, u.queue[n - 1].task.seqNo);
    if n < |u.queue| {
      assert u.queue[n].task.seqNo > u.queue[n - 1].task.seqNo;
    }
  }

  /**
   The worker of c holds its unit and has worked through done entries of it since before. Sweeps may have
   run ahead of the clock, up to seen.
   */
  ghost predicate Session(before: State<Key>, s: State<Key>, c: Claimed<Key>, done: nat, now: int, seen: int) {
    c.worker != "" && Inv(s, now, Max(seen, now)) && Held(s, c) && WorkedThrough(before, s, c.key, done)
  }

  /** The same once the backend has let go of the unit. */
  ghost predicate Finished(before: State<Key>, s: State<Key>, k: Key, done: nat, now: int, seen: int) {
    Inv(s, now, Max(seen, now)) && WorkedThrough(before, s, k, done) && (k in s.units ==> Rebuffered(s.units[k], now))
  }

  ghost predicate Standing(before: State<Key>, s: State<Key>, c: Claimed<Key>, done: nat, now: int, seen: int, held: bool) {
    if held then Session(before, s, c, done, now, seen) else Finished(before, s, c.key, done, now, seen)
  }

  lemma SessionStarts(before: State<Key>, c: Claimed<Key>, window: int, clock: int, now: int, seen: int)
    requires Inv(before, clock, seen) && Claimable(before, c.key) && clock <= now && c.worker != "" && window >= 0
    ensures Session(before, Grant(before, c.key, c.worker, c.token, window, now), c, 0, now, seen)
  {
    GrantKeeps(before, c.key, c.worker, c.token, window, clock, seen, now);
    var s := Grant(before, c.key, c.worker, c.token, window, now);
    assert s.units - {c.key} == before.units - {c.key};
    assert before.units[c.key].queue[0..] == before.units[c.key].queue;
  }

  /** What has been processed is the unit's queue so far, each task once and in order. */
  ghost predicate InPrefix(before: State<Key>, k: Key, processed: seq<Task>) {
    k in before.units && |processed| <= |before.units[k].queue| &&
    processed == Tasks(before.units[k].queue[..|processed|])
  }

  /** A drained batch is the next run of the unit's queue, and never empty. */
  lemma SessionDrains(before: State<Key>, s: State<Key>, c: Claimed<Key>, already: seq<Task>, now: int, seen: int, batch: nat,
                     tasks: seq<Task>)
    requires InPrefix(before, c.key, already) && Session(before, s, c, |already|, now, seen)
    requires batch >= 1 && Drain(s, c, batch) == Ok(tasks)
    ensures 0 < |tasks| == Min(batch, |before.units[c.key].queue| - |already|) && InPrefix(before, c.key, already + tasks)
  {
    assert UnitInv(s.units[c.key], s.cfg, s.issued, now, Max(seen, now));
    var q := before.units[c.key].queue;
    forall i | 0 <= i < |tasks| ensures tasks[i] == q[|already| + i].task {
      assert s.units[c.key].queue[i] == q[|already| + i];
    }
  }

  /** Extending the lease changes nothing a worker has done. */
  lemma SessionBeats(before: State<Key>, s: State<Key>, c: Claimed<Key>, done: nat, extend: int, clock: int, now: int, seen: int)
    requires Session(before, s, c, done, clock, seen) && clock <= now
    ensures Session(before, Heartbeat(s, c, extend, now), c, done, now, seen)
  {
    HeartbeatKeeps(s, c, extend, clock, Max(seen, clock), now);
    assert Heartbeat(s, c, extend, now).units - {c.key} == s.units - {c.key};
  }

  /** The last task of a drained batch is the one numbered last of the entries it stands for. */
  lemma BatchIsRun(before: State<Key>, s: State<Key>, k: Key, already: seq<Task>, tasks: seq<Task>)
    requires WorkedThrough(before, s, k, |already|) && k in s.units && Contiguous(s.units[k])
    requires 0 < |tasks| && InPrefix(before, k, already + tasks)
    ensures |tasks| <= |s.units[k].queue| && Covered(s.units[k].queue, tasks[|tasks| - 1].seqNo) == |tasks|
    ensures s.units[k].queue[|tasks|..] == before.units[k].queue[|already| + |tasks|..]
  {
    var u, q, done, n := s.units[k], before.units[k].queue, |already|, |tasks|;
    assert u.queue[n - 1] == q[done + n - 1];
    assert (already + tasks)[done + n - 1] == tasks[n - 1];
    CoveredRun(u, n);
    assert q[done..][n..] == q[done + n..];
  }

  /** Acknowledging through it takes off the batch and nothing else. */
  lemma AckWorks(before: State<Key>, s: State<Key>, c: Claimed<Key>, done: nat, n: nat, through: int, now: int)
    requires WorkedThrough(before, s, c.key, done) && Held(s, c) && n <= |s.units[c.key].queue|
    requires Covered(s.units[c.key].queue, through) == n && s.units[c.key].queue[n..] == before.units[c.key].queue[done + n..]
    ensures WorkedThrough(before, Ack(s, c, through, now), c.key, done + n)
    ensures var e := Ack(s, c, through, now);
            && AckOutcome(s, c, through, now) == Ok(Held(e, c))
            && (!Held(e, c) && c.key in e.units ==> Rebuffered(e.units[c.key], now))
            && (Held(e, c) ==> e.units[c.key].pendingCost >= e.units[c.key].threshold || e.units[c.key].flushDeadline <= now)
  {
    assert Ack(s, c, through, now).units - {c.key} == s.units - {c.key};
  }

  /** Acknowledging a drained batch settles exactly that batch, and keeps the lease or ends the session. */
  lemma SessionAcks(before: State<Key>, s: State<Key>, c: Claimed<Key>, already: seq<Task>, tasks: seq<Task>,
                    clock: int, now: int, seen: int)
    requires Session(before, s, c, |already|, clock, seen) && clock <= now
    requires 0 < |tasks| && InPrefix(before, c.key, already + tasks)
    ensures var through := tasks[|tasks| - 1].seqNo;
            && AckOutcome(s, c, through, now).Ok?
            && Standing(before, Ack(s, c, through, now), c, |already + tasks|, now, seen, AckOutcome(s, c, through, now).value)
            && (AckOutcome(s, c, through, now).value <==> DueAt(before, c.key, |already + tasks|, now))
  {
    var through := tasks[|tasks| - 1].seqNo;
    BatchIsRun(before, s, c.key, already, tasks);
    AckWorks(before, s, c, |already|, |tasks|, through, now);
    AckKeepsAll(s, c, through, clock, Max(seen, clock), now);
    LeftIsDue(before, Ack(s, c, through, now), c, |already| + |tasks|, now, Max(seen, now));
  }

  /** Whether a unit worked through is due can be read off what is left of its queue. */
  lemma LeftIsDue(before: State<Key>, e: State<Key>, c: Claimed<Key>, done: nat, now: int, seen: int)
    requires WorkedThrough(before, e, c.key, done) && Inv(e, now, seen)
    requires c.key in e.units && !Held(e, c) ==> Rebuffered(e.units[c.key], now)
    requires Held(e, c) ==> e.units[c.key].pendingCost >= e.units[c.key].threshold || e.units[c.key].flushDeadline <= now
    ensures Held(e, c) <==> DueAt(before, c.key, done, now)
  {
    if c.key in e.units {
      assert UnitInv(e.units[c.key], e.cfg, e.issued, now, seen);
      assert e.units[c.key].queue[0] == before.units[c.key].queue[done];
    }
  }

  // ---------- the pace of a pass ----------

  predicate Multiple(n: nat, batch: nat)
    requires batch > 0
  {
    n == 0 || (n >= batch && Multiple(n - batch, batch))
  }

  lemma {:induction false} MultipleIs(n: nat, batch: nat)
    requires batch > 0
    ensures Multiple(n, batch) <==> exists c: nat {:trigger c * batch} :: n == c * batch
  {
    if n == 0 {
      assert 0 * batch == 0;
    } else if n >= batch {
      MultipleIs(n - batch, batch);
      if Multiple(n, batch) {
        var c: nat :| n - batch == c * batch;
        assert (c + 1) * batch == n;
      }
      forall c: nat | n == c * batch ensures Multiple(n, batch) {
        assert c > 0 && (c - 1) * batch == n - batch;
      }
    } else {
      forall c: nat {:trigger c * batch} ensures n != c * batch {
        if c > 0 {
          assert c * batch >= batch;
        }
      }
    }
  }

  /** One batch on is the next multiple. */
  lemma {:induction false} NextMultiple(n: nat, batch: nat)
    requires batch > 0 && Multiple(n, batch)
    ensures Multiple(n + batch, batch)
    ensures forall p :: n < p < n + batch ==> !Multiple(p, batch)
  {
    if n > 0 {
      NextMultiple(n - batch, batch);
      forall p | n < p < n + batch ensures !Multiple(p, batch) {
        assert !Multiple(p - batch, batch);
      }
    }
  }

  /** With done tasks gone, what is left of the unit is at the threshold or its head has aged by t. */
  ghost predicate DueAt(before: State<Key>, k: Key, done: nat, t: int) {
    k in before.units && done < |before.units[k].queue| &&
    (Total(before.units[k].queue[done..]) >= before.cfg.threshold
      || before.units[k].queue[done].at + before.cfg.maxWait <= t)
  }

  ghost predicate DueBetween(before: State<Key>, k: Key, done: nat, start: int, now: int) {
    exists t :: start <= t <= now && DueAt(before, k, done, t)
  }

  /** After whole batches, at the end of each of which but perhaps the last the unit was still due. */
  ghost predicate Paced(before: State<Key>, k: Key, done: nat, batch: nat, start: int, now: int)
    requires batch > 0
  {
    && k in before.units && (Multiple(done, batch) || done == |before.units[k].queue|)
    && forall p :: 0 < p < done && Multiple(p, batch) ==> DueBetween(before, k, p, start, now)
  }

  /** The pass goes on from here: another whole batch, or what is left of the unit. */
  ghost predicate GoesOn(before: State<Key>, k: Key, done: nat, batch: nat, now: int)
    requires batch > 0
  {
    Multiple(done, batch) && (done > 0 ==> DueAt(before, k, done, now))
  }

  lemma PaceKept(before: State<Key>, k: Key, done: nat, batch: nat, start: int, now: int, next: nat, later: int)
    requires batch > 0 && Paced(before, k, done, batch, start, now) && GoesOn(before, k, done, batch, now)
    requires start <= now <= later && done <= |before.units[k].queue| && next == done + Min(batch, |before.units[k].queue| - done)
    ensures Paced(before, k, next, batch, start, later)
  {
    NextMultiple(done, batch);
    forall p | 0 < p < next && Multiple(p, batch) ensures DueBetween(before, k, p, start, later) {
      if p < done {
        assert DueBetween(before, k, p, start, now);
      } else {
        assert p == done;
      }
    }
  }

  // ---------- the calls a pass makes ----------

  ghost function Played(s: State<Key>, ops: seq<History.Timed<Key>>): State<Key> {
    if ops == [] then s else History.Effect(Played(s, ops[..|ops| - 1]), ops[|ops| - 1])
  }

  /** The state changed by nothing but heartbeats of one length and acknowledgements, all under the same claim. */
  ghost predicate Trail(s: State<Key>, e: State<Key>, ops: seq<History.Timed<Key>>, c: Claimed<Key>, lease: int) {
    && e == Played(s, ops)
    && forall i :: 0 <= i < |ops| ==> ops[i].op == History.Extend(c, lease) || (ops[i].op.Settle? && ops[i].op.claim == c)
  }

  lemma {:induction false} PlayedJoin(s: State<Key>, a: seq<History.Timed<Key>>, b: seq<History.Timed<Key>>)
    ensures Played(s, a + b) == Played(Played(s, a), b)
  {
    if b == [] {
      assert a + b == a;
    } else {
      assert (a + b)[..|a + b| - 1] == a + b[..|b| - 1];
      PlayedJoin(s, a, b[..|b| - 1]);
    }
  }

  lemma TrailJoin(s: State<Key>, m: State<Key>, e: State<Key>, a: seq<History.Timed<Key>>, b: seq<History.Timed<Key>>,
                  c: Claimed<Key>, lease: int)
    requires Trail(s, m, a, c, lease) && Trail(m, e, b, c, lease)
    ensures Trail(s, e, a + b, c, lease)
  {
    PlayedJoin(s, a, b);
  }

  lemma TrailBeats(s: State<Key>, e: State<Key>, c: Claimed<Key>, lease: int, now: int) returns (ops: seq<History.Timed<Key>>)
    requires e == s || e == Oracle.Heartbeat(s, c, lease, now)
    ensures Trail(s, e, ops, c, lease)
  {
    if e == s {
      ops := [];
    } else {
      ops := [History.Timed(now, History.Extend(c, lease))];
      assert ops[..0] == [];
    }
  }

  lemma TrailAcks(s: State<Key>, e: State<Key>, c: Claimed<Key>, lease: int, through: int, now: int)
    requires e == Oracle.Ack(s, c, through, now)
    ensures Trail(s, e, [History.Timed(now, History.Settle(c, through))], c, lease)
  {
    assert [History.Timed(now, History.Settle(c, through))][..0] == [];
  }

  // ---------- the calls of the loop ----------

  method ClaimUnit(be: Backend, worker: string, lease: int, start: int, ghost seen: int)
    returns (claim: Option<Claimed<Key>>, now: int)
    requires be.Valid() && Inv(be.model, start, seen) && worker != "" && lease >= 0
    modifies be`leaseCounter, be`model, be.units.Values
    ensures be.Valid() && be.units == old(be.units) && now >= start
    ensures claim.None? ==> be.model == old(be.model) && NothingClaimable(old(be.model))
    ensures claim.Some? ==> Best(old(be.model), claim.value.key) && Session(old(be.model), be.model, claim.value, 0, now, seen)
    ensures claim.Some? ==> claim.value.worker == worker && claim.value.till == now + lease &&
                            be.model == Grant(old(be.model), claim.value.key, worker, claim.value.token, lease, now)
  {
    ghost var before := be.model;
    now := Clock(start);
    claim := be.Claim(worker, lease, now);
    if claim.Some? {
      SessionStarts(before, claim.value, lease, start, now, seen);
    }
  }

  method DrainBatch(be: Backend, c: Claimed<Key>, batch: nat, already: seq<Task>, ghost before: State<Key>,
                    ghost now: int, ghost seen: int)
    returns (tasks: seq<Task>)
    requires be.Valid() && batch >= 1 && InPrefix(before, c.key, already)
    requires Session(before, be.model, c, |already|, now, seen)
    ensures 0 < |tasks| == Min(batch, |before.units[c.key].queue| - |already|) && InPrefix(before, c.key, already + tasks)
  {
    var drained := be.Drain(c, batch);
    tasks := drained.value;
    SessionDrains(before, be.model, c, already, now, seen, batch, tasks);
  }

  method Beat(be: Backend, c: Claimed<Key>, lease: int, ghost before: State<Key>, ghost done: nat, last: int,
                       ghost seen: int)
    returns (now: int)
    requires be.Valid() && Session(before, be.model, c, done, last, seen)
    modifies be`model, be.units.Values
    ensures be.Valid() && be.units == old(be.units) && now >= last && Session(before, be.model, c, done, now, seen)
    ensures be.model == Oracle.Heartbeat(old(be.model), c, lease, now)
  {
    now := Clock(last);
    SessionBeats(before, be.model, c, done, lease, last, now, seen);
    var _ := be.Heartbeat(c, lease, now);
  }

  method AckBatch(be: Backend, c: Claimed<Key>, already: seq<Task>, tasks: seq<Task>, ghost before: State<Key>, last: int,
                  ghost seen: int)
    returns (held: bool, now: int)
    requires be.Valid() && Session(before, be.model, c, |already|, last, seen)
    requires 0 < |tasks| && InPrefix(before, c.key, already + tasks)
    modifies be`units, be`model, be.units.Values
    ensures be.Valid() && be.units.Values <= old(be.units.Values) && now >= last
    ensures Standing(before, be.model, c, |already + tasks|, now, seen, held)
    ensures held <==> DueAt(before, c.key, |already + tasks|, now)
    ensures be.model == Oracle.Ack(old(be.model), c, tasks[|tasks| - 1].seqNo, now)
  {
    now := Clock(last);
    SessionAcks(before, be.model, c, already, tasks, last, now, seen);
    var acked := be.Ack(c, tasks[|tasks| - 1].seqNo, now);
    held := acked.value;
  }

  /** The heartbeat goroutine may or may not tick before the next task. */
  method BeatSometimes(be: Backend, c: Claimed<Key>, lease: int, ghost before: State<Key>, ghost done: nat, last: int,
                       ghost seen: int)
    returns (now: int)
    requires be.Valid() && Session(before, be.model, c, done, last, seen)
    modifies be`model, be.units.Values
    ensures be.Valid() && be.units == old(be.units) && now >= last && Session(before, be.model, c, done, now, seen)
    ensures be.model == old(be.model) || be.model == Oracle.Heartbeat(old(be.model), c, lease, now)
  {
    now := last;
    if * {
      now := Beat(be, c, lease, before, done, last, seen);
    }
  }

  /** The tasks seen so far: those of earlier batches, then the first i of this one. */
  ghost predicate Handled(processed: seq<Task>, already: seq<Task>, tasks: seq<Task>, i: nat) {
    i <= |tasks| && processed == already + tasks[..i]
  }

  lemma HandledStarts(already: seq<Task>, tasks: seq<Task>)
    ensures Handled(already, already, tasks, 0)
    ensures forall p :: Handled(p, already, tasks, |tasks|) ==> p == already + tasks
  {
    assert tasks[..|tasks|] == tasks;
  }

  lemma HandledMore(processed: seq<Task>, already: seq<Task>, tasks: seq<Task>, i: nat)
    requires Handled(processed, already, tasks, i) && i < |tasks|
    ensures Handled(processed + [tasks[i]], already, tasks, i + 1)
  {
  }

  /** Hand the next task to the callback; the heartbeat may have extended the lease before it. */
  method ProcessOne(be: Backend, c: Claimed<Key>, lease: int, tasks: seq<Task>, i: nat, handled: seq<Task>, last: int,
                    ghost already: seq<Task>, ghost before: State<Key>, ghost seen: int)
    returns (processed: seq<Task>, now: int, ghost calls: seq<History.Timed<Key>>)
    requires be.Valid() && Session(before, be.model, c, |already|, last, seen)
    requires Handled(handled, already, tasks, i) && i < |tasks|
    modifies be`model, be.units.Values
    ensures be.Valid() && be.units == old(be.units) && now >= last && Session(before, be.model, c, |already|, now, seen)
    ensures Handled(processed, already, tasks, i + 1) && Trail(old(be.model), be.model, calls, c, lease)
  {
    ghost var start := be.model;
    HandledMore(handled, already, tasks, i);
    processed := handled + [tasks[i]];
    now := BeatSometimes(be, c, lease, before, |already|, last, seen);
    calls := TrailBeats(start, be.model, c, lease, now);
  }

  /** Work through a batch in index order. */
  method Process(be: Backend, c: Claimed<Key>, lease: int, tasks: seq<Task>, start: int, already: seq<Task>,
                 ghost before: State<Key>, ghost seen: int)
    returns (processed: seq<Task>, now: int, ghost calls: seq<History.Timed<Key>>)
    requires be.Valid() && Session(before, be.model, c, |already|, start, seen)
    modifies be`model, be.units.Values
    ensures be.Valid() && be.units == old(be.units) && now >= start && Session(before, be.model, c, |already|, now, seen)
    ensures processed == already + tasks && Trail(old(be.model), be.model, calls, c, lease)
  {
    ghost var begun := be.model;
    processed, now, calls := already, start, [];
    HandledStarts(already, tasks);
    for i := 0 to |tasks|
      invariant be.Valid() && be.units == old(be.units) && now >= start && Trail(begun, be.model, calls, c, lease)
      invariant Session(before, be.model, c, |already|, now, seen) && Handled(processed, already, tasks, i)
    {
      ghost var middle, more := be.model, [];
      processed, now, more := ProcessOne(be, c, lease, tasks, i, processed, now, already, before, seen);
      TrailJoin(begun, middle, be.model, calls, more, c, lease);
      calls := calls + more;
    }
  }

  /** One drain, process and acknowledge cycle under a held lease. */
  method Cycle(be: Backend, c: Claimed<Key>, lease: int, batch: nat, start: int, already: seq<Task>,
               ghost before: State<Key>, ghost seen: int)
    returns (processed: seq<Task>, held: bool, now: int, ghost calls: seq<History.Timed<Key>>)
    requires be.Valid() && batch >= 1 && InPrefix(before, c.key, already)
    requires Session(before, be.model, c, |already|, start, seen)
    modifies be`units, be`model, be.units.Values
    ensures Trail(old(be.model), be.model, calls, c, lease)
    ensures be.Valid() && be.units.Values <= old(be.units.Values) && now >= start
    ensures 0 < |processed| == |already| + Min(batch, |before.units[c.key].queue| - |already|) && |processed| > |already|
    ensures InPrefix(before, c.key, processed) && Standing(before, be.model, c, |processed|, now, seen, held)
    ensures held <==> DueAt(before, c.key, |processed|, now)
  {
    var tasks := DrainBatch(be, c, batch, already, before, start, seen);
    if |tasks| == 0 {
      assert false; // a held unit is never empty, so the loop's release branch is not taken
    }
    ghost var begun := be.model;
    processed, now, calls := Process(be, c, lease, tasks, start, already, before, seen);
    ghost var worked := be.model;
    held, now := AckBatch(be, c, already, tasks, before, now, seen);
    calls := WithAck(begun, worked, be.model, calls, c, lease, tasks[|tasks| - 1].seqNo, now);
  }

  lemma WithAck(s: State<Key>, m: State<Key>, e: State<Key>, calls: seq<History.Timed<Key>>, c: Claimed<Key>, lease: int,
                through: int, now: int)
    returns (all: seq<History.Timed<Key>>)
    requires Trail(s, m, calls, c, lease) && e == Oracle.Ack(m, c, through, now)
    ensures Trail(s, e, all, c, lease)
  {
    TrailAcks(m, e, c, lease, through, now);
    all := calls + [History.Timed(now, History.Settle(c, through))];
    TrailJoin(s, m, e, calls, [History.Timed(now, History.Settle(c, through))], c, lease);
  }

  /**
   One pass: claim the best unit, then drain, process and acknowledge until the backend lets go of
   it. The pass ends; beside the claim it made only acknowledgements and heartbeats by the length of the
   lease, all under that claim; it processed a prefix of the unit's queue, in order, each task once; and it
   leaves the unit deleted, or free with its cost below the threshold and its head not yet due. It went
   through the queue in whole batches and stopped at the first end of one where the unit was no longer due.
   */
  method RunOnce(be: Backend, worker: string, lease: int, batch: nat, start: int, ghost seen: int)
    returns (claim: Option<Claimed<Key>>, processed: seq<Task>, now: int, ghost claimed: int,
             ghost calls: seq<History.Timed<Key>>)
    requires be.Valid() && Inv(be.model, start, seen)
    requires worker != "" && lease >= 0 && batch >= 1
    modifies be, be.units.Values
    ensures be.Valid() && start <= claimed <= now
    ensures claim.None? ==> processed == [] && be.model == old(be.model) && NothingClaimable(old(be.model))
    ensures claim.Some? ==>
              && Best(old(be.model), claim.value.key) && |processed| > 0
              && InPrefix(old(be.model), claim.value.key, processed)
              && Finished(old(be.model), be.model, claim.value.key, |processed|, now, seen)
              && Paced(old(be.model), claim.value.key, |processed|, batch, start, now)
              && !DueAt(old(be.model), claim.value.key, |processed|, now)
    ensures claim.Some? ==> claim.value.worker == worker && claim.value.till == claimed + lease &&
                            Trail(Grant(old(be.model), claim.value.key, worker, claim.value.token, lease, claimed),
                                  be.model, calls, claim.value, lease)
  {
    ghost var before := be.model;
    claim, now := ClaimUnit(be, worker, lease, start, seen);
    claimed, calls, processed := now, [], [];
    if claim.Some? {
      processed, now, calls := Serve(be, claim.value, lease, batch, now, before, seen);
      PacedFrom(before, claim.value.key, |processed|, batch, start, claimed, now);
    }
  }

  lemma PacedFrom(before: State<Key>, k: Key, done: nat, batch: nat, start: int, claimed: int, now: int)
    requires batch > 0 && Paced(before, k, done, batch, claimed, now) && start <= claimed
    ensures Paced(before, k, done, batch, start, now)
  {
    forall p | 0 < p < done && Multiple(p, batch) ensures DueBetween(before, k, p, start, now) {
      assert DueBetween(before, k, p, claimed, now);
    }
  }

  /** Between two cycles: what has been done, at what pace, and whether the lease was kept. */
  ghost predicate Serving(before: State<Key>, s: State<Key>, c: Claimed<Key>, processed: seq<Task>, batch: nat, start: int,
                          now: int, seen: int, held: bool)
    requires batch > 0
  {
    && now >= start && |processed| > 0 && InPrefix(before, c.key, processed)
    && Standing(before, s, c, |processed|, now, seen, held)
    && Paced(before, c.key, |processed|, batch, start, now) && (held <==> DueAt(before, c.key, |processed|, now))
  }

  lemma ServingMore(before: State<Key>, s: State<Key>, c: Claimed<Key>, done: nat, processed: seq<Task>, batch: nat, start: int,
                    last: int, now: int, seen: int, held: bool)
    requires batch > 0 && c.key in before.units && done <= |before.units[c.key].queue|
    requires Paced(before, c.key, done, batch, start, last) && GoesOn(before, c.key, done, batch, last)
    requires start <= last <= now && |processed| == done + Min(batch, |before.units[c.key].queue| - done) && |processed| > done
    requires InPrefix(before, c.key, processed) && Standing(before, s, c, |processed|, now, seen, held)
    requires held <==> DueAt(before, c.key, |processed|, now)
    ensures Serving(before, s, c, processed, batch, start, now, seen, held)
  {
    PaceKept(before, c.key, done, batch, start, last, |processed|, now);
  }

  /** One more cycle of the inner loop. */
  method ServeMore(be: Backend, c: Claimed<Key>, lease: int, batch: nat, start: int, already: seq<Task>, last: int,
                   ghost before: State<Key>, ghost seen: int)
    returns (processed: seq<Task>, held: bool, now: int, ghost calls: seq<History.Timed<Key>>)
    requires be.Valid() && batch >= 1 && Serving(before, be.model, c, already, batch, start, last, seen, true)
    modifies be`units, be`model, be.units.Values
    ensures Trail(old(be.model), be.model, calls, c, lease)
    ensures be.Valid() && be.units.Values <= old(be.units.Values)
    ensures |already| < |processed| <= |before.units[c.key].queue|
    ensures Serving(before, be.model, c, processed, batch, start, now, seen, held)
  {
    processed, held, now, calls := Cycle(be, c, lease, batch, last, already, before, seen);
    ServingMore(before, be.model, c, |already|, processed, batch, start, last, now, seen, held);
  }

  /** The inner loop, from the claim until the unit is let go. */
  method Serve(be: Backend, c: Claimed<Key>, lease: int, batch: nat, start: int, ghost before: State<Key>, ghost seen: int)
    returns (processed: seq<Task>, now: int, ghost calls: seq<History.Timed<Key>>)
    requires be.Valid() && batch >= 1 && Session(before, be.model, c, 0, start, seen)
    modifies be`units, be`model, be.units.Values
    ensures be.Valid() && now >= start && |processed| > 0 && InPrefix(before, c.key, processed)
    ensures Finished(before, be.model, c.key, |processed|, now, seen)
    ensures Paced(before, c.key, |processed|, batch, start, now) && !DueAt(before, c.key, |processed|, now)
    ensures Trail(old(be.model), be.model, calls, c, lease)
  {
    ghost var begun := be.model;
    var held;
    processed, held, now, calls := Cycle(be, c, lease, batch, start, [], before, seen);
    ServingMore(before, be.model, c, 0, processed, batch, start, start, now, seen, held);
    while held
      invariant be.Valid() && be.units.Values <= old(be.units.Values)
      invariant Serving(before, be.model, c, processed, batch, start, now, seen, held)
      invariant Trail(begun, be.model, calls, c, lease)
      decreases |before.units[c.key].queue| - |processed|
    {
      ghost var middle, more := be.model, [];
      processed, held, now, more := ServeMore(be, c, lease, batch, start, processed, now, before, seen);
      TrailJoin(begun, middle, be.model, calls, more, c, lease);
      calls := calls + more;
    }
  }
}
