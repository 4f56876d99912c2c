/** What every operation keeps of every unit. */
module Invariant {
  import opened Contract
  import opened Oracle

  /** Sequence numbers of the pending run are contiguous and end just below nextSeq. */
  ghost predicate Contiguous(u: Unit) {
    |u.queue| <= u.nextSeq &&
    forall i :: 0 <= i < |u.queue| ==> u.queue[i].task.seqNo == u.nextSeq - |u.queue| + i
  }

  ghost predicate CostsPositive(q: seq<Entry>) {
    forall i :: 0 <= i < |q| ==> q[i].task.cost > 0
  }

  /** Enqueue times never decrease along the queue and have all been observed. */
  ghost predicate AgesOrdered(q: seq<Entry>, clock: int) {
    (forall i :: 0 <= i < |q| ==> q[i].at <= clock) &&
    (forall i, j :: 0 <= i < j < |q| ==> q[i].at <= q[j].at)
  }

  /** The head-derived fields describe the present head. */
  ghost predicate HeadFields(u: Unit) {
    |u.queue| > 0 && u.oldest == u.queue[0].at && u.flushDeadline == u.queue[0].at + u.maxWait
  }

  /**
   The gate: a unit is eligible when its cost reached the threshold, and otherwise only because
   the deadline of its present head has been reached by an observed time.
   */
  ghost predicate Gated(u: Unit, seen: int) {
    (u.pendingCost >= u.threshold ==> u.eligible) &&
    (u.eligible ==> u.pendingCost >= u.threshold || u.flushDeadline <= seen) &&
    (u.lease.Some? ==> u.eligible)
  }

  ghost predicate LeaseOk(u: Unit, issued: set<string>) {
    u.lease.Some? ==> u.lease.value.worker != "" && u.lease.value.token in issued && u.lease.value.window >= 0
  }

  ghost predicate UnitInv(u: Unit, cfg: Config, issued: set<string>, clock: int, seen: int) {
    Contiguous(u) && CostsPositive(u.queue) && AgesOrdered(u.queue, clock) && HeadFields(u) &&
    u.pendingCost == Total(u.queue) && u.threshold == cfg.threshold && u.maxWait == cfg.maxWait &&
    Gated(u, seen) && LeaseOk(u, issued) && u.attempts >= 0
  }

  /** clock is the latest time an operation ran at, seen the latest time any operation mentioned. */
  ghost predicate Inv<K>(s: State<K>, clock: int, seen: int) {
    s.cfg.threshold > 0 && s.cfg.maxWait >= 0 && s.cfg.maxAttempts > 0 && clock <= seen &&
    forall k :: k in s.units ==> UnitInv(s.units[k], s.cfg, s.issued, clock, seen)
  }

  // ---------- sums and covered prefixes ----------

  lemma {:induction false} TotalSplit(a: seq<Entry>, b: seq<Entry>)
    ensures Total(a + b) == Total(a) + Total(b)
  {
    if a == [] {
      assert a + b == b;
    } else {
      assert (a + b)[1..] == a[1..] + b;
      TotalSplit(a[1..], b);
    }
  }

  lemma {:induction false} TotalPositive(q: seq<Entry>)
    requires CostsPositive(q)
    ensures Total(q) >= 0
    ensures Total(q) == 0 <==> q == []
  {
    if q != [] {
      TotalPositive(q[1..]);
    }
  }

  lemma TotalOne(e: Entry)
    ensures Total([e]) == e.task.cost
  {
    assert [e][1..] == [];
  }

  lemma {:induction false} CoveredIs(q: seq<Entry>, through: int, n: nat)
    requires n <= |q| && (forall j :: 0 <= j < n ==> q[j].task.seqNo <= through)
    requires n < |q| ==> q[n].task.seqNo > through
    ensures Covered(q, through) == n
  {
    if n > 0 {
      CoveredIs(q[1..], through, n - 1);
    }
  }

  /** With contiguous numbers the covered prefix is exactly the entries numbered at most through. */
  lemma CoveredExact(u: Unit, through: int)
    requires Contiguous(u)
    ensures forall i :: 0 <= i < |u.queue| ==>
              (i < Covered(u.queue, through) <==> u.queue[i].task.seqNo <= through)
  {
    var n := Covered(u.queue, through);
    forall i | n <= i < |u.queue| ensures u.queue[i].task.seqNo > through {
      assert u.queue[n].task.seqNo > through;
    }
  }

  // ---------- preservation, unit by unit ----------

  lemma PushKeeps(u: Unit, payload: string, cost: int, now: int, cfg: Config, issued: set<string>, clock: int, seen: int)
    requires u == Blank(cfg) || UnitInv(u, cfg, issued, clock, seen)
    requires cfg.threshold > 0 && cost > 0 && clock <= now
    ensures UnitInv(Push(u, payload, cost, now), cfg, issued, now, Max(seen, now))
  {
    var e := Entry(Task(u.nextSeq, payload, cost), now);
    TotalSplit(u.queue, [e]);
    TotalOne(e);
  }

  function Max(a: int, b: int): int {
    if a >= b then a else b
  }

  /** Dropping a prefix and refreshing re-establishes everything about the new head. */
  lemma DropKeeps(u: Unit, n: nat, now: int, cfg: Config, issued: set<string>, clock: int, seen: int)
    requires UnitInv(u, cfg, issued, clock, seen) && n < |u.queue| && clock <= now
    ensures UnitInv(Refresh(Drop(u, n), now).(lease := None), cfg, issued, now, Max(seen, now))
  {
    TotalSplit(u.queue[..n], u.queue[n..]);
    assert u.queue == u.queue[..n] + u.queue[n..];
  }

  lemma AckKeeps(u: Unit, through: int, now: int, cfg: Config, issued: set<string>, clock: int, seen: int)
    requires UnitInv(u, cfg, issued, clock, seen) && u.lease.Some? && clock <= now
    ensures var r := AckUnit(u, through, now);
            r.Some? ==> UnitInv(r.value, cfg, issued, now, Max(seen, now))
  {
    var n := Covered(u.queue, through);
    if n < |u.queue| {
      DropKeeps(u, n, now, cfg, issued, clock, seen);
    }
  }

  lemma FailKeeps(u: Unit, seqNo: int, cap: int, now: int, cfg: Config, issued: set<string>, clock: int, seen: int)
    requires UnitInv(u, cfg, issued, clock, seen) && clock <= now
    ensures var r := FailUnit(u, seqNo, cap, now);
            r.Some? ==> UnitInv(r.value, cfg, issued, now, Max(seen, now))
  {
    if Poison(u, seqNo, cap) && |u.queue| > 1 {
      DropKeeps(u, 1, now, cfg, issued, clock, seen);
    }
  }

  // ---------- what an operation under a held lease comes down to ----------

  lemma HeartbeatShape<K>(s: State<K>, c: Claimed<K>, extend: int, now: int)
    requires Held(s, c)
    ensures Heartbeat(s, c, extend, now) == Put(s, c.key, Some(Prolong(s.units[c.key], now + extend)))
  {
  }

  lemma AckShape<K>(s: State<K>, c: Claimed<K>, through: int, now: int)
    requires Held(s, c)
    ensures var u := AckUnit(s.units[c.key], through, now);
            && Ack(s, c, through, now) == Put(s, c.key, u)
            && AckOutcome(s, c, through, now) == Ok(u.Some? && u.value.lease.Some?)
  {
  }

  lemma FailShape<K>(s: State<K>, c: Claimed<K>, seqNo: int, reason: string, now: int)
    requires Held(s, c)
    ensures var u := s.units[c.key];
            Fail(s, c, seqNo, reason, now) ==
            Put(s, c.key, FailUnit(u, seqNo, s.cfg.maxAttempts, now)).(dlq :=
              if Poison(u, seqNo, s.cfg.maxAttempts) then s.dlq + [DeadLetter(c.key, u.queue[0].task, reason)] else s.dlq)
  {
  }

  // ---------- preservation, operation by operation ----------

  /** Later clocks and more issued tokens keep every unit. */
  lemma InvLater<K>(s: State<K>, clock: int, seen: int, now: int)
    requires Inv(s, clock, seen) && clock <= now
    ensures Inv(s, now, Max(seen, now))
  {
  }

  lemma EnqueueKeeps<K>(s: State<K>, k: K, payload: string, cost: int, clock: int, seen: int, now: int)
    requires Inv(s, clock, seen) && clock <= now && cost > 0
    ensures Inv(Enqueue(s, k, payload, cost, now), now, Max(seen, now))
  {
    PushKeeps(UnitOf(s, k), payload, cost, now, s.cfg, s.issued, clock, seen);
    InvLater(s, clock, seen, now);
  }

  lemma GrantKeeps<K>(s: State<K>, k: K, worker: string, token: string, window: int, clock: int, seen: int, now: int)
    requires Inv(s, clock, seen) && clock <= now && Claimable(s, k) && worker != "" && window >= 0
    ensures Inv(Grant(s, k, worker, token, window, now), now, Max(seen, now))
  {
    InvLater(s, clock, seen, now);
  }

  lemma AckKeepsAll<K>(s: State<K>, c: Claimed<K>, through: int, clock: int, seen: int, now: int)
    requires Inv(s, clock, seen) && clock <= now
    ensures Inv(Ack(s, c, through, now), now, Max(seen, now))
  {
    InvLater(s, clock, seen, now);
    if Held(s, c) {
      AckKeeps(s.units[c.key], through, now, s.cfg, s.issued, clock, seen);
    }
  }

  lemma ReleaseKeeps<K>(s: State<K>, c: Claimed<K>, clock: int, seen: int, now: int)
    requires Inv(s, clock, seen) && clock <= now
    ensures Inv(Release(s, c), now, Max(seen, now))
  {
    InvLater(s, clock, seen, now);
  }

  lemma HeartbeatKeeps<K>(s: State<K>, c: Claimed<K>, extend: int, clock: int, seen: int, now: int)
    requires Inv(s, clock, seen) && clock <= now
    ensures Inv(Heartbeat(s, c, extend, now), now, Max(seen, now))
  {
    InvLater(s, clock, seen, now);
  }

  lemma FailKeepsAll<K>(s: State<K>, c: Claimed<K>, seqNo: int, reason: string, clock: int, seen: int, now: int)
    requires Inv(s, clock, seen) && clock <= now
    ensures Inv(Fail(s, c, seqNo, reason, now), now, Max(seen, now))
  {
    InvLater(s, clock, seen, now);
    if Held(s, c) {
      FailKeeps(s.units[c.key], seqNo, s.cfg.maxAttempts, now, s.cfg, s.issued, clock, seen);
    }
  }

  lemma ReapKeeps<K>(s: State<K>, expiredBefore: int, at: int, clock: int, seen: int, now: int)
    requires Inv(s, clock, seen) && clock <= now
    ensures Inv(Reap(s, expiredBefore, at), now, Max(Max(seen, now), at))
  {
    InvLater(s, clock, seen, now);
  }
}
