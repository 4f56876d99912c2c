/**
 The queue contract as a state machine on values: what the in-memory backend computes, and what
 the two drivers must match. Each operation is one atomic step. K is the type of unit identities:
 full keys for the in-memory and Postgres backends, stream member names for a Valkey shard.
 */
module Oracle {
  import opened Contract

  /** A pending task with the time it was enqueued. */
  datatype Entry = Entry(task: Task, at: int)

  datatype Lease = Lease(worker: string, token: string, window: int, expires: int)

  /** A work unit: its FIFO (head first) and the metadata maintained beside it. */
  datatype Unit = Unit(
    queue: seq<Entry>,
    nextSeq: int,
    pendingCost: int,
    threshold: int,
    maxWait: int,
    oldest: int,
    flushDeadline: int,
    eligible: bool,
    lease: Option<Lease>,
    attempts: int)

  datatype DeadLetter<+K> = DeadLetter(key: K, task: Task, reason: string)

  datatype Config = Config(threshold: int, maxWait: int, maxAttempts: int)

  /** issued holds every lease token ever handed out. */
  datatype State<K> = State(
    units: map<K, Unit>,
    dlq: seq<DeadLetter<K>>,
    issued: set<string>,
    cfg: Config)

  // ---------- one unit ----------

  function Total(q: seq<Entry>): int {
    if q == [] then 0 else q[0].task.cost + Total(q[1..])
  }

  function Blank(cfg: Config): Unit {
    Unit([], 0, 0, cfg.threshold, cfg.maxWait, 0, 0, false, None, 0)
  }

  function Push(u: Unit, payload: string, cost: int, now: int): Unit {
    var first := |u.queue| == 0;
    u.(queue := u.queue + [Entry(Task(u.nextSeq, payload, cost), now)],
       nextSeq := u.nextSeq + 1,
       pendingCost := u.pendingCost + cost,
       oldest := if first then now else u.oldest,
       flushDeadline := if first then now + u.maxWait else u.flushDeadline,
       eligible := u.eligible || u.pendingCost + cost >= u.threshold)
  }

  /** How many leading entries an acknowledgement through a sequence number covers. */
  function Covered(q: seq<Entry>, through: int): (n: nat)
    ensures n <= |q|
    ensures forall i :: 0 <= i < n ==> q[i].task.seqNo <= through
    ensures n < |q| ==> q[n].task.seqNo > through
  {
    if q == [] || q[0].task.seqNo > through then 0 else 1 + Covered(q[1..], through)
  }

  /** Remove the first n entries. */
  function Drop(u: Unit, n: nat): Unit
    requires n <= |u.queue|
  {
    u.(queue := u.queue[n..], pendingCost := u.pendingCost - Total(u.queue[..n]), attempts := 0)
  }

  /** Recompute the metadata derived from the head; eligibility is never sticky. */
  function Refresh(u: Unit, now: int): Unit
    requires |u.queue| > 0
  {
    var deadline := u.queue[0].at + u.maxWait;
    u.(oldest := u.queue[0].at,
       flushDeadline := deadline,
       eligible := u.pendingCost >= u.threshold || deadline <= now)
  }

  /** Move the end of a lease. */
  function Prolong(u: Unit, until: int): Unit
    requires u.lease.Some?
  {
    u.(lease := Some(u.lease.value.(expires := until)))
  }

  /** None means the unit was emptied and disappears. */
  function AckUnit(u: Unit, through: int, now: int): Option<Unit>
    requires u.lease.Some?
  {
    var d := Drop(u, Covered(u.queue, through));
    if d.queue == [] then None else
    var r := Refresh(d, now);
    if r.eligible
    then Some(r.(lease := Some(u.lease.value.(expires := now + u.lease.value.window))))
    else Some(r.(lease := None))
  }

  predicate Poison(u: Unit, seqNo: int, cap: int) {
    u.attempts + 1 >= cap && |u.queue| > 0 && u.queue[0].task.seqNo == seqNo
  }

  function FailUnit(u: Unit, seqNo: int, cap: int, now: int): Option<Unit> {
    if !Poison(u, seqNo, cap) then Some(u.(attempts := u.attempts + 1, lease := None)) else
    var d := Drop(u, 1);
    if d.queue == [] then None else Some(Refresh(d, now).(lease := None))
  }

  predicate Expired(u: Unit, expiredBefore: int) {
    u.lease.Some? && u.lease.value.expires < expiredBefore
  }

  predicate Flushable(u: Unit, at: int) {
    u.lease.None? && !u.eligible && |u.queue| > 0 && u.flushDeadline <= at
  }

  function Reclaim(u: Unit, expiredBefore: int): Unit {
    if Expired(u, expiredBefore) then u.(lease := None) else u
  }

  function ReapUnit(u: Unit, expiredBefore: int, at: int): Unit {
    var r := Reclaim(u, expiredBefore);
    if Flushable(r, at) then r.(eligible := true) else r
  }

  // ---------- the whole queue ----------

  function UnitOf<K>(s: State<K>, k: K): Unit {
    if k in s.units then s.units[k] else Blank(s.cfg)
  }

  function Put<K>(s: State<K>, k: K, u: Option<Unit>): State<K> {
    s.(units := if u.Some? then s.units[k := u.value] else s.units - {k})
  }

  function Enqueue<K>(s: State<K>, k: K, payload: string, cost: int, now: int): State<K> {
    Put(s, k, Some(Push(UnitOf(s, k), payload, cost, now)))
  }

  predicate Claimable<K>(s: State<K>, k: K) {
    k in s.units && s.units[k].eligible && s.units[k].lease.None? && |s.units[k].queue| > 0
  }

  ghost predicate NothingClaimable<K>(s: State<K>) {
    forall k :: k in s.units ==> !Claimable(s, k)
  }

  /** Age fairness: no claimable unit has an earlier flush deadline. */
  ghost predicate Oldest<K>(s: State<K>, k: K) {
    Claimable(s, k) &&
    forall j :: j in s.units && Claimable(s, j) ==> s.units[k].flushDeadline <= s.units[j].flushDeadline
  }

  function Grant<K>(s: State<K>, k: K, worker: string, token: string, window: int, now: int): State<K>
    requires k in s.units
  {
    var lease := Lease(worker, token, window, now + window);
    Put(s, k, Some(s.units[k].(lease := Some(lease)))).(issued := s.issued + {token})
  }

  predicate Held<K>(s: State<K>, c: Claimed<K>) {
    c.key in s.units && s.units[c.key].lease.Some? &&
    s.units[c.key].lease.value.worker == c.worker && s.units[c.key].lease.value.token == c.token
  }

  function Min(a: int, b: int): int {
    if a <= b then a else b
  }

  function Tasks(q: seq<Entry>): seq<Task> {
    seq(|q|, i requires 0 <= i < |q| => q[i].task)
  }

  function Drain<K>(s: State<K>, c: Claimed<K>, max: nat): Outcome<seq<Task>> {
    if !Held(s, c) then LeaseLost else
    var q := s.units[c.key].queue;
    Ok(Tasks(q[..Min(max, |q|)]))
  }

  function Ack<K>(s: State<K>, c: Claimed<K>, through: int, now: int): State<K> {
    if Held(s, c) then Put(s, c.key, AckUnit(s.units[c.key], through, now)) else s
  }

  /** Whether the worker still holds the unit after acknowledging. */
  function AckOutcome<K>(s: State<K>, c: Claimed<K>, through: int, now: int): Outcome<bool> {
    if !Held(s, c) then LeaseLost else Ok(Held(Ack(s, c, through, now), c))
  }

  function Release<K>(s: State<K>, c: Claimed<K>): State<K> {
    if Held(s, c) then Put(s, c.key, Some(s.units[c.key].(lease := None))) else s
  }

  function Heartbeat<K>(s: State<K>, c: Claimed<K>, extend: int, now: int): State<K> {
    if !Held(s, c) then s else Put(s, c.key, Some(Prolong(s.units[c.key], now + extend)))
  }

  function Fail<K>(s: State<K>, c: Claimed<K>, seqNo: int, reason: string, now: int): State<K> {
    if !Held(s, c) then s else
    var u := s.units[c.key];
    var next := Put(s, c.key, FailUnit(u, seqNo, s.cfg.maxAttempts, now));
    if Poison(u, seqNo, s.cfg.maxAttempts)
    then next.(dlq := s.dlq + [DeadLetter(c.key, u.queue[0].task, reason)])
    else next
  }

  /**
   Reclaim the leases that expired before one bound, then flush the units due at another. The
   in-memory and Postgres backends pass the same time twice; Valkey's inclusive expiry is one
   millisecond ahead.
   */
  function Reap<K>(s: State<K>, expiredBefore: int, at: int): State<K> {
    s.(units := map k | k in s.units :: ReapUnit(s.units[k], expiredBefore, at))
  }

  function Reclaimed<K>(s: State<K>, expiredBefore: int): set<K> {
    set k | k in s.units && Expired(s.units[k], expiredBefore)
  }

  function Flushed<K>(s: State<K>, expiredBefore: int, at: int): set<K> {
    set k | k in s.units && Flushable(Reclaim(s.units[k], expiredBefore), at)
  }
}
