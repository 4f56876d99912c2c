/**
 One work unit in the two Postgres tables: its row of work_units and its rows of tasks, what each
 statement does to them, and the oracle unit they show.
 */
module PostgresRows {
  import opened Contract
  import opened Oracle
  import opened Invariant
  import opened Sums

  /** A row of work_units; the nullable columns are options. */
  datatype Row = Row(
    pendingCost: int,
    nextSeq: int,
    threshold: int,
    maxWait: int,
    eligible: bool,
    claimedBy: Option<string>,
    leaseToken: Option<string>,
    leaseMs: int,
    leaseExpires: Option<int>,
    oldest: Option<int>,
    flushDeadline: Option<int>)

  /** A row of tasks; its key columns are kept outside. */
  datatype TaskRow = TaskRow(payload: string, cost: int, attempts: int, enqueuedAt: int)

  /** A unit's row with its task rows by sequence number. */
  datatype Tuple = Tuple(row: Row, rows: map<int, TaskRow>)

  // ---------- aggregates ----------

  ghost function Costs(rows: map<int, TaskRow>): map<int, int> {
    map q | q in rows :: rows[q].cost
  }

  ghost function Times(rows: map<int, TaskRow>): map<int, int> {
    map q | q in rows :: rows[q].enqueuedAt
  }

  ghost function SumCost(rows: map<int, TaskRow>): int {
    Sum(Costs(rows))
  }

  /** MIN(enqueued_at), NULL over no rows. */
  ghost function MinTime(rows: map<int, TaskRow>): (r: Option<int>)
    ensures r.None? <==> rows == map[]
    ensures r.Some? ==> IsLeast(Times(rows), r.value)
  {
    if rows == map[] then None else
    var k := LeastKey(Times(rows));
    Some(rows[k].enqueuedAt)
  }

  ghost function LeastKey(m: map<int, int>): (k: int)
    requires m != map[]
    ensures k in m && IsLeast(m, m[k])
  {
    LeastIsThere(m);
    var k :| k in m && forall j :: j in m ==> m[k] <= m[j];
    k
  }

  lemma LeastIsThere(m: map<int, int>)
    requires m != map[]
    ensures exists k :: k in m && forall j :: j in m ==> m[k] <= m[j]
  {
    var k := LeastExists(m);
  }

  function UpTo(rows: map<int, TaskRow>, through: int): map<int, TaskRow> {
    map q | q in rows && q <= through :: rows[q]
  }

  function Beyond(rows: map<int, TaskRow>, through: int): map<int, TaskRow> {
    map q | q in rows && q > through :: rows[q]
  }

  // ---------- the statements, on one unit ----------

  function Freed(r: Row): Row {
    r.(claimedBy := None, leaseToken := None, leaseExpires := None)
  }

  function InsertedRow(cost: int, threshold: int, maxWait: int, now: int): Row {
    Row(cost, 0, threshold, maxWait, cost >= threshold, None, None, 0, None, Some(now), Some(now + maxWait))
  }

  function ConflictRow(r: Row, cost: int, now: int): Row {
    r.(pendingCost := r.pendingCost + cost,
       nextSeq := r.nextSeq + 1,
       eligible := r.pendingCost + cost >= r.threshold || r.eligible,
       oldest := if r.pendingCost == 0 then Some(now) else r.oldest,
       flushDeadline := if r.pendingCost == 0 then Some(now + r.maxWait) else r.flushDeadline)
  }

  function LeasedRow(r: Row, worker: string, token: string, ms: int, now: int): Row {
    r.(claimedBy := Some(worker), leaseToken := Some(token), leaseMs := ms, leaseExpires := Some(now + ms))
  }

  /** The row after acked was taken off it and minEnq became its head's time. */
  function HeadedRow(r: Row, acked: int, minEnq: Option<int>, now: int): Row {
    r.(pendingCost := r.pendingCost - acked,
       oldest := minEnq,
       flushDeadline := if minEnq.Some? then Some(minEnq.value + r.maxWait) else None,
       eligible := r.pendingCost - acked >= r.threshold || (minEnq.Some? && minEnq.value + r.maxWait <= now))
  }

  /** Everything but the lease. */
  ghost function AckedSoFar(x: Tuple, through: int, now: int): Tuple {
    var kept := Beyond(x.rows, through);
    Tuple(HeadedRow(x.row, SumCost(UpTo(x.rows, through)), MinTime(kept), now), kept)
  }

  /** Renew the lease of a unit that is still eligible, give up that of one that is not. */
  function KeepOrFree(x: Tuple, now: int): Tuple {
    x.(row := if x.row.eligible then x.row.(leaseExpires := Some(now + x.row.leaseMs)) else Freed(x.row))
  }

  ghost function AckTuple(x: Tuple, through: int, now: int): Tuple {
    KeepOrFree(AckedSoFar(x, through, now), now)
  }

  /** Delete one row, which went to the dead letters, and release. */
  ghost function BuryTuple(x: Tuple, seqNo: int, cost: int, now: int): Tuple {
    var kept := x.rows - {seqNo};
    Tuple(Freed(HeadedRow(x.row, cost, MinTime(kept), now)), kept)
  }

  function CountFailure(x: Tuple, seqNo: int): Tuple {
    if seqNo !in x.rows then x else
    x.(rows := x.rows[seqNo := x.rows[seqNo].(attempts := x.rows[seqNo].attempts + 1)])
  }

  // ---------- the unit a tuple shows ----------

  function RowLease(r: Row): Option<Lease> {
    if r.claimedBy.Some? && r.leaseToken.Some? && r.leaseExpires.Some?
    then Some(Lease(r.claimedBy.value, r.leaseToken.value, r.leaseMs, r.leaseExpires.value))
    else None
  }

  /** The sequence number the oracle's numbering of this life of the unit starts from. */
  function Offset(x: Tuple, u: Unit): int {
    x.row.nextSeq + 1 - u.nextSeq
  }

  /** The position in the queue of a live sequence number, when last is the newest of n. */
  function Place(s: int, last: int, n: nat): int {
    s - (last + 1 - n)
  }

  /** The live rows are numbered without gaps, end at last, and hold the queue in order. */
  ghost predicate Numbered(rows: map<int, TaskRow>, last: int, q: seq<Entry>) {
    && (forall s :: s in rows <==> 0 <= Place(s, last, |q|) < |q|)
    && (forall s :: s in rows ==>
          var e := q[Place(s, last, |q|)];
          e.task.payload == rows[s].payload && e.task.cost == rows[s].cost && e.at == rows[s].enqueuedAt)
  }

  predicate NullsAgree(r: Row) {
    r.claimedBy.Some? == r.leaseToken.Some? == r.leaseExpires.Some?
  }

  ghost predicate RowShown(r: Row, u: Unit) {
    && r.pendingCost == u.pendingCost && r.threshold == u.threshold && r.maxWait == u.maxWait
    && r.eligible == u.eligible && NullsAgree(r) && RowLease(r) == u.lease
    && r.oldest == Some(u.oldest) && r.flushDeadline == Some(u.flushDeadline)
  }

  /** The attempts of the oldest of n rows, zero when there is none. */
  function HeadAttempts(x: Tuple, n: nat): int {
    var first := x.row.nextSeq + 1 - n;
    if first in x.rows then x.rows[first].attempts else 0
  }

  /** A live unit and its tuple; the oracle's retry counter is the head row's. */
  ghost predicate Shown(x: Tuple, u: Unit) {
    && |u.queue| > 0 && Numbered(x.rows, x.row.nextSeq, u.queue) && RowShown(x.row, u)
    && HeadAttempts(x, |u.queue|) == u.attempts
    && forall s :: s in x.rows ==> x.rows[s].attempts >= 0
  }

  /** What is left of an emptied unit: its row, and in it its sequence counter. */
  ghost predicate Spent(x: Tuple, cfg: Config) {
    && x.rows == map[] && x.row.pendingCost == 0 && !x.row.eligible && NullsAgree(x.row) && x.row.claimedBy.None?
    && x.row.threshold == cfg.threshold && x.row.maxWait == cfg.maxWait
  }

  // ---------- aggregates over the live rows ----------

  lemma NoRows(rows: map<int, TaskRow>, last: int)
    requires Numbered(rows, last, [])
    ensures rows == map[]
  {
    forall s ensures s !in rows {
      assert s in rows <==> 0 <= Place(s, last, 0) < 0;
    }
  }

  lemma HeadRow(rows: map<int, TaskRow>, last: int, q: seq<Entry>) returns (first: int)
    requires Numbered(rows, last, q) && |q| > 0
    ensures first == last + 1 - |q| && first in rows
    ensures rows[first].payload == q[0].task.payload && rows[first].cost == q[0].task.cost && rows[first].enqueuedAt == q[0].at
    ensures Numbered(rows - {first}, last, q[1..])
  {
    first := last + 1 - |q|;
    assert Place(first, last, |q|) == 0;
    forall s
      ensures s in rows && s != first <==> 0 <= Place(s, last, |q[1..]|) < |q[1..]|
      ensures Place(s, last, |q[1..]|) == Place(s, last, |q|) - 1
    {
      assert s in rows <==> 0 <= Place(s, last, |q|) < |q|;
    }
  }

  lemma {:induction false} SumOfRun(rows: map<int, TaskRow>, last: int, q: seq<Entry>)
    requires Numbered(rows, last, q)
    ensures SumCost(rows) == Total(q)
    decreases |q|
  {
    if q == [] {
      NoRows(rows, last);
      assert Costs(rows) == map[];
    } else {
      var first := HeadRow(rows, last, q);
      SumAt(Costs(rows), first);
      assert Costs(rows) - {first} == Costs(rows - {first});
      SumOfRun(rows - {first}, last, q[1..]);
    }
  }

  lemma MinOfRun(rows: map<int, TaskRow>, last: int, q: seq<Entry>, clock: int)
    requires Numbered(rows, last, q) && AgesOrdered(q, clock)
    ensures MinTime(rows) == if q == [] then None else Some(q[0].at)
  {
    if q == [] {
      NoRows(rows, last);
    } else {
      var first := HeadRow(rows, last, q);
      assert first in Times(rows) && Times(rows)[first] == q[0].at;
      forall s | s in Times(rows) ensures q[0].at <= Times(rows)[s] {
        assert s == first || q[0].at <= q[Place(s, last, |q|)].at;
      }
      IsLeastUnique(Times(rows), MinTime(rows).value, q[0].at);
    }
  }

  /** Splitting the rows at a number splits the queue at the corresponding place. */
  lemma SplitRun(rows: map<int, TaskRow>, last: int, q: seq<Entry>, through: int, n: nat)
    requires Numbered(rows, last, q) && n <= |q|
    requires (n > 0 ==> last - |q| + n <= through) && (n < |q| ==> through < last + 1 - |q| + n)
    ensures Numbered(UpTo(rows, through), last - (|q| - n), q[..n])
    ensures Numbered(Beyond(rows, through), last, q[n..])
  {
    forall s
      ensures s in rows && s <= through <==> 0 <= Place(s, last - (|q| - n), |q[..n]|) < n
      ensures Place(s, last - (|q| - n), |q[..n]|) == Place(s, last, |q|)
      ensures s in rows && s > through <==> 0 <= Place(s, last, |q[n..]|) < |q[n..]|
      ensures Place(s, last, |q[n..]|) == Place(s, last, |q|) - n
    {
      assert s in rows <==> 0 <= Place(s, last, |q|) < |q|;
    }
  }

  // ---------- each statement shows the oracle's step ----------

  function EnqueuedTuple(x: Tuple, payload: string, cost: int, now: int): Tuple {
    Tuple(ConflictRow(x.row, cost, now), x.rows[x.row.nextSeq + 1 := TaskRow(payload, cost, 0, now)])
  }

  function InsertedTuple(payload: string, cost: int, cfg: Config, now: int): Tuple {
    Tuple(InsertedRow(cost, cfg.threshold, cfg.maxWait, now), map[0 := TaskRow(payload, cost, 0, now)])
  }

  lemma PushedRun(rows: map<int, TaskRow>, last: int, q: seq<Entry>, e: Entry, t: TaskRow)
    requires Numbered(rows, last, q)
    requires e.task.payload == t.payload && e.task.cost == t.cost && e.at == t.enqueuedAt
    ensures Numbered(rows[last + 1 := t], last + 1, q + [e])
  {
    forall s
      ensures s in rows || s == last + 1 <==> 0 <= Place(s, last + 1, |q + [e]|) < |q + [e]|
      ensures Place(s, last + 1, |q + [e]|) == Place(s, last, |q|)
    {
      assert s in rows <==> 0 <= Place(s, last, |q|) < |q|;
    }
  }

  lemma EnqueueShown(x: Tuple, u: Unit, payload: string, cost: int, now: int)
    requires Shown(x, u) && u.pendingCost > 0
    ensures Shown(EnqueuedTuple(x, payload, cost, now), Push(u, payload, cost, now))
    ensures Offset(EnqueuedTuple(x, payload, cost, now), Push(u, payload, cost, now)) == Offset(x, u)
  {
    PushedRun(x.rows, x.row.nextSeq, u.queue, Entry(Task(u.nextSeq, payload, cost), now), TaskRow(payload, cost, 0, now));
    var first := HeadRow(x.rows, x.row.nextSeq, u.queue);
  }

  lemma OneRow(s: int, e: Entry, t: TaskRow)
    requires e.task.payload == t.payload && e.task.cost == t.cost && e.at == t.enqueuedAt
    ensures Numbered(map[s := t], s, [e])
  {
  }

  /** A spent unit comes back to life as a new one whose numbering goes on from the row's counter. */
  lemma ReviveShown(x: Tuple, cfg: Config, payload: string, cost: int, now: int)
    requires Spent(x, cfg)
    ensures Shown(EnqueuedTuple(x, payload, cost, now), Push(Blank(cfg), payload, cost, now))
    ensures Offset(EnqueuedTuple(x, payload, cost, now), Push(Blank(cfg), payload, cost, now)) == x.row.nextSeq + 1
  {
    OneRow(x.row.nextSeq + 1, Entry(Task(0, payload, cost), now), TaskRow(payload, cost, 0, now));
  }

  lemma InsertShown(payload: string, cost: int, cfg: Config, now: int)
    ensures Shown(InsertedTuple(payload, cost, cfg, now), Push(Blank(cfg), payload, cost, now))
    ensures Offset(InsertedTuple(payload, cost, cfg, now), Push(Blank(cfg), payload, cost, now)) == 0
  {
    OneRow(0, Entry(Task(0, payload, cost), now), TaskRow(payload, cost, 0, now));
  }

  lemma LeaseShown(x: Tuple, u: Unit, worker: string, token: string, ms: int, now: int)
    requires Shown(x, u)
    ensures Shown(x.(row := LeasedRow(x.row, worker, token, ms, now)), u.(lease := Some(Lease(worker, token, ms, now + ms))))
  {
  }

  lemma FreeShown(x: Tuple, u: Unit)
    requires Shown(x, u)
    ensures Shown(x.(row := Freed(x.row)), u.(lease := None))
  {
  }

  function Under(u: Unit, attempts: int): Unit {
    u.(attempts := attempts)
  }

  /** The first n rows are gone, and the unit's row was brought up to date with what is left. */
  ghost predicate Dropped(x: Tuple, u: Unit, n: nat, y: Tuple, now: int)
    requires n <= |u.queue|
  {
    && Numbered(y.rows, x.row.nextSeq, u.queue[n..])
    && (forall s :: s in y.rows ==> s in x.rows && y.rows[s] == x.rows[s])
    && y.row == HeadedRow(x.row, Total(u.queue[..n]), MinTime(y.rows), now)
  }

  lemma DroppedAll(x: Tuple, u: Unit, y: Tuple, now: int)
    requires Shown(x, u) && Dropped(x, u, |u.queue|, y, now) && u.pendingCost == Total(u.queue) && u.threshold > 0
    ensures y.rows == map[] && y.row.pendingCost == 0 && !y.row.eligible
  {
    var n := |u.queue|;
    assert u.queue[n..] == [] && u.queue[..n] == u.queue;
    NoRows(y.rows, x.row.nextSeq);
  }

  /** It shows the unit with its first n entries gone and its head metadata renewed. */
  lemma DroppedShown(x: Tuple, u: Unit, n: nat, y: Tuple, now: int, clock: int)
    requires Shown(x, u) && n < |u.queue| && Dropped(x, u, n, y, now) && AgesOrdered(u.queue, clock)
    ensures Shown(y, Under(Refresh(Drop(u, n), now), HeadAttempts(y, |u.queue| - n)))
  {
    MinOfRun(y.rows, x.row.nextSeq, u.queue[n..], clock);
    HeadedShown(x.row, u, n, now);
  }

  lemma HeadedShown(r: Row, u: Unit, n: nat, now: int)
    requires RowShown(r, u) && n < |u.queue|
    ensures RowShown(HeadedRow(r, Total(u.queue[..n]), Some(u.queue[n].at), now), Refresh(Drop(u, n), now))
  {
  }

  // ---------- acknowledging ----------

  /** Numbered from the same newest entry, the table and the oracle cut the queue at the same place. */
  lemma CutsAgree(x: Tuple, u: Unit, through: int, n: nat)
    requires Shown(x, u) && Contiguous(u) && n == Covered(u.queue, through - Offset(x, u))
    ensures n > 0 ==> x.row.nextSeq - |u.queue| + n <= through
    ensures n < |u.queue| ==> through < x.row.nextSeq + 1 - |u.queue| + n
  {
    if n > 0 {
      assert u.queue[n - 1].task.seqNo <= through - Offset(x, u);
    }
  }

  lemma AckDrops(x: Tuple, u: Unit, through: int, n: nat, now: int)
    requires Shown(x, u) && Contiguous(u) && n == Covered(u.queue, through - Offset(x, u))
    ensures Dropped(x, u, n, AckedSoFar(x, through, now), now)
  {
    CutsAgree(x, u, through, n);
    SplitRun(x.rows, x.row.nextSeq, u.queue, through, n);
    SumOfRun(UpTo(x.rows, through), x.row.nextSeq - (|u.queue| - n), u.queue[..n]);
  }

  /** A tuple that shows a unit but for its retry counter. */
  ghost predicate ShownBut(y: Tuple, v: Unit) {
    Shown(y, Under(v, HeadAttempts(y, |v.queue|)))
  }

  /**
   What the oracle makes of the acknowledged unit, but for its retry counter; upto is the number the
   oracle knows through by.
   */
  lemma AckShown(x: Tuple, u: Unit, through: int, upto: int, now: int, cfg: Config, issued: set<string>, clock: int)
    requires Shown(x, u) && UnitInv(u, cfg, issued, clock, clock) && u.lease.Some? && cfg.threshold > 0
    requires upto == through - Offset(x, u)
    ensures var y, v := AckTuple(x, through, now), AckUnit(u, upto, now);
            if v.None? then Spent(y, cfg) else
            ShownBut(y, v.value) && Offset(y, v.value) == Offset(x, u) && (v.value.lease.Some? <==> y.row.claimedBy.Some?)
  {
    var n := Covered(u.queue, upto);
    AckDrops(x, u, through, n, now);
    AckUnitShape(u, upto, now);
    if n == |u.queue| {
      DroppedAll(x, u, AckedSoFar(x, through, now), now);
    } else {
      DroppedShown(x, u, n, AckedSoFar(x, through, now), now, clock);
      AckedLease(x, u, n, AckedSoFar(x, through, now), now);
    }
  }

  lemma AckedLease(x: Tuple, u: Unit, n: nat, y: Tuple, now: int)
    requires u.lease.Some? && n < |u.queue| && y.row.nextSeq == x.row.nextSeq
    requires Shown(y, Under(Refresh(Drop(u, n), now), HeadAttempts(y, |u.queue| - n)))
    ensures var r := Refresh(Drop(u, n), now);
            var v := if r.eligible then Prolong(r, now + u.lease.value.window) else r.(lease := None);
            && ShownBut(KeepOrFree(y, now), v) && Offset(KeepOrFree(y, now), v) == Offset(x, u)
            && (v.lease.Some? <==> KeepOrFree(y, now).row.claimedBy.Some?)
  {
    KeepOrFreeShown(y, Under(Refresh(Drop(u, n), now), HeadAttempts(y, |u.queue| - n)), now);
  }

  lemma KeepOrFreeShown(y: Tuple, w: Unit, now: int)
    requires Shown(y, w) && w.lease.Some?
    ensures Shown(KeepOrFree(y, now), if w.eligible then Prolong(w, now + w.lease.value.window) else w.(lease := None))
    ensures w.eligible <==> KeepOrFree(y, now).row.claimedBy.Some?
    ensures HeadAttempts(KeepOrFree(y, now), |w.queue|) == w.attempts
  {
  }

  lemma AckUnitShape(u: Unit, through: int, now: int)
    requires u.lease.Some?
    ensures var n := Covered(u.queue, through); var v := AckUnit(u, through, now);
            if n == |u.queue| then v.None? else
            var r := Refresh(Drop(u, n), now);
            v == Some(if r.eligible then Prolong(r, now + u.lease.value.window) else r.(lease := None))
  {
  }

  // ---------- failing ----------

  lemma BuryDrops(x: Tuple, u: Unit, seqNo: int, now: int)
    requires Shown(x, u) && seqNo == x.row.nextSeq + 1 - |u.queue|
    ensures seqNo in x.rows && x.rows[seqNo].cost == u.queue[0].task.cost && x.rows[seqNo].payload == u.queue[0].task.payload
    ensures Dropped(x, u, 1, Tuple(HeadedRow(x.row, u.queue[0].task.cost, MinTime(x.rows - {seqNo}), now), x.rows - {seqNo}), now)
  {
    var first := HeadRow(x.rows, x.row.nextSeq, u.queue);
    assert u.queue[..1] == [u.queue[0]];
    TotalOne(u.queue[0]);
  }

  /** Burying the head and releasing is what the oracle does to a poison head, but for the retry counter. */
  lemma BuryShown(x: Tuple, u: Unit, seqNo: int, now: int, cfg: Config, issued: set<string>, clock: int)
    requires Shown(x, u) && UnitInv(u, cfg, issued, clock, clock) && cfg.threshold > 0
    requires seqNo == x.row.nextSeq + 1 - |u.queue|
    ensures var y := BuryTuple(x, seqNo, u.queue[0].task.cost, now);
            if |u.queue| == 1 then Spent(y, cfg) else
            var v := Refresh(Drop(u, 1), now).(lease := None);
            ShownBut(y, v) && Offset(y, v) == Offset(x, u)
  {
    BuryDrops(x, u, seqNo, now);
    var y := Tuple(HeadedRow(x.row, u.queue[0].task.cost, MinTime(x.rows - {seqNo}), now), x.rows - {seqNo});
    if |u.queue| == 1 {
      DroppedAll(x, u, y, now);
    } else {
      DroppedShown(x, u, 1, y, now, clock);
      FreeShown(y, Under(Refresh(Drop(u, 1), now), HeadAttempts(y, |u.queue| - 1)));
    }
  }

  /** Counting a failure is seen by the oracle exactly when it is the head's. */
  lemma FailureShown(x: Tuple, u: Unit, seqNo: int)
    requires Shown(x, u)
    ensures var head := seqNo == x.row.nextSeq + 1 - |u.queue|;
            Shown(CountFailure(x, seqNo), Under(u, if head then u.attempts + 1 else u.attempts))
  {
    var first := HeadRow(x.rows, x.row.nextSeq, u.queue);
  }

  // ---------- sweeping ----------

  predicate LeaseOver(r: Row, bound: int) {
    r.claimedBy.Some? && r.leaseExpires.Some? && r.leaseExpires.value < bound
  }

  predicate Flushes(r: Row, bound: int) {
    !r.eligible && r.claimedBy.None? && r.flushDeadline.Some? && r.flushDeadline.value <= bound && r.pendingCost > 0
  }

  function SweptRow(r: Row, bound: int): Row {
    var f := if LeaseOver(r, bound) then Freed(r) else r;
    if Flushes(f, bound) then f.(eligible := true) else f
  }

  lemma SweepShown(x: Tuple, u: Unit, bound: int)
    requires Shown(x, u) && u.pendingCost > 0
    ensures Shown(x.(row := SweptRow(x.row, bound)), ReapUnit(u, bound, bound))
    ensures LeaseOver(x.row, bound) <==> Expired(u, bound)
    ensures Flushes(if LeaseOver(x.row, bound) then Freed(x.row) else x.row, bound) <==> Flushable(Reclaim(u, bound), bound)
  {
  }

  /** The sweep leaves what is left of an emptied unit alone. */
  lemma SweepSpent(x: Tuple, cfg: Config, bound: int)
    requires Spent(x, cfg)
    ensures SweptRow(x.row, bound) == x.row && !LeaseOver(x.row, bound) && !Flushes(x.row, bound)
  {
  }
}
