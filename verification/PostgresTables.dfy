/** The two Postgres tables as flat relations, the statements over them, and the oracle state they show. */
module PostgresTables {
  import opened Contract
  import opened Oracle
  import opened Invariant
  import opened PostgresRows
  import opened Sums

  datatype DeadRow = DeadRow(key: Key, seqNo: int, task: TaskRow, reason: string)

  /** work_units by key, tasks by key and sequence number, dead_letters in order of arrival. */
  datatype Tables = Tables(units: map<Key, Row>, tasks: map<(Key, int), TaskRow>, dead: seq<DeadRow>)

  /** The tables of a new shard. */
  function NewTables(): Tables {
    Tables(map[], map[], [])
  }

  // ---------- one unit's part of the tables ----------

  function SeqsOf(tasks: map<(Key, int), TaskRow>, k: Key): set<int> {
    set p | p in tasks && p.0 == k :: p.1
  }

  function RowsOf(tasks: map<(Key, int), TaskRow>, k: Key): map<int, TaskRow> {
    map q | q in SeqsOf(tasks, k) :: tasks[(k, q)]
  }

  function TupleAt(d: Tables, k: Key): Tuple
    requires k in d.units
  {
    Tuple(d.units[k], RowsOf(d.tasks, k))
  }

  function KeysOf(k: Key, rows: map<int, TaskRow>): set<(Key, int)> {
    set q | q in rows :: (k, q)
  }

  /** Replace all task rows of one unit. */
  function PutRows(tasks: map<(Key, int), TaskRow>, k: Key, rows: map<int, TaskRow>): map<(Key, int), TaskRow> {
    map p | p in tasks.Keys + KeysOf(k, rows) && (p.0 == k ==> p.1 in rows) ::
      if p.0 == k then rows[p.1] else tasks[p]
  }

  function SetTuple(d: Tables, k: Key, y: Tuple): Tables {
    d.(units := d.units[k := y.row], tasks := PutRows(d.tasks, k, y.rows))
  }

  lemma InRows(tasks: map<(Key, int), TaskRow>, k: Key, q: int)
    ensures q in RowsOf(tasks, k) <==> (k, q) in tasks
    ensures (k, q) in tasks ==> RowsOf(tasks, k)[q] == tasks[(k, q)]
  {
    if (k, q) in tasks {
      assert (k, q).1 in SeqsOf(tasks, k);
    }
  }

  lemma InPut(tasks: map<(Key, int), TaskRow>, k: Key, rows: map<int, TaskRow>, p: (Key, int))
    ensures p in PutRows(tasks, k, rows) <==> if p.0 == k then p.1 in rows else p in tasks
    ensures p in PutRows(tasks, k, rows) ==> PutRows(tasks, k, rows)[p] == if p.0 == k then rows[p.1] else tasks[p]
  {
    if p.0 == k && p.1 in rows {
      var q := p.1;
      assert p == (k, q);
      assert q in rows && p in KeysOf(k, rows);
    }
  }

  lemma PutGets(tasks: map<(Key, int), TaskRow>, k: Key, rows: map<int, TaskRow>)
    ensures RowsOf(PutRows(tasks, k, rows), k) == rows
  {
    var after := PutRows(tasks, k, rows);
    forall q ensures q in RowsOf(after, k) <==> q in rows {
      InRows(after, k, q);
      InPut(tasks, k, rows, (k, q));
    }
    forall q | q in rows ensures RowsOf(after, k)[q] == rows[q] {
      InRows(after, k, q);
      InPut(tasks, k, rows, (k, q));
    }
  }

  lemma PutKeeps(tasks: map<(Key, int), TaskRow>, k: Key, rows: map<int, TaskRow>, j: Key)
    requires j != k
    ensures RowsOf(PutRows(tasks, k, rows), j) == RowsOf(tasks, j)
  {
    var after := PutRows(tasks, k, rows);
    forall q
      ensures q in RowsOf(after, j) <==> q in RowsOf(tasks, j)
      ensures q in RowsOf(tasks, j) ==> RowsOf(after, j)[q] == RowsOf(tasks, j)[q]
    {
      InRows(after, j, q);
      InRows(tasks, j, q);
      InPut(tasks, k, rows, (j, q));
    }
  }

  /** Two task tables that agree row by row are the same. */
  lemma SameTasks(a: map<(Key, int), TaskRow>, b: map<(Key, int), TaskRow>)
    requires forall p :: p in a <==> p in b
    requires forall p :: p in a ==> a[p] == b[p]
    ensures a == b
  {
  }

  // ---------- the oracle state the tables show ----------

  ghost predicate DeadAgree(dead: seq<DeadRow>, dlq: seq<DeadLetter<Key>>) {
    |dead| == |dlq| && forall i :: 0 <= i < |dead| ==>
      && dead[i].key == dlq[i].key && dead[i].reason == dlq[i].reason
      && dead[i].task.payload == dlq[i].task.payload && dead[i].task.cost == dlq[i].task.cost
  }

  ghost predicate ShownAt(d: Tables, s: State<Key>, k: Key)
    requires k in d.units
  {
    if k in s.units then Shown(TupleAt(d, k), s.units[k]) else Spent(TupleAt(d, k), s.cfg)
  }

  /** Every unit has its row and its tasks; a row without a unit is spent; no task is without its row. */
  ghost predicate Shows(d: Tables, s: State<Key>) {
    && DeadAgree(d.dead, s.dlq) && s.units.Keys <= d.units.Keys
    && (forall p :: p in d.tasks ==> p.0 in d.units)
    && forall k {:trigger TupleAt(d, k)} :: k in d.units ==> ShownAt(d, s, k)
  }

  ghost predicate Wf(d: Tables, s: State<Key>, clock: int) {
    clock >= 0 && Inv(s, clock, clock) && Shows(d, s)
  }

  /** Only one unit's part of the tables changes. */
  lemma StoredTuple(d: Tables, s: State<Key>, k: Key, y: Tuple, v: Option<Unit>, dead: seq<DeadRow>, dlq: seq<DeadLetter<Key>>)
    requires Shows(d, s) && DeadAgree(dead, dlq)
    requires if v.Some? then Shown(y, v.value) else Spent(y, s.cfg)
    ensures Shows(SetTuple(d, k, y).(dead := dead), Put(s, k, v).(dlq := dlq))
    ensures TupleAt(SetTuple(d, k, y).(dead := dead), k) == y
  {
    var e, t := SetTuple(d, k, y).(dead := dead), Put(s, k, v).(dlq := dlq);
    PutGets(d.tasks, k, y.rows);
    assert TupleAt(e, k) == y;
    forall j | j in e.units ensures ShownAt(e, t, j) {
      if j != k {
        PutKeeps(d.tasks, k, y.rows, j);
        assert TupleAt(e, j) == TupleAt(d, j);
      }
    }
    forall p | p in e.tasks ensures p.0 in e.units {
      InPut(d.tasks, k, y.rows, p);
    }
  }

  lemma TupleShown(d: Tables, s: State<Key>, k: Key)
    requires Shows(d, s) && k in d.units
    ensures if k in s.units then Shown(TupleAt(d, k), s.units[k]) else Spent(TupleAt(d, k), s.cfg)
  {
    var x := TupleAt(d, k);
  }

  // ---------- the statements ----------

  function Upserted(d: Tables, k: Key, payload: string, cost: int, cfg: Config, now: int): Tuple {
    if k in d.units then EnqueuedTuple(TupleAt(d, k), payload, cost, now) else InsertedTuple(payload, cost, cfg, now)
  }

  function EnqueueRows(d: Tables, k: Key, payload: string, cost: int, cfg: Config, now: int): Tables {
    SetTuple(d, k, Upserted(d, k, payload, cost, cfg, now))
  }

  predicate Free(r: Row) {
    r.eligible && r.claimedBy.None?
  }

  predicate NotLater(a: Option<int>, b: Option<int>) {
    b.None? || (a.Some? && a.value <= b.value)
  }

  /** The rows a claim may take: free, eligible, and of least flush deadline, nulls last. */
  ghost predicate Pickable(d: Tables, k: Key) {
    k in d.units && Free(d.units[k]) &&
    forall j :: j in d.units && Free(d.units[j]) ==> NotLater(d.units[k].flushDeadline, d.units[j].flushDeadline)
  }

  function ClaimRows(d: Tables, k: Key, worker: string, token: string, ms: int, now: int): Tables
    requires k in d.units
  {
    d.(units := d.units[k := LeasedRow(d.units[k], worker, token, ms, now)])
  }

  predicate HeldRow(d: Tables, c: Claimed<Key>) {
    c.key in d.units && d.units[c.key].claimedBy == Some(c.worker) && d.units[c.key].leaseToken == Some(c.token)
  }

  ghost function AckRows(d: Tables, k: Key, through: int, now: int): Tables
    requires k in d.units
  {
    SetTuple(d, k, AckTuple(TupleAt(d, k), through, now))
  }

  function ReleaseRows(d: Tables, k: Key): Tables
    requires k in d.units
  {
    d.(units := d.units[k := Freed(d.units[k])])
  }

  function ExtendedRow(r: Row, ms: int, now: int): Row {
    r.(leaseMs := ms, leaseExpires := Some(now + ms))
  }

  function HeartbeatRows(d: Tables, k: Key, ms: int, now: int): Tables
    requires k in d.units
  {
    d.(units := d.units[k := ExtendedRow(d.units[k], ms, now)])
  }

  predicate LeastSeq(rows: map<int, TaskRow>, seqNo: int) {
    seqNo in rows && forall q :: q in rows ==> seqNo <= q
  }

  /** After counting the failure, the row is at the cap and no live row comes before it. */
  predicate AtCap(x: Tuple, seqNo: int, cap: int) {
    var f := CountFailure(x, seqNo);
    LeastSeq(f.rows, seqNo) && f.rows[seqNo].attempts >= cap
  }

  ghost function FailRows(d: Tables, k: Key, seqNo: int, reason: string, cap: int, now: int): Tables
    requires k in d.units
  {
    var x := TupleAt(d, k);
    var f := CountFailure(x, seqNo);
    if AtCap(x, seqNo, cap)
    then SetTuple(d, k, BuryTuple(f, seqNo, f.rows[seqNo].cost, now))
           .(dead := d.dead + [DeadRow(k, seqNo, f.rows[seqNo], reason)])
    else SetTuple(d, k, f.(row := Freed(f.row)))
  }

  function SweepRows(d: Tables, bound: int): Tables {
    d.(units := map k | k in d.units :: SweptRow(d.units[k], bound))
  }

  function LapsedRows(d: Tables, bound: int): set<Key> {
    set k | k in d.units && LeaseOver(d.units[k], bound)
  }

  function FlushedRows(d: Tables, bound: int): set<Key> {
    set k | k in d.units && Flushes(if LeaseOver(d.units[k], bound) then Freed(d.units[k]) else d.units[k], bound)
  }

  // ---------- rows rewritten without touching tasks ----------

  lemma RowOnly(d: Tables, k: Key, r: Row)
    requires k in d.units
    ensures SetTuple(d, k, TupleAt(d, k).(row := r)) == d.(units := d.units[k := r])
  {
    var after := PutRows(d.tasks, k, RowsOf(d.tasks, k));
    forall p
      ensures p in after <==> p in d.tasks
      ensures p in after ==> after[p] == d.tasks[p]
    {
      InPut(d.tasks, k, RowsOf(d.tasks, k), p);
      InRows(d.tasks, p.0, p.1);
      assert p == (p.0, p.1);
    }
    SameTasks(after, d.tasks);
  }

  lemma RowStored(d: Tables, s: State<Key>, k: Key, r: Row, v: Unit)
    requires Shows(d, s) && k in d.units && Shown(TupleAt(d, k).(row := r), v)
    ensures Shows(d.(units := d.units[k := r]), Put(s, k, Some(v)))
  {
    StoredTuple(d, s, k, TupleAt(d, k).(row := r), Some(v), d.dead, s.dlq);
    RowOnly(d, k, r);
  }

  // ---------- each statement is a step of the oracle ----------

  /** The state with one unit's retry counter read off the tables. */
  function Retried(t: State<Key>, e: Tables, k: Key): State<Key> {
    if k in t.units && k in e.units
    then Put(t, k, Some(Under(t.units[k], HeadAttempts(TupleAt(e, k), |t.units[k].queue|))))
    else t
  }

  lemma RetriedInv(t: State<Key>, e: Tables, k: Key, clock: int)
    requires Inv(t, clock, clock) && (k in e.units ==> forall q :: q in RowsOf(e.tasks, k) ==> RowsOf(e.tasks, k)[q].attempts >= 0)
    ensures Inv(Retried(t, e, k), clock, clock)
  {
  }

  /** The tables agree with the oracle about the counter exactly when it reads the same. */
  lemma RetriedSame(t: State<Key>, e: Tables, k: Key)
    ensures Retried(t, e, k) == t <==>
              (k in t.units && k in e.units ==> t.units[k].attempts == HeadAttempts(TupleAt(e, k), |t.units[k].queue|))
  {
    if k in t.units && k in e.units {
      var a := HeadAttempts(TupleAt(e, k), |t.units[k].queue|);
      if t.units[k].attempts == a {
        assert t.units[k := Under(t.units[k], a)] == t.units;
      } else {
        assert Retried(t, e, k).units[k] != t.units[k];
      }
    }
  }

  lemma UnitKnown(d: Tables, s: State<Key>, clock: int, k: Key)
    requires Wf(d, s, clock) && k in s.units
    ensures k in d.units && Shown(TupleAt(d, k), s.units[k])
    ensures UnitInv(s.units[k], s.cfg, s.issued, clock, clock)
  {
    TupleShown(d, s, k);
  }

  lemma CostLives(d: Tables, s: State<Key>, clock: int, k: Key)
    requires Wf(d, s, clock) && k in s.units
    ensures k in d.units && Shown(TupleAt(d, k), s.units[k]) && s.units[k].pendingCost > 0
  {
    UnitKnown(d, s, clock, k);
    TotalPositive(s.units[k].queue);
  }

  lemma EnqueueSimulates(d: Tables, s: State<Key>, clock: int, k: Key, payload: string, cost: int, now: int)
    requires Wf(d, s, clock) && cost > 0 && clock <= now
    ensures Wf(EnqueueRows(d, k, payload, cost, s.cfg, now), Enqueue(s, k, payload, cost, now), now)
    ensures Upserted(d, k, payload, cost, s.cfg, now).row.nextSeq
              == UnitOf(s, k).nextSeq + Offset(Upserted(d, k, payload, cost, s.cfg, now), Enqueue(s, k, payload, cost, now).units[k])
  {
    EnqueueKeeps(s, k, payload, cost, clock, clock, now);
    UpsertShown(d, s, clock, k, payload, cost, now);
    UpsertStored(d, s, k, payload, cost, now);
  }

  lemma UpsertStored(d: Tables, s: State<Key>, k: Key, payload: string, cost: int, now: int)
    requires Shows(d, s) && Shown(Upserted(d, k, payload, cost, s.cfg, now), Push(UnitOf(s, k), payload, cost, now))
    ensures Shows(EnqueueRows(d, k, payload, cost, s.cfg, now), Enqueue(s, k, payload, cost, now))
  {
    StoredTuple(d, s, k, Upserted(d, k, payload, cost, s.cfg, now), Some(Push(UnitOf(s, k), payload, cost, now)), d.dead, s.dlq);
  }

  lemma UpsertShown(d: Tables, s: State<Key>, clock: int, k: Key, payload: string, cost: int, now: int)
    requires Wf(d, s, clock)
    ensures Shown(Upserted(d, k, payload, cost, s.cfg, now), Push(UnitOf(s, k), payload, cost, now))
  {
    if k in s.units {
      CostLives(d, s, clock, k);
      EnqueueShown(TupleAt(d, k), s.units[k], payload, cost, now);
    } else if k in d.units {
      TupleShown(d, s, k);
      ReviveShown(TupleAt(d, k), s.cfg, payload, cost, now);
    } else {
      InsertShown(payload, cost, s.cfg, now);
    }
  }

  lemma FreeIsClaimable(d: Tables, s: State<Key>, clock: int, k: Key)
    requires Wf(d, s, clock) && k in d.units
    ensures Free(d.units[k]) <==> Claimable(s, k)
    ensures k in s.units ==> d.units[k].flushDeadline == Some(s.units[k].flushDeadline)
  {
    TupleShown(d, s, k);
  }

  /** A row of least deadline is a unit of least deadline; no such row means nothing to hand out. */
  lemma PickIsOldest(d: Tables, s: State<Key>, clock: int)
    requires Wf(d, s, clock)
    ensures forall k :: Pickable(d, k) ==> Oldest(s, k)
    ensures (forall k :: k in d.units ==> !Free(d.units[k])) ==> NothingClaimable(s)
  {
    forall k | k in d.units
      ensures Free(d.units[k]) <==> Claimable(s, k)
      ensures k in s.units ==> d.units[k].flushDeadline == Some(s.units[k].flushDeadline)
    {
      FreeIsClaimable(d, s, clock, k);
    }
  }

  lemma ClaimSimulates(d: Tables, s: State<Key>, clock: int, k: Key, worker: string, token: string, ms: int, now: int)
    requires Wf(d, s, clock) && clock <= now && Pickable(d, k) && worker != "" && ms >= 0
    ensures Oldest(s, k) && Wf(ClaimRows(d, k, worker, token, ms, now), Grant(s, k, worker, token, ms, now), now)
  {
    PickIsOldest(d, s, clock);
    GrantKeeps(s, k, worker, token, ms, clock, clock, now);
    UnitKnown(d, s, clock, k);
    GrantStored(d, s, k, worker, token, ms, now);
  }

  lemma GrantStored(d: Tables, s: State<Key>, k: Key, worker: string, token: string, ms: int, now: int)
    requires Shows(d, s) && k in s.units && k in d.units && Shown(TupleAt(d, k), s.units[k])
    ensures Shows(ClaimRows(d, k, worker, token, ms, now), Grant(s, k, worker, token, ms, now))
  {
    LeaseShown(TupleAt(d, k), s.units[k], worker, token, ms, now);
    RowStored(d, s, k, LeasedRow(d.units[k], worker, token, ms, now), s.units[k].(lease := Some(Lease(worker, token, ms, now + ms))));
    var v := s.units[k].(lease := Some(Lease(worker, token, ms, now + ms)));
    ShowsIssued(ClaimRows(d, k, worker, token, ms, now), Put(s, k, Some(v)), s.issued + {token});
  }

  /** The tables do not record which tokens were handed out. */
  lemma ShowsIssued(d: Tables, s: State<Key>, issued: set<string>)
    requires Shows(d, s)
    ensures Shows(d, s.(issued := issued))
  {
    forall k | k in d.units ensures ShownAt(d, s.(issued := issued), k) {
      TupleShown(d, s, k);
    }
  }

  lemma HeldAgrees(d: Tables, s: State<Key>, c: Claimed<Key>)
    requires Shows(d, s)
    ensures HeldRow(d, c) <==> Held(s, c)
  {
    if c.key in d.units {
      TupleShown(d, s, c.key);
    }
  }

  lemma ReleaseSimulates(d: Tables, s: State<Key>, clock: int, c: Claimed<Key>, now: int)
    requires Wf(d, s, clock) && clock <= now && HeldRow(d, c)
    ensures Wf(ReleaseRows(d, c.key), Release(s, c), now)
  {
    HeldAgrees(d, s, c);
    ReleaseKeeps(s, c, clock, clock, now);
    UnitKnown(d, s, clock, c.key);
    ReleaseStored(d, s, c);
  }

  lemma ReleaseStored(d: Tables, s: State<Key>, c: Claimed<Key>)
    requires Shows(d, s) && Held(s, c) && c.key in d.units && Shown(TupleAt(d, c.key), s.units[c.key])
    ensures Shows(ReleaseRows(d, c.key), Release(s, c))
  {
    FreeShown(TupleAt(d, c.key), s.units[c.key]);
    RowStored(d, s, c.key, Freed(d.units[c.key]), s.units[c.key].(lease := None));
  }

  /** The oracle's heartbeat with the renewal window overwritten as well. */
  function Rewindowed(s: State<Key>, c: Claimed<Key>, extend: int, now: int): State<Key> {
    if !Held(s, c) then s else
    var u := s.units[c.key];
    Put(s, c.key, Some(u.(lease := Some(u.lease.value.(window := extend, expires := now + extend)))))
  }

  lemma HeartbeatSimulates(d: Tables, s: State<Key>, clock: int, c: Claimed<Key>, extend: int, now: int)
    requires Wf(d, s, clock) && clock <= now && HeldRow(d, c) && extend >= 0
    ensures Wf(HeartbeatRows(d, c.key, extend, now), Rewindowed(s, c, extend, now), now)
  {
    HeldAgrees(d, s, c);
    RewindowedInv(s, c, extend, clock, now);
    UnitKnown(d, s, clock, c.key);
    HeartbeatStored(d, s, c, extend, now);
  }

  lemma RewindowedInv(s: State<Key>, c: Claimed<Key>, extend: int, clock: int, now: int)
    requires Inv(s, clock, clock) && clock <= now && extend >= 0
    ensures Inv(Rewindowed(s, c, extend, now), now, now)
  {
    InvLater(s, clock, clock, now);
  }

  lemma HeartbeatStored(d: Tables, s: State<Key>, c: Claimed<Key>, extend: int, now: int)
    requires Shows(d, s) && Held(s, c) && c.key in d.units && Shown(TupleAt(d, c.key), s.units[c.key])
    ensures Shows(HeartbeatRows(d, c.key, extend, now), Rewindowed(s, c, extend, now))
  {
    var u := s.units[c.key];
    RowStored(d, s, c.key, ExtendedRow(d.units[c.key], extend, now),
              u.(lease := Some(u.lease.value.(window := extend, expires := now + extend))));
  }

  /** It is the oracle's own heartbeat exactly when it extends by the window of the claim. */
  lemma HeartbeatAgrees(s: State<Key>, c: Claimed<Key>, extend: int, now: int)
    requires Held(s, c)
    ensures Rewindowed(s, c, extend, now) == Heartbeat(s, c, extend, now) <==> extend == s.units[c.key].lease.value.window
  {
    var u := s.units[c.key];
    HeartbeatShape(s, c, extend, now);
    var v := u.(lease := Some(u.lease.value.(window := extend, expires := now + extend)));
    if extend == u.lease.value.window {
      assert Prolong(u, now + extend) == v;
    } else {
      assert Rewindowed(s, c, extend, now).units[c.key] == v && v != Prolong(u, now + extend);
      assert Heartbeat(s, c, extend, now).units[c.key] == Prolong(u, now + extend);
    }
  }

  /** The number the oracle knows a live sequence number of the table by. */
  function OracleSeq(d: Tables, s: State<Key>, k: Key, seqNo: int): int {
    if k in d.units && k in s.units then seqNo - Offset(TupleAt(d, k), s.units[k]) else seqNo
  }

  /** What the outcome of an acknowledgement rests on: the row shows what the oracle leaves, or is spent. */
  ghost predicate AckKnown(d: Tables, s: State<Key>, c: Claimed<Key>, through: int, upto: int, now: int) {
    && Held(s, c) && c.key in d.units
    && var y, v := AckTuple(TupleAt(d, c.key), through, now), AckUnit(s.units[c.key], upto, now);
       if v.Some? then ShownBut(y, v.value) else Spent(y, s.cfg)
  }

  lemma AckKnows(d: Tables, s: State<Key>, clock: int, c: Claimed<Key>, through: int, now: int)
    requires Wf(d, s, clock) && HeldRow(d, c)
    ensures AckKnown(d, s, c, through, OracleSeq(d, s, c.key, through), now)
  {
    HeldAgrees(d, s, c);
    UnitKnown(d, s, clock, c.key);
    var upto := OracleSeq(d, s, c.key, through);
    AckShown(TupleAt(d, c.key), s.units[c.key], through, upto, now, s.cfg, s.issued, clock);
  }

  function WithRetries(v: Option<Unit>, y: Tuple): Option<Unit> {
    if v.Some? then Some(Under(v.value, HeadAttempts(y, |v.value.queue|))) else None
  }

  lemma RetriedPut(s: State<Key>, k: Key, v: Option<Unit>, dlq: seq<DeadLetter<Key>>, e: Tables, y: Tuple)
    requires k in e.units && TupleAt(e, k) == y
    ensures Retried(Put(s, k, v).(dlq := dlq), e, k) == Put(s, k, WithRetries(v, y)).(dlq := dlq)
  {
    if v.Some? {
      assert s.units[k := v.value][k := WithRetries(v, y).value] == s.units[k := WithRetries(v, y).value];
    }
  }

  lemma AckStored(d: Tables, s: State<Key>, c: Claimed<Key>, through: int, upto: int, now: int)
    requires Shows(d, s) && AckKnown(d, s, c, through, upto, now)
    ensures var e := AckRows(d, c.key, through, now);
            Shows(e, Retried(Ack(s, c, upto, now), e, c.key)) && TupleAt(e, c.key) == AckTuple(TupleAt(d, c.key), through, now)
  {
    var y, v := AckTuple(TupleAt(d, c.key), through, now), AckUnit(s.units[c.key], upto, now);
    StoredTuple(d, s, c.key, y, WithRetries(v, y), d.dead, s.dlq);
    AckShape(s, c, upto, now);
    RetriedPut(s, c.key, v, s.dlq, AckRows(d, c.key, through, now), y);
  }

  lemma RetriedWf(e: Tables, t: State<Key>, k: Key, now: int)
    requires Shows(e, Retried(t, e, k)) && Inv(t, now, now) && now >= 0
    ensures Wf(e, Retried(t, e, k), now)
  {
    if k in e.units {
      TupleShown(e, Retried(t, e, k), k);
    }
    RetriedInv(t, e, k, now);
  }

  lemma AckWf(d: Tables, s: State<Key>, clock: int, c: Claimed<Key>, through: int, upto: int, now: int)
    requires Wf(d, s, clock) && clock <= now && AckKnown(d, s, c, through, upto, now)
    ensures var e := AckRows(d, c.key, through, now); Wf(e, Retried(Ack(s, c, upto, now), e, c.key), now)
  {
    AckStored(d, s, c, through, upto, now);
    AckKeepsAll(s, c, upto, clock, clock, now);
    RetriedWf(AckRows(d, c.key, through, now), Ack(s, c, upto, now), c.key, now);
  }

  lemma AckReplies(d: Tables, s: State<Key>, c: Claimed<Key>, through: int, upto: int, now: int)
    requires AckKnown(d, s, c, through, upto, now)
    ensures AckOutcome(s, c, upto, now) == Ok(AckRows(d, c.key, through, now).units[c.key].claimedBy.Some?)
  {
    AckShape(s, c, upto, now);
  }

  /** The oracle's acknowledgement; only the retry counter may differ, which the table keeps per task. */
  lemma AckSimulates(d: Tables, s: State<Key>, clock: int, c: Claimed<Key>, through: int, now: int)
    requires Wf(d, s, clock) && clock <= now && HeldRow(d, c)
    ensures var e, t := AckRows(d, c.key, through, now), Ack(s, c, OracleSeq(d, s, c.key, through), now);
            && Wf(e, Retried(t, e, c.key), now)
            && AckOutcome(s, c, OracleSeq(d, s, c.key, through), now) == Ok(e.units[c.key].claimedBy.Some?)
  {
    AckKnows(d, s, clock, c, through, now);
    AckWf(d, s, clock, c, through, OracleSeq(d, s, c.key, through), now);
    AckReplies(d, s, c, through, OracleSeq(d, s, c.key, through), now);
  }

  /** Which of the oracle's steps a failure is: a failure of the head, or else a mere release. */
  function FailState(s: State<Key>, c: Claimed<Key>, head: bool, upto: int, reason: string, now: int): State<Key> {
    if head then Fail(s, c, upto, reason, now) else Release(s, c)
  }

  predicate IsHead(d: Tables, s: State<Key>, k: Key, seqNo: int) {
    k in d.units && k in s.units && seqNo == d.units[k].nextSeq + 1 - |s.units[k].queue|
  }

  lemma HeadIsLeast(x: Tuple, u: Unit, seqNo: int, cap: int)
    requires Shown(x, u) && Contiguous(u)
    ensures var head := seqNo == x.row.nextSeq + 1 - |u.queue|;
            && (head <==> u.queue[0].task.seqNo == seqNo - Offset(x, u))
            && (AtCap(x, seqNo, cap) <==> head && u.attempts + 1 >= cap)
  {
    var first := HeadRow(x.rows, x.row.nextSeq, u.queue);
    var f := CountFailure(x, seqNo);
    assert first in f.rows;
    forall q | q in f.rows ensures first <= q {
      assert 0 <= Place(q, x.row.nextSeq, |u.queue|);
    }
  }

  lemma FailStateKeeps(s: State<Key>, c: Claimed<Key>, head: bool, upto: int, reason: string, clock: int, now: int)
    requires Inv(s, clock, clock) && clock <= now
    ensures Inv(FailState(s, c, head, upto, reason, now), now, now)
  {
    if head {
      FailKeepsAll(s, c, upto, reason, clock, clock, now);
    } else {
      ReleaseKeeps(s, c, clock, clock, now);
    }
  }

  /** The tuple of the unit once its head was buried. */
  ghost predicate Buried(x: Tuple, u: Unit, seqNo: int, now: int, cfg: Config) {
    var f := CountFailure(x, seqNo);
    seqNo in f.rows && |u.queue| > 0
    && f.rows[seqNo].cost == u.queue[0].task.cost && f.rows[seqNo].payload == u.queue[0].task.payload
    && var y := BuryTuple(f, seqNo, f.rows[seqNo].cost, now);
       if |u.queue| == 1 then Spent(y, cfg) else ShownBut(y, Refresh(Drop(u, 1), now).(lease := None))
  }

  lemma BuryKnown(d: Tables, s: State<Key>, clock: int, c: Claimed<Key>, seqNo: int, now: int)
    requires Wf(d, s, clock) && Held(s, c) && c.key in d.units && IsHead(d, s, c.key, seqNo)
    ensures Buried(TupleAt(d, c.key), s.units[c.key], seqNo, now, s.cfg)
  {
    UnitKnown(d, s, clock, c.key);
    var x, u := TupleAt(d, c.key), s.units[c.key];
    FailureShown(x, u, seqNo);
    var w := Under(u, u.attempts + 1);
    BuryDrops(CountFailure(x, seqNo), w, seqNo, now);
    BuryShown(CountFailure(x, seqNo), w, seqNo, now, s.cfg, s.issued, clock);
    assert Drop(w, 1) == Drop(u, 1);
  }

  /** What the outcome of a failure rests on: whether it buries the head is the same for rows and unit. */
  ghost predicate FailKnown(d: Tables, s: State<Key>, c: Claimed<Key>, seqNo: int, upto: int, now: int) {
    && Held(s, c) && c.key in d.units && Shown(TupleAt(d, c.key), s.units[c.key])
    && var x, u := TupleAt(d, c.key), s.units[c.key];
       if AtCap(x, seqNo, s.cfg.maxAttempts)
       then IsHead(d, s, c.key, seqNo) && Poison(u, upto, s.cfg.maxAttempts) && Buried(x, u, seqNo, now, s.cfg)
       else IsHead(d, s, c.key, seqNo) ==> !Poison(u, upto, s.cfg.maxAttempts)
  }

  lemma FailKnows(d: Tables, s: State<Key>, clock: int, c: Claimed<Key>, seqNo: int, now: int)
    requires Wf(d, s, clock) && HeldRow(d, c)
    ensures FailKnown(d, s, c, seqNo, OracleSeq(d, s, c.key, seqNo), now)
  {
    HeldAgrees(d, s, c);
    UnitKnown(d, s, clock, c.key);
    HeadIsLeast(TupleAt(d, c.key), s.units[c.key], seqNo, s.cfg.maxAttempts);
    if AtCap(TupleAt(d, c.key), seqNo, s.cfg.maxAttempts) {
      BuryKnown(d, s, clock, c, seqNo, now);
    }
  }

  lemma BuryStored(d: Tables, s: State<Key>, c: Claimed<Key>, seqNo: int, upto: int, reason: string, now: int)
    requires Shows(d, s) && Held(s, c) && c.key in d.units && IsHead(d, s, c.key, seqNo)
    requires AtCap(TupleAt(d, c.key), seqNo, s.cfg.maxAttempts) && Buried(TupleAt(d, c.key), s.units[c.key], seqNo, now, s.cfg)
    requires Poison(s.units[c.key], upto, s.cfg.maxAttempts)
    ensures var e := FailRows(d, c.key, seqNo, reason, s.cfg.maxAttempts, now);
            Shows(e, Retried(Fail(s, c, upto, reason, now), e, c.key))
  {
    var k, u, f := c.key, s.units[c.key], CountFailure(TupleAt(d, c.key), seqNo);
    var y := BuryTuple(f, seqNo, f.rows[seqNo].cost, now);
    var v := FailUnit(u, upto, s.cfg.maxAttempts, now);
    var dead, dlq := d.dead + [DeadRow(k, seqNo, f.rows[seqNo], reason)], s.dlq + [DeadLetter(k, u.queue[0].task, reason)];
    StoredTuple(d, s, k, y, WithRetries(v, y), dead, dlq);
    FailShape(s, c, upto, reason, now);
    RetriedPut(s, k, v, dlq, FailRows(d, k, seqNo, reason, s.cfg.maxAttempts, now), y);
  }

  lemma RetryStored(d: Tables, s: State<Key>, c: Claimed<Key>, seqNo: int, upto: int, reason: string, now: int)
    requires Shows(d, s) && Held(s, c) && c.key in d.units && Shown(TupleAt(d, c.key), s.units[c.key])
    requires !AtCap(TupleAt(d, c.key), seqNo, s.cfg.maxAttempts)
    requires IsHead(d, s, c.key, seqNo) ==> !Poison(s.units[c.key], upto, s.cfg.maxAttempts)
    ensures var e := FailRows(d, c.key, seqNo, reason, s.cfg.maxAttempts, now);
            Shows(e, Retried(FailState(s, c, IsHead(d, s, c.key, seqNo), upto, reason, now), e, c.key))
  {
    var k, x, u := c.key, TupleAt(d, c.key), s.units[c.key];
    var head := IsHead(d, s, k, seqNo);
    FailureShown(x, u, seqNo);
    var w := Under(u, if head then u.attempts + 1 else u.attempts);
    FreeShown(CountFailure(x, seqNo), w);
    var y := CountFailure(x, seqNo).(row := Freed(x.row));
    StoredTuple(d, s, k, y, Some(w.(lease := None)), d.dead, s.dlq);
    FailShape(s, c, upto, reason, now);
    RetriedSame(FailState(s, c, head, upto, reason, now), FailRows(d, k, seqNo, reason, s.cfg.maxAttempts, now), k);
  }

  lemma FailStored(d: Tables, s: State<Key>, c: Claimed<Key>, seqNo: int, upto: int, reason: string, now: int)
    requires Shows(d, s) && FailKnown(d, s, c, seqNo, upto, now)
    ensures var e := FailRows(d, c.key, seqNo, reason, s.cfg.maxAttempts, now);
            Shows(e, Retried(FailState(s, c, IsHead(d, s, c.key, seqNo), upto, reason, now), e, c.key))
  {
    if AtCap(TupleAt(d, c.key), seqNo, s.cfg.maxAttempts) {
      BuryStored(d, s, c, seqNo, upto, reason, now);
    } else {
      RetryStored(d, s, c, seqNo, upto, reason, now);
    }
  }

  lemma FailSimulates(d: Tables, s: State<Key>, clock: int, c: Claimed<Key>, seqNo: int, reason: string, now: int)
    requires Wf(d, s, clock) && clock <= now && HeldRow(d, c)
    ensures var e := FailRows(d, c.key, seqNo, reason, s.cfg.maxAttempts, now);
            var t := FailState(s, c, IsHead(d, s, c.key, seqNo), OracleSeq(d, s, c.key, seqNo), reason, now);
            Wf(e, Retried(t, e, c.key), now)
  {
    var upto := OracleSeq(d, s, c.key, seqNo);
    FailKnows(d, s, clock, c, seqNo, now);
    FailStateKeeps(s, c, IsHead(d, s, c.key, seqNo), upto, reason, clock, now);
    FailStored(d, s, c, seqNo, upto, reason, now);
    RetriedWf(FailRows(d, c.key, seqNo, reason, s.cfg.maxAttempts, now),
              FailState(s, c, IsHead(d, s, c.key, seqNo), upto, reason, now), c.key, now);
  }

  // ---------- sweeping ----------

  lemma SweptTuple(d: Tables, k: Key, bound: int)
    requires k in d.units
    ensures TupleAt(SweepRows(d, bound), k) == TupleAt(d, k).(row := SweptRow(d.units[k], bound))
  {
  }

  lemma SweepShowsAt(d: Tables, s: State<Key>, clock: int, k: Key, bound: int)
    requires Wf(d, s, clock) && k in d.units
    ensures ShownAt(SweepRows(d, bound), Reap(s, bound, bound), k)
    ensures LeaseOver(d.units[k], bound) <==> k in Reclaimed(s, bound)
    ensures Flushes(if LeaseOver(d.units[k], bound) then Freed(d.units[k]) else d.units[k], bound) <==> k in Flushed(s, bound, bound)
  {
    SweptTuple(d, k, bound);
    if k in s.units {
      CostLives(d, s, clock, k);
      SweepShown(TupleAt(d, k), s.units[k], bound);
    } else {
      TupleShown(d, s, k);
      SweepSpent(TupleAt(d, k), s.cfg, bound);
    }
  }

  lemma SweepStored(d: Tables, s: State<Key>, bound: int)
    requires Shows(d, s) && forall k :: k in d.units ==> ShownAt(SweepRows(d, bound), Reap(s, bound, bound), k)
    ensures Shows(SweepRows(d, bound), Reap(s, bound, bound))
  {
  }

  /** Two updates over all rows are the oracle's sweep, and count what it counts. */
  lemma SweepSimulates(d: Tables, s: State<Key>, clock: int, bound: int, now: int)
    requires Wf(d, s, clock) && clock <= now && bound <= now
    ensures Wf(SweepRows(d, bound), Reap(s, bound, bound), now)
    ensures LapsedRows(d, bound) == Reclaimed(s, bound) && FlushedRows(d, bound) == Flushed(s, bound, bound)
  {
    ReapKeeps(s, bound, bound, clock, clock, now);
    forall k | k in d.units ensures ShownAt(SweepRows(d, bound), Reap(s, bound, bound), k) {
      SweepShowsAt(d, s, clock, k, bound);
    }
    SweepStored(d, s, bound);
    SweepCounts(d, s, clock, bound);
  }

  lemma SweepCounts(d: Tables, s: State<Key>, clock: int, bound: int)
    requires Wf(d, s, clock)
    ensures LapsedRows(d, bound) == Reclaimed(s, bound) && FlushedRows(d, bound) == Flushed(s, bound, bound)
  {
    forall k
      ensures k in LapsedRows(d, bound) <==> k in Reclaimed(s, bound)
      ensures k in FlushedRows(d, bound) <==> k in Flushed(s, bound, bound)
    {
      if k in d.units {
        SweepShowsAt(d, s, clock, k, bound);
      }
    }
  }

  // ---------- the aggregate and the look-ahead ----------

  /** The maintained aggregate of every unit is the sum a scan of the tasks relation would find. */
  lemma AggregateIsSum(d: Tables, s: State<Key>, clock: int, k: Key)
    requires Wf(d, s, clock) && k in d.units
    ensures d.units[k].pendingCost == SumCost(RowsOf(d.tasks, k))
  {
    TupleShown(d, s, k);
    if k in s.units {
      UnitKnown(d, s, clock, k);
      SumOfRun(RowsOf(d.tasks, k), d.units[k].nextSeq, s.units[k].queue);
    } else {
      assert Costs(RowsOf(d.tasks, k)) == map[];
    }
  }

  /**
   Every unit whose tasks sum up to the threshold is flagged eligible, and any other flagged unit has
   a head that has waited its full time.
   */
  lemma LookAhead(d: Tables, s: State<Key>, clock: int, k: Key)
    requires Wf(d, s, clock) && k in d.units
    ensures SumCost(RowsOf(d.tasks, k)) >= d.units[k].threshold ==> d.units[k].eligible
    ensures d.units[k].eligible && SumCost(RowsOf(d.tasks, k)) < d.units[k].threshold ==>
              && MinTime(RowsOf(d.tasks, k)).Some?
              && MinTime(RowsOf(d.tasks, k)).value + d.units[k].maxWait <= clock
  {
    AggregateIsSum(d, s, clock, k);
    TupleShown(d, s, k);
    if k in s.units {
      UnitKnown(d, s, clock, k);
      MinOfRun(RowsOf(d.tasks, k), d.units[k].nextSeq, s.units[k].queue, clock);
    }
  }
}
