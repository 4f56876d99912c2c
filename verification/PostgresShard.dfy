/** One Postgres primary: its tables updated in place, one statement or transaction at a time. */
module PostgresShard {
  import opened Contract
  import opened Oracle
  import opened Invariant
  import opened PostgresRows
  import opened PostgresTables
  import opened Sums

  // ---------- aggregates, computed by scanning ----------

  lemma Member<T>(s: set<T>) returns (x: T)
    requires s != {}
    ensures x in s
  {
    x :| x in s;
  }

  method Summed(rows: map<int, TaskRow>) returns (sum: int)
    ensures sum == SumCost(rows)
  {
    sum := 0;
    var rest := rows.Keys;
    assert Restricted(Costs(rows), rest) == Costs(rows);
    while rest != {}
      invariant rest <= rows.Keys && sum == SumCost(rows) - Sum(Restricted(Costs(rows), rest))
      decreases rest
    {
      ghost var some := Member(rest);
      var q :| q in rest;
      SumAt(Restricted(Costs(rows), rest), q);
      assert Restricted(Costs(rows), rest) - {q} == Restricted(Costs(rows), rest - {q});
      sum := sum + rows[q].cost;
      rest := rest - {q};
    }
    assert Restricted(Costs(rows), {}) == map[];
  }

  ghost function Restricted(m: map<int, int>, keys: set<int>): map<int, int> {
    map q | q in m && q in keys :: m[q]
  }

  method Earliest(rows: map<int, TaskRow>) returns (min: Option<int>)
    ensures min == MinTime(rows)
  {
    min := None;
    var rest := rows.Keys;
    while rest != {}
      invariant rest <= rows.Keys && (min.None? <==> rest == rows.Keys)
      invariant min.Some? ==> exists q :: q in rows && rows[q].enqueuedAt == min.value
      invariant forall q :: q in rows && q !in rest ==> min.Some? && min.value <= rows[q].enqueuedAt
      decreases rest
    {
      ghost var some := Member(rest);
      var q :| q in rest;
      if min.None? || rows[q].enqueuedAt < min.value {
        min := Some(rows[q].enqueuedAt);
      }
      rest := rest - {q};
    }
    if min.Some? {
      var q :| q in rows && rows[q].enqueuedAt == min.value;
      assert q in Times(rows);
      IsLeastUnique(Times(rows), MinTime(rows).value, min.value);
    }
  }

  method Lowest(rows: map<int, TaskRow>) returns (min: int)
    requires rows != map[]
    ensures LeastSeq(rows, min)
  {
    var rest := rows.Keys;
    ghost var some := Member(rest);
    min :| min in rest;
    rest := rest - {min};
    while rest != {}
      invariant rest <= rows.Keys && min in rows && forall q :: q in rows && q !in rest ==> min <= q
      decreases rest
    {
      ghost var some := Member(rest);
      var q :| q in rest;
      if q < min {
        min := q;
      }
      rest := rest - {q};
    }
  }

  // ---------- flat updates are updates of one unit's rows ----------

  lemma FlatInsert(tasks: map<(Key, int), TaskRow>, k: Key, q: int, t: TaskRow)
    ensures tasks[(k, q) := t] == PutRows(tasks, k, RowsOf(tasks, k)[q := t])
  {
    var rows := RowsOf(tasks, k)[q := t];
    forall p
      ensures p in tasks[(k, q) := t] <==> p in PutRows(tasks, k, rows)
      ensures p in PutRows(tasks, k, rows) ==> PutRows(tasks, k, rows)[p] == tasks[(k, q) := t][p]
    {
      InPut(tasks, k, rows, p);
      InRows(tasks, p.0, p.1);
      assert p == (p.0, p.1);
    }
    SameTasks(tasks[(k, q) := t], PutRows(tasks, k, rows));
  }

  lemma FlatDelete(tasks: map<(Key, int), TaskRow>, k: Key, gone: set<(Key, int)>, kept: map<int, TaskRow>)
    requires forall p :: p in gone ==> p in tasks && p.0 == k
    requires forall q :: q in kept <==> q in RowsOf(tasks, k) && (k, q) !in gone
    requires forall q :: q in kept ==> kept[q] == RowsOf(tasks, k)[q]
    ensures tasks - gone == PutRows(tasks, k, kept)
  {
    forall p
      ensures p in tasks - gone <==> p in PutRows(tasks, k, kept)
      ensures p in PutRows(tasks, k, kept) ==> PutRows(tasks, k, kept)[p] == (tasks - gone)[p]
    {
      InPut(tasks, k, kept, p);
      InRows(tasks, p.0, p.1);
      assert p == (p.0, p.1);
    }
    SameTasks(tasks - gone, PutRows(tasks, k, kept));
  }

  lemma FlatSame(tasks: map<(Key, int), TaskRow>, k: Key)
    ensures PutRows(tasks, k, RowsOf(tasks, k)) == tasks
  {
    FlatDelete(tasks, k, {}, RowsOf(tasks, k));
    assert tasks - {} == tasks;
  }

  ghost predicate Linked(d: Tables) {
    forall p :: p in d.tasks ==> p.0 in d.units
  }

  lemma NoRowsOf(d: Tables, k: Key)
    requires Linked(d) && k !in d.units
    ensures RowsOf(d.tasks, k) == map[]
  {
    forall q ensures q !in RowsOf(d.tasks, k) {
      InRows(d.tasks, k, q);
    }
  }

  // ---------- draining ----------

  predicate IsRow(t: Task, rows: map<int, TaskRow>) {
    t.seqNo in rows && t.payload == rows[t.seqNo].payload && t.cost == rows[t.seqNo].cost
  }

  /** ORDER BY seq LIMIT max: the lowest numbered rows, in order. */
  ghost predicate Selected(out: seq<Task>, rows: map<int, TaskRow>, max: nat) {
    && |out| == Min(max, |rows|)
    && Ascending(out, rows)
    && (forall i, q :: 0 <= i < |out| && q in rows && q !in Seqs(out) ==> out[i].seqNo < q)
  }

  ghost function Seqs(out: seq<Task>): set<int> {
    set i | 0 <= i < |out| :: out[i].seqNo
  }

  class Database {
    var units: map<Key, Row>
    var tasks: map<(Key, int), TaskRow>
    var dead: seq<DeadRow>

    ghost function Rel(): Tables
      reads this
    {
      Tables(units, tasks, dead)
    }

    constructor ()
      ensures Rel() == NewTables()
    {
      units, tasks, dead := map[], map[], [];
    }

    method Enqueue(k: Key, payload: string, cost: int, cfg: Config, now: int) returns (seqNo: int)
      requires Linked(Rel())
      modifies this
      ensures Rel() == EnqueueRows(old(Rel()), k, payload, cost, cfg, now)
      ensures seqNo == Upserted(old(Rel()), k, payload, cost, cfg, now).row.nextSeq
    {
      ghost var d := Rel();
      if k !in units {
        NoRowsOf(d, k);
      }
      seqNo := UpsertUnit(k, cost, cfg, now);
      FlatInsert(tasks, k, seqNo, TaskRow(payload, cost, 0, now));
      tasks := tasks[(k, seqNo) := TaskRow(payload, cost, 0, now)];
    }

    /** INSERT ... ON CONFLICT DO UPDATE ... RETURNING next_seq; every expression reads the old row. */
    method UpsertUnit(k: Key, cost: int, cfg: Config, now: int) returns (nextSeq: int)
      modifies this`units
      ensures units == old(units)[k :=
                if k in old(units) then ConflictRow(old(units)[k], cost, now)
                else InsertedRow(cost, cfg.threshold, cfg.maxWait, now)]
      ensures nextSeq == units[k].nextSeq
    {
      var row;
      if k !in units {
        row := Row(cost, 0, cfg.threshold, cfg.maxWait, cost >= cfg.threshold, None, None, 0, None, Some(now), Some(now + cfg.maxWait));
      } else {
        row := units[k];
        row := row.(pendingCost := row.pendingCost + cost,
                    nextSeq := row.nextSeq + 1,
                    eligible := row.pendingCost + cost >= row.threshold || row.eligible,
                    oldest := if row.pendingCost == 0 then Some(now) else row.oldest,
                    flushDeadline := if row.pendingCost == 0 then Some(now + row.maxWait) else row.flushDeadline);
      }
      units := units[k := row];
      nextSeq := row.nextSeq;
    }

    /** The free eligible rows already looked at, and the best of them. */
    ghost predicate BestSoFar(best: Option<Key>, rest: set<Key>)
      reads this
    {
      && (best.Some? ==> best.value in units && Free(units[best.value]))
      && forall j :: j in units && j !in rest && Free(units[j]) ==>
           best.Some? && NotLater(units[best.value].flushDeadline, units[j].flushDeadline)
    }

    method Pick() returns (best: Option<Key>)
      ensures best.None? ==> forall k :: k in units ==> !Free(units[k])
      ensures best.Some? ==> Pickable(Rel(), best.value)
    {
      best := None;
      var rest := units.Keys;
      while rest != {}
        invariant rest <= units.Keys && BestSoFar(best, rest)
        decreases rest
      {
        var k :| k in rest;
        if units[k].eligible && units[k].claimedBy.None? {
          if best.None? || !NotLater(units[best.value].flushDeadline, units[k].flushDeadline) {
            best := Some(k);
          }
        }
        rest := rest - {k};
      }
    }

    method Claim(worker: string, token: string, ms: int, now: int) returns (r: Option<Claimed<Key>>)
      modifies this`units
      ensures r.None? ==> Rel() == old(Rel()) && forall k :: k in units ==> !Free(units[k])
      ensures r.Some? ==> Pickable(old(Rel()), r.value.key) && r.value == Claimed(r.value.key, worker, token, now + ms) &&
                          Rel() == ClaimRows(old(Rel()), r.value.key, worker, token, ms, now)
    {
      var best := Pick();
      if best.None? {
        return None;
      }
      var k := best.value;
      units := units[k := units[k].(claimedBy := Some(worker), leaseToken := Some(token),
                                    leaseMs := ms, leaseExpires := Some(now + ms))];
      r := Some(Claimed(k, worker, token, now + ms));
    }

    method CheckLease(c: Claimed<Key>) returns (held: bool)
      ensures held == HeldRow(Rel(), c)
    {
      held := c.key in units && units[c.key].claimedBy == Some(c.worker) && units[c.key].leaseToken == Some(c.token);
    }

    method Drain(c: Claimed<Key>, max: nat) returns (r: Outcome<seq<Task>>)
      ensures r.Ok? <==> HeldRow(Rel(), c)
      ensures r.Ok? ==> Selected(r.value, RowsOf(tasks, c.key), max)
    {
      var held := CheckLease(c);
      if !held {
        return LeaseLost;
      }
      var out := Select(RowsOf(tasks, c.key), max);
      r := Ok(out);
    }

    method Ack(c: Claimed<Key>, through: int, now: int) returns (r: Outcome<bool>)
      modifies this
      ensures !HeldRow(old(Rel()), c) ==> r == LeaseLost && Rel() == old(Rel())
      ensures HeldRow(old(Rel()), c) ==>
                Rel() == AckRows(old(Rel()), c.key, through, now) && r == Ok(units[c.key].claimedBy.Some?)
    {
      var held := CheckLease(c);
      if !held {
        return LeaseLost;
      }
      var acked, head := DeleteThrough(c.key, through);
      var stillHeld := Recompute(c, acked, head, now);
      r := Ok(stillHeld);
    }

    /** DELETE ... RETURNING cost, summed; and the head over the rows that remain. */
    method DeleteThrough(k: Key, through: int) returns (acked: int, head: Option<int>)
      modifies this`tasks
      ensures tasks == PutRows(old(tasks), k, Beyond(RowsOf(old(tasks), k), through))
      ensures acked == SumCost(UpTo(RowsOf(old(tasks), k), through)) && head == MinTime(Beyond(RowsOf(old(tasks), k), through))
    {
      var rows := RowsOf(tasks, k);
      acked := Summed(UpTo(rows, through));
      head := Earliest(Beyond(rows, through));
      var gone := set p | p in tasks && p.0 == k && p.1 <= through;
      BeyondIsRest(tasks, k, through, gone);
      FlatDelete(tasks, k, gone, Beyond(rows, through));
      tasks := tasks - gone;
    }

    /** The unit's row after its acknowledgement: keep the lease, renewed, or give it up. */
    method Recompute(c: Claimed<Key>, acked: int, head: Option<int>, now: int) returns (keep: bool)
      requires HeldRow(Rel(), c)
      modifies this`units
      ensures units == old(units)[c.key := KeepOrFree(Tuple(HeadedRow(old(units)[c.key], acked, head, now), map[]), now).row]
      ensures keep == units[c.key].claimedBy.Some?
    {
      var row := units[c.key];
      keep := row.pendingCost - acked >= row.threshold || (head.Some? && head.value + row.maxWait <= now);
      row := row.(pendingCost := row.pendingCost - acked,
                  oldest := head,
                  flushDeadline := if head.Some? then Some(head.value + row.maxWait) else None,
                  eligible := keep,
                  claimedBy := if keep then Some(c.worker) else None,
                  leaseToken := if keep then Some(c.token) else None,
                  leaseExpires := if keep then Some(now + row.leaseMs) else None);
      units := units[c.key := row];
    }

    method Release(c: Claimed<Key>) returns (r: Outcome<()>)
      modifies this`units
      ensures !HeldRow(old(Rel()), c) ==> r == LeaseLost && Rel() == old(Rel())
      ensures HeldRow(old(Rel()), c) ==> r == Ok(()) && Rel() == ReleaseRows(old(Rel()), c.key)
    {
      var held := CheckLease(c);
      if !held {
        return LeaseLost;
      }
      units := units[c.key := units[c.key].(claimedBy := None, leaseToken := None, leaseExpires := None)];
      r := Ok(());
    }

    method Heartbeat(c: Claimed<Key>, extend: int, now: int) returns (r: Outcome<()>)
      modifies this`units
      ensures !HeldRow(old(Rel()), c) ==> r == LeaseLost && Rel() == old(Rel())
      ensures HeldRow(old(Rel()), c) ==> r == Ok(()) && Rel() == HeartbeatRows(old(Rel()), c.key, extend, now)
    {
      var held := CheckLease(c);
      if !held {
        return LeaseLost;
      }
      units := units[c.key := units[c.key].(leaseMs := extend, leaseExpires := Some(now + extend))];
      r := Ok(());
    }

    method Fail(c: Claimed<Key>, seqNo: int, reason: string, cap: int, now: int) returns (r: Outcome<()>)
      modifies this
      ensures !HeldRow(old(Rel()), c) ==> r == LeaseLost && Rel() == old(Rel())
      ensures HeldRow(old(Rel()), c) ==> r == Ok(()) && Rel() == FailRows(old(Rel()), c.key, seqNo, reason, cap, now)
    {
      var held := CheckLease(c);
      if !held {
        return LeaseLost;
      }
      ghost var d := Rel();
      CountOne(c.key, seqNo);
      var atCap := false;
      if (c.key, seqNo) in tasks && tasks[(c.key, seqNo)].attempts >= cap {
        var head := Lowest(RowsOf(tasks, c.key));
        atCap := seqNo == head;
      }
      ghost var f := CountFailure(TupleAt(d, c.key), seqNo);
      PutTwice(d.tasks, c.key, f.rows);
      if atCap {
        Bury(c.key, seqNo, reason, now);
      } else {
        units := units[c.key := units[c.key].(claimedBy := None, leaseToken := None, leaseExpires := None)];
      }
      r := Ok(());
    }

    method CountOne(k: Key, seqNo: int)
      requires k in units
      modifies this`tasks
      ensures tasks == PutRows(old(tasks), k, CountFailure(TupleAt(old(Rel()), k), seqNo).rows)
      ensures RowsOf(tasks, k) == CountFailure(TupleAt(old(Rel()), k), seqNo).rows
    {
      InRows(tasks, k, seqNo);
      PutGets(tasks, k, CountFailure(TupleAt(Rel(), k), seqNo).rows);
      if (k, seqNo) in tasks {
        var t := tasks[(k, seqNo)];
        FlatInsert(tasks, k, seqNo, t.(attempts := t.attempts + 1));
        tasks := tasks[(k, seqNo) := t.(attempts := t.attempts + 1)];
      } else {
        FlatSame(tasks, k);
      }
    }

    /** Move one row to the dead letters and bring the unit up to date, released. */
    method Bury(k: Key, seqNo: int, reason: string, now: int)
      requires k in units && seqNo in RowsOf(tasks, k)
      modifies this
      ensures var x := TupleAt(old(Rel()), k);
              Rel() == SetTuple(old(Rel()), k, BuryTuple(x, seqNo, x.rows[seqNo].cost, now))
                         .(dead := old(dead) + [DeadRow(k, seqNo, x.rows[seqNo], reason)])
    {
      InRows(tasks, k, seqNo);
      var moved := tasks[(k, seqNo)];
      var head := Earliest(RowsOf(tasks, k) - {seqNo});
      FlatDelete(tasks, k, {(k, seqNo)}, RowsOf(tasks, k) - {seqNo});
      tasks := tasks - {(k, seqNo)};
      dead := dead + [DeadRow(k, seqNo, moved, reason)];
      var row := units[k];
      var left := row.pendingCost - moved.cost;
      row := row.(pendingCost := left,
                  oldest := head,
                  flushDeadline := if head.Some? then Some(head.value + row.maxWait) else None,
                  eligible := left >= row.threshold || (head.Some? && head.value + row.maxWait <= now),
                  claimedBy := None, leaseToken := None, leaseExpires := None);
      units := units[k := row];
    }

    /** Two updates over the whole table: reclaim what lapsed, then flag what is due. */
    method ReapExpired(now: int) returns (reclaimed: nat, flushed: nat)
      modifies this`units
      ensures Rel() == SweepRows(old(Rel()), now)
      ensures reclaimed == |LapsedRows(old(Rel()), now)| && flushed == |FlushedRows(old(Rel()), now)|
    {
      ghost var d := Rel();
      reclaimed := Reclaim(now);
      flushed := Flush(now);
      FlushAfter(d, Rel(), now);
    }

    method Reclaim(now: int) returns (count: nat)
      modifies this`units
      ensures units == map k | k in old(units) :: if LeaseOver(old(units)[k], now) then Freed(old(units)[k]) else old(units)[k]
      ensures count == |LapsedRows(old(Rel()), now)|
    {
      var lapsed := set k | k in units && units[k].claimedBy.Some? && units[k].leaseExpires.Some? && units[k].leaseExpires.value < now;
      assert lapsed == LapsedRows(Rel(), now);
      units := map k | k in units ::
        if k in lapsed then units[k].(claimedBy := None, leaseToken := None, leaseExpires := None) else units[k];
      count := |lapsed|;
    }

    method Flush(now: int) returns (count: nat)
      modifies this`units
      ensures units == map k | k in old(units) :: if Flushes(old(units)[k], now) then old(units)[k].(eligible := true) else old(units)[k]
      ensures count == |set k | k in old(units) && Flushes(old(units)[k], now)|
    {
      var due := set k | k in units && !units[k].eligible && units[k].claimedBy.None? &&
                         units[k].flushDeadline.Some? && units[k].flushDeadline.value <= now && units[k].pendingCost > 0;
      assert due == set k | k in units && Flushes(units[k], now);
      units := map k | k in units :: if k in due then units[k].(eligible := true) else units[k];
      count := |due|;
    }
  }

  lemma FlushAfter(d: Tables, e: Tables, now: int)
    requires var mid := map k | k in d.units :: if LeaseOver(d.units[k], now) then Freed(d.units[k]) else d.units[k];
             && e == d.(units := map k | k in mid :: if Flushes(mid[k], now) then mid[k].(eligible := true) else mid[k])
    ensures e == SweepRows(d, now)
    ensures var mid := map k | k in d.units :: if LeaseOver(d.units[k], now) then Freed(d.units[k]) else d.units[k];
            (set k | k in mid && Flushes(mid[k], now)) == FlushedRows(d, now)
  {
  }

  lemma BeyondIsRest(tasks: map<(Key, int), TaskRow>, k: Key, through: int, gone: set<(Key, int)>)
    requires gone == set p | p in tasks && p.0 == k && p.1 <= through
    ensures forall q :: q in Beyond(RowsOf(tasks, k), through) <==> q in RowsOf(tasks, k) && (k, q) !in gone
  {
    forall q ensures q in RowsOf(tasks, k) ==> (q <= through <==> (k, q) in gone) {
      InRows(tasks, k, q);
    }
  }

  lemma PutTwice(tasks: map<(Key, int), TaskRow>, k: Key, rows: map<int, TaskRow>)
    ensures forall more :: PutRows(PutRows(tasks, k, rows), k, more) == PutRows(tasks, k, more)
  {
    forall more ensures PutRows(PutRows(tasks, k, rows), k, more) == PutRows(tasks, k, more) {
      var once := PutRows(tasks, k, rows);
      forall p
        ensures p in PutRows(once, k, more) <==> p in PutRows(tasks, k, more)
        ensures p in PutRows(tasks, k, more) ==> PutRows(once, k, more)[p] == PutRows(tasks, k, more)[p]
      {
        InPut(tasks, k, rows, p);
        InPut(once, k, more, p);
        InPut(tasks, k, more, p);
      }
      SameTasks(PutRows(once, k, more), PutRows(tasks, k, more));
    }
  }

  method Select(rows: map<int, TaskRow>, max: nat) returns (out: seq<Task>)
    ensures Selected(out, rows, max)
  {
    out := [];
    var rest := rows;
    while |out| < max && rest != map[]
      invariant |out| <= max && |out| + |rest| == |rows|
      invariant Remain(rest, rows, out) && Ascending(out, rows)
      invariant Below(out, rest)
      decreases |rest|
    {
      var q := Lowest(rest);
      var t := Task(q, rest[q].payload, rest[q].cost);
      SelectOne(out, rest, rows, t);
      out := out + [t];
      rest := rest - {q};
    }
  }

  ghost predicate Remain(rest: map<int, TaskRow>, rows: map<int, TaskRow>, out: seq<Task>) {
    rest.Keys == rows.Keys - Seqs(out) && forall q :: q in rest ==> rest[q] == rows[q]
  }

  ghost predicate Below(out: seq<Task>, rest: map<int, TaskRow>) {
    forall i, q :: 0 <= i < |out| && q in rest ==> out[i].seqNo < q
  }

  ghost predicate Ascending(out: seq<Task>, rows: map<int, TaskRow>) {
    && (forall i :: 0 <= i < |out| ==> IsRow(out[i], rows))
    && (forall i, j :: 0 <= i < j < |out| ==> out[i].seqNo < out[j].seqNo)
  }

  lemma SelectOne(out: seq<Task>, rest: map<int, TaskRow>, rows: map<int, TaskRow>, t: Task)
    requires Remain(rest, rows, out) && Ascending(out, rows) && IsRow(t, rest)
    requires Below(out, rest) && LeastSeq(rest, t.seqNo)
    ensures Remain(rest - {t.seqNo}, rows, out + [t]) && Ascending(out + [t], rows) && Below(out + [t], rest - {t.seqNo})
  {
    SeqsPush(out, t);
  }

  lemma SeqsPush(out: seq<Task>, t: Task)
    ensures Seqs(out + [t]) == Seqs(out) + {t.seqNo}
  {
    forall q ensures q in Seqs(out + [t]) <==> q in Seqs(out) + {t.seqNo} {
      if q in Seqs(out) {
        var i :| 0 <= i < |out| && out[i].seqNo == q;
        assert (out + [t])[i].seqNo == q;
      }
      assert (out + [t])[|out|] == t;
    }
  }

  // ---------- a drained batch is the oracle's ----------

  lemma {:induction false} RowCount(rows: map<int, TaskRow>, last: int, q: seq<Entry>)
    requires Numbered(rows, last, q)
    ensures |rows| == |q|
    decreases |q|
  {
    if q == [] {
      NoRows(rows, last);
    } else {
      var first := HeadRow(rows, last, q);
      RowCount(rows - {first}, last, q[1..]);
    }
  }

  /** The i-th selected row is the i-th live one. */
  lemma {:induction false} SelectedInOrder(out: seq<Task>, rows: map<int, TaskRow>, last: int, q: seq<Entry>, max: nat, i: nat)
    requires Numbered(rows, last, q) && Selected(out, rows, max) && i < |out| && |rows| == |q|
    ensures forall j :: 0 <= j <= i ==> Place(out[j].seqNo, last, |q|) == j
    decreases i
  {
    if i > 0 {
      SelectedInOrder(out, rows, last, q, max, i - 1);
    }
    var s := last + 1 - |q| + i;
    assert Place(s, last, |q|) == i;
    assert s in rows && out[i].seqNo in rows;
    if s in Seqs(out) {
      var j :| 0 <= j < |out| && out[j].seqNo == s;
      assert j < i ==> Place(out[j].seqNo, last, |q|) == j;
    }
    if i > 0 {
      assert out[i - 1].seqNo < out[i].seqNo;
    }
  }

  /** A drain gives the tasks the oracle gives, under the table's own numbers. */
  lemma DrainAgrees(d: Tables, s: State<Key>, clock: int, c: Claimed<Key>, out: seq<Task>, max: nat)
    requires Wf(d, s, clock) && HeldRow(d, c) && Selected(out, RowsOf(d.tasks, c.key), max)
    ensures Held(s, c)
    ensures var tasks, off := Drain(s, c, max).value, Offset(TupleAt(d, c.key), s.units[c.key]);
            |out| == |tasks| && forall i :: 0 <= i < |out| ==>
              out[i] == Task(tasks[i].seqNo + off, tasks[i].payload, tasks[i].cost)
  {
    HeldAgrees(d, s, c);
    UnitKnown(d, s, clock, c.key);
    var x, u := TupleAt(d, c.key), s.units[c.key];
    RowCount(x.rows, x.row.nextSeq, u.queue);
    forall i | 0 <= i < |out|
      ensures out[i] == Task(u.queue[i].task.seqNo + Offset(x, u), u.queue[i].task.payload, u.queue[i].task.cost)
    {
      SelectedInOrder(out, x.rows, x.row.nextSeq, u.queue, max, i);
    }
  }
}
