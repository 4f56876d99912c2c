/** Whole runs of one Postgres shard, tracked by the oracle; and exactly when they are runs of it. */
module PostgresRuns {
  import opened Contract
  import opened Oracle
  import opened Invariant
  import opened PostgresRows
  import opened PostgresTables
  import History

  datatype Call =
    | Enqueue(key: Key, payload: string, cost: int)
    | Claim(key: Key, worker: string, token: string, ms: int)
    | Ack(claim: Claimed<Key>, through: int)
    | Release(claim: Claimed<Key>)
    | Heartbeat(claim: Claimed<Key>, extend: int)
    | Fail(claim: Claimed<Key>, seqNo: int, reason: string)
    | Sweep(bound: int)

  datatype Timed = Timed(now: int, call: Call)

  /** One statement or transaction. A claim that is not held changes nothing. */
  ghost function Step(d: Tables, cfg: Config, a: Timed): Tables {
    match a.call
    case Enqueue(k, payload, cost) => EnqueueRows(d, k, payload, cost, cfg, a.now)
    case Claim(k, worker, token, ms) => if k in d.units then ClaimRows(d, k, worker, token, ms, a.now) else d
    case Ack(c, through) => if HeldRow(d, c) then AckRows(d, c.key, through, a.now) else d
    case Release(c) => if HeldRow(d, c) then ReleaseRows(d, c.key) else d
    case Heartbeat(c, extend) => if HeldRow(d, c) then HeartbeatRows(d, c.key, extend, a.now) else d
    case Fail(c, seqNo, reason) => if HeldRow(d, c) then FailRows(d, c.key, seqNo, reason, cfg.maxAttempts, a.now) else d
    case Sweep(bound) => SweepRows(d, bound)
  }

  ghost predicate Permitted(d: Tables, s: State<Key>, clock: int, a: Timed) {
    clock <= a.now &&
    match a.call
    case Enqueue(_, _, cost) => cost > 0
    case Claim(k, worker, token, ms) => Pickable(d, k) && worker != "" && ms >= 0 && token !in s.issued
    case Heartbeat(_, extend) => extend >= 0
    case Sweep(bound) => bound <= a.now
    case _ => true
  }

  /** The state the tables show after a step. */
  ghost function Track(d: Tables, s: State<Key>, a: Timed): State<Key> {
    var e := Step(d, s.cfg, a);
    match a.call
    case Enqueue(k, payload, cost) => Oracle.Enqueue(s, k, payload, cost, a.now)
    case Claim(k, worker, token, ms) => if k in s.units then Grant(s, k, worker, token, ms, a.now) else s
    case Ack(c, through) => Retried(Oracle.Ack(s, c, OracleSeq(d, s, c.key, through), a.now), e, c.key)
    case Release(c) => Oracle.Release(s, c)
    case Heartbeat(c, extend) => Rewindowed(s, c, extend, a.now)
    case Fail(c, seqNo, reason) =>
      if !HeldRow(d, c) then s else
      Retried(FailState(s, c, IsHead(d, s, c.key, seqNo), OracleSeq(d, s, c.key, seqNo), reason, a.now), e, c.key)
    case Sweep(bound) => Reap(s, bound, bound)
  }

  /** The oracle's own step. */
  function Image(d: Tables, s: State<Key>, a: Timed): History.Timed<Key> {
    History.Timed(a.now, match a.call
      case Enqueue(k, payload, cost) => History.Arrive(k, payload, cost)
      case Claim(k, worker, token, ms) => History.Take(k, worker, token, ms)
      case Ack(c, through) => History.Settle(c, OracleSeq(d, s, c.key, through))
      case Release(c) => History.GiveUp(c)
      case Heartbeat(c, extend) => History.Extend(c, extend)
      case Fail(c, seqNo, reason) => History.Fault(c, OracleSeq(d, s, c.key, seqNo), reason)
      case Sweep(bound) => History.Sweep(bound, bound))
  }

  // ---------- every run is tracked ----------

  function ClaimOf(c: Call): Option<Claimed<Key>> {
    match c
    case Enqueue(_, _, _) => None
    case Claim(_, _, _, _) => None
    case Sweep(_) => None
    case _ => Some(c.claim)
  }

  lemma LostTracks(d: Tables, s: State<Key>, clock: int, a: Timed)
    requires Wf(d, s, clock) && clock <= a.now && ClaimOf(a.call).Some? && !HeldRow(d, a.call.claim)
    ensures Step(d, s.cfg, a) == d && Track(d, s, a) == s && Wf(d, s, a.now)
  {
    HeldAgrees(d, s, a.call.claim);
    InvLater(s, clock, clock, a.now);
    RetriedUnchanged(d, s, a.call.claim.key);
  }

  lemma RetriedUnchanged(d: Tables, s: State<Key>, k: Key)
    requires Shows(d, s)
    ensures Retried(s, d, k) == s
  {
    if k in s.units {
      TupleShown(d, s, k);
    }
    RetriedSame(s, d, k);
  }

  /** Every permitted step leaves tables that show the tracked state. */
  lemma StepTracks(d: Tables, s: State<Key>, clock: int, a: Timed)
    requires Wf(d, s, clock) && Permitted(d, s, clock, a)
    ensures Wf(Step(d, s.cfg, a), Track(d, s, a), a.now)
  {
    if ClaimOf(a.call).Some? && !HeldRow(d, a.call.claim) {
      LostTracks(d, s, clock, a);
    } else {
      match a.call
      case Enqueue(k, payload, cost) => EnqueueSimulates(d, s, clock, k, payload, cost, a.now);
      case Claim(k, worker, token, ms) => ClaimSimulates(d, s, clock, k, worker, token, ms, a.now);
      case Ack(c, through) => AckSimulates(d, s, clock, c, through, a.now);
      case Release(c) => ReleaseSimulates(d, s, clock, c, a.now);
      case Heartbeat(c, extend) => HeartbeatSimulates(d, s, clock, c, extend, a.now);
      case Fail(c, seqNo, reason) => FailSimulates(d, s, clock, c, seqNo, reason, a.now);
      case Sweep(bound) => SweepSimulates(d, s, clock, bound, a.now);
    }
  }

  // ---------- when the step is exactly the oracle's ----------

  /** The task that would come next past a number has never failed. */
  ghost predicate FreshNext(rows: map<int, TaskRow>, through: int) {
    forall q :: LeastSeq(Beyond(rows, through), q) ==> rows[q].attempts == 0
  }

  /** The failure is the head's, and if it is its last, the next task has never failed. */
  ghost predicate FreshFail(x: Tuple, seqNo: int, cap: int) {
    LeastSeq(x.rows, seqNo) && (AtCap(x, seqNo, cap) ==> FreshNext(x.rows, seqNo))
  }

  /**
   What a caller who holds the unit can check beforehand: an acknowledgement or a burial makes a task
   head that never failed; a failure is the head's; a heartbeat extends by the window of the claim.
   */
  ghost predicate Faithful(d: Tables, cfg: Config, a: Timed) {
    match a.call
    case Ack(c, through) => HeldRow(d, c) ==> FreshNext(RowsOf(d.tasks, c.key), through)
    case Heartbeat(c, extend) => HeldRow(d, c) ==> extend == d.units[c.key].leaseMs
    case Fail(c, seqNo, _) => HeldRow(d, c) ==> FreshFail(TupleAt(d, c.key), seqNo, cfg.maxAttempts)
    case _ => true
  }

  lemma HeadIsFirst(y: Tuple, v: Unit, q: int)
    requires ShownBut(y, v) || Shown(y, v)
    ensures LeastSeq(y.rows, q) <==> q == y.row.nextSeq + 1 - |v.queue|
    ensures LeastSeq(y.rows, q) ==> HeadAttempts(y, |v.queue|) == y.rows[q].attempts
    ensures y.row.nextSeq + 1 - |v.queue| in y.rows
  {
    var first := HeadRow(y.rows, y.row.nextSeq, v.queue);
    forall r | r in y.rows ensures first <= r {
      assert 0 <= Place(r, y.row.nextSeq, |v.queue|);
    }
  }

  /** The table's retry counter for the new head reads zero exactly when that task is fresh. */
  lemma FreshReads(y: Tuple, v: Unit, rows: map<int, TaskRow>, through: int)
    requires ShownBut(y, v) && y.rows == Beyond(rows, through)
    ensures HeadAttempts(y, |v.queue|) == 0 <==> FreshNext(rows, through)
  {
    HeadIsFirst(y, v, y.row.nextSeq + 1 - |v.queue|);
    forall q | LeastSeq(Beyond(rows, through), q) ensures q == y.row.nextSeq + 1 - |v.queue| {
      HeadIsFirst(y, v, q);
    }
  }

  lemma AckAgrees(d: Tables, s: State<Key>, clock: int, c: Claimed<Key>, through: int, now: int)
    requires Wf(d, s, clock) && clock <= now && HeldRow(d, c)
    ensures var t := Oracle.Ack(s, c, OracleSeq(d, s, c.key, through), now);
            Retried(t, AckRows(d, c.key, through, now), c.key) == t <==> FreshNext(RowsOf(d.tasks, c.key), through)
  {
    var upto := OracleSeq(d, s, c.key, through);
    AckKnows(d, s, clock, c, through, now);
    AckStored(d, s, c, through, upto, now);
    AckShape(s, c, upto, now);
    AckReads(TupleAt(d, c.key), s.units[c.key], s.cfg, through, upto, now);
    RetriedSame(Oracle.Ack(s, c, upto, now), AckRows(d, c.key, through, now), c.key);
  }

  lemma AckReads(x: Tuple, u: Unit, cfg: Config, through: int, upto: int, now: int)
    requires u.lease.Some?
    requires var y, v := AckTuple(x, through, now), AckUnit(u, upto, now);
             if v.Some? then ShownBut(y, v.value) else Spent(y, cfg)
    ensures var y, v := AckTuple(x, through, now), AckUnit(u, upto, now);
            FreshNext(x.rows, through) <==> (v.Some? ==> v.value.attempts == HeadAttempts(y, |v.value.queue|))
  {
    var y, v := AckTuple(x, through, now), AckUnit(u, upto, now);
    if v.Some? {
      FreshReads(y, v.value, x.rows, through);
    } else {
      assert Beyond(x.rows, through) == map[];
    }
  }

  lemma FailTuple(d: Tables, k: Key, seqNo: int, reason: string, cap: int, now: int)
    requires k in d.units
    ensures var x, e := TupleAt(d, k), FailRows(d, k, seqNo, reason, cap, now); var f := CountFailure(x, seqNo);
            && k in e.units
            && TupleAt(e, k) == if AtCap(x, seqNo, cap) then BuryTuple(f, seqNo, f.rows[seqNo].cost, now) else f.(row := Freed(f.row))
  {
    var x := TupleAt(d, k);
    var f := CountFailure(x, seqNo);
    if AtCap(x, seqNo, cap) {
      PutGets(d.tasks, k, BuryTuple(f, seqNo, f.rows[seqNo].cost, now).rows);
    } else {
      PutGets(d.tasks, k, f.rows);
    }
  }

  lemma FailAgrees(d: Tables, s: State<Key>, clock: int, c: Claimed<Key>, seqNo: int, reason: string, now: int)
    requires Wf(d, s, clock) && clock <= now && HeldRow(d, c)
    ensures var upto := OracleSeq(d, s, c.key, seqNo);
            Retried(FailState(s, c, IsHead(d, s, c.key, seqNo), upto, reason, now),
                    FailRows(d, c.key, seqNo, reason, s.cfg.maxAttempts, now), c.key) == Oracle.Fail(s, c, upto, reason, now)
            <==> FreshFail(TupleAt(d, c.key), seqNo, s.cfg.maxAttempts)
  {
    HeldAgrees(d, s, c);
    UnitKnown(d, s, clock, c.key);
    var k, x, u, cap := c.key, TupleAt(d, c.key), s.units[c.key], s.cfg.maxAttempts;
    var upto := OracleSeq(d, s, k, seqNo);
    HeadIsFirst(x, u, seqNo);
    HeadIsLeast(x, u, seqNo, cap);
    if !IsHead(d, s, k, seqNo) {
      OtherFails(d, s, c, seqNo, upto, reason, now);
    } else if AtCap(x, seqNo, cap) {
      BuryKnown(d, s, clock, c, seqNo, now);
      HeadBuried(d, s, c, seqNo, upto, reason, now);
    } else {
      HeadFails(d, s, c, seqNo, upto, reason, now);
    }
  }

  lemma HeadBuried(d: Tables, s: State<Key>, c: Claimed<Key>, seqNo: int, upto: int, reason: string, now: int)
    requires Held(s, c) && c.key in d.units && Buried(TupleAt(d, c.key), s.units[c.key], seqNo, now, s.cfg)
    requires AtCap(TupleAt(d, c.key), seqNo, s.cfg.maxAttempts) && Poison(s.units[c.key], upto, s.cfg.maxAttempts)
    requires LeastSeq(TupleAt(d, c.key).rows, seqNo)
    ensures var t := Oracle.Fail(s, c, upto, reason, now);
            var e := FailRows(d, c.key, seqNo, reason, s.cfg.maxAttempts, now);
            Retried(t, e, c.key) == t <==> FreshNext(TupleAt(d, c.key).rows, seqNo)
  {
    FailTuple(d, c.key, seqNo, reason, s.cfg.maxAttempts, now);
    FailShape(s, c, upto, reason, now);
    BuryReads(TupleAt(d, c.key), s.units[c.key], seqNo, upto, now, s.cfg);
    RetriedSame(Oracle.Fail(s, c, upto, reason, now), FailRows(d, c.key, seqNo, reason, s.cfg.maxAttempts, now), c.key);
  }

  lemma HeadFails(d: Tables, s: State<Key>, c: Claimed<Key>, seqNo: int, upto: int, reason: string, now: int)
    requires Held(s, c) && c.key in d.units && Shown(TupleAt(d, c.key), s.units[c.key]) && IsHead(d, s, c.key, seqNo)
    requires !AtCap(TupleAt(d, c.key), seqNo, s.cfg.maxAttempts) && !Poison(s.units[c.key], upto, s.cfg.maxAttempts)
    ensures var t := Oracle.Fail(s, c, upto, reason, now);
            Retried(t, FailRows(d, c.key, seqNo, reason, s.cfg.maxAttempts, now), c.key) == t
  {
    FailTuple(d, c.key, seqNo, reason, s.cfg.maxAttempts, now);
    FailShape(s, c, upto, reason, now);
    FailureShown(TupleAt(d, c.key), s.units[c.key], seqNo);
    RetriedSame(Oracle.Fail(s, c, upto, reason, now), FailRows(d, c.key, seqNo, reason, s.cfg.maxAttempts, now), c.key);
  }

  lemma OtherCounted(x: Tuple, u: Unit, seqNo: int)
    requires Shown(x, u) && seqNo != x.row.nextSeq + 1 - |u.queue|
    ensures HeadAttempts(CountFailure(x, seqNo).(row := Freed(x.row)), |u.queue|) == u.attempts
  {
  }

  /** Counted against another task than the head, the oracle's counter moves and the table's does not. */
  lemma OtherFails(d: Tables, s: State<Key>, c: Claimed<Key>, seqNo: int, upto: int, reason: string, now: int)
    requires Held(s, c) && c.key in d.units && Shown(TupleAt(d, c.key), s.units[c.key])
    requires !IsHead(d, s, c.key, seqNo) && !Poison(s.units[c.key], upto, s.cfg.maxAttempts)
    requires !AtCap(TupleAt(d, c.key), seqNo, s.cfg.maxAttempts)
    ensures var r := Retried(Oracle.Release(s, c), FailRows(d, c.key, seqNo, reason, s.cfg.maxAttempts, now), c.key);
            var t := Oracle.Fail(s, c, upto, reason, now);
            && c.key in r.units && c.key in t.units && |r.units[c.key].queue| == |t.units[c.key].queue|
            && t.units[c.key].attempts == r.units[c.key].attempts + 1
  {
    FailTuple(d, c.key, seqNo, reason, s.cfg.maxAttempts, now);
    OtherCounted(TupleAt(d, c.key), s.units[c.key], seqNo);
    FailShape(s, c, upto, reason, now);
    var e := FailRows(d, c.key, seqNo, reason, s.cfg.maxAttempts, now);
    RetriedPut(s, c.key, Some(s.units[c.key].(lease := None)), s.dlq, e, TupleAt(e, c.key));
  }

  lemma BuryReads(x: Tuple, u: Unit, seqNo: int, upto: int, now: int, cfg: Config)
    requires Buried(x, u, seqNo, now, cfg) && Poison(u, upto, cfg.maxAttempts) && LeastSeq(x.rows, seqNo)
    ensures var f, v := CountFailure(x, seqNo), FailUnit(u, upto, cfg.maxAttempts, now);
            var y := BuryTuple(f, seqNo, f.rows[seqNo].cost, now);
            FreshNext(x.rows, seqNo) <==> (v.Some? ==> v.value.attempts == HeadAttempts(y, |v.value.queue|))
  {
    var f, v := CountFailure(x, seqNo), FailUnit(u, upto, cfg.maxAttempts, now);
    var y := BuryTuple(f, seqNo, f.rows[seqNo].cost, now);
    assert y.rows == Beyond(x.rows, seqNo);
    if v.Some? {
      FreshReads(y, v.value, x.rows, seqNo);
    }
  }

  lemma ExtendAgrees(d: Tables, s: State<Key>, clock: int, c: Claimed<Key>, extend: int, now: int)
    requires Wf(d, s, clock) && HeldRow(d, c)
    ensures Rewindowed(s, c, extend, now) == Oracle.Heartbeat(s, c, extend, now) <==> extend == d.units[c.key].leaseMs
  {
    HeldAgrees(d, s, c);
    UnitKnown(d, s, clock, c.key);
    HeartbeatAgrees(s, c, extend, now);
  }

  lemma PlainAgrees(d: Tables, s: State<Key>, a: Timed)
    requires a.call.Enqueue? || a.call.Claim? || a.call.Release? || a.call.Sweep?
    ensures Track(d, s, a) == History.Effect(s, Image(d, s, a)) && Faithful(d, s.cfg, a)
  {
  }

  lemma HeldImages(d: Tables, s: State<Key>, a: Timed)
    requires ClaimOf(a.call).Some? && HeldRow(d, a.call.claim)
    ensures var c, t := a.call.claim, History.Effect(s, Image(d, s, a));
            match a.call
            case Ack(_, through) =>
              && t == Oracle.Ack(s, c, OracleSeq(d, s, c.key, through), a.now)
              && Track(d, s, a) == Retried(t, AckRows(d, c.key, through, a.now), c.key)
            case Heartbeat(_, extend) =>
              t == Oracle.Heartbeat(s, c, extend, a.now) && Track(d, s, a) == Rewindowed(s, c, extend, a.now)
            case Fail(_, seqNo, reason) =>
              var upto := OracleSeq(d, s, c.key, seqNo);
              && t == Oracle.Fail(s, c, upto, reason, a.now)
              && Track(d, s, a) == Retried(FailState(s, c, IsHead(d, s, c.key, seqNo), upto, reason, a.now),
                                           FailRows(d, c.key, seqNo, reason, s.cfg.maxAttempts, a.now), c.key)
            case _ => true
  {
  }

  /** The tracked state is the oracle's, retry counter and renewal window included, exactly when the step is faithful. */
  lemma TrackAgrees(d: Tables, s: State<Key>, clock: int, a: Timed)
    requires Wf(d, s, clock) && Permitted(d, s, clock, a) && (ClaimOf(a.call).Some? ==> HeldRow(d, a.call.claim))
    ensures Track(d, s, a) == History.Effect(s, Image(d, s, a)) <==> Faithful(d, s.cfg, a)
  {
    if ClaimOf(a.call).Some? {
      HeldImages(d, s, a);
    }
    match a.call
    case Ack(c, through) => AckAgrees(d, s, clock, c, through, a.now);
    case Heartbeat(c, extend) => ExtendAgrees(d, s, clock, c, extend, a.now);
    case Fail(c, seqNo, reason) => FailAgrees(d, s, clock, c, seqNo, reason, a.now);
    case _ => PlainAgrees(d, s, a);
  }

  /** The tables determine a unit's retry counter and lease. */
  lemma ShownOnce(e: Tables, t1: State<Key>, t2: State<Key>, k: Key)
    requires Shows(e, t1) && Shows(e, t2) && k in t1.units && k in t2.units
    ensures |t1.units[k].queue| == |t2.units[k].queue| ==> t1.units[k].attempts == t2.units[k].attempts
    ensures t1.units[k].lease == t2.units[k].lease
  {
    TupleShown(e, t1, k);
    TupleShown(e, t2, k);
  }

  lemma ExtendOnce(e: Tables, s: State<Key>, c: Claimed<Key>, extend: int, now: int)
    requires Held(s, c) && Shows(e, Rewindowed(s, c, extend, now)) && Shows(e, Oracle.Heartbeat(s, c, extend, now))
    ensures extend == s.units[c.key].lease.value.window
  {
    HeartbeatShape(s, c, extend, now);
    ShownOnce(e, Rewindowed(s, c, extend, now), Oracle.Heartbeat(s, c, extend, now), c.key);
  }

  /** After a failure of any other task than the head, the tables do not show the oracle's failure step. */
  lemma FailOnce(d: Tables, s: State<Key>, clock: int, c: Claimed<Key>, seqNo: int, upto: int, reason: string, now: int)
    requires Wf(d, s, clock) && HeldRow(d, c) && upto == OracleSeq(d, s, c.key, seqNo) && !IsHead(d, s, c.key, seqNo)
    requires var e := FailRows(d, c.key, seqNo, reason, s.cfg.maxAttempts, now);
             Shows(e, Retried(Oracle.Release(s, c), e, c.key))
    ensures !Shows(FailRows(d, c.key, seqNo, reason, s.cfg.maxAttempts, now), Oracle.Fail(s, c, upto, reason, now))
  {
    HeldAgrees(d, s, c);
    UnitKnown(d, s, clock, c.key);
    HeadIsLeast(TupleAt(d, c.key), s.units[c.key], seqNo, s.cfg.maxAttempts);
    OtherFails(d, s, c, seqNo, upto, reason, now);
    var e := FailRows(d, c.key, seqNo, reason, s.cfg.maxAttempts, now);
    if Shows(e, Oracle.Fail(s, c, upto, reason, now)) {
      ShownOnce(e, Retried(Oracle.Release(s, c), e, c.key), Oracle.Fail(s, c, upto, reason, now), c.key);
      assert false;
    }
  }

  /** What the tables show of a step is one state only: if it is the oracle's, the tracked one is. */
  lemma ShownIsTracked(d: Tables, s: State<Key>, clock: int, a: Timed)
    requires Wf(d, s, clock) && Permitted(d, s, clock, a) && (ClaimOf(a.call).Some? ==> HeldRow(d, a.call.claim))
    requires Shows(Step(d, s.cfg, a), Track(d, s, a)) && Shows(Step(d, s.cfg, a), History.Effect(s, Image(d, s, a)))
    ensures Track(d, s, a) == History.Effect(s, Image(d, s, a))
  {
    var e, t := Step(d, s.cfg, a), History.Effect(s, Image(d, s, a));
    if ClaimOf(a.call).Some? {
      HeldImages(d, s, a);
      HeldAgrees(d, s, a.call.claim);
    }
    match a.call
    case Ack(c, _) => RetriedUnchanged(e, t, c.key);
    case Heartbeat(c, extend) =>
      ExtendOnce(e, s, c, extend, a.now);
      HeartbeatAgrees(s, c, extend, a.now);
    case Fail(c, seqNo, reason) =>
      if IsHead(d, s, c.key, seqNo) {
        RetriedUnchanged(e, t, c.key);
      } else {
        FailOnce(d, s, clock, c, seqNo, OracleSeq(d, s, c.key, seqNo), reason, a.now);
      }
    case _ => PlainAgrees(d, s, a);
  }

  /**
   The tables after a step show what the oracle's own step leaves, retry counter and renewal window
   included, exactly when the step is faithful.
   */
  lemma StepAgrees(d: Tables, s: State<Key>, clock: int, a: Timed)
    requires Wf(d, s, clock) && Permitted(d, s, clock, a)
    ensures Wf(Step(d, s.cfg, a), History.Effect(s, Image(d, s, a)), a.now) <==> Faithful(d, s.cfg, a)
  {
    StepTracks(d, s, clock, a);
    if ClaimOf(a.call).Some? && !HeldRow(d, a.call.claim) {
      LostAgrees(d, s, clock, a);
    } else {
      TrackAgrees(d, s, clock, a);
      if Shows(Step(d, s.cfg, a), History.Effect(s, Image(d, s, a))) {
        ShownIsTracked(d, s, clock, a);
      }
    }
  }

  lemma LostAgrees(d: Tables, s: State<Key>, clock: int, a: Timed)
    requires Wf(d, s, clock) && clock <= a.now && ClaimOf(a.call).Some? && !HeldRow(d, a.call.claim)
    ensures Wf(Step(d, s.cfg, a), History.Effect(s, Image(d, s, a)), a.now) && Faithful(d, s.cfg, a)
  {
    LostTracks(d, s, clock, a);
    HeldAgrees(d, s, a.call.claim);
  }

  // ---------- runs ----------

  ghost function Run(d: Tables, cfg: Config, acts: seq<Timed>): Tables {
    if acts == [] then d else Step(Run(d, cfg, acts[..|acts| - 1]), cfg, acts[|acts| - 1])
  }

  ghost function Tracked(d: Tables, s: State<Key>, acts: seq<Timed>): State<Key> {
    if acts == [] then s else
    Track(Run(d, s.cfg, acts[..|acts| - 1]), Tracked(d, s, acts[..|acts| - 1]), acts[|acts| - 1])
  }

  function Clock(clock: int, acts: seq<Timed>): int {
    if acts == [] then clock else acts[|acts| - 1].now
  }

  ghost predicate Legal(d: Tables, s: State<Key>, clock: int, acts: seq<Timed>) {
    acts == [] ||
    var before := acts[..|acts| - 1];
    Legal(d, s, clock, before) &&
    Permitted(Run(d, s.cfg, before), Tracked(d, s, before), Clock(clock, before), acts[|acts| - 1])
  }

  lemma TrackedRunGrows(d: Tables, s: State<Key>, clock: int, acts: seq<Timed>, a: Timed)
    requires Legal(d, s, clock, acts) && Permitted(Run(d, s.cfg, acts), Tracked(d, s, acts), Clock(clock, acts), a)
    ensures Legal(d, s, clock, acts + [a]) && Clock(clock, acts + [a]) == a.now
    ensures Run(d, s.cfg, acts + [a]) == Step(Run(d, s.cfg, acts), s.cfg, a)
    ensures Tracked(d, s, acts + [a]) == Track(Run(d, s.cfg, acts), Tracked(d, s, acts), a)
  {
    assert (acts + [a])[..|acts|] == acts;
  }

  lemma TrackCfg(d: Tables, s: State<Key>, a: Timed)
    ensures Track(d, s, a).cfg == s.cfg
  {
  }

  lemma {:induction false} RunTracks(d: Tables, s: State<Key>, clock: int, acts: seq<Timed>)
    requires Wf(d, s, clock) && Legal(d, s, clock, acts)
    ensures Tracked(d, s, acts).cfg == s.cfg
    ensures Wf(Run(d, s.cfg, acts), Tracked(d, s, acts), Clock(clock, acts))
  {
    if acts != [] {
      var before, a := acts[..|acts| - 1], acts[|acts| - 1];
      RunTracks(d, s, clock, before);
      StepTracks(Run(d, s.cfg, before), Tracked(d, s, before), Clock(clock, before), a);
      TrackCfg(Run(d, s.cfg, before), Tracked(d, s, before), a);
    }
  }

  function Empty(cfg: Config): State<Key> {
    State(map[], [], {}, cfg)
  }

  /**
   After any run of the tables from empty ones, whatever was failed, acknowledged or extended: every
   maintained aggregate is the sum a scan finds, every unit at threshold by that sum is flagged, and any
   other flagged unit has an aged head.
   */
  lemma ReachableTables(cfg: Config, acts: seq<Timed>, k: Key)
    requires cfg.threshold > 0 && cfg.maxWait >= 0 && cfg.maxAttempts > 0
    requires Legal(NewTables(), Empty(cfg), 0, acts)
    ensures var d := Run(NewTables(), cfg, acts);
            k in d.units ==>
              && d.units[k].pendingCost == SumCost(RowsOf(d.tasks, k))
              && (SumCost(RowsOf(d.tasks, k)) >= d.units[k].threshold ==> d.units[k].eligible)
              && (d.units[k].eligible && SumCost(RowsOf(d.tasks, k)) < d.units[k].threshold ==>
                    MinTime(RowsOf(d.tasks, k)).Some? &&
                    MinTime(RowsOf(d.tasks, k)).value + d.units[k].maxWait <= Clock(0, acts))
  {
    var d0, s0 := NewTables(), Empty(cfg);
    RunTracks(d0, s0, 0, acts);
    var d, s := Run(d0, cfg, acts), Tracked(d0, s0, acts);
    if k in d.units {
      AggregateIsSum(d, s, Clock(0, acts), k);
      LookAhead(d, s, Clock(0, acts), k);
    }
  }

  // ---------- runs that are runs of the oracle ----------

  /** Only heads have failed. */
  ghost predicate TidyRows(rows: map<int, TaskRow>) {
    forall q :: q in rows && !LeastSeq(rows, q) ==> rows[q].attempts == 0
  }

  ghost predicate Tidy(d: Tables) {
    forall k {:trigger TupleAt(d, k)} :: k in d.units ==> TidyRows(TupleAt(d, k).rows)
  }

  /** Acknowledge at least one task, fail only the head, extend by the window of the claim. */
  ghost predicate Obeys(d: Tables, a: Timed) {
    match a.call
    case Ack(c, through) => c.key in d.units ==> exists q :: q in RowsOf(d.tasks, c.key) && q <= through
    case Heartbeat(c, extend) => c.key in d.units ==> extend == d.units[c.key].leaseMs
    case Fail(c, seqNo, _) => c.key in d.units ==> LeastSeq(RowsOf(d.tasks, c.key), seqNo)
    case _ => true
  }

  lemma TidyCut(rows: map<int, TaskRow>, through: int)
    requires TidyRows(rows) && exists q :: q in rows && q <= through
    ensures forall q :: q in Beyond(rows, through) ==> rows[q].attempts == 0
    ensures FreshNext(rows, through) && TidyRows(Beyond(rows, through))
  {
  }

  lemma TidyFail(x: Tuple, seqNo: int, now: int)
    requires TidyRows(x.rows) && LeastSeq(x.rows, seqNo)
    ensures var f := CountFailure(x, seqNo);
            TidyRows(f.rows) && TidyRows(BuryTuple(f, seqNo, f.rows[seqNo].cost, now).rows) && FreshNext(x.rows, seqNo)
  {
    var f := CountFailure(x, seqNo);
    assert LeastSeq(f.rows, seqNo);
  }

  lemma TidyPush(x: Tuple, u: Unit, payload: string, cost: int, now: int)
    requires Shown(x, u) && TidyRows(x.rows)
    ensures TidyRows(EnqueuedTuple(x, payload, cost, now).rows)
  {
    var first := HeadRow(x.rows, x.row.nextSeq, u.queue);
    HeadIsFirst(x, u, first);
    forall q | q in x.rows ensures q <= x.row.nextSeq {
      assert Place(q, x.row.nextSeq, |u.queue|) < |u.queue|;
    }
    forall q | q in x.rows && LeastSeq(x.rows, q) ensures LeastSeq(EnqueuedTuple(x, payload, cost, now).rows, q) {
    }
  }

  /** An obedient step of tidy tables is faithful. */
  lemma ObeyingIsFaithful(d: Tables, cfg: Config, a: Timed)
    requires Tidy(d) && Obeys(d, a)
    ensures Faithful(d, cfg, a)
  {
    match a.call
    case Ack(c, through) =>
      if c.key in d.units {
        assert TidyRows(TupleAt(d, c.key).rows);
        TidyCut(RowsOf(d.tasks, c.key), through);
      }
    case Fail(c, seqNo, _) =>
      if c.key in d.units {
        assert TidyRows(TupleAt(d, c.key).rows);
        TidyFail(TupleAt(d, c.key), seqNo, a.now);
      }
    case _ =>
  }

  lemma TidySet(d: Tables, k: Key, y: Tuple, e: Tables)
    requires Tidy(d) && TidyRows(y.rows) && e == SetTuple(d, k, y).(dead := e.dead)
    ensures Tidy(e)
  {
    PutGets(d.tasks, k, y.rows);
    forall j | j in e.units ensures TidyRows(TupleAt(e, j).rows) {
      if j != k {
        PutKeeps(d.tasks, k, y.rows, j);
        assert TidyRows(TupleAt(d, j).rows);
      }
    }
  }

  /** Statements that leave the task rows alone keep the tables tidy. */
  lemma TidySame(d: Tables, e: Tables)
    requires Tidy(d) && e.tasks == d.tasks && e.units.Keys == d.units.Keys
    ensures Tidy(e)
  {
    forall k | k in e.units ensures TidyRows(TupleAt(e, k).rows) {
      assert TidyRows(TupleAt(d, k).rows);
    }
  }

  lemma TidyStays(d: Tables, s: State<Key>, a: Timed)
    requires Shows(d, s) && Tidy(d) && Obeys(d, a)
    ensures Tidy(Step(d, s.cfg, a))
  {
    var e := Step(d, s.cfg, a);
    match a.call
    case Enqueue(k, payload, cost) =>
      TidyUpsert(d, s, k, payload, cost, a.now);
      TidySet(d, k, Upserted(d, k, payload, cost, s.cfg, a.now), e);
    case Ack(c, through) =>
      if HeldRow(d, c) {
        assert TidyRows(TupleAt(d, c.key).rows);
        TidyCut(RowsOf(d.tasks, c.key), through);
        TidySet(d, c.key, AckTuple(TupleAt(d, c.key), through, a.now), e);
      }
    case Fail(c, seqNo, reason) =>
      if HeldRow(d, c) {
        TidyFailing(d, c.key, seqNo, reason, s.cfg.maxAttempts, a.now);
      }
    case _ => TidySame(d, e);
  }

  lemma TidyUpsert(d: Tables, s: State<Key>, k: Key, payload: string, cost: int, now: int)
    requires Shows(d, s) && Tidy(d)
    ensures TidyRows(Upserted(d, k, payload, cost, s.cfg, now).rows)
  {
    if k in d.units {
      assert TidyRows(TupleAt(d, k).rows);
      TupleShown(d, s, k);
      if k in s.units {
        TidyPush(TupleAt(d, k), s.units[k], payload, cost, now);
      }
    }
  }

  lemma TidyFailing(d: Tables, k: Key, seqNo: int, reason: string, cap: int, now: int)
    requires Tidy(d) && k in d.units && LeastSeq(RowsOf(d.tasks, k), seqNo)
    ensures Tidy(FailRows(d, k, seqNo, reason, cap, now))
  {
    var x := TupleAt(d, k);
    assert TidyRows(x.rows);
    TidyFail(x, seqNo, now);
    var f := CountFailure(x, seqNo);
    var e := FailRows(d, k, seqNo, reason, cap, now);
    if AtCap(x, seqNo, cap) {
      TidySet(d, k, BuryTuple(f, seqNo, f.rows[seqNo].cost, now), e);
    } else {
      TidySet(d, k, f.(row := Freed(f.row)), e);
    }
  }

  ghost predicate Matches(d: Tables, w: History.World<Key>) {
    Wf(d, w.queue, w.clock) && Tidy(d) && w.seen == w.clock
  }

  lemma ObeyingEffect(d: Tables, s: State<Key>, clock: int, a: Timed)
    requires Wf(d, s, clock) && Tidy(d) && Permitted(d, s, clock, a) && Obeys(d, a)
    ensures Wf(Step(d, s.cfg, a), History.Effect(s, Image(d, s, a)), a.now) && Tidy(Step(d, s.cfg, a))
  {
    TidyStays(d, s, a);
    ObeyingIsFaithful(d, s.cfg, a);
    StepAgrees(d, s, clock, a);
  }

  /** Every obedient step is a step of the oracle. */
  lemma StepSimulates(d: Tables, w: History.World<Key>, a: Timed)
    requires Matches(d, w) && Permitted(d, w.queue, w.clock, a) && Obeys(d, a)
    ensures History.Enabled(w, Image(d, w.queue, a))
    ensures Matches(Step(d, w.queue.cfg, a), History.Next(w, Image(d, w.queue, a)))
  {
    ObeyingEffect(d, w.queue, w.clock, a);
    if a.call.Claim? {
      PickIsOldest(d, w.queue, w.clock);
    }
    History.NextIs(w, Image(d, w.queue, a));
  }

  ghost function Follow(d: Tables, w: History.World<Key>, acts: seq<Timed>): History.World<Key> {
    if acts == [] then w else
    var before := acts[..|acts| - 1];
    var v := Follow(d, w, before);
    History.Next(v, Image(Run(d, w.queue.cfg, before), v.queue, acts[|acts| - 1]))
  }

  ghost predicate Obedient(d: Tables, w: History.World<Key>, acts: seq<Timed>) {
    acts == [] ||
    var before := acts[..|acts| - 1];
    var e, v := Run(d, w.queue.cfg, before), Follow(d, w, before);
    Obedient(d, w, before) && Permitted(e, v.queue, v.clock, acts[|acts| - 1]) && Obeys(e, acts[|acts| - 1])
  }

  /** Every obedient run is a run of the oracle, and the tables show the queue it leaves. */
  lemma {:induction false} RunSimulates(d: Tables, w: History.World<Key>, acts: seq<Timed>) returns (ts: seq<History.Timed<Key>>)
    requires Matches(d, w) && Obedient(d, w, acts)
    ensures History.Legal(w, ts) && History.Run(w, ts) == Follow(d, w, acts)
    ensures Follow(d, w, acts).queue.cfg == w.queue.cfg
    ensures Matches(Run(d, w.queue.cfg, acts), Follow(d, w, acts))
  {
    ts := [];
    if acts != [] {
      var before, a := acts[..|acts| - 1], acts[|acts| - 1];
      var shorter := RunSimulates(d, w, before);
      var e, v := Run(d, w.queue.cfg, before), Follow(d, w, before);
      StepSimulates(e, v, a);
      History.NextIs(v, Image(e, v.queue, a));
      ts := shorter + [Image(e, v.queue, a)];
      assert ts[..|ts| - 1] == shorter;
      History.EffectCfg(v.queue, Image(e, v.queue, a));
    }
  }

  // ---------- sequence numbers are arrival indices ----------

  /** The row's counter is the index of the key's latest arrival: it is never reset. */
  ghost predicate SeqIsIndex(d: Tables, w: History.World<Key>, k: Key) {
    |History.Arrivals(w, k)| == if k in d.units then d.units[k].nextSeq + 1 else 0
  }

  lemma ArrivalsGrow(w: History.World<Key>, t: History.Timed<Key>, k: Key)
    ensures |History.Arrivals(History.Next(w, t), k)|
              == |History.Arrivals(w, k)| + if t.op.Arrive? && t.op.key == k then 1 else 0
  {
    if t.op.Arrive? {
      History.ArriveParts(w, t);
    }
  }

  lemma CounterMoves(d: Tables, cfg: Config, a: Timed, k: Key)
    ensures var e := Step(d, cfg, a); var mine := a.call.Enqueue? && a.call.key == k;
            && (k in e.units <==> k in d.units || mine)
            && (k in d.units ==> e.units[k].nextSeq == d.units[k].nextSeq + if mine then 1 else 0)
            && (k !in d.units && mine ==> e.units[k].nextSeq == 0)
  {
    if ClaimOf(a.call).Some? {
      HeldKeepsCounters(d, cfg, a);
    }
  }

  lemma HeldKeepsCounters(d: Tables, cfg: Config, a: Timed)
    requires ClaimOf(a.call).Some?
    ensures var e := Step(d, cfg, a);
            e.units.Keys == d.units.Keys && forall k :: k in d.units ==> e.units[k].nextSeq == d.units[k].nextSeq
  {
    match a.call
    case Fail(c, seqNo, reason) =>
      if HeldRow(d, c) {
        FailKeepsCounters(d, c.key, seqNo, reason, cfg.maxAttempts, a.now);
      }
    case _ =>
  }

  lemma FailKeepsCounters(d: Tables, k: Key, seqNo: int, reason: string, cap: int, now: int)
    requires k in d.units
    ensures var e := FailRows(d, k, seqNo, reason, cap, now);
            e.units.Keys == d.units.Keys && forall j :: j in d.units ==> e.units[j].nextSeq == d.units[j].nextSeq
  {
  }

  /** Across every emptying and revival a task's key in the table is its place in the arrival order. */
  lemma {:induction false} SeqsAreIndices(d: Tables, w: History.World<Key>, acts: seq<Timed>, k: Key)
    requires Matches(d, w) && Obedient(d, w, acts) && SeqIsIndex(d, w, k)
    ensures SeqIsIndex(Run(d, w.queue.cfg, acts), Follow(d, w, acts), k)
  {
    if acts != [] {
      var before, a := acts[..|acts| - 1], acts[|acts| - 1];
      SeqsAreIndices(d, w, before, k);
      var e, v := Run(d, w.queue.cfg, before), Follow(d, w, before);
      CounterMoves(e, w.queue.cfg, a, k);
      ArrivalsGrow(v, Image(e, v.queue, a), k);
    }
  }

  /**
   After any obedient run from empty tables, the tasks of a key are exactly its unsettled arrivals,
   each under its own place in the arrival order.
   */
  lemma TasksAreUnsettled(cfg: Config, acts: seq<Timed>, k: Key, q: int)
    requires cfg.threshold > 0 && cfg.maxWait >= 0 && cfg.maxAttempts > 0
    requires Obedient(NewTables(), History.Start(cfg), acts)
    ensures var d, w := Run(NewTables(), cfg, acts), Follow(NewTables(), History.Start(cfg), acts);
            var arrivals := History.Arrivals(w, k);
            && ((k, q) in d.tasks <==> History.Settled(History.Log(w, k)) <= q < |arrivals|)
            && ((k, q) in d.tasks ==>
                  && d.tasks[(k, q)].payload == arrivals[q].task.payload && d.tasks[(k, q)].cost == arrivals[q].task.cost
                  && d.tasks[(k, q)].enqueuedAt == arrivals[q].at)
  {
    var d0, w0 := NewTables(), History.Start<Key>(cfg);
    History.StartHistory<Key>(cfg);
    var ts := RunSimulates(d0, w0, acts);
    SeqsAreIndices(d0, w0, acts, k);
    History.RunHistory(w0, ts);
    UnsettledRows(Run(d0, cfg, acts), Follow(d0, w0, acts), k, q);
  }

  lemma UnsettledRows(d: Tables, w: History.World<Key>, k: Key, q: int)
    requires Shows(d, w.queue) && SeqIsIndex(d, w, k) && History.HistoryInv(w)
    ensures var arrivals := History.Arrivals(w, k);
            && ((k, q) in d.tasks <==> History.Settled(History.Log(w, k)) <= q < |arrivals|)
            && ((k, q) in d.tasks ==>
                  && d.tasks[(k, q)].payload == arrivals[q].task.payload && d.tasks[(k, q)].cost == arrivals[q].task.cost
                  && d.tasks[(k, q)].enqueuedAt == arrivals[q].at)
  {
    assert History.KeyHistory(w, k);
    InRows(d.tasks, k, q);
    if k in d.units {
      TupleShown(d, w.queue, k);
      if k in w.queue.units {
        RowsAreTail(TupleAt(d, k), w.queue.units[k].queue, History.Arrivals(w, k), History.Settled(History.Log(w, k)), q);
      }
    }
  }

  /** Numbered rows that end with the latest arrival hold the arrivals from the settled ones on. */
  lemma RowsAreTail(x: Tuple, queue: seq<Entry>, arrivals: seq<Entry>, n: nat, q: int)
    requires Numbered(x.rows, x.row.nextSeq, queue) && x.row.nextSeq + 1 == |arrivals|
    requires n <= |arrivals| && queue == arrivals[n..]
    ensures q in x.rows <==> n <= q < |arrivals|
    ensures q in x.rows ==>
              && x.rows[q].payload == arrivals[q].task.payload && x.rows[q].cost == arrivals[q].task.cost
              && x.rows[q].enqueuedAt == arrivals[q].at
  {
    assert q in x.rows <==> 0 <= Place(q, x.row.nextSeq, |queue|) < |queue|;
    assert n <= q < |arrivals| ==> queue[q - n] == arrivals[q];
  }
}
