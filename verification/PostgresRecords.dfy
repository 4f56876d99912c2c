/**
 What the rows of the Postgres tables record over a whole run: each row of tasks, and each row moved to
 dead_letters, is the call that enqueued it, under its place among the key's arrivals, with the failures that
 named it counted.
 */
module PostgresRecords {
  import opened Contract
  import opened Oracle
  import opened Invariant
  import opened PostgresRows
  import opened PostgresTables
  import opened PostgresRuns
  import History

  ghost function After(cfg: Config, acts: seq<Timed>): Tables {
    Run(NewTables(), cfg, acts)
  }

  /** What was enqueued for a key, in order of arrival. */
  function Enqueued(acts: seq<Timed>, k: Key): seq<TaskRow> {
    if acts == [] then [] else
    var a := acts[|acts| - 1];
    Enqueued(acts[..|acts| - 1], k) +
      if a.call.Enqueue? && a.call.key == k then [TaskRow(a.call.payload, a.call.cost, 0, a.now)] else []
  }

  /** A failure reported by the holder against a task that is still there. */
  ghost predicate Names(d: Tables, a: Timed, k: Key, q: int) {
    a.call.Fail? && a.call.claim.key == k && a.call.seqNo == q && HeldRow(d, a.call.claim) && (k, q) in d.tasks
  }

  /** How many of them there were. */
  ghost function Failures(cfg: Config, acts: seq<Timed>, k: Key, q: int): nat {
    if acts == [] then 0 else
    var before := acts[..|acts| - 1];
    Failures(cfg, before, k, q) + if Names(After(cfg, before), acts[|acts| - 1], k, q) then 1 else 0
  }

  // ---------- one step ----------

  /** The number the next task of a key gets. */
  function NextSeq(d: Tables, k: Key): int {
    if k in d.units then d.units[k].nextSeq + 1 else 0
  }

  predicate Adds(d: Tables, a: Timed, k: Key, q: int) {
    a.call.Enqueue? && a.call.key == k && q == NextSeq(d, k)
  }

  /** A row after a step was just enqueued, or was there before with at most its failures counted on. */
  ghost predicate Moved(d: Tables, a: Timed, k: Key, q: int, row: TaskRow) {
    if Adds(d, a, k, q) then row == TaskRow(a.call.payload, a.call.cost, 0, a.now)
    else (k, q) in d.tasks && row == Counted(d.tasks[(k, q)], if Names(d, a, k, q) then 1 else 0)
  }

  function Counted(row: TaskRow, n: int): TaskRow {
    row.(attempts := row.attempts + n)
  }

  lemma StoredRow(d: Tables, k: Key, y: Tuple, j: Key, q: int)
    ensures var e := SetTuple(d, k, y);
            && ((j, q) in e.tasks <==> if j == k then q in y.rows else (j, q) in d.tasks)
            && ((j, q) in e.tasks ==> e.tasks[(j, q)] == if j == k then y.rows[q] else d.tasks[(j, q)])
  {
    InPut(d.tasks, k, y.rows, (j, q));
  }

  /** Writing one unit's tuple moves rows as its own rows move. */
  lemma SetMoves(d: Tables, a: Timed, j: Key, y: Tuple, k: Key, q: int)
    requires (k, q) in SetTuple(d, j, y).tasks
    requires if k == j then q in y.rows ==> Moved(d, a, k, q, y.rows[q]) else !Adds(d, a, k, q) && !Names(d, a, k, q)
    ensures Moved(d, a, k, q, SetTuple(d, j, y).tasks[(k, q)])
  {
    StoredRow(d, j, y, k, q);
  }

  /** A row that is among the unit's rows as they were. */
  lemma KeptMoves(d: Tables, a: Timed, k: Key, q: int)
    requires q in RowsOf(d.tasks, k) && !Adds(d, a, k, q) && !Names(d, a, k, q)
    ensures Moved(d, a, k, q, RowsOf(d.tasks, k)[q])
  {
    InRows(d.tasks, k, q);
  }

  lemma EnqueueMoves(d: Tables, cfg: Config, a: Timed, k: Key, q: int)
    requires a.call.Enqueue? && (k, q) in Step(d, cfg, a).tasks
    ensures Moved(d, a, k, q, Step(d, cfg, a).tasks[(k, q)])
  {
    var j, y := a.call.key, Upserted(d, a.call.key, a.call.payload, a.call.cost, cfg, a.now);
    if k == j {
      UpsertMoves(d, cfg, a, q, y);
    }
    SetMoves(d, a, j, y, k, q);
  }

  lemma UpsertMoves(d: Tables, cfg: Config, a: Timed, q: int, y: Tuple)
    requires a.call.Enqueue? && y == Upserted(d, a.call.key, a.call.payload, a.call.cost, cfg, a.now)
    ensures q in y.rows ==> Moved(d, a, a.call.key, q, y.rows[q])
  {
    var k := a.call.key;
    if q in y.rows && !Adds(d, a, k, q) {
      KeptMoves(d, a, k, q);
    }
  }

  lemma AckMoves(d: Tables, cfg: Config, a: Timed, k: Key, q: int)
    requires a.call.Ack? && HeldRow(d, a.call.claim) && (k, q) in Step(d, cfg, a).tasks
    ensures Moved(d, a, k, q, Step(d, cfg, a).tasks[(k, q)])
  {
    var j := a.call.claim.key;
    var y := AckTuple(TupleAt(d, j), a.call.through, a.now);
    if k == j && q in y.rows {
      KeptMoves(d, a, k, q);
    }
    SetMoves(d, a, j, y, k, q);
  }

  /** Counting a failure on one unit's rows. */
  lemma CountMoves(d: Tables, a: Timed, q: int)
    requires a.call.Fail? && HeldRow(d, a.call.claim)
    ensures var f := CountFailure(TupleAt(d, a.call.claim.key), a.call.seqNo);
            q in f.rows ==> Moved(d, a, a.call.claim.key, q, f.rows[q])
  {
    InRows(d.tasks, a.call.claim.key, q);
  }

  lemma FailMoves(d: Tables, cfg: Config, a: Timed, k: Key, q: int)
    requires a.call.Fail? && HeldRow(d, a.call.claim) && (k, q) in Step(d, cfg, a).tasks
    ensures Moved(d, a, k, q, Step(d, cfg, a).tasks[(k, q)])
  {
    var j, seqNo := a.call.claim.key, a.call.seqNo;
    var x := TupleAt(d, j);
    var f := CountFailure(x, seqNo);
    CountMoves(d, a, q);
    var y := if AtCap(x, seqNo, cfg.maxAttempts) then BuryTuple(f, seqNo, f.rows[seqNo].cost, a.now) else f.(row := Freed(f.row));
    SetMoves(d, a, j, y, k, q);
  }

  lemma RowMoves(d: Tables, cfg: Config, a: Timed, k: Key, q: int)
    requires (k, q) in Step(d, cfg, a).tasks
    ensures Moved(d, a, k, q, Step(d, cfg, a).tasks[(k, q)])
  {
    match a.call
    case Enqueue(_, _, _) => EnqueueMoves(d, cfg, a, k, q);
    case Ack(c, _) =>
      if HeldRow(d, c) {
        AckMoves(d, cfg, a, k, q);
      }
    case Fail(c, _, _) =>
      if HeldRow(d, c) {
        FailMoves(d, cfg, a, k, q);
      }
    case _ =>
  }

  /** A failure that brings the first of a key's tasks up to the cap. */
  ghost predicate LastStraw(d: Tables, cfg: Config, a: Timed) {
    a.call.Fail? && HeldRow(d, a.call.claim) && (a.call.claim.key, a.call.seqNo) in d.tasks
    && (forall q :: (a.call.claim.key, q) in d.tasks ==> a.call.seqNo <= q)
    && d.tasks[(a.call.claim.key, a.call.seqNo)].attempts + 1 >= cfg.maxAttempts
  }

  /** The row that it moves. */
  ghost function Straw(d: Tables, cfg: Config, a: Timed): DeadRow
    requires LastStraw(d, cfg, a)
  {
    var k, q := a.call.claim.key, a.call.seqNo;
    DeadRow(k, q, Counted(d.tasks[(k, q)], 1), a.call.reason)
  }

  lemma CapIsStraw(d: Tables, cfg: Config, a: Timed)
    requires a.call.Fail? && HeldRow(d, a.call.claim)
    ensures var x := TupleAt(d, a.call.claim.key); var f := CountFailure(x, a.call.seqNo);
            && (AtCap(x, a.call.seqNo, cfg.maxAttempts) <==> LastStraw(d, cfg, a))
            && (LastStraw(d, cfg, a) ==>
                  a.call.seqNo in f.rows && f.rows[a.call.seqNo] == Straw(d, cfg, a).task)
  {
    var k, seqNo := a.call.claim.key, a.call.seqNo;
    InRows(d.tasks, k, seqNo);
    var f := CountFailure(TupleAt(d, k), seqNo);
    forall q ensures q in f.rows <==> (k, q) in d.tasks {
      InRows(d.tasks, k, q);
    }
  }

  /** Rows go to the dead letters exactly by a last straw: the task as it stands, which is gone from the tasks. */
  lemma DeadMoves(d: Tables, cfg: Config, a: Timed)
    ensures var e := Step(d, cfg, a);
            if LastStraw(d, cfg, a)
            then e.dead == d.dead + [Straw(d, cfg, a)] && (a.call.claim.key, a.call.seqNo) !in e.tasks
            else e.dead == d.dead
  {
    if a.call.Fail? && HeldRow(d, a.call.claim) {
      CapIsStraw(d, cfg, a);
      if LastStraw(d, cfg, a) {
        var k, f := a.call.claim.key, CountFailure(TupleAt(d, a.call.claim.key), a.call.seqNo);
        StoredRow(d, k, BuryTuple(f, a.call.seqNo, f.rows[a.call.seqNo].cost, a.now), k, a.call.seqNo);
      }
    }
  }

  // ---------- whole runs ----------

  lemma {:induction false} NumbersAreCounted(cfg: Config, acts: seq<Timed>, k: Key)
    ensures NextSeq(After(cfg, acts), k) == |Enqueued(acts, k)|
  {
    if acts != [] {
      var before, a := acts[..|acts| - 1], acts[|acts| - 1];
      NumbersAreCounted(cfg, before, k);
      CounterMoves(After(cfg, before), cfg, a, k);
    }
  }

  lemma EnqueuedMore(acts: seq<Timed>, k: Key)
    requires acts != []
    ensures Enqueued(acts[..|acts| - 1], k) <= Enqueued(acts, k)
  {
  }

  /**
   In every run from empty tables, whatever was called: a task row is what was enqueued under its number, and
   its attempts are the failures that named it.
   */
  lemma {:induction false} LiveRow(cfg: Config, acts: seq<Timed>, k: Key, q: int)
    requires (k, q) in After(cfg, acts).tasks
    ensures 0 <= q < |Enqueued(acts, k)|
    ensures After(cfg, acts).tasks[(k, q)] == Counted(Enqueued(acts, k)[q], Failures(cfg, acts, k, q))
    decreases |acts|, 1
  {
    var before, a := acts[..|acts| - 1], acts[|acts| - 1];
    var d := After(cfg, before);
    RowMoves(d, cfg, a, k, q);
    NumbersAreCounted(cfg, before, k);
    EnqueuedMore(acts, k);
    if Adds(d, a, k, q) {
      Unfailed(cfg, before, k, q);
      if Names(d, a, k, q) {
        LiveRow(cfg, before, k, q);
      }
    } else {
      LiveRow(cfg, before, k, q);
    }
  }

  /** Nothing fails before it was enqueued. */
  lemma {:induction false} Unfailed(cfg: Config, acts: seq<Timed>, k: Key, q: int)
    requires q >= |Enqueued(acts, k)|
    ensures Failures(cfg, acts, k, q) == 0
    decreases |acts|, 0
  {
    if acts != [] {
      var before := acts[..|acts| - 1];
      EnqueuedMore(acts, k);
      Unfailed(cfg, before, k, q);
      if Names(After(cfg, before), acts[|acts| - 1], k, q) {
        LiveRow(cfg, before, k, q);
      }
    }
  }

  /** A row is what was enqueued under its number with its failures counted. */
  ghost predicate Recorded(cfg: Config, acts: seq<Timed>, k: Key, q: int, row: TaskRow) {
    0 <= q < |Enqueued(acts, k)| && row == Counted(Enqueued(acts, k)[q], Failures(cfg, acts, k, q))
  }

  /** It stays so once the task is gone. */
  lemma RecordStays(cfg: Config, acts: seq<Timed>, k: Key, q: int, row: TaskRow)
    requires acts != [] && Recorded(cfg, acts[..|acts| - 1], k, q, row)
    requires (k, q) !in After(cfg, acts[..|acts| - 1]).tasks
    ensures Recorded(cfg, acts, k, q, row)
  {
    EnqueuedMore(acts, k);
  }

  /** The next failure is counted on it. */
  lemma RecordCounts(cfg: Config, acts: seq<Timed>, k: Key, q: int, row: TaskRow)
    requires acts != [] && Recorded(cfg, acts[..|acts| - 1], k, q, row)
    requires Names(After(cfg, acts[..|acts| - 1]), acts[|acts| - 1], k, q)
    ensures Recorded(cfg, acts, k, q, Counted(row, 1))
  {
    EnqueuedMore(acts, k);
  }

  /** A number that every live task of the key comes after. */
  ghost predicate Before(d: Tables, k: Key, q: int) {
    forall r :: (k, r) in d.tasks ==> q < r
  }

  lemma BeforeStays(d: Tables, cfg: Config, a: Timed, k: Key, q: int)
    requires Before(d, k, q) && q < NextSeq(d, k)
    ensures Before(Step(d, cfg, a), k, q)
  {
    forall r | (k, r) in Step(d, cfg, a).tasks ensures q < r {
      RowMoves(d, cfg, a, k, r);
    }
  }

  lemma BeforeBegins(d: Tables, cfg: Config, a: Timed)
    requires LastStraw(d, cfg, a)
    ensures Before(Step(d, cfg, a), a.call.claim.key, a.call.seqNo)
  {
    var k, q := a.call.claim.key, a.call.seqNo;
    DeadMoves(d, cfg, a);
    forall r | (k, r) in Step(d, cfg, a).tasks ensures q < r {
      RowMoves(d, cfg, a, k, r);
    }
  }

  /**
   In every run from empty tables, whatever was called: a dead letter is what was enqueued under its number,
   its attempts are the failures that named it and at least the cap, and every task of its key that is still
   there comes after it.
   */
  lemma {:induction false} DeadRowIs(cfg: Config, acts: seq<Timed>, i: nat)
    requires i < |After(cfg, acts).dead|
    ensures var x := After(cfg, acts).dead[i];
            && Recorded(cfg, acts, x.key, x.seqNo, x.task) && x.task.attempts >= cfg.maxAttempts
            && Before(After(cfg, acts), x.key, x.seqNo)
  {
    var before, a := acts[..|acts| - 1], acts[|acts| - 1];
    var d := After(cfg, before);
    DeadMoves(d, cfg, a);
    if i < |d.dead| {
      DeadRowIs(cfg, before, i);
      DeadStays(cfg, acts, d.dead[i]);
    } else {
      LiveRow(cfg, before, a.call.claim.key, a.call.seqNo);
      RecordCounts(cfg, acts, a.call.claim.key, a.call.seqNo, d.tasks[(a.call.claim.key, a.call.seqNo)]);
      BeforeBegins(d, cfg, a);
    }
  }

  lemma DeadStays(cfg: Config, acts: seq<Timed>, x: DeadRow)
    requires acts != [] && Recorded(cfg, acts[..|acts| - 1], x.key, x.seqNo, x.task)
    requires Before(After(cfg, acts[..|acts| - 1]), x.key, x.seqNo)
    ensures Recorded(cfg, acts, x.key, x.seqNo, x.task) && Before(After(cfg, acts), x.key, x.seqNo)
  {
    var before := acts[..|acts| - 1];
    NumbersAreCounted(cfg, before, x.key);
    RecordStays(cfg, acts, x.key, x.seqNo, x.task);
    BeforeStays(After(cfg, before), cfg, acts[|acts| - 1], x.key, x.seqNo);
  }

  /** The dead letters of a key are in order of arrival, so no task is buried twice. */
  lemma {:induction false} DeadInOrder(cfg: Config, acts: seq<Timed>, i: nat, j: nat)
    requires i < j < |After(cfg, acts).dead| && After(cfg, acts).dead[i].key == After(cfg, acts).dead[j].key
    ensures After(cfg, acts).dead[i].seqNo < After(cfg, acts).dead[j].seqNo
  {
    var before, a := acts[..|acts| - 1], acts[|acts| - 1];
    var d := After(cfg, before);
    DeadMoves(d, cfg, a);
    if j < |d.dead| {
      DeadInOrder(cfg, before, i, j);
    } else {
      DeadRowIs(cfg, before, i);
    }
  }

  // ---------- conservation ----------

  /** A holder acknowledges the task. */
  ghost predicate Covers(d: Tables, a: Timed, k: Key, q: int) {
    a.call.Ack? && a.call.claim.key == k && HeldRow(d, a.call.claim) && (k, q) in d.tasks && q <= a.call.through
  }

  ghost predicate Buries(d: Tables, cfg: Config, a: Timed, k: Key, q: int) {
    LastStraw(d, cfg, a) && a.call.claim.key == k && a.call.seqNo == q
  }

  /** A task goes exactly when its holder acknowledges it or it is moved to the dead letters. */
  lemma RowStays(d: Tables, cfg: Config, a: Timed, k: Key, q: int)
    requires (k, q) in d.tasks && k in d.units
    ensures (k, q) in Step(d, cfg, a).tasks <==> !Covers(d, a, k, q) && !Buries(d, cfg, a, k, q)
  {
    InRows(d.tasks, k, q);
    match a.call
    case Enqueue(j, payload, cost) => StoredRow(d, j, Upserted(d, j, payload, cost, cfg, a.now), k, q);
    case Ack(c, through) =>
      if HeldRow(d, c) {
        StoredRow(d, c.key, AckTuple(TupleAt(d, c.key), through, a.now), k, q);
      }
    case Fail(c, _, _) =>
      if HeldRow(d, c) {
        FailStays(d, cfg, a, k, q);
      }
    case _ =>
  }

  lemma FailStays(d: Tables, cfg: Config, a: Timed, k: Key, q: int)
    requires (k, q) in d.tasks && a.call.Fail? && HeldRow(d, a.call.claim)
    ensures (k, q) in Step(d, cfg, a).tasks <==> !Buries(d, cfg, a, k, q)
  {
    var j, seqNo := a.call.claim.key, a.call.seqNo;
    var f := CountFailure(TupleAt(d, j), seqNo);
    InRows(d.tasks, k, q);
    CapIsStraw(d, cfg, a);
    if LastStraw(d, cfg, a) {
      StoredRow(d, j, BuryTuple(f, seqNo, f.rows[seqNo].cost, a.now), k, q);
    } else {
      StoredRow(d, j, f.(row := Freed(f.row)), k, q);
    }
  }

  ghost predicate WasAcked(cfg: Config, acts: seq<Timed>, k: Key, q: int) {
    acts != [] &&
    (WasAcked(cfg, acts[..|acts| - 1], k, q) || Covers(After(cfg, acts[..|acts| - 1]), acts[|acts| - 1], k, q))
  }

  ghost predicate IsDead(d: Tables, k: Key, q: int) {
    exists i :: 0 <= i < |d.dead| && d.dead[i].key == k && d.dead[i].seqNo == q
  }

  lemma DeadSteps(d: Tables, cfg: Config, a: Timed, k: Key, q: int)
    ensures IsDead(Step(d, cfg, a), k, q) <==> IsDead(d, k, q) || Buries(d, cfg, a, k, q)
  {
    var e := Step(d, cfg, a);
    DeadMoves(d, cfg, a);
    if IsDead(d, k, q) {
      var i :| 0 <= i < |d.dead| && d.dead[i].key == k && d.dead[i].seqNo == q;
      assert e.dead[i] == d.dead[i];
    }
    if Buries(d, cfg, a, k, q) {
      assert e.dead[|d.dead|] == Straw(d, cfg, a);
    }
  }

  /** Where a task may be: still there, acknowledged, or dead. */
  ghost predicate Accounted(cfg: Config, acts: seq<Timed>, k: Key, q: int) {
    var live, acked, dead := (k, q) in After(cfg, acts).tasks, WasAcked(cfg, acts, k, q), IsDead(After(cfg, acts), k, q);
    (0 <= q < |Enqueued(acts, k)| <==> live || acked || dead) && !(live && acked) && !(live && dead) && !(acked && dead)
  }

  /**
   In every run from empty tables, whatever was called: each task enqueued is in exactly one place, in the
   tasks, among the acknowledged or among the dead letters, and nothing else is.
   */
  lemma {:induction false} TasksAreConserved(cfg: Config, acts: seq<Timed>, k: Key, q: int)
    ensures Accounted(cfg, acts, k, q)
  {
    if acts != [] {
      var before, a := acts[..|acts| - 1], acts[|acts| - 1];
      var d := After(cfg, before);
      TasksAreConserved(cfg, before, k, q);
      NumbersAreCounted(cfg, before, k);
      DeadSteps(d, cfg, a, k, q);
      if (k, q) in d.tasks {
        RowStays(d, cfg, a, k, q);
      } else if (k, q) in Step(d, cfg, a).tasks {
        RowMoves(d, cfg, a, k, q);
      } else if Adds(d, a, k, q) {
        StoredRow(d, k, Upserted(d, k, a.call.payload, a.call.cost, cfg, a.now), k, q);
      }
    }
  }

  // ---------- dead letters and the history ----------

  function SeqsOfDead(dead: seq<DeadRow>, k: Key): seq<int> {
    if dead == [] then [] else
    SeqsOfDead(dead[..|dead| - 1], k) + if dead[|dead| - 1].key == k then [dead[|dead| - 1].seqNo] else []
  }

  function DeadIndices(log: seq<History.Event>): seq<int> {
    if log == [] then [] else
    DeadIndices(log[..|log| - 1]) + if log[|log| - 1].Dead? then [log[|log| - 1].index] else []
  }

  lemma SeqsPush(dead: seq<DeadRow>, x: DeadRow, k: Key)
    ensures SeqsOfDead(dead + [x], k) == SeqsOfDead(dead, k) + if x.key == k then [x.seqNo] else []
  {
    assert (dead + [x])[..|dead|] == dead;
  }

  lemma IndicesPush(log: seq<History.Event>, e: History.Event)
    ensures DeadIndices(log + [e]) == DeadIndices(log) + if e.Dead? then [e.index] else []
  {
    assert (log + [e])[..|log|] == log;
  }

  lemma {:induction false} IndicesAcked(log: seq<History.Event>, first: int, n: nat)
    ensures DeadIndices(log + History.AckedRun(first, n)) == DeadIndices(log)
  {
    if n == 0 {
      assert log + History.AckedRun(first, 0) == log;
    } else {
      IndicesAcked(log, first, n - 1);
      History.AckedRunPush(log, first, n);
      IndicesPush(log + History.AckedRun(first, n - 1), History.Acked(first + n - 1));
    }
  }

  ghost predicate DeadLogged(d: Tables, w: History.World<Key>, k: Key) {
    SeqsOfDead(d.dead, k) == DeadIndices(History.Log(w, k))
  }

  /** The oracle's step buries the head of k. */
  ghost predicate Entombs(w: History.World<Key>, t: History.Timed<Key>, k: Key) {
    t.op.Fault? && t.op.claim.key == k && Held(w.queue, t.op.claim) &&
    Poison(w.queue.units[k], t.op.seqNo, w.queue.cfg.maxAttempts)
  }

  lemma FaultLogs(w: History.World<Key>, t: History.Timed<Key>, k: Key)
    requires t.op.Fault? && History.Head(w, k) >= 0
    ensures History.Log(History.Next(w, t), k)
              == History.Log(w, k) + if Entombs(w, t, k) then [History.Dead(History.Head(w, k))] else []
  {
    var x := History.FaultParts(w, t, k, History.Next(w, t));
  }

  lemma PlainLogs(w: History.World<Key>, t: History.Timed<Key>, k: Key)
    requires !t.op.Fault? && !t.op.Settle?
    ensures History.Log(History.Next(w, t), k) == History.Log(w, k)
  {
    if !t.op.Arrive? {
      History.QuietParts(w, t, k);
    } else if t.op.key == k {
      History.ArriveParts(w, t);
    } else {
      History.ArriveOther(w, t, k);
    }
  }

  lemma SettleLogs(w: History.World<Key>, t: History.Timed<Key>, k: Key, n: History.World<Key>)
    requires t.op.Settle? && History.Head(w, k) >= 0 && n == History.Next(w, t)
    ensures DeadIndices(History.Log(n, k)) == DeadIndices(History.Log(w, k))
  {
    var gone := History.SettleParts(w, t, k, n);
    IndicesAcked(History.Log(w, k), History.Head(w, k), gone);
  }

  lemma LogsDead(w: History.World<Key>, t: History.Timed<Key>, k: Key)
    requires History.Head(w, k) >= 0
    ensures DeadIndices(History.Log(History.Next(w, t), k))
              == DeadIndices(History.Log(w, k)) + if Entombs(w, t, k) then [History.Head(w, k)] else []
  {
    if t.op.Fault? {
      FaultLogs(w, t, k);
      IndicesPush(History.Log(w, k), History.Dead(History.Head(w, k)));
    } else if t.op.Settle? {
      SettleLogs(w, t, k, History.Next(w, t));
    } else {
      PlainLogs(w, t, k);
    }
  }

  /** The oracle buries the same task at the same time. */
  lemma StrawIsPoison(d: Tables, w: History.World<Key>, a: Timed)
    requires Wf(d, w.queue, w.clock) && a.call.Fail? && HeldRow(d, a.call.claim)
    ensures var k := a.call.claim.key; var upto := OracleSeq(d, w.queue, k, a.call.seqNo);
            && Held(w.queue, a.call.claim)
            && (LastStraw(d, w.queue.cfg, a) ==>
                  Poison(w.queue.units[k], upto, w.queue.cfg.maxAttempts) &&
                  a.call.seqNo == d.units[k].nextSeq + 1 - |w.queue.units[k].queue|)
            && (Obeys(d, a) && Poison(w.queue.units[k], upto, w.queue.cfg.maxAttempts) ==> LastStraw(d, w.queue.cfg, a))
  {
    var k := a.call.claim.key;
    HeldAgrees(d, w.queue, a.call.claim);
    UnitKnown(d, w.queue, w.clock, k);
    HeadIsLeast(TupleAt(d, k), w.queue.units[k], a.call.seqNo, w.queue.cfg.maxAttempts);
    CapIsStraw(d, w.queue.cfg, a);
  }

  lemma StepLogs(d: Tables, w: History.World<Key>, a: Timed, k: Key)
    requires Matches(d, w) && Obeys(d, a)
    requires DeadLogged(d, w, k) && SeqIsIndex(d, w, k) && History.KeyHistory(w, k)
    ensures DeadLogged(Step(d, w.queue.cfg, a), History.Next(w, Image(d, w.queue, a)), k)
  {
    LogsDead(w, Image(d, w.queue, a), k);
    DeadMoves(d, w.queue.cfg, a);
    if a.call.Fail? {
      StrawEntombs(d, w, a, k);
      if LastStraw(d, w.queue.cfg, a) {
        SeqsPush(d.dead, Straw(d, w.queue.cfg, a), k);
      }
    }
  }

  lemma StrawEntombs(d: Tables, w: History.World<Key>, a: Timed, k: Key)
    requires Wf(d, w.queue, w.clock) && Obeys(d, a) && a.call.Fail? && SeqIsIndex(d, w, k)
    ensures var mine := LastStraw(d, w.queue.cfg, a) && a.call.claim.key == k;
            && (Entombs(w, Image(d, w.queue, a), k) <==> mine) && (mine ==> a.call.seqNo == History.Head(w, k))
  {
    HeldAgrees(d, w.queue, a.call.claim);
    if HeldRow(d, a.call.claim) {
      StrawIsPoison(d, w, a);
    }
  }

  /** After any obedient run from empty tables the dead letters of a key carry the places of the arrivals logged dead. */
  lemma DeadAreLogged(cfg: Config, acts: seq<Timed>, k: Key)
    requires cfg.threshold > 0 && cfg.maxWait >= 0 && cfg.maxAttempts > 0
    requires Obedient(NewTables(), History.Start(cfg), acts)
    ensures SeqsOfDead(After(cfg, acts).dead, k) == DeadIndices(History.Log(Follow(NewTables(), History.Start(cfg), acts), k))
  {
    History.StartHistory<Key>(cfg);
    RunLogs(NewTables(), History.Start(cfg), acts, k);
  }

  lemma {:induction false} RunLogs(d: Tables, w: History.World<Key>, acts: seq<Timed>, k: Key)
    requires Matches(d, w) && Obedient(d, w, acts) && History.HistoryInv(w)
    requires DeadLogged(d, w, k) && SeqIsIndex(d, w, k)
    ensures DeadLogged(Run(d, w.queue.cfg, acts), Follow(d, w, acts), k)
  {
    if acts != [] {
      var before, a := acts[..|acts| - 1], acts[|acts| - 1];
      RunLogs(d, w, before, k);
      var ts := RunSimulates(d, w, before);
      SeqsAreIndices(d, w, before, k);
      History.RunHistory(w, ts);
      assert History.KeyHistory(Follow(d, w, before), k);
      StepLogs(Run(d, w.queue.cfg, before), Follow(d, w, before), a, k);
    }
  }
}
