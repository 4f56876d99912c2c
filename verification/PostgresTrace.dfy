/**
 Runs on which the tables part ways with the oracle: a heartbeat that changes the window, a failure
 reported for a task behind the head, and the failure count such a task brings along when it moves up.
 */
module PostgresTrace {
  import opened Contract
  import opened Oracle
  import opened PostgresRows
  import opened PostgresTables
  import P = PostgresRuns
  import History

  /** A run from empty tables after which one more permitted step is not the oracle's. */
  ghost predicate Departs(cfg: Config, acts: seq<P.Timed>, a: P.Timed) {
    P.Legal(NewTables(), P.Empty(cfg), 0, acts) &&
    Parts(P.Run(NewTables(), cfg, acts), P.Tracked(NewTables(), P.Empty(cfg), acts), P.Clock(0, acts), a)
  }

  ghost predicate Parts(d: Tables, s: State<Key>, clock: int, a: P.Timed) {
    P.Permitted(d, s, clock, a) && !Wf(P.Step(d, s.cfg, a), History.Effect(s, P.Image(d, s, a)), a.now)
  }

  // ---------- one step at a time ----------

  /** One unit in the tables, and these tokens handed out. */
  ghost predicate At(d: Tables, s: State<Key>, k: Key, x: Tuple, issued: set<string>) {
    Wf(d, s, 0) && SoleUnit(d, k, x) && s.issued == issued
  }

  predicate SoleUnit(d: Tables, k: Key, x: Tuple) {
    d.units.Keys == {k} && TupleAt(d, k) == x
  }

  lemma EnqueueSole(d: Tables, cfg: Config, k: Key, payload: string, cost: int)
    requires d.units.Keys <= {k}
    ensures SoleUnit(EnqueueRows(d, k, payload, cost, cfg, 0), k, Upserted(d, k, payload, cost, cfg, 0))
  {
    PutGets(d.tasks, k, Upserted(d, k, payload, cost, cfg, 0).rows);
  }

  function EnqueueCall(k: Key, payload: string, cost: int): P.Timed {
    P.Timed(0, P.Enqueue(k, payload, cost))
  }

  lemma AfterEnqueue(d: Tables, s: State<Key>, k: Key, payload: string, cost: int)
    requires Wf(d, s, 0) && d.units.Keys <= {k} && cost > 0
    ensures P.Permitted(d, s, 0, EnqueueCall(k, payload, cost))
    ensures At(P.Step(d, s.cfg, EnqueueCall(k, payload, cost)), P.Track(d, s, EnqueueCall(k, payload, cost)), k,
               Upserted(d, k, payload, cost, s.cfg, 0), s.issued)
  {
    P.StepTracks(d, s, 0, EnqueueCall(k, payload, cost));
    EnqueueSole(d, s.cfg, k, payload, cost);
  }

  function ClaimCall(k: Key, token: string): P.Timed {
    P.Timed(0, P.Claim(k, "w", token, 0))
  }

  /** A claim of the one unit there is. */
  lemma AfterClaim(d: Tables, s: State<Key>, k: Key, x: Tuple, token: string, y: Tuple, issued: set<string>)
    requires Wf(d, s, 0) && SoleUnit(d, k, x) && Free(x.row) && token !in s.issued
    requires y == x.(row := LeasedRow(x.row, "w", token, 0, 0)) && issued == s.issued + {token}
    ensures P.Permitted(d, s, 0, ClaimCall(k, token))
    ensures At(P.Step(d, s.cfg, ClaimCall(k, token)), P.Track(d, s, ClaimCall(k, token)), k, y, issued)
  {
    FreeIsClaimable(d, s, 0, k);
    P.StepTracks(d, s, 0, ClaimCall(k, token));
  }

  function ClaimOf(k: Key, token: string): Claimed<Key> {
    Claimed(k, "w", token, 0)
  }

  function FailCall(k: Key, token: string, seqNo: int): P.Timed {
    P.Timed(0, P.Fail(ClaimOf(k, token), seqNo, "fault"))
  }

  predicate HeldBy(x: Tuple, token: string) {
    x.row.claimedBy == Some("w") && x.row.leaseToken == Some(token) && x.row.leaseMs == 0
  }

  /** A failure that buries nothing. */
  lemma AfterFail(d: Tables, s: State<Key>, k: Key, x: Tuple, token: string, seqNo: int)
    requires Wf(d, s, 0) && SoleUnit(d, k, x) && HeldBy(x, token) && !AtCap(x, seqNo, s.cfg.maxAttempts)
    ensures P.Permitted(d, s, 0, FailCall(k, token, seqNo))
    ensures At(P.Step(d, s.cfg, FailCall(k, token, seqNo)), P.Track(d, s, FailCall(k, token, seqNo)), k,
               CountFailure(x, seqNo).(row := Freed(x.row)), s.issued)
  {
    FailSole(d, s.cfg, k, x, token, seqNo);
    IssuedStays(d, s, FailCall(k, token, seqNo));
    P.StepTracks(d, s, 0, FailCall(k, token, seqNo));
  }

  lemma FailSole(d: Tables, cfg: Config, k: Key, x: Tuple, token: string, seqNo: int)
    requires SoleUnit(d, k, x) && HeldBy(x, token) && !AtCap(x, seqNo, cfg.maxAttempts)
    ensures SoleUnit(P.Step(d, cfg, FailCall(k, token, seqNo)), k, CountFailure(x, seqNo).(row := Freed(x.row)))
  {
    P.FailTuple(d, k, seqNo, "fault", cfg.maxAttempts, 0);
  }

  lemma IssuedStays(d: Tables, s: State<Key>, a: P.Timed)
    requires a.call.Fail?
    ensures P.Track(d, s, a).issued == s.issued
  {
  }

  // ---------- the steps that depart ----------

  lemma ExtendParts(d: Tables, s: State<Key>, k: Key, x: Tuple, token: string)
    requires Wf(d, s, 0) && SoleUnit(d, k, x) && HeldBy(x, token)
    ensures Parts(d, s, 0, P.Timed(0, P.Heartbeat(ClaimOf(k, token), 1)))
  {
    P.StepAgrees(d, s, 0, P.Timed(0, P.Heartbeat(ClaimOf(k, token), 1)));
  }

  lemma FailParts(d: Tables, s: State<Key>, k: Key, x: Tuple, token: string, seqNo: int)
    requires Wf(d, s, 0) && SoleUnit(d, k, x) && HeldBy(x, token) && !LeastSeq(x.rows, seqNo)
    ensures Parts(d, s, 0, FailCall(k, token, seqNo))
  {
    P.StepAgrees(d, s, 0, FailCall(k, token, seqNo));
  }

  lemma AckParts(d: Tables, s: State<Key>, k: Key, x: Tuple, token: string, through: int)
    requires Wf(d, s, 0) && SoleUnit(d, k, x) && HeldBy(x, token) && !P.FreshNext(x.rows, through)
    ensures Parts(d, s, 0, P.Timed(0, P.Ack(ClaimOf(k, token), through)))
  {
    assert TupleAt(d, k).rows == x.rows;
    P.StepAgrees(d, s, 0, P.Timed(0, P.Ack(ClaimOf(k, token), through)));
  }

  /** An eligible unit of two tasks that never failed. */
  predicate NeverFailed(x: Tuple) {
    x.row.eligible && x.rows.Keys == {0, 1} && x.rows[0].attempts == x.rows[1].attempts == 0
  }

  lemma TwoRows(cfg: Config, x: Tuple)
    requires cfg.threshold > 0 && x == EnqueuedTuple(InsertedTuple("first", cfg.threshold, cfg, 0), "second", cfg.threshold, 0)
    ensures Free(x.row) && NeverFailed(x)
  {
  }

  lemma SecondCounted(x: Tuple, cap: int)
    requires x.rows.Keys == {0, 1} && x.rows[1].attempts == 0
    ensures var f := CountFailure(x, 1);
            !AtCap(x, 1, cap) && f.rows.Keys == {0, 1} && f.rows[1].attempts == 1
  {
    assert 0 in CountFailure(x, 1).rows;
  }

  /** Two tasks that never failed. */
  function TwoEnqueued(cfg: Config, k: Key): seq<P.Timed> {
    [] + [EnqueueCall(k, "first", cfg.threshold)] + [EnqueueCall(k, "second", cfg.threshold)]
  }

  /** The same, claimed. */
  function TwoClaimed(cfg: Config, k: Key): seq<P.Timed> {
    TwoEnqueued(cfg, k) + [ClaimCall(k, "1")]
  }

  /** Where a run has led the tables and the state they are tracked by. */
  ghost predicate Reached(cfg: Config, acts: seq<P.Timed>, d: Tables, s: State<Key>) {
    && P.Legal(NewTables(), P.Empty(cfg), 0, acts) && P.Clock(0, acts) == 0 && s.cfg == cfg
    && d == P.Run(NewTables(), cfg, acts) && s == P.Tracked(NewTables(), P.Empty(cfg), acts)
  }

  /** A run with one more step. */
  lemma Taken(cfg: Config, acts: seq<P.Timed>, a: P.Timed, d: Tables, s: State<Key>)
    requires Reached(cfg, acts, d, s) && P.Permitted(d, s, 0, a) && a.now == 0
    ensures Reached(cfg, acts + [a], P.Step(d, s.cfg, a), P.Track(d, s, a))
  {
    P.TrackedRunGrows(NewTables(), P.Empty(cfg), 0, acts, a);
    P.TrackCfg(d, s, a);
  }

  lemma OneEnqueuedRuns(cfg: Config, k: Key) returns (d: Tables, s: State<Key>)
    requires cfg.threshold > 0 && cfg.maxWait >= 0 && cfg.maxAttempts > 0
    ensures Reached(cfg, [] + [EnqueueCall(k, "first", cfg.threshold)], d, s)
    ensures At(d, s, k, InsertedTuple("first", cfg.threshold, cfg, 0), {})
  {
    d, s := NewTables(), P.Empty(cfg);
    AfterEnqueue(d, s, k, "first", cfg.threshold);
    Taken(cfg, [], EnqueueCall(k, "first", cfg.threshold), d, s);
    d, s := P.Step(d, s.cfg, EnqueueCall(k, "first", cfg.threshold)), P.Track(d, s, EnqueueCall(k, "first", cfg.threshold));
  }

  lemma TwoEnqueuedRuns(cfg: Config, k: Key) returns (d: Tables, s: State<Key>, x: Tuple)
    requires cfg.threshold > 0 && cfg.maxWait >= 0 && cfg.maxAttempts > 0
    ensures Reached(cfg, TwoEnqueued(cfg, k), d, s) && At(d, s, k, x, {}) && Free(x.row) && NeverFailed(x)
  {
    var e, t := OneEnqueuedRuns(cfg, k);
    var a := EnqueueCall(k, "second", cfg.threshold);
    AfterEnqueue(e, t, k, "second", cfg.threshold);
    Taken(cfg, [] + [EnqueueCall(k, "first", cfg.threshold)], a, e, t);
    d, s := P.Step(e, t.cfg, a), P.Track(e, t, a);
    x := EnqueuedTuple(InsertedTuple("first", cfg.threshold, cfg, 0), "second", cfg.threshold, 0);
    TwoRows(cfg, x);
  }

  lemma TwoClaimedRuns(cfg: Config, k: Key) returns (d: Tables, s: State<Key>, x: Tuple)
    requires cfg.threshold > 0 && cfg.maxWait >= 0 && cfg.maxAttempts > 0
    ensures Reached(cfg, TwoClaimed(cfg, k), d, s) && At(d, s, k, x, {"1"}) && HeldBy(x, "1") && NeverFailed(x)
  {
    var e, t, two := TwoEnqueuedRuns(cfg, k);
    d, s, x := FirstClaim(cfg, TwoEnqueued(cfg, k), e, t, k, two);
  }

  lemma FirstClaim(cfg: Config, acts: seq<P.Timed>, e: Tables, t: State<Key>, k: Key, two: Tuple)
    returns (d: Tables, s: State<Key>, x: Tuple)
    requires Reached(cfg, acts, e, t) && At(e, t, k, two, {}) && Free(two.row) && NeverFailed(two)
    ensures Reached(cfg, acts + [ClaimCall(k, "1")], d, s) && At(d, s, k, x, {"1"}) && HeldBy(x, "1") && NeverFailed(x)
  {
    x := two.(row := LeasedRow(two.row, "w", "1", 0, 0));
    d, s := ClaimTaken(cfg, acts, e, t, k, two, "1", x, {}, {"1"});
  }

  lemma ClaimTaken(cfg: Config, acts: seq<P.Timed>, d: Tables, s: State<Key>, k: Key, x: Tuple, token: string, y: Tuple,
                   before: set<string>, issued: set<string>) returns (e: Tables, t: State<Key>)
    requires Reached(cfg, acts, d, s) && At(d, s, k, x, before) && Free(x.row) && token !in before
    requires y == x.(row := LeasedRow(x.row, "w", token, 0, 0)) && issued == before + {token}
    ensures Reached(cfg, acts + [ClaimCall(k, token)], e, t) && At(e, t, k, y, issued)
  {
    AfterClaim(d, s, k, x, token, y, issued);
    Taken(cfg, acts, ClaimCall(k, token), d, s);
    e, t := P.Step(d, s.cfg, ClaimCall(k, token)), P.Track(d, s, ClaimCall(k, token));
  }

  /** The second of them failed once, and the unit was claimed again. */
  function FailedClaimed(cfg: Config, k: Key): seq<P.Timed> {
    TwoClaimed(cfg, k) + [FailCall(k, "1", 1)] + [ClaimCall(k, "2")]
  }

  lemma SecondFailed(cfg: Config, k: Key) returns (d: Tables, s: State<Key>, x: Tuple)
    requires cfg.threshold > 0 && cfg.maxWait >= 0 && cfg.maxAttempts > 0
    ensures Reached(cfg, TwoClaimed(cfg, k) + [FailCall(k, "1", 1)], d, s) && At(d, s, k, x, {"1"})
    ensures Free(x.row) && x.rows.Keys == {0, 1} && x.rows[1].attempts == 1
  {
    d, s, x := TwoClaimedRuns(cfg, k);
    SecondCounted(x, cfg.maxAttempts);
    AfterFail(d, s, k, x, "1", 1);
    Taken(cfg, TwoClaimed(cfg, k), FailCall(k, "1", 1), d, s);
    d, s := P.Step(d, s.cfg, FailCall(k, "1", 1)), P.Track(d, s, FailCall(k, "1", 1));
    x := CountFailure(x, 1).(row := Freed(x.row));
  }

  lemma FailedClaimedRuns(cfg: Config, k: Key) returns (d: Tables, s: State<Key>, x: Tuple)
    requires cfg.threshold > 0 && cfg.maxWait >= 0 && cfg.maxAttempts > 0
    ensures Reached(cfg, FailedClaimed(cfg, k), d, s) && At(d, s, k, x, {"1", "2"}) && HeldBy(x, "2")
    ensures x.rows.Keys == {0, 1} && x.rows[1].attempts == 1
  {
    var e, t, once := SecondFailed(cfg, k);
    x := once.(row := LeasedRow(once.row, "w", "2", 0, 0));
    d, s := ClaimTaken(cfg, TwoClaimed(cfg, k) + [FailCall(k, "1", 1)], e, t, k, once, "2", x, {"1"}, {"1", "2"});
  }

  /**
   For every threshold and retry cap: with two tasks enqueued and the unit claimed, a heartbeat that
   extends by another time than the claim did departs, and so does a failure of the second task; and once
   that task failed and the unit was claimed again, so does acknowledging the first.
   */
  lemma Departures(cfg: Config, k: Key)
    requires cfg.threshold > 0 && cfg.maxWait >= 0 && cfg.maxAttempts > 0
    ensures Departs(cfg, TwoClaimed(cfg, k), P.Timed(0, P.Heartbeat(ClaimOf(k, "1"), 1)))
    ensures Departs(cfg, TwoClaimed(cfg, k), FailCall(k, "1", 1))
    ensures Departs(cfg, FailedClaimed(cfg, k), P.Timed(0, P.Ack(ClaimOf(k, "2"), 0)))
  {
    var d, s, x := TwoClaimedRuns(cfg, k);
    ExtendParts(d, s, k, x, "1");
    FailParts(d, s, k, x, "1", 1);
    d, s, x := FailedClaimedRuns(cfg, k);
    assert LeastSeq(Beyond(x.rows, 0), 1);
    AckParts(d, s, k, x, "2", 0);
  }
}
