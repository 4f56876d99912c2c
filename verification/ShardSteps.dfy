/**
 A Valkey shard as a state machine whose steps are the scripts, and its forward simulation by the
 oracle: step by step, and over whole runs.
 */
module ShardSteps {
  import opened Contract
  import opened Oracle
  import opened Invariant
  import opened Streams
  import opened ShardState
  import opened Sums
  import opened SlotSteps
  import opened Tokens
  import History

  // ---------- one member's slot, stored and looked up ----------

  function SetScore(z: ZSet, m: string, score: Option<int>): ZSet {
    if score.Some? then z[m := score.value] else z - {m}
  }

  /** Write a member's slot; None deletes everything stored about it. */
  function SetSlot(d: Keyspace, m: string, y: Option<Slot>): Keyspace {
    if y.None?
    then d.(hashes := d.hashes - {m}, streams := d.streams - {m}, eligible := d.eligible - {m},
            pendingFlush := d.pendingFlush - {m}, leases := d.leases - {m})
    else d.(hashes := d.hashes[m := y.value.hash], streams := d.streams[m := y.value.stream],
            eligible := SetScore(d.eligible, m, y.value.ready),
            pendingFlush := SetScore(d.pendingFlush, m, y.value.waiting),
            leases := SetScore(d.leases, m, y.value.leased))
  }

  // ---------- the scripts ----------

  function EnqueueTo(d: Keyspace, m: string, payload: string, cost: int, cfg: Config, now: int): Keyspace {
    SetSlot(d, m, Some(Enqueued(SlotAt(d, m), payload, cost, cfg.threshold, cfg.maxWait, now)))
      .(pendingTasks := d.pendingTasks + 1)
  }

  /** The members a pop of the least score may return. */
  predicate Poppable(d: Keyspace, m: string) {
    m in d.eligible && forall k :: k in d.eligible ==> d.eligible[m] <= d.eligible[k]
  }

  function ClaimFrom(d: Keyspace, m: string, worker: string, token: string, window: int, now: int): Keyspace {
    SetSlot(d, m, Some(Lent(SlotAt(d, m), worker, token, window, now)))
  }

  /** The only check the scripts make of a claim. */
  predicate Presents(d: Keyspace, m: string, token: string) {
    m in d.hashes && d.hashes[m].leaseToken == Some(token)
  }

  function DrainFrom(d: Keyspace, m: string, max: nat): Keyspace {
    var x := SlotAt(d, m);
    SetSlot(d, m, Some(x.(stream := SplitDrain(x.stream, max, 0).0)))
  }

  /** How many entries an acknowledgement takes off: delivered and numbered at most through. */
  function Acknowledged(d: Keyspace, m: string, through: int): (n: nat)
    ensures var st := SlotAt(d, m).stream; n <= |st.entries| && n <= |st.pel|
  {
    Covered(Queue(Delivered(SlotAt(d, m).stream)), through)
  }

  function AckTo(d: Keyspace, m: string, through: int, now: int): Keyspace {
    var n := Acknowledged(d, m, through);
    SetSlot(d, m, Acked(SlotAt(d, m), n, now)).(pendingTasks := d.pendingTasks - n)
  }

  function ReleaseOf(d: Keyspace, m: string, now: int): Keyspace {
    var x := SlotAt(d, m);
    SetSlot(d, m, if x.stream.entries == [] then None else Some(Released(x, now)))
  }

  function HeartbeatOf(d: Keyspace, m: string, extend: int, now: int): Keyspace {
    SetSlot(d, m, Some(Renewed(SlotAt(d, m), now + extend)))
  }

  predicate PoisonHead(x: Slot, seqNo: int, cap: int) {
    x.hash.attempts + 1 >= cap && |x.stream.entries| > 0 && x.stream.entries[0].entry.task.seqNo == seqNo
  }

  function FailOf(d: Keyspace, m: string, seqNo: int, reason: string, cap: int, now: int): Keyspace {
    var x := SlotAt(d, m);
    var y := if x.stream.entries == [] then None else Failed(x, seqNo, cap, now);
    if PoisonHead(x, seqNo, cap)
    then SetSlot(d, m, y).(dlq := d.dlq + [DeadLetter(m, x.stream.entries[0].entry.task, reason)],
                           pendingTasks := d.pendingTasks - 1)
    else SetSlot(d, m, y)
  }

  function SweptSlot(d: Keyspace, m: string, now: int): Slot {
    Promoted(SlotSteps.Reclaimed(SlotAt(d, m), now), now)
  }

  function ReapAll(d: Keyspace, now: int): Keyspace {
    d.(hashes := map m | m in d.hashes :: SweptSlot(d, m, now).hash,
       eligible := map m | m in d.hashes && SweptSlot(d, m, now).ready.Some? :: SweptSlot(d, m, now).ready.value,
       pendingFlush := map m | m in d.hashes && SweptSlot(d, m, now).waiting.Some? :: SweptSlot(d, m, now).waiting.value,
       leases := map m | m in d.hashes && SweptSlot(d, m, now).leased.Some? :: SweptSlot(d, m, now).leased.value)
  }

  ghost function LapsedIn(d: Keyspace, now: int): set<string> {
    set m | m in d.hashes && Lapsed(SlotAt(d, m), now)
  }

  ghost function DueIn(d: Keyspace, now: int): set<string> {
    set m | m in d.hashes && Due(SlotSteps.Reclaimed(SlotAt(d, m), now), now)
  }

  /** The claim a token stands for: the worker it was drawn for, on the member it is presented for. */
  function Bearer(m: string, token: string): Claimed<string> {
    Claimed(m, WorkerOf(token), token, 0)
  }

  // ---------- storing a slot ----------

  lemma SetSlotElsewhere(d: Keyspace, m: string, y: Option<Slot>)
    ensures Elsewhere(d, SetSlot(d, m, y), m)
  {
  }

  lemma SetSlotAt(d: Keyspace, m: string, y: Option<Slot>)
    ensures var e := SetSlot(d, m, y);
            if y.Some? then m in e.hashes && m in e.streams && SlotAt(e, m) == y.value
            else m !in e.hashes && m !in e.streams && m !in e.eligible && m !in e.pendingFlush && m !in e.leases
  {
  }

  /** A slot written back with the scores it had only touches the hash and the stream. */
  lemma ScoresKept(d: Keyspace, m: string, y: Slot)
    requires y.ready == Score(d.eligible, m) && y.waiting == Score(d.pendingFlush, m) && y.leased == Score(d.leases, m)
    ensures SetSlot(d, m, Some(y)) == d.(hashes := d.hashes[m := y.hash], streams := d.streams[m := y.stream])
  {
    ScoreKept(d.eligible, m);
    ScoreKept(d.pendingFlush, m);
    ScoreKept(d.leases, m);
  }

  lemma ScoreKept(z: ZSet, m: string)
    ensures SetScore(z, m, Score(z, m)) == z
  {
  }

  /** The last slot written is the one that counts. */
  lemma SetTwice(d: Keyspace, m: string, x: Slot, y: Option<Slot>)
    ensures SetSlot(SetSlot(d, m, Some(x)), m, y) == SetSlot(d, m, y)
    ensures SlotAt(SetSlot(d, m, Some(x)), m) == x
  {
    if y.Some? {
      SetOver(d, m, x, y.value);
    } else {
      ForgetTwice(d.hashes, m, x.hash);
      ForgetTwice(d.streams, m, x.stream);
      ForgetScore(d.eligible, m, x.ready, None);
      ForgetScore(d.pendingFlush, m, x.waiting, None);
      ForgetScore(d.leases, m, x.leased, None);
    }
  }

  lemma SetOver(d: Keyspace, m: string, x: Slot, y: Slot)
    ensures SetSlot(SetSlot(d, m, Some(x)), m, Some(y)) == SetSlot(d, m, Some(y))
  {
    ForgetScore(d.eligible, m, x.ready, y.ready);
    ForgetScore(d.pendingFlush, m, x.waiting, y.waiting);
    ForgetScore(d.leases, m, x.leased, y.leased);
    OverTwice(d.hashes, m, x.hash, y.hash);
    OverTwice(d.streams, m, x.stream, y.stream);
  }

  lemma OverTwice<V>(before: map<string, V>, m: string, v: V, w: V)
    ensures before[m := v][m := w] == before[m := w]
  {
  }

  lemma ForgetTwice<V>(before: map<string, V>, m: string, v: V)
    ensures before[m := v] - {m} == before - {m}
  {
  }

  lemma ForgetScore(z: ZSet, m: string, a: Option<int>, b: Option<int>)
    ensures SetScore(SetScore(z, m, a), m, b) == SetScore(z, m, b)
    ensures SetScore(z, m, a) - {m} == z - {m}
  {
  }

  /** Storing a slot that shows a unit shows that unit put into the state. */
  lemma Stored(d: Keyspace, s: State<string>, m: string, y: Option<Slot>, v: Option<Unit>, dlq: seq<DeadLetter<string>>, tasks: int)
    requires Shows(d, s) && y.Some? == v.Some? && (y.Some? ==> Mirrors(y.value, v.value))
    ensures var e := SetSlot(d, m, y).(dlq := dlq, pendingTasks := tasks);
            && Shows(e, Put(s, m, v).(dlq := dlq))
            && (Indexed(d) ==> (Indexed(e) <==> (y.Some? ==> InOneIndex(y.value))))
  {
    var e := SetSlot(d, m, y).(dlq := dlq, pendingTasks := tasks);
    StoredIs(d, m, y, e);
    Committed(d, e, s, Put(s, m, v).(dlq := dlq), m, v);
    if Indexed(d) {
      CommittedIndex(d, e, m);
    }
  }

  /** Storing what came out of a step shows the unit that came out of it, unless the member strays. */
  lemma StoredUnless(d: Keyspace, s: State<string>, m: string, x: Slot, y: Option<Slot>, v: Option<Unit>,
                     dlq: seq<DeadLetter<string>>, tasks: int)
    requires Shows(d, s) && Landing(x, y, v)
    ensures var e, t := SetSlot(d, m, y).(dlq := dlq, pendingTasks := tasks), Put(s, m, v).(dlq := dlq);
            && (Shows(e, t) <==> !Strays(x, v))
            && Left(t, m) == v
            && (Indexed(d) && InOneIndex(x) ==> Indexed(e))
  {
    var e, t := SetSlot(d, m, y).(dlq := dlq, pendingTasks := tasks), Put(s, m, v).(dlq := dlq);
    StoredIs(d, m, y, e);
    if !Strays(x, v) {
      Stored(d, s, m, y, v, dlq, tasks);
    } else {
      assert t.units[m] == v.value && !Mirrors(SlotAt(e, m), t.units[m]);
      if Indexed(d) {
        CommittedIndex(d, e, m);
      }
    }
  }

  lemma StoredIs(d: Keyspace, m: string, y: Option<Slot>, e: Keyspace)
    requires e == SetSlot(d, m, y).(dlq := e.dlq, pendingTasks := e.pendingTasks)
    ensures Elsewhere(d, e, m)
    ensures if y.Some? then m in e.hashes && m in e.streams && SlotAt(e, m) == y.value
            else m !in e.hashes && m !in e.streams && m !in e.eligible && m !in e.pendingFlush && m !in e.leases
  {
    SetSlotElsewhere(d, m, y);
    SetSlotAt(d, m, y);
  }

  // ---------- each script is a step of the oracle ----------

  ghost predicate LiveAt(d: Keyspace, s: State<string>, m: string) {
    m in s.units && m in d.hashes && m in d.streams && |SlotAt(d, m).stream.entries| > 0
  }

  /** What is known of one live member. */
  lemma Knows(d: Keyspace, s: State<string>, clock: int, m: string)
    requires Wf(d, s, clock) && (m in d.hashes || m in d.eligible)
    ensures LiveAt(d, s, m) && (Indexed(d) ==> InOneIndex(SlotAt(d, m)))
    ensures Mirrors(SlotAt(d, m), s.units[m]) && UnitInv(s.units[m], s.cfg, s.issued, clock, clock)
  {
    assert Mirrors(SlotAt(d, m), s.units[m]);
    assert |SlotAt(d, m).stream.entries| == |s.units[m].queue|;
  }

  /** The part of it that taking or moving a lease relies on. */
  lemma KnowsLease(d: Keyspace, s: State<string>, clock: int, m: string)
    requires Wf(d, s, clock) && (m in d.hashes || m in d.eligible)
    ensures LiveAt(d, s, m) && (Indexed(d) ==> InOneIndex(SlotAt(d, m)))
    ensures Mirrors(SlotAt(d, m), s.units[m]) && Gated(s.units[m], clock) && clock >= 0
  {
    Knows(d, s, clock, m);
  }

  /** A token is presented for a member exactly when its bearer holds the unit. */
  lemma PresentsIsHeld(d: Keyspace, s: State<string>, m: string, token: string)
    requires Shows(d, s)
    ensures Presents(d, m, token) <==> Held(s, Bearer(m, token))
  {
    if m in d.hashes {
      assert Mirrors(SlotAt(d, m), s.units[m]);
    }
  }

  /** Enqueueing always simulates; it breaks the index exactly when it straddles. */
  lemma EnqueueSimulates(d: Keyspace, s: State<string>, clock: int, m: string, payload: string, cost: int, now: int)
    requires Wf(d, s, clock) && cost > 0 && clock <= now
    ensures Wf(EnqueueTo(d, m, payload, cost, s.cfg, now), Enqueue(s, m, payload, cost, now), now)
    ensures Indexed(d) ==>
              (Indexed(EnqueueTo(d, m, payload, cost, s.cfg, now)) <==> !Straddles(SlotAt(d, m), cost, s.cfg.threshold))
  {
    EnqueueKeeps(s, m, payload, cost, clock, clock, now);
    EnqueueShows(d, s, clock, m, payload, cost, now);
  }

  lemma EnqueueShows(d: Keyspace, s: State<string>, clock: int, m: string, payload: string, cost: int, now: int)
    requires Wf(d, s, clock) && cost > 0 && clock <= now
    ensures Shows(EnqueueTo(d, m, payload, cost, s.cfg, now), Enqueue(s, m, payload, cost, now))
    ensures Indexed(d) ==>
              (Indexed(EnqueueTo(d, m, payload, cost, s.cfg, now)) <==> !Straddles(SlotAt(d, m), cost, s.cfg.threshold))
  {
    if m in s.units {
      Knows(d, s, clock, m);
      EnqueuedMore(SlotAt(d, m), s.units[m], payload, cost, s.cfg, s.issued, clock, now);
      EnqueueStores(d, s, m, payload, cost, now);
    } else {
      EnqueueStarts(d, s, m, payload, cost, now);
    }
  }

  lemma EnqueueStores(d: Keyspace, s: State<string>, m: string, payload: string, cost: int, now: int)
    requires Shows(d, s) && LiveAt(d, s, m)
    requires var x := SlotAt(d, m); var y := Enqueued(x, payload, cost, s.cfg.threshold, s.cfg.maxWait, now);
             && Mirrors(y, Push(s.units[m], payload, cost, now))
             && (InOneIndex(x) ==> (InOneIndex(y) <==> !Straddles(x, cost, s.cfg.threshold)))
    ensures Shows(EnqueueTo(d, m, payload, cost, s.cfg, now), Enqueue(s, m, payload, cost, now))
    ensures Indexed(d) && InOneIndex(SlotAt(d, m)) ==>
              (Indexed(EnqueueTo(d, m, payload, cost, s.cfg, now)) <==> !Straddles(SlotAt(d, m), cost, s.cfg.threshold))
  {
    var y := Enqueued(SlotAt(d, m), payload, cost, s.cfg.threshold, s.cfg.maxWait, now);
    Stored(d, s, m, Some(y), Some(Push(s.units[m], payload, cost, now)), d.dlq, d.pendingTasks + 1);
  }

  lemma EnqueueStarts(d: Keyspace, s: State<string>, m: string, payload: string, cost: int, now: int)
    requires Shows(d, s) && m !in s.units && s.cfg.threshold > 0 && s.cfg.maxWait >= 0 && now >= 0
    ensures Shows(EnqueueTo(d, m, payload, cost, s.cfg, now), Enqueue(s, m, payload, cost, now))
    ensures Indexed(d) ==> Indexed(EnqueueTo(d, m, payload, cost, s.cfg, now))
    ensures !Straddles(SlotAt(d, m), cost, s.cfg.threshold)
  {
    EnqueuedNew(payload, cost, s.cfg, now);
    var y := Enqueued(NO_SLOT, payload, cost, s.cfg.threshold, s.cfg.maxWait, now);
    Stored(d, s, m, Some(y), Some(Push(Blank(s.cfg), payload, cost, now)), d.dlq, d.pendingTasks + 1);
  }

  /** Every ready member is filed under the flush time of its unit. */
  predicate Current(d: Keyspace) {
    forall m :: m in d.eligible && m in d.hashes ==> d.eligible[m] == d.hashes[m].flushMs
  }

  lemma IndexedIsCurrent(d: Keyspace, s: State<string>)
    requires Shows(d, s) && Indexed(d)
    ensures Current(d)
  {
    IndexPartition(d, s);
  }

  /**
   Unless the popped unit is leased, popping the least score grants a claimable unit, and one of least
   deadline while the scores are current.
   */
  lemma ClaimSimulates(d: Keyspace, s: State<string>, clock: int, m: string, token: string, window: int, now: int)
    requires Wf(d, s, clock) && clock <= now && window >= 0 && WorkerOf(token) != ""
    requires Poppable(d, m) && d.hashes[m].claimedBy.None?
    ensures Claimable(s, m) && (Current(d) ==> Oldest(s, m))
    ensures var e := ClaimFrom(d, m, WorkerOf(token), token, window, now);
            Wf(e, Grant(s, m, WorkerOf(token), token, window, now), now) && (Indexed(d) ==> Indexed(e))
  {
    PoppedIsClaimable(d, s, clock, m);
    if Current(d) {
      PoppedIsOldest(d, s, clock, m);
    }
    GrantKeeps(s, m, WorkerOf(token), token, window, clock, clock, now);
    ClaimShows(d, s, clock, m, token, window, now);
  }

  lemma ClaimShows(d: Keyspace, s: State<string>, clock: int, m: string, token: string, window: int, now: int)
    requires Wf(d, s, clock) && clock <= now && window >= 0 && m in d.eligible && d.hashes[m].claimedBy.None?
    ensures var e := ClaimFrom(d, m, WorkerOf(token), token, window, now);
            Shows(e, Grant(s, m, WorkerOf(token), token, window, now)) && (Indexed(d) ==> Indexed(e))
  {
    KnowsLease(d, s, clock, m);
    LentMirrors(SlotAt(d, m), s.units[m], WorkerOf(token), token, window, now, clock);
    ClaimStores(d, s, m, token, window, now);
  }

  lemma ClaimStores(d: Keyspace, s: State<string>, m: string, token: string, window: int, now: int)
    requires Shows(d, s) && LiveAt(d, s, m)
    requires var x, worker := SlotAt(d, m), WorkerOf(token); var y := Lent(x, worker, token, window, now);
             && Mirrors(y, s.units[m].(lease := Some(Lease(worker, token, window, now + window))))
             && (InOneIndex(x) ==> InOneIndex(y))
    ensures var e := ClaimFrom(d, m, WorkerOf(token), token, window, now);
            && Shows(e, Grant(s, m, WorkerOf(token), token, window, now))
            && (Indexed(d) && InOneIndex(SlotAt(d, m)) ==> Indexed(e))
  {
    var worker := WorkerOf(token);
    var y, v := Lent(SlotAt(d, m), worker, token, window, now), s.units[m].(lease := Some(Lease(worker, token, window, now + window)));
    Stored(d, s, m, Some(y), Some(v), d.dlq, d.pendingTasks);
  }

  lemma ScoreOfClaimable(d: Keyspace, s: State<string>, clock: int, m: string)
    requires LiveAt(d, s, m) && Mirrors(SlotAt(d, m), s.units[m])
    requires UnitInv(s.units[m], s.cfg, s.issued, clock, clock)
    ensures Claimable(s, m) <==> m in d.eligible && d.hashes[m].claimedBy.None?
    ensures d.hashes[m].flushMs == s.units[m].flushDeadline
  {
  }

  lemma PoppedIsClaimable(d: Keyspace, s: State<string>, clock: int, m: string)
    requires Wf(d, s, clock) && m in d.eligible && d.hashes[m].claimedBy.None?
    ensures Claimable(s, m)
  {
    Knows(d, s, clock, m);
    ScoreOfClaimable(d, s, clock, m);
  }

  lemma PoppedIsOldest(d: Keyspace, s: State<string>, clock: int, m: string)
    requires Wf(d, s, clock) && Current(d) && Poppable(d, m) && d.hashes[m].claimedBy.None?
    ensures Oldest(s, m)
  {
    Knows(d, s, clock, m);
    ScoreOfClaimable(d, s, clock, m);
    forall j | j in s.units && Claimable(s, j) ensures s.units[m].flushDeadline <= s.units[j].flushDeadline {
      Knows(d, s, clock, j);
      ScoreOfClaimable(d, s, clock, j);
    }
  }

  /** An empty set of eligible units means the oracle has nothing to hand out either. */
  lemma EmptyMeansNothing(d: Keyspace, s: State<string>, clock: int)
    requires Wf(d, s, clock) && d.eligible == map[]
    ensures NothingClaimable(s)
  {
    forall m | m in s.units ensures !Claimable(s, m) {
      Knows(d, s, clock, m);
      ScoreOfClaimable(d, s, clock, m);
    }
  }

  /** An uninterrupted drain answers as the oracle does, and only moves entries onto the pending list. */
  lemma DrainSimulates(d: Keyspace, s: State<string>, clock: int, m: string, token: string, max: nat)
    requires Wf(d, s, clock) && Presents(d, m, token)
    ensures Drain(s, Bearer(m, token), max) == Ok(Tasks(SplitDrain(SlotAt(d, m).stream, max, 0).1))
    ensures Wf(DrainFrom(d, m, max), s, clock) && (Indexed(d) ==> Indexed(DrainFrom(d, m, max)))
    ensures var x := SlotAt(d, m).stream;
            |SlotAt(DrainFrom(d, m, max), m).stream.pel| == Max(|x.pel|, Min(max, |x.entries|))
  {
    Knows(d, s, clock, m);
    PresentsIsHeld(d, s, m, token);
    DrainAnswers(SlotAt(d, m), s.units[m], max);
    DrainStores(d, s, m, max);
  }

  lemma DrainAnswers(x: Slot, u: Unit, max: nat)
    requires Mirrors(x, u)
    ensures SplitDrain(x.stream, max, 0).1 == u.queue[..Min(max, |u.queue|)]
    ensures Mirrors(x.(stream := SplitDrain(x.stream, max, 0).0), u)
    ensures |SplitDrain(x.stream, max, 0).0.entries| == |x.stream.entries|
    ensures |SplitDrain(x.stream, max, 0).0.pel| == Max(|x.stream.pel|, Min(max, |x.stream.entries|))
  {
    DrainIsPrefix(x.stream, max);
    var n := Min(max, |x.stream.entries|);
    assert Queue(x.stream.entries[..n]) == Queue(x.stream.entries)[..n];
  }

  lemma DrainStores(d: Keyspace, s: State<string>, m: string, max: nat)
    requires Shows(d, s) && LiveAt(d, s, m)
    requires var x := SlotAt(d, m); var st := SplitDrain(x.stream, max, 0).0;
             Mirrors(x.(stream := st), s.units[m])
    ensures Shows(DrainFrom(d, m, max), s)
    ensures Indexed(d) && InOneIndex(SlotAt(d, m)) ==> Indexed(DrainFrom(d, m, max))
  {
    var x := SlotAt(d, m);
    var y := x.(stream := SplitDrain(x.stream, max, 0).0);
    PutBack(s, m);
    Stored(d, s, m, Some(y), Some(s.units[m]), d.dlq, d.pendingTasks);
    assert DrainFrom(d, m, max) == SetSlot(d, m, Some(y)).(dlq := d.dlq, pendingTasks := d.pendingTasks);
  }

  lemma PutBack<K>(s: State<K>, k: K)
    requires k in s.units
    ensures Put(s, k, Some(s.units[k])) == s
  {
    assert s.units[k := s.units[k]] == s.units;
  }

  lemma HeartbeatSimulates(d: Keyspace, s: State<string>, clock: int, m: string, token: string, extend: int, now: int)
    requires Wf(d, s, clock) && Presents(d, m, token) && clock <= now && extend >= 0
    ensures var e := HeartbeatOf(d, m, extend, now);
            Wf(e, Heartbeat(s, Bearer(m, token), extend, now), now) && (Indexed(d) ==> Indexed(e))
  {
    HeartbeatKeeps(s, Bearer(m, token), extend, clock, clock, now);
    KnowsLease(d, s, clock, m);
    PresentsIsHeld(d, s, m, token);
    RenewedMirrors(SlotAt(d, m), s.units[m], extend, now, clock);
    HeartbeatStores(d, s, m, token, extend, now);
  }

  lemma HeartbeatStores(d: Keyspace, s: State<string>, m: string, token: string, extend: int, now: int)
    requires Shows(d, s) && LiveAt(d, s, m) && Held(s, Bearer(m, token))
    requires Mirrors(Renewed(SlotAt(d, m), now + extend), Prolong(s.units[m], now + extend))
    requires InOneIndex(SlotAt(d, m)) ==> InOneIndex(Renewed(SlotAt(d, m), now + extend))
    ensures Shows(HeartbeatOf(d, m, extend, now), Heartbeat(s, Bearer(m, token), extend, now))
    ensures Indexed(d) && InOneIndex(SlotAt(d, m)) ==> Indexed(HeartbeatOf(d, m, extend, now))
  {
    var y, v := Renewed(SlotAt(d, m), now + extend), Prolong(s.units[m], now + extend);
    Stored(d, s, m, Some(y), Some(v), d.dlq, d.pendingTasks);
    HeartbeatShape(s, Bearer(m, token), extend, now);
  }

  lemma ReleaseSimulates(d: Keyspace, s: State<string>, clock: int, m: string, token: string, now: int)
    requires Wf(d, s, clock) && Presents(d, m, token) && clock <= now
    ensures var e := ReleaseOf(d, m, now);
            Wf(e, Release(s, Bearer(m, token)), now) && (Indexed(d) ==> Indexed(e))
  {
    ReleaseKeeps(s, Bearer(m, token), clock, clock, now);
    ReleaseShows(d, s, clock, m, token, now);
  }

  lemma ReleaseShows(d: Keyspace, s: State<string>, clock: int, m: string, token: string, now: int)
    requires Wf(d, s, clock) && Presents(d, m, token) && clock <= now
    ensures Shows(ReleaseOf(d, m, now), Release(s, Bearer(m, token)))
    ensures Indexed(d) ==> Indexed(ReleaseOf(d, m, now))
  {
    KnowsLease(d, s, clock, m);
    PresentsIsHeld(d, s, m, token);
    ReleasedMirrors(SlotAt(d, m), s.units[m], now, clock);
    ReleaseStores(d, s, m, now);
  }

  lemma ReleaseStores(d: Keyspace, s: State<string>, m: string, now: int)
    requires Shows(d, s) && LiveAt(d, s, m)
    requires var x := SlotAt(d, m);
             Mirrors(Released(x, now), s.units[m].(lease := None)) && (InOneIndex(x) ==> InOneIndex(Released(x, now)))
    ensures Shows(ReleaseOf(d, m, now), Put(s, m, Some(s.units[m].(lease := None))))
    ensures Indexed(d) && InOneIndex(SlotAt(d, m)) ==> Indexed(ReleaseOf(d, m, now))
  {
    Stored(d, s, m, Some(Released(SlotAt(d, m), now)), Some(s.units[m].(lease := None)), d.dlq, d.pendingTasks);
  }

  /**
   The oracle acknowledges through the same number, or through the last one delivered if that is less.
   The shard follows it unless the member was ready although leased, and what is left of it is parked.
   */
  lemma AckSimulates(d: Keyspace, s: State<string>, clock: int, m: string, token: string, through: int, now: int)
    requires Wf(d, s, clock) && Presents(d, m, token) && clock <= now
    ensures SlotAt(d, m).stream.entries != []
    ensures Indexed(d) ==> Indexed(AckTo(d, m, through, now))
    ensures var t := Ack(s, Bearer(m, token), Min(through, DeliveredSeq(SlotAt(d, m))), now);
            Wf(AckTo(d, m, through, now), t, now) <==> !ParksReady(SlotAt(d, m), Acknowledged(d, m, through), now)
  {
    AckShows(d, s, clock, m, token, through, now);
    AckLeaves(d, s, clock, m, token, through, now);
    AckStaysWf(s, clock, Bearer(m, token), Min(through, DeliveredSeq(SlotAt(d, m))), now, AckTo(d, m, through, now));
  }

  /** What is left of a member strays exactly if it was ready and is parked. */
  lemma AckLeaves(d: Keyspace, s: State<string>, clock: int, m: string, token: string, through: int, now: int)
    requires Wf(d, s, clock) && Presents(d, m, token) && SlotAt(d, m).stream.entries != []
    ensures var t := Ack(s, Bearer(m, token), Min(through, DeliveredSeq(SlotAt(d, m))), now);
            Strays(SlotAt(d, m), Left(t, m)) <==> ParksReady(SlotAt(d, m), Acknowledged(d, m, through), now)
  {
    Knows(d, s, clock, m);
    PresentsIsHeld(d, s, m, token);
    CoveredDelivered(SlotAt(d, m), s.units[m], through);
    AckParks(SlotAt(d, m), s.units[m], Min(through, DeliveredSeq(SlotAt(d, m))), now);
    LeftByAck(s, Bearer(m, token), Min(through, DeliveredSeq(SlotAt(d, m))), now);
  }

  lemma LeftByAck(s: State<string>, c: Claimed<string>, upto: int, now: int)
    requires Held(s, c)
    ensures Left(Ack(s, c, upto, now), c.key) == AckUnit(s.units[c.key], upto, now)
  {
  }

  lemma LeftByFail(s: State<string>, c: Claimed<string>, seqNo: int, reason: string, now: int)
    requires Held(s, c)
    ensures Left(Fail(s, c, seqNo, reason, now), c.key) == FailUnit(s.units[c.key], seqNo, s.cfg.maxAttempts, now)
  {
  }

  lemma FailLeaves(d: Keyspace, s: State<string>, clock: int, m: string, token: string, seqNo: int, reason: string, now: int)
    requires Wf(d, s, clock) && Presents(d, m, token)
    ensures var t := Fail(s, Bearer(m, token), seqNo, reason, now);
            Strays(SlotAt(d, m), Left(t, m)) <==>
              PoisonHead(SlotAt(d, m), seqNo, s.cfg.maxAttempts) && ParksReady(SlotAt(d, m), 1, now)
  {
    Knows(d, s, clock, m);
    PresentsIsHeld(d, s, m, token);
    PoisonAgrees(SlotAt(d, m), s.units[m], seqNo, s.cfg.maxAttempts);
    FailParks(SlotAt(d, m), s.units[m], seqNo, s.cfg.maxAttempts, now);
    LeftByFail(s, Bearer(m, token), seqNo, reason, now);
  }

  /** What is left of a unit after a step. */
  function Left(t: State<string>, m: string): Option<Unit> {
    if m in t.units then Some(t.units[m]) else None
  }

  lemma AckStaysWf(s: State<string>, clock: int, c: Claimed<string>, upto: int, now: int, e: Keyspace)
    requires Inv(s, clock, clock) && 0 <= clock <= now
    ensures Shows(e, Ack(s, c, upto, now)) <==> Wf(e, Ack(s, c, upto, now), now)
  {
    AckKeepsAll(s, c, upto, clock, clock, now);
  }

  lemma AckShows(d: Keyspace, s: State<string>, clock: int, m: string, token: string, through: int, now: int)
    requires Wf(d, s, clock) && Presents(d, m, token) && clock <= now
    ensures SlotAt(d, m).stream.entries != []
    ensures var t := Ack(s, Bearer(m, token), Min(through, DeliveredSeq(SlotAt(d, m))), now);
            Shows(AckTo(d, m, through, now), t) <==> !Strays(SlotAt(d, m), Left(t, m))
    ensures Indexed(d) ==> Indexed(AckTo(d, m, through, now))
  {
    Knows(d, s, clock, m);
    PresentsIsHeld(d, s, m, token);
    AckedMirrors(SlotAt(d, m), s.units[m], through, now, s.cfg, s.issued, clock);
    CoveredDelivered(SlotAt(d, m), s.units[m], through);
    AckStores(d, s, m, token, through, now);
  }

  /** The answer of the script, whether the unit is still held, is the oracle's. */
  lemma AckAnswers(d: Keyspace, s: State<string>, m: string, token: string, through: int, now: int)
    requires Shows(d, s) && Presents(d, m, token) && SlotAt(d, m).stream.entries != []
    requires Shows(AckTo(d, m, through, now), Ack(s, Bearer(m, token), Min(through, DeliveredSeq(SlotAt(d, m))), now))
    ensures AckOutcome(s, Bearer(m, token), Min(through, DeliveredSeq(SlotAt(d, m))), now)
              == Ok(Presents(AckTo(d, m, through, now), m, token))
  {
    PresentsIsHeld(d, s, m, token);
    PresentsIsHeld(AckTo(d, m, through, now), Ack(s, Bearer(m, token), Min(through, DeliveredSeq(SlotAt(d, m))), now), m, token);
  }

  lemma AckStores(d: Keyspace, s: State<string>, m: string, token: string, through: int, now: int)
    requires Shows(d, s) && LiveAt(d, s, m) && Held(s, Bearer(m, token))
    requires var x := SlotAt(d, m);
             Landing(x, Acked(x, Acknowledged(d, m, through), now), AckUnit(s.units[m], Min(through, DeliveredSeq(x)), now))
    ensures var t := Ack(s, Bearer(m, token), Min(through, DeliveredSeq(SlotAt(d, m))), now);
            Shows(AckTo(d, m, through, now), t) <==> !Strays(SlotAt(d, m), Left(t, m))
    ensures Indexed(d) && InOneIndex(SlotAt(d, m)) ==> Indexed(AckTo(d, m, through, now))
  {
    var x, n := SlotAt(d, m), Acknowledged(d, m, through);
    StoredUnless(d, s, m, x, Acked(x, n, now), AckUnit(s.units[m], Min(through, DeliveredSeq(x)), now), d.dlq, d.pendingTasks - n);
    AckShape(s, Bearer(m, token), Min(through, DeliveredSeq(x)), now);
  }

  lemma FailSimulates(d: Keyspace, s: State<string>, clock: int, m: string, token: string, seqNo: int, reason: string, now: int)
    requires Wf(d, s, clock) && Presents(d, m, token) && clock <= now
    ensures var e, t := FailOf(d, m, seqNo, reason, s.cfg.maxAttempts, now), Fail(s, Bearer(m, token), seqNo, reason, now);
            && (Wf(e, t, now) <==> !(PoisonHead(SlotAt(d, m), seqNo, s.cfg.maxAttempts) && ParksReady(SlotAt(d, m), 1, now)))
            && (Indexed(d) ==> Indexed(e))
  {
    FailKeepsAll(s, Bearer(m, token), seqNo, reason, clock, clock, now);
    FailLeaves(d, s, clock, m, token, seqNo, reason, now);
    FailShows(d, s, clock, m, token, seqNo, reason, now);
  }

  lemma FailShows(d: Keyspace, s: State<string>, clock: int, m: string, token: string, seqNo: int, reason: string, now: int)
    requires Wf(d, s, clock) && Presents(d, m, token) && clock <= now
    ensures var e, t := FailOf(d, m, seqNo, reason, s.cfg.maxAttempts, now), Fail(s, Bearer(m, token), seqNo, reason, now);
            && (Shows(e, t) <==> !Strays(SlotAt(d, m), Left(t, m)))
            && (Indexed(d) && InOneIndex(SlotAt(d, m)) ==> Indexed(e))
  {
    Knows(d, s, clock, m);
    PresentsIsHeld(d, s, m, token);
    FailedMirrors(SlotAt(d, m), s.units[m], seqNo, s.cfg.maxAttempts, now, s.cfg, s.issued, clock);
    PoisonAgrees(SlotAt(d, m), s.units[m], seqNo, s.cfg.maxAttempts);
    FailStores(d, s, m, token, seqNo, reason, now);
  }

  lemma PoisonAgrees(x: Slot, u: Unit, seqNo: int, cap: int)
    requires UnitIn(x) == u && |u.queue| > 0
    ensures PoisonHead(x, seqNo, cap) <==> Poison(u, seqNo, cap)
    ensures u.queue[0] == x.stream.entries[0].entry
  {
  }

  /** What FailStores needs to know of the one member. */
  ghost predicate FailReady(d: Keyspace, s: State<string>, m: string, seqNo: int, now: int)
    requires LiveAt(d, s, m)
  {
    var x, u, cap := SlotAt(d, m), s.units[m], s.cfg.maxAttempts; var y := Failed(x, seqNo, cap, now);
    && Landing(x, y, FailUnit(u, seqNo, cap, now)) && (PoisonHead(x, seqNo, cap) <==> Poison(u, seqNo, cap))
    && |u.queue| > 0 && u.queue[0] == x.stream.entries[0].entry
  }

  lemma FailStores(d: Keyspace, s: State<string>, m: string, token: string, seqNo: int, reason: string, now: int)
    requires Shows(d, s) && LiveAt(d, s, m) && Held(s, Bearer(m, token)) && FailReady(d, s, m, seqNo, now)
    ensures var e, t := FailOf(d, m, seqNo, reason, s.cfg.maxAttempts, now), Fail(s, Bearer(m, token), seqNo, reason, now);
            && (Shows(e, t) <==> !Strays(SlotAt(d, m), Left(t, m)))
            && (Indexed(d) && InOneIndex(SlotAt(d, m)) ==> Indexed(e))
  {
    if PoisonHead(SlotAt(d, m), seqNo, s.cfg.maxAttempts) {
      PoisonStores(d, s, m, token, seqNo, reason, now);
    } else {
      RetryStores(d, s, m, token, seqNo, reason, now);
    }
  }

  lemma PoisonStores(d: Keyspace, s: State<string>, m: string, token: string, seqNo: int, reason: string, now: int)
    requires Shows(d, s) && LiveAt(d, s, m) && Held(s, Bearer(m, token)) && FailReady(d, s, m, seqNo, now)
    requires PoisonHead(SlotAt(d, m), seqNo, s.cfg.maxAttempts)
    ensures var e, t := FailOf(d, m, seqNo, reason, s.cfg.maxAttempts, now), Fail(s, Bearer(m, token), seqNo, reason, now);
            && (Shows(e, t) <==> !Strays(SlotAt(d, m), Left(t, m)))
            && (Indexed(d) && InOneIndex(SlotAt(d, m)) ==> Indexed(e))
  {
    var x, u, cap := SlotAt(d, m), s.units[m], s.cfg.maxAttempts;
    FailShape(s, Bearer(m, token), seqNo, reason, now);
    StoredUnless(d, s, m, x, Failed(x, seqNo, cap, now), FailUnit(u, seqNo, cap, now),
           d.dlq + [DeadLetter(m, u.queue[0].task, reason)], d.pendingTasks - 1);
  }

  lemma RetryStores(d: Keyspace, s: State<string>, m: string, token: string, seqNo: int, reason: string, now: int)
    requires Shows(d, s) && LiveAt(d, s, m) && Held(s, Bearer(m, token)) && FailReady(d, s, m, seqNo, now)
    requires !PoisonHead(SlotAt(d, m), seqNo, s.cfg.maxAttempts)
    ensures var e, t := FailOf(d, m, seqNo, reason, s.cfg.maxAttempts, now), Fail(s, Bearer(m, token), seqNo, reason, now);
            && (Shows(e, t) <==> !Strays(SlotAt(d, m), Left(t, m)))
            && (Indexed(d) && InOneIndex(SlotAt(d, m)) ==> Indexed(e))
  {
    var x, u, cap := SlotAt(d, m), s.units[m], s.cfg.maxAttempts;
    FailShape(s, Bearer(m, token), seqNo, reason, now);
    StoredUnless(d, s, m, x, Failed(x, seqNo, cap, now), FailUnit(u, seqNo, cap, now), d.dlq, d.pendingTasks);
  }

  lemma SweptAt(d: Keyspace, m: string, now: int)
    requires m in d.hashes && d.hashes.Keys == d.streams.Keys
    ensures SlotAt(ReapAll(d, now), m) == SweptSlot(d, m, now)
  {
  }

  /** A sweep simulates even where members straddle; its counts are the oracle's where none does. */
  lemma ReapSimulates(d: Keyspace, s: State<string>, clock: int, now: int, at: int)
    requires Wf(d, s, clock) && clock <= at && now <= at
    ensures Wf(ReapAll(d, now), Reap(s, now + 1, now), at)
    ensures LapsedIn(d, now) == Oracle.Reclaimed(s, now + 1)
    ensures Indexed(d) ==> Indexed(ReapAll(d, now)) && DueIn(d, now) == Flushed(s, now + 1, now)
  {
    ReapKeeps(s, now + 1, now, clock, clock, at);
    ReapShows(d, s, clock, now);
    if Indexed(d) {
      ReapIndexes(d, s, clock, now);
    }
  }

  lemma ReapShows(d: Keyspace, s: State<string>, clock: int, now: int)
    requires Wf(d, s, clock)
    ensures Shows(ReapAll(d, now), Reap(s, now + 1, now)) && LapsedIn(d, now) == Oracle.Reclaimed(s, now + 1)
  {
    forall m | m in s.units
      ensures Mirrors(SlotAt(ReapAll(d, now), m), Reap(s, now + 1, now).units[m])
      ensures Lapsed(SlotAt(d, m), now) <==> Expired(s.units[m], now + 1)
    {
      SweptMember(d, s, clock, m, now);
    }
    SweepShows(d, s, now);
    SweepCounts(d, s, now);
  }

  lemma ReapIndexes(d: Keyspace, s: State<string>, clock: int, now: int)
    requires Wf(d, s, clock) && Indexed(d)
    ensures Indexed(ReapAll(d, now)) && DueIn(d, now) == Flushed(s, now + 1, now)
  {
    forall m | m in s.units
      ensures InOneIndex(SlotAt(ReapAll(d, now), m))
      ensures Due(SlotSteps.Reclaimed(SlotAt(d, m), now), now) <==> Flushable(Reclaim(s.units[m], now + 1), now)
    {
      SweptMember(d, s, clock, m, now);
    }
    DueCounts(d, s, now);
  }

  /** What a sweep does to one member is what it does to the unit. */
  lemma SweptMember(d: Keyspace, s: State<string>, clock: int, m: string, now: int)
    requires Wf(d, s, clock) && m in s.units
    ensures m in d.hashes && m in d.streams && m in ReapAll(d, now).hashes
    ensures Mirrors(SlotAt(ReapAll(d, now), m), Reap(s, now + 1, now).units[m])
    ensures Lapsed(SlotAt(d, m), now) <==> Expired(s.units[m], now + 1)
    ensures Indexed(d) ==> InOneIndex(SlotAt(ReapAll(d, now), m))
    ensures Indexed(d) ==>
              (Due(SlotSteps.Reclaimed(SlotAt(d, m), now), now) <==> Flushable(Reclaim(s.units[m], now + 1), now))
  {
    Knows(d, s, clock, m);
    SweptAt(d, m, now);
    ReapedMirrors(SlotAt(d, m), s.units[m], now, s.cfg, s.issued, clock);
  }

  /** The sets and the state after a sweep, given what happened to each member. */
  lemma SweepShows(d: Keyspace, s: State<string>, now: int)
    requires d.dlq == s.dlq && SameMembers(d, s)
    requires forall m :: m in s.units ==> Mirrors(SlotAt(ReapAll(d, now), m), Reap(s, now + 1, now).units[m])
    ensures Shows(ReapAll(d, now), Reap(s, now + 1, now))
  {
    SweptMembers(d, s, now);
  }

  lemma SweptMembers(d: Keyspace, s: State<string>, now: int)
    requires SameMembers(d, s)
    ensures SameMembers(ReapAll(d, now), Reap(s, now + 1, now))
  {
  }

  lemma SweepCounts(d: Keyspace, s: State<string>, now: int)
    requires SameMembers(d, s)
    requires forall m :: m in s.units ==> (Lapsed(SlotAt(d, m), now) <==> Expired(s.units[m], now + 1))
    ensures LapsedIn(d, now) == Oracle.Reclaimed(s, now + 1)
  {
  }

  lemma DueCounts(d: Keyspace, s: State<string>, now: int)
    requires SameMembers(d, s)
    requires forall m :: m in s.units ==>
               (Due(SlotSteps.Reclaimed(SlotAt(d, m), now), now) <==> Flushable(Reclaim(s.units[m], now + 1), now))
    ensures DueIn(d, now) == Flushed(s, now + 1, now)
  {
  }

  // ---------- the shard-wide counter ----------

  lemma SetSlotCounts(d: Keyspace, m: string, y: Option<Slot>, dlq: seq<DeadLetter<string>>, tasks: int)
    requires Counted(d)
    requires tasks - d.pendingTasks == (if y.Some? then |y.value.stream.entries| else 0) - Length(d.streams, m)
    ensures Counted(SetSlot(d, m, y).(dlq := dlq, pendingTasks := tasks))
  {
    SetSlotElsewhere(d, m, y);
    SetSlotAt(d, m, y);
    TallyMoves(d.streams, SetSlot(d, m, y).streams, m);
  }

  lemma AckedLength(x: Slot, n: nat, now: int)
    requires n <= |x.stream.entries| && n <= |x.stream.pel|
    ensures var y := Acked(x, n, now);
            |x.stream.entries| - n == if y.Some? then |y.value.stream.entries| else 0
  {
  }

  lemma FailedLength(x: Slot, seqNo: int, cap: int, now: int)
    requires StreamOk(x.stream) && |x.stream.entries| > 0
    ensures var y := Failed(x, seqNo, cap, now);
            |x.stream.entries| - (if PoisonHead(x, seqNo, cap) then 1 else 0)
              == if y.Some? then |y.value.stream.entries| else 0
  {
    BeheadedRest(x.stream);
  }

  lemma EnqueueCounts(d: Keyspace, m: string, payload: string, cost: int, cfg: Config, now: int)
    requires Counted(d)
    ensures Counted(EnqueueTo(d, m, payload, cost, cfg, now))
  {
    var y := Enqueued(SlotAt(d, m), payload, cost, cfg.threshold, cfg.maxWait, now);
    SetSlotCounts(d, m, Some(y), d.dlq, d.pendingTasks + 1);
  }

  /** Writing a slot whose stream keeps its entries leaves the count right. */
  lemma SameCount(d: Keyspace, m: string, y: Slot)
    requires Counted(d) && |y.stream.entries| == |SlotAt(d, m).stream.entries|
    ensures Counted(SetSlot(d, m, Some(y)))
  {
    SetSlotCounts(d, m, Some(y), d.dlq, d.pendingTasks);
  }

  lemma AckCounts(d: Keyspace, m: string, through: int, now: int)
    requires Counted(d)
    ensures Counted(AckTo(d, m, through, now))
  {
    var n := Acknowledged(d, m, through);
    AckedLength(SlotAt(d, m), n, now);
    SetSlotCounts(d, m, Acked(SlotAt(d, m), n, now), d.dlq, d.pendingTasks - n);
  }

  lemma ReleaseCounts(d: Keyspace, m: string, now: int)
    requires Counted(d)
    ensures Counted(ReleaseOf(d, m, now))
  {
    var x := SlotAt(d, m);
    SetSlotCounts(d, m, if x.stream.entries == [] then None else Some(Released(x, now)), d.dlq, d.pendingTasks);
  }

  lemma FailCounts(d: Keyspace, m: string, seqNo: int, reason: string, cap: int, now: int)
    requires Counted(d) && StreamOk(SlotAt(d, m).stream)
    ensures Counted(FailOf(d, m, seqNo, reason, cap, now))
  {
    var x := SlotAt(d, m);
    if x.stream.entries == [] {
      SetSlotCounts(d, m, None, d.dlq, d.pendingTasks);
    } else {
      FailedLength(x, seqNo, cap, now);
      var e := FailOf(d, m, seqNo, reason, cap, now);
      SetSlotCounts(d, m, Failed(x, seqNo, cap, now), e.dlq, e.pendingTasks);
    }
  }
}
