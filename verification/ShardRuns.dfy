/** Whole runs of a Valkey shard, matched by runs of the oracle. */
module ShardRuns {
  import opened Contract
  import opened Oracle
  import opened Invariant
  import opened Streams
  import opened ShardState
  import opened SlotSteps
  import opened ShardSteps
  import opened Tokens
  import opened Sums
  import History

  datatype Call =
    | Enqueue(m: string, payload: string, cost: int)
    | Claim(m: string, token: string, window: int)
    | Drain(m: string, token: string, max: nat)
    | Ack(m: string, token: string, through: int)
    | Release(m: string, token: string)
    | Heartbeat(m: string, token: string, extend: int)
    | Fail(m: string, token: string, seqNo: int, reason: string)
    | Reap(bound: int)

  datatype Timed = Timed(now: int, call: Call)

  /** One script, or one uninterrupted drain. A claim that is not presented changes nothing. */
  function Step(d: Keyspace, cfg: Config, a: Timed): Keyspace {
    match a.call
    case Enqueue(m, payload, cost) => EnqueueTo(d, m, payload, cost, cfg, a.now)
    case Claim(m, token, window) => ClaimFrom(d, m, WorkerOf(token), token, window, a.now)
    case Drain(m, token, max) => if Presents(d, m, token) then DrainFrom(d, m, max) else d
    case Ack(m, token, through) => if Presents(d, m, token) then AckTo(d, m, through, a.now) else d
    case Release(m, token) => if Presents(d, m, token) then ReleaseOf(d, m, a.now) else d
    case Heartbeat(m, token, extend) => if Presents(d, m, token) then HeartbeatOf(d, m, extend, a.now) else d
    case Fail(m, token, seqNo, reason) =>
      if Presents(d, m, token) then FailOf(d, m, seqNo, reason, cfg.maxAttempts, a.now) else d
    case Reap(bound) => ReapAll(d, bound)
  }

  /** What callers bring: positive costs, fresh tokens and a clock that does not go back. */
  predicate Asked(d: Keyspace, s: State<string>, clock: int, a: Timed) {
    clock <= a.now &&
    match a.call
    case Enqueue(_, _, cost) => cost > 0
    case Claim(m, token, window) => Poppable(d, m) && window >= 0 && WorkerOf(token) != "" && token !in s.issued
    case Heartbeat(_, _, extend) => extend >= 0
    case Reap(bound) => bound <= a.now
    case _ => true
  }

  /** The sequence number the oracle acknowledges through. */
  function Upto(d: Keyspace, m: string, through: int): int {
    var x := SlotAt(d, m);
    if x.stream.entries == [] then through else Min(through, DeliveredSeq(x))
  }

  /** The oracle's step; a drain is invisible to it. */
  function Image(d: Keyspace, a: Timed): Option<History.Timed<string>> {
    match a.call
    case Enqueue(m, payload, cost) => Some(History.Timed(a.now, History.Arrive(m, payload, cost)))
    case Claim(m, token, window) => Some(History.Timed(a.now, History.Take(m, WorkerOf(token), token, window)))
    case Drain(_, _, _) => None
    case Ack(m, token, through) => Some(History.Timed(a.now, History.Settle(Bearer(m, token), Upto(d, m, through))))
    case Release(m, token) => Some(History.Timed(a.now, History.GiveUp(Bearer(m, token))))
    case Heartbeat(m, token, extend) => Some(History.Timed(a.now, History.Extend(Bearer(m, token), extend)))
    case Fail(m, token, seqNo, reason) => Some(History.Timed(a.now, History.Fault(Bearer(m, token), seqNo, reason)))
    case Reap(bound) => Some(History.Timed(a.now, History.Sweep(bound + 1, bound)))
  }

  /**
   Where the index may let the oracle down: a claim must pop a free unit, and a unit that is parked must not
   have been ready while it was leased.
   */
  predicate Followed(d: Keyspace, cfg: Config, a: Timed) {
    match a.call
    case Claim(m, _, _) => m in d.hashes && d.hashes[m].claimedBy.None?
    case Ack(m, token, through) => Presents(d, m, token) ==> !ParksReady(SlotAt(d, m), Acknowledged(d, m, through), a.now)
    case Fail(m, token, seqNo, _) =>
      Presents(d, m, token) ==> !(PoisonHead(SlotAt(d, m), seqNo, cfg.maxAttempts) && ParksReady(SlotAt(d, m), 1, a.now))
    case _ => true
  }

  predicate Permitted(d: Keyspace, s: State<string>, clock: int, a: Timed) {
    Asked(d, s, clock, a) && Followed(d, s.cfg, a)
  }

  /** The one step that breaks the index. */
  predicate Straddling(d: Keyspace, cfg: Config, a: Timed) {
    a.call.Enqueue? && Straddles(SlotAt(d, a.call.m), a.call.cost, cfg.threshold)
  }

  function Follow(w: History.World<string>, i: Option<History.Timed<string>>): History.World<string> {
    if i.None? then w else History.Next(w, i.value)
  }

  /** The shard shows the oracle's queue, counted, and no time is ahead of the clock. */
  ghost predicate Matches(d: Keyspace, w: History.World<string>) {
    Wf(d, w.queue, w.clock) && Counted(d) && w.seen == w.clock
  }

  /** The token an operation presents, if it presents one. */
  function Presented(c: Call): Option<string> {
    match c
    case Enqueue(_, _, _) => None
    case Claim(_, _, _) => None
    case Reap(_) => None
    case _ => Some(c.token)
  }

  /** An operation whose token no longer matches is one whose lease the oracle has lost too. */
  lemma LostEffect(d: Keyspace, s: State<string>, clock: int, a: Timed)
    requires Wf(d, s, clock) && clock <= a.now && Image(d, a).Some?
    requires Presented(a.call).Some? && !Presents(d, a.call.m, a.call.token)
    ensures Step(d, s.cfg, a) == d && History.Effect(s, Image(d, a).value) == s && Wf(d, s, a.now)
  {
    PresentsIsHeld(d, s, a.call.m, a.call.token);
    LostIsNothing(d, s, a);
    InvLater(s, clock, clock, a.now);
  }

  lemma LostIsNothing(d: Keyspace, s: State<string>, a: Timed)
    requires Image(d, a).Some? && Presented(a.call).Some?
    requires !Presents(d, a.call.m, a.call.token) && !Held(s, Bearer(a.call.m, a.call.token))
    ensures Step(d, s.cfg, a) == d && History.Effect(s, Image(d, a).value) == s
  {
  }

  /** The shard's step shows the oracle's. */
  ghost predicate Tracks(d: Keyspace, s: State<string>, a: Timed) {
    Image(d, a).Some? && Wf(Step(d, s.cfg, a), History.Effect(s, Image(d, a).value), a.now)
  }

  ghost predicate StepIs(d: Keyspace, s: State<string>, a: Timed, e: Keyspace, t: State<string>) {
    Image(d, a).Some? && Step(d, s.cfg, a) == e && History.Effect(s, Image(d, a).value) == t
  }

  lemma TracksBy(d: Keyspace, s: State<string>, a: Timed, e: Keyspace, t: State<string>)
    requires StepIs(d, s, a, e, t)
    ensures Tracks(d, s, a) <==> Wf(e, t, a.now)
    ensures Indexed(Step(d, s.cfg, a)) <==> Indexed(e)
  {
  }

  lemma FollowedAck(d: Keyspace, cfg: Config, now: int, m: string, token: string, through: int)
    requires Presents(d, m, token)
    ensures Followed(d, cfg, Timed(now, Ack(m, token, through))) <==> !ParksReady(SlotAt(d, m), Acknowledged(d, m, through), now)
  {
  }

  lemma FollowedFail(d: Keyspace, cfg: Config, now: int, m: string, token: string, seqNo: int, reason: string)
    requires Presents(d, m, token)
    ensures Followed(d, cfg, Timed(now, Fail(m, token, seqNo, reason))) <==>
              !(PoisonHead(SlotAt(d, m), seqNo, cfg.maxAttempts) && ParksReady(SlotAt(d, m), 1, now))
  {
  }

  lemma EnqueueIs(d: Keyspace, s: State<string>, now: int, m: string, payload: string, cost: int)
    ensures StepIs(d, s, Timed(now, Enqueue(m, payload, cost)), EnqueueTo(d, m, payload, cost, s.cfg, now),
              Oracle.Enqueue(s, m, payload, cost, now))
  {
  }

  lemma EnqueueTracks(d: Keyspace, s: State<string>, clock: int, now: int, m: string, payload: string, cost: int)
    requires Wf(d, s, clock) && clock <= now && cost > 0
    ensures var a := Timed(now, Enqueue(m, payload, cost));
            Tracks(d, s, a) && (Indexed(d) ==> (Indexed(Step(d, s.cfg, a)) <==> !Straddling(d, s.cfg, a)))
  {
    EnqueueSimulates(d, s, clock, m, payload, cost, now);
    EnqueueIs(d, s, now, m, payload, cost);
    TracksBy(d, s, Timed(now, Enqueue(m, payload, cost)), EnqueueTo(d, m, payload, cost, s.cfg, now),
             Oracle.Enqueue(s, m, payload, cost, now));
  }

  lemma ClaimIs(d: Keyspace, s: State<string>, now: int, m: string, token: string, window: int)
    requires m in s.units
    ensures StepIs(d, s, Timed(now, Claim(m, token, window)), ClaimFrom(d, m, WorkerOf(token), token, window, now),
              Grant(s, m, WorkerOf(token), token, window, now))
  {
  }

  lemma ClaimTracks(d: Keyspace, s: State<string>, clock: int, now: int, m: string, token: string, window: int)
    requires Wf(d, s, clock) && clock <= now && Poppable(d, m) && window >= 0 && WorkerOf(token) != ""
    requires d.hashes[m].claimedBy.None?
    ensures var a := Timed(now, Claim(m, token, window));
            Tracks(d, s, a) && Claimable(s, m) && (Indexed(d) ==> Indexed(Step(d, s.cfg, a)) && Oldest(s, m))
  {
    ClaimSimulates(d, s, clock, m, token, window, now);
    ClaimIs(d, s, now, m, token, window);
    TracksBy(d, s, Timed(now, Claim(m, token, window)), ClaimFrom(d, m, WorkerOf(token), token, window, now),
             Grant(s, m, WorkerOf(token), token, window, now));
    if Indexed(d) {
      IndexedIsCurrent(d, s);
    }
  }

  lemma AckIs(d: Keyspace, s: State<string>, now: int, m: string, token: string, through: int)
    requires Presents(d, m, token) && SlotAt(d, m).stream.entries != []
    ensures StepIs(d, s, Timed(now, Ack(m, token, through)), AckTo(d, m, through, now),
              Oracle.Ack(s, Bearer(m, token), Min(through, DeliveredSeq(SlotAt(d, m))), now))
  {
  }

  lemma AckTracks(d: Keyspace, s: State<string>, clock: int, now: int, m: string, token: string, through: int)
    requires Wf(d, s, clock) && clock <= now && Presents(d, m, token)
    ensures var a := Timed(now, Ack(m, token, through));
            (Tracks(d, s, a) <==> Followed(d, s.cfg, a)) && (Indexed(d) ==> Indexed(Step(d, s.cfg, a)))
  {
    AckSimulates(d, s, clock, m, token, through, now);
    AckIs(d, s, now, m, token, through);
    TracksBy(d, s, Timed(now, Ack(m, token, through)), AckTo(d, m, through, now),
             Oracle.Ack(s, Bearer(m, token), Min(through, DeliveredSeq(SlotAt(d, m))), now));
    FollowedAck(d, s.cfg, now, m, token, through);
  }

  lemma ReleaseIs(d: Keyspace, s: State<string>, now: int, m: string, token: string)
    requires Presents(d, m, token)
    ensures StepIs(d, s, Timed(now, Release(m, token)), ReleaseOf(d, m, now),
              Oracle.Release(s, Bearer(m, token)))
  {
  }

  lemma ReleaseTracks(d: Keyspace, s: State<string>, clock: int, now: int, m: string, token: string)
    requires Wf(d, s, clock) && clock <= now && Presents(d, m, token)
    ensures var a := Timed(now, Release(m, token));
            Tracks(d, s, a) && (Indexed(d) ==> Indexed(Step(d, s.cfg, a)))
  {
    ReleaseSimulates(d, s, clock, m, token, now);
    ReleaseIs(d, s, now, m, token);
    TracksBy(d, s, Timed(now, Release(m, token)), ReleaseOf(d, m, now),
             Oracle.Release(s, Bearer(m, token)));
  }

  lemma HeartbeatIs(d: Keyspace, s: State<string>, now: int, m: string, token: string, extend: int)
    requires Presents(d, m, token)
    ensures StepIs(d, s, Timed(now, Heartbeat(m, token, extend)), HeartbeatOf(d, m, extend, now),
              Oracle.Heartbeat(s, Bearer(m, token), extend, now))
  {
  }

  lemma HeartbeatTracks(d: Keyspace, s: State<string>, clock: int, now: int, m: string, token: string, extend: int)
    requires Wf(d, s, clock) && clock <= now && Presents(d, m, token) && extend >= 0
    ensures var a := Timed(now, Heartbeat(m, token, extend));
            Tracks(d, s, a) && (Indexed(d) ==> Indexed(Step(d, s.cfg, a)))
  {
    HeartbeatSimulates(d, s, clock, m, token, extend, now);
    HeartbeatIs(d, s, now, m, token, extend);
    TracksBy(d, s, Timed(now, Heartbeat(m, token, extend)), HeartbeatOf(d, m, extend, now),
             Oracle.Heartbeat(s, Bearer(m, token), extend, now));
  }

  lemma FailIs(d: Keyspace, s: State<string>, now: int, m: string, token: string, seqNo: int, reason: string)
    requires Presents(d, m, token)
    ensures StepIs(d, s, Timed(now, Fail(m, token, seqNo, reason)), FailOf(d, m, seqNo, reason, s.cfg.maxAttempts, now),
              Oracle.Fail(s, Bearer(m, token), seqNo, reason, now))
  {
  }

  lemma FailTracks(d: Keyspace, s: State<string>, clock: int, now: int, m: string, token: string, seqNo: int, reason: string)
    requires Wf(d, s, clock) && clock <= now && Presents(d, m, token)
    ensures var a := Timed(now, Fail(m, token, seqNo, reason));
            (Tracks(d, s, a) <==> Followed(d, s.cfg, a)) && (Indexed(d) ==> Indexed(Step(d, s.cfg, a)))
  {
    FailSimulates(d, s, clock, m, token, seqNo, reason, now);
    FailIs(d, s, now, m, token, seqNo, reason);
    TracksBy(d, s, Timed(now, Fail(m, token, seqNo, reason)), FailOf(d, m, seqNo, reason, s.cfg.maxAttempts, now),
             Oracle.Fail(s, Bearer(m, token), seqNo, reason, now));
    FollowedFail(d, s.cfg, now, m, token, seqNo, reason);
  }

  lemma ReapIs(d: Keyspace, s: State<string>, now: int, bound: int)
    ensures StepIs(d, s, Timed(now, Reap(bound)), ReapAll(d, bound), Oracle.Reap(s, bound + 1, bound))
  {
  }

  lemma ReapTracks(d: Keyspace, s: State<string>, clock: int, now: int, bound: int)
    requires Wf(d, s, clock) && clock <= now && bound <= now
    ensures var a := Timed(now, Reap(bound));
            Tracks(d, s, a) && (Indexed(d) ==> Indexed(Step(d, s.cfg, a)))
  {
    ReapSimulates(d, s, clock, bound, now);
    ReapIs(d, s, now, bound);
    TracksBy(d, s, Timed(now, Reap(bound)), ReapAll(d, bound), Oracle.Reap(s, bound + 1, bound));
  }

  /**
   A step of the shard is one the oracle can take with the same outcome if and only if the index does
   not let it down; and the index survives every step but an enqueue that straddles.
   */
  lemma StepFollows(d: Keyspace, s: State<string>, clock: int, a: Timed)
    requires Wf(d, s, clock) && Asked(d, s, clock, a) && Image(d, a).Some?
    ensures Tracks(d, s, a) && (a.call.Claim? ==> Claimable(s, a.call.m)) <==> Followed(d, s.cfg, a)
    ensures Indexed(d) ==> Followed(d, s.cfg, a) && (Indexed(Step(d, s.cfg, a)) <==> !Straddling(d, s.cfg, a))
    ensures Indexed(d) && a.call.Claim? ==> Oldest(s, a.call.m)
  {
    match a.call
    case Enqueue(m, payload, cost) => EnqueueTracks(d, s, clock, a.now, m, payload, cost);
    case Claim(m, token, window) => ClaimFollows(d, s, clock, a.now, m, token, window);
    case Reap(bound) => ReapTracks(d, s, clock, a.now, bound);
    case _ => HeldFollows(d, s, clock, a);
  }

  lemma HeldFollows(d: Keyspace, s: State<string>, clock: int, a: Timed)
    requires Wf(d, s, clock) && Asked(d, s, clock, a) && Image(d, a).Some? && Presented(a.call).Some?
    ensures Tracks(d, s, a) <==> Followed(d, s.cfg, a)
    ensures Indexed(d) ==> Followed(d, s.cfg, a) && Indexed(Step(d, s.cfg, a))
  {
    if Presents(d, a.call.m, a.call.token) {
      BorneFollows(d, s, clock, a);
      NeverReady(d, s, clock, a.call.m);
      UnreadyFollowed(d, s.cfg, a);
    } else {
      LostEffect(d, s, clock, a);
    }
  }

  lemma BorneFollows(d: Keyspace, s: State<string>, clock: int, a: Timed)
    requires Wf(d, s, clock) && Asked(d, s, clock, a) && Image(d, a).Some? && Presented(a.call).Some?
    requires Presents(d, a.call.m, a.call.token)
    ensures Tracks(d, s, a) <==> Followed(d, s.cfg, a)
    ensures Indexed(d) ==> Indexed(Step(d, s.cfg, a))
  {
    match a.call
    case Ack(m, token, through) => AckTracks(d, s, clock, a.now, m, token, through);
    case Release(m, token) => ReleaseTracks(d, s, clock, a.now, m, token);
    case Heartbeat(m, token, extend) => HeartbeatTracks(d, s, clock, a.now, m, token, extend);
    case Fail(m, token, seqNo, reason) => FailTracks(d, s, clock, a.now, m, token, seqNo, reason);
  }

  lemma UnreadyFollowed(d: Keyspace, cfg: Config, a: Timed)
    requires Presented(a.call).Some?
    ensures SlotAt(d, a.call.m).ready.None? ==> Followed(d, cfg, a)
  {
  }

  lemma ClaimFollows(d: Keyspace, s: State<string>, clock: int, now: int, m: string, token: string, window: int)
    requires Wf(d, s, clock) && clock <= now && Poppable(d, m) && window >= 0 && WorkerOf(token) != ""
    ensures var a := Timed(now, Claim(m, token, window));
            && (Tracks(d, s, a) && Claimable(s, m) <==> Followed(d, s.cfg, a))
            && (Indexed(d) ==> Followed(d, s.cfg, a) && Indexed(Step(d, s.cfg, a)) && Oldest(s, m))
  {
    Knows(d, s, clock, m);
    ScoreOfClaimable(d, s, clock, m);
    if d.hashes[m].claimedBy.None? {
      ClaimTracks(d, s, clock, now, m, token, window);
    }
  }

  /** In an indexed shard no leased unit is ready. */
  lemma NeverReady(d: Keyspace, s: State<string>, clock: int, m: string)
    requires Wf(d, s, clock) && m in d.hashes && d.hashes[m].leaseToken.Some?
    ensures Indexed(d) ==> SlotAt(d, m).ready.None?
  {
    Knows(d, s, clock, m);
  }

  lemma CountStays(d: Keyspace, s: State<string>, clock: int, a: Timed)
    requires Counted(d) && Wf(d, s, clock)
    ensures Counted(Step(d, s.cfg, a))
  {
    if !a.call.Reap? {
      StreamIsPending(d, s, clock, a.call.m);
    }
    StepCounts(d, s.cfg, a);
  }

  lemma StepCounts(d: Keyspace, cfg: Config, a: Timed)
    requires Counted(d) && (!a.call.Reap? ==> StreamOk(SlotAt(d, a.call.m).stream))
    ensures Counted(Step(d, cfg, a))
  {
    match a.call
    case Enqueue(m, payload, cost) => EnqueueCounts(d, m, payload, cost, cfg, a.now);
    case Claim(m, token, window) => SameCount(d, m, Lent(SlotAt(d, m), WorkerOf(token), token, window, a.now));
    case Drain(m, token, max) =>
      DrainIsPrefix(SlotAt(d, m).stream, max);
      SameCount(d, m, SlotAt(d, m).(stream := SplitDrain(SlotAt(d, m).stream, max, 0).0));
    case Ack(m, token, through) => AckCounts(d, m, through, a.now);
    case Release(m, token) => ReleaseCounts(d, m, a.now);
    case Heartbeat(m, token, extend) => SameCount(d, m, Renewed(SlotAt(d, m), a.now + extend));
    case Fail(m, token, seqNo, reason) =>
      FailCounts(d, m, seqNo, reason, cfg.maxAttempts, a.now);
    case Reap(bound) =>
      assert ReapAll(d, bound).streams == d.streams;
  }

  lemma DrainMatches(d: Keyspace, w: History.World<string>, a: Timed)
    requires Matches(d, w) && a.call.Drain?
    ensures Matches(Step(d, w.queue.cfg, a), w)
  {
    CountStays(d, w.queue, w.clock, a);
    DrainWf(d, w.queue, w.clock, a);
  }

  lemma DrainWf(d: Keyspace, s: State<string>, clock: int, a: Timed)
    requires Wf(d, s, clock) && a.call.Drain?
    ensures Wf(Step(d, s.cfg, a), s, clock)
  {
    if Presents(d, a.call.m, a.call.token) {
      DrainSimulates(d, s, clock, a.call.m, a.call.token, a.call.max);
      DrainIs(d, s.cfg, a);
    }
  }

  lemma DrainIs(d: Keyspace, cfg: Config, a: Timed)
    requires a.call.Drain? && Presents(d, a.call.m, a.call.token)
    ensures Step(d, cfg, a) == DrainFrom(d, a.call.m, a.call.max)
  {
  }

  /** The clocks go on together. */
  lemma ClockFollows(d: Keyspace, w: History.World<string>, a: Timed)
    requires w.seen == w.clock && Asked(d, w.queue, w.clock, a) && Image(d, a).Some?
    ensures var n := History.Next(w, Image(d, a).value);
            n.seen == n.clock == a.now && n.queue == History.Effect(w.queue, Image(d, a).value)
  {
    History.NextIs(w, Image(d, a).value);
  }

  lemma MatchesBy(d: Keyspace, w: History.World<string>, a: Timed, n: History.World<string>)
    requires Tracks(d, w.queue, a) && Counted(Step(d, w.queue.cfg, a))
    requires n.seen == n.clock == a.now && n.queue == History.Effect(w.queue, Image(d, a).value)
    ensures Matches(Step(d, w.queue.cfg, a), n)
  {
  }

  lemma StepSimulates(d: Keyspace, w: History.World<string>, a: Timed)
    requires Matches(d, w) && Permitted(d, w.queue, w.clock, a)
    ensures Image(d, a).Some? ==> History.Enabled(w, Image(d, a).value)
    ensures Matches(Step(d, w.queue.cfg, a), Follow(w, Image(d, a)))
  {
    if a.call.Drain? {
      DrainMatches(d, w, a);
    } else {
      CountStays(d, w.queue, w.clock, a);
      StepFollows(d, w.queue, w.clock, a);
      ClockFollows(d, w, a);
      MatchesBy(d, w, a, History.Next(w, Image(d, a).value));
    }
  }

  // ---------- runs ----------

  function Run(d: Keyspace, cfg: Config, acts: seq<Timed>): Keyspace {
    if acts == [] then d else Step(Run(d, cfg, acts[..|acts| - 1]), cfg, acts[|acts| - 1])
  }

  function Images(d: Keyspace, cfg: Config, acts: seq<Timed>): seq<History.Timed<string>> {
    if acts == [] then [] else
    var before := acts[..|acts| - 1];
    var i := Image(Run(d, cfg, before), acts[|acts| - 1]);
    Images(d, cfg, before) + if i.Some? then [i.value] else []
  }

  ghost predicate Legal(d: Keyspace, w: History.World<string>, acts: seq<Timed>) {
    acts == [] ||
    var before := acts[..|acts| - 1];
    var v := History.Run(w, Images(d, w.queue.cfg, before));
    Legal(d, w, before) && Permitted(Run(d, w.queue.cfg, before), v.queue, v.clock, acts[|acts| - 1])
  }

  lemma {:induction false} CfgStays(w: History.World<string>, ts: seq<History.Timed<string>>)
    ensures History.Run(w, ts).queue.cfg == w.queue.cfg
  {
    if ts != [] {
      CfgStays(w, ts[..|ts| - 1]);
    }
  }

  lemma ImagesStep(d: Keyspace, w: History.World<string>, acts: seq<Timed>)
    requires acts != []
    requires var ts := Images(d, w.queue.cfg, acts[..|acts| - 1]);
             var i := Image(Run(d, w.queue.cfg, acts[..|acts| - 1]), acts[|acts| - 1]);
             History.Legal(w, ts) && (i.Some? ==> History.Enabled(History.Run(w, ts), i.value))
    ensures var ts := Images(d, w.queue.cfg, acts[..|acts| - 1]);
            var i := Image(Run(d, w.queue.cfg, acts[..|acts| - 1]), acts[|acts| - 1]);
            && History.Legal(w, Images(d, w.queue.cfg, acts))
            && History.Run(w, Images(d, w.queue.cfg, acts)) == Follow(History.Run(w, ts), i)
  {
    var ts := Images(d, w.queue.cfg, acts[..|acts| - 1]);
    var i := Image(Run(d, w.queue.cfg, acts[..|acts| - 1]), acts[|acts| - 1]);
    if i.Some? {
      assert (ts + [i.value])[..|ts|] == ts;
    } else {
      assert ts + [] == ts;
    }
  }

  /** Every run of the shard is matched by a run of the oracle that leaves the same queue. */
  lemma {:induction false} RunSimulates(d: Keyspace, w: History.World<string>, acts: seq<Timed>)
    requires Matches(d, w) && Legal(d, w, acts)
    ensures History.Legal(w, Images(d, w.queue.cfg, acts))
    ensures Matches(Run(d, w.queue.cfg, acts), History.Run(w, Images(d, w.queue.cfg, acts)))
  {
    if acts != [] {
      var before := acts[..|acts| - 1];
      RunSimulates(d, w, before);
      RunStep(d, w, acts);
    }
  }

  lemma RunStep(d: Keyspace, w: History.World<string>, acts: seq<Timed>)
    requires acts != [] && Legal(d, w, acts)
    requires var before := acts[..|acts| - 1]; var ts := Images(d, w.queue.cfg, before);
             History.Legal(w, ts) && Matches(Run(d, w.queue.cfg, before), History.Run(w, ts))
    ensures History.Legal(w, Images(d, w.queue.cfg, acts))
    ensures Matches(Run(d, w.queue.cfg, acts), History.Run(w, Images(d, w.queue.cfg, acts)))
  {
    var before := acts[..|acts| - 1];
    CfgStays(w, Images(d, w.queue.cfg, before));
    StepSimulates(Run(d, w.queue.cfg, before), History.Run(w, Images(d, w.queue.cfg, before)), acts[|acts| - 1]);
    ImagesStep(d, w, acts);
  }

  /** A permitted run with one more permitted step. */
  lemma LegalGrows(d: Keyspace, w: History.World<string>, acts: seq<Timed>, a: Timed)
    requires Legal(d, w, acts)
    requires var v := History.Run(w, Images(d, w.queue.cfg, acts));
             Permitted(Run(d, w.queue.cfg, acts), v.queue, v.clock, a)
    ensures Legal(d, w, acts + [a])
    ensures Run(d, w.queue.cfg, acts + [a]) == Step(Run(d, w.queue.cfg, acts), w.queue.cfg, a)
    ensures History.Run(w, Images(d, w.queue.cfg, acts + [a])) ==
            Follow(History.Run(w, Images(d, w.queue.cfg, acts)), Image(Run(d, w.queue.cfg, acts), a))
  {
    assert (acts + [a])[..|acts|] == acts;
    var ts, i := Images(d, w.queue.cfg, acts), Image(Run(d, w.queue.cfg, acts), a);
    if i.Some? {
      assert (ts + [i.value])[..|ts|] == ts;
    } else {
      assert ts + [] == ts;
    }
  }

  /** Every step of a run is one a caller may ask for. */
  ghost predicate Called(d: Keyspace, w: History.World<string>, acts: seq<Timed>) {
    acts == [] ||
    var before := acts[..|acts| - 1];
    var v := History.Run(w, Images(d, w.queue.cfg, before));
    Called(d, w, before) && Asked(Run(d, w.queue.cfg, before), v.queue, v.clock, acts[|acts| - 1])
  }

  /** No step of a run breaks the index. */
  ghost predicate Tidy(d: Keyspace, cfg: Config, acts: seq<Timed>) {
    acts == [] ||
    (Tidy(d, cfg, acts[..|acts| - 1]) && !Straddling(Run(d, cfg, acts[..|acts| - 1]), cfg, acts[|acts| - 1]))
  }

  lemma StepIndexed(d: Keyspace, w: History.World<string>, a: Timed)
    requires Matches(d, w) && Indexed(d) && Asked(d, w.queue, w.clock, a)
    ensures Permitted(d, w.queue, w.clock, a)
    ensures Indexed(Step(d, w.queue.cfg, a)) <==> !Straddling(d, w.queue.cfg, a)
  {
    if !a.call.Drain? {
      StepFollows(d, w.queue, w.clock, a);
    } else if Presents(d, a.call.m, a.call.token) {
      DrainSimulates(d, w.queue, w.clock, a.call.m, a.call.token, a.call.max);
    }
  }

  /** As long as no enqueue straddles, every step is permitted and the index survives. */
  lemma {:induction false} TidyRuns(d: Keyspace, w: History.World<string>, acts: seq<Timed>)
    requires Matches(d, w) && Indexed(d) && Called(d, w, acts) && Tidy(d, w.queue.cfg, acts)
    ensures Legal(d, w, acts) && Indexed(Run(d, w.queue.cfg, acts))
  {
    if acts != [] {
      var before := acts[..|acts| - 1];
      TidyRuns(d, w, before);
      RunSimulates(d, w, before);
      CfgStays(w, Images(d, w.queue.cfg, before));
      StepIndexed(Run(d, w.queue.cfg, before), History.Run(w, Images(d, w.queue.cfg, before)), acts[|acts| - 1]);
    }
  }

  function Fresh(): Keyspace {
    Keyspace(map[], map[], map[], map[], map[], [], 0)
  }

  /** After any run from an empty shard the aggregates are the sums they stand for, and the history is in order. */
  lemma ShardInvariant(cfg: Config, acts: seq<Timed>)
    requires cfg.threshold > 0 && cfg.maxWait >= 0 && cfg.maxAttempts > 0
    requires Legal(Fresh(), History.Start(cfg), acts)
    ensures var d := Run(Fresh(), cfg, acts);
            && d.hashes.Keys == d.streams.Keys
            && (forall m :: m in d.hashes ==> d.hashes[m].pendingCost == Total(Queue(d.streams[m].entries)))
            && d.pendingTasks == Sum(map m | m in d.streams :: |d.streams[m].entries|)
    ensures History.HistoryInv(History.Run(History.Start(cfg), Images(Fresh(), cfg, acts)))
  {
    var w := History.Start<string>(cfg);
    FreshMatches(cfg);
    RunSimulates(Fresh(), w, acts);
    History.RunHistory(w, Images(Fresh(), cfg, acts));
    var d, v := Run(Fresh(), cfg, acts), History.Run(w, Images(Fresh(), cfg, acts));
    CostsMatch(d, v.queue, v.clock);
  }

  /** And as long as no enqueue straddles, the three sets partition the units. */
  lemma IndexSurvives(cfg: Config, acts: seq<Timed>)
    requires cfg.threshold > 0 && cfg.maxWait >= 0 && cfg.maxAttempts > 0
    requires Called(Fresh(), History.Start(cfg), acts) && Tidy(Fresh(), cfg, acts)
    ensures Legal(Fresh(), History.Start(cfg), acts)
    ensures var d := Run(Fresh(), cfg, acts);
            && d.eligible.Keys !! d.pendingFlush.Keys !! d.leases.Keys
            && d.eligible.Keys + d.pendingFlush.Keys + d.leases.Keys == d.hashes.Keys
  {
    var w := History.Start<string>(cfg);
    FreshMatches(cfg);
    TidyRuns(Fresh(), w, acts);
    RunSimulates(Fresh(), w, acts);
    IndexPartition(Run(Fresh(), cfg, acts), History.Run(w, Images(Fresh(), cfg, acts)).queue);
  }

  lemma FreshMatches(cfg: Config)
    requires cfg.threshold > 0 && cfg.maxWait >= 0 && cfg.maxAttempts > 0
    ensures Matches(Fresh(), History.Start(cfg)) && Indexed(Fresh()) && History.HistoryInv(History.Start<string>(cfg))
  {
    History.StartHistory<string>(cfg);
    assert Lengths(Fresh().streams) == map[];
  }

  /** The entries of a stream are numbered one by one, up to the number the hash gives out next. */
  predicate Numbered(d: Keyspace, m: string) {
    var es := SlotAt(d, m).stream.entries;
    forall i :: 0 <= i < |es| ==> es[i].entry.task.seqNo == SlotAt(d, m).hash.nextSeq - |es| + i
  }

  /** The live stream of a unit holds exactly the arrivals not yet settled, in arrival order. */
  lemma StreamIsUnsettled(cfg: Config, acts: seq<Timed>, m: string)
    requires cfg.threshold > 0 && cfg.maxWait >= 0 && cfg.maxAttempts > 0
    requires Legal(Fresh(), History.Start(cfg), acts)
    ensures var w := History.Run(History.Start(cfg), Images(Fresh(), cfg, acts));
            var st, n := SlotAt(Run(Fresh(), cfg, acts), m).stream, History.Settled(History.Log(w, m));
            && StreamOk(st) && n <= |History.Arrivals(w, m)|
            && Queue(st.entries) == History.Arrivals(w, m)[n..]
    ensures Numbered(Run(Fresh(), cfg, acts), m)
  {
    FreshMatches(cfg);
    RunSimulates(Fresh(), History.Start(cfg), acts);
    ShardInvariant(cfg, acts);
    StreamIsTail(Run(Fresh(), cfg, acts), History.Run(History.Start(cfg), Images(Fresh(), cfg, acts)), m);
  }

  lemma StreamIsTail(d: Keyspace, w: History.World<string>, m: string)
    requires Wf(d, w.queue, w.clock) && History.KeyHistory(w, m)
    ensures var st, n := SlotAt(d, m).stream, History.Settled(History.Log(w, m));
            && StreamOk(st) && n <= |History.Arrivals(w, m)|
            && Queue(st.entries) == History.Arrivals(w, m)[n..]
    ensures Numbered(d, m)
  {
    StreamIsPending(d, w.queue, w.clock, m);
    NumberedToLast(d, w.queue, w.clock, m);
  }

  lemma NumberedToLast(d: Keyspace, s: State<string>, clock: int, m: string)
    requires Wf(d, s, clock)
    ensures Numbered(d, m)
  {
    if m in d.hashes {
      Knows(d, s, clock, m);
      NumberedOf(SlotAt(d, m), s.units[m]);
    } else {
      assert SlotAt(d, m).stream.entries == [];
    }
  }

  lemma NumberedOf(x: Slot, u: Unit)
    requires UnitIn(x) == u && Contiguous(u)
    ensures forall i :: 0 <= i < |x.stream.entries| ==>
              x.stream.entries[i].entry.task.seqNo == x.hash.nextSeq - |x.stream.entries| + i
  {
    forall i | 0 <= i < |u.queue| ensures u.queue[i] == x.stream.entries[i].entry {
    }
  }

  lemma StreamIsPending(d: Keyspace, s: State<string>, clock: int, m: string)
    requires Wf(d, s, clock)
    ensures StreamOk(SlotAt(d, m).stream) && Queue(SlotAt(d, m).stream.entries) == UnitOf(s, m).queue
  {
    if m in d.hashes {
      Knows(d, s, clock, m);
    }
  }
}
