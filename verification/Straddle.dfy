/**
 The runs the index does not survive: a unit promoted by the flush sweep and enqueued to while it is
 free and below threshold sits in two sets, and is handed out twice, or before its time.
 */
module Straddle {
  import opened Contract
  import opened Oracle
  import opened Invariant
  import opened Streams
  import opened ShardState
  import opened SlotSteps
  import opened ShardSteps
  import opened Tokens
  import R = ShardRuns
  import History

  /** A keyspace that knows of one member only. */
  ghost predicate SoleMember(d: Keyspace, m: string) {
    && d.hashes.Keys == {m} == d.streams.Keys
    && d.eligible.Keys <= {m} && d.pendingFlush.Keys <= {m} && d.leases.Keys <= {m}
  }

  ghost predicate Nothing(d: Keyspace) {
    d.hashes == map[] && d.streams == map[] && d.eligible == map[] && d.pendingFlush == map[] && d.leases == map[]
  }

  lemma SoleStays(d: Keyspace, m: string, y: Slot)
    requires SoleMember(d, m) || Nothing(d)
    ensures SoleMember(SetSlot(d, m, Some(y)), m) && SlotAt(SetSlot(d, m, Some(y)), m) == y
  {
  }

  lemma SolePops(d: Keyspace, m: string)
    requires SoleMember(d, m) && SlotAt(d, m).ready.Some?
    ensures Poppable(d, m) && forall k :: Poppable(d, k) ==> k == m
  {
  }

  lemma SoleSwept(d: Keyspace, m: string, now: int)
    requires SoleMember(d, m)
    ensures SoleMember(ReapAll(d, now), m) && SlotAt(ReapAll(d, now), m) == SweptSlot(d, m, now)
  {
    SweptAt(d, m, now);
  }

  // ---------- runs from an empty shard ----------

  /** A permitted run from an empty shard that leads to d with these tokens drawn, its clock not past t. */
  ghost predicate Leads(cfg: Config, acts: seq<R.Timed>, d: Keyspace, drawn: set<string>, t: int) {
    var w := History.Run(History.Start<string>(cfg), R.Images(R.Fresh(), cfg, acts));
    && R.Legal(R.Fresh(), History.Start(cfg), acts) && R.Run(R.Fresh(), cfg, acts) == d
    && R.Matches(d, w) && w.queue.cfg == cfg && w.queue.issued == drawn && w.clock <= t
  }

  /** A step a caller may ask for after such a run, whatever the index makes of it. */
  predicate MayAsk(d: Keyspace, drawn: set<string>, t: int, a: R.Timed) {
    t <= a.now &&
    match a.call
    case Enqueue(_, _, cost) => cost > 0
    case Claim(m, token, window) => Poppable(d, m) && window >= 0 && WorkerOf(token) != "" && token !in drawn
    case Heartbeat(_, _, extend) => extend >= 0
    case Reap(bound) => bound <= a.now
    case _ => true
  }

  /** The last step of a run from an empty shard is asked for by a caller, and is none the oracle can take. */
  ghost predicate Departs(cfg: Config, acts: seq<R.Timed>, a: R.Timed) {
    var d, w := R.Run(R.Fresh(), cfg, acts), History.Run(History.Start<string>(cfg), R.Images(R.Fresh(), cfg, acts));
    && R.Legal(R.Fresh(), History.Start(cfg), acts) && R.Asked(d, w.queue, w.clock, a) && R.Image(d, a).Some?
    && !(R.Tracks(d, w.queue, a) && (a.call.Claim? ==> Claimable(w.queue, a.call.m)))
  }

  lemma Begins(cfg: Config)
    requires cfg.threshold > 0 && cfg.maxWait >= 0 && cfg.maxAttempts > 0
    ensures Leads(cfg, [], R.Fresh(), {}, 0)
  {
    R.FreshMatches(cfg);
  }

  lemma Issues(s: State<string>, t: History.Timed<string>)
    ensures History.Effect(s, t).issued == s.issued + if t.op.Take? && t.op.key in s.units then {t.op.token} else {}
  {
  }

  lemma FollowIssues(d: Keyspace, w: History.World<string>, a: R.Timed)
    requires R.Image(d, a).Some? ==> History.Enabled(w, R.Image(d, a).value)
    ensures var v := R.Follow(w, R.Image(d, a));
            v.queue.issued == w.queue.issued + if a.call.Claim? then {a.call.token} else {}
    ensures w.clock <= a.now ==> R.Follow(w, R.Image(d, a)).clock <= a.now
    ensures R.Follow(w, R.Image(d, a)).queue.cfg == w.queue.cfg
  {
    if R.Image(d, a).Some? {
      History.NextIs(w, R.Image(d, a).value);
      History.EffectCfg(w.queue, R.Image(d, a).value);
      Issues(w.queue, R.Image(d, a).value);
    }
  }

  lemma Onward(cfg: Config, acts: seq<R.Timed>, d: Keyspace, drawn: set<string>, t: int,
               a: R.Timed, e: Keyspace, more: set<string>)
    requires Leads(cfg, acts, d, drawn, t) && MayAsk(d, drawn, t, a) && R.Followed(d, cfg, a)
    requires e == R.Step(d, cfg, a) && more == drawn + if a.call.Claim? then {a.call.token} else {}
    ensures Leads(cfg, acts + [a], e, more, a.now)
  {
    var w := History.Run(History.Start<string>(cfg), R.Images(R.Fresh(), cfg, acts));
    R.LegalGrows(R.Fresh(), History.Start(cfg), acts, a);
    R.StepSimulates(d, w, a);
    FollowIssues(d, w, a);
  }

  /** A step a caller may ask for and the oracle can follow, where it leads, and the tokens drawn by then. */
  predicate GoesTo(d: Keyspace, cfg: Config, drawn: set<string>, t: int, a: R.Timed, e: Keyspace, after: set<string>,
      now: int) {
    && MayAsk(d, drawn, t, a) && R.Followed(d, cfg, a) && e == R.Step(d, cfg, a) && now == a.now
    && after == drawn + if a.call.Claim? then {a.call.token} else {}
  }

  lemma GoesOn(cfg: Config, acts: seq<R.Timed>, d: Keyspace, drawn: set<string>, t: int,
               a: R.Timed, e: Keyspace, after: set<string>, now: int, more: seq<R.Timed>)
    requires Leads(cfg, acts, d, drawn, t) && GoesTo(d, cfg, drawn, t, a, e, after, now) && more == acts + [a]
    ensures Leads(cfg, more, e, after, now)
  {
    Onward(cfg, acts, d, drawn, t, a, e, after);
  }

  lemma EnqueueGoes(d: Keyspace, cfg: Config, drawn: set<string>, t: int, now: int, m: string, payload: string, cost: int)
    returns (e: Keyspace)
    requires t <= now && cost > 0 && (SoleMember(d, m) || Nothing(d))
    ensures GoesTo(d, cfg, drawn, t, R.Timed(now, R.Enqueue(m, payload, cost)), e, drawn, now)
    ensures SoleMember(e, m) && SlotAt(e, m) == Enqueued(SlotAt(d, m), payload, cost, cfg.threshold, cfg.maxWait, now)
    ensures e.dlq == d.dlq
  {
    e := EnqueueTo(d, m, payload, cost, cfg, now);
    SoleStays(d, m, Enqueued(SlotAt(d, m), payload, cost, cfg.threshold, cfg.maxWait, now));
  }

  lemma ClaimGoes(d: Keyspace, cfg: Config, drawn: set<string>, t: int, now: int, m: string, token: string,
      window: int, after: set<string>)
    returns (e: Keyspace)
    requires t <= now && SoleMember(d, m) && SlotAt(d, m).ready.Some? && SlotAt(d, m).hash.claimedBy.None?
    requires window >= 0 && WorkerOf(token) != "" && token !in drawn && after == drawn + {token}
    ensures GoesTo(d, cfg, drawn, t, R.Timed(now, R.Claim(m, token, window)), e, after, now)
    ensures SoleMember(e, m) && SlotAt(e, m) == Lent(SlotAt(d, m), WorkerOf(token), token, window, now) && Presents(e, m, token)
    ensures e.dlq == d.dlq
  {
    e := ClaimFrom(d, m, WorkerOf(token), token, window, now);
    SolePops(d, m);
    SoleStays(d, m, Lent(SlotAt(d, m), WorkerOf(token), token, window, now));
  }

  lemma SweepGoes(d: Keyspace, cfg: Config, drawn: set<string>, t: int, now: int, m: string) returns (e: Keyspace)
    requires t <= now && SoleMember(d, m)
    ensures GoesTo(d, cfg, drawn, t, R.Timed(now, R.Reap(now)), e, drawn, now)
    ensures SoleMember(e, m) && SlotAt(e, m) == Swept(SlotAt(d, m), now)
    ensures e.dlq == d.dlq
  {
    e := ReapAll(d, now);
    SoleSwept(d, m, now);
  }

  lemma DrainGoes(d: Keyspace, cfg: Config, drawn: set<string>, t: int, now: int, m: string, token: string, max: nat)
    returns (e: Keyspace)
    requires t <= now && SoleMember(d, m) && SlotAt(d, m).hash.leaseToken == Some(token)
    ensures GoesTo(d, cfg, drawn, t, R.Timed(now, R.Drain(m, token, max)), e, drawn, now)
    ensures SoleMember(e, m) && SlotAt(e, m) == SlotAt(d, m).(stream := SplitDrain(SlotAt(d, m).stream, max, 0).0)
    ensures e.dlq == d.dlq
  {
    e := DrainFrom(d, m, max);
    SoleStays(d, m, SlotAt(d, m).(stream := SplitDrain(SlotAt(d, m).stream, max, 0).0));
  }

  function Swept(x: Slot, now: int): Slot {
    Promoted(SlotSteps.Reclaimed(x, now), now)
  }

  lemma DepartsBy(cfg: Config, acts: seq<R.Timed>, d: Keyspace, drawn: set<string>, t: int, a: R.Timed)
    requires Leads(cfg, acts, d, drawn, t) && MayAsk(d, drawn, t, a) && !R.Followed(d, cfg, a) && R.Image(d, a).Some?
    ensures Departs(cfg, acts, a)
  {
    var w := History.Run(History.Start<string>(cfg), R.Images(R.Fresh(), cfg, acts));
    R.StepFollows(d, w.queue, w.clock, a);
  }

  // ---------- enqueue, sweep, enqueue, claim, sweep ----------

  /** Promoted at its flush time, and so ready. */
  function SlotAfterTwo(cfg: Config, cost: int, t: int, due: int): Slot {
    Swept(Enqueued(NO_SLOT, "first", cost, cfg.threshold, cfg.maxWait, t), due)
  }

  /** Enqueued to while it was ready. */
  function SlotAfterThree(cfg: Config, cost1: int, cost2: int, t: int, due: int, at: int): Slot {
    Enqueued(SlotAfterTwo(cfg, cost1, t, due), "second", cost2, cfg.threshold, cfg.maxWait, at)
  }

  /** Claimed, and swept again. */
  function SlotAfterFive(cfg: Config, cost1: int, cost2: int, t: int, due: int, at: int,
                         token: string, window: int, sweep: int): Slot {
    Swept(Lent(SlotAfterThree(cfg, cost1, cost2, t, due, at), WorkerOf(token), token, window, at), sweep)
  }

  /** Leased and ready: the second task of the unit waits for its flush time, neither was delivered. */
  ghost predicate ReadyThoughLeased(x: Slot, cfg: Config, cost1: int, cost2: int, at: int) {
    && x.ready.Some? && x.hash.threshold == cfg.threshold && x.hash.maxWaitMs == cfg.maxWait
    && x.hash.pendingCost == cost1 + cost2
    && exists e1, e2 :: x.stream == Stream([StreamEntry(1, e1), StreamEntry(2, e2)], 2, 0, [])
         && e1.task.seqNo == 0 && e2.task.seqNo == 1 && e1.task.cost == cost1 && e2.task.cost == cost2 && e2.at == at
  }

  lemma FiveLeavesReady(cfg: Config, cost1: int, cost2: int, t: int, due: int, at: int,
                        token: string, window: int, sweep: int, expires: int)
    requires cost1 > 0 && cost2 > 0 && cost1 + cost2 < cfg.threshold && cfg.maxWait >= 0 && t >= 0
    requires due == t + cfg.maxWait && due <= at <= sweep < expires == at + window
    ensures Straddles(SlotAfterTwo(cfg, cost1, t, due), cost2, cfg.threshold)
    ensures var x := SlotAfterFive(cfg, cost1, cost2, t, due, at, token, window, sweep);
            && ReadyThoughLeased(x, cfg, cost1, cost2, at) && x.hash.leaseToken == Some(token)
            && x.ready.Some? && x.leased == Some(expires) && x.hash.claimedBy.Some?
  {
    var x := SlotAfterFive(cfg, cost1, cost2, t, due, at, token, window, sweep);
    var e1, e2 := Entry(Task(0, "first", cost1), t), Entry(Task(1, "second", cost2), at);
    assert x.stream == Stream([StreamEntry(1, e1), StreamEntry(2, e2)], 2, 0, []);
  }

  lemma ThreeLeavesReady(cfg: Config, cost1: int, cost2: int, t: int, due: int, at: int)
    requires cost1 > 0 && cost2 > 0 && cost1 + cost2 < cfg.threshold && cfg.maxWait >= 0 && t >= 0
    requires due == t + cfg.maxWait <= at
    ensures var x := SlotAfterThree(cfg, cost1, cost2, t, due, at); x.ready.Some? && x.hash.claimedBy.None?
  {
  }

  // ---------- handed out twice ----------

  function FirstCalls(m: string, cost1: int, cost2: int, t: int, due: int, at: int): seq<R.Timed> {
    [] + [R.Timed(t, R.Enqueue(m, "first", cost1))] + [R.Timed(due, R.Reap(due))] + [R.Timed(at, R.Enqueue(m, "second", cost2))]
  }

  /** Enqueue, sweep, enqueue, claim, sweep. */
  function FiveCalls(m: string, cost1: int, cost2: int, t: int, due: int, at: int,
                     token: string, window: int, sweep: int): seq<R.Timed> {
    FirstCalls(m, cost1, cost2, t, due, at) + [R.Timed(at, R.Claim(m, token, window))] + [R.Timed(sweep, R.Reap(sweep))]
  }

  lemma ThreeRun(m: string, cfg: Config, cost1: int, cost2: int, t: int, due: int, at: int, none: set<string>)
    returns (d: Keyspace)
    requires none == {} && cfg.threshold > 0 && cfg.maxWait >= 0 && cfg.maxAttempts > 0 && cost1 > 0 && cost2 > 0
    requires 0 <= t <= due <= at
    ensures Leads(cfg, FirstCalls(m, cost1, cost2, t, due, at), d, none, at)
    ensures SoleMember(d, m) && SlotAt(d, m) == SlotAfterThree(cfg, cost1, cost2, t, due, at)
  {
    var one, two, three := R.Timed(t, R.Enqueue(m, "first", cost1)), R.Timed(due, R.Reap(due)), R.Timed(at, R.Enqueue(m, "second", cost2));
    Begins(cfg);
    var d1 := EnqueueGoes(R.Fresh(), cfg, {}, 0, t, m, "first", cost1);
    var d2 := SweepGoes(d1, cfg, {}, t, due, m);
    d := EnqueueGoes(d2, cfg, {}, due, at, m, "second", cost2);
    ThreeOn(cfg, [], R.Fresh(), {}, 0, one, d1, t, two, d2, due, three, d, at, FirstCalls(m, cost1, cost2, t, due, at));
  }

  /** Three steps without a claim, one after the other. */
  lemma ThreeOn(cfg: Config, acts: seq<R.Timed>, d: Keyspace, drawn: set<string>, t: int, a1: R.Timed, d1: Keyspace, t1: int,
                a2: R.Timed, d2: Keyspace, t2: int, a3: R.Timed, d3: Keyspace, t3: int, more: seq<R.Timed>)
    requires Leads(cfg, acts, d, drawn, t) && more == acts + [a1] + [a2] + [a3]
    requires GoesTo(d, cfg, drawn, t, a1, d1, drawn, t1) && GoesTo(d1, cfg, drawn, t1, a2, d2, drawn, t2)
    requires GoesTo(d2, cfg, drawn, t2, a3, d3, drawn, t3)
    ensures Leads(cfg, more, d3, drawn, t3)
  {
    TwoOn(cfg, acts, d, drawn, t, a1, d1, drawn, t1, a2, d2, drawn, t2, acts + [a1] + [a2]);
    GoesOn(cfg, acts + [a1] + [a2], d2, drawn, t2, a3, d3, drawn, t3, more);
  }

  lemma TwoOn(cfg: Config, acts: seq<R.Timed>, d: Keyspace, drawn: set<string>, t: int,
              a1: R.Timed, d1: Keyspace, drawn1: set<string>, t1: int, a2: R.Timed, d2: Keyspace, drawn2: set<string>, t2: int,
              more: seq<R.Timed>)
    requires Leads(cfg, acts, d, drawn, t) && more == acts + [a1] + [a2]
    requires GoesTo(d, cfg, drawn, t, a1, d1, drawn1, t1) && GoesTo(d1, cfg, drawn1, t1, a2, d2, drawn2, t2)
    ensures Leads(cfg, more, d2, drawn2, t2)
  {
    GoesOn(cfg, acts, d, drawn, t, a1, d1, drawn1, t1, acts + [a1]);
    GoesOn(cfg, acts + [a1], d1, drawn1, t1, a2, d2, drawn2, t2, more);
  }

  lemma FiveRun(m: string, cfg: Config, cost1: int, cost2: int, t: int, due: int, at: int,
                token: string, window: int, sweep: int, none: set<string>, drawn: set<string>, acts: seq<R.Timed>) returns (d: Keyspace)
    requires none == {} && token !in none && drawn == none + {token} && cost1 > 0 && cost2 > 0
    requires cost1 + cost2 < cfg.threshold && cfg.maxWait >= 0 && cfg.maxAttempts > 0 && t >= 0
    requires due == t + cfg.maxWait && due <= at <= sweep && window >= 0 && WorkerOf(token) != ""
    requires acts == FiveCalls(m, cost1, cost2, t, due, at, token, window, sweep)
    ensures Leads(cfg, acts, d, drawn, sweep)
    ensures SoleMember(d, m) && SlotAt(d, m) == SlotAfterFive(cfg, cost1, cost2, t, due, at, token, window, sweep)
  {
    var three := ThreeRun(m, cfg, cost1, cost2, t, due, at, none);
    ThreeLeavesReady(cfg, cost1, cost2, t, due, at);
    d := ClaimedSwept(m, cfg, three, at, token, window, sweep, none, drawn, FirstCalls(m, cost1, cost2, t, due, at), acts);
  }

  lemma ClaimedSwept(m: string, cfg: Config, three: Keyspace, at: int, token: string, window: int, sweep: int,
                     before: set<string>, drawn: set<string>, first: seq<R.Timed>, acts: seq<R.Timed>) returns (d: Keyspace)
    requires Leads(cfg, first, three, before, at) && token !in before && drawn == before + {token} && at <= sweep
    requires window >= 0 && WorkerOf(token) != ""
    requires acts == first + [R.Timed(at, R.Claim(m, token, window))] + [R.Timed(sweep, R.Reap(sweep))]
    requires SoleMember(three, m) && SlotAt(three, m).ready.Some? && SlotAt(three, m).hash.claimedBy.None?
    ensures Leads(cfg, acts, d, drawn, sweep)
    ensures SoleMember(d, m) && SlotAt(d, m) == Swept(Lent(SlotAt(three, m), WorkerOf(token), token, window, at), sweep)
  {
    var four := ClaimGoes(three, cfg, before, at, at, m, token, window, drawn);
    d := SweepGoes(four, cfg, drawn, at, sweep, m);
    TwoOn(cfg, first, three, before, at, R.Timed(at, R.Claim(m, token, window)), four, drawn, at,
          R.Timed(sweep, R.Reap(sweep)), d, drawn, sweep, acts);
  }

  /** Held by the first claim, and ready all the same. */
  ghost predicate HeldReady(x: Slot, cfg: Config, cost1: int, cost2: int, at: int, token: string, expires: int) {
    && ReadyThoughLeased(x, cfg, cost1, cost2, at) && x.hash.leaseToken == Some(token)
    && x.ready.Some? && x.leased == Some(expires) && x.hash.claimedBy.Some?
  }

  lemma FiveHeld(m: string, cfg: Config, cost1: int, cost2: int, t: int, due: int, at: int,
                 token: string, window: int, sweep: int, expires: int, drawn: set<string>, acts: seq<R.Timed>) returns (d: Keyspace)
    requires drawn == {token} && cost1 > 0 && cost2 > 0 && cost1 + cost2 < cfg.threshold && cfg.maxWait >= 0
    requires cfg.maxAttempts > 0 && t >= 0
    requires due == t + cfg.maxWait && due <= at <= sweep < expires == at + window && WorkerOf(token) != ""
    requires acts == FiveCalls(m, cost1, cost2, t, due, at, token, window, sweep)
    ensures Leads(cfg, acts, d, drawn, sweep) && SoleMember(d, m)
    ensures HeldReady(SlotAt(d, m), cfg, cost1, cost2, at, token, expires)
  {
    d := FiveRun(m, cfg, cost1, cost2, t, due, at, token, window, sweep, {}, drawn, acts);
    FiveLeavesReady(cfg, cost1, cost2, t, due, at, token, window, sweep, expires);
  }

  /**
   Enqueue, sweep, enqueue, claim, sweep, claim: for every threshold, wait, lease, pair of costs that stay
   below the threshold and pair of tokens, this is a run from an empty shard whose last claim, under a token
   of its own, is given the unit the first one still holds.
   */
  lemma DoubleClaim(m: string, cfg: Config, cost1: int, cost2: int, t: int, due: int, expires: int, sweep: int,
      token1: string, token2: string, window: int, at: int)
    requires cost1 > 0 && cost2 > 0 && cost1 + cost2 < cfg.threshold && cfg.maxWait >= 0 && cfg.maxAttempts > 0 && t >= 0
    requires due == t + cfg.maxWait && due <= at <= sweep < expires == at + window
    requires token1 != token2 && WorkerOf(token1) != "" && WorkerOf(token2) != ""
    ensures var acts, a := FiveCalls(m, cost1, cost2, t, due, at, token1, window, sweep), R.Timed(sweep, R.Claim(m, token2, window));
            DepartsTwice(cfg, acts, a, m, token1, token2)
  {
    Doubled(m, cfg, cost1, cost2, t, due, expires, sweep, token1, token2, window, at, {token1},
            FiveCalls(m, cost1, cost2, t, due, at, token1, window, sweep));
  }

  lemma Doubled(m: string, cfg: Config, cost1: int, cost2: int, t: int, due: int, expires: int, sweep: int,
      token1: string, token2: string, window: int, at: int, drawn: set<string>, acts: seq<R.Timed>)
    requires cost1 > 0 && cost2 > 0 && cost1 + cost2 < cfg.threshold && cfg.maxWait >= 0 && cfg.maxAttempts > 0 && t >= 0
    requires due == t + cfg.maxWait && due <= at <= sweep < expires == at + window
    requires drawn == {token1} && token2 !in drawn && WorkerOf(token1) != "" && WorkerOf(token2) != ""
    requires acts == FiveCalls(m, cost1, cost2, t, due, at, token1, window, sweep)
    ensures DepartsTwice(cfg, acts, R.Timed(sweep, R.Claim(m, token2, window)), m, token1, token2)
  {
    var d := FiveHeld(m, cfg, cost1, cost2, t, due, at, token1, window, sweep, expires, drawn, acts);
    ThenClaimed(cfg, acts, d, cost1, cost2, at, m, expires, token1, token2, window, sweep, drawn);
  }

  /** Such a run, and the claim that departs. */
  ghost predicate DepartsTwice(cfg: Config, acts: seq<R.Timed>, a: R.Timed, m: string, token1: string, token2: string) {
    Departs(cfg, acts, a) && HandedTwice(R.Run(R.Fresh(), cfg, acts), cfg, a, m, token1, token2)
  }

  lemma ThenClaimed(cfg: Config, acts: seq<R.Timed>, d: Keyspace, cost1: int, cost2: int, at: int, m: string, expires: int,
                    token1: string, token2: string, window: int, sweep: int, drawn: set<string>)
    requires Leads(cfg, acts, d, drawn, sweep) && window >= 0 && token2 !in drawn && WorkerOf(token2) != ""
    requires SoleMember(d, m) && HeldReady(SlotAt(d, m), cfg, cost1, cost2, at, token1, expires) && sweep < expires
    ensures DepartsTwice(cfg, acts, R.Timed(sweep, R.Claim(m, token2, window)), m, token1, token2)
  {
    var a := R.Timed(sweep, R.Claim(m, token2, window));
    ClaimedAgain(d, cfg, cost1, cost2, at, m, expires, token1, token2, a);
    DepartsByClaim(cfg, acts, d, drawn, sweep, m, token1, token2, a);
  }

  /** A claim is given what another one still holds, its lease not over. */
  predicate HandedTwice(d: Keyspace, cfg: Config, a: R.Timed, m: string, token1: string, token2: string) {
    && Presents(d, m, token1) && d.leases.Keys == {m} && a.now < d.leases[m]
    && Presents(R.Step(d, cfg, a), m, token2)
  }

  predicate PopsLeased(d: Keyspace, m: string) {
    Poppable(d, m) && m in d.hashes && d.hashes[m].claimedBy.Some?
  }

  lemma DepartsByClaim(cfg: Config, acts: seq<R.Timed>, d: Keyspace, drawn: set<string>, t: int, m: string,
                       token1: string, token2: string, a: R.Timed)
    requires Leads(cfg, acts, d, drawn, t) && PopsLeased(d, m) && HandedTwice(d, cfg, a, m, token1, token2)
    requires a.now == t && a.call.Claim? && a.call.m == m && a.call.token == token2 && a.call.window >= 0
    requires WorkerOf(token2) != "" && token2 !in drawn
    ensures DepartsTwice(cfg, acts, a, m, token1, token2)
  {
    DepartsBy(cfg, acts, d, drawn, t, a);
  }

  lemma ClaimedAgain(d: Keyspace, cfg: Config, cost1: int, cost2: int, at: int, m: string, expires: int,
      token1: string, token2: string, a: R.Timed)
    requires SoleMember(d, m) && HeldReady(SlotAt(d, m), cfg, cost1, cost2, at, token1, expires)
    requires a.call.Claim? && a.call.m == m && a.call.token == token2 && a.now < expires
    ensures PopsLeased(d, m) && HandedTwice(d, cfg, a, m, token1, token2)
  {
    SolePops(d, m);
    SoleStays(d, m, Lent(SlotAt(d, m), WorkerOf(token2), token2, a.call.window, a.now));
  }

  // ---------- handed out before its time ----------

  lemma FirstCovered(st: Stream)
    requires StreamOk(st) && |st.entries| == 2 && |st.pel| >= 1
    requires st.entries[0].entry.task.seqNo == 0 && st.entries[1].entry.task.seqNo == 1
    ensures Covered(Queue(Delivered(st)), 0) == 1
  {
    var q := Queue(Delivered(st));
    assert q[0].task.seqNo == 0 && (|q| > 1 ==> q[1].task.seqNo == 1);
    CoveredIs(q, 0, 1);
  }

  /** Acknowledged through its first task, the member is free, ready, below threshold and not due. */
  lemma ParkedReady(x: Slot, cfg: Config, cost1: int, cost2: int, at: int, sweep: int)
    requires ReadyThoughLeased(x, cfg, cost1, cost2, at) && cost2 < cfg.threshold && sweep < at + cfg.maxWait
    ensures var y := x.(stream := SplitDrain(x.stream, 1, 0).0);
            && Covered(Queue(Delivered(y.stream)), 0) == 1 <= |y.stream.entries| && 1 <= |y.stream.pel|
            && ParksReady(y, 1, sweep)
            && var z := Acked(y, 1, sweep);
               && z.Some? && z.value.ready.Some? && z.value.hash.claimedBy.None?
               && z.value.hash.pendingCost < z.value.hash.threshold && sweep < z.value.hash.flushMs
  {
    DrainIsPrefix(x.stream, 1);
    var st := SplitDrain(x.stream, 1, 0).0;
    FirstCovered(st);
    QueueRest(st.entries, 1);
    var q := Queue(st.entries);
    assert q[..1] == [q[0]];
    TotalOne(q[0]);
  }

  /**
   If instead the first holder drains one task and acknowledges it, which is a run as well, the acknowledgement is
   none the oracle can make: what is left is free, below threshold and has not waited its time, yet the next claim
   is given it.
   */
  lemma EarlyClaim(m: string, cfg: Config, cost1: int, cost2: int, t: int, due: int, expires: int, sweep: int,
      token: string, window: int, at: int)
    requires cost1 > 0 && cost2 > 0 && cost1 + cost2 < cfg.threshold && cfg.maxWait >= 0 && cfg.maxAttempts > 0 && t >= 0
    requires due == t + cfg.maxWait && due <= at <= sweep < expires == at + window && sweep < at + cfg.maxWait
    requires WorkerOf(token) != ""
    ensures var acts := FiveCalls(m, cost1, cost2, t, due, at, token, window, sweep) + [R.Timed(sweep, R.Drain(m, token, 1))];
            var a := R.Timed(sweep, R.Ack(m, token, 0));
            Departs(cfg, acts, a) && HandedEarly(R.Run(R.Fresh(), cfg, acts), cfg, a, m, token)
  {
    var five := FiveCalls(m, cost1, cost2, t, due, at, token, window, sweep);
    var d := FiveHeld(m, cfg, cost1, cost2, t, due, at, token, window, sweep, expires, {token}, five);
    ThenAcked(m, cfg, five, d, cost1, cost2, sweep, token, at, five + [R.Timed(sweep, R.Drain(m, token, 1))]);
  }

  /** What an acknowledgement leaves is free and ready, although it is below threshold and not due. */
  predicate HandedEarly(d: Keyspace, cfg: Config, a: R.Timed, m: string, token: string) {
    var e := R.Step(d, cfg, a);
    && Presents(d, m, token) && Poppable(e, m) && m in e.hashes && e.hashes[m].claimedBy.None?
    && e.hashes[m].pendingCost < e.hashes[m].threshold && a.now < e.hashes[m].flushMs
  }

  lemma ThenAcked(m: string, cfg: Config, acts: seq<R.Timed>, d: Keyspace, cost1: int, cost2: int, sweep: int,
                  token: string, at: int, more: seq<R.Timed>)
    requires Leads(cfg, acts, d, {token}, sweep) && more == acts + [R.Timed(sweep, R.Drain(m, token, 1))]
    requires SoleMember(d, m) && ReadyThoughLeased(SlotAt(d, m), cfg, cost1, cost2, at)
    requires SlotAt(d, m).hash.leaseToken == Some(token)
    requires cost2 < cfg.threshold && sweep < at + cfg.maxWait
    ensures Departs(cfg, more, R.Timed(sweep, R.Ack(m, token, 0)))
    ensures HandedEarly(R.Run(R.Fresh(), cfg, more), cfg, R.Timed(sweep, R.Ack(m, token, 0)), m, token)
  {
    var e := DrainGoes(d, cfg, {token}, sweep, sweep, m, token, 1);
    ParkedReady(SlotAt(d, m), cfg, cost1, cost2, at, sweep);
    OneAcked(m, cfg, e, sweep, token);
    GoesOn(cfg, acts, d, {token}, sweep, R.Timed(sweep, R.Drain(m, token, 1)), e, {token}, sweep, more);
    DepartsByAck(cfg, more, e, {token}, sweep, m, token, 0);
  }

  lemma DepartsByAck(cfg: Config, acts: seq<R.Timed>, d: Keyspace, drawn: set<string>, t: int, m: string,
      token: string, through: int)
    requires Leads(cfg, acts, d, drawn, t) && Presents(d, m, token)
    requires ParksReady(SlotAt(d, m), Acknowledged(d, m, through), t)
    ensures Departs(cfg, acts, R.Timed(t, R.Ack(m, token, through))) && R.Run(R.Fresh(), cfg, acts) == d
  {
    DepartsBy(cfg, acts, d, drawn, t, R.Timed(t, R.Ack(m, token, through)));
  }

  lemma OneAcked(m: string, cfg: Config, d: Keyspace, sweep: int, token: string)
    requires SoleMember(d, m) && SlotAt(d, m).hash.leaseToken == Some(token) && ParksReady(SlotAt(d, m), 1, sweep)
    requires Covered(Queue(Delivered(SlotAt(d, m).stream)), 0) == 1 <= |SlotAt(d, m).stream.pel|
    requires var z := Acked(SlotAt(d, m), 1, sweep);
             && z.Some? && z.value.ready.Some? && z.value.hash.claimedBy.None?
             && z.value.hash.pendingCost < z.value.hash.threshold && sweep < z.value.hash.flushMs
    ensures Presents(d, m, token) && ParksReady(SlotAt(d, m), Acknowledged(d, m, 0), sweep)
    ensures HandedEarly(d, cfg, R.Timed(sweep, R.Ack(m, token, 0)), m, token)
  {
    SoleStays(d, m, Acked(SlotAt(d, m), 1, sweep).value);
    SolePops(AckTo(d, m, 0, sweep), m);
  }
}
