/**
 Workers running their loop against a Valkey shard: each script is an atomic step, and so is each of the
 three trips of a drain, between which anything may happen. Every such run in which no batch has a gap is a
 run of the worker protocol over the oracle, so what the callbacks were given follows the order of arrival.
 */
module ShardWorkers {
  import opened Contract
  import opened Oracle
  import opened Invariant
  import opened Streams
  import opened ShardState
  import opened SlotSteps
  import opened ShardSteps
  import opened Callbacks
  import opened Tokens
  import R = ShardRuns
  import W = Workers
  import H = History

  // ---------- the fleet ----------

  /**
   What a worker has in hand: nothing; a claimed member; one whose lease it has just checked in order to drain up
   to max entries; the orphans it then took over; or a batch, worked off up to done.
   */
  datatype Hand =
    | Free
    | Claiming(m: string, token: string)
    | Checked(m: string, token: string, max: nat)
    | Reading(m: string, token: string, max: nat, orphans: seq<Task>)
    | Working(m: string, token: string, batch: seq<Task>, done: nat)

  /** A shard, its workers, and per member the tasks their callbacks were given so far. */
  datatype Fleet = Fleet(d: Keyspace, hands: map<nat, Hand>, given: map<string, seq<Task>>)

  datatype Step =
    | Client(call: R.Call)
    | Claim(a: nat, m: string, token: string, window: int)
    | Check(a: nat, max: nat)
    | TakeOver(a: nat)
    | ReadOn(a: nat)
    | Process(a: nat)
    | Ack(a: nat)
    | Fail(a: nat, seqNo: int, reason: string)
    | Crash(a: nat)

  datatype Action = Action(now: int, step: Step)

  function GivenTo(f: Fleet, m: string): seq<Task> {
    if m in f.given then f.given[m] else []
  }

  /** The worker that acts, if one does. */
  function Actor(x: Action): Option<nat> {
    if x.step.Client? then None else Some(x.step.a)
  }

  /** The point of its loop a worker must be at; heartbeats may trail the loop, so anybody may send one. */
  predicate Placed(f: Fleet, x: Action) {
    match x.step
    case Client(call) => call.Enqueue? || call.Reap? || call.Heartbeat?
    case Claim(a, _, _, _) => a in f.hands && f.hands[a].Free?
    case Check(a, max) => a in f.hands && f.hands[a].Claiming? && max >= 1
    case TakeOver(a) => a in f.hands && f.hands[a].Checked?
    case ReadOn(a) => a in f.hands && f.hands[a].Reading?
    case Process(a) => a in f.hands && f.hands[a].Working? && f.hands[a].done < |f.hands[a].batch|
    case Ack(a) => a in f.hands && f.hands[a].Working? && f.hands[a].done == |f.hands[a].batch| > 0
    case Fail(a, _, _) => a in f.hands && !f.hands[a].Free?
    case Crash(a) => a in f.hands
  }

  // ---------- the trips of a drain ----------

  /** The second trip: entries delivered before, and to whomever. */
  function Orphans(d: Keyspace, m: string, max: nat): seq<Task> {
    Tasks(XAutoClaim(SlotAt(d, m).stream, max))
  }

  function Room(h: Hand): nat
    requires h.Reading?
  {
    if |h.orphans| < h.max then h.max - |h.orphans| else 0
  }

  /** The third trip, made if there is room: entries never delivered before, which join the pending list. */
  function News(d: Keyspace, h: Hand): seq<Task>
    requires h.Reading?
  {
    Tasks(XReadGroup(SlotAt(d, h.m).stream, Room(h)).1)
  }

  function ReadFrom(d: Keyspace, m: string, count: nat): Keyspace {
    if m in d.streams then d.(streams := d.streams[m := XReadGroup(d.streams[m], count).0]) else d
  }

  /** The batch, put in order of the sequence numbers. */
  function Brought(d: Keyspace, h: Hand): seq<Task>
    requires h.Reading?
  {
    SortBySeq(h.orphans + News(d, h))
  }

  /** The batch is the beginning of the live stream, or the third trip brought nothing. */
  predicate Gapless(d: Keyspace, h: Hand)
    requires h.Reading?
  {
    News(d, h) == [] || Brought(d, h) <= Tasks(Queue(SlotAt(d, h.m).stream.entries))
  }

  /** The script that an action calls, if it calls one; an empty batch makes the worker release the unit. */
  function CallOf(f: Fleet, x: Action): Option<R.Call>
    requires Placed(f, x)
  {
    match x.step
    case Client(call) => Some(call)
    case Claim(_, m, token, window) => Some(R.Claim(m, token, window))
    case ReadOn(a) => var h := f.hands[a]; if Brought(f.d, h) == [] then Some(R.Release(h.m, h.token)) else None
    case Ack(a) => var h := f.hands[a]; Some(R.Ack(h.m, h.token, h.batch[|h.batch| - 1].seqNo))
    case Fail(a, seqNo, reason) => Some(R.Fail(f.hands[a].m, f.hands[a].token, seqNo, reason))
    case _ => None
  }

  function Called(f: Fleet, cfg: Config, x: Action): Keyspace
    requires Placed(f, x)
  {
    match CallOf(f, x)
    case Some(call) => R.Step(f.d, cfg, R.Timed(x.now, call))
    case None => f.d
  }

  function Take(f: Fleet, a: nat, h: Hand): Fleet {
    f.(hands := f.hands[a := h])
  }

  function ReadAct(f: Fleet, cfg: Config, x: Action): Fleet
    requires Placed(f, x) && x.step.ReadOn?
  {
    var h := f.hands[x.step.a];
    var batch := Brought(f.d, h);
    if batch == [] then Take(f.(d := Called(f, cfg, x)), x.step.a, Free)
    else Take(f.(d := ReadFrom(f.d, h.m, Room(h))), x.step.a, Working(h.m, h.token, batch, 0))
  }

  /** A worker goes by what the shard answered. */
  function Act(f: Fleet, cfg: Config, x: Action): Fleet
    requires Placed(f, x)
  {
    match x.step
    case Client(_) => f.(d := Called(f, cfg, x))
    case Claim(a, m, token, _) => Take(f.(d := Called(f, cfg, x)), a, Claiming(m, token))
    case Check(a, max) =>
      var h := f.hands[a];
      Take(f, a, if Presents(f.d, h.m, h.token) then Checked(h.m, h.token, max) else Free)
    case TakeOver(a) =>
      var h := f.hands[a];
      Take(f, a, Reading(h.m, h.token, h.max, Orphans(f.d, h.m, h.max)))
    case ReadOn(a) => ReadAct(f, cfg, x)
    case Process(a) =>
      var h := f.hands[a];
      Take(f.(given := f.given[h.m := GivenTo(f, h.m) + [h.batch[h.done]]]), a, h.(done := h.done + 1))
    case Ack(a) =>
      var h, e := f.hands[a], Called(f, cfg, x);
      Take(f.(d := e), a, if Presents(e, h.m, h.token) then Claiming(h.m, h.token) else Free)
    case Fail(a, _, _) => Take(f.(d := Called(f, cfg, x)), a, Free)
    case Crash(a) => Take(f, a, Free)
  }

  // ---------- the worker protocol it follows ----------

  /** The action of the protocol that stands for it; a trip that brings entries is a look at the queue. */
  function Image(f: Fleet, x: Action): W.Action<string>
    requires Placed(f, x)
  {
    W.Action(x.now, match x.step
      case Client(call) => W.Client(R.Image(f.d, R.Timed(x.now, call)).value.op)
      case Claim(a, m, token, window) => W.Claim(a, m, WorkerOf(token), token, window)
      case Check(a, max) => W.Drain(a, max)
      case TakeOver(a) => W.Look(a, |Orphans(f.d, f.hands[a].m, f.hands[a].max)|)
      case ReadOn(a) =>
        var batch := Brought(f.d, f.hands[a]);
        if batch == [] then W.Quit(a) else W.Look(a, |batch|)
      case Process(a) => W.Process(a)
      case Ack(a) => W.Ack(a)
      case Fail(a, seqNo, reason) => W.Fail(a, seqNo, reason)
      case Crash(a) => W.Crash(a))
  }

  /** A trip the protocol need not know of: the lease is still there, or nothing more is brought. */
  predicate Silent(f: Fleet, x: Action)
    requires Placed(f, x)
  {
    match x.step
    case Check(a, _) => Presents(f.d, f.hands[a].m, f.hands[a].token)
    case TakeOver(a) => Orphans(f.d, f.hands[a].m, f.hands[a].max) == []
    case ReadOn(a) => Brought(f.d, f.hands[a]) != [] && News(f.d, f.hands[a]) == []
    case _ => false
  }

  ghost predicate Possible(f: Fleet, s: W.System<string>, x: Action)
    requires Placed(f, x)
  {
    !Silent(f, x) ==> W.CanAct(s, Image(f, x))
  }

  ghost function SystemAfter(f: Fleet, s: W.System<string>, x: Action): W.System<string>
    requires Placed(f, x) && Possible(f, s, x)
  {
    if Silent(f, x) then s else W.Act(s, Image(f, x))
  }

  /** A claim for the member by the bearer of the token. */
  predicate Stands(c: Claimed<string>, m: string, token: string) {
    c.key == m && c.token == token && c.worker == WorkerOf(token)
  }

  /** The protocol's worker is where this one is; and what a holder drained is on the pending list. */
  predicate SameHand(d: Keyspace, h: Hand, g: W.Agent<string>) {
    match h
    case Free => g.Idle?
    case Claiming(m, token) => g.Holding? && Stands(g.claim, m, token)
    case Checked(m, token, _) => g.Holding? && Stands(g.claim, m, token)
    case Reading(m, token, _, orphans) =>
      && (if orphans == [] then g.Holding? else g.Busy? && g.batch == orphans && g.done == 0)
      && Stands(g.claim, m, token) && Ascending(orphans)
      && (Presents(d, m, token) ==> |orphans| <= |SlotAt(d, m).stream.pel|)
    case Working(m, token, batch, done) =>
      && g.Busy? && Stands(g.claim, m, token) && g.batch == batch && g.done == done
      && (Presents(d, m, token) ==> |batch| <= |SlotAt(d, m).stream.pel|)
  }

  ghost predicate SameHands(f: Fleet, s: W.System<string>) {
    f.hands.Keys == s.agents.Keys && forall a :: a in f.hands ==> SameHand(f.d, f.hands[a], s.agents[a])
  }

  ghost predicate SameGiven(f: Fleet, w: H.World<string>) {
    forall m :: GivenFrom(GivenTo(f, m), H.Arrivals(w, m), H.Log(w, m))
  }

  /** The shard and its workers are as the protocol has them over the oracle. */
  ghost predicate Mirrored(f: Fleet, s: W.System<string>, cfg: Config) {
    R.Matches(f.d, s.world) && W.SystemInv(s) && s.world.queue.cfg == cfg && SameHands(f, s) && SameGiven(f, s.world)
  }

  /** The clock does not go back, and the shard permits the call. */
  ghost predicate Asked(f: Fleet, s: W.System<string>, x: Action) {
    && Placed(f, x) && s.world.clock <= x.now
    && (CallOf(f, x).Some? ==> R.Permitted(f.d, s.world.queue, s.world.clock, R.Timed(x.now, CallOf(f, x).value)))
  }

  /** And no batch has a gap. */
  ghost predicate Allowed(f: Fleet, s: W.System<string>, x: Action) {
    Asked(f, s, x) && (x.step.ReadOn? ==> Gapless(f.d, f.hands[x.step.a]))
  }

  // ---------- what a call leaves alone ----------

  /** A call made under a token, which may take entries off or hand the member to somebody else. */
  predicate Bears(call: R.Call, token: string) {
    (call.Claim? || call.Drain? || call.Ack? || call.Release? || call.Fail?) && call.token == token
  }

  /** What a script that checked a token writes carries that token or none. */
  predicate Carries(y: Option<Slot>, token: string) {
    y.Some? && y.value.hash.leaseToken.Some? ==> y.value.hash.leaseToken.value == token
  }

  lemma AckCarries(x: Slot, n: nat, now: int, token: string)
    requires n <= |x.stream.entries| && n <= |x.stream.pel| && x.hash.leaseToken == Some(token)
    ensures Carries(Acked(x, n, now), token)
  {
  }

  lemma FailCarries(x: Slot, seqNo: int, cap: int, now: int, token: string)
    requires |x.stream.entries| > 0
    ensures Carries(Failed(x, seqNo, cap, now), token)
  {
  }

  lemma ReleaseCarries(x: Slot, now: int, token: string)
    ensures Carries(Some(Released(x, now)), token)
  {
  }

  /** Whoever holds a member afterwards without having made the call held it before, with the same entries pending. */
  lemma PendingKept(d: Keyspace, cfg: Config, a: R.Timed, m: string, token: string)
    requires d.hashes.Keys == d.streams.Keys && !Bears(a.call, token) && Presents(R.Step(d, cfg, a), m, token)
    ensures Presents(d, m, token) && SlotAt(R.Step(d, cfg, a), m).stream.pel == SlotAt(d, m).stream.pel
  {
    match a.call
    case Enqueue(k, payload, cost) => EnqueueKept(d, k, payload, cost, cfg, a.now, m, token);
    case Claim(k, t, window) => WrittenKept(d, k, Some(Lent(SlotAt(d, k), WorkerOf(t), t, window, a.now)), m, token);
    case Heartbeat(k, t, extend) =>
      if Presents(d, k, t) {
        WrittenKept(d, k, Some(Renewed(SlotAt(d, k), a.now + extend)), m, token);
      }
    case Reap(bound) => SweepKept(d, bound, m, token);
    case _ => BorneKept(d, cfg, a, m, token);
  }

  lemma EnqueueKept(d: Keyspace, k: string, payload: string, cost: int, cfg: Config, now: int, m: string, token: string)
    requires d.hashes.Keys == d.streams.Keys && Presents(EnqueueTo(d, k, payload, cost, cfg, now), m, token)
    ensures Presents(d, m, token) && SlotAt(EnqueueTo(d, k, payload, cost, cfg, now), m).stream.pel == SlotAt(d, m).stream.pel
  {
    WrittenKept(d, k, Some(Enqueued(SlotAt(d, k), payload, cost, cfg.threshold, cfg.maxWait, now)), m, token);
  }

  lemma SweepKept(d: Keyspace, bound: int, m: string, token: string)
    requires d.hashes.Keys == d.streams.Keys && Presents(ReapAll(d, bound), m, token)
    ensures Presents(d, m, token) && SlotAt(ReapAll(d, bound), m).stream.pel == SlotAt(d, m).stream.pel
  {
    SweptAt(d, m, bound);
    SweptToken(SlotAt(d, m), bound);
  }

  lemma SweptToken(x: Slot, now: int)
    ensures var y := Promoted(SlotSteps.Reclaimed(x, now), now);
            y.stream == x.stream && (y.hash.leaseToken == x.hash.leaseToken || y.hash.leaseToken.None?)
  {
  }

  lemma BorneKept(d: Keyspace, cfg: Config, a: R.Timed, m: string, token: string)
    requires d.hashes.Keys == d.streams.Keys && !Bears(a.call, token) && Presents(R.Step(d, cfg, a), m, token)
    requires a.call.Drain? || a.call.Ack? || a.call.Release? || a.call.Fail?
    ensures Presents(d, m, token) && SlotAt(R.Step(d, cfg, a), m).stream.pel == SlotAt(d, m).stream.pel
  {
    var k, t := a.call.m, a.call.token;
    var x := SlotAt(d, k);
    if !Presents(d, k, t) {
      return;
    }
    match a.call
    case Drain(_, _, max) => CarriedKept(d, k, Some(x.(stream := SplitDrain(x.stream, max, 0).0)), t, m, token);
    case Ack(_, _, through) =>
      AckCarries(x, Acknowledged(d, k, through), a.now, t);
      CarriedKept(d, k, Acked(x, Acknowledged(d, k, through), a.now), t, m, token);
    case Release(_, _) =>
      ReleaseCarries(x, a.now, t);
      CarriedKept(d, k, if x.stream.entries == [] then None else Some(Released(x, a.now)), t, m, token);
    case Fail(_, _, seqNo, reason) =>
      if x.stream.entries != [] {
        FailCarries(x, seqNo, cfg.maxAttempts, a.now, t);
      }
      CarriedKept(d, k, if x.stream.entries == [] then None else Failed(x, seqNo, cfg.maxAttempts, a.now), t, m, token);
  }

  lemma CarriedKept(d: Keyspace, k: string, y: Option<Slot>, t: string, m: string, token: string)
    requires d.hashes.Keys == d.streams.Keys && Carries(y, t) && token != t && Presents(SetSlot(d, k, y), m, token)
    ensures Presents(d, m, token) && SlotAt(SetSlot(d, k, y), m).stream.pel == SlotAt(d, m).stream.pel
  {
    WrittenKept(d, k, y, m, token);
  }

  /** Writing a slot under another token than the member's leaves its pending entries alone. */
  lemma WrittenKept(d: Keyspace, k: string, y: Option<Slot>, m: string, token: string)
    requires d.hashes.Keys == d.streams.Keys && Presents(SetSlot(d, k, y), m, token)
    requires y.Some? && y.value.hash.leaseToken == Some(token) ==>
               k in d.hashes && d.hashes[k].leaseToken == Some(token) && y.value.stream.pel == SlotAt(d, k).stream.pel
    ensures Presents(d, m, token) && SlotAt(SetSlot(d, k, y), m).stream.pel == SlotAt(d, m).stream.pel
  {
    SetSlotAt(d, k, y);
    if m != k {
      SetSlotElsewhere(d, k, y);
      SameSlot(d, SetSlot(d, k, y), k, m);
    }
  }

  // ---------- what a step of the queue leaves of the record ----------

  /** Whatever the queue does, it logs nothing as processed. */
  lemma LogTail(w: H.World<string>, t: H.Timed<string>, m: string, n: H.World<string>) returns (more: seq<H.Event>)
    requires H.Head(w, m) >= 0 && n == H.Next(w, t)
    ensures H.Log(n, m) == H.Log(w, m) + more && Unprocessed(more) && H.Arrivals(w, m) <= H.Arrivals(n, m)
  {
    if t.op.Settle? {
      var gone := H.SettleParts(w, t, m, n);
      more := H.AckedRun(H.Head(w, m), gone);
    } else if t.op.Fault? {
      var dead := H.FaultParts(w, t, m, n);
      more := DeadTail(dead.Some? && dead.value.key == m, H.Head(w, m), H.Log(w, m), H.Log(n, m));
    } else {
      more := [];
      QuietTail(w, t, m, n);
    }
  }

  lemma DeadTail(mine: bool, head: int, log: seq<H.Event>, after: seq<H.Event>) returns (more: seq<H.Event>)
    requires after == if mine then log + [H.Dead(head)] else log
    ensures after == log + more && Unprocessed(more)
  {
    more := if mine then [H.Dead(head)] else [];
  }

  lemma QuietTail(w: H.World<string>, t: H.Timed<string>, m: string, n: H.World<string>)
    requires !t.op.Settle? && !t.op.Fault? && n == H.Next(w, t)
    ensures H.Log(n, m) == H.Log(w, m) + [] && H.Arrivals(w, m) <= H.Arrivals(n, m)
  {
    if !t.op.Arrive? {
      H.QuietParts(w, t, m);
    } else if t.op.key == m {
      H.ArriveParts(w, t);
    } else {
      H.ArriveOther(w, t, m);
    }
  }

  lemma GivenStays(f: Fleet, w: H.World<string>, t: H.Timed<string>)
    requires SameGiven(f, w) && H.HistoryInv(w)
    ensures SameGiven(f, H.Next(w, t))
  {
    forall m ensures GivenFrom(GivenTo(f, m), H.Arrivals(H.Next(w, t), m), H.Log(H.Next(w, t), m)) {
      assert H.KeyHistory(w, m);
      GivenStaysAt(GivenTo(f, m), w, t, m, H.Next(w, t));
    }
  }

  lemma GivenStaysAt(given: seq<Task>, w: H.World<string>, t: H.Timed<string>, m: string, n: H.World<string>)
    requires H.Head(w, m) >= 0 && n == H.Next(w, t) && GivenFrom(given, H.Arrivals(w, m), H.Log(w, m))
    ensures GivenFrom(given, H.Arrivals(n, m), H.Log(n, m))
  {
    var more := LogTail(w, t, m, n);
    MoreSettled(H.Log(w, m), more);
    MoreArrivals(given, H.Arrivals(w, m), H.Arrivals(n, m), H.Log(n, m));
  }

  // ---------- every action is one of the protocol ----------

  lemma HandKept(d: Keyspace, cfg: Config, a: R.Timed, h: Hand, g: W.Agent<string>)
    requires d.hashes.Keys == d.streams.Keys && SameHand(d, h, g) && (h.Working? || h.Reading? ==> !Bears(a.call, h.token))
    ensures SameHand(R.Step(d, cfg, a), h, g)
  {
    if (h.Working? || h.Reading?) && Presents(R.Step(d, cfg, a), h.m, h.token) {
      PendingKept(d, cfg, a, h.m, h.token);
    }
  }

  /** No worker but the one that makes the call, if one does, bears its token. */
  ghost predicate OnlyBearer(f: Fleet, call: R.Call, actor: Option<nat>) {
    forall b :: b in f.hands && Some(b) != actor && !f.hands[b].Free? ==> !Bears(call, f.hands[b].token)
  }

  lemma OthersKept(f: Fleet, s: W.System<string>, cfg: Config, a: R.Timed, actor: Option<nat>)
    requires f.d.hashes.Keys == f.d.streams.Keys && SameHands(f, s) && OnlyBearer(f, a.call, actor)
    ensures forall b :: b in f.hands && Some(b) != actor ==> SameHand(R.Step(f.d, cfg, a), f.hands[b], s.agents[b])
  {
    forall b | b in f.hands && Some(b) != actor ensures SameHand(R.Step(f.d, cfg, a), f.hands[b], s.agents[b]) {
      HandKept(f.d, cfg, a, f.hands[b], s.agents[b]);
    }
  }

  lemma HolderIsOnlyBearer(f: Fleet, s: W.System<string>, call: R.Call, actor: nat)
    requires W.SystemInv(s) && SameHands(f, s) && actor in f.hands && !f.hands[actor].Free?
    requires Bears(call, f.hands[actor].token)
    ensures OnlyBearer(f, call, Some(actor))
  {
    forall b | b in f.hands && b != actor && !f.hands[b].Free? ensures f.hands[b].token != f.hands[actor].token {
      assert SameHand(f.d, f.hands[b], s.agents[b]) && SameHand(f.d, f.hands[actor], s.agents[actor]);
    }
  }

  lemma FreshHasNoBearer(f: Fleet, s: W.System<string>, call: R.Call)
    requires W.SystemInv(s) && SameHands(f, s) && call.Claim? && call.token !in s.world.queue.issued
    ensures OnlyBearer(f, call, None)
  {
    forall b | b in f.hands && !f.hands[b].Free? ensures f.hands[b].token != call.token {
      assert SameHand(f.d, f.hands[b], s.agents[b]) && W.AgentOk(s.world, s.agents[b]);
    }
  }

  /** A step of the shard, and the step of the queue it stands for. */
  ghost predicate Moves(f: Fleet, s: W.System<string>, cfg: Config, a: R.Timed, t: H.Timed<string>) {
    && H.Enabled(s.world, t) && R.Matches(R.Step(f.d, cfg, a), H.Next(s.world, t))
    && H.Next(s.world, t).queue.cfg == cfg && SameGiven(f, H.Next(s.world, t))
  }

  /** Two steps the queue cannot tell apart. */
  ghost predicate Alike(w: H.World<string>, t: H.Timed<string>, u: H.Timed<string>) {
    H.Next(w, t) == H.Next(w, u) && (H.Enabled(w, t) <==> H.Enabled(w, u))
  }

  lemma CallMoves(f: Fleet, s: W.System<string>, cfg: Config, a: R.Timed, t: H.Timed<string>)
    requires Mirrored(f, s, cfg) && R.Permitted(f.d, s.world.queue, s.world.clock, a)
    requires R.Image(f.d, a).Some? && Alike(s.world, R.Image(f.d, a).value, t)
    ensures Moves(f, s, cfg, a, t)
  {
    R.StepSimulates(f.d, s.world, a);
    H.NextIs(s.world, t);
    H.EffectCfg(s.world.queue, t);
    GivenStays(f, s.world, t);
  }

  /** The claim in a worker's hand is as good as the bearer's. */
  lemma SettleAlike(w: H.World<string>, now: int, c: Claimed<string>, e: Claimed<string>, upto: int, through: int)
    requires c.key == e.key && c.worker == e.worker && c.token == e.token && (Held(w.queue, e) ==> upto == through)
    ensures Alike(w, H.Timed(now, H.Settle(c, upto)), H.Timed(now, H.Settle(e, through)))
  {
  }

  lemma FaultAlike(w: H.World<string>, now: int, c: Claimed<string>, e: Claimed<string>, seqNo: int, reason: string)
    requires c.key == e.key && c.worker == e.worker && c.token == e.token
    ensures Alike(w, H.Timed(now, H.Fault(c, seqNo, reason)), H.Timed(now, H.Fault(e, seqNo, reason)))
  {
  }

  lemma HandsTaken(f: Fleet, s: W.System<string>, e: Keyspace, w: H.World<string>, actor: nat, h: Hand, g: W.Agent<string>)
    requires f.hands.Keys == s.agents.Keys && actor in f.hands && SameHand(e, h, g)
    requires forall b :: b in f.hands && Some(b) != Some(actor) ==> SameHand(e, f.hands[b], s.agents[b])
    ensures SameHands(Take(f.(d := e), actor, h), W.System(w, s.agents[actor := g]))
  {
  }

  lemma HandsAfter(f: Fleet, s: W.System<string>, cfg: Config, a: R.Timed, actor: nat,
                   e: Keyspace, w: H.World<string>, h: Hand, g: W.Agent<string>)
    requires f.d.hashes.Keys == f.d.streams.Keys && SameHands(f, s) && actor in f.hands && OnlyBearer(f, a.call, Some(actor))
    requires e == R.Step(f.d, cfg, a) && SameHand(e, h, g)
    ensures SameHands(Take(f.(d := e), actor, h), W.System(w, s.agents[actor := g]))
  {
    OthersKept(f, s, cfg, a, Some(actor));
    HandsTaken(f, s, e, w, actor, h, g);
  }

  lemma GivenTaken(f: Fleet, w: H.World<string>, n: Fleet)
    requires SameGiven(f, w) && n.given == f.given
    ensures SameGiven(n, w)
  {
    forall m ensures GivenFrom(GivenTo(n, m), H.Arrivals(w, m), H.Log(w, m)) {
      assert GivenTo(n, m) == GivenTo(f, m);
    }
  }

  lemma Assembles(n: Fleet, t: W.System<string>, cfg: Config)
    requires R.Matches(n.d, t.world) && W.SystemInv(t) && t.world.queue.cfg == cfg && SameHands(n, t)
    requires SameGiven(n, t.world)
    ensures Mirrored(n, t, cfg)
  {
  }

  /** The fleet with the shard after a call, and the acting worker's new hand, against the protocol's. */
  lemma Acted(f: Fleet, s: W.System<string>, cfg: Config, a: R.Timed, t: H.Timed<string>, actor: nat,
              h: Hand, g: W.Agent<string>, n: Fleet, next: W.System<string>)
    requires Mirrored(f, s, cfg) && Moves(f, s, cfg, a, t) && actor in f.hands
    requires OnlyBearer(f, a.call, Some(actor)) && SameHand(R.Step(f.d, cfg, a), h, g)
    requires n == Take(f.(d := R.Step(f.d, cfg, a)), actor, h)
    requires next == W.System(H.Next(s.world, t), s.agents[actor := g]) && W.SystemInv(next)
    ensures Mirrored(n, next, cfg)
  {
    HandsAfter(f, s, cfg, a, actor, R.Step(f.d, cfg, a), H.Next(s.world, t), h, g);
    GivenTaken(f, H.Next(s.world, t), n);
    Assembles(n, next, cfg);
  }

  lemma HandOf(f: Fleet, s: W.System<string>, a: nat)
    requires SameHands(f, s) && a in f.hands
    ensures a in s.agents && SameHand(f.d, f.hands[a], s.agents[a])
  {
  }

  lemma ClaimActs(f: Fleet, s: W.System<string>, cfg: Config, x: Action, t: H.Timed<string>)
    requires Placed(f, x) && x.step.Claim? && x.step.a in s.agents && s.agents[x.step.a].Idle?
    requires t == H.Timed(x.now, H.Take(x.step.m, WorkerOf(x.step.token), x.step.token, x.step.window))
    requires H.Enabled(s.world, t)
    ensures W.CanAct(s, Image(f, x))
    ensures var c := Claimed(x.step.m, WorkerOf(x.step.token), x.step.token, x.now + x.step.window);
            W.Act(s, Image(f, x)) == W.System(H.Next(s.world, t), s.agents[x.step.a := W.Holding(c)])
    ensures var a := R.Timed(x.now, R.Claim(x.step.m, x.step.token, x.step.window));
            Act(f, cfg, x) == Take(f.(d := R.Step(f.d, cfg, a)), x.step.a, Claiming(x.step.m, x.step.token))
  {
  }

  lemma ClaimMoves(f: Fleet, s: W.System<string>, cfg: Config, k: nat, a: R.Timed, t: H.Timed<string>)
    requires Mirrored(f, s, cfg) && R.Permitted(f.d, s.world.queue, s.world.clock, a) && a.call.Claim?
    requires t == H.Timed(a.now, H.Take(a.call.m, WorkerOf(a.call.token), a.call.token, a.call.window))
    ensures Moves(f, s, cfg, a, t) && OnlyBearer(f, a.call, Some(k))
  {
    CallMoves(f, s, cfg, a, t);
    FreshHasNoBearer(f, s, a.call);
  }

  lemma ClaimMirrors(f: Fleet, s: W.System<string>, cfg: Config, x: Action)
    requires Mirrored(f, s, cfg) && Allowed(f, s, x) && x.step.Claim?
    ensures W.CanAct(s, Image(f, x)) && Mirrored(Act(f, cfg, x), W.Act(s, Image(f, x)), cfg)
  {
    var k, m, token, window := x.step.a, x.step.m, x.step.token, x.step.window;
    var a, t := R.Timed(x.now, R.Claim(m, token, window)), H.Timed(x.now, H.Take(m, WorkerOf(token), token, window));
    CallAllowed(f, s, x, a);
    ClaimMoves(f, s, cfg, k, a, t);
    HandOf(f, s, k);
    ClaimActs(f, s, cfg, x, t);
    W.ActKeeps(s, Image(f, x));
    Acted(f, s, cfg, a, t, k, Claiming(m, token), W.Act(s, Image(f, x)).agents[k], Act(f, cfg, x), W.Act(s, Image(f, x)));
  }

  lemma ClientActs(f: Fleet, s: W.System<string>, cfg: Config, x: Action, t: H.Timed<string>)
    requires Placed(f, x) && x.step.Client? && R.Image(f.d, R.Timed(x.now, x.step.call)) == Some(t) && H.Enabled(s.world, t)
    ensures W.CanAct(s, Image(f, x)) && W.Act(s, Image(f, x)) == W.System(H.Next(s.world, t), s.agents)
    ensures Act(f, cfg, x) == f.(d := R.Step(f.d, cfg, R.Timed(x.now, x.step.call)))
  {
  }

  lemma ClientHasNoBearer(f: Fleet, call: R.Call)
    requires call.Enqueue? || call.Reap? || call.Heartbeat?
    ensures OnlyBearer(f, call, None)
  {
  }

  lemma ClientMirrors(f: Fleet, s: W.System<string>, cfg: Config, x: Action)
    requires Mirrored(f, s, cfg) && Allowed(f, s, x) && x.step.Client?
    ensures W.CanAct(s, Image(f, x)) && Mirrored(Act(f, cfg, x), W.Act(s, Image(f, x)), cfg)
  {
    var a := R.Timed(x.now, x.step.call);
    var t := R.Image(f.d, a).value;
    CallMoves(f, s, cfg, a, t);
    ClientActs(f, s, cfg, x, t);
    ClientHasNoBearer(f, x.step.call);
    W.ActKeeps(s, Image(f, x));
    ActedForAll(f, s, cfg, a, t, Act(f, cfg, x), W.Act(s, Image(f, x)));
  }

  /** The same for a call no worker makes. */
  lemma ActedForAll(f: Fleet, s: W.System<string>, cfg: Config, a: R.Timed, t: H.Timed<string>,
                    n: Fleet, next: W.System<string>)
    requires Mirrored(f, s, cfg) && Moves(f, s, cfg, a, t) && OnlyBearer(f, a.call, None)
    requires n == f.(d := R.Step(f.d, cfg, a)) && next == W.System(H.Next(s.world, t), s.agents) && W.SystemInv(next)
    ensures Mirrored(n, next, cfg)
  {
    OthersKept(f, s, cfg, a, None);
    HandsStay(f, s, n, next);
    GivenTaken(f, H.Next(s.world, t), n);
    Assembles(n, next, cfg);
  }

  lemma HandsStay(f: Fleet, s: W.System<string>, n: Fleet, next: W.System<string>)
    requires f.hands.Keys == s.agents.Keys && n.hands == f.hands && next.agents == s.agents
    requires forall b :: b in f.hands && Some(b) != None ==> SameHand(n.d, f.hands[b], s.agents[b])
    ensures SameHands(n, next)
  {
  }

  lemma FailActs(f: Fleet, s: W.System<string>, cfg: Config, x: Action, g: W.Agent<string>, t: H.Timed<string>)
    requires Placed(f, x) && x.step.Fail? && x.step.a in s.agents && s.agents[x.step.a] == g && !g.Idle?
    requires s.world.clock <= x.now && t == H.Timed(x.now, H.Fault(g.claim, x.step.seqNo, x.step.reason))
    ensures W.CanAct(s, Image(f, x)) && W.Act(s, Image(f, x)) == W.System(H.Next(s.world, t), s.agents[x.step.a := W.Idle])
    ensures var h := f.hands[x.step.a];
            var a := R.Timed(x.now, R.Fail(h.m, h.token, x.step.seqNo, x.step.reason));
            Act(f, cfg, x) == Take(f.(d := R.Step(f.d, cfg, a)), x.step.a, Free)
  {
  }

  lemma CallAllowed(f: Fleet, s: W.System<string>, x: Action, a: R.Timed)
    requires Allowed(f, s, x) && CallOf(f, x).Some? && a == R.Timed(x.now, CallOf(f, x).value)
    ensures R.Permitted(f.d, s.world.queue, s.world.clock, a)
  {
  }

  lemma FailAlike(d: Keyspace, w: H.World<string>, now: int, m: string, token: string, c: Claimed<string>,
                  seqNo: int, reason: string)
    requires Stands(c, m, token)
    ensures var i := R.Image(d, R.Timed(now, R.Fail(m, token, seqNo, reason)));
            i.Some? && Alike(w, i.value, H.Timed(now, H.Fault(c, seqNo, reason)))
  {
    FaultAlike(w, now, Bearer(m, token), c, seqNo, reason);
  }

  lemma FailMoves(f: Fleet, s: W.System<string>, cfg: Config, k: nat, a: R.Timed, t: H.Timed<string>, c: Claimed<string>)
    requires Mirrored(f, s, cfg) && R.Permitted(f.d, s.world.queue, s.world.clock, a) && k in f.hands && !f.hands[k].Free?
    requires a.call.Fail? && a.call.m == f.hands[k].m && a.call.token == f.hands[k].token
    requires Stands(c, a.call.m, a.call.token)
    requires t == H.Timed(a.now, H.Fault(c, a.call.seqNo, a.call.reason))
    ensures Moves(f, s, cfg, a, t) && OnlyBearer(f, a.call, Some(k))
  {
    FailAlike(f.d, s.world, a.now, a.call.m, a.call.token, c, a.call.seqNo, a.call.reason);
    CallMoves(f, s, cfg, a, t);
    HolderIsOnlyBearer(f, s, a.call, k);
  }

  lemma FailMirrors(f: Fleet, s: W.System<string>, cfg: Config, x: Action)
    requires Mirrored(f, s, cfg) && Allowed(f, s, x) && x.step.Fail?
    ensures W.CanAct(s, Image(f, x)) && Mirrored(Act(f, cfg, x), W.Act(s, Image(f, x)), cfg)
  {
    var k, seqNo, reason := x.step.a, x.step.seqNo, x.step.reason;
    HandOf(f, s, k);
    var h, g := f.hands[k], s.agents[k];
    var a, t := R.Timed(x.now, CallOf(f, x).value), H.Timed(x.now, H.Fault(g.claim, seqNo, reason));
    CallAllowed(f, s, x, a);
    FailMoves(f, s, cfg, k, a, t, g.claim);
    FailActs(f, s, cfg, x, g, t);
    W.ActKeeps(s, Image(f, x));
    Acted(f, s, cfg, a, t, k, Free, W.Idle, Act(f, cfg, x), W.Act(s, Image(f, x)));
  }

  // ---------- acknowledging ----------

  lemma TailAt(pending: seq<Entry>, arrivals: seq<Entry>, base: int, i: nat)
    requires |pending| <= |arrivals| && pending == arrivals[|arrivals| - |pending|..]
    requires base == |arrivals| - |pending| && base + i < |arrivals|
    ensures i < |pending| && pending[i] == arrivals[base + i]
  {
  }

  /** What a holder drained is the beginning of the unit's queue. */
  lemma DrainedIsFirst(w: H.World<string>, c: Claimed<string>, base: int, batch: seq<Task>, done: nat, i: nat)
    requires H.KeyHistory(w, c.key) && W.BatchOk(w, c, base, batch, done) && Held(w.queue, c) && i < |batch|
    ensures i < |H.Pending(w, c.key)| && H.Pending(w, c.key)[i].task == batch[i]
  {
    assert batch[i] == H.Arrivals(w, c.key)[base + i].task;
    TailAt(H.Pending(w, c.key), H.Arrivals(w, c.key), base, i);
  }

  lemma PendingIsDelivered(x: Slot, u: Unit, i: nat)
    requires StreamOk(x.stream) && UnitIn(x) == u && Contiguous(u) && i < |x.stream.pel|
    ensures i < |u.queue| && u.queue[i].task.seqNo <= DeliveredSeq(x)
  {
    assert u.queue[i] == x.stream.entries[i].entry && u.queue[0] == x.stream.entries[0].entry;
  }

  /** A member's stream holds its unit's queue, numbered one by one. */
  ghost predicate StreamShows(d: Keyspace, s: State<string>, m: string) {
    m in s.units && StreamOk(SlotAt(d, m).stream) && UnitIn(SlotAt(d, m)) == s.units[m] && Contiguous(s.units[m])
  }

  lemma KnowsStream(d: Keyspace, s: State<string>, clock: int, m: string)
    requires Wf(d, s, clock) && m in d.hashes
    ensures StreamShows(d, s, m)
  {
    Knows(d, s, clock, m);
  }

  /** Whoever holds a member acknowledges what it drained through its own number, since that was delivered. */
  lemma UptoIs(d: Keyspace, m: string, u: Unit, batch: seq<Task>, w: H.World<string>, c: Claimed<string>, base: int,
      done: nat)
    requires StreamShows(d, w.queue, m) && 0 < |batch| <= |SlotAt(d, m).stream.pel|
    requires c.key == m && Held(w.queue, c) && w.queue.units[m] == u && H.KeyHistory(w, m)
    requires W.BatchOk(w, c, base, batch, done)
    ensures R.Upto(d, m, batch[|batch| - 1].seqNo) == batch[|batch| - 1].seqNo
  {
    DrainedIsFirst(w, c, base, batch, done, |batch| - 1);
    PendingIsDelivered(SlotAt(d, m), u, |batch| - 1);
  }

  /** The protocol's acknowledgement: the worker holds on exactly if its unit is still its own. */
  lemma AckStepIs(s: W.System<string>, now: int, k: nat, c: Claimed<string>, through: int)
    ensures var t := H.Timed(now, H.Settle(c, through));
            W.AckStep(s, now, k, c, through) ==
            W.System(H.Next(s.world, t), s.agents[k := if Held(H.Next(s.world, t).queue, c) then W.Holding(c) else W.Idle])
  {
    var t := H.Timed(now, H.Settle(c, through));
    H.NextIs(s.world, t);
  }

  lemma AckActs(s: W.System<string>, y: W.Action<string>, g: W.Agent<string>, through: int)
    requires y.step.Ack? && y.step.agent in s.agents && s.agents[y.step.agent] == g && s.world.clock <= y.now
    requires g.Busy? && g.done == |g.batch| > 0 && through == g.batch[|g.batch| - 1].seqNo
    ensures W.CanAct(s, y) && W.Act(s, y) == W.AckStep(s, y.now, y.step.agent, g.claim, through)
  {
  }

  lemma AckTakes(f: Fleet, cfg: Config, x: Action)
    requires Placed(f, x) && x.step.Ack?
    ensures var h := f.hands[x.step.a];
            var e := R.Step(f.d, cfg, R.Timed(x.now, R.Ack(h.m, h.token, h.batch[|h.batch| - 1].seqNo)));
            Act(f, cfg, x) == Take(f.(d := e), x.step.a, if Presents(e, h.m, h.token) then Claiming(h.m, h.token) else Free)
  {
  }

  /** Whether a claim is still held reads the same from the shard as from the queue it shows. */
  lemma StandsHeld(d: Keyspace, s: State<string>, c: Claimed<string>, m: string, token: string)
    requires Shows(d, s) && Stands(c, m, token)
    ensures Presents(d, m, token) <==> Held(s, c)
  {
    PresentsIsHeld(d, s, m, token);
  }

  lemma AckMoves(f: Fleet, s: W.System<string>, cfg: Config, k: nat, a: R.Timed, t: H.Timed<string>, through: int)
    requires Mirrored(f, s, cfg) && R.Permitted(f.d, s.world.queue, s.world.clock, a)
    requires k in f.hands && f.hands[k].Working? && f.hands[k].batch != [] && SameHand(f.d, f.hands[k], s.agents[k])
    requires through == f.hands[k].batch[|f.hands[k].batch| - 1].seqNo
    requires a.call == R.Ack(f.hands[k].m, f.hands[k].token, through)
    requires t == H.Timed(a.now, H.Settle(s.agents[k].claim, through))
    ensures Moves(f, s, cfg, a, t) && OnlyBearer(f, a.call, Some(k))
  {
    AckAlikeFor(f, s, cfg, k, a.now, through);
    CallMoves(f, s, cfg, a, t);
    HolderIsOnlyBearer(f, s, a.call, k);
  }

  lemma AckMovesFor(f: Fleet, s: W.System<string>, cfg: Config, x: Action, a: R.Timed, t: H.Timed<string>)
    requires Mirrored(f, s, cfg) && Allowed(f, s, x) && x.step.Ack? && x.step.a in s.agents
    requires SameHand(f.d, f.hands[x.step.a], s.agents[x.step.a]) && CallOf(f, x).Some?
    requires a == R.Timed(x.now, CallOf(f, x).value)
    requires var h := f.hands[x.step.a]; t == H.Timed(x.now, H.Settle(s.agents[x.step.a].claim, h.batch[|h.batch| - 1].seqNo))
    ensures Moves(f, s, cfg, a, t) && OnlyBearer(f, a.call, Some(x.step.a))
  {
    CallAllowed(f, s, x, a);
    AckMoves(f, s, cfg, x.step.a, a, t, t.op.through);
  }

  lemma AckMirrors(f: Fleet, s: W.System<string>, cfg: Config, x: Action)
    requires Mirrored(f, s, cfg) && Allowed(f, s, x) && x.step.Ack?
    ensures W.CanAct(s, Image(f, x)) && Mirrored(Act(f, cfg, x), W.Act(s, Image(f, x)), cfg)
  {
    var k := x.step.a;
    HandOf(f, s, k);
    var h, g := f.hands[k], s.agents[k];
    var through := h.batch[|h.batch| - 1].seqNo;
    var a, t := R.Timed(x.now, CallOf(f, x).value), H.Timed(x.now, H.Settle(g.claim, through));
    AckMovesFor(f, s, cfg, x, a, t);
    AckActs(s, Image(f, x), g, through);
    AckTakes(f, cfg, x);
    var hand, agent := AckOutcomes(s, x.now, k, g.claim, t, R.Step(f.d, cfg, a), h.m, h.token);
    W.ActKeeps(s, Image(f, x));
    Acted(f, s, cfg, a, t, k, hand, agent, Act(f, cfg, x), W.Act(s, Image(f, x)));
  }

  /** The shard's answer and the queue's leave the worker at the same point. */
  lemma AckOutcomes(s: W.System<string>, now: int, k: nat, c: Claimed<string>, t: H.Timed<string>,
                    e: Keyspace, m: string, token: string)
    returns (h: Hand, g: W.Agent<string>)
    requires t.now == now && t.op.Settle? && t.op.claim == c && Stands(c, m, token) && Shows(e, H.Next(s.world, t).queue)
    ensures h == if Presents(e, m, token) then Claiming(m, token) else Free
    ensures W.AckStep(s, now, k, c, t.op.through) == W.System(H.Next(s.world, t), s.agents[k := g]) && SameHand(e, h, g)
  {
    AckStepIs(s, now, k, c, t.op.through);
    StandsHeld(e, H.Next(s.world, t).queue, c, m, token);
    h := if Presents(e, m, token) then Claiming(m, token) else Free;
    g := if Held(H.Next(s.world, t).queue, c) then W.Holding(c) else W.Idle;
  }

  lemma AgentKnown(s: W.System<string>, k: nat, m: string)
    requires W.SystemInv(s) && k in s.agents
    ensures W.AgentOk(s.world, s.agents[k]) && H.KeyHistory(s.world, m)
  {
  }

  /** Where the protocol has a worker that works off a batch. */
  lemma WorkingIs(d: Keyspace, h: Hand, g: W.Agent<string>)
    requires h.Working? && SameHand(d, h, g)
    ensures g.Busy? && g.batch == h.batch && g.claim.key == h.m
    ensures Presents(d, h.m, h.token) ==> |h.batch| <= |SlotAt(d, h.m).stream.pel|
  {
  }

  lemma HolderUpto(d: Keyspace, w: H.World<string>, m: string, batch: seq<Task>, g: W.Agent<string>)
    requires StreamShows(d, w.queue, m) && 0 < |batch| <= |SlotAt(d, m).stream.pel| && H.KeyHistory(w, m)
    requires W.AgentOk(w, g) && g.Busy? && g.batch == batch && g.claim.key == m && Held(w.queue, g.claim)
    ensures R.Upto(d, m, batch[|batch| - 1].seqNo) == batch[|batch| - 1].seqNo
  {
    UptoIs(d, m, w.queue.units[m], batch, w, g.claim, g.base, g.done);
  }

  lemma AckImage(d: Keyspace, now: int, m: string, token: string, through: int)
    ensures R.Image(d, R.Timed(now, R.Ack(m, token, through)))
              == Some(H.Timed(now, H.Settle(Bearer(m, token), R.Upto(d, m, through))))
  {
  }

  /** Whoever holds a member acknowledges all of its batch. */
  lemma HolderThrough(d: Keyspace, w: H.World<string>, h: Hand, g: W.Agent<string>)
    requires h.Working? && h.batch != [] && SameHand(d, h, g)
    requires Wf(d, w.queue, w.clock) && H.KeyHistory(w, g.claim.key) && W.AgentOk(w, g)
    ensures Held(w.queue, g.claim) ==> R.Upto(d, h.m, h.batch[|h.batch| - 1].seqNo) == h.batch[|h.batch| - 1].seqNo
  {
    StandsHeld(d, w.queue, g.claim, h.m, h.token);
    WorkingIs(d, h, g);
    if Held(w.queue, g.claim) {
      KnowsStream(d, w.queue, w.clock, h.m);
      HolderUpto(d, w, h.m, h.batch, g);
    }
  }

  lemma AckAlike(d: Keyspace, w: H.World<string>, m: string, token: string, c: Claimed<string>, now: int, through: int)
    requires Stands(c, m, token) && (Held(w.queue, c) ==> R.Upto(d, m, through) == through)
    ensures var i := R.Image(d, R.Timed(now, R.Ack(m, token, through)));
            i.Some? && Alike(w, i.value, H.Timed(now, H.Settle(c, through)))
  {
    AckImage(d, now, m, token, through);
    AlikeBy(w, now, m, token, c, R.Upto(d, m, through), through);
  }

  lemma AckAlikeFor(f: Fleet, s: W.System<string>, cfg: Config, k: nat, now: int, through: int)
    requires Mirrored(f, s, cfg) && k in f.hands && f.hands[k].Working? && f.hands[k].batch != []
    requires SameHand(f.d, f.hands[k], s.agents[k]) && through == f.hands[k].batch[|f.hands[k].batch| - 1].seqNo
    ensures var i := R.Image(f.d, R.Timed(now, R.Ack(f.hands[k].m, f.hands[k].token, through)));
            i.Some? && Alike(s.world, i.value, H.Timed(now, H.Settle(s.agents[k].claim, through)))
  {
    AgentKnown(s, k, f.hands[k].m);
    HolderThrough(f.d, s.world, f.hands[k], s.agents[k]);
    AckAlike(f.d, s.world, f.hands[k].m, f.hands[k].token, s.agents[k].claim, now, through);
  }

  lemma AlikeBy(w: H.World<string>, now: int, m: string, token: string, c: Claimed<string>, upto: int, through: int)
    requires Stands(c, m, token) && (Held(w.queue, c) ==> upto == through)
    ensures Alike(w, H.Timed(now, H.Settle(Bearer(m, token), upto)), H.Timed(now, H.Settle(c, through)))
  {
    SettleAlike(w, now, Bearer(m, token), c, upto, through);
  }

  // ---------- the trips of a drain ----------

  /** Reading only moves entries onto the pending list. */
  lemma ReadStream(st: Stream, count: nat)
    requires StreamOk(st)
    ensures var r := XReadGroup(st, count);
            && StreamOk(r.0) && r.0.entries == st.entries && |r.0.pel| == |st.pel| + |r.1|
            && (r.1 == [] ==> r.0 == st)
  {
    ReadGroupNext(st, count);
    ReadGroupDelivers(st, count);
  }

  lemma ReadSlot(d: Keyspace, m: string, count: nat, k: string)
    requires m in d.streams
    ensures var x, y := SlotAt(d, k), SlotAt(ReadFrom(d, m, count), k);
            y == if k == m then x.(stream := XReadGroup(x.stream, count).0) else x
  {
  }

  lemma ReadShowsAt(d: Keyspace, m: string, count: nat, k: string, u: Unit)
    requires Mirrors(SlotAt(d, k), u) && m in d.streams
    ensures Mirrors(SlotAt(ReadFrom(d, m, count), k), u)
  {
    ReadSlot(d, m, count, k);
    if k == m {
      ReadMirrors(SlotAt(d, m), u, count);
    }
  }

  lemma ReadShows(d: Keyspace, s: State<string>, m: string, count: nat)
    requires Shows(d, s) && m in d.streams
    ensures Shows(ReadFrom(d, m, count), s)
  {
    forall k | k in s.units ensures Mirrors(SlotAt(ReadFrom(d, m, count), k), s.units[k]) {
      assert Mirrors(SlotAt(d, k), s.units[k]);
      ReadShowsAt(d, m, count, k, s.units[k]);
    }
  }

  lemma ReadMirrors(x: Slot, u: Unit, count: nat)
    requires Mirrors(x, u)
    ensures Mirrors(x.(stream := XReadGroup(x.stream, count).0), u)
  {
    ReadStream(x.stream, count);
  }

  lemma ReadCounts(d: Keyspace, m: string, count: nat)
    requires Counted(d) && m in d.streams && StreamOk(d.streams[m])
    ensures Counted(ReadFrom(d, m, count))
  {
    ReadStream(d.streams[m], count);
    assert Lengths(ReadFrom(d, m, count).streams) == Lengths(d.streams);
  }

  lemma ReadMatches(d: Keyspace, w: H.World<string>, m: string, count: nat)
    requires R.Matches(d, w) && m in d.streams
    ensures R.Matches(ReadFrom(d, m, count), w) && ReadFrom(d, m, count).hashes == d.hashes
  {
    R.StreamIsPending(d, w.queue, w.clock, m);
    ReadShows(d, w.queue, m, count);
    ReadCounts(d, m, count);
  }

  lemma ReadHand(d: Keyspace, m: string, count: nat, h: Hand, g: W.Agent<string>)
    requires m in d.streams && StreamOk(d.streams[m]) && SameHand(d, h, g)
    ensures SameHand(ReadFrom(d, m, count), h, g)
  {
    if h.Working? || h.Reading? {
      ReadSlot(d, m, count, h.m);
      ReadStream(d.streams[m], count);
    }
  }

  /** A worker put where the protocol's is, over a shard that stays as it is. */
  lemma Rehanded(f: Fleet, s: W.System<string>, cfg: Config, k: nat, h: Hand, g: W.Agent<string>)
    requires Mirrored(f, s, cfg) && k in f.hands && SameHand(f.d, h, g) && W.SystemInv(W.Become(s, k, g))
    ensures Mirrored(Take(f, k, h), W.Become(s, k, g), cfg)
  {
    HandsTaken(f, s, f.d, s.world, k, h, g);
    GivenTaken(f, s.world, Take(f, k, h));
    Assembles(Take(f, k, h), W.Become(s, k, g), cfg);
  }

  /** The same when the protocol's worker stays where it is. */
  lemma Put(f: Fleet, s: W.System<string>, cfg: Config, k: nat, h: Hand)
    requires Mirrored(f, s, cfg) && k in f.hands && SameHand(f.d, h, s.agents[k])
    ensures Mirrored(Take(f, k, h), s, cfg)
  {
    assert s.agents[k := s.agents[k]] == s.agents;
    Rehanded(f, s, cfg, k, h, s.agents[k]);
  }

  lemma CheckMirrors(f: Fleet, s: W.System<string>, cfg: Config, x: Action)
    requires Mirrored(f, s, cfg) && Allowed(f, s, x) && x.step.Check?
    ensures Possible(f, s, x) && Mirrored(Act(f, cfg, x), SystemAfter(f, s, x), cfg)
  {
    var k := x.step.a;
    HandOf(f, s, k);
    var h, c := f.hands[k], s.agents[k].claim;
    StandsHeld(f.d, s.world.queue, c, h.m, h.token);
    if Presents(f.d, h.m, h.token) {
      Put(f, s, cfg, k, Checked(h.m, h.token, x.step.max));
    } else {
      W.ActKeeps(s, Image(f, x));
      Rehanded(f, s, cfg, k, Free, W.Idle);
    }
  }

  /** What the second trip brings are the first entries, in order. */
  lemma OrphansAre(d: Keyspace, w: H.World<string>, m: string, max: nat)
    requires Wf(d, w.queue, w.clock)
    ensures var orphans, q := Orphans(d, m, max), H.Pending(w, m);
            && |orphans| <= |q| && orphans == Tasks(q[..|orphans|]) && Ascending(orphans)
            && |orphans| <= |SlotAt(d, m).stream.pel|
  {
    R.StreamIsPending(d, w.queue, w.clock, m);
    var st := SlotAt(d, m).stream;
    AutoClaimPrefix(st, max);
    var n := Min(max, |st.pel|);
    AscendingQueue(st.entries, n);
    assert Queue(st.entries[..n]) == Queue(st.entries)[..n];
  }

  lemma LookActs(s: W.System<string>, y: W.Action<string>, g: W.Agent<string>, n: nat, batch: seq<Task>)
    requires y.step.Look? && y.step.agent in s.agents && s.agents[y.step.agent] == g && s.world.clock <= y.now
    requires y.step.count == n
    requires (g.Holding? || (g.Busy? && g.done == 0)) && 0 < n <= |H.Pending(s.world, g.claim.key)|
    requires batch == Tasks(H.Pending(s.world, g.claim.key)[..n])
    ensures W.CanAct(s, y)
    ensures W.Act(s, y) == W.Become(s, y.step.agent, W.Busy(g.claim, H.Head(s.world, g.claim.key), batch, 0))
  {
  }

  /** Orphans taken over are a look at the beginning of the queue. */
  lemma TakeOverLooks(f: Fleet, s: W.System<string>, x: Action, g: W.Agent<string>, m: string, orphans: seq<Task>)
    requires Placed(f, x) && x.step.TakeOver? && s.world.clock <= x.now && m == f.hands[x.step.a].m
    requires x.step.a in s.agents && s.agents[x.step.a] == g && g.Holding? && g.claim.key == m
    requires orphans == Orphans(f.d, m, f.hands[x.step.a].max) != []
    requires |orphans| <= |H.Pending(s.world, m)| && orphans == Tasks(H.Pending(s.world, m)[..|orphans|])
    ensures !Silent(f, x) && W.CanAct(s, Image(f, x))
    ensures W.Act(s, Image(f, x)) == W.Become(s, x.step.a, W.Busy(g.claim, H.Head(s.world, m), orphans, 0))
  {
    LookActs(s, Image(f, x), g, |orphans|, orphans);
  }

  lemma TakeOverMirrors(f: Fleet, s: W.System<string>, cfg: Config, x: Action)
    requires Mirrored(f, s, cfg) && Allowed(f, s, x) && x.step.TakeOver?
    ensures Possible(f, s, x) && Mirrored(Act(f, cfg, x), SystemAfter(f, s, x), cfg)
  {
    var k := x.step.a;
    HandOf(f, s, k);
    var h, g := f.hands[k], s.agents[k];
    var orphans := Orphans(f.d, h.m, h.max);
    var r := Reading(h.m, h.token, h.max, orphans);
    OrphansAre(f.d, s.world, h.m, h.max);
    if orphans == [] {
      Put(f, s, cfg, k, r);
    } else {
      TakeOverLooks(f, s, x, g, h.m, orphans);
      W.ActKeeps(s, Image(f, x));
      Rehanded(f, s, cfg, k, r, W.Busy(g.claim, H.Head(s.world, h.m), orphans, 0));
    }
  }

  lemma ReadOnMirrors(f: Fleet, s: W.System<string>, cfg: Config, x: Action)
    requires Mirrored(f, s, cfg) && Allowed(f, s, x) && x.step.ReadOn?
    ensures Possible(f, s, x) && Mirrored(Act(f, cfg, x), SystemAfter(f, s, x), cfg)
  {
    var k := x.step.a;
    HandOf(f, s, k);
    var h, g := f.hands[k], s.agents[k];
    if Brought(f.d, h) == [] {
      QuitMirrors(f, s, cfg, x);
    } else if News(f.d, h) == [] {
      NothingNew(f.d, h);
      Put(f, s, cfg, k, Working(h.m, h.token, h.orphans, 0));
    } else {
      NewsMirrors(f, s, cfg, x);
    }
  }

  /** Where the third trip brings nothing the batch are the orphans, and the stream stays as it was. */
  lemma NothingNew(d: Keyspace, h: Hand)
    requires h.Reading? && Ascending(h.orphans) && News(d, h) == []
    ensures Brought(d, h) == h.orphans && ReadFrom(d, h.m, Room(h)) == d
  {
    assert h.orphans + News(d, h) == h.orphans;
    SortedStays(h.orphans);
    if h.m in d.streams {
      var r := XReadGroup(d.streams[h.m], Room(h));
      assert |Tasks(r.1)| == |r.1| && r.1 == Queue([]) && r.0 == d.streams[h.m];
      assert d.streams[h.m := r.0] == d.streams;
    }
  }

  lemma QuitMirrors(f: Fleet, s: W.System<string>, cfg: Config, x: Action)
    requires Mirrored(f, s, cfg) && Allowed(f, s, x) && x.step.ReadOn? && Brought(f.d, f.hands[x.step.a]) == []
    ensures Possible(f, s, x) && Mirrored(Act(f, cfg, x), SystemAfter(f, s, x), cfg)
  {
    var k := x.step.a;
    HandOf(f, s, k);
    var h, g := f.hands[k], s.agents[k];
    var a, t := R.Timed(x.now, R.Release(h.m, h.token)), H.Timed(x.now, H.GiveUp(g.claim));
    CallAllowed(f, s, x, a);
    ReleaseMoves(f, s, cfg, k, a, t, g.claim);
    QuitActs(f, s, cfg, x, g, t);
    W.ActKeeps(s, Image(f, x));
    Acted(f, s, cfg, a, t, k, Free, W.Idle, Act(f, cfg, x), W.Act(s, Image(f, x)));
  }

  lemma ReleaseMoves(f: Fleet, s: W.System<string>, cfg: Config, k: nat, a: R.Timed, t: H.Timed<string>, c: Claimed<string>)
    requires Mirrored(f, s, cfg) && R.Permitted(f.d, s.world.queue, s.world.clock, a) && k in f.hands && !f.hands[k].Free?
    requires a.call == R.Release(f.hands[k].m, f.hands[k].token) && Stands(c, a.call.m, a.call.token)
    requires t == H.Timed(a.now, H.GiveUp(c))
    ensures Moves(f, s, cfg, a, t) && OnlyBearer(f, a.call, Some(k))
  {
    GiveUpAlike(f.d, s.world, a.now, a.call.m, a.call.token, c);
    CallMoves(f, s, cfg, a, t);
    HolderIsOnlyBearer(f, s, a.call, k);
  }

  lemma GiveUpAlike(d: Keyspace, w: H.World<string>, now: int, m: string, token: string, c: Claimed<string>)
    requires Stands(c, m, token)
    ensures var i := R.Image(d, R.Timed(now, R.Release(m, token)));
            i.Some? && Alike(w, i.value, H.Timed(now, H.GiveUp(c)))
  {
  }

  lemma QuitActs(f: Fleet, s: W.System<string>, cfg: Config, x: Action, g: W.Agent<string>, t: H.Timed<string>)
    requires Placed(f, x) && x.step.ReadOn? && Brought(f.d, f.hands[x.step.a]) == []
    requires x.step.a in s.agents && s.agents[x.step.a] == g && !g.Idle? && s.world.clock <= x.now
    requires t == H.Timed(x.now, H.GiveUp(g.claim))
    ensures !Silent(f, x) && W.CanAct(s, Image(f, x))
    ensures W.Act(s, Image(f, x)) == W.System(H.Next(s.world, t), s.agents[x.step.a := W.Idle])
    ensures var h := f.hands[x.step.a];
            Act(f, cfg, x) == Take(f.(d := R.Step(f.d, cfg, R.Timed(x.now, R.Release(h.m, h.token)))), x.step.a, Free)
  {
  }

  lemma NewsMirrors(f: Fleet, s: W.System<string>, cfg: Config, x: Action)
    requires Mirrored(f, s, cfg) && Allowed(f, s, x) && x.step.ReadOn? && News(f.d, f.hands[x.step.a]) != []
    ensures Possible(f, s, x) && Mirrored(Act(f, cfg, x), SystemAfter(f, s, x), cfg)
  {
    var k := x.step.a;
    HandOf(f, s, k);
    var h, g := f.hands[k], s.agents[k];
    var batch := Brought(f.d, h);
    NewsAre(f.d, s.world, h);
    LookActs(s, Image(f, x), g, |batch|, batch);
    W.ActKeeps(s, Image(f, x));
    ReadMatches(f.d, s.world, h.m, Room(h));
    var next := W.Become(s, k, W.Busy(g.claim, H.Head(s.world, h.m), batch, 0));
    ReadTaken(f, s, k, h, next);
    var n := Take(f.(d := ReadFrom(f.d, h.m, Room(h))), k, Working(h.m, h.token, batch, 0));
    GivenTaken(f, s.world, n);
    Assembles(n, next, cfg);
  }

  /** A batch without a gap is the beginning of the queue. */
  lemma NewsAre(d: Keyspace, w: H.World<string>, h: Hand)
    requires R.Matches(d, w) && h.Reading? && News(d, h) != [] && Gapless(d, h)
    ensures h.m in d.streams && StreamOk(d.streams[h.m])
    ensures var batch, q := Brought(d, h), H.Pending(w, h.m); 0 < |batch| <= |q| && batch == Tasks(q[..|batch|])
  {
    R.StreamIsPending(d, w.queue, w.clock, h.m);
    Beginning(Brought(d, h), H.Pending(w, h.m));
  }

  lemma Beginning(batch: seq<Task>, q: seq<Entry>)
    requires batch <= Tasks(q)
    ensures |batch| <= |q| && batch == Tasks(q[..|batch|])
  {
  }

  lemma ReadTaken(f: Fleet, s: W.System<string>, k: nat, h: Hand, next: W.System<string>)
    requires SameHands(f, s) && k in f.hands && f.hands[k] == h && h.Reading? && News(f.d, h) != []
    requires h.m in f.d.streams && StreamOk(f.d.streams[h.m])
    requires k in next.agents && next.agents == s.agents[k := next.agents[k]] && next.agents[k].Busy?
    requires Stands(next.agents[k].claim, h.m, h.token)
    requires next.agents[k].batch == Brought(f.d, h) && next.agents[k].done == 0
    ensures SameHands(Take(f.(d := ReadFrom(f.d, h.m, Room(h))), k, Working(h.m, h.token, Brought(f.d, h), 0)), next)
  {
    HandOf(f, s, k);
    var e := ReadFrom(f.d, h.m, Room(h));
    ReadStream(f.d.streams[h.m], Room(h));
    ReadSlot(f.d, h.m, Room(h), h.m);
    forall b | b in f.hands && b != k ensures SameHand(e, f.hands[b], s.agents[b]) {
      ReadHand(f.d, h.m, Room(h), f.hands[b], s.agents[b]);
    }
    HandsTaken(f, s, e, next.world, k, Working(h.m, h.token, Brought(f.d, h), 0), next.agents[k]);
  }

  // ---------- processing and crashing ----------

  lemma CrashMirrors(f: Fleet, s: W.System<string>, cfg: Config, x: Action)
    requires Mirrored(f, s, cfg) && Allowed(f, s, x) && x.step.Crash?
    ensures W.CanAct(s, Image(f, x)) && Mirrored(Act(f, cfg, x), W.Act(s, Image(f, x)), cfg)
  {
    HandOf(f, s, x.step.a);
    assert W.CanAct(s, Image(f, x));
    W.ActKeeps(s, Image(f, x));
    Rehanded(f, s, cfg, x.step.a, Free, W.Idle);
  }

  /** Handing one more task to the callback logs its arrival as processed. */
  lemma GivenMore(f: Fleet, w: H.World<string>, m: string, task: Task, i: int, n: Fleet)
    requires SameGiven(f, w) && 0 <= i < |H.Arrivals(w, m)| && task == H.Arrivals(w, m)[i].task
    requires n.given == f.given[m := GivenTo(f, m) + [task]]
    ensures SameGiven(n, H.Note(w, m, [H.Processed(i)]))
  {
    var v := H.Note(w, m, [H.Processed(i)]);
    forall j ensures GivenFrom(GivenTo(n, j), H.Arrivals(v, j), H.Log(v, j)) {
      assert GivenFrom(GivenTo(f, j), H.Arrivals(w, j), H.Log(w, j));
      if j == m {
        OneGiven(GivenTo(f, m), H.Arrivals(w, m), H.Log(w, m), task, i);
      }
    }
  }

  lemma ProcessActs(f: Fleet, s: W.System<string>, cfg: Config, x: Action, g: W.Agent<string>, i: int)
    requires Placed(f, x) && x.step.Process? && x.step.a in s.agents && s.agents[x.step.a] == g
    requires s.world.clock <= x.now && SameHand(f.d, f.hands[x.step.a], g) && i == g.base + g.done
    ensures W.CanAct(s, Image(f, x))
    ensures W.Act(s, Image(f, x)) ==
      W.System(H.Note(s.world, g.claim.key, [H.Processed(i)]), s.agents[x.step.a := g.(done := g.done + 1)])
    ensures var h := f.hands[x.step.a];
            Act(f, cfg, x) == Fleet(f.d, f.hands[x.step.a := h.(done := h.done + 1)],
                                    f.given[h.m := GivenTo(f, h.m) + [h.batch[h.done]]])
  {
  }

  lemma BatchTask(s: W.System<string>, k: nat, i: int)
    requires W.SystemInv(s) && k in s.agents && s.agents[k].Busy? && s.agents[k].done < |s.agents[k].batch|
    requires i == s.agents[k].base + s.agents[k].done
    ensures var g := s.agents[k]; var arrivals := H.Arrivals(s.world, g.claim.key);
            0 <= i < |arrivals| && g.batch[g.done] == arrivals[i].task
  {
    AgentKnown(s, k, s.agents[k].claim.key);
    NextOfAgent(s.world, s.agents[k], i);
  }

  lemma NextOfAgent(w: H.World<string>, g: W.Agent<string>, i: int)
    requires W.AgentOk(w, g) && g.Busy? && g.done < |g.batch| && i == g.base + g.done
    ensures var arrivals := H.Arrivals(w, g.claim.key); 0 <= i < |arrivals| && g.batch[g.done] == arrivals[i].task
  {
    NextOfBatch(w, g.claim, g.base, g.batch, g.done);
  }

  lemma NextOfBatch(w: H.World<string>, c: Claimed<string>, base: int, batch: seq<Task>, done: nat)
    requires W.BatchOk(w, c, base, batch, done) && done < |batch|
    ensures var arrivals := H.Arrivals(w, c.key); 0 <= base + done < |arrivals| && batch[done] == arrivals[base + done].task
  {
  }

  lemma ProcessMirrors(f: Fleet, s: W.System<string>, cfg: Config, x: Action)
    requires Mirrored(f, s, cfg) && Allowed(f, s, x) && x.step.Process?
    ensures W.CanAct(s, Image(f, x)) && Mirrored(Act(f, cfg, x), W.Act(s, Image(f, x)), cfg)
  {
    var k := x.step.a;
    HandOf(f, s, k);
    var h, g := f.hands[k], s.agents[k];
    var i := g.base + g.done;
    ProcessActs(f, s, cfg, x, g, i);
    W.ActKeeps(s, Image(f, x));
    BatchTask(s, k, i);
    Processed(f, s, cfg, k, h, g, i, Act(f, cfg, x), W.Act(s, Image(f, x)));
  }

  /** Logging a processed arrival is nothing to the shard. */
  lemma NoteMatches(d: Keyspace, w: H.World<string>, m: string, es: seq<H.Event>)
    requires R.Matches(d, w)
    ensures R.Matches(d, H.Note(w, m, es)) && H.Note(w, m, es).queue == w.queue
  {
  }

  lemma Processed(f: Fleet, s: W.System<string>, cfg: Config, k: nat, h: Hand, g: W.Agent<string>, i: int,
                  n: Fleet, next: W.System<string>)
    requires Mirrored(f, s, cfg) && k in f.hands && f.hands[k] == h && s.agents[k] == g && SameHand(f.d, h, g)
    requires h.Working? && h.done < |h.batch|
    requires 0 <= i < |H.Arrivals(s.world, h.m)| && h.batch[h.done] == H.Arrivals(s.world, h.m)[i].task
    requires n == Fleet(f.d, f.hands[k := h.(done := h.done + 1)], f.given[h.m := GivenTo(f, h.m) + [h.batch[h.done]]])
    requires next == W.System(H.Note(s.world, h.m, [H.Processed(i)]), s.agents[k := g.(done := g.done + 1)])
    requires W.SystemInv(next)
    ensures Mirrored(n, next, cfg)
  {
    NoteMatches(f.d, s.world, h.m, [H.Processed(i)]);
    GivenMore(f, s.world, h.m, h.batch[h.done], i, n);
    HandsMoved(f, s, k, h.(done := h.done + 1), g.(done := g.done + 1), n, next);
    Assembles(n, next, cfg);
  }

  lemma HandsMoved(f: Fleet, s: W.System<string>, k: nat, h: Hand, g: W.Agent<string>, n: Fleet, next: W.System<string>)
    requires SameHands(f, s) && k in f.hands && SameHand(f.d, h, g)
    requires n.d == f.d && n.hands == f.hands[k := h] && next.agents == s.agents[k := g]
    ensures SameHands(n, next)
  {
  }

  /** Every action of the fleet is one of the protocol over the oracle, or none, with the same outcome. */
  lemma ActMirrors(f: Fleet, s: W.System<string>, cfg: Config, x: Action)
    requires Mirrored(f, s, cfg) && Allowed(f, s, x)
    ensures Possible(f, s, x) && Mirrored(Act(f, cfg, x), SystemAfter(f, s, x), cfg)
  {
    match x.step
    case Client(_) => ClientMirrors(f, s, cfg, x);
    case Claim(_, _, _, _) => ClaimMirrors(f, s, cfg, x);
    case Check(_, _) => CheckMirrors(f, s, cfg, x);
    case TakeOver(_) => TakeOverMirrors(f, s, cfg, x);
    case ReadOn(_) => ReadOnMirrors(f, s, cfg, x);
    case Process(_) => ProcessMirrors(f, s, cfg, x);
    case Ack(_) => AckMirrors(f, s, cfg, x);
    case Fail(_, _, _) => FailMirrors(f, s, cfg, x);
    case Crash(_) => CrashMirrors(f, s, cfg, x);
  }

  // ---------- runs ----------

  function Run(f: Fleet, cfg: Config, xs: seq<Action>): Fleet {
    if xs == [] then f else
    var before := Run(f, cfg, xs[..|xs| - 1]);
    if Placed(before, xs[|xs| - 1]) then Act(before, cfg, xs[|xs| - 1]) else before
  }

  /** The protocol's actions along a run of actions that are all possible. */
  ghost function Images(f: Fleet, cfg: Config, xs: seq<Action>): seq<W.Action<string>> {
    if xs == [] then [] else
    var before := Run(f, cfg, xs[..|xs| - 1]);
    Images(f, cfg, xs[..|xs| - 1]) +
      if Placed(before, xs[|xs| - 1]) && !Silent(before, xs[|xs| - 1]) then [Image(before, xs[|xs| - 1])] else []
  }

  ghost predicate Legal(f: Fleet, s: W.System<string>, cfg: Config, xs: seq<Action>) {
    xs == [] ||
    (Legal(f, s, cfg, xs[..|xs| - 1]) &&
     Allowed(Run(f, cfg, xs[..|xs| - 1]), W.Run(s, Images(f, cfg, xs[..|xs| - 1])), xs[|xs| - 1]))
  }

  lemma {:induction false} RunMirrors(f: Fleet, s: W.System<string>, cfg: Config, xs: seq<Action>)
    requires Mirrored(f, s, cfg) && Legal(f, s, cfg, xs)
    ensures Mirrored(Run(f, cfg, xs), W.Run(s, Images(f, cfg, xs)), cfg)
  {
    if xs != [] {
      var before, x := xs[..|xs| - 1], xs[|xs| - 1];
      RunMirrors(f, s, cfg, before);
      ActMirrors(Run(f, cfg, before), W.Run(s, Images(f, cfg, before)), cfg, x);
      NextImage(f, s, cfg, xs);
    }
  }

  lemma NextImage(f: Fleet, s: W.System<string>, cfg: Config, xs: seq<Action>)
    requires xs != [] && Placed(Run(f, cfg, xs[..|xs| - 1]), xs[|xs| - 1])
    requires Possible(Run(f, cfg, xs[..|xs| - 1]), W.Run(s, Images(f, cfg, xs[..|xs| - 1])), xs[|xs| - 1])
    ensures W.Run(s, Images(f, cfg, xs)) ==
      SystemAfter(Run(f, cfg, xs[..|xs| - 1]), W.Run(s, Images(f, cfg, xs[..|xs| - 1])), xs[|xs| - 1])
  {
    var images, before := Images(f, cfg, xs), Images(f, cfg, xs[..|xs| - 1]);
    if Silent(Run(f, cfg, xs[..|xs| - 1]), xs[|xs| - 1]) {
      assert images == before;
    } else {
      assert images[..|images| - 1] == before;
    }
  }

  /** Idle workers over an empty shard. */
  function Opening(workers: set<nat>): Fleet {
    Fleet(R.Fresh(), map a | a in workers :: Free, map[])
  }

  function IdleSystem(workers: set<nat>, cfg: Config): W.System<string> {
    W.System(H.Start(cfg), map a | a in workers :: W.Idle)
  }

  lemma OpeningMirrors(workers: set<nat>, cfg: Config)
    requires cfg.threshold > 0 && cfg.maxWait >= 0 && cfg.maxAttempts > 0
    ensures Mirrored(Opening(workers), IdleSystem(workers, cfg), cfg)
  {
    R.FreshMatches(cfg);
    W.InitialInv(IdleSystem(workers, cfg), cfg);
  }

  /**
   For any number of workers over one shard, any interleaving and any crashes: call by call, what the
   callbacks were given for a member is the task of one of its arrivals, and every arrival before that one
   had been given already or is a dead letter; and the shard's dead letters are the arrivals recorded dead.
   */
  lemma CallbacksFollowArrivals(workers: set<nat>, cfg: Config, xs: seq<Action>, m: string, q: nat)
    requires cfg.threshold > 0 && cfg.maxWait >= 0 && cfg.maxAttempts > 0
    requires Legal(Opening(workers), IdleSystem(workers, cfg), cfg, xs)
    requires q < |GivenTo(Run(Opening(workers), cfg, xs), m)|
    ensures var f := Run(Opening(workers), cfg, xs);
            var w := W.Run(IdleSystem(workers, cfg), Images(Opening(workers), cfg, xs)).world;
            var log, arrivals := H.Log(w, m), H.Arrivals(w, m);
            && |Given(log)| == |GivenTo(f, m)| && 0 <= Given(log)[q] < |arrivals|
            && GivenTo(f, m)[q] == arrivals[Given(log)[q]].task
            && InTurn(log, q) && H.DeadOf(f.d.dlq, m) == H.DeadIn(arrivals, log)
  {
    OpeningMirrors(workers, cfg);
    RunMirrors(Opening(workers), IdleSystem(workers, cfg), cfg, xs);
    var s := W.Run(IdleSystem(workers, cfg), Images(Opening(workers), cfg, xs));
    MemberKnown(Run(Opening(workers), cfg, xs), s, cfg, m);
    GivenInTurn(H.Log(s.world, m), q);
  }

  /**
   Nothing is lost on the way: of the arrivals of a member, those recorded settled were given to a callback,
   each before it was acknowledged, or are dead letters; and the stream holds all the others, in order.
   */
  lemma NothingIsLost(workers: set<nat>, cfg: Config, xs: seq<Action>, m: string, p: nat)
    requires cfg.threshold > 0 && cfg.maxWait >= 0 && cfg.maxAttempts > 0
    requires Legal(Opening(workers), IdleSystem(workers, cfg), cfg, xs)
    ensures var w := W.Run(IdleSystem(workers, cfg), Images(Opening(workers), cfg, xs)).world;
            var log, arrivals := H.Log(w, m), H.Arrivals(w, m);
            var stream := SlotAt(Run(Opening(workers), cfg, xs).d, m).stream;
            && H.Settled(log) <= |arrivals| && Queue(stream.entries) == arrivals[H.Settled(log)..]
            && (forall i :: 0 <= i < H.Settled(log) ==> i in Given(log) || H.Dead(i) in log)
            && (p < |log| && log[p].Acked? ==> log[p].index in Given(log[..p]))
  {
    OpeningMirrors(workers, cfg);
    RunMirrors(Opening(workers), IdleSystem(workers, cfg), cfg, xs);
    KeptOrReached(Run(Opening(workers), cfg, xs), W.Run(IdleSystem(workers, cfg), Images(Opening(workers), cfg, xs)), cfg, m, p);
  }

  lemma KeptOrReached(f: Fleet, s: W.System<string>, cfg: Config, m: string, p: nat)
    requires Mirrored(f, s, cfg)
    ensures var log, arrivals := H.Log(s.world, m), H.Arrivals(s.world, m);
            && H.Settled(log) <= |arrivals| && Queue(SlotAt(f.d, m).stream.entries) == arrivals[H.Settled(log)..]
            && (forall i :: 0 <= i < H.Settled(log) ==> i in Given(log) || H.Dead(i) in log)
            && (p < |log| && log[p].Acked? ==> log[p].index in Given(log[..p]))
  {
    MemberKnown(f, s, cfg, m);
    R.StreamIsTail(f.d, s.world, m);
    SettledAreReached(H.Log(s.world, m), H.Settled(H.Log(s.world, m)), p);
  }

  lemma SettledAreReached(log: seq<H.Event>, head: int, p: nat)
    requires W.LogOk(log, head)
    ensures forall i :: 0 <= i < head ==> i in Given(log) || H.Dead(i) in log
    ensures p < |log| && log[p].Acked? ==> log[p].index in Given(log[..p])
  {
    forall i | 0 <= i < head ensures i in Given(log) || H.Dead(i) in log {
      ReachedIsGiven(log, i);
    }
    if p < |log| && log[p].Acked? {
      AckedWasGiven(log, p);
    }
  }

  /** What an acknowledgement takes off a stream are the first arrivals it held, and each had been given to a callback. */
  lemma AckTakesGiven(workers: set<nat>, cfg: Config, xs: seq<Action>, x: Action, m: string) returns (n: nat)
    requires cfg.threshold > 0 && cfg.maxWait >= 0 && cfg.maxAttempts > 0 && x.step.Ack?
    requires Legal(Opening(workers), IdleSystem(workers, cfg), cfg, xs)
    requires Allowed(Run(Opening(workers), cfg, xs), W.Run(IdleSystem(workers, cfg), Images(Opening(workers), cfg, xs)), x)
    ensures var f, w := Run(Opening(workers), cfg, xs), W.Run(IdleSystem(workers, cfg), Images(Opening(workers), cfg, xs)).world;
            TakesGiven(f.d, Act(f, cfg, x).d, w, m, n)
  {
    OpeningMirrors(workers, cfg);
    RunMirrors(Opening(workers), IdleSystem(workers, cfg), cfg, xs);
    n := AckedGiven(Run(Opening(workers), cfg, xs), W.Run(IdleSystem(workers, cfg), Images(Opening(workers), cfg, xs)), cfg, x, m);
  }

  /** The arrivals from one on, n of them, are recorded as given. */
  ghost predicate AllGiven(log: seq<H.Event>, from: int, n: nat) {
    forall j :: from <= j < from + n ==> j in Given(log)
  }

  /** A queue loses its first n entries, which are the arrivals from the head on and were given to a callback. */
  ghost predicate LosesGiven(before: seq<Entry>, after: seq<Entry>, arrivals: seq<Entry>, log: seq<H.Event>,
      head: int, n: nat) {
    && n <= |before| && after == before[n..]
    && 0 <= head && head + n <= |arrivals| && before[..n] == arrivals[head..head + n] && AllGiven(log, head, n)
  }

  ghost predicate TakesGiven(d: Keyspace, e: Keyspace, w: H.World<string>, m: string, n: nat) {
    LosesGiven(Queue(SlotAt(d, m).stream.entries), Queue(SlotAt(e, m).stream.entries), H.Arrivals(w, m), H.Log(w, m), H.Head(w, m), n)
  }

  lemma AckedGiven(f: Fleet, s: W.System<string>, cfg: Config, x: Action, m: string) returns (n: nat)
    requires Mirrored(f, s, cfg) && Allowed(f, s, x) && x.step.Ack?
    ensures TakesGiven(f.d, Act(f, cfg, x).d, s.world, m, n)
  {
    ActMirrors(f, s, cfg, x);
    n := StepLosesGiven(f, s, x, m, W.Act(s, Image(f, x)).world);
    StreamKnown(f, s, cfg, m);
    StreamKnown(Act(f, cfg, x), W.Act(s, Image(f, x)), cfg, m);
  }

  lemma StepLosesGiven(f: Fleet, s: W.System<string>, x: Action, m: string, next: H.World<string>) returns (n: nat)
    requires W.SystemInv(s) && SameHands(f, s) && Placed(f, x) && x.step.Ack? && s.world.clock <= x.now
    requires W.CanAct(s, Image(f, x)) && next == W.Act(s, Image(f, x)).world
    ensures LosesGiven(H.Pending(s.world, m), H.Pending(next, m), H.Arrivals(s.world, m), H.Log(s.world, m), H.Head(s.world, m), n)
  {
    var k := x.step.a;
    HandOf(f, s, k);
    var g := s.agents[k];
    var t := H.Timed(x.now, H.Settle(g.claim, g.batch[|g.batch| - 1].seqNo));
    AckActs(s, Image(f, x), g, t.op.through);
    AckStepIs(s, x.now, k, g.claim, t.op.through);
    AgentKnown(s, k, m);
    n := SettleLosesGiven(s.world, g, t, m, next);
  }

  lemma SettleLosesGiven(w: H.World<string>, g: W.Agent<string>, t: H.Timed<string>, m: string, next: H.World<string>)
    returns (n: nat)
    requires H.HistoryInv(w) && IsTail(H.Pending(w, m), H.Arrivals(w, m)) && W.AgentOk(w, g) && g.Busy?
    requires g.done == |g.batch|
    requires t.op == H.Settle(g.claim, g.batch[|g.batch| - 1].seqNo) && next == H.Next(w, t)
    ensures LosesGiven(H.Pending(w, m), H.Pending(next, m), H.Arrivals(w, m), H.Log(w, m), H.Head(w, m), n)
  {
    n := TailShrinks(w, t, m, next);
    GoneGiven(w, g, m, n);
    Loses(H.Pending(w, m), H.Pending(next, m), H.Arrivals(w, m), H.Log(w, m), H.Head(w, m), n);
  }

  /** What an acknowledgement leaves pending, when what is pending is the tail of the arrivals. */
  lemma TailShrinks(w: H.World<string>, t: H.Timed<string>, m: string, next: H.World<string>) returns (n: nat)
    requires t.op.Settle? && next == H.Next(w, t) && IsTail(H.Pending(w, m), H.Arrivals(w, m))
    ensures n <= |H.Pending(w, m)| && H.Pending(next, m) == H.Pending(w, m)[n..]
    ensures n == if Held(w.queue, t.op.claim) && m == t.op.claim.key then Covered(H.Pending(w, m), t.op.through) else 0
  {
    n := H.SettleParts(w, t, m, next);
  }

  predicate IsTail(pending: seq<Entry>, arrivals: seq<Entry>) {
    |pending| <= |arrivals| && pending == arrivals[|arrivals| - |pending|..]
  }

  lemma GoneGiven(w: H.World<string>, g: W.Agent<string>, m: string, n: nat)
    requires H.HistoryInv(w) && W.AgentOk(w, g) && g.Busy? && g.done == |g.batch|
    requires n == if Held(w.queue, g.claim) && m == g.claim.key
                  then Covered(H.Pending(w, m), g.batch[|g.batch| - 1].seqNo) else 0
    ensures AllGiven(H.Log(w, m), H.Head(w, m), n)
  {
    W.GoneProcessed(w, g, m, n);
    ProcessedAreGiven(H.Log(w, m), H.Head(w, m), n);
  }

  lemma Loses(before: seq<Entry>, after: seq<Entry>, arrivals: seq<Entry>, log: seq<H.Event>, head: int, n: nat)
    requires IsTail(before, arrivals) && head == |arrivals| - |before|
    requires n <= |before| && after == before[n..] && AllGiven(log, head, n)
    ensures LosesGiven(before, after, arrivals, log, head, n)
  {
  }

  lemma ProcessedAreGiven(log: seq<H.Event>, from: int, n: nat)
    requires forall j :: from <= j < from + n ==> W.WasProcessed(log, j)
    ensures AllGiven(log, from, n)
  {
    forall j | from <= j < from + n ensures j in Given(log) {
      ProcessedIsGiven(log, j);
    }
  }

  lemma StreamKnown(f: Fleet, s: W.System<string>, cfg: Config, m: string)
    requires Mirrored(f, s, cfg)
    ensures Queue(SlotAt(f.d, m).stream.entries) == H.Pending(s.world, m)
  {
    R.StreamIsPending(f.d, s.world.queue, s.world.clock, m);
  }

  lemma MemberKnown(f: Fleet, s: W.System<string>, cfg: Config, m: string)
    requires Mirrored(f, s, cfg)
    ensures GivenFrom(GivenTo(f, m), H.Arrivals(s.world, m), H.Log(s.world, m)) && W.Ordered(H.Log(s.world, m))
    ensures W.LogOk(H.Log(s.world, m), H.Head(s.world, m)) && H.KeyHistory(s.world, m)
    ensures H.DeadOf(f.d.dlq, m) == H.DeadIn(H.Arrivals(s.world, m), H.Log(s.world, m))
  {
    assert W.LogOk(H.Log(s.world, m), H.Head(s.world, m)) && H.KeyHistory(s.world, m);
  }
}
