/**
 Gaps in a batch: they come from nothing but a third trip made after the lease was lost, and one of them is
 enough to lose a task.
 */
module Gaps {
  import opened Contract
  import opened Oracle
  import opened Invariant
  import opened Streams
  import opened ShardState
  import opened SlotSteps
  import opened ShardSteps
  import opened ShardWorkers
  import opened Callbacks
  import opened Tokens
  import T = Straddle
  import R = ShardRuns
  import W = Workers
  import H = History

  // ---------- no gap while every read is made under a held lease ----------

  /** A holder that has room for more has taken over all that was pending, and still has. */
  ghost predicate Untouched(d: Keyspace, h: Hand) {
    h.Reading? && Presents(d, h.m, h.token) && |h.orphans| < h.max ==> |SlotAt(d, h.m).stream.pel| == |h.orphans|
  }

  ghost predicate AllUntouched(f: Fleet) {
    forall a :: a in f.hands ==> Untouched(f.d, f.hands[a])
  }

  /** A third trip that brings something is made while the lease is still held. */
  predicate ReadsHeld(f: Fleet, x: Action)
    requires Placed(f, x)
  {
    x.step.ReadOn? ==> var h := f.hands[x.step.a]; News(f.d, h) != [] ==> Presents(f.d, h.m, h.token)
  }

  lemma HeldIsGapless(f: Fleet, s: W.System<string>, cfg: Config, k: nat)
    requires Mirrored(f, s, cfg) && k in f.hands && f.hands[k].Reading? && Untouched(f.d, f.hands[k])
    requires News(f.d, f.hands[k]) != [] ==> Presents(f.d, f.hands[k].m, f.hands[k].token)
    ensures Gapless(f.d, f.hands[k])
  {
    var h, g := f.hands[k], s.agents[k];
    if News(f.d, h) != [] {
      HandOf(f, s, k);
      AgentKnown(s, k, h.m);
      StandsHeld(f.d, s.world.queue, g.claim, h.m, h.token);
      OrphansFirst(s.world, g, h.m, h.orphans);
      R.StreamIsPending(f.d, s.world.queue, s.world.clock, h.m);
      NewsFollow(f.d, h);
    }
  }

  /** What a holder took over is still the beginning of the queue. */
  lemma OrphansFirst(w: H.World<string>, g: W.Agent<string>, m: string, orphans: seq<Task>)
    requires H.KeyHistory(w, m) && W.AgentOk(w, g) && !g.Idle? && g.claim.key == m && Held(w.queue, g.claim)
    requires orphans == [] || (g.Busy? && g.batch == orphans)
    ensures orphans <= Tasks(H.Pending(w, m))
  {
    if orphans != [] {
      forall i | 0 <= i < |orphans| ensures i < |H.Pending(w, m)| && H.Pending(w, m)[i].task == orphans[i] {
        DrainedIsFirst(w, g.claim, g.base, g.batch, g.done, i);
      }
      assert H.Pending(w, m)[|orphans| - 1].task == orphans[|orphans| - 1];
    }
  }

  /** The third trip is made only if there is room. */
  lemma NoRoomNoNews(d: Keyspace, h: Hand)
    requires h.Reading?
    ensures |h.orphans| >= h.max ==> News(d, h) == []
  {
  }

  lemma NewsFollow(d: Keyspace, h: Hand)
    requires h.Reading? && News(d, h) != [] && Presents(d, h.m, h.token) && Untouched(d, h)
    requires StreamOk(SlotAt(d, h.m).stream)
    requires h.orphans <= Tasks(Queue(SlotAt(d, h.m).stream.entries))
    ensures Gapless(d, h)
  {
    var st, room := SlotAt(d, h.m).stream, Room(h);
    ReadGroupNext(st, room);
    var n := Min(room, |st.entries| - |st.pel|);
    var all := h.orphans + News(d, h);
    NoRoomNoNews(d, h);
    assert all == Tasks(Queue(st.entries[..|st.pel| + n])) by {
      forall i | 0 <= i < |all| ensures all[i] == st.entries[i].entry.task {
        if i < |h.orphans| {
          assert all[i] == h.orphans[i] == Tasks(Queue(st.entries))[i];
        } else {
          assert all[i] == News(d, h)[i - |h.orphans|];
        }
      }
    }
    AscendingQueue(st.entries, |st.pel| + n);
    SortedStays(all);
    assert all == Tasks(Queue(st.entries))[..|all|];
  }

  lemma TakenOverUntouched(d: Keyspace, w: H.World<string>, m: string, token: string, max: nat)
    requires Wf(d, w.queue, w.clock)
    ensures Untouched(d, Reading(m, token, max, Orphans(d, m, max)))
  {
    R.StreamIsPending(d, w.queue, w.clock, m);
    AutoClaimPrefix(SlotAt(d, m).stream, max);
  }

  /** A call made under another token leaves a hand untouched. */
  lemma CallUntouched(f: Fleet, cfg: Config, a: R.Timed, actor: Option<nat>)
    requires f.d.hashes.Keys == f.d.streams.Keys && AllUntouched(f) && OnlyBearer(f, a.call, actor)
    ensures forall b :: b in f.hands && Some(b) != actor ==> Untouched(R.Step(f.d, cfg, a), f.hands[b])
  {
    forall b | b in f.hands && Some(b) != actor ensures Untouched(R.Step(f.d, cfg, a), f.hands[b]) {
      var h := f.hands[b];
      if h.Reading? && Presents(R.Step(f.d, cfg, a), h.m, h.token) {
        assert Untouched(f.d, h);
        PendingKept(f.d, cfg, a, h.m, h.token);
      }
    }
  }

  /** Nor does a read made under a held lease touch another hand. */
  lemma ReadUntouched(f: Fleet, s: W.System<string>, k: nat, count: nat)
    requires W.SystemInv(s) && SameHands(f, s) && AllUntouched(f) && k in f.hands && !f.hands[k].Free?
    requires f.hands[k].m in f.d.streams && Presents(f.d, f.hands[k].m, f.hands[k].token)
    ensures forall b :: b in f.hands && b != k ==> Untouched(ReadFrom(f.d, f.hands[k].m, count), f.hands[b])
  {
    forall b | b in f.hands && b != k ensures Untouched(ReadFrom(f.d, f.hands[k].m, count), f.hands[b]) {
      var h, m := f.hands[b], f.hands[k].m;
      assert Untouched(f.d, h);
      if h.Reading? {
        HandOf(f, s, b);
        HandOf(f, s, k);
        ReadSlot(f.d, m, count, h.m);
        assert h.token != f.hands[k].token;
      }
    }
  }

  /** Whoever calls a script bears its token alone. */
  lemma BearsAlone(f: Fleet, s: W.System<string>, x: Action, call: R.Call)
    requires W.SystemInv(s) && SameHands(f, s) && Asked(f, s, x) && CallOf(f, x) == Some(call)
    ensures OnlyBearer(f, call, Actor(x))
  {
    if x.step.Claim? {
      FreshHasNoBearer(f, s, call);
    } else if !x.step.Client? {
      HolderIsOnlyBearer(f, s, call, x.step.a);
    }
  }

  /** What an action that calls a script leaves in hand: nobody is left reading by it. */
  lemma CalledTakes(f: Fleet, cfg: Config, x: Action, e: Keyspace)
    requires Placed(f, x) && CallOf(f, x).Some? && e == R.Step(f.d, cfg, R.Timed(x.now, CallOf(f, x).value))
    ensures var n := Act(f, cfg, x);
            && n.d == e && n.hands.Keys == f.hands.Keys
            && forall b :: b in f.hands ==> n.hands[b] == f.hands[b] || (Some(b) == Actor(x) && !n.hands[b].Reading?)
    ensures x.step.Client? ==> Act(f, cfg, x).hands == f.hands
  {
  }

  lemma CalledUntouched(f: Fleet, s: W.System<string>, cfg: Config, x: Action)
    requires f.d.hashes.Keys == f.d.streams.Keys && W.SystemInv(s) && SameHands(f, s)
    requires Asked(f, s, x) && CallOf(f, x).Some? && AllUntouched(f)
    ensures AllUntouched(Act(f, cfg, x))
  {
    var a := R.Timed(x.now, CallOf(f, x).value);
    BearsAlone(f, s, x, a.call);
    CallUntouched(f, cfg, a, Actor(x));
    CalledTakes(f, cfg, x, R.Step(f.d, cfg, a));
    LeftUntouched(f, Act(f, cfg, x), Actor(x));
  }

  lemma LeftUntouched(f: Fleet, n: Fleet, actor: Option<nat>)
    requires forall b :: b in f.hands && Some(b) != actor ==> Untouched(n.d, f.hands[b])
    requires n.hands.Keys == f.hands.Keys
    requires forall b :: b in f.hands ==> (n.hands[b] == f.hands[b] && Some(b) != actor) || (Some(b) == actor && !n.hands[b].Reading?)
    ensures AllUntouched(n)
  {
  }

  lemma NewsUntouched(f: Fleet, s: W.System<string>, cfg: Config, x: Action)
    requires W.SystemInv(s) && SameHands(f, s) && Placed(f, x) && x.step.ReadOn? && ReadsHeld(f, x) && AllUntouched(f)
    requires Brought(f.d, f.hands[x.step.a]) != [] && f.d.hashes.Keys == f.d.streams.Keys
    ensures AllUntouched(Act(f, cfg, x))
  {
    var k := x.step.a;
    var h := f.hands[k];
    HandOf(f, s, k);
    if News(f.d, h) == [] {
      NothingNew(f.d, h);
    } else {
      ReadUntouched(f, s, k, Room(h));
    }
    NewsTakes(f, cfg, x);
    LeftUntouched(f, Act(f, cfg, x), Some(k));
  }

  lemma NewsTakes(f: Fleet, cfg: Config, x: Action)
    requires Placed(f, x) && x.step.ReadOn? && Brought(f.d, f.hands[x.step.a]) != []
    ensures var h := f.hands[x.step.a];
            Act(f, cfg, x) == Take(f.(d := ReadFrom(f.d, h.m, Room(h))), x.step.a, Working(h.m, h.token, Brought(f.d, h), 0))
  {
  }

  lemma ActUntouched(f: Fleet, s: W.System<string>, cfg: Config, x: Action)
    requires Wf(f.d, s.world.queue, s.world.clock) && W.SystemInv(s) && SameHands(f, s)
    requires Asked(f, s, x) && ReadsHeld(f, x) && AllUntouched(f)
    ensures AllUntouched(Act(f, cfg, x))
  {
    if CallOf(f, x).Some? {
      CalledUntouched(f, s, cfg, x);
    } else if x.step.ReadOn? {
      NewsUntouched(f, s, cfg, x);
    } else {
      QuietUntouched(f, s.world, cfg, x);
    }
  }

  lemma QuietUntouched(f: Fleet, w: H.World<string>, cfg: Config, x: Action)
    requires Wf(f.d, w.queue, w.clock) && Placed(f, x) && CallOf(f, x).None? && !x.step.ReadOn? && AllUntouched(f)
    ensures AllUntouched(Act(f, cfg, x))
  {
    if x.step.TakeOver? {
      var h := f.hands[x.step.a];
      TakenOverUntouched(f.d, w, h.m, h.token, h.max);
    }
    QuietTakes(f, cfg, x);
    PutUntouched(f, Act(f, cfg, x), x.step.a, Act(f, cfg, x).hands[x.step.a]);
  }

  lemma QuietTakes(f: Fleet, cfg: Config, x: Action)
    requires Placed(f, x) && CallOf(f, x).None? && !x.step.ReadOn?
    ensures !x.step.Client? && x.step.a in f.hands
    ensures var n := Act(f, cfg, x);
            && n.d == f.d && x.step.a in n.hands && n.hands == f.hands[x.step.a := n.hands[x.step.a]]
            && (n.hands[x.step.a].Reading? ==> x.step.TakeOver?)
    ensures x.step.TakeOver? ==>
              var h := f.hands[x.step.a]; Act(f, cfg, x).hands[x.step.a] == Reading(h.m, h.token, h.max, Orphans(f.d, h.m, h.max))
  {
  }

  lemma PutUntouched(f: Fleet, n: Fleet, a: nat, h: Hand)
    requires AllUntouched(f) && n.d == f.d && n.hands == f.hands[a := h] && Untouched(f.d, h)
    ensures AllUntouched(n)
  {
  }

  /** A run in which every third trip that brings something is made under a lease still held. */
  ghost predicate ReadsUnderLease(f: Fleet, s: W.System<string>, cfg: Config, xs: seq<Action>) {
    xs == [] ||
    var before, x := Run(f, cfg, xs[..|xs| - 1]), xs[|xs| - 1];
    && ReadsUnderLease(f, s, cfg, xs[..|xs| - 1]) && Asked(before, W.Run(s, Images(f, cfg, xs[..|xs| - 1])), x)
    && ReadsHeld(before, x)
  }

  lemma {:induction false} RunUntouched(f: Fleet, s: W.System<string>, cfg: Config, xs: seq<Action>)
    requires Mirrored(f, s, cfg) && AllUntouched(f) && ReadsUnderLease(f, s, cfg, xs)
    ensures Legal(f, s, cfg, xs) && AllUntouched(Run(f, cfg, xs))
  {
    if xs != [] {
      var before := xs[..|xs| - 1];
      RunUntouched(f, s, cfg, before);
      RunMirrors(f, s, cfg, before);
      HeldStep(Run(f, cfg, before), W.Run(s, Images(f, cfg, before)), cfg, xs[|xs| - 1]);
    }
  }

  lemma HeldStep(f: Fleet, s: W.System<string>, cfg: Config, x: Action)
    requires Mirrored(f, s, cfg) && AllUntouched(f) && Asked(f, s, x) && ReadsHeld(f, x)
    ensures Allowed(f, s, x) && AllUntouched(Act(f, cfg, x))
  {
    if x.step.ReadOn? {
      HeldIsGapless(f, s, cfg, x.step.a);
    }
    ActUntouched(f, s, cfg, x);
  }

  /**
   A run in which every third trip that brings something is made under a lease still held has no gap, so all
   that is proved of runs without one holds of it.
   */
  lemma HeldReadsAreGapless(workers: set<nat>, cfg: Config, xs: seq<Action>)
    requires cfg.threshold > 0 && cfg.maxWait >= 0 && cfg.maxAttempts > 0
    requires ReadsUnderLease(Opening(workers), IdleSystem(workers, cfg), cfg, xs)
    ensures Legal(Opening(workers), IdleSystem(workers, cfg), cfg, xs)
  {
    OpeningMirrors(workers, cfg);
    RunUntouched(Opening(workers), IdleSystem(workers, cfg), cfg, xs);
  }

  // ---------- a run that loses a task ----------

  function First(cfg: Config): Task {
    Task(0, "first", cfg.threshold)
  }

  function Second(cfg: Config): Task {
    Task(1, "second", cfg.threshold)
  }

  /** The two tasks in a stream, of which the first n were delivered. */
  function Two(cfg: Config, n: nat): Stream {
    Stream([StreamEntry(1, Entry(First(cfg), 1)), StreamEntry(2, Entry(Second(cfg), 1))], 2, n,
           if n == 0 then [] else if n == 1 then [1] else [1, 2])
  }

  lemma ReadsOne(cfg: Config, n: nat)
    requires n < 2
    ensures var r := XReadGroup(Two(cfg, n), 1);
            r.0 == Two(cfg, n + 1) && Tasks(r.1) == if n == 0 then [First(cfg)] else [Second(cfg)]
  {
    var st := Two(cfg, n);
    UndeliveredSuffix(st.entries, n, n);
    var waiting := Undelivered(st.entries, n);
    assert waiting[0] == st.entries[n];
    var got := waiting[..1];
    assert got == [st.entries[n]];
    assert IdsOf(got) == [n + 1];
  }

  /** The unit is free and ready, and neither task was delivered. */
  predicate Waiting(x: Slot, cfg: Config) {
    && x.stream == Two(cfg, 0) && x.hash.pendingCost == 2 * cfg.threshold && x.hash.threshold == cfg.threshold
    && x.ready.Some? && x.waiting.None? && x.leased.None? && x.hash.claimedBy.None?
  }

  /** It is leased until the instant it was claimed at, and n tasks were delivered. */
  predicate LeasedTo(x: Slot, cfg: Config, token: string, n: nat) {
    && x.stream == Two(cfg, n) && x.hash.pendingCost == 2 * cfg.threshold && x.hash.threshold == cfg.threshold
    && x.ready.None? && x.waiting.None? && x.leased == Some(1) && x.hash.leaseToken == Some(token)
  }

  lemma EnqueuedWaits(cfg: Config)
    requires cfg.threshold > 0
    ensures var x := Enqueued(NO_SLOT, "first", cfg.threshold, cfg.threshold, cfg.maxWait, 1);
            Waiting(Enqueued(x, "second", cfg.threshold, cfg.threshold, cfg.maxWait, 1), cfg)
  {
    var x := Enqueued(NO_SLOT, "first", cfg.threshold, cfg.threshold, cfg.maxWait, 1);
    assert x.stream.entries == [StreamEntry(1, Entry(First(cfg), 1))];
    var y := Enqueued(x, "second", cfg.threshold, cfg.threshold, cfg.maxWait, 1);
    assert y.stream.entries == x.stream.entries + [StreamEntry(2, Entry(Second(cfg), 1))];
  }

  lemma LentIsLeased(x: Slot, cfg: Config, token: string)
    requires Waiting(x, cfg)
    ensures LeasedTo(Lent(x, WorkerOf(token), token, 0, 1), cfg, token, 0)
  {
  }

  lemma SweptWaits(x: Slot, cfg: Config, token: string)
    requires LeasedTo(x, cfg, token, 0) && cfg.threshold > 0
    ensures Waiting(T.Swept(x, 1), cfg)
  {
  }

  /** A run of permitted actions that leads to f with these tokens drawn, its clock at most one. */
  ghost predicate Leads(cfg: Config, xs: seq<Action>, f: Fleet, drawn: set<string>) {
    var o, s := Opening({0, 1}), W.Run(IdleSystem({0, 1}, cfg), Images(Opening({0, 1}), cfg, xs));
    && Legal(o, IdleSystem({0, 1}, cfg), cfg, xs) && Run(o, cfg, xs) == f && Mirrored(f, s, cfg)
    && s.world.queue.issued == drawn && s.world.clock <= 1
  }

  /** A permitted action at time one, and what it leaves. */
  predicate GoesTo(f: Fleet, cfg: Config, drawn: set<string>, x: Action, n: Fleet, after: set<string>) {
    && Placed(f, x) && x.now == 1 && n == Act(f, cfg, x)
    && (x.step.ReadOn? ==> Gapless(f.d, f.hands[x.step.a]))
    && (CallOf(f, x).Some? ==>
          var a := R.Timed(1, CallOf(f, x).value); T.MayAsk(f.d, drawn, 1, a) && R.Followed(f.d, cfg, a))
    && after == drawn + if x.step.Claim? then {x.step.token} else {}
  }

  lemma ActIssues(s: W.System<string>, y: W.Action<string>)
    requires W.CanAct(s, y) && y.now == 1 && s.world.clock <= 1
    ensures W.Act(s, y).world.clock <= 1
    ensures W.Act(s, y).world.queue.issued == s.world.queue.issued + if y.step.Claim? then {y.step.token} else {}
  {
    match y.step
    case Client(op) => NextIssues(s.world, op);
    case Claim(_, k, worker, token, window) => NextIssues(s.world, H.Take(k, worker, token, window));
    case Drain(a, _) => NextIssues(s.world, H.GiveUp(s.agents[a].claim));
    case Quit(a) => NextIssues(s.world, H.GiveUp(s.agents[a].claim));
    case Ack(a) => NextIssues(s.world, H.Settle(s.agents[a].claim, s.agents[a].batch[|s.agents[a].batch| - 1].seqNo));
    case Fail(a, seqNo, reason) => NextIssues(s.world, H.Fault(s.agents[a].claim, seqNo, reason));
    case _ =>
  }

  lemma NextIssues(w: H.World<string>, op: H.Op<string>)
    requires op.Take? ==> op.key in w.queue.units
    ensures H.Next(w, H.Timed(1, op)).clock == 1
    ensures H.Next(w, H.Timed(1, op)).queue.issued == w.queue.issued + if op.Take? then {op.token} else {}
  {
    H.NextIs(w, H.Timed(1, op));
    T.Issues(w.queue, H.Timed(1, op));
  }

  lemma AllowedBy(f: Fleet, s: W.System<string>, cfg: Config, drawn: set<string>, x: Action, n: Fleet, after: set<string>)
    requires s.world.queue.cfg == cfg && s.world.queue.issued == drawn && s.world.clock <= 1
    requires GoesTo(f, cfg, drawn, x, n, after)
    ensures Allowed(f, s, x)
  {
  }

  lemma AfterIssues(f: Fleet, s: W.System<string>, x: Action)
    requires Placed(f, x) && Possible(f, s, x) && x.now == 1 && s.world.clock <= 1
    ensures SystemAfter(f, s, x).world.clock <= 1
    ensures SystemAfter(f, s, x).world.queue.issued == s.world.queue.issued + if x.step.Claim? then {x.step.token} else {}
  {
    if !Silent(f, x) {
      ActIssues(s, Image(f, x));
    }
  }

  lemma RunGrows(o: Fleet, s0: W.System<string>, cfg: Config, xs: seq<Action>, x: Action, f: Fleet, s: W.System<string>)
    requires Legal(o, s0, cfg, xs) && f == Run(o, cfg, xs) && s == W.Run(s0, Images(o, cfg, xs))
    requires Allowed(f, s, x) && Possible(f, s, x)
    ensures Legal(o, s0, cfg, xs + [x]) && Run(o, cfg, xs + [x]) == Act(f, cfg, x)
    ensures W.Run(s0, Images(o, cfg, xs + [x])) == SystemAfter(f, s, x)
  {
    assert (xs + [x])[..|xs|] == xs;
    NextImage(o, s0, cfg, xs + [x]);
  }

  lemma Onward(cfg: Config, xs: seq<Action>, f: Fleet, drawn: set<string>, x: Action, n: Fleet, after: set<string>)
    requires Leads(cfg, xs, f, drawn) && GoesTo(f, cfg, drawn, x, n, after)
    ensures Leads(cfg, xs + [x], n, after)
  {
    var o, s0 := Opening({0, 1}), IdleSystem({0, 1}, cfg);
    var s := W.Run(s0, Images(o, cfg, xs));
    AllowedBy(f, s, cfg, drawn, x, n, after);
    ActMirrors(f, s, cfg, x);
    AfterIssues(f, s, x);
    RunGrows(o, s0, cfg, xs, x, f, s);
  }

  lemma Begins(cfg: Config)
    requires cfg.threshold > 0 && cfg.maxWait >= 0 && cfg.maxAttempts > 0
    ensures Leads(cfg, [], Opening({0, 1}), {})
  {
    OpeningMirrors({0, 1}, cfg);
  }

  lemma ClientGoes(f: Fleet, cfg: Config, drawn: set<string>, call: R.Call, e: Keyspace)
    requires T.GoesTo(f.d, cfg, drawn, 1, R.Timed(1, call), e, drawn, 1) && (call.Enqueue? || call.Reap?)
    ensures GoesTo(f, cfg, drawn, Action(1, Client(call)), f.(d := e), drawn)
  {
  }

  lemma ClaimGoes(f: Fleet, cfg: Config, drawn: set<string>, a: nat, m: string, token: string, e: Keyspace,
      after: set<string>)
    requires a in f.hands && f.hands[a].Free? && after == drawn + {token}
    requires T.GoesTo(f.d, cfg, drawn, 1, R.Timed(1, R.Claim(m, token, 0)), e, after, 1)
    ensures GoesTo(f, cfg, drawn, Action(1, Claim(a, m, token, 0)), Take(f.(d := e), a, Claiming(m, token)), after)
  {
  }

  lemma CheckGoes(f: Fleet, cfg: Config, drawn: set<string>, a: nat, m: string, token: string)
    requires a in f.hands && f.hands[a] == Claiming(m, token) && Presents(f.d, m, token)
    ensures GoesTo(f, cfg, drawn, Action(1, Check(a, 1)), Take(f, a, Checked(m, token, 1)), drawn)
  {
  }

  lemma TakeOverGoes(f: Fleet, cfg: Config, drawn: set<string>, a: nat, m: string, token: string)
    requires a in f.hands && f.hands[a] == Checked(m, token, 1) && SlotAt(f.d, m).stream == Two(cfg, 0)
    ensures GoesTo(f, cfg, drawn, Action(1, TakeOver(a)), Take(f, a, Reading(m, token, 1, [])), drawn)
  {
    assert Orphans(f.d, m, 1) == [];
  }

  lemma CrashGoes(f: Fleet, cfg: Config, drawn: set<string>, a: nat)
    requires a in f.hands
    ensures GoesTo(f, cfg, drawn, Action(1, Crash(a)), Take(f, a, Free), drawn)
  {
  }

  /** What a third trip brings when n of the two were delivered. */
  lemma Brings(d: Keyspace, cfg: Config, m: string, token: string, n: nat)
    requires n < 2 && m in d.streams && SlotAt(d, m).stream == Two(cfg, n)
    ensures var h, e := Reading(m, token, 1, []), ReadFrom(d, m, 1);
            && News(d, h) == Brought(d, h) == (if n == 0 then [First(cfg)] else [Second(cfg)])
            && (Gapless(d, h) <==> n == 0)
            && e == d.(streams := d.streams[m := Two(cfg, n + 1)])
            && SlotAt(e, m) == SlotAt(d, m).(stream := Two(cfg, n + 1))
  {
    ReadsOne(cfg, n);
    var h := Reading(m, token, 1, []);
    assert h.orphans + News(d, h) == News(d, h);
    assert Tasks(Queue(Two(cfg, n).entries)) == [First(cfg), Second(cfg)];
  }

  lemma ReadGoes(f: Fleet, cfg: Config, drawn: set<string>, a: nat, m: string, token: string)
    requires a in f.hands && f.hands[a] == Reading(m, token, 1, []) && m in f.d.streams
    requires SlotAt(f.d, m).stream == Two(cfg, 0)
    ensures GoesTo(f, cfg, drawn, Action(1, ReadOn(a)),
                   Take(f.(d := ReadFrom(f.d, m, 1)), a, Working(m, token, [First(cfg)], 0)), drawn)
  {
    Brings(f.d, cfg, m, token, 0);
  }

  lemma TwoOn(cfg: Config, xs: seq<Action>, f: Fleet, drawn: set<string>, x: Action, n: Fleet, after: set<string>,
              y: Action, p: Fleet, last: set<string>) returns (ys: seq<Action>)
    requires Leads(cfg, xs, f, drawn) && GoesTo(f, cfg, drawn, x, n, after) && GoesTo(n, cfg, after, y, p, last)
    ensures Leads(cfg, ys, p, last)
  {
    ys := xs + [x] + [y];
    Onward(cfg, xs, f, drawn, x, n, after);
    Onward(cfg, xs + [x], n, after, y, p, last);
  }

  lemma OneOn(cfg: Config, xs: seq<Action>, f: Fleet, drawn: set<string>, x: Action, n: Fleet, after: set<string>)
    returns (ys: seq<Action>)
    requires Leads(cfg, xs, f, drawn) && GoesTo(f, cfg, drawn, x, n, after)
    ensures Leads(cfg, ys, n, after)
  {
    ys := xs + [x];
    Onward(cfg, xs, f, drawn, x, n, after);
  }

  /** Two workers over a shard of one unit, nothing given to a callback yet. */
  ghost predicate Stand(f: Fleet, m: string, h0: Hand, h1: Hand) {
    T.SoleMember(f.d, m) && f.hands == map[0 := h0, 1 := h1] && f.given == map[] && f.d.dlq == []
  }

  lemma Stocks(cfg: Config, m: string) returns (x: Action, n: Fleet, y: Action, p: Fleet)
    requires cfg.threshold > 0
    ensures GoesTo(Opening({0, 1}), cfg, {}, x, n, {}) && GoesTo(n, cfg, {}, y, p, {})
    ensures Stand(p, m, Free, Free) && Waiting(SlotAt(p.d, m), cfg)
  {
    var o := Opening({0, 1});
    var e := T.EnqueueGoes(o.d, cfg, {}, 1, 1, m, "first", cfg.threshold);
    var g := T.EnqueueGoes(e, cfg, {}, 1, 1, m, "second", cfg.threshold);
    x, n := Action(1, Client(R.Enqueue(m, "first", cfg.threshold))), o.(d := e);
    y, p := Action(1, Client(R.Enqueue(m, "second", cfg.threshold))), o.(d := g);
    ClientGoes(o, cfg, {}, x.step.call, e);
    ClientGoes(n, cfg, {}, y.step.call, g);
    EnqueuedWaits(cfg);
  }

  /** A worker claims the unit, checks the lease and finds no orphans. */
  lemma Drains(f: Fleet, cfg: Config, drawn: set<string>, a: nat, m: string, h0: Hand, h1: Hand, token: string,
      after: set<string>)
    returns (x: Action, n: Fleet, y: Action, p: Fleet, z: Action, q: Fleet)
    requires Stand(f, m, h0, h1) && Waiting(SlotAt(f.d, m), cfg) && a < 2 && (if a == 0 then h0 else h1).Free?
    requires token !in drawn && WorkerOf(token) != "" && after == drawn + {token}
    ensures GoesTo(f, cfg, drawn, x, n, after) && GoesTo(n, cfg, after, y, p, after) && GoesTo(p, cfg, after, z, q, after)
    ensures var r := Reading(m, token, 1, []); Stand(q, m, if a == 0 then r else h0, if a == 1 then r else h1)
    ensures LeasedTo(SlotAt(q.d, m), cfg, token, 0)
  {
    var e := T.ClaimGoes(f.d, cfg, drawn, 1, 1, m, token, 0, after);
    x, n := Action(1, Claim(a, m, token, 0)), Take(f.(d := e), a, Claiming(m, token));
    y, p := Action(1, Check(a, 1)), Take(n, a, Checked(m, token, 1));
    z, q := Action(1, TakeOver(a)), Take(p, a, Reading(m, token, 1, []));
    LentIsLeased(SlotAt(f.d, m), cfg, token);
    ClaimGoes(f, cfg, drawn, a, m, token, e, after);
    CheckGoes(n, cfg, after, a, m, token);
    TakeOverGoes(p, cfg, after, a, m, token);
    StandsReading(f, a, m, h0, h1, token, e, q);
  }

  lemma StandsReading(f: Fleet, a: nat, m: string, h0: Hand, h1: Hand, token: string, e: Keyspace, q: Fleet)
    requires Stand(f, m, h0, h1) && a < 2 && T.SoleMember(e, m) && e.dlq == f.d.dlq
    requires q == Take(Take(Take(f.(d := e), a, Claiming(m, token)), a, Checked(m, token, 1)), a, Reading(m, token, 1, []))
    ensures var r := Reading(m, token, 1, []); Stand(q, m, if a == 0 then r else h0, if a == 1 then r else h1)
  {
  }

  lemma Sweeps(f: Fleet, cfg: Config, drawn: set<string>, m: string, h0: Hand, h1: Hand, token: string)
    returns (x: Action, n: Fleet)
    requires Stand(f, m, h0, h1) && LeasedTo(SlotAt(f.d, m), cfg, token, 0) && cfg.threshold > 0
    ensures GoesTo(f, cfg, drawn, x, n, drawn) && Stand(n, m, h0, h1) && Waiting(SlotAt(n.d, m), cfg)
  {
    var e := T.SweepGoes(f.d, cfg, drawn, 1, 1, m);
    x, n := Action(1, Client(R.Reap(1))), f.(d := e);
    ClientGoes(f, cfg, drawn, R.Reap(1), e);
    SweptWaits(SlotAt(f.d, m), cfg, token);
  }

  /** A worker that lost its lease reads on all the same, and crashes. */
  lemma Steals(f: Fleet, cfg: Config, drawn: set<string>, m: string, token0: string, token1: string)
    returns (x: Action, p: Fleet, y: Action, n: Fleet)
    requires Stand(f, m, Reading(m, token0, 1, []), Reading(m, token1, 1, [])) && LeasedTo(SlotAt(f.d, m), cfg, token1, 0)
    ensures GoesTo(f, cfg, drawn, x, p, drawn) && GoesTo(p, cfg, drawn, y, n, drawn)
    ensures Stand(n, m, Free, Reading(m, token1, 1, [])) && LeasedTo(SlotAt(n.d, m), cfg, token1, 1)
  {
    Brings(f.d, cfg, m, token0, 0);
    x, p := Action(1, ReadOn(0)), Take(f.(d := ReadFrom(f.d, m, 1)), 0, Working(m, token0, [First(cfg)], 0));
    y, n := Action(1, Crash(0)), Take(p, 0, Free);
    ReadGoes(f, cfg, drawn, 0, m, token0);
    CrashGoes(p, cfg, drawn, 0);
  }

  lemma StocksOn(cfg: Config, m: string, none: set<string>) returns (xs: seq<Action>, f: Fleet)
    requires none == {} && cfg.threshold > 0 && cfg.maxWait >= 0 && cfg.maxAttempts > 0
    ensures Leads(cfg, xs, f, none) && Stand(f, m, Free, Free) && Waiting(SlotAt(f.d, m), cfg)
  {
    var x, n, y, p := Stocks(cfg, m);
    Begins(cfg);
    f := p;
    xs := TwoOn(cfg, [], Opening({0, 1}), {}, x, n, {}, y, p, {});
  }

  lemma DrainsOn(cfg: Config, xs: seq<Action>, f: Fleet, drawn: set<string>, a: nat, m: string, h0: Hand, h1: Hand,
                 token: string, after: set<string>, r0: Hand, r1: Hand) returns (ys: seq<Action>, q: Fleet)
    requires Leads(cfg, xs, f, drawn)
    requires Stand(f, m, h0, h1) && Waiting(SlotAt(f.d, m), cfg) && a < 2 && (if a == 0 then h0 else h1).Free?
    requires token !in drawn && WorkerOf(token) != "" && after == drawn + {token}
    requires var r := Reading(m, token, 1, []); r0 == (if a == 0 then r else h0) && r1 == if a == 1 then r else h1
    ensures Leads(cfg, ys, q, after) && Stand(q, m, r0, r1) && LeasedTo(SlotAt(q.d, m), cfg, token, 0)
  {
    var x, n, y, p, z;
    x, n, y, p, z, q := Drains(f, cfg, drawn, a, m, h0, h1, token, after);
    var two := TwoOn(cfg, xs, f, drawn, x, n, after, y, p, after);
    ys := OneOn(cfg, two, p, after, z, q, after);
  }

  lemma SweepsOn(cfg: Config, xs: seq<Action>, f: Fleet, drawn: set<string>, m: string, h0: Hand, h1: Hand, token: string)
    returns (ys: seq<Action>, n: Fleet)
    requires Leads(cfg, xs, f, drawn) && Stand(f, m, h0, h1) && LeasedTo(SlotAt(f.d, m), cfg, token, 0) && cfg.threshold > 0
    ensures Leads(cfg, ys, n, drawn) && Stand(n, m, h0, h1) && Waiting(SlotAt(n.d, m), cfg)
  {
    var x;
    x, n := Sweeps(f, cfg, drawn, m, h0, h1, token);
    ys := OneOn(cfg, xs, f, drawn, x, n, drawn);
  }

  lemma StealsOn(cfg: Config, xs: seq<Action>, f: Fleet, drawn: set<string>, m: string, token0: string, token1: string)
    returns (ys: seq<Action>, n: Fleet)
    requires Leads(cfg, xs, f, drawn) && Stand(f, m, Reading(m, token0, 1, []), Reading(m, token1, 1, []))
    requires LeasedTo(SlotAt(f.d, m), cfg, token1, 0)
    ensures Leads(cfg, ys, n, drawn) && Stand(n, m, Free, Reading(m, token1, 1, [])) && LeasedTo(SlotAt(n.d, m), cfg, token1, 1)
  {
    var x, p, y;
    x, p, y, n := Steals(f, cfg, drawn, m, token0, token1);
    ys := TwoOn(cfg, xs, f, drawn, x, p, drawn, y, n, drawn);
  }

  /** Two workers between the second and the third trip, the first of whom has lost its lease to the second. */
  lemma BothReading(cfg: Config, m: string, token0: string, token1: string, none: set<string>, one: set<string>,
      two: set<string>,
                    r0: Hand, r1: Hand) returns (xs: seq<Action>, f: Fleet)
    requires cfg.threshold > 0 && cfg.maxWait >= 0 && cfg.maxAttempts > 0 && WorkerOf(token0) != "" && WorkerOf(token1) != ""
    requires none == {} && token0 !in none && one == none + {token0} && token1 !in one && two == one + {token1}
    requires r0 == Reading(m, token0, 1, []) && r1 == Reading(m, token1, 1, [])
    ensures Leads(cfg, xs, f, two) && Stand(f, m, r0, r1) && LeasedTo(SlotAt(f.d, m), cfg, token1, 0)
  {
    var us, a := StocksOn(cfg, m, none);
    var vs, b := DrainsOn(cfg, us, a, none, 0, m, Free, Free, token0, one, r0, Free);
    var ws, c := SweepsOn(cfg, vs, b, one, m, r0, Free, token0);
    xs, f := DrainsOn(cfg, ws, c, one, 1, m, r0, Free, token1, two, r0, r1);
  }

  /** The holder reads on, hands over what it read, and acknowledges it. */
  function ReadOut(f: Fleet, cfg: Config): Fleet
    requires Placed(f, Action(1, ReadOn(1)))
    requires Placed(Act(f, cfg, Action(1, ReadOn(1))), Action(1, Process(1)))
    requires Placed(Act(Act(f, cfg, Action(1, ReadOn(1))), cfg, Action(1, Process(1))), Action(1, Ack(1)))
  {
    Act(Act(Act(f, cfg, Action(1, ReadOn(1))), cfg, Action(1, Process(1))), cfg, Action(1, Ack(1)))
  }

  lemma AllCovered(cfg: Config, d: Keyspace, m: string)
    requires SlotAt(d, m).stream == Two(cfg, 2)
    ensures Acknowledged(d, m, 1) == 2
  {
    var q := Queue(Delivered(Two(cfg, 2)));
    assert q[0].task.seqNo == 0 && q[1].task.seqNo == 1;
    CoveredIs(q, 1, 2);
  }

  /** Then nothing is stored of the unit any more, nobody works on it, and of its tasks only the second was given. */
  predicate LosesFirst(f: Fleet, cfg: Config, m: string) {
    && Placed(f, Action(1, ReadOn(1))) && Placed(Act(f, cfg, Action(1, ReadOn(1))), Action(1, Process(1)))
    && Placed(Act(Act(f, cfg, Action(1, ReadOn(1))), cfg, Action(1, Process(1))), Action(1, Ack(1)))
    && var n := ReadOut(f, cfg);
       && m !in n.d.hashes && m !in n.d.streams && n.d.dlq == [] && GivenTo(n, m) == [Second(cfg)]
       && forall a :: a in n.hands ==> n.hands[a].Free?
  }

  lemma GapLoses(f: Fleet, cfg: Config, m: string, token: string)
    requires Stand(f, m, Free, Reading(m, token, 1, [])) && LeasedTo(SlotAt(f.d, m), cfg, token, 1)
    ensures LosesFirst(f, cfg, m)
  {
    var e := ReadFrom(f.d, m, 1);
    Brings(f.d, cfg, m, token, 1);
    AllCovered(cfg, e, m);
    var g := Act(f, cfg, Action(1, ReadOn(1)));
    assert g == Take(f.(d := e), 1, Working(m, token, [Second(cfg)], 0));
    var h := Act(g, cfg, Action(1, Process(1)));
    assert h == Fleet(e, g.hands[1 := Working(m, token, [Second(cfg)], 1)], f.given[m := GivenTo(f, m) + [Second(cfg)]]);
  }

  /** Both tasks are in the stream, nothing was given, and the next trip of the second worker, which holds the lease, leaves a gap. */
  predicate InGap(f: Fleet, cfg: Config, m: string, token: string) {
    && Tasks(Queue(SlotAt(f.d, m).stream.entries)) == [First(cfg), Second(cfg)] && GivenTo(f, m) == []
    && 1 in f.hands && f.hands[1] == Reading(m, token, 1, []) && Presents(f.d, m, token)
    && !Gapless(f.d, f.hands[1]) && CallOf(f, Action(1, ReadOn(1))).None?
  }

  lemma StandInGap(f: Fleet, cfg: Config, m: string, token: string)
    requires Stand(f, m, Free, Reading(m, token, 1, [])) && LeasedTo(SlotAt(f.d, m), cfg, token, 1)
    ensures InGap(f, cfg, m, token)
  {
    Brings(f.d, cfg, m, token, 1);
    assert Tasks(Queue(SlotAt(f.d, m).stream.entries)) == [First(cfg), Second(cfg)];
  }

  /** A permitted run without a gap, at the end of which the second worker asks for a trip that leaves one. */
  ghost predicate EndsInGap(cfg: Config, xs: seq<Action>, m: string, token: string) {
    var f, s := Run(Opening({0, 1}), cfg, xs), W.Run(IdleSystem({0, 1}, cfg), Images(Opening({0, 1}), cfg, xs));
    && Legal(Opening({0, 1}), IdleSystem({0, 1}, cfg), cfg, xs)
    && InGap(f, cfg, m, token) && Asked(f, s, Action(1, ReadOn(1)))
  }

  lemma AskedInGap(f: Fleet, s: W.System<string>, cfg: Config, m: string, token: string)
    requires InGap(f, cfg, m, token) && s.world.clock <= 1
    ensures Asked(f, s, Action(1, ReadOn(1)))
  {
  }

  lemma LeadsLegally(cfg: Config, xs: seq<Action>, f: Fleet, drawn: set<string>)
    requires Leads(cfg, xs, f, drawn)
    ensures Legal(Opening({0, 1}), IdleSystem({0, 1}, cfg), cfg, xs) && Run(Opening({0, 1}), cfg, xs) == f
    ensures W.Run(IdleSystem({0, 1}, cfg), Images(Opening({0, 1}), cfg, xs)).world.clock <= 1
  {
  }

  lemma GapReached(cfg: Config, xs: seq<Action>, f: Fleet, m: string, token: string)
    requires Legal(Opening({0, 1}), IdleSystem({0, 1}, cfg), cfg, xs) && Run(Opening({0, 1}), cfg, xs) == f
    requires W.Run(IdleSystem({0, 1}, cfg), Images(Opening({0, 1}), cfg, xs)).world.clock <= 1
    requires InGap(f, cfg, m, token)
    ensures EndsInGap(cfg, xs, m, token)
  {
    AskedInGap(f, W.Run(IdleSystem({0, 1}, cfg), Images(Opening({0, 1}), cfg, xs)), cfg, m, token);
  }

  lemma StolenRun(cfg: Config, m: string, token0: string, token1: string, none: set<string>, one: set<string>,
      two: set<string>)
    returns (xs: seq<Action>, f: Fleet)
    requires cfg.threshold > 0 && cfg.maxWait >= 0 && cfg.maxAttempts > 0 && WorkerOf(token0) != "" && WorkerOf(token1) != ""
    requires none == {} && token0 !in none && one == none + {token0} && token1 !in one && two == one + {token1}
    ensures Leads(cfg, xs, f, two) && Stand(f, m, Free, Reading(m, token1, 1, [])) && LeasedTo(SlotAt(f.d, m), cfg, token1, 1)
  {
    var ys, g := BothReading(cfg, m, token0, token1, none, one, two, Reading(m, token0, 1, []), Reading(m, token1, 1, []));
    xs, f := StealsOn(cfg, ys, g, two, m, token0, token1);
  }

  /**
   A gap loses a task. For every configuration there is a run of two workers from an empty shard, permitted and
   without a gap, after which the holder's predecessor has read on although its lease was lost; when the holder
   then makes its own third trip, hands over the batch and acknowledges it, the first task is deleted although
   no callback was given it.
   */
  lemma GapLosesTask(cfg: Config, m: string, token0: string, token1: string) returns (xs: seq<Action>)
    requires cfg.threshold > 0 && cfg.maxWait >= 0 && cfg.maxAttempts > 0
    requires token0 != token1 && WorkerOf(token0) != "" && WorkerOf(token1) != ""
    ensures EndsInGap(cfg, xs, m, token1) && LosesFirst(Run(Opening({0, 1}), cfg, xs), cfg, m)
  {
    xs := LossRun(cfg, m, token0, token1, {}, {token0}, {token0} + {token1});
  }

  lemma LossRun(cfg: Config, m: string, token0: string, token1: string, none: set<string>, one: set<string>,
      two: set<string>)
    returns (xs: seq<Action>)
    requires cfg.threshold > 0 && cfg.maxWait >= 0 && cfg.maxAttempts > 0 && WorkerOf(token0) != "" && WorkerOf(token1) != ""
    requires none == {} && token0 !in none && one == none + {token0} && token1 !in one && two == one + {token1}
    ensures EndsInGap(cfg, xs, m, token1) && LosesFirst(Run(Opening({0, 1}), cfg, xs), cfg, m)
  {
    var f;
    xs, f := StolenRun(cfg, m, token0, token1, none, one, two);
    StandInGap(f, cfg, m, token1);
    LeadsLegally(cfg, xs, f, two);
    GapReached(cfg, xs, f, m, token1);
    GapLoses(f, cfg, m, token1);
  }
}
