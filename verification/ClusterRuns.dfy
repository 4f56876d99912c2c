/** Whole runs of a sharded backend: each is a run of one queue, the union of the shards. */
module ClusterRuns {
  import opened Contract
  import opened Oracle
  import opened Sharding
  import History

  /** An operation, and for a claim where its rotation started. */
  datatype Act = Act(start: nat, t: History.Timed<Key>)

  function KeyOf(op: History.Op<Key>): Key
    requires !op.Sweep?
  {
    match op
    case Arrive(k, _, _) => k
    case Take(k, _, _, _) => k
    case Settle(c, _) => c.key
    case GiveUp(c) => c.key
    case Extend(c, _) => c.key
    case Fault(c, _, _) => c.key
  }

  /** A sweep visits every shard; any other operation goes to its key's own. */
  function Step(shards: seq<State<Key>>, hash: string -> nat, t: History.Timed<Key>): seq<State<Key>>
    requires |shards| > 0
  {
    if t.op.Sweep? then seq(|shards|, i requires 0 <= i < |shards| => History.Effect(shards[i], t))
    else var h := Home(hash, |shards|, KeyOf(t.op)); shards[h := History.Effect(shards[h], t)]
  }

  // ---------- a step of the cluster is a step of the union ----------

  lemma StepJoins(whole: State<Key>, shards: seq<State<Key>>, hash: string -> nat, t: History.Timed<Key>)
    requires Joined(whole, shards, hash)
    ensures Joined(History.Effect(whole, t), Step(shards, hash, t), hash)
  {
    match t.op
    case Arrive(k, payload, cost) => EnqueueJoins(whole, shards, hash, k, payload, cost, t.now);
    case Take(k, worker, token, window) => TakeJoins(whole, shards, hash, k, worker, token, window, t.now);
    case Settle(c, through) => AckJoins(whole, shards, hash, c, through, t.now);
    case GiveUp(c) => ReleaseJoins(whole, shards, hash, c);
    case Extend(c, extend) => HeartbeatJoins(whole, shards, hash, c, extend, t.now);
    case Fault(c, seqNo, reason) => FailJoins(whole, shards, hash, c, seqNo, reason, t.now);
    case Sweep(expiredBefore, at) => ReapJoins(whole, shards, Step(shards, hash, t), hash, expiredBefore, at);
  }

  lemma TakeJoins(whole: State<Key>, shards: seq<State<Key>>, hash: string -> nat, k: Key,
                  worker: string, token: string, window: int, now: int)
    requires Joined(whole, shards, hash)
    ensures var h, t := Home(hash, |shards|, k), History.Timed(now, History.Take(k, worker, token, window));
            Joined(History.Effect(whole, t), shards[h := History.Effect(shards[h], t)], hash)
  {
    var h := Home(hash, |shards|, k);
    UnitAtHome(whole, shards, hash, k);
    if k in whole.units {
      GrantJoins(whole, shards, hash, h, k, worker, token, window, now);
    } else {
      SameShard(shards, h);
    }
  }

  // ---------- runs ----------

  function Run(shards: seq<State<Key>>, hash: string -> nat, acts: seq<Act>): (r: seq<State<Key>>)
    requires |shards| > 0
    ensures |r| == |shards|
  {
    if acts == [] then shards else Step(Run(shards, hash, acts[..|acts| - 1]), hash, acts[|acts| - 1].t)
  }

  /** The tokens drawn in a run. */
  function Drawn(acts: seq<Act>): set<string> {
    set i | 0 <= i < |acts| && acts[i].t.op.Take? :: acts[i].t.op.token
  }

  function Clock(acts: seq<Act>): int {
    if acts == [] then 0 else acts[|acts| - 1].t.now
  }

  /** Positive costs, fresh tokens, a clock that does not go back; a claim takes what its rotation comes to. */
  ghost predicate Permitted(shards: seq<State<Key>>, drawn: set<string>, clock: int, a: Act) {
    clock <= a.t.now &&
    match a.t.op
    case Arrive(_, _, cost) => cost > 0
    case Take(k, worker, token, window) => Wins(shards, a.start, k) && worker != "" && token !in drawn && window >= 0
    case _ => true
  }

  ghost predicate Legal(shards: seq<State<Key>>, hash: string -> nat, acts: seq<Act>)
    requires |shards| > 0
  {
    acts == [] ||
    var before := acts[..|acts| - 1];
    Legal(shards, hash, before) && Permitted(Run(shards, hash, before), Drawn(before), Clock(before), acts[|acts| - 1])
  }

  /** The operations, as the union sees them. */
  function Ops(acts: seq<Act>): seq<History.Timed<Key>> {
    seq(|acts|, i requires 0 <= i < |acts| => acts[i].t)
  }

  function EmptyShards(cfg: Config, n: nat): seq<State<Key>> {
    seq(n, i requires 0 <= i < n => State(map[], [], {}, cfg))
  }

  /** The shards and the world of the union after the same operations. */
  ghost predicate Together(shards: seq<State<Key>>, hash: string -> nat, w: History.World<Key>,
                           drawn: set<string>, clock: int) {
    Joined(w.queue, shards, hash) && w.queue.issued <= drawn && w.clock == clock
  }

  lemma StepTogether(shards: seq<State<Key>>, hash: string -> nat, w: History.World<Key>,
                     drawn: set<string>, clock: int, a: Act)
    requires Together(shards, hash, w, drawn, clock) && Permitted(shards, drawn, clock, a)
    ensures History.Enabled(w, a.t)
    ensures Together(Step(shards, hash, a.t), hash, History.Next(w, a.t),
                     drawn + (if a.t.op.Take? then {a.t.op.token} else {}), a.t.now)
  {
    StepJoins(w.queue, shards, hash, a.t);
    History.NextIs(w, a.t);
    IssuedGrows(w.queue, a.t);
    if a.t.op.Take? {
      WinnerIsClaimable(w.queue, shards, hash, a.start, a.t.op.key);
    }
  }

  lemma IssuedGrows(s: State<Key>, t: History.Timed<Key>)
    ensures History.Effect(s, t).issued <= s.issued + if t.op.Take? then {t.op.token} else {}
  {
  }

  lemma DrawnGrows(acts: seq<Act>)
    requires acts != []
    ensures var a := acts[|acts| - 1];
            Drawn(acts) == Drawn(acts[..|acts| - 1]) + if a.t.op.Take? then {a.t.op.token} else {}
  {
    var before, a := acts[..|acts| - 1], acts[|acts| - 1];
    forall x | x in Drawn(before) + (if a.t.op.Take? then {a.t.op.token} else {}) ensures x in Drawn(acts) {
      if i :| 0 <= i < |before| && before[i].t.op.Take? && before[i].t.op.token == x {
        assert acts[i] == before[i];
      }
    }
  }

  /**
   Every run of a cluster from empty shards is a run of one queue, and the shards are at every point its
   parts: so whatever holds of every run of the queue holds of the cluster.
   */
  lemma {:induction false} RunsAreRuns(cfg: Config, n: nat, hash: string -> nat, acts: seq<Act>)
    requires n > 0 && Legal(EmptyShards(cfg, n), hash, acts)
    ensures History.Legal(History.Start<Key>(cfg), Ops(acts))
    ensures Joined(History.Run(History.Start<Key>(cfg), Ops(acts)).queue, Run(EmptyShards(cfg, n), hash, acts), hash)
    ensures Together(Run(EmptyShards(cfg, n), hash, acts), hash, History.Run(History.Start<Key>(cfg), Ops(acts)),
                     Drawn(acts), Clock(acts))
  {
    if acts != [] {
      var before, a := acts[..|acts| - 1], acts[|acts| - 1];
      RunsAreRuns(cfg, n, hash, before);
      assert Ops(acts)[..|acts| - 1] == Ops(before);
      DrawnGrows(acts);
      StepTogether(Run(EmptyShards(cfg, n), hash, before), hash, History.Run(History.Start<Key>(cfg), Ops(before)),
                   Drawn(before), Clock(before), a);
    }
  }

  /** So after every run a key's queue, on the shard it is routed to, is what arrived for it and was not settled. */
  lemma ShardsKeepOrder(cfg: Config, n: nat, hash: string -> nat, acts: seq<Act>, k: Key)
    requires cfg.threshold > 0 && cfg.maxWait >= 0 && cfg.maxAttempts > 0
    requires n > 0 && Legal(EmptyShards(cfg, n), hash, acts)
    ensures var w := History.Run(History.Start<Key>(cfg), Ops(acts));
            var settled, arrivals := History.Settled(History.Log(w, k)), History.Arrivals(w, k);
            && settled <= |arrivals|
            && UnitOf(Run(EmptyShards(cfg, n), hash, acts)[Home(hash, n, k)], k).queue == arrivals[settled..]
  {
    RunsAreRuns(cfg, n, hash, acts);
    History.StartHistory<Key>(cfg);
    History.RunHistory(History.Start<Key>(cfg), Ops(acts));
    var w := History.Run(History.Start<Key>(cfg), Ops(acts));
    TailAtHome(w, Run(EmptyShards(cfg, n), hash, acts), hash, k);
  }

  lemma TailAtHome(w: History.World<Key>, shards: seq<State<Key>>, hash: string -> nat, k: Key)
    requires Joined(w.queue, shards, hash) && History.HistoryInv(w)
    ensures var settled, arrivals := History.Settled(History.Log(w, k)), History.Arrivals(w, k);
            settled <= |arrivals| && UnitOf(shards[Home(hash, |shards|, k)], k).queue == arrivals[settled..]
  {
    UnitAtHome(w.queue, shards, hash, k);
    assert History.KeyHistory(w, k);
  }

  // ---------- a tenant stays on one shard ----------

  /** Two live units of one workspace are on one shard after every run, which the workspace's hash alone decides. */
  lemma TenantStays(cfg: Config, n: nat, hash: string -> nat, acts: seq<Act>, i: nat, j: nat, k: Key, l: Key)
    requires n > 0 && Legal(EmptyShards(cfg, n), hash, acts) && i < n && j < n
    requires var shards := Run(EmptyShards(cfg, n), hash, acts); k in shards[i].units && l in shards[j].units
    requires k.workspace == l.workspace
    ensures i == j == hash(k.workspace) % n
  {
    RunsAreRuns(cfg, n, hash, acts);
    var shards, whole := Run(EmptyShards(cfg, n), hash, acts), History.Run(History.Start<Key>(cfg), Ops(acts)).queue;
    assert Part(whole, shards, hash, i) && Part(whole, shards, hash, j);
    HomeIs(hash, n, k);
    HomeIs(hash, n, l);
  }

  // ---------- no shard with work is passed over ----------

  lemma {:induction false} LegalAt(shards: seq<State<Key>>, hash: string -> nat, acts: seq<Act>, p: nat)
    requires |shards| > 0 && Legal(shards, hash, acts) && p < |acts|
    ensures Legal(shards, hash, acts[..p])
    ensures Permitted(Run(shards, hash, acts[..p]), Drawn(acts[..p]), Clock(acts[..p]), acts[p])
  {
    if p < |acts| - 1 {
      LegalAt(shards, hash, acts[..|acts| - 1], p);
      assert acts[..|acts| - 1][..p] == acts[..p];
    }
  }

  /** The claims at these places of a run are those whose rotations started at rr and one further each. */
  ghost predicate InARow(acts: seq<Act>, places: seq<nat>, rr: nat) {
    forall j :: 0 <= j < |places| ==> ClaimsFrom(acts, places[j], rr + j)
  }

  predicate ClaimsFrom(acts: seq<Act>, p: nat, start: nat) {
    p < |acts| && acts[p].t.op.Take? && acts[p].start == start
  }

  lemma WinsAtPlace(shards: seq<State<Key>>, hash: string -> nat, acts: seq<Act>, p: nat, start: nat)
    requires |shards| > 0 && Legal(shards, hash, acts) && ClaimsFrom(acts, p, start)
    ensures Wins(Run(shards, hash, acts[..p]), start, acts[p].t.op.key)
  {
    LegalAt(shards, hash, acts, p);
  }

  /**
   The cursor moves on by one with each claim. Of as many claims in a row as there are shards, whatever comes
   between them, one takes the oldest unit of a given shard, if that has something claimable at each of them.
   */
  lemma NoShardPassedOver(cfg: Config, n: nat, hash: string -> nat, acts: seq<Act>, places: seq<nat>, rr: nat, target: nat)
    returns (i: nat)
    requires n > 0 && Legal(EmptyShards(cfg, n), hash, acts) && target < |places| == n && InARow(acts, places, rr)
    requires forall j :: 0 <= j < n ==> !NothingClaimable(Run(EmptyShards(cfg, n), hash, acts[..places[j]])[target])
    ensures i < n && Oldest(Run(EmptyShards(cfg, n), hash, acts[..places[i]])[target], acts[places[i]].t.op.key)
  {
    i := FirstInTurn(rr, n, target);
    assert ClaimsFrom(acts, places[i], rr + i);
    WinsAtPlace(EmptyShards(cfg, n), hash, acts, places[i], rr + i);
    FirstWins(Run(EmptyShards(cfg, n), hash, acts[..places[i]]), rr + i, acts[places[i]].t.op.key, target);
  }

  // ---------- a claim out of turn ----------

  lemma ClusterRunGrows(shards: seq<State<Key>>, hash: string -> nat, acts: seq<Act>, a: Act)
    requires |shards| > 0 && Legal(shards, hash, acts)
    requires Permitted(Run(shards, hash, acts), Drawn(acts), Clock(acts), a)
    ensures Legal(shards, hash, acts + [a]) && Clock(acts + [a]) == a.t.now
    ensures Run(shards, hash, acts + [a]) == Step(Run(shards, hash, acts), hash, a.t)
    ensures !a.t.op.Take? ==> Drawn(acts + [a]) == Drawn(acts)
  {
    assert (acts + [a])[..|acts|] == acts;
    DrawnGrows(acts + [a]);
  }

  /** One unit at threshold, enqueued at a time. */
  function Ready(cfg: Config, k: Key, at: int): State<Key> {
    Enqueue(State(map[], [], {}, cfg), k, "task", cfg.threshold, at)
  }

  lemma ReadyIsOldest(cfg: Config, k: Key, at: int)
    requires cfg.threshold > 0
    ensures Oldest(Ready(cfg, k, at), k) && Ready(cfg, k, at).units[k].flushDeadline == at + cfg.maxWait
  {
  }

  /**
   Two workspaces on two shards: the unit that arrived second is handed out while the first still waits,
   because the rotation comes to its shard first.
   */
  lemma OutOfTurn(cfg: Config, hash: string -> nat, first: Key, second: Key) returns (acts: seq<Act>, a: Act)
    requires cfg.threshold > 0 && cfg.maxWait >= 0 && cfg.maxAttempts > 0
    requires Home(hash, 2, first) == 1 && Home(hash, 2, second) == 0
    ensures Legal(EmptyShards(cfg, 2), hash, acts + [a]) && a.t.op.Take? && a.t.op.key == second
    ensures var s := History.Run(History.Start<Key>(cfg), Ops(acts)).queue;
            Claimable(s, first) && Claimable(s, second) && s.units[first].flushDeadline < s.units[second].flushDeadline
  {
    var none := EmptyShards(cfg, 2);
    var one := Act(0, History.Timed(1, History.Arrive(first, "task", cfg.threshold)));
    var two := Act(0, History.Timed(2, History.Arrive(second, "task", cfg.threshold)));
    a := Act(0, History.Timed(2, History.Take(second, "w", "1", 0)));
    acts := [one] + [two];
    assert [] + [one] == [one];
    ClusterRunGrows(none, hash, [], one);
    ClusterRunGrows(none, hash, [one], two);
    var shards := Run(none, hash, acts);
    assert shards == [Ready(cfg, second, 2), Ready(cfg, first, 1)];
    ReadyIsOldest(cfg, second, 2);
    ReadyIsOldest(cfg, first, 1);
    assert WinsAt(shards, 0, 0, second);
    ClusterRunGrows(none, hash, acts, a);
    RunsAreRuns(cfg, 2, hash, acts);
    var whole := History.Run(History.Start<Key>(cfg), Ops(acts)).queue;
    ClaimableAtHome(whole, shards, hash, 1, first);
    ClaimableAtHome(whole, shards, hash, 0, second);
    UnitAtHome(whole, shards, hash, first);
    UnitAtHome(whole, shards, hash, second);
  }
}
