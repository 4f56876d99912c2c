/** Several Postgres shards behind one router: whole runs over all their tables are runs of one queue. */
module PostgresCluster {
  import opened Contract
  import opened Oracle
  import opened Invariant
  import opened PostgresRows
  import opened PostgresTables
  import opened Sharding
  import P = PostgresRuns
  import C = ClusterRuns
  import History

  /** A statement or transaction, and for a claim where its rotation started. */
  datatype Act = Act(start: nat, a: P.Timed)

  function KeyOf(call: P.Call): Key
    requires !call.Sweep?
  {
    match call
    case Enqueue(k, _, _) => k
    case Claim(k, _, _, _) => k
    case Ack(c, _) => c.key
    case Release(c) => c.key
    case Heartbeat(c, _) => c.key
    case Fail(c, _, _) => c.key
  }

  /** A sweep visits every shard; any other call goes to its key's own. */
  ghost function Step(ds: seq<Tables>, hash: string -> nat, cfg: Config, a: P.Timed): (r: seq<Tables>)
    requires |ds| > 0
    ensures |r| == |ds|
  {
    if a.call.Sweep? then seq(|ds|, i requires 0 <= i < |ds| => P.Step(ds[i], cfg, a))
    else var h := Home(hash, |ds|, KeyOf(a.call)); ds[h := P.Step(ds[h], cfg, a)]
  }

  ghost predicate NoneFree(d: Tables) {
    forall k :: k in d.units ==> !Free(d.units[k])
  }

  /** The rotation comes to k at its i-th turn: the shards before had no row to hand out. */
  ghost predicate PicksAt(ds: seq<Tables>, start: nat, i: nat, k: Key)
    requires i < |ds|
  {
    Pickable(ds[Turn(start, |ds|, i)], k) && forall j :: 0 <= j < i ==> NoneFree(ds[Turn(start, |ds|, j)])
  }

  ghost predicate Picks(ds: seq<Tables>, start: nat, k: Key) {
    exists i :: 0 <= i < |ds| && PicksAt(ds, start, i, k)
  }

  /** What callers bring, and what the rows a call finds must be like for its step to be the oracle's own. */
  ghost predicate Permitted(ds: seq<Tables>, hash: string -> nat, cfg: Config, drawn: set<string>, clock: int, x: Act)
    requires |ds| > 0
  {
    clock <= x.a.now &&
    match x.a.call
    case Enqueue(_, _, cost) => cost > 0
    case Claim(k, worker, token, ms) => Picks(ds, x.start, k) && worker != "" && ms >= 0 && token !in drawn
    case Heartbeat(c, extend) => extend >= 0 && P.Faithful(ds[Home(hash, |ds|, c.key)], cfg, x.a)
    case Sweep(bound) => bound <= x.a.now
    case _ => P.Faithful(ds[Home(hash, |ds|, KeyOf(x.a.call))], cfg, x.a)
  }

  /** The same operation on the oracle's shards; a task's number in the table is put back to the oracle's. */
  ghost function Image(ds: seq<Tables>, ss: seq<State<Key>>, hash: string -> nat, x: Act): C.Act
    requires |ds| == |ss| > 0
  {
    var h := if x.a.call.Sweep? then 0 else Home(hash, |ds|, KeyOf(x.a.call));
    C.Act(x.start, P.Image(ds[h], ss[h], x.a))
  }

  /** Every shard's tables show its oracle. */
  ghost predicate AllShown(ds: seq<Tables>, ss: seq<State<Key>>, cfg: Config, drawn: set<string>, clock: int) {
    |ds| == |ss| && forall i :: 0 <= i < |ds| ==> ShownOn(ds[i], ss[i], cfg, drawn, clock)
  }

  ghost predicate ShownOn(d: Tables, s: State<Key>, cfg: Config, drawn: set<string>, clock: int) {
    Wf(d, s, clock) && s.cfg == cfg && s.issued <= drawn
  }

  // ---------- one step ----------

  /** What the rotation finds in the tables is what it finds on the oracle's shards. */
  lemma PicksWins(ds: seq<Tables>, ss: seq<State<Key>>, cfg: Config, drawn: set<string>, clock: int, start: nat, k: Key)
    requires AllShown(ds, ss, cfg, drawn, clock) && Picks(ds, start, k)
    ensures Wins(ss, start, k)
  {
    var i :| 0 <= i < |ds| && PicksAt(ds, start, i, k);
    forall j | 0 <= j <= i
      ensures j < i ==> NothingClaimable(ss[Turn(start, |ss|, j)])
      ensures j == i ==> Oldest(ss[Turn(start, |ss|, j)], k)
    {
      var t := Turn(start, |ds|, j);
      assert ShownOn(ds[t], ss[t], cfg, drawn, clock);
      PickIsOldest(ds[t], ss[t], clock);
      assert j < i ==> NoneFree(ds[t]);
    }
    assert WinsAt(ss, start, i, k);
  }

  /** A faithful call on one shard. */
  lemma CallShown(d: Tables, s: State<Key>, cfg: Config, drawn: set<string>, clock: int, a: P.Timed, after: set<string>)
    requires ShownOn(d, s, cfg, drawn, clock) && P.Permitted(d, s, clock, a) && P.Faithful(d, cfg, a)
    requires after == drawn + if a.call.Claim? then {a.call.token} else {}
    ensures ShownOn(P.Step(d, cfg, a), History.Effect(s, P.Image(d, s, a)), cfg, after, a.now)
  {
    P.StepAgrees(d, s, clock, a);
    History.EffectCfg(s, P.Image(d, s, a));
    C.IssuedGrows(s, P.Image(d, s, a));
  }

  /** The other shards meanwhile. */
  lemma LaterShown(d: Tables, s: State<Key>, cfg: Config, drawn: set<string>, clock: int, after: set<string>, now: int)
    requires ShownOn(d, s, cfg, drawn, clock) && clock <= now && drawn <= after
    ensures ShownOn(d, s, cfg, after, now)
  {
    InvLater(s, clock, clock, now);
  }

  lemma SweepShown(ds: seq<Tables>, ss: seq<State<Key>>, hash: string -> nat, cfg: Config, drawn: set<string>,
      clock: int, x: Act)
    requires |ds| > 0 && AllShown(ds, ss, cfg, drawn, clock) && x.a.call.Sweep? && clock <= x.a.now
    requires x.a.call.bound <= x.a.now
    ensures AllShown(Step(ds, hash, cfg, x.a), C.Step(ss, hash, Image(ds, ss, hash, x).t), cfg, drawn, x.a.now)
  {
    var es, ts := Step(ds, hash, cfg, x.a), C.Step(ss, hash, Image(ds, ss, hash, x).t);
    forall i | 0 <= i < |es| ensures ShownOn(es[i], ts[i], cfg, drawn, x.a.now) {
      assert ShownOn(ds[i], ss[i], cfg, drawn, clock);
      CallShown(ds[i], ss[i], cfg, drawn, clock, x.a, drawn);
    }
  }

  lemma RoutedShown(ds: seq<Tables>, ss: seq<State<Key>>, hash: string -> nat, cfg: Config, drawn: set<string>, clock: int,
                    x: Act, h: nat, after: set<string>)
    requires |ds| > 0 && AllShown(ds, ss, cfg, drawn, clock) && !x.a.call.Sweep? && h == Home(hash, |ds|, KeyOf(x.a.call))
    requires P.Permitted(ds[h], ss[h], clock, x.a) && P.Faithful(ds[h], cfg, x.a)
    requires after == drawn + if x.a.call.Claim? then {x.a.call.token} else {}
    ensures AllShown(Step(ds, hash, cfg, x.a), C.Step(ss, hash, Image(ds, ss, hash, x).t), cfg, after, x.a.now)
  {
    var es, ts := Step(ds, hash, cfg, x.a), C.Step(ss, hash, Image(ds, ss, hash, x).t);
    forall i | 0 <= i < |es| ensures ShownOn(es[i], ts[i], cfg, after, x.a.now) {
      assert ShownOn(ds[i], ss[i], cfg, drawn, clock);
      if i == h {
        CallShown(ds[i], ss[i], cfg, drawn, clock, x.a, after);
      } else {
        LaterShown(ds[i], ss[i], cfg, drawn, clock, after, x.a.now);
      }
    }
  }

  /** What a rotation comes to is on the shard its key is routed to. */
  lemma PickedAtHome(whole: State<Key>, ds: seq<Tables>, ss: seq<State<Key>>, hash: string -> nat, cfg: Config,
                     drawn: set<string>, clock: int, start: nat, k: Key)
    requires Joined(whole, ss, hash) && AllShown(ds, ss, cfg, drawn, clock) && Picks(ds, start, k)
    ensures Pickable(ds[Home(hash, |ds|, k)], k)
  {
    var i :| 0 <= i < |ds| && PicksAt(ds, start, i, k);
    var t := Turn(start, |ds|, i);
    assert ShownOn(ds[t], ss[t], cfg, drawn, clock);
    PickIsOldest(ds[t], ss[t], clock);
    ClaimableAtHome(whole, ss, hash, t, k);
  }

  lemma StepFollows(whole: State<Key>, ds: seq<Tables>, ss: seq<State<Key>>, hash: string -> nat, cfg: Config,
                    drawn: set<string>, clock: int, x: Act, after: set<string>)
    requires Joined(whole, ss, hash) && AllShown(ds, ss, cfg, drawn, clock) && Permitted(ds, hash, cfg, drawn, clock, x)
    requires after == drawn + if x.a.call.Claim? then {x.a.call.token} else {}
    ensures C.Permitted(ss, drawn, clock, Image(ds, ss, hash, x))
    ensures AllShown(Step(ds, hash, cfg, x.a), C.Step(ss, hash, Image(ds, ss, hash, x).t), cfg, after, x.a.now)
  {
    if x.a.call.Sweep? {
      SweepShown(ds, ss, hash, cfg, drawn, clock, x);
    } else {
      var h := Home(hash, |ds|, KeyOf(x.a.call));
      if x.a.call.Claim? {
        PicksWins(ds, ss, cfg, drawn, clock, x.start, x.a.call.key);
        PickedAtHome(whole, ds, ss, hash, cfg, drawn, clock, x.start, x.a.call.key);
      }
      assert ShownOn(ds[h], ss[h], cfg, drawn, clock);
      RoutedShown(ds, ss, hash, cfg, drawn, clock, x, h, after);
    }
  }

  // ---------- runs ----------

  ghost function Run(ds: seq<Tables>, hash: string -> nat, cfg: Config, xs: seq<Act>): (r: seq<Tables>)
    requires |ds| > 0
    ensures |r| == |ds|
  {
    if xs == [] then ds else Step(Run(ds, hash, cfg, xs[..|xs| - 1]), hash, cfg, xs[|xs| - 1].a)
  }

  /** The run of the oracle's shards that goes with it. */
  ghost function Images(ds: seq<Tables>, ss: seq<State<Key>>, hash: string -> nat, cfg: Config, xs: seq<Act>): seq<C.Act>
    requires |ds| == |ss| > 0
  {
    if xs == [] then [] else
    var before := Images(ds, ss, hash, cfg, xs[..|xs| - 1]);
    before + [Image(Run(ds, hash, cfg, xs[..|xs| - 1]), C.Run(ss, hash, before), hash, xs[|xs| - 1])]
  }

  function Drawn(xs: seq<Act>): set<string> {
    if xs == [] then {} else
    Drawn(xs[..|xs| - 1]) + if xs[|xs| - 1].a.call.Claim? then {xs[|xs| - 1].a.call.token} else {}
  }

  function Clock(xs: seq<Act>): int {
    if xs == [] then 0 else xs[|xs| - 1].a.now
  }

  ghost predicate Legal(ds: seq<Tables>, hash: string -> nat, cfg: Config, xs: seq<Act>)
    requires |ds| > 0
  {
    xs == [] ||
    var before := xs[..|xs| - 1];
    Legal(ds, hash, cfg, before) && Permitted(Run(ds, hash, cfg, before), hash, cfg, Drawn(before), Clock(before), xs[|xs| - 1])
  }

  function EmptyTables(n: nat): seq<Tables> {
    seq(n, i requires 0 <= i < n => Tables(map[], map[], []))
  }

  lemma EmptyShown(cfg: Config, n: nat)
    requires cfg.threshold > 0 && cfg.maxWait >= 0 && cfg.maxAttempts > 0
    ensures AllShown(EmptyTables(n), C.EmptyShards(cfg, n), cfg, {}, 0)
  {
  }

  lemma {:induction false} SameDraws(ds: seq<Tables>, ss: seq<State<Key>>, hash: string -> nat, cfg: Config, xs: seq<Act>)
    requires |ds| == |ss| > 0
    ensures C.Drawn(Images(ds, ss, hash, cfg, xs)) == Drawn(xs) && C.Clock(Images(ds, ss, hash, cfg, xs)) == Clock(xs)
  {
    if xs != [] {
      var before, images := xs[..|xs| - 1], Images(ds, ss, hash, cfg, xs);
      SameDraws(ds, ss, hash, cfg, before);
      assert images[..|images| - 1] == Images(ds, ss, hash, cfg, before);
      C.DrawnGrows(images);
    }
  }

  /**
   Every run over any number of Postgres shards whose calls find rows that make them the oracle's own is a legal
   run of a cluster of oracles, whose shards the tables show at every point, and so a run of one queue.
   */
  lemma {:induction false} RunsAreRuns(cfg: Config, n: nat, hash: string -> nat, xs: seq<Act>)
    requires cfg.threshold > 0 && cfg.maxWait >= 0 && cfg.maxAttempts > 0
    requires n > 0 && Legal(EmptyTables(n), hash, cfg, xs)
    ensures var images := Images(EmptyTables(n), C.EmptyShards(cfg, n), hash, cfg, xs);
            && C.Legal(C.EmptyShards(cfg, n), hash, images) && |images| == |xs|
            && AllShown(Run(EmptyTables(n), hash, cfg, xs), C.Run(C.EmptyShards(cfg, n), hash, images), cfg, Drawn(xs), Clock(xs))
            && History.Legal(History.Start<Key>(cfg), C.Ops(images))
            && Joined(History.Run(History.Start<Key>(cfg), C.Ops(images)).queue, C.Run(C.EmptyShards(cfg, n), hash, images), hash)
  {
    var ds, ss := EmptyTables(n), C.EmptyShards(cfg, n);
    var images := Images(ds, ss, hash, cfg, xs);
    if xs == [] {
      EmptyShown(cfg, n);
    } else {
      var before := xs[..|xs| - 1];
      RunsAreRuns(cfg, n, hash, before);
      var earlier := Images(ds, ss, hash, cfg, before);
      SameDraws(ds, ss, hash, cfg, before);
      StepFollows(History.Run(History.Start<Key>(cfg), C.Ops(earlier)).queue, Run(ds, hash, cfg, before), C.Run(ss, hash, earlier),
                  hash, cfg, Drawn(before), Clock(before), xs[|xs| - 1], Drawn(xs));
      assert images[..|images| - 1] == earlier;
    }
    C.RunsAreRuns(cfg, n, hash, images);
  }

  // ---------- what the tables hold ----------

  lemma RunOfUnion(cfg: Config, n: nat, hash: string -> nat, xs: seq<Act>)
    requires n > 0 && xs != []
    ensures var ds, ss, before := EmptyTables(n), C.EmptyShards(cfg, n), xs[..|xs| - 1];
            var earlier := Images(ds, ss, hash, cfg, before);
            var t := Image(Run(ds, hash, cfg, before), C.Run(ss, hash, earlier), hash, xs[|xs| - 1]).t;
            History.Run(History.Start<Key>(cfg), C.Ops(Images(ds, ss, hash, cfg, xs)))
              == History.Next(History.Run(History.Start<Key>(cfg), C.Ops(earlier)), t)
  {
    var images := Images(EmptyTables(n), C.EmptyShards(cfg, n), hash, cfg, xs);
    var earlier := Images(EmptyTables(n), C.EmptyShards(cfg, n), hash, cfg, xs[..|xs| - 1]);
    assert images[..|images| - 1] == earlier;
    assert C.Ops(images)[..|images| - 1] == C.Ops(earlier);
  }

  lemma StepIndex(ds: seq<Tables>, hash: string -> nat, cfg: Config, x: Act, w: History.World<Key>,
      t: History.Timed<Key>, k: Key, h: nat)
    requires |ds| > 0 && h == Home(hash, |ds|, k) && P.SeqIsIndex(ds[h], w, k)
    requires t.op.Arrive? <==> x.a.call.Enqueue?
    requires t.op.Arrive? ==> t.op.key == x.a.call.key
    ensures P.SeqIsIndex(Step(ds, hash, cfg, x.a)[h], History.Next(w, t), k)
  {
    P.ArrivalsGrow(w, t, k);
    P.CounterMoves(ds[h], cfg, x.a, k);
  }

  /** The queue of the union after a run. */
  ghost function Union(cfg: Config, n: nat, hash: string -> nat, xs: seq<Act>): History.World<Key>
    requires n > 0
  {
    History.Run(History.Start<Key>(cfg), C.Ops(Images(EmptyTables(n), C.EmptyShards(cfg, n), hash, cfg, xs)))
  }

  lemma ImageArrives(ds: seq<Tables>, ss: seq<State<Key>>, hash: string -> nat, x: Act)
    requires |ds| == |ss| > 0
    ensures var op := Image(ds, ss, hash, x).t.op;
            (op.Arrive? <==> x.a.call.Enqueue?) && (op.Arrive? ==> op.key == x.a.call.key)
  {
  }

  lemma NextIndex(cfg: Config, n: nat, hash: string -> nat, xs: seq<Act>, k: Key, h: nat)
    requires n > 0 && h == Home(hash, n, k) && xs != []
    requires P.SeqIsIndex(Run(EmptyTables(n), hash, cfg, xs[..|xs| - 1])[h], Union(cfg, n, hash, xs[..|xs| - 1]), k)
    ensures P.SeqIsIndex(Run(EmptyTables(n), hash, cfg, xs)[h], Union(cfg, n, hash, xs), k)
  {
    var before, x := xs[..|xs| - 1], xs[|xs| - 1];
    var ds, ss := Run(EmptyTables(n), hash, cfg, before),
                  C.Run(C.EmptyShards(cfg, n), hash, Images(EmptyTables(n), C.EmptyShards(cfg, n), hash, cfg, before));
    RunOfUnion(cfg, n, hash, xs);
    ImageArrives(ds, ss, hash, x);
    StepIndex(ds, hash, cfg, x, Union(cfg, n, hash, before), Image(ds, ss, hash, x).t, k, h);
  }

  /** A key's counter on its shard is the index of its latest arrival. */
  lemma {:induction false} SeqsAreIndices(cfg: Config, n: nat, hash: string -> nat, xs: seq<Act>, k: Key, h: nat)
    requires n > 0 && h == Home(hash, n, k)
    ensures P.SeqIsIndex(Run(EmptyTables(n), hash, cfg, xs)[h], Union(cfg, n, hash, xs), k)
  {
    if xs != [] {
      SeqsAreIndices(cfg, n, hash, xs[..|xs| - 1], k, h);
      NextIndex(cfg, n, hash, xs, k, h);
    }
  }

  // ---------- a tenant stays on one shard ----------

  lemma StepAtHome(ds: seq<Tables>, hash: string -> nat, cfg: Config, a: P.Timed, i: nat, k: Key)
    requires i < |ds| && k in Step(ds, hash, cfg, a)[i].units && k !in ds[i].units
    ensures i == hash(k.workspace) % |ds|
  {
    P.CounterMoves(ds[i], cfg, a, k);
    HomeIs(hash, |ds|, k);
  }

  /** A key's row, live or spent, is on the shard that its workspace's hash decides. */
  lemma {:induction false} RowsAtHome(cfg: Config, n: nat, hash: string -> nat, xs: seq<Act>, i: nat, k: Key)
    requires i < n && k in Run(EmptyTables(n), hash, cfg, xs)[i].units
    ensures i == hash(k.workspace) % n
  {
    if xs != [] {
      var before := Run(EmptyTables(n), hash, cfg, xs[..|xs| - 1]);
      if k in before[i].units {
        RowsAtHome(cfg, n, hash, xs[..|xs| - 1], i, k);
      } else {
        StepAtHome(before, hash, cfg, xs[|xs| - 1].a, i, k);
      }
    }
  }

  /** So after every run two rows of one workspace, and with them their tasks, are on one shard. */
  lemma TenantStays(cfg: Config, n: nat, hash: string -> nat, xs: seq<Act>, i: nat, j: nat, k: Key, l: Key)
    requires i < n && j < n && k.workspace == l.workspace
    requires var ds := Run(EmptyTables(n), hash, cfg, xs); k in ds[i].units && l in ds[j].units
    ensures i == j == hash(k.workspace) % n
  {
    RowsAtHome(cfg, n, hash, xs, i, k);
    RowsAtHome(cfg, n, hash, xs, j, l);
  }

  // ---------- what a shard's tables hold ----------

  lemma TailRows(d: Tables, s: State<Key>, k: Key, q: int, arrivals: seq<Entry>, settled: nat)
    requires Shows(d, s) && settled <= |arrivals| && UnitOf(s, k).queue == arrivals[settled..]
    requires |arrivals| == if k in d.units then d.units[k].nextSeq + 1 else 0
    ensures (k, q) in d.tasks <==> settled <= q < |arrivals|
    ensures (k, q) in d.tasks ==>
              && d.tasks[(k, q)].payload == arrivals[q].task.payload && d.tasks[(k, q)].cost == arrivals[q].task.cost
              && d.tasks[(k, q)].enqueuedAt == arrivals[q].at
  {
    InRows(d.tasks, k, q);
    if k in d.units {
      TupleShown(d, s, k);
      if k in s.units {
        P.RowsAreTail(TupleAt(d, k), s.units[k].queue, arrivals, settled, q);
      }
    }
  }

  /** What a key's shard shows of it, and the numbers its arrivals have. */
  lemma KeyShown(cfg: Config, n: nat, hash: string -> nat, xs: seq<Act>, k: Key)
    returns (d: Tables, s: State<Key>, arrivals: seq<Entry>, settled: nat)
    requires cfg.threshold > 0 && cfg.maxWait >= 0 && cfg.maxAttempts > 0
    requires n > 0 && Legal(EmptyTables(n), hash, cfg, xs)
    ensures var w := Union(cfg, n, hash, xs);
            && d == Run(EmptyTables(n), hash, cfg, xs)[Home(hash, n, k)]
            && arrivals == History.Arrivals(w, k) && settled == History.Settled(History.Log(w, k))
    ensures Shows(d, s) && settled <= |arrivals| && UnitOf(s, k).queue == arrivals[settled..]
    ensures |arrivals| == if k in d.units then d.units[k].nextSeq + 1 else 0
  {
    var h := Home(hash, n, k);
    var images := Images(EmptyTables(n), C.EmptyShards(cfg, n), hash, cfg, xs);
    var w, ss := Union(cfg, n, hash, xs), C.Run(C.EmptyShards(cfg, n), hash, images);
    RunsAreRuns(cfg, n, hash, xs);
    SeqsAreIndices(cfg, n, hash, xs, k, h);
    C.ShardsKeepOrder(cfg, n, hash, images, k);
    d, s := Run(EmptyTables(n), hash, cfg, xs)[h], ss[h];
    assert ShownOn(d, s, cfg, Drawn(xs), Clock(xs));
    arrivals, settled := History.Arrivals(w, k), History.Settled(History.Log(w, k));
  }

  /**
   After every such run the tasks a key's shard holds are exactly the key's unsettled arrivals, each numbered by its
   place in the arrival order.
   */
  lemma TasksAreUnsettled(cfg: Config, n: nat, hash: string -> nat, xs: seq<Act>, k: Key, q: int)
    requires cfg.threshold > 0 && cfg.maxWait >= 0 && cfg.maxAttempts > 0
    requires n > 0 && Legal(EmptyTables(n), hash, cfg, xs)
    ensures var d := Run(EmptyTables(n), hash, cfg, xs)[Home(hash, n, k)];
            var w := Union(cfg, n, hash, xs);
            var arrivals := History.Arrivals(w, k);
            && ((k, q) in d.tasks <==> History.Settled(History.Log(w, k)) <= q < |arrivals|)
            && ((k, q) in d.tasks ==>
                  && d.tasks[(k, q)].payload == arrivals[q].task.payload && d.tasks[(k, q)].cost == arrivals[q].task.cost
                  && d.tasks[(k, q)].enqueuedAt == arrivals[q].at)
  {
    var d, s, arrivals, settled := KeyShown(cfg, n, hash, xs, k);
    TailRows(d, s, k, q, arrivals, settled);
  }
}
