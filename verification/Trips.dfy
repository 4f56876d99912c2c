/**
 The three trips of a drain as one worker makes them: a batch never outgrows what was asked for, and trips
 during which nobody else touches the member's stream bring what one uninterrupted drain would have brought.
 */
module Trips {
  import opened Contract
  import opened Oracle
  import opened Invariant
  import opened Streams
  import opened ShardState
  import opened SlotSteps
  import opened ShardSteps
  import opened ShardWorkers
  import opened Tokens
  import R = ShardRuns
  import W = Workers
  import H = History

  // ---------- how large a batch may be ----------

  /** How many entries a worker asked for when it last checked its lease. */
  function Wanted(f: Fleet, cfg: Config, xs: seq<Action>, a: nat): nat {
    if xs == [] then 0 else
    var before, x := xs[..|xs| - 1], xs[|xs| - 1];
    if Placed(Run(f, cfg, before), x) && x.step.Check? && x.step.a == a then x.step.max else Wanted(f, cfg, before, a)
  }

  predicate Fits(h: Hand, max: nat) {
    match h
    case Checked(_, _, wanted) => wanted == max
    case Reading(_, _, wanted, orphans) => wanted == max && |orphans| <= max
    case Working(_, _, batch, _) => 0 < |batch| <= max
    case _ => true
  }

  lemma {:induction false} FetchFits(es: seq<StreamEntry>, ids: seq<nat>)
    ensures |Fetch(es, ids)| <= |ids|
  {
    if ids != [] {
      FetchFits(es, ids[1..]);
    }
  }

  lemma OrphansFit(d: Keyspace, m: string, max: nat)
    ensures |Orphans(d, m, max)| <= max
  {
    var st := SlotAt(d, m).stream;
    FetchFits(st.entries, st.pel[..Min(max, |st.pel|)]);
  }

  /** Whatever else happens, the third trip fills the batch up to what was asked for and no further. */
  lemma BroughtFits(d: Keyspace, h: Hand)
    requires h.Reading? && |h.orphans| <= h.max
    ensures |Brought(d, h)| <= h.max
  {
  }

  lemma ActFits(f: Fleet, cfg: Config, x: Action, a: nat, max: nat)
    requires Placed(f, x) && a in f.hands && Fits(f.hands[a], max)
    ensures var n := if x.step.Check? && x.step.a == a then x.step.max else max;
            a in Act(f, cfg, x).hands && Fits(Act(f, cfg, x).hands[a], n)
  {
    if x.step.TakeOver? {
      OrphansFit(f.d, f.hands[x.step.a].m, f.hands[x.step.a].max);
    }
    if x.step.ReadOn? && x.step.a == a {
      BroughtFits(f.d, f.hands[a]);
    }
  }

  /** In every run of every fleet, permitted or not, a batch holds at most what its worker asked for. */
  lemma {:induction false} BatchesFit(f: Fleet, cfg: Config, xs: seq<Action>, a: nat)
    requires a in f.hands && (f.hands[a].Free? || f.hands[a].Claiming?)
    ensures var n := Run(f, cfg, xs); a in n.hands && Fits(n.hands[a], Wanted(f, cfg, xs, a))
  {
    if xs != [] {
      var before, x := xs[..|xs| - 1], xs[|xs| - 1];
      BatchesFit(f, cfg, before, a);
      if Placed(Run(f, cfg, before), x) {
        ActFits(Run(f, cfg, before), cfg, x, a, Wanted(f, cfg, before, a));
      }
    }
  }

  // ---------- what others do meanwhile ----------

  /** Calls that leave a member's stream alone. */
  predicate Spares(call: R.Call, m: string) {
    call.Reap? || call.Claim? || call.Heartbeat? || call.m != m
  }

  /** Somebody else's action, which neither adds to nor takes from the member's stream nor reads from it. */
  predicate Aside(f: Fleet, x: Action, a: nat, m: string) {
    Placed(f, x) ==>
      && Actor(x) != Some(a) && (x.step.ReadOn? ==> f.hands[x.step.a].m != m)
      && (CallOf(f, x).Some? ==> Spares(CallOf(f, x).value, m))
  }

  predicate AllAside(f: Fleet, cfg: Config, xs: seq<Action>, a: nat, m: string) {
    xs == [] || (AllAside(f, cfg, xs[..|xs| - 1], a, m) && Aside(Run(f, cfg, xs[..|xs| - 1]), xs[|xs| - 1], a, m))
  }

  /** A slot written elsewhere, or with the stream it had, leaves the member's stream as it was. */
  lemma SlotSpares(d: Keyspace, k: string, y: Option<Slot>, m: string)
    requires k != m || (y.Some? && y.value.stream == SlotAt(d, k).stream)
    ensures SlotAt(SetSlot(d, k, y), m).stream == SlotAt(d, m).stream
  {
    var e := SetSlot(d, k, y);
    if k != m {
      assert e.streams - {k} == d.streams - {k};
      assert m in e.streams - {k} <==> m in d.streams - {k};
    }
  }

  lemma CallSpares(d: Keyspace, cfg: Config, c: R.Timed, m: string)
    requires Spares(c.call, m)
    ensures SlotAt(R.Step(d, cfg, c), m).stream == SlotAt(d, m).stream
  {
    match c.call
    case Enqueue(k, payload, cost) =>
      SlotSpares(d, k, Some(Enqueued(SlotAt(d, k), payload, cost, cfg.threshold, cfg.maxWait, c.now)), m);
    case Claim(k, token, window) => SlotSpares(d, k, Some(Lent(SlotAt(d, k), WorkerOf(token), token, window, c.now)), m);
    case Heartbeat(k, _, extend) => SlotSpares(d, k, Some(Renewed(SlotAt(d, k), c.now + extend)), m);
    case Reap(_) =>
    case _ => BorneSpares(d, cfg, c, m);
  }

  lemma BorneSpares(d: Keyspace, cfg: Config, c: R.Timed, m: string)
    requires (c.call.Drain? || c.call.Ack? || c.call.Release? || c.call.Fail?) && c.call.m != m
    ensures SlotAt(R.Step(d, cfg, c), m).stream == SlotAt(d, m).stream
  {
    match c.call
    case Drain(k, _, max) =>
      SlotSpares(d, k, Some(SlotAt(d, k).(stream := SplitDrain(SlotAt(d, k).stream, max, 0).0)), m);
    case Ack(k, _, through) => SlotSpares(d, k, Acked(SlotAt(d, k), Acknowledged(d, k, through), c.now), m);
    case Release(k, _) =>
      SlotSpares(d, k, if SlotAt(d, k).stream.entries == [] then None else Some(Released(SlotAt(d, k), c.now)), m);
    case Fail(k, _, seqNo, _) =>
      SlotSpares(d, k, if SlotAt(d, k).stream.entries == [] then None
                       else Failed(SlotAt(d, k), seqNo, cfg.maxAttempts, c.now), m);
  }

  lemma AsideKeeps(f: Fleet, cfg: Config, x: Action, a: nat, m: string)
    requires Placed(f, x) && Aside(f, x, a, m) && a in f.hands
    ensures var n := Act(f, cfg, x);
            a in n.hands && n.hands[a] == f.hands[a] && SlotAt(n.d, m).stream == SlotAt(f.d, m).stream
  {
    if CallOf(f, x).Some? {
      CallSpares(f.d, cfg, R.Timed(x.now, CallOf(f, x).value), m);
    }
  }

  lemma {:induction false} AllAsideKeeps(f: Fleet, cfg: Config, xs: seq<Action>, a: nat, m: string)
    requires AllAside(f, cfg, xs, a, m) && a in f.hands
    ensures var n := Run(f, cfg, xs);
            a in n.hands && n.hands[a] == f.hands[a] && SlotAt(n.d, m).stream == SlotAt(f.d, m).stream
  {
    if xs != [] {
      var before, x := xs[..|xs| - 1], xs[|xs| - 1];
      AllAsideKeeps(f, cfg, before, a, m);
      if Placed(Run(f, cfg, before), x) {
        AsideKeeps(Run(f, cfg, before), cfg, x, a, m);
      }
    }
  }

  // ---------- the trips together ----------

  /** The second and the third trip around a foreign read are a split drain. */
  lemma TripsAreSplitDrain(d: Keyspace, h: Hand, st: Stream, stolen: nat)
    requires h.Reading? && h.orphans == Tasks(XAutoClaim(st, h.max))
    requires SlotAt(d, h.m).stream == XReadGroup(st, stolen).0
    ensures h.orphans + News(d, h) == Tasks(SplitDrain(st, h.max, stolen).1)
    ensures SlotAt(ReadFrom(d, h.m, Room(h)), h.m).stream == SplitDrain(st, h.max, stolen).0
  {
    var orphans, between := XAutoClaim(st, h.max), XReadGroup(st, stolen).0;
    if |orphans| < h.max {
      var r := XReadGroup(between, h.max - |orphans|);
      assert Tasks(orphans + r.1) == Tasks(orphans) + Tasks(r.1);
    } else {
      var r := XReadGroup(between, 0);
      assert r == (between, []);
      assert h.orphans + [] == h.orphans;
    }
  }

  /** With no foreign read in between, they bring the first entries of the live stream and deliver just these. */
  lemma TripsAreDrain(d: Keyspace, h: Hand, st: Stream)
    requires h.Reading? && h.orphans == Tasks(XAutoClaim(st, h.max))
    requires SlotAt(d, h.m).stream == st && StreamOk(st)
    ensures Brought(d, h) == Tasks(Queue(st.entries[..Min(h.max, |st.entries|)])) == Tasks(SplitDrain(st, h.max, 0).1)
    ensures SlotAt(ReadFrom(d, h.m, Room(h)), h.m).stream == SplitDrain(st, h.max, 0).0
  {
    assert XReadGroup(st, 0).0 == st;
    TripsAreSplitDrain(d, h, st, 0);
    DrainIsPrefix(st, h.max);
    AscendingQueue(st.entries, Min(h.max, |st.entries|));
    SortedStays(Tasks(SplitDrain(st, h.max, 0).1));
  }

  /** A worker's three trips, with what others do between them. */
  function Tripped(f: Fleet, cfg: Config, a: nat, max: nat, now: int, first: seq<Action>, second: seq<Action>): Fleet {
    var checked := Run(Run(f, cfg, [Action(now, Check(a, max))]), cfg, first);
    var taken := Run(Run(checked, cfg, [Action(now, TakeOver(a))]), cfg, second);
    Run(taken, cfg, [Action(now, ReadOn(a))])
  }

  predicate Undisturbed(f: Fleet, cfg: Config, a: nat, m: string, max: nat, now: int, first: seq<Action>, second: seq<Action>) {
    var begun := Run(f, cfg, [Action(now, Check(a, max))]);
    && AllAside(begun, cfg, first, a, m)
    && AllAside(Run(Run(begun, cfg, first), cfg, [Action(now, TakeOver(a))]), cfg, second, a, m)
  }

  lemma RunOne(f: Fleet, cfg: Config, x: Action)
    requires Placed(f, x)
    ensures Run(f, cfg, [x]) == Act(f, cfg, x)
  {
    assert [x][..0] == [];
    assert Run(f, cfg, []) == f;
  }

  /** The lease check, then whatever leaves the member alone. */
  lemma Begun(f: Fleet, cfg: Config, a: nat, max: nat, now: int, m: string, token: string, first: seq<Action>)
    returns (n: Fleet)
    requires a in f.hands && f.hands[a] == Claiming(m, token) && max >= 1 && Presents(f.d, m, token)
    requires AllAside(Run(f, cfg, [Action(now, Check(a, max))]), cfg, first, a, m)
    ensures n == Run(Run(f, cfg, [Action(now, Check(a, max))]), cfg, first)
    ensures a in n.hands && n.hands[a] == Checked(m, token, max) && SlotAt(n.d, m).stream == SlotAt(f.d, m).stream
  {
    RunOne(f, cfg, Action(now, Check(a, max)));
    AllAsideKeeps(Act(f, cfg, Action(now, Check(a, max))), cfg, first, a, m);
    n := Run(Act(f, cfg, Action(now, Check(a, max))), cfg, first);
  }

  /** The second trip, then the same. */
  lemma Taken(f: Fleet, cfg: Config, a: nat, max: nat, now: int, m: string, token: string, second: seq<Action>)
    returns (n: Fleet)
    requires a in f.hands && f.hands[a] == Checked(m, token, max)
    requires AllAside(Run(f, cfg, [Action(now, TakeOver(a))]), cfg, second, a, m)
    ensures n == Run(Run(f, cfg, [Action(now, TakeOver(a))]), cfg, second)
    ensures a in n.hands && n.hands[a] == Reading(m, token, max, Orphans(f.d, m, max))
    ensures SlotAt(n.d, m).stream == SlotAt(f.d, m).stream
  {
    RunOne(f, cfg, Action(now, TakeOver(a)));
    AllAsideKeeps(Act(f, cfg, Action(now, TakeOver(a))), cfg, second, a, m);
    n := Run(Act(f, cfg, Action(now, TakeOver(a))), cfg, second);
  }

  /** The third trip, when it brings anything. */
  lemma ReadLast(f: Fleet, cfg: Config, a: nat, now: int, h: Hand)
    requires a in f.hands && f.hands[a] == h && h.Reading? && Brought(f.d, h) != []
    ensures var x := Action(now, ReadOn(a));
            Run(f, cfg, [x]) == Take(f.(d := ReadFrom(f.d, h.m, Room(h))), a, Working(h.m, h.token, Brought(f.d, h), 0))
  {
    RunOne(f, cfg, Action(now, ReadOn(a)));
  }

  /**
   Three trips of a holder while nobody else touches the member's stream: the batch is the first entries of
   that stream, as many as were asked for or there are, and afterwards just these and what had been
   delivered before are on the pending list.
   */
  lemma TripsBringFirst(f: Fleet, cfg: Config, a: nat, m: string, token: string, max: nat, now: int,
                        first: seq<Action>, second: seq<Action>)
    requires a in f.hands && f.hands[a] == Claiming(m, token) && max >= 1 && Presents(f.d, m, token)
    requires StreamOk(SlotAt(f.d, m).stream) && SlotAt(f.d, m).stream.entries != []
    requires Undisturbed(f, cfg, a, m, max, now, first, second)
    ensures var st, n := SlotAt(f.d, m).stream, Tripped(f, cfg, a, max, now, first, second);
            var after, size := SlotAt(n.d, m).stream, Min(max, |st.entries|);
            && a in n.hands && n.hands[a] == Working(m, token, Tasks(Queue(st.entries[..size])), 0)
            && StreamOk(after) && after.entries == st.entries && |after.pel| == Max(|st.pel|, size)
  {
    var st := SlotAt(f.d, m).stream;
    var checked := Begun(f, cfg, a, max, now, m, token, first);
    var taken := Taken(checked, cfg, a, max, now, m, token, second);
    TripsAreDrain(taken.d, taken.hands[a], st);
    ReadLast(taken, cfg, a, now, taken.hands[a]);
    DrainIsPrefix(st, max);
  }

  lemma StoredDrain(d: Keyspace, m: string, max: nat, count: nat)
    requires m in d.hashes && m in d.streams
    requires SlotAt(ReadFrom(d, m, count), m).stream == SplitDrain(SlotAt(d, m).stream, max, 0).0
    ensures ReadFrom(d, m, count) == DrainFrom(d, m, max)
  {
    ScoresKept(d, m, SlotAt(d, m).(stream := SplitDrain(SlotAt(d, m).stream, max, 0).0));
    assert d.hashes[m := d.hashes[m]] == d.hashes;
  }

  lemma ReadIsDrain(d: Keyspace, h: Hand)
    requires h.Reading? && h.orphans == Orphans(d, h.m, h.max) && h.max >= 1
    requires h.m in d.hashes && h.m in d.streams && StreamOk(d.streams[h.m]) && d.streams[h.m].entries != []
    ensures ReadFrom(d, h.m, Room(h)) == DrainFrom(d, h.m, h.max)
    ensures Brought(d, h) == Tasks(SplitDrain(SlotAt(d, h.m).stream, h.max, 0).1) != []
  {
    TripsAreDrain(d, h, SlotAt(d, h.m).stream);
    StoredDrain(d, h.m, h.max, Room(h));
  }

  /** With nothing at all between them the whole keyspace is left as one uninterrupted drain leaves it. */
  lemma TripsAreOneDrain(f: Fleet, cfg: Config, a: nat, m: string, token: string, max: nat, now: int)
    requires a in f.hands && f.hands[a] == Claiming(m, token) && max >= 1 && Presents(f.d, m, token)
    requires StreamOk(SlotAt(f.d, m).stream) && SlotAt(f.d, m).stream.entries != [] && m in f.d.streams
    ensures Tripped(f, cfg, a, max, now, [], []) ==
              Take(f.(d := DrainFrom(f.d, m, max)), a, Working(m, token, Tasks(SplitDrain(SlotAt(f.d, m).stream, max, 0).1), 0))
  {
    var h := Reading(m, token, max, Orphans(f.d, m, max));
    RunOne(f, cfg, Action(now, Check(a, max)));
    var checked := Take(f, a, Checked(m, token, max));
    RunOne(checked, cfg, Action(now, TakeOver(a)));
    var taken := Take(f, a, h);
    ReadIsDrain(f.d, h);
    ReadLast(taken, cfg, a, now, h);
  }

  /** In every run such trips answer as the oracle's drain does. */
  lemma TripsAnswer(workers: set<nat>, cfg: Config, xs: seq<Action>, a: nat, m: string, token: string, max: nat, now: int,
                    first: seq<Action>, second: seq<Action>)
    requires cfg.threshold > 0 && cfg.maxWait >= 0 && cfg.maxAttempts > 0 && max >= 1
    requires Legal(Opening(workers), IdleSystem(workers, cfg), cfg, xs)
    requires var f := Run(Opening(workers), cfg, xs);
             && a in f.hands && f.hands[a] == Claiming(m, token) && Presents(f.d, m, token)
             && Undisturbed(f, cfg, a, m, max, now, first, second)
    ensures var f := Run(Opening(workers), cfg, xs);
            var s := W.Run(IdleSystem(workers, cfg), Images(Opening(workers), cfg, xs)).world.queue;
            var n := Tripped(f, cfg, a, max, now, first, second);
            && a in n.hands && n.hands[a].Working? && n.hands[a].batch != []
            && Drain(s, Bearer(m, token), max) == Ok(n.hands[a].batch)
  {
    OpeningMirrors(workers, cfg);
    RunMirrors(Opening(workers), IdleSystem(workers, cfg), cfg, xs);
    TripsAnswerFrom(Run(Opening(workers), cfg, xs), W.Run(IdleSystem(workers, cfg), Images(Opening(workers), cfg, xs)),
                    cfg, a, m, token, max, now, first, second);
  }

  lemma HolderAnswer(d: Keyspace, s: State<string>, clock: int, m: string, token: string, max: nat)
    requires Wf(d, s, clock) && Presents(d, m, token)
    ensures var st := SlotAt(d, m).stream;
            && StreamOk(st) && st.entries != []
            && Drain(s, Bearer(m, token), max) == Ok(Tasks(Queue(st.entries[..Min(max, |st.entries|)])))
  {
    DrainSimulates(d, s, clock, m, token, max);
    KnowsStream(d, s, clock, m);
    DrainIsPrefix(SlotAt(d, m).stream, max);
  }

  lemma TripsAnswerFrom(f: Fleet, s: W.System<string>, cfg: Config, a: nat, m: string, token: string, max: nat, now: int,
                        first: seq<Action>, second: seq<Action>)
    requires Mirrored(f, s, cfg) && max >= 1
    requires a in f.hands && f.hands[a] == Claiming(m, token) && Presents(f.d, m, token)
    requires Undisturbed(f, cfg, a, m, max, now, first, second)
    ensures var n := Tripped(f, cfg, a, max, now, first, second);
            && a in n.hands && n.hands[a].Working? && n.hands[a].batch != []
            && Drain(s.world.queue, Bearer(m, token), max) == Ok(n.hands[a].batch)
  {
    HolderAnswer(f.d, s.world.queue, s.world.clock, m, token, max);
    TripsBringFirst(f, cfg, a, m, token, max, now, first, second);
  }
}
