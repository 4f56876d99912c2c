/**
 The retry budget: which failures the unit's counter counts, and how often a task that is dead-lettered
 has really failed.
 */
module Retries {
  import opened Contract
  import opened Oracle
  import opened Invariant
  import opened History
  import opened Tokens

  /** A failure reported under a held lease of k. */
  ghost predicate Faults<K>(s: State<K>, t: Timed<K>, k: K) {
    t.op.Fault? && t.op.claim.key == k && Held(s, t.op.claim)
  }

  /** A failure that sends the head of k to the dead letters. */
  ghost predicate Buries<K>(s: State<K>, t: Timed<K>, k: K) {
    Faults(s, t, k) && Poison(s.units[k], t.op.seqNo, s.cfg.maxAttempts)
  }

  /** A step that starts the count of failures over: a burial, or any acknowledgement under a held lease. */
  ghost predicate StartsOver<K>(s: State<K>, t: Timed<K>, k: K) {
    Buries(s, t, k) || (t.op.Settle? && t.op.claim.key == k && Held(s, t.op.claim))
  }

  /** The arrival that has a sequence number in the unit of k as it is now. */
  function Place<K>(w: World<K>, k: K, seqNo: int): int {
    Head(w, k) + seqNo - if Pending(w, k) == [] then 0 else Pending(w, k)[0].task.seqNo
  }

  lemma PlaceIsArrival<K(!new)>(w: World<K>, k: K, seqNo: int, i: int)
    requires HistoryInv(w) && Head(w, k) <= i < |Arrivals(w, k)|
    ensures i >= 0 && (Place(w, k, seqNo) == i <==> Arrivals(w, k)[i].task.seqNo == seqNo)
  {
    assert KeyHistory(w, k);
    PlaceInRun(w, k, seqNo, i);
  }

  lemma PlaceInRun<K>(w: World<K>, k: K, seqNo: int, i: int)
    requires KeyHistory(w, k) && Contiguous(UnitOf(w.queue, k)) && Head(w, k) <= i < |Arrivals(w, k)|
    ensures i >= 0 && (Place(w, k, seqNo) == i <==> Arrivals(w, k)[i].task.seqNo == seqNo)
  {
    assert Pending(w, k)[i - Head(w, k)] == Arrivals(w, k)[i];
  }

  /** The arrival a step reports as failed, if it reports one under a held lease of k. */
  ghost function Naming<K>(w: World<K>, t: Timed<K>, k: K): seq<int> {
    if Faults(w.queue, t, k) then [Place(w, k, t.op.seqNo)] else []
  }

  /** The arrivals that the failures of k named since the count last started over, in order. */
  ghost function Named<K>(w: World<K>, ts: seq<Timed<K>>, k: K): seq<int> {
    if ts == [] then [] else
    var before, t := ts[..|ts| - 1], ts[|ts| - 1];
    if StartsOver(Run(w, before).queue, t, k) then [] else Named(w, before, k) + Naming(Run(w, before), t, k)
  }

  /** The arrivals that all failures of k named over the whole run. */
  ghost function AllNamed<K>(w: World<K>, ts: seq<Timed<K>>, k: K): seq<int> {
    if ts == [] then [] else
    AllNamed(w, ts[..|ts| - 1], k) + Naming(Run(w, ts[..|ts| - 1]), ts[|ts| - 1], k)
  }

  /** Those named up to the step that last started the count over. */
  ghost function Earlier<K>(w: World<K>, ts: seq<Timed<K>>, k: K): seq<int> {
    if ts == [] then [] else
    if StartsOver(Run(w, ts[..|ts| - 1]).queue, ts[|ts| - 1], k) then AllNamed(w, ts, k) else Earlier(w, ts[..|ts| - 1], k)
  }

  /** How many of them named one arrival: its own failures. */
  ghost function Own(named: seq<int>, i: int): nat {
    multiset(named)[i]
  }

  // ---------- counting ----------

  lemma OwnPush(named: seq<int>, n: int, i: int)
    ensures Own(named + [n], i) == Own(named, i) + if n == i then 1 else 0
  {
  }

  /** An arrival's own failures are at most all of them, and all of them only if no other was named. */
  lemma {:induction false} OwnIsPart(named: seq<int>, i: int)
    ensures Own(named, i) <= |named|
    ensures Own(named, i) == |named| <==> forall p :: 0 <= p < |named| ==> named[p] == i
  {
    if named != [] {
      var before, n := named[..|named| - 1], named[|named| - 1];
      assert named == before + [n];
      OwnPush(before, n, i);
      OwnIsPart(before, i);
    }
  }

  /** If an arrival is named only at the first n places, it failed at most n times; n times only if at all of them. */
  lemma {:induction false} OwnUpTo(named: seq<int>, i: int, n: nat)
    requires forall p :: 0 <= p < |named| && named[p] == i ==> p < n
    ensures Own(named, i) <= n
    ensures Own(named, i) == n <==> n <= |named| && forall p :: 0 <= p < n ==> named[p] == i
  {
    if named == [] {
    } else if |named| <= n {
      OwnIsPart(named, i);
    } else {
      var before, last := named[..|named| - 1], named[|named| - 1];
      assert named == before + [last];
      OwnPush(before, last, i);
      OwnUpTo(before, i, n);
    }
  }

  // ---------- the counter counts every failure ----------

  lemma AttemptsMove<K>(s: State<K>, t: Timed<K>, k: K)
    ensures var e := Effect(s, t);
            UnitOf(e, k).attempts == if StartsOver(s, t, k) then 0
                                     else UnitOf(s, k).attempts + if Faults(s, t, k) then 1 else 0
  {
  }

  /**
   Over every run the unit's counter is the number of failures named since it last started over, the
   head's own and any other's alike. So it bounds the head's own failures, and equals them exactly when
   no other arrival was named.
   */
  lemma {:induction false} CounterCountsAll<K>(cfg: Config, ts: seq<Timed<K>>, k: K, head: int)
    ensures var named, u := Named(Start<K>(cfg), ts, k), UnitOf(Run(Start<K>(cfg), ts).queue, k);
            && u.attempts == |named| && Own(named, head) <= u.attempts
            && (Own(named, head) == u.attempts <==> forall p :: 0 <= p < |named| ==> named[p] == head)
  {
    OwnIsPart(Named(Start<K>(cfg), ts, k), head);
    if ts != [] {
      var before, t := ts[..|ts| - 1], ts[|ts| - 1];
      CounterCountsAll(cfg, before, k, head);
      var w := Run(Start<K>(cfg), before);
      AttemptsMove(w.queue, t, k);
      NextIs(w, t);
    }
  }

  lemma {:induction false} Stretches<K>(w: World<K>, ts: seq<Timed<K>>, k: K)
    ensures AllNamed(w, ts, k) == Earlier(w, ts, k) + Named(w, ts, k)
  {
    if ts != [] {
      Stretches(w, ts[..|ts| - 1], k);
    }
  }

  /**
   All failures an arrival ever had are those the counter still counts and those from before it last
   started over; so the counter knows of all of them if and only if none came before.
   */
  lemma OwnOverall<K>(w: World<K>, ts: seq<Timed<K>>, k: K, i: int)
    ensures Own(AllNamed(w, ts, k), i) == Own(Earlier(w, ts, k), i) + Own(Named(w, ts, k), i)
    ensures Own(AllNamed(w, ts, k), i) == Own(Named(w, ts, k), i) <==> i !in Earlier(w, ts, k)
  {
    Stretches(w, ts, k);
    assert multiset(Earlier(w, ts, k))[i] == 0 <==> i !in multiset(Earlier(w, ts, k));
  }

  // ---------- the head is buried in time ----------

  /** The head never failed at a place where the cap was already reached: it would have been buried there. */
  ghost predicate InTime(named: seq<int>, head: int, cap: int) {
    forall p :: 0 <= p < |named| && named[p] == head ==> p + 1 < cap
  }

  lemma HeadStays<K>(w: World<K>, t: Timed<K>, k: K, n: World<K>)
    requires n == Next(w, t) && Head(w, k) >= 0 && !StartsOver(w.queue, t, k)
    ensures Head(n, k) == Head(w, k)
  {
    match t.op
    case Arrive(_, _, _) =>
      if t.op.key == k {
        ArriveParts(w, t);
      } else {
        ArriveOther(w, t, k);
      }
    case Settle(_, _) => var gone := SettleParts(w, t, k, n);
    case Fault(_, _, _) => var d := FaultParts(w, t, k, n);
    case _ => QuietParts(w, t, k);
  }

  /** A failure buries exactly if it names the head and the counter, with it, reaches the cap. */
  lemma BuriesIf<K>(w: World<K>, t: Timed<K>, k: K)
    requires Faults(w.queue, t, k) && Pending(w, k) != []
    ensures Buries(w.queue, t, k) <==>
              Place(w, k, t.op.seqNo) == Head(w, k) && UnitOf(w.queue, k).attempts + 1 >= w.queue.cfg.maxAttempts
  {
  }

  lemma HeadLives<K(!new)>(w: World<K>, k: K)
    requires HistoryInv(w)
    ensures Head(w, k) >= 0 && (k in w.queue.units ==> Pending(w, k) != [])
  {
    assert KeyHistory(w, k);
  }

  lemma InTimeStep<K>(w: World<K>, t: Timed<K>, k: K, named: seq<int>, more: seq<int>)
    requires !StartsOver(w.queue, t, k) && (k in w.queue.units ==> Pending(w, k) != [])
    requires UnitOf(w.queue, k).attempts == |named| && more == Naming(w, t, k)
    requires InTime(named, Head(w, k), w.queue.cfg.maxAttempts)
    ensures InTime(named + more, Head(w, k), w.queue.cfg.maxAttempts)
  {
    if Faults(w.queue, t, k) {
      BuriesIf(w, t, k);
    }
  }

  lemma {:induction false} RunInTime<K(!new)>(cfg: Config, ts: seq<Timed<K>>, k: K)
    requires cfg.threshold > 0 && cfg.maxWait >= 0 && cfg.maxAttempts > 0 && Legal(Start<K>(cfg), ts)
    ensures var w := Run(Start<K>(cfg), ts);
            w.queue.cfg == cfg && HistoryInv(w) && InTime(Named(Start<K>(cfg), ts, k), Head(w, k), cfg.maxAttempts)
  {
    StartHistory<K>(cfg);
    RunHistory(Start<K>(cfg), ts);
    if ts != [] {
      var before, t := ts[..|ts| - 1], ts[|ts| - 1];
      RunInTime(cfg, before, k);
      var w := Run(Start<K>(cfg), before);
      NextIs(w, t);
      CounterCountsAll(cfg, before, k, 0);
      EffectCfg(w.queue, t);
      if !StartsOver(w.queue, t, k) {
        HeadLives(w, k);
        InTimeStep(w, t, k, Named(Start<K>(cfg), before, k), Naming(w, t, k));
        HeadStays(w, t, k, Next(w, t));
      }
    }
  }

  /**
   A head never gets past the cap: after every run the counted failures of its own are fewer than the cap,
   and the next one that makes them as many buries it. So does any at which all counted ones are as many.
   */
  lemma HeadBuriedInTime<K(!new)>(cfg: Config, ts: seq<Timed<K>>, t: Timed<K>, k: K)
    requires cfg.threshold > 0 && cfg.maxWait >= 0 && cfg.maxAttempts > 0 && Legal(Start<K>(cfg), ts)
    ensures var w, named := Run(Start<K>(cfg), ts), Named(Start<K>(cfg), ts, k);
            && Own(named, Head(w, k)) < cfg.maxAttempts
            && (Faults(w.queue, t, k) && Place(w, k, t.op.seqNo) == Head(w, k) ==>
                  && (Own(named, Head(w, k)) + 1 == cfg.maxAttempts ==> Buries(w.queue, t, k))
                  && (Buries(w.queue, t, k) <==> |named| + 1 >= cfg.maxAttempts))
  {
    RunInTime(cfg, ts, k);
    var w := Run(Start<K>(cfg), ts);
    HeadLives(w, k);
    CounterCountsAll(cfg, ts, k, Head(w, k));
    OwnUpTo(Named(Start<K>(cfg), ts, k), Head(w, k), cfg.maxAttempts - 1);
    if Faults(w.queue, t, k) {
      BuriesIf(w, t, k);
    }
  }

  /**
   When a failure buries the head, the failures it has had since the counter was last zeroed, this one
   included, are at most maxAttempts; and exactly as many if and only if the first maxAttempts - 1 counted
   were all its own. They are all it ever had if and only if it was not named before that.
   */
  lemma BurialAtOwnCap<K(!new)>(cfg: Config, ts: seq<Timed<K>>, t: Timed<K>, k: K)
    requires cfg.threshold > 0 && cfg.maxWait >= 0 && cfg.maxAttempts > 0 && Legal(Start<K>(cfg), ts)
    requires Buries(Run(Start<K>(cfg), ts).queue, t, k)
    ensures var w, named, head := Start<K>(cfg), Named(Start<K>(cfg), ts, k), Place(Run(Start<K>(cfg), ts), k, t.op.seqNo);
            && head == Head(Run(w, ts), k) && cfg.maxAttempts <= |named| + 1 && Own(named, head) + 1 <= cfg.maxAttempts
            && (Own(named, head) + 1 == cfg.maxAttempts <==>
                  forall p :: 0 <= p < cfg.maxAttempts - 1 ==> named[p] == head)
            && Own(AllNamed(w, ts, k), head) == Own(named, head) + Own(Earlier(w, ts, k), head)
            && (Own(AllNamed(w, ts, k), head) == Own(named, head) <==> head !in Earlier(w, ts, k))
  {
    RunInTime(cfg, ts, k);
    var w := Run(Start<K>(cfg), ts);
    HeadLives(w, k);
    BuriesIf(w, t, k);
    CounterCountsAll(cfg, ts, k, Head(w, k));
    OwnUpTo(Named(Start<K>(cfg), ts, k), Head(w, k), cfg.maxAttempts - 1);
    OwnOverall(Start<K>(cfg), ts, k, Head(w, k));
  }

  // ---------- runs on one unit of two tasks ----------

  /** Two tasks at threshold, or only the second of them once the first has gone. */
  function StuckUnit(cfg: Config, gone: bool, attempts: nat): Unit {
    var first, second := Entry(Task(0, "first", cfg.threshold), 1), Entry(Task(1, "second", cfg.threshold), 1);
    Unit(if gone then [second] else [first, second], 2, if gone then cfg.threshold else 2 * cfg.threshold,
         cfg.threshold, cfg.maxWait, 1, 1 + cfg.maxWait, true, None, attempts)
  }

  /** It is free, and has been claimed n times before. */
  function Stuck<K>(cfg: Config, k: K, gone: bool, attempts: nat, n: nat): State<K> {
    State(map[k := StuckUnit(cfg, gone, attempts)], [], set i | 0 <= i < n :: Decimal(i), cfg)
  }

  /** It is leased by its claim number n. */
  function Leased<K>(cfg: Config, k: K, gone: bool, attempts: nat, n: nat): State<K> {
    Grant(Stuck(cfg, k, gone, attempts, n), k, "w", Decimal(n), 0, 1)
  }

  function ClaimNo<K>(k: K, n: nat): Claimed<K> {
    Claimed(k, "w", Decimal(n), 1)
  }

  function TakeNo<K>(k: K, n: nat): Timed<K> {
    Timed(1, Take(k, "w", Decimal(n), 0))
  }

  function FaultNo<K>(k: K, n: nat, seqNo: int): Timed<K> {
    Timed(1, Fault(ClaimNo(k, n), seqNo, "fault"))
  }

  function SettleNo<K>(k: K, n: nat, through: int): Timed<K> {
    Timed(1, Settle(ClaimNo(k, n), through))
  }

  /** A run from the start that leaves a state, in which failures have named these arrivals of two. */
  ghost predicate Leaves<K>(cfg: Config, ts: seq<Timed<K>>, k: K, s: State<K>, all: seq<int>) {
    && Legal(Start<K>(cfg), ts) && Run(Start<K>(cfg), ts).queue == s && Run(Start<K>(cfg), ts).clock == 1
    && |Arrivals(Run(Start<K>(cfg), ts), k)| == 2 && AllNamed(Start<K>(cfg), ts, k) == all
  }

  lemma NamedRunGrows<K>(w: World<K>, ts: seq<Timed<K>>, t: Timed<K>, k: K)
    requires Legal(w, ts) && Enabled(Run(w, ts), t)
    ensures Legal(w, ts + [t]) && Run(w, ts + [t]) == Next(Run(w, ts), t)
    ensures AllNamed(w, ts + [t], k) == AllNamed(w, ts, k) + Naming(Run(w, ts), t, k)
  {
    assert (ts + [t])[..|ts|] == ts;
  }

  lemma ArrivalsStay<K>(w: World<K>, t: Timed<K>, k: K)
    requires !t.op.Arrive?
    ensures Arrivals(Next(w, t), k) == Arrivals(w, k)
  {
  }

  lemma LeavesMore<K>(cfg: Config, ts: seq<Timed<K>>, k: K, s: State<K>, all: seq<int>, t: Timed<K>, n: State<K>,
      more: seq<int>)
    requires Leaves(cfg, ts, k, s, all) && !t.op.Arrive? && t.now == 1
    requires Enabled(Run(Start<K>(cfg), ts), t) && Effect(s, t) == n && more == Naming(Run(Start<K>(cfg), ts), t, k)
    ensures Leaves(cfg, ts + [t], k, n, all + more)
  {
    var w := Run(Start<K>(cfg), ts);
    NamedRunGrows(Start<K>(cfg), ts, t, k);
    NextIs(w, t);
    ArrivalsStay(w, t, k);
  }

  lemma Taken<K>(cfg: Config, ts: seq<Timed<K>>, k: K, gone: bool, attempts: nat, n: nat, all: seq<int>)
    requires Leaves(cfg, ts, k, Stuck(cfg, k, gone, attempts, n), all)
    ensures Leaves(cfg, ts + [TakeNo(k, n)], k, Leased(cfg, k, gone, attempts, n), all)
  {
    forall i | 0 <= i < n ensures Decimal(i) != Decimal(n) {
      if Decimal(i) == Decimal(n) {
        DecimalInjective(i, n);
      }
    }
    LeavesMore(cfg, ts, k, Stuck(cfg, k, gone, attempts, n), all, TakeNo(k, n), Leased(cfg, k, gone, attempts, n), []);
    assert all + [] == all;
  }

  /** The numbers of the two tasks are their places. */
  lemma NamingIs<K>(cfg: Config, w: World<K>, k: K, gone: bool, attempts: nat, n: nat, seqNo: int)
    requires w.queue == Leased(cfg, k, gone, attempts, n) && |Arrivals(w, k)| == 2
    ensures Naming(w, FaultNo(k, n, seqNo), k) == [seqNo] && Naming(w, SettleNo(k, n, seqNo), k) == []
    ensures Head(w, k) == if gone then 1 else 0
  {
  }

  lemma FailStuck<K>(cfg: Config, k: K, gone: bool, attempts: nat, n: nat, seqNo: int)
    requires seqNo == (if gone then 1 else 0) ==> attempts + 1 < cfg.maxAttempts
    ensures Effect(Leased(cfg, k, gone, attempts, n), FaultNo(k, n, seqNo)) == Stuck(cfg, k, gone, attempts + 1, n + 1)
  {
    var s := Leased(cfg, k, gone, attempts, n);
    FailShape(s, ClaimNo(k, n), seqNo, "fault", 1);
    assert (set i | 0 <= i < n + 1 :: Decimal(i)) == (set i | 0 <= i < n :: Decimal(i)) + {Decimal(n)};
    StuckFails(cfg, gone, attempts, seqNo, Lease("w", Decimal(n), 0, 1));
    assert map[k := s.units[k]][k := StuckUnit(cfg, gone, attempts + 1)] == map[k := StuckUnit(cfg, gone, attempts + 1)];
  }

  lemma StuckFails(cfg: Config, gone: bool, attempts: nat, seqNo: int, lease: Lease)
    requires seqNo == (if gone then 1 else 0) ==> attempts + 1 < cfg.maxAttempts
    ensures var u := StuckUnit(cfg, gone, attempts).(lease := Some(lease));
            && !Poison(u, seqNo, cfg.maxAttempts)
            && FailUnit(u, seqNo, cfg.maxAttempts, 1) == Some(StuckUnit(cfg, gone, attempts + 1))
  {
  }

  lemma Failed<K>(cfg: Config, ts: seq<Timed<K>>, k: K, gone: bool, attempts: nat, n: nat, all: seq<int>, seqNo: int)
    requires Leaves(cfg, ts, k, Leased(cfg, k, gone, attempts, n), all)
    requires seqNo == (if gone then 1 else 0) ==> attempts + 1 < cfg.maxAttempts
    ensures Leaves(cfg, ts + [FaultNo(k, n, seqNo)], k, Stuck(cfg, k, gone, attempts + 1, n + 1), all + [seqNo])
  {
    FailStuck(cfg, k, gone, attempts, n, seqNo);
    NamingIs(cfg, Run(Start<K>(cfg), ts), k, gone, attempts, n, seqNo);
    LeavesMore(cfg, ts, k, Leased(cfg, k, gone, attempts, n), all, FaultNo(k, n, seqNo),
               Stuck(cfg, k, gone, attempts + 1, n + 1), [seqNo]);
  }

  /** Acknowledging the first of the two tasks, or nothing at all, keeps the lease and zeroes the counter. */
  lemma StuckSettles(cfg: Config, attempts: nat, lease: Lease, all: bool)
    requires cfg.threshold > 0 && lease.window == 0 && lease.expires == 1
    ensures AckUnit(StuckUnit(cfg, false, attempts).(lease := Some(lease)), if all then 0 else -1, 1)
              == Some(StuckUnit(cfg, all, 0).(lease := Some(lease)))
  {
    var u := StuckUnit(cfg, false, attempts).(lease := Some(lease));
    CoveredIs(u.queue, if all then 0 else -1, if all then 1 else 0);
    assert u.queue[..1] == [u.queue[0]];
    TotalOne(u.queue[0]);
    assert u.queue[0..] == u.queue && u.queue[1..] == StuckUnit(cfg, true, 0).queue;
  }

  lemma SettleStuck<K>(cfg: Config, k: K, attempts: nat, n: nat, all: bool)
    requires cfg.threshold > 0
    ensures Effect(Leased(cfg, k, false, attempts, n), SettleNo(k, n, if all then 0 else -1)) == Leased(cfg, k, all, 0, n)
  {
    var s, lease := Leased(cfg, k, false, attempts, n), Lease("w", Decimal(n), 0, 1);
    StuckSettles(cfg, attempts, lease, all);
    var u := StuckUnit(cfg, all, 0).(lease := Some(lease));
    assert map[k := s.units[k]][k := u] == map[k := StuckUnit(cfg, all, 0)][k := u];
  }

  lemma Settled<K>(cfg: Config, ts: seq<Timed<K>>, k: K, attempts: nat, n: nat, named: seq<int>, all: bool)
    requires cfg.threshold > 0 && Leaves(cfg, ts, k, Leased(cfg, k, false, attempts, n), named)
    ensures Leaves(cfg, ts + [SettleNo(k, n, if all then 0 else -1)], k, Leased(cfg, k, all, 0, n), named)
  {
    var t := SettleNo(k, n, if all then 0 else -1);
    SettleStuck(cfg, k, attempts, n, all);
    NamingIs(cfg, Run(Start<K>(cfg), ts), k, false, attempts, n, if all then 0 else -1);
    LeavesMore(cfg, ts, k, Leased(cfg, k, false, attempts, n), named, t, Leased(cfg, k, all, 0, n), []);
    assert named + [] == named;
  }

  lemma StuckBegins<K>(cfg: Config, k: K)
    requires cfg.threshold > 0
    ensures Enqueue(Enqueue(Start<K>(cfg).queue, k, "first", cfg.threshold, 1), k, "second", cfg.threshold, 1)
              == Stuck(cfg, k, false, 0, 0)
  {
    var one := Push(Blank(cfg), "first", cfg.threshold, 1);
    assert one.queue == [Entry(Task(0, "first", cfg.threshold), 1)];
    var two := Push(one, "second", cfg.threshold, 1);
    assert two.queue == one.queue + [Entry(Task(1, "second", cfg.threshold), 1)];
    assert two == Stuck(cfg, k, false, 0, 0).units[k];
    assert map[k := one][k := two] == map[k := two];
  }

  lemma Arrived<K>(cfg: Config, k: K) returns (ts: seq<Timed<K>>)
    requires cfg.threshold > 0
    ensures Leaves(cfg, ts, k, Stuck(cfg, k, false, 0, 0), [])
  {
    var w := Start<K>(cfg);
    var a, b := Timed(1, Arrive(k, "first", cfg.threshold)), Timed(1, Arrive(k, "second", cfg.threshold));
    NamedRunGrows(w, [], a, k);
    NamedRunGrows(w, [] + [a], b, k);
    NextIs(w, a);
    NextIs(Next(w, a), b);
    ArriveParts(w, a);
    ArriveParts(Next(w, a), b);
    StuckBegins(cfg, k);
    ts := [] + [a] + [b];
  }

  /** The same arrival named n times. */
  function Times(i: int, n: nat): seq<int> {
    if n == 0 then [] else Times(i, n - 1) + [i]
  }

  lemma {:induction false} OwnTimes(i: int, n: nat, j: int)
    ensures Own(Times(i, n), j) == if i == j then n else 0
  {
    if n > 0 {
      OwnTimes(i, n - 1, j);
      OwnPush(Times(i, n - 1), i, j);
    }
  }

  /** The second task is reported as failed n times while the first is the head. */
  lemma {:induction false} SecondFails<K>(cfg: Config, k: K, n: nat) returns (ts: seq<Timed<K>>)
    requires cfg.threshold > 0
    ensures Leaves(cfg, ts, k, Stuck(cfg, k, false, n, n), Times(1, n))
  {
    if n == 0 {
      ts := Arrived(cfg, k);
    } else {
      ts := SecondFails(cfg, k, n - 1);
      Taken(cfg, ts, k, false, n - 1, n - 1, Times(1, n - 1));
      ts := ts + [TakeNo(k, n - 1)];
      Failed(cfg, ts, k, false, n - 1, n - 1, Times(1, n - 1), 1);
      ts := ts + [FaultNo(k, n - 1, 1)];
    }
  }

  /**
   So the retry budget is not the task's own: for every cap above one there is a run in which the head
   goes to the dead letters at the first failure it ever had.
   */
  lemma BuriedAtFirstFailure<K>(cfg: Config, k: K) returns (ts: seq<Timed<K>>, t: Timed<K>)
    requires cfg.threshold > 0 && cfg.maxWait >= 0 && cfg.maxAttempts > 1
    ensures Legal(Start<K>(cfg), ts) && Enabled(Run(Start<K>(cfg), ts), t) && Buries(Run(Start<K>(cfg), ts).queue, t, k)
    ensures Place(Run(Start<K>(cfg), ts), k, t.op.seqNo) == 0 && Own(AllNamed(Start<K>(cfg), ts, k), 0) == 0
    ensures Run(Start<K>(cfg), ts + [t]).queue.dlq == [DeadLetter(k, Task(0, "first", cfg.threshold), "fault")]
  {
    var n := cfg.maxAttempts - 1;
    var before := SecondFails(cfg, k, n);
    Taken(cfg, before, k, false, n, n, Times(1, n));
    ts, t := before + [TakeNo(k, n)], FaultNo(k, n, 0);
    NamingIs(cfg, Run(Start<K>(cfg), ts), k, false, n, n, 0);
    OwnTimes(1, n, 0);
    NamedRunGrows(Start<K>(cfg), ts, t, k);
    NextIs(Run(Start<K>(cfg), ts), t);
    FailShape(Run(Start<K>(cfg), ts).queue, ClaimNo(k, n), 0, "fault", 1);
  }

  lemma FailedAndTaken<K>(cfg: Config, ts: seq<Timed<K>>, k: K, attempts: nat, m: nat, after: nat, next: nat)
    returns (more: seq<Timed<K>>)
    requires Leaves(cfg, ts, k, Leased(cfg, k, true, attempts, m), Times(1, m))
    requires after == attempts + 1 < cfg.maxAttempts && next == m + 1
    ensures Leaves(cfg, more, k, Leased(cfg, k, true, after, next), Times(1, next))
  {
    Failed(cfg, ts, k, true, attempts, m, Times(1, m), 1);
    var failed := ts + [FaultNo(k, m, 1)];
    Taken(cfg, failed, k, true, after, next, Times(1, next));
    more := failed + [TakeNo(k, next)];
  }

  lemma TakenAndSettled<K>(cfg: Config, ts: seq<Timed<K>>, k: K, attempts: nat, n: nat, named: seq<int>, all: bool)
    returns (more: seq<Timed<K>>)
    requires cfg.threshold > 0 && Leaves(cfg, ts, k, Stuck(cfg, k, false, attempts, n), named)
    ensures Leaves(cfg, more, k, Leased(cfg, k, all, 0, n), named)
  {
    Taken(cfg, ts, k, false, attempts, n, named);
    var taken := ts + [TakeNo(k, n)];
    Settled(cfg, taken, k, attempts, n, named, all);
    more := taken + [SettleNo(k, n, if all then 0 else -1)];
  }

  /** The first task is acknowledged after that. */
  lemma FirstGoes<K>(cfg: Config, k: K, n: nat, none: nat) returns (ts: seq<Timed<K>>)
    requires cfg.threshold > 0 && none == 0
    ensures Leaves(cfg, ts, k, Leased(cfg, k, true, none, n), Times(1, n))
  {
    ts := SecondFails(cfg, k, n);
    ts := TakenAndSettled(cfg, ts, k, n, n, Times(1, n), true);
  }

  /** The second task, now the head, is failed until one failure is missing to the cap. */
  lemma {:induction false} ThenHeadFails<K>(cfg: Config, k: K, j: nat, m: nat) returns (ts: seq<Timed<K>>)
    requires cfg.threshold > 0 && j < cfg.maxAttempts && j <= m
    ensures Leaves(cfg, ts, k, Leased(cfg, k, true, j, m), Times(1, m))
  {
    if j == 0 {
      ts := FirstGoes(cfg, k, m, j);
    } else {
      var i, l := j - 1, m - 1;
      var before := ThenHeadFails(cfg, k, i, l);
      ts := FailedAndTaken(cfg, before, k, i, l, j, m);
    }
  }

  /**
   Nor does it bound the task's failures: for every cap and every n there is a run in which a task is buried
   after n failures more than the cap, because those it had before it was the head were forgotten.
   */
  lemma BuriedAfterMore<K>(cfg: Config, k: K, n: nat) returns (ts: seq<Timed<K>>, t: Timed<K>)
    requires cfg.threshold > 0 && cfg.maxWait >= 0 && cfg.maxAttempts > 0
    ensures Legal(Start<K>(cfg), ts) && Enabled(Run(Start<K>(cfg), ts), t) && Buries(Run(Start<K>(cfg), ts).queue, t, k)
    ensures Place(Run(Start<K>(cfg), ts), k, t.op.seqNo) == 1
    ensures Own(AllNamed(Start<K>(cfg), ts, k), 1) + 1 == cfg.maxAttempts + n
  {
    var j := cfg.maxAttempts - 1;
    var m := n + j;
    ts := ThenHeadFails(cfg, k, j, m);
    t := FaultNo(k, m, 1);
    NamingIs(cfg, Run(Start<K>(cfg), ts), k, true, j, m, 1);
    OwnTimes(1, m, 1);
  }

  lemma FailedAndForgotten<K>(cfg: Config, ts: seq<Timed<K>>, k: K, attempts: nat, m: nat, next: nat)
    returns (more: seq<Timed<K>>)
    requires cfg.threshold > 0 && cfg.maxAttempts > 1 && next == m + 1
    requires Leaves(cfg, ts, k, Stuck(cfg, k, false, attempts, m), Times(0, m))
    ensures Leaves(cfg, more, k, Stuck(cfg, k, false, 1, next), Times(0, next))
  {
    var settled := TakenAndSettled(cfg, ts, k, attempts, m, Times(0, m), false);
    Failed(cfg, settled, k, false, 0, m, Times(0, m), 0);
    more := settled + [FaultNo(k, m, 0)];
  }

  /** Claimed, acknowledged through nothing, and its head failed, again and again. */
  lemma {:induction false} HeadFailsOn<K>(cfg: Config, k: K, n: nat) returns (ts: seq<Timed<K>>, attempts: nat)
    requires cfg.threshold > 0 && cfg.maxAttempts > 1
    ensures Leaves(cfg, ts, k, Stuck(cfg, k, false, attempts, n), Times(0, n))
  {
    if n == 0 {
      attempts := 0;
      ts := Arrived(cfg, k);
    } else {
      ts, attempts := HeadFailsOn(cfg, k, n - 1);
      ts := FailedAndForgotten(cfg, ts, k, attempts, n - 1, n);
      attempts := 1;
    }
  }

  /**
   And an acknowledgement that covers nothing zeroes the counter: for every cap above one and every n there is
   a run in which the head has failed n times and is still the head, nothing having been buried.
   */
  lemma NeverBuried<K(!new)>(cfg: Config, k: K, n: nat) returns (ts: seq<Timed<K>>)
    requires cfg.threshold > 0 && cfg.maxWait >= 0 && cfg.maxAttempts > 1
    ensures Legal(Start<K>(cfg), ts) && Own(AllNamed(Start<K>(cfg), ts, k), 0) == n
    ensures Run(Start<K>(cfg), ts).queue.dlq == [] && Pending(Run(Start<K>(cfg), ts), k) == Arrivals(Run(Start<K>(cfg), ts), k) != []
  {
    var attempts;
    ts, attempts := HeadFailsOn(cfg, k, n);
    OwnTimes(0, n, 0);
    RunInTime(cfg, ts, k);
    assert KeyHistory(Run(Start<K>(cfg), ts), k);
  }
}
