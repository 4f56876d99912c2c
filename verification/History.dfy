/**
 The queue run by arbitrary clients in any order, with the history a run leaves: every arrival of
 every key, and per key the order in which arrivals were processed, acknowledged or dead-lettered.
 Arrivals are named by their position, because a unit that empties restarts its sequence numbers.
 */
module History {
  import opened Contract
  import opened Oracle
  import opened Invariant

  datatype Event = Processed(index: int) | Acked(index: int) | Dead(index: int)

  /** The queue, its clocks, and what has happened so far. */
  datatype World<K> = World(
    queue: State<K>,
    clock: int,
    seen: int,
    arrivals: map<K, seq<Entry>>,
    log: map<K, seq<Event>>)

  datatype Op<+K> =
    | Arrive(key: K, payload: string, cost: int)
    | Take(key: K, worker: string, token: string, window: int)
    | Settle(claim: Claimed<K>, through: int)
    | GiveUp(claim: Claimed<K>)
    | Extend(claim: Claimed<K>, extend: int)
    | Fault(claim: Claimed<K>, seqNo: int, reason: string)
    | Sweep(expiredBefore: int, at: int)

  datatype Timed<+K> = Timed(now: int, op: Op<K>)

  function Start<K>(cfg: Config): World<K> {
    World(State(map[], [], {}, cfg), 0, 0, map[], map[])
  }

  function Pending<K>(w: World<K>, k: K): seq<Entry> {
    UnitOf(w.queue, k).queue
  }

  function Arrivals<K>(w: World<K>, k: K): seq<Entry> {
    if k in w.arrivals then w.arrivals[k] else []
  }

  function Log<K>(w: World<K>, k: K): seq<Event> {
    if k in w.log then w.log[k] else []
  }

  /** The arrival index of the head of a key's queue. */
  function Head<K>(w: World<K>, k: K): int {
    |Arrivals(w, k)| - |Pending(w, k)|
  }

  /**
   Callers pass positive costs, worker ids are not empty, and the clock does not go back. A claim may take
   any claimable unit; which one a backend prefers is its own affair.
   */
  ghost predicate Enabled<K>(w: World<K>, t: Timed<K>) {
    w.clock <= t.now &&
    match t.op
    case Arrive(_, _, cost) => cost > 0
    case Take(k, worker, token, window) =>
      Claimable(w.queue, k) && worker != "" && token !in w.queue.issued && window >= 0
    case _ => true
  }

  function Effect<K>(s: State<K>, t: Timed<K>): State<K> {
    match t.op
    case Arrive(k, payload, cost) => Enqueue(s, k, payload, cost, t.now)
    case Take(k, worker, token, window) =>
      if k in s.units then Grant(s, k, worker, token, window, t.now) else s
    case Settle(c, through) => Ack(s, c, through, t.now)
    case GiveUp(c) => Release(s, c)
    case Extend(c, extend) => Heartbeat(s, c, extend, t.now)
    case Fault(c, seqNo, reason) => Fail(s, c, seqNo, reason, t.now)
    case Sweep(expiredBefore, at) => Reap(s, expiredBefore, at)
  }

  function AckedRun(first: int, n: nat): seq<Event> {
    seq(n, i requires 0 <= i < n => Acked(first + i))
  }

  function Note<K>(w: World<K>, k: K, es: seq<Event>): World<K> {
    w.(log := w.log[k := Log(w, k) + es])
  }

  /** The history is read off the change of the queue itself. */
  function Record<K>(w: World<K>, next: World<K>, op: Op<K>): World<K> {
    match op
    case Arrive(k, _, _) =>
      if |Pending(w, k)| <= |Pending(next, k)|
      then next.(arrivals := w.arrivals[k := Arrivals(w, k) + Pending(next, k)[|Pending(w, k)|..]]) else next
    case Settle(c, _) =>
      var gone := |Pending(w, c.key)| - |Pending(next, c.key)|;
      if gone > 0 then Note(next, c.key, AckedRun(Head(w, c.key), gone)) else next
    case Fault(c, _, _) =>
      if |Pending(next, c.key)| < |Pending(w, c.key)|
      then Note(next, c.key, [Dead(Head(w, c.key))]) else next
    case _ => next
  }

  function Seen(seen: int, t: Timed): int {
    if t.op.Sweep? then Max(Max(seen, t.now), t.op.at) else Max(seen, t.now)
  }

  function Next<K>(w: World<K>, t: Timed<K>): World<K> {
    Record(w, w.(queue := Effect(w.queue, t), clock := t.now, seen := Seen(w.seen, t)), t.op)
  }

  /** Recording the history leaves the queue and the clocks alone. */
  lemma NextIs<K>(w: World<K>, t: Timed<K>)
    ensures Next(w, t).queue == Effect(w.queue, t) && Next(w, t).clock == t.now && Next(w, t).seen == Seen(w.seen, t)
  {
  }

  lemma EffectCfg<K>(s: State<K>, t: Timed<K>)
    ensures Effect(s, t).cfg == s.cfg
  {
  }

  function Run<K>(w: World<K>, ts: seq<Timed<K>>): World<K> {
    if ts == [] then w else Next(Run(w, ts[..|ts| - 1]), ts[|ts| - 1])
  }

  ghost predicate Legal<K>(w: World<K>, ts: seq<Timed<K>>) {
    ts == [] || (Legal(w, ts[..|ts| - 1]) && Enabled(Run(w, ts[..|ts| - 1]), ts[|ts| - 1]))
  }

  // ---------- the history invariant ----------

  /** How many arrivals a log has settled, by acknowledgement or dead letter. */
  function Settled(log: seq<Event>): nat {
    if log == [] then 0 else
    Settled(log[..|log| - 1]) + if log[|log| - 1].Processed? then 0 else 1
  }

  /** Arrivals are settled one after the other, without gaps: each when it is the head. */
  ghost predicate InOrder(log: seq<Event>) {
    forall p :: 0 <= p < |log| && !log[p].Processed? ==> log[p].index == Settled(log[..p])
  }

  function DeadIn(arrivals: seq<Entry>, log: seq<Event>): seq<Task> {
    if log == [] then [] else
    var e := log[|log| - 1];
    DeadIn(arrivals, log[..|log| - 1]) +
      if e.Dead? && 0 <= e.index < |arrivals| then [arrivals[e.index].task] else []
  }

  ghost function DeadOf<K>(dlq: seq<DeadLetter<K>>, k: K): seq<Task> {
    if dlq == [] then [] else
    var d := dlq[|dlq| - 1];
    DeadOf(dlq[..|dlq| - 1], k) + if d.key == k then [d.task] else []
  }

  /** Pending is the unsettled tail of the arrivals, and the dead letters are the ones logged dead. */
  ghost predicate KeyOk(pending: seq<Entry>, arrivals: seq<Entry>, log: seq<Event>, dead: seq<Task>) {
    && |pending| <= |arrivals|
    && pending == arrivals[|arrivals| - |pending|..]
    && Settled(log) == |arrivals| - |pending|
    && InOrder(log)
    && dead == DeadIn(arrivals, log)
  }

  ghost predicate KeyHistory<K>(w: World<K>, k: K) {
    KeyOk(Pending(w, k), Arrivals(w, k), Log(w, k), DeadOf(w.queue.dlq, k))
  }

  ghost predicate HistoryInv<K(!new)>(w: World<K>) {
    Inv(w.queue, w.clock, w.seen) && forall k: K :: KeyHistory(w, k)
  }

  lemma SettledPush(log: seq<Event>, e: Event)
    ensures Settled(log + [e]) == Settled(log) + if e.Processed? then 0 else 1
    ensures InOrder(log) && (e.Processed? || e.index == Settled(log)) ==> InOrder(log + [e])
  {
    var l := log + [e];
    assert l[..|l| - 1] == log;
    forall p | 0 <= p < |log| ensures l[..p] == log[..p] && l[p] == log[p] {
    }
  }

  lemma AckedRunPush(log: seq<Event>, first: int, n: nat)
    requires n > 0
    ensures log + AckedRun(first, n) == log + AckedRun(first, n - 1) + [Acked(first + n - 1)]
  {
  }

  lemma {:induction false} SettledRun(log: seq<Event>, first: int, n: nat)
    requires InOrder(log) && Settled(log) == first
    ensures Settled(log + AckedRun(first, n)) == first + n
    ensures InOrder(log + AckedRun(first, n))
  {
    if n == 0 {
      assert log + AckedRun(first, 0) == log;
    } else {
      var shorter := log + AckedRun(first, n - 1);
      SettledRun(log, first, n - 1);
      SettledPush(shorter, Acked(first + n - 1));
      AckedRunPush(log, first, n);
    }
  }

  lemma {:induction false} DeadInRun(arrivals: seq<Entry>, log: seq<Event>, first: int, n: nat)
    ensures DeadIn(arrivals, log + AckedRun(first, n)) == DeadIn(arrivals, log)
  {
    if n == 0 {
      assert log + AckedRun(first, 0) == log;
    } else {
      DeadInRun(arrivals, log, first, n - 1);
      var l := log + AckedRun(first, n);
      assert l[..|l| - 1] == log + AckedRun(first, n - 1);
    }
  }

  lemma {:induction false} DeadInMore(arrivals: seq<Entry>, more: seq<Entry>, log: seq<Event>)
    requires InOrder(log) && Settled(log) <= |arrivals|
    ensures DeadIn(arrivals + more, log) == DeadIn(arrivals, log)
  {
    if log != [] {
      var l := log[..|log| - 1];
      assert InOrder(l) by {
        forall p | 0 <= p < |l| ensures l[..p] == log[..p] && l[p] == log[p] {
        }
      }
      DeadInMore(arrivals, more, l);
    }
  }

  // ---------- every step keeps the history invariant ----------

  lemma StartHistory<K(!new)>(cfg: Config)
    requires cfg.threshold > 0 && cfg.maxWait >= 0 && cfg.maxAttempts > 0
    ensures HistoryInv(Start<K>(cfg))
  {
  }

  lemma StepInv<K>(w: World<K>, t: Timed<K>)
    requires Inv(w.queue, w.clock, w.seen) && Enabled(w, t)
    ensures Inv(Next(w, t).queue, Next(w, t).clock, Next(w, t).seen)
  {
    match t.op
    case Arrive(k, payload, cost) => EnqueueKeeps(w.queue, k, payload, cost, w.clock, w.seen, t.now);
    case Take(k, worker, token, window) => GrantKeeps(w.queue, k, worker, token, window, w.clock, w.seen, t.now);
    case Settle(c, through) => AckKeepsAll(w.queue, c, through, w.clock, w.seen, t.now);
    case GiveUp(c) => ReleaseKeeps(w.queue, c, w.clock, w.seen, t.now);
    case Extend(c, extend) => HeartbeatKeeps(w.queue, c, extend, w.clock, w.seen, t.now);
    case Fault(c, seqNo, reason) => FailKeepsAll(w.queue, c, seqNo, reason, w.clock, w.seen, t.now);
    case Sweep(expiredBefore, at) => ReapKeeps(w.queue, expiredBefore, at, w.clock, w.seen, t.now);
  }

  /** Acknowledging drops the covered prefix of the claimed unit's queue and touches nothing else. */
  lemma SettlePending<K>(s: State<K>, c: Claimed<K>, through: int, now: int, k: K)
    ensures UnitOf(Ack(s, c, through, now), k).queue ==
            if Held(s, c) && k == c.key
            then UnitOf(s, k).queue[Covered(UnitOf(s, k).queue, through)..] else UnitOf(s, k).queue
  {
  }

  /** Failing drops the head exactly when it is poison. */
  lemma FaultPending<K>(s: State<K>, c: Claimed<K>, seqNo: int, reason: string, now: int, k: K)
    ensures UnitOf(Fail(s, c, seqNo, reason, now), k).queue ==
            if Held(s, c) && k == c.key && Poison(s.units[k], seqNo, s.cfg.maxAttempts)
            then UnitOf(s, k).queue[1..] else UnitOf(s, k).queue
  {
  }

  lemma PushOk(pending: seq<Entry>, arrivals: seq<Entry>, log: seq<Event>, dead: seq<Task>, e: Entry)
    requires KeyOk(pending, arrivals, log, dead)
    ensures KeyOk(pending + [e], arrivals + [e], log, dead)
  {
    DeadInMore(arrivals, [e], log);
  }

  lemma AckOk(pending: seq<Entry>, arrivals: seq<Entry>, log: seq<Event>, dead: seq<Task>, head: int, n: nat)
    requires KeyOk(pending, arrivals, log, dead) && n <= |pending| && head == |arrivals| - |pending|
    ensures KeyOk(pending[n..], arrivals, log + AckedRun(head, n), dead)
  {
    SettledRun(log, head, n);
    DeadInRun(arrivals, log, head, n);
  }

  lemma DeadOk(pending: seq<Entry>, arrivals: seq<Entry>, log: seq<Event>, dead: seq<Task>, head: int)
    requires KeyOk(pending, arrivals, log, dead) && |pending| > 0 && head == |arrivals| - |pending|
    ensures KeyOk(pending[1..], arrivals, log + [Dead(head)], dead + [pending[0].task])
  {
    var l := log + [Dead(head)];
    SettledPush(log, Dead(head));
    assert l[..|l| - 1] == log;
  }

  lemma ArriveParts<K>(w: World<K>, t: Timed<K>)
    requires t.op.Arrive?
    ensures var k, n := t.op.key, Next(w, t);
            var e := Entry(Task(UnitOf(w.queue, k).nextSeq, t.op.payload, t.op.cost), t.now);
            && Pending(n, k) == Pending(w, k) + [e] && Arrivals(n, k) == Arrivals(w, k) + [e] && Log(n, k) == Log(w, k)
            && n.queue.dlq == w.queue.dlq
  {
    var k, n := t.op.key, Next(w, t);
    var e := Entry(Task(UnitOf(w.queue, k).nextSeq, t.op.payload, t.op.cost), t.now);
    assert Pending(n, k) == Pending(w, k) + [e];
    assert Pending(n, k)[|Pending(w, k)|..] == [e];
  }

  lemma ArriveHistory<K>(w: World<K>, t: Timed<K>, k: K)
    requires t.op.Arrive? && KeyHistory(w, k)
    ensures KeyHistory(Next(w, t), k)
  {
    if k == t.op.key {
      ArriveParts(w, t);
      ArrivedWell(w, Next(w, t), k, Entry(Task(UnitOf(w.queue, k).nextSeq, t.op.payload, t.op.cost), t.now));
    } else {
      ArriveOther(w, t, k);
      UntouchedWell(w, Next(w, t), k);
    }
  }

  lemma ArriveOther<K>(w: World<K>, t: Timed<K>, k: K)
    requires t.op.Arrive? && t.op.key != k
    ensures var n := Next(w, t);
            && Pending(n, k) == Pending(w, k) && Arrivals(n, k) == Arrivals(w, k) && Log(n, k) == Log(w, k)
            && n.queue.dlq == w.queue.dlq
  {
  }

  lemma ArrivedWell<K>(w: World<K>, n: World<K>, k: K, e: Entry)
    requires KeyHistory(w, k) && n.queue.dlq == w.queue.dlq
    requires Pending(n, k) == Pending(w, k) + [e] && Arrivals(n, k) == Arrivals(w, k) + [e] && Log(n, k) == Log(w, k)
    ensures KeyHistory(n, k)
  {
    PushOk(Pending(w, k), Arrivals(w, k), Log(w, k), DeadOf(w.queue.dlq, k), e);
  }

  lemma SettleParts<K>(w: World<K>, t: Timed<K>, k: K, n: World<K>) returns (gone: nat)
    requires t.op.Settle? && Head(w, k) >= 0 && n == Next(w, t)
    ensures gone == if Held(w.queue, t.op.claim) && k == t.op.claim.key then Covered(Pending(w, k), t.op.through) else 0
    ensures gone <= |Pending(w, k)| && Pending(n, k) == Pending(w, k)[gone..]
    ensures Arrivals(n, k) == Arrivals(w, k) && n.queue.dlq == w.queue.dlq
    ensures Log(n, k) == Log(w, k) + AckedRun(Head(w, k), gone)
  {
    gone := if Held(w.queue, t.op.claim) && k == t.op.claim.key then Covered(Pending(w, k), t.op.through) else 0;
    SettleQueue(w, t, k);
    SettleRecord(w, t, k);
    assert Log(w, k) + AckedRun(Head(w, k), 0) == Log(w, k);
  }

  lemma SettleQueue<K>(w: World<K>, t: Timed<K>, k: K)
    requires t.op.Settle?
    ensures var q, mine := Pending(w, k), Held(w.queue, t.op.claim) && k == t.op.claim.key;
            && Pending(Next(w, t), k) == q[if mine then Covered(q, t.op.through) else 0..]
            && Next(w, t).queue.dlq == w.queue.dlq
  {
    SettlePending(w.queue, t.op.claim, t.op.through, t.now, k);
  }

  /** What was taken off the claimed unit's queue is logged; nothing else is. */
  lemma SettleRecord<K>(w: World<K>, t: Timed<K>, k: K)
    requires t.op.Settle?
    ensures Arrivals(Next(w, t), k) == Arrivals(w, k)
    ensures var gone := |Pending(w, k)| - |Pending(Next(w, t), k)|;
            Log(Next(w, t), k) == if k == t.op.claim.key && gone > 0 then Log(w, k) + AckedRun(Head(w, k), gone) else Log(w, k)
  {
  }

  lemma SettleHistory<K>(w: World<K>, t: Timed<K>, k: K)
    requires t.op.Settle? && KeyHistory(w, k)
    ensures KeyHistory(Next(w, t), k)
  {
    var n := Next(w, t);
    assert KeyHistory(n, k) by {
      var gone := SettleParts(w, t, k, n);
      SettledWell(w, n, k, gone);
    }
  }

  lemma SettledWell<K>(w: World<K>, n: World<K>, k: K, gone: nat)
    requires KeyHistory(w, k) && gone <= |Pending(w, k)|
    requires Pending(n, k) == Pending(w, k)[gone..] && Arrivals(n, k) == Arrivals(w, k)
    requires Log(n, k) == Log(w, k) + AckedRun(Head(w, k), gone) && n.queue.dlq == w.queue.dlq
    ensures KeyHistory(n, k)
  {
    AckOk(Pending(w, k), Arrivals(w, k), Log(w, k), DeadOf(w.queue.dlq, k), Head(w, k), gone);
  }

  /** A fault buries the head of the claimed unit, when it is poison, and touches no other queue or log. */
  lemma FaultParts<K>(w: World<K>, t: Timed<K>, k: K, n: World<K>) returns (d: Option<DeadLetter<K>>)
    requires t.op.Fault? && Head(w, k) >= 0 && n == Next(w, t)
    ensures d.Some? <==> Held(w.queue, t.op.claim) && Poison(w.queue.units[t.op.claim.key], t.op.seqNo, w.queue.cfg.maxAttempts)
    ensures d.Some? ==> d.value.key == t.op.claim.key
    ensures n.queue.dlq == w.queue.dlq + if d.Some? then [d.value] else []
    ensures Arrivals(n, k) == Arrivals(w, k)
    ensures if d.Some? && d.value.key == k
            then |Pending(w, k)| > 0 && d.value.task == Pending(w, k)[0].task
                 && Pending(n, k) == Pending(w, k)[1..] && Log(n, k) == Log(w, k) + [Dead(Head(w, k))]
            else Pending(n, k) == Pending(w, k) && Log(n, k) == Log(w, k)
  {
    var c := t.op.claim;
    d := if Held(w.queue, c) && Poison(w.queue.units[c.key], t.op.seqNo, w.queue.cfg.maxAttempts)
         then Some(DeadLetter(c.key, Pending(w, c.key)[0].task, t.op.reason)) else None;
    assert w.queue.dlq + [] == w.queue.dlq;
    FaultPending(w.queue, t.op.claim, t.op.seqNo, t.op.reason, t.now, k);
    FaultPending(w.queue, t.op.claim, t.op.seqNo, t.op.reason, t.now, t.op.claim.key);
  }

  lemma DeadOfPush<K>(dlq: seq<DeadLetter<K>>, d: DeadLetter<K>, k: K)
    ensures DeadOf(dlq + [d], k) == DeadOf(dlq, k) + if d.key == k then [d.task] else []
  {
    var l := dlq + [d];
    assert l[..|l| - 1] == dlq;
  }

  lemma FaultHistory<K>(w: World<K>, t: Timed<K>, k: K)
    requires t.op.Fault? && KeyHistory(w, k)
    ensures KeyHistory(Next(w, t), k)
  {
    var n := Next(w, t);
    assert KeyHistory(n, k) by {
      var d := FaultParts(w, t, k, n);
      FaultedWell(w, n, k, d);
    }
  }

  lemma FaultedWell<K>(w: World<K>, n: World<K>, k: K, d: Option<DeadLetter<K>>)
    requires KeyHistory(w, k) && Arrivals(n, k) == Arrivals(w, k)
    requires n.queue.dlq == w.queue.dlq + if d.Some? then [d.value] else []
    requires if d.Some? && d.value.key == k
             then |Pending(w, k)| > 0 && d.value.task == Pending(w, k)[0].task
                  && Pending(n, k) == Pending(w, k)[1..] && Log(n, k) == Log(w, k) + [Dead(Head(w, k))]
             else Pending(n, k) == Pending(w, k) && Log(n, k) == Log(w, k)
    ensures KeyHistory(n, k)
  {
    if d.Some? {
      BuriedWell(w, n, k, d.value);
    } else {
      assert w.queue.dlq + [] == w.queue.dlq;
      UntouchedWell(w, n, k);
    }
  }

  lemma UntouchedWell<K>(w: World<K>, n: World<K>, k: K)
    requires KeyHistory(w, k) && Arrivals(n, k) == Arrivals(w, k) && DeadOf(n.queue.dlq, k) == DeadOf(w.queue.dlq, k)
    requires Pending(n, k) == Pending(w, k) && Log(n, k) == Log(w, k)
    ensures KeyHistory(n, k)
  {
  }

  lemma BuriedWell<K>(w: World<K>, n: World<K>, k: K, d: DeadLetter<K>)
    requires KeyHistory(w, k) && Arrivals(n, k) == Arrivals(w, k) && n.queue.dlq == w.queue.dlq + [d]
    requires if d.key == k
             then |Pending(w, k)| > 0 && d.task == Pending(w, k)[0].task
                  && Pending(n, k) == Pending(w, k)[1..] && Log(n, k) == Log(w, k) + [Dead(Head(w, k))]
             else Pending(n, k) == Pending(w, k) && Log(n, k) == Log(w, k)
    ensures KeyHistory(n, k)
  {
    DeadOfPush(w.queue.dlq, d, k);
    if d.key == k {
      DeadOk(Pending(w, k), Arrivals(w, k), Log(w, k), DeadOf(w.queue.dlq, k), Head(w, k));
    } else {
      UntouchedWell(w, n, k);
    }
  }

  lemma QuietParts<K>(w: World<K>, t: Timed<K>, k: K)
    requires t.op.Take? || t.op.GiveUp? || t.op.Extend? || t.op.Sweep?
    ensures Pending(Next(w, t), k) == Pending(w, k)
    ensures Arrivals(Next(w, t), k) == Arrivals(w, k)
    ensures Log(Next(w, t), k) == Log(w, k)
    ensures Next(w, t).queue.dlq == w.queue.dlq
  {
  }

  lemma QuietHistory<K>(w: World<K>, t: Timed<K>, k: K)
    requires t.op.Take? || t.op.GiveUp? || t.op.Extend? || t.op.Sweep?
    requires KeyHistory(w, k)
    ensures KeyHistory(Next(w, t), k)
  {
    QuietParts(w, t, k);
  }

  lemma StepHistory<K(!new)>(w: World<K>, t: Timed<K>)
    requires HistoryInv(w) && Enabled(w, t)
    ensures HistoryInv(Next(w, t))
  {
    StepInv(w, t);
    forall k: K ensures KeyHistory(Next(w, t), k) {
      if t.op.Arrive? {
        ArriveHistory(w, t, k);
      } else if t.op.Settle? {
        SettleHistory(w, t, k);
      } else if t.op.Fault? {
        FaultHistory(w, t, k);
      } else {
        QuietHistory(w, t, k);
      }
    }
  }

  /** Every state of every legal run satisfies the history invariant. */
  lemma {:induction false} RunHistory<K(!new)>(w: World<K>, ts: seq<Timed<K>>)
    requires HistoryInv(w) && Legal(w, ts)
    ensures HistoryInv(Run(w, ts))
  {
    if ts != [] {
      RunHistory(w, ts[..|ts| - 1]);
      StepHistory(Run(w, ts[..|ts| - 1]), ts[|ts| - 1]);
    }
  }
}
