/**
 Any number of workers running the claim / drain / process / acknowledge loop against one queue,
 one atomic step at a time and in any interleaving, with clients enqueueing and a reaper sweeping.
 A worker may crash at any point, and a worker whose lease was reclaimed (a zombie) keeps going
 until its own next call tells it so.
 */
module Workers {
  import opened Contract
  import Oracle
  import opened Invariant
  import opened Safety
  import opened History

  /** Where a worker stands in its loop. base is the arrival index of its batch's first task. */
  datatype Agent<+K> =
    | Idle
    | Holding(claim: Claimed<K>)
    | Busy(claim: Claimed<K>, base: int, batch: seq<Task>, done: nat)

  datatype System<K> = System(world: World<K>, agents: map<nat, Agent<K>>)

  datatype Step<+K> =
    | Client(op: Op<K>)
    | Claim(agent: nat, key: K, worker: string, token: string, window: int)
    | Drain(agent: nat, max: nat)
    | Look(agent: nat, count: nat)
    | Quit(agent: nat)
    | Process(agent: nat)
    | Ack(agent: nat)
    | Fail(agent: nat, seqNo: int, reason: string)
    | Crash(agent: nat)

  datatype Action<+K> = Action(now: int, step: Step<K>)

  /**
   Clients enqueue and sweep; heartbeats run on their own goroutine and may trail the loop, so any
   claim may be extended at any time. Workers act only from the point of the loop they are at. A drain
   that takes several trips may look at the queue more than once, and after the lease was lost; whoever
   has not begun to work off a batch may be given the first entries of the queue as they are by then.
   */
  ghost predicate CanAct<K>(s: System<K>, x: Action<K>) {
    s.world.clock <= x.now &&
    match x.step
    case Client(op) => (op.Arrive? || op.Sweep? || op.Extend?) && Enabled(s.world, Timed(x.now, op))
    case Claim(a, k, worker, token, window) =>
      a in s.agents && s.agents[a].Idle? && Enabled(s.world, Timed(x.now, Take(k, worker, token, window)))
    case Drain(a, max) => a in s.agents && s.agents[a].Holding? && max >= 1
    case Look(a, n) =>
      && a in s.agents && (s.agents[a].Holding? || (s.agents[a].Busy? && s.agents[a].done == 0))
      && 0 < n <= |Pending(s.world, s.agents[a].claim.key)|
    case Quit(a) => a in s.agents && !s.agents[a].Idle?
    case Process(a) => a in s.agents && s.agents[a].Busy? && s.agents[a].done < |s.agents[a].batch|
    case Ack(a) => a in s.agents && s.agents[a].Busy? && s.agents[a].done == |s.agents[a].batch| > 0
    case Fail(a, _, _) => a in s.agents && !s.agents[a].Idle?
    case Crash(a) => a in s.agents
  }

  function Become<K>(s: System<K>, a: nat, to: Agent<K>): System<K> {
    s.(agents := s.agents[a := to])
  }

  function Advance<K>(s: System<K>, now: int, op: Op<K>): System<K> {
    s.(world := Next(s.world, Timed(now, op)))
  }

  function DrainStep<K>(s: System<K>, now: int, a: nat, c: Claimed<K>, max: nat): System<K> {
    match Oracle.Drain(s.world.queue, c, max)
    case LeaseLost => Become(s, a, Idle)
    case Ok(batch) =>
      if batch == [] then Become(Advance(s, now, GiveUp(c)), a, Idle)
      else Become(s, a, Busy(c, Head(s.world, c.key), batch, 0))
  }

  function AckStep<K>(s: System<K>, now: int, a: nat, c: Claimed<K>, through: int): System<K> {
    var after := Advance(s, now, Settle(c, through));
    match Oracle.AckOutcome(s.world.queue, c, through, now)
    case LeaseLost => Become(after, a, Idle)
    case Ok(stillHeld) => Become(after, a, if stillHeld then Holding(c) else Idle)
  }

  ghost function Act<K>(s: System<K>, x: Action<K>): System<K>
    requires CanAct(s, x)
  {
    match x.step
    case Client(op) => Advance(s, x.now, op)
    case Claim(a, k, worker, token, window) =>
      Become(Advance(s, x.now, Take(k, worker, token, window)), a,
             Holding(Claimed(k, worker, token, x.now + window)))
    case Drain(a, max) => DrainStep(s, x.now, a, s.agents[a].claim, max)
    case Look(a, n) =>
      var c := s.agents[a].claim;
      Become(s, a, Busy(c, Head(s.world, c.key), Oracle.Tasks(Pending(s.world, c.key)[..n]), 0))
    case Quit(a) => Become(Advance(s, x.now, GiveUp(s.agents[a].claim)), a, Idle)
    case Process(a) =>
      var g := s.agents[a];
      Become(s.(world := Note(s.world, g.claim.key, [Processed(g.base + g.done)])), a, g.(done := g.done + 1))
    case Ack(a) =>
      var g := s.agents[a];
      AckStep(s, x.now, a, g.claim, g.batch[|g.batch| - 1].seqNo)
    case Fail(a, seqNo, reason) =>
      Become(Advance(s, x.now, Fault(s.agents[a].claim, seqNo, reason)), a, Idle)
    case Crash(a) => Become(s, a, Idle)
  }

  /** Every sequence of actions is a run: an action that is not possible does nothing. */
  ghost function Run<K>(s: System<K>, xs: seq<Action<K>>): System<K> {
    if xs == [] then s else
    var before := Run(s, xs[..|xs| - 1]);
    if CanAct(before, xs[|xs| - 1]) then Act(before, xs[|xs| - 1]) else before
  }

  // ---------- the ordering invariant ----------

  ghost predicate Reached(log: seq<Event>, m: int) {
    exists p :: 0 <= p < |log| && (log[p].Processed? || log[p].Dead?) && log[p].index == m
  }

  ghost predicate WasProcessed(log: seq<Event>, m: int) {
    exists p :: 0 <= p < |log| && log[p].Processed? && log[p].index == m
  }

  /** Nothing is processed before everything that arrived earlier; nothing is acked unprocessed. */
  ghost predicate Ordered(log: seq<Event>) {
    (forall p, m :: 0 <= p < |log| && log[p].Processed? && 0 <= m < log[p].index ==> Reached(log[..p], m)) &&
    (forall p :: 0 <= p < |log| && log[p].Acked? ==> WasProcessed(log[..p], log[p].index))
  }

  ghost predicate LogOk(log: seq<Event>, head: int) {
    Ordered(log) && forall m :: 0 <= m < head ==> Reached(log, m)
  }

  ghost predicate BatchOk<K>(w: World<K>, c: Claimed<K>, base: int, batch: seq<Task>, done: nat) {
    && 0 <= base && done <= |batch| && 0 < |batch| && base + |batch| <= |Arrivals(w, c.key)|
    && (forall i :: 0 <= i < |batch| ==> batch[i] == Arrivals(w, c.key)[base + i].task)
    && (forall m :: 0 <= m < base + done ==> Reached(Log(w, c.key), m))
    && (forall m :: base <= m < base + done ==> WasProcessed(Log(w, c.key), m))
    && (Oracle.Held(w.queue, c) ==> base == Head(w, c.key))
  }

  ghost predicate AgentOk<K>(w: World<K>, g: Agent<K>) {
    g.Idle? || (g.claim.token in w.queue.issued && (g.Busy? ==> BatchOk(w, g.claim, g.base, g.batch, g.done)))
  }

  ghost predicate LogsOk<K(!new)>(w: World<K>) {
    forall k: K :: LogOk(Log(w, k), Head(w, k))
  }

  ghost predicate AgentsOk<K>(w: World<K>, agents: map<nat, Agent<K>>) {
    forall a :: a in agents ==> AgentOk(w, agents[a])
  }

  /** No two workers bear the same token. */
  ghost predicate Distinct<K>(agents: map<nat, Agent<K>>) {
    forall a, b :: a in agents && b in agents && a != b && !agents[a].Idle? && !agents[b].Idle? ==>
      agents[a].claim.token != agents[b].claim.token
  }

  ghost predicate SystemInv<K(!new)>(s: System<K>) {
    HistoryInv(s.world) && LogsOk(s.world) && AgentsOk(s.world, s.agents) && Distinct(s.agents)
  }

  /** A worker that keeps its claim, or gives it up, bears no token but its own. */
  lemma StaysDistinct<K>(agents: map<nat, Agent<K>>, a: nat, h: Agent<K>)
    requires Distinct(agents) && a in agents && (h.Idle? || (!agents[a].Idle? && h.claim == agents[a].claim))
    ensures Distinct(agents[a := h])
  {
  }

  lemma AgentsWith<K>(w: World<K>, agents: map<nat, Agent<K>>, a: nat, h: Agent<K>)
    requires forall b :: b in agents && b != a ==> AgentOk(w, agents[b])
    requires AgentOk(w, h)
    ensures AgentsOk(w, agents[a := h])
  {
  }

  // ---------- logs only grow ----------

  lemma LogMore(log: seq<Event>, more: seq<Event>, m: int)
    ensures Reached(log, m) ==> Reached(log + more, m)
    ensures WasProcessed(log, m) ==> WasProcessed(log + more, m)
  {
    assert forall p :: 0 <= p < |log| ==> (log + more)[p] == log[p];
  }

  lemma OrderedPush(log: seq<Event>, e: Event)
    requires Ordered(log)
    requires e.Processed? ==> forall m :: 0 <= m < e.index ==> Reached(log, m)
    requires e.Acked? ==> WasProcessed(log, e.index)
    ensures Ordered(log + [e])
  {
    var l := log + [e];
    forall p | 0 <= p < |l| ensures l[..p] == log[..p] && (p < |log| ==> l[p] == log[p]) {
    }
    assert log[..|log|] == log;
  }

  lemma {:induction false} AckedLogOk(log: seq<Event>, first: int, n: nat)
    requires LogOk(log, first) && forall m :: first <= m < first + n ==> WasProcessed(log, m)
    ensures LogOk(log + AckedRun(first, n), first + n)
  {
    if n == 0 {
      assert log + AckedRun(first, 0) == log;
    } else {
      var shorter := log + AckedRun(first, n - 1);
      AckedLogOk(log, first, n - 1);
      LogMore(log, AckedRun(first, n - 1), first + n - 1);
      OrderedPush(shorter, Acked(first + n - 1));
      AckedRunPush(log, first, n);
      forall m | 0 <= m < first + n ensures Reached(log + AckedRun(first, n), m) {
        LogMore(shorter, [Acked(first + n - 1)], m);
      }
    }
  }

  lemma DeadLogOk(log: seq<Event>, head: int)
    requires LogOk(log, head)
    ensures LogOk(log + [Dead(head)], head + 1)
  {
    var l := log + [Dead(head)];
    OrderedPush(log, Dead(head));
    forall m | 0 <= m < head + 1 ensures Reached(l, m) {
      LogMore(log, [Dead(head)], m);
      assert l[|log|] == Dead(head);
    }
  }

  lemma ProcessedLogOk(log: seq<Event>, head: int, m: int)
    requires LogOk(log, head) && forall j :: 0 <= j < m ==> Reached(log, j)
    ensures LogOk(log + [Processed(m)], head)
    ensures WasProcessed(log + [Processed(m)], m) && Reached(log + [Processed(m)], m)
  {
    var l := log + [Processed(m)];
    OrderedPush(log, Processed(m));
    assert l[|log|] == Processed(m);
    forall j | 0 <= j < head ensures Reached(l, j) {
      LogMore(log, [Processed(m)], j);
    }
  }

  // ---------- what one step of the queue does to one key ----------

  /** Arrivals and log are only extended; the head moves only by a held Settle or Fault. */
  lemma Grows<K(!new)>(w: World<K>, t: Timed<K>, k: K)
    requires HistoryInv(w)
    ensures Arrivals(w, k) <= Arrivals(Next(w, t), k)
    ensures Log(w, k) <= Log(Next(w, t), k)
    ensures !t.op.Settle? && !t.op.Fault? ==> Log(Next(w, t), k) == Log(w, k)
    ensures !((t.op.Settle? || t.op.Fault?) && t.op.claim.key == k && Oracle.Held(w.queue, t.op.claim)) ==>
              Head(Next(w, t), k) == Head(w, k) && Log(Next(w, t), k) == Log(w, k)
  {
    assert KeyHistory(w, k);
    GrowsAt(w, t, k);
  }

  lemma GrowsAt<K>(w: World<K>, t: Timed<K>, k: K)
    requires KeyHistory(w, k)
    ensures Arrivals(w, k) <= Arrivals(Next(w, t), k)
    ensures Log(w, k) <= Log(Next(w, t), k)
    ensures !t.op.Settle? && !t.op.Fault? ==> Log(Next(w, t), k) == Log(w, k)
    ensures !((t.op.Settle? || t.op.Fault?) && t.op.claim.key == k && Oracle.Held(w.queue, t.op.claim)) ==>
              Head(Next(w, t), k) == Head(w, k) && Log(Next(w, t), k) == Log(w, k)
  {
    match t.op
    case Arrive(_, _, _) =>
      if t.op.key == k {
        ArriveParts(w, t);
      } else {
        ArriveOther(w, t, k);
      }
    case Settle(_, _) => SettleGrows(w, t, k);
    case Fault(_, _, _) => FaultGrows(w, t, k);
    case _ => QuietParts(w, t, k);
  }

  lemma SettleGrows<K>(w: World<K>, t: Timed<K>, k: K)
    requires Head(w, k) >= 0 && t.op.Settle?
    ensures Arrivals(Next(w, t), k) == Arrivals(w, k) && Log(w, k) <= Log(Next(w, t), k)
    ensures !(t.op.claim.key == k && Oracle.Held(w.queue, t.op.claim)) ==>
              Head(Next(w, t), k) == Head(w, k) && Log(Next(w, t), k) == Log(w, k)
  {
    var n := Next(w, t);
    var gone := SettleParts(w, t, k, n);
    LogGrows(w, n, k, AckedRun(Head(w, k), gone), gone);
  }

  lemma FaultGrows<K>(w: World<K>, t: Timed<K>, k: K)
    requires Head(w, k) >= 0 && t.op.Fault?
    ensures Arrivals(Next(w, t), k) == Arrivals(w, k) && Log(w, k) <= Log(Next(w, t), k)
    ensures !(t.op.claim.key == k && Oracle.Held(w.queue, t.op.claim)) ==>
              Head(Next(w, t), k) == Head(w, k) && Log(Next(w, t), k) == Log(w, k)
  {
    var n := Next(w, t);
    var d := FaultParts(w, t, k, n);
    if d.Some? && d.value.key == k {
      LogGrows(w, n, k, [Dead(Head(w, k))], 1);
    } else {
      LogGrows(w, n, k, [], 0);
    }
  }

  lemma LogGrows<K>(w: World<K>, n: World<K>, k: K, more: seq<Event>, gone: nat)
    requires Arrivals(n, k) == Arrivals(w, k) && gone <= |Pending(w, k)| && Pending(n, k) == Pending(w, k)[gone..]
    requires Log(n, k) == Log(w, k) + more && |more| == gone
    ensures Log(w, k) <= Log(n, k)
    ensures gone == 0 ==> Head(n, k) == Head(w, k) && Log(n, k) == Log(w, k)
  {
  }

  /** A step that presents somebody else's token leaves a worker's view of its batch valid. */
  lemma AgentKeeps<K(!new)>(w: World<K>, t: Timed<K>, g: Agent<K>)
    requires HistoryInv(w) && Enabled(w, t) && AgentOk(w, g)
    requires g.Busy? && (t.op.Settle? || t.op.Fault?) ==> t.op.claim.token != g.claim.token
    ensures AgentOk(Next(w, t), g)
  {
    if g.Idle? {
      return;
    }
    var n := Next(w, t);
    assert g.claim.token in n.queue.issued;
    if g.Busy? {
      Grows(w, t, g.claim.key);
      if !Oracle.Held(w.queue, g.claim) {
        LostStep(w, t, g.claim);
      }
      BatchKeeps(w, n, g.claim, g.base, g.batch, g.done);
    }
  }

  /** A batch stays valid while arrivals and log only grow and the head stays under a lease still held. */
  lemma BatchKeeps<K>(w: World<K>, n: World<K>, c: Claimed<K>, base: int, batch: seq<Task>, done: nat)
    requires BatchOk(w, c, base, batch, done)
    requires Arrivals(w, c.key) <= Arrivals(n, c.key) && Log(w, c.key) <= Log(n, c.key)
    requires Oracle.Held(n.queue, c) ==> Oracle.Held(w.queue, c) && Head(n, c.key) == Head(w, c.key)
    ensures BatchOk(n, c, base, batch, done)
  {
    var k := c.key;
    var more := Log(n, k)[|Log(w, k)|..];
    assert Log(n, k) == Log(w, k) + more;
    forall m | 0 <= m < base + done ensures Reached(Log(n, k), m) {
      LogMore(Log(w, k), more, m);
    }
    forall m | base <= m < base + done ensures WasProcessed(Log(n, k), m) {
      LogMore(Log(w, k), more, m);
    }
  }

  // ---------- every action keeps the system invariant ----------

  /** Acknowledging a whole batch under a held lease covers the batch and nothing more. */
  lemma CoveredBatch<K(!new)>(w: World<K>, g: Agent<K>)
    requires HistoryInv(w) && AgentOk(w, g) && g.Busy? && Oracle.Held(w.queue, g.claim)
    ensures Oracle.Covered(Pending(w, g.claim.key), g.batch[|g.batch| - 1].seqNo) == |g.batch|
  {
    var k := g.claim.key;
    assert KeyHistory(w, k);
    var u := w.queue.units[k];
    var through := g.batch[|g.batch| - 1].seqNo;
    CoveredExact(u, through);
    assert u.queue[|g.batch| - 1] == Arrivals(w, k)[g.base + |g.batch| - 1];
    if |g.batch| < |u.queue| {
      assert u.queue[|g.batch|].task.seqNo > through;
    }
  }

  lemma BatchProcessed<K>(w: World<K>, g: Agent<K>)
    requires AgentOk(w, g) && g.Busy? && Oracle.Held(w.queue, g.claim) && g.done == |g.batch|
    ensures var k := g.claim.key; forall m :: Head(w, k) <= m < Head(w, k) + |g.batch| ==> WasProcessed(Log(w, k), m)
  {
  }

  /** Batches are acknowledged only when every task of them has been processed. */
  lemma SettleLogOk<K(!new)>(w: World<K>, g: Agent<K>, now: int, k: K)
    requires HistoryInv(w) && AgentOk(w, g) && g.Busy? && g.done == |g.batch|
    requires LogOk(Log(w, k), Head(w, k))
    ensures var n := Next(w, Timed(now, Settle(g.claim, g.batch[|g.batch| - 1].seqNo)));
            LogOk(Log(n, k), Head(n, k))
  {
    assert KeyHistory(w, k);
    var t := Timed(now, Settle(g.claim, g.batch[|g.batch| - 1].seqNo));
    var n := Next(w, t);
    var gone := SettleParts(w, t, k, n);
    GoneProcessed(w, g, k, gone);
    SettledLogOk(w, n, k, gone);
  }

  lemma GoneProcessed<K(!new)>(w: World<K>, g: Agent<K>, k: K, gone: nat)
    requires HistoryInv(w) && AgentOk(w, g) && g.Busy? && g.done == |g.batch|
    requires gone == if Oracle.Held(w.queue, g.claim) && k == g.claim.key
                     then Oracle.Covered(Pending(w, k), g.batch[|g.batch| - 1].seqNo) else 0
    ensures forall m :: Head(w, k) <= m < Head(w, k) + gone ==> WasProcessed(Log(w, k), m)
  {
    if gone > 0 {
      CoveredBatch(w, g);
      BatchProcessed(w, g);
    }
  }

  lemma SettledLogOk<K>(w: World<K>, n: World<K>, k: K, gone: nat)
    requires gone <= |Pending(w, k)| && Head(w, k) >= 0 && LogOk(Log(w, k), Head(w, k))
    requires forall m :: Head(w, k) <= m < Head(w, k) + gone ==> WasProcessed(Log(w, k), m)
    requires Pending(n, k) == Pending(w, k)[gone..] && Arrivals(n, k) == Arrivals(w, k)
    requires Log(n, k) == Log(w, k) + AckedRun(Head(w, k), gone)
    ensures LogOk(Log(n, k), Head(n, k))
  {
    AckedLogOk(Log(w, k), Head(w, k), gone);
  }

  lemma FaultLogOk<K(!new)>(w: World<K>, t: Timed<K>, k: K)
    requires HistoryInv(w) && t.op.Fault? && LogOk(Log(w, k), Head(w, k))
    ensures LogOk(Log(Next(w, t), k), Head(Next(w, t), k))
  {
    assert KeyHistory(w, k);
    var d := FaultParts(w, t, k, Next(w, t));
    DeadLogOk(Log(w, k), Head(w, k));
  }

  /** The common part of all steps of the queue: only the acting worker's own state may need care. */
  lemma AdvanceKeeps<K(!new)>(s: System<K>, now: int, op: Op<K>, a: nat)
    requires SystemInv(s) && Enabled(s.world, Timed(now, op))
    requires op.Settle? || op.Fault? ==> a in s.agents && !s.agents[a].Idle? && s.agents[a].claim == op.claim
    requires op.Settle? ==> s.agents[a].Busy? && s.agents[a].done == |s.agents[a].batch| &&
                            op.through == s.agents[a].batch[|s.agents[a].batch| - 1].seqNo
    ensures var w := Next(s.world, Timed(now, op));
            && HistoryInv(w) && s.world.queue.issued <= w.queue.issued
            && (forall k: K :: LogOk(Log(w, k), Head(w, k)))
            && (forall b :: b in s.agents && b != a ==> AgentOk(w, s.agents[b]))
            && (!op.Settle? && !op.Fault? && a in s.agents ==> AgentOk(w, s.agents[a]))
  {
    var t := Timed(now, op);
    StepHistory(s.world, t);
    forall k: K ensures LogOk(Log(Next(s.world, t), k), Head(Next(s.world, t), k)) {
      if op.Settle? {
        SettleLogOk(s.world, s.agents[a], now, k);
      } else if op.Fault? {
        FaultLogOk(s.world, t, k);
      } else {
        Grows(s.world, t, k);
      }
    }
    forall b | b in s.agents && (b != a || (!op.Settle? && !op.Fault?))
      ensures AgentOk(Next(s.world, t), s.agents[b])
    {
      AgentKeeps(s.world, t, s.agents[b]);
    }
  }

  /** A batch drained under a held lease is the run of arrivals that starts at the head. */
  lemma DrainedBatchOk<K(!new)>(w: World<K>, c: Claimed<K>, max: nat, batch: seq<Task>)
    requires HistoryInv(w) && LogOk(Log(w, c.key), Head(w, c.key)) && max >= 1
    requires Oracle.Held(w.queue, c) && Oracle.Drain(w.queue, c, max) == Ok(batch)
    ensures BatchOk(w, c, Head(w, c.key), batch, 0)
  {
    assert KeyHistory(w, c.key);
    var q, h := Pending(w, c.key), Head(w, c.key);
    assert |q| > 0 && |batch| == Oracle.Min(max, |q|);
    forall i | 0 <= i < |batch| ensures batch[i] == Arrivals(w, c.key)[h + i].task {
      assert q[i] == Arrivals(w, c.key)[h + i];
    }
  }

  lemma DrainKeeps<K(!new)>(s: System<K>, x: Action<K>)
    requires SystemInv(s) && CanAct(s, x) && x.step.Drain?
    ensures SystemInv(Act(s, x))
  {
    var w, g := s.world, s.agents[x.step.agent];
    var r := Oracle.Drain(w.queue, g.claim, x.step.max);
    if r.Ok? {
      assert LogOk(Log(w, g.claim.key), Head(w, g.claim.key));
      DrainedBatchOk(w, g.claim, x.step.max, r.value);
    }
    assert AgentOk(w, g);
  }

  /** So is a batch looked up, whether or not its lease is still held. */
  lemma LookedBatchOk<K>(w: World<K>, c: Claimed<K>, n: nat)
    requires KeyHistory(w, c.key) && LogOk(Log(w, c.key), Head(w, c.key)) && 0 < n <= |Pending(w, c.key)|
    ensures BatchOk(w, c, Head(w, c.key), Oracle.Tasks(Pending(w, c.key)[..n]), 0)
  {
    var q, h := Pending(w, c.key), Head(w, c.key);
    forall i | 0 <= i < n ensures Oracle.Tasks(q[..n])[i] == Arrivals(w, c.key)[h + i].task {
      assert q[i] == Arrivals(w, c.key)[h + i];
    }
  }

  lemma LookKeeps<K(!new)>(s: System<K>, x: Action<K>)
    requires SystemInv(s) && CanAct(s, x) && x.step.Look?
    ensures SystemInv(Act(s, x))
  {
    var w, g := s.world, s.agents[x.step.agent];
    assert KeyHistory(w, g.claim.key) && LogOk(Log(w, g.claim.key), Head(w, g.claim.key));
    var c, n := g.claim, x.step.count;
    LookedBatchOk(w, c, n);
    var h := Busy(c, Head(w, c.key), Oracle.Tasks(Pending(w, c.key)[..n]), 0);
    LookTakes(s, x, h);
    Retaken(s, x.step.agent, h);
  }

  lemma LookTakes<K>(s: System<K>, x: Action<K>, h: Agent<K>)
    requires CanAct(s, x) && x.step.Look?
    requires var c := s.agents[x.step.agent].claim;
             h == Busy(c, Head(s.world, c.key), Oracle.Tasks(Pending(s.world, c.key)[..x.step.count]), 0)
    ensures Act(s, x) == Become(s, x.step.agent, h)
  {
  }

  /** A worker given another batch under the claim it has. */
  lemma Retaken<K(!new)>(s: System<K>, a: nat, h: Agent<K>)
    requires SystemInv(s) && a in s.agents && !s.agents[a].Idle? && h.Busy? && h.claim == s.agents[a].claim
    requires BatchOk(s.world, h.claim, h.base, h.batch, h.done)
    ensures SystemInv(Become(s, a, h))
  {
    assert AgentOk(s.world, s.agents[a]);
    StaysDistinct(s.agents, a, h);
    AgentsWith(s.world, s.agents, a, h);
  }

  lemma QuitKeeps<K(!new)>(s: System<K>, x: Action<K>)
    requires SystemInv(s) && CanAct(s, x) && x.step.Quit?
    ensures SystemInv(Act(s, x))
  {
    AdvanceKeeps(s, x.now, GiveUp(s.agents[x.step.agent].claim), x.step.agent);
  }

  /** Recording one more processed arrival keeps every batch, and advances the one it came from. */
  lemma NotedBatchOk<K(!new)>(w: World<K>, k: K, m: int, c: Claimed<K>, base: int, batch: seq<Task>, done: nat, after: nat)
    requires BatchOk(w, c, base, batch, done)
    requires after == done || (c.key == k && m == base + done && after == done + 1 <= |batch|)
    ensures BatchOk(Note(w, k, [Processed(m)]), c, base, batch, after)
  {
    var n := Note(w, k, [Processed(m)]);
    if c.key == k {
      var log := Log(w, k);
      assert Log(n, k) == log + [Processed(m)] && Log(n, k)[|log|] == Processed(m);
      forall j | 0 <= j < base + after ensures Reached(Log(n, k), j) {
        LogMore(log, [Processed(m)], j);
      }
      forall j | base <= j < base + after ensures WasProcessed(Log(n, k), j) {
        LogMore(log, [Processed(m)], j);
      }
    } else {
      assert Log(n, c.key) == Log(w, c.key);
    }
  }

  lemma ProcessKeeps<K(!new)>(s: System<K>, x: Action<K>)
    requires SystemInv(s) && CanAct(s, x) && x.step.Process?
    ensures SystemInv(Act(s, x))
  {
    var g := s.agents[x.step.agent];
    assert AgentOk(s.world, g);
    ProcessNote(s.world, g.claim.key, g.base + g.done);
    NotedLogs(s.world, g.claim.key, g.base + g.done);
    NotedAgents(s, x.step.agent, g.(done := g.done + 1));
    SameClaims(s, Act(s, x).world, x.step.agent, g.(done := g.done + 1));
  }

  lemma NotedLogs<K(!new)>(w: World<K>, k: K, m: int)
    requires forall j: K :: LogOk(Log(w, j), Head(w, j))
    requires forall i :: 0 <= i < m ==> Reached(Log(w, k), i)
    ensures var n := Note(w, k, [Processed(m)]); forall j: K :: LogOk(Log(n, j), Head(n, j))
  {
    forall j: K ensures LogOk(Log(Note(w, k, [Processed(m)]), j), Head(Note(w, k, [Processed(m)]), j)) {
      NotedLogOk(w, k, m, j);
    }
  }

  /** An agent that keeps its claim leaves the tokens distinct. */
  lemma SameClaims<K(!new)>(s: System<K>, n: World<K>, a: nat, h: Agent<K>)
    requires SystemInv(s) && a in s.agents && !s.agents[a].Idle? && !h.Idle? && h.claim == s.agents[a].claim
    requires HistoryInv(n) && (forall k: K :: LogOk(Log(n, k), Head(n, k)))
    requires forall b :: b in s.agents ==> AgentOk(n, s.agents[a := h][b])
    ensures SystemInv(System(n, s.agents[a := h]))
  {
  }

  lemma NotedAgents<K(!new)>(s: System<K>, a: nat, h: Agent<K>)
    requires forall b :: b in s.agents ==> AgentOk(s.world, s.agents[b])
    requires a in s.agents && s.agents[a].Busy? && s.agents[a].done < |s.agents[a].batch|
    requires h == s.agents[a].(done := s.agents[a].done + 1)
    ensures var n := Note(s.world, h.claim.key, [Processed(h.base + s.agents[a].done)]);
            forall b :: b in s.agents ==> AgentOk(n, s.agents[a := h][b])
  {
    forall b | b in s.agents
      ensures AgentOk(Note(s.world, h.claim.key, [Processed(h.base + s.agents[a].done)]), s.agents[a := h][b])
    {
      NotedAgentOk(s.world, h.claim.key, h.base + s.agents[a].done, s.agents[b], s.agents[a := h][b]);
    }
  }

  lemma NotedLogOk<K>(w: World<K>, k: K, m: int, j: K)
    requires LogOk(Log(w, j), Head(w, j)) && (j == k ==> forall i :: 0 <= i < m ==> Reached(Log(w, k), i))
    ensures var n := Note(w, k, [Processed(m)]); LogOk(Log(n, j), Head(n, j))
  {
    if j == k {
      ProcessedLogOk(Log(w, k), Head(w, k), m);
    }
  }

  lemma NotedAgentOk<K(!new)>(w: World<K>, k: K, m: int, g: Agent<K>, h: Agent<K>)
    requires AgentOk(w, g)
    requires h == g || (g.Busy? && g.claim.key == k && m == g.base + g.done && g.done < |g.batch| && h == g.(done := g.done + 1))
    ensures AgentOk(Note(w, k, [Processed(m)]), h)
  {
    if g.Busy? {
      NotedBatchOk(w, k, m, g.claim, g.base, g.batch, g.done, h.done);
    }
  }

  lemma ProcessNote<K(!new)>(w: World<K>, k: K, m: int)
    requires HistoryInv(w)
    ensures HistoryInv(Note(w, k, [Processed(m)]))
  {
    var n := Note(w, k, [Processed(m)]);
    forall j: K ensures KeyHistory(n, j) {
      assert KeyHistory(w, j);
      if j == k {
        SettledPush(Log(w, k), Processed(m));
        assert Log(n, k)[..|Log(n, k)| - 1] == Log(w, k);
      }
    }
  }

  lemma ClientKeeps<K(!new)>(s: System<K>, x: Action<K>)
    requires SystemInv(s) && CanAct(s, x) && x.step.Client?
    ensures SystemInv(Act(s, x))
  {
    AdvanceKeeps(s, x.now, x.step.op, 0);
  }

  lemma ClaimKeeps<K(!new)>(s: System<K>, x: Action<K>)
    requires SystemInv(s) && CanAct(s, x) && x.step.Claim?
    ensures SystemInv(Act(s, x))
  {
    AdvanceKeeps(s, x.now, Take(x.step.key, x.step.worker, x.step.token, x.step.window), x.step.agent);
  }

  lemma AckKeeps<K(!new)>(s: System<K>, x: Action<K>)
    requires SystemInv(s) && CanAct(s, x) && x.step.Ack?
    ensures SystemInv(Act(s, x))
  {
    var g := s.agents[x.step.agent];
    var through := g.batch[|g.batch| - 1].seqNo;
    AdvanceKeeps(s, x.now, Settle(g.claim, through), x.step.agent);
    Acts(s, x, g, through);
    AckStepKeeps(s, x.now, x.step.agent, g, through);
  }

  lemma Acts<K>(s: System<K>, x: Action<K>, g: Agent<K>, through: int)
    requires CanAct(s, x) && x.step.Ack? && g == s.agents[x.step.agent] && through == g.batch[|g.batch| - 1].seqNo
    ensures Act(s, x) == AckStep(s, x.now, x.step.agent, g.claim, through)
    ensures Enabled(s.world, Timed(x.now, Settle(g.claim, through)))
  {
  }

  /** After its acknowledgement a worker holds on or is idle; nobody else is touched. */
  lemma AckStepKeeps<K(!new)>(s: System<K>, now: int, a: nat, g: Agent<K>, through: int)
    requires Distinct(s.agents) && a in s.agents && s.agents[a] == g && g.Busy? && g.claim.token in s.world.queue.issued
    requires var w := Next(s.world, Timed(now, Settle(g.claim, through)));
             && HistoryInv(w) && s.world.queue.issued <= w.queue.issued && LogsOk(w)
             && (forall b :: b in s.agents && b != a ==> AgentOk(w, s.agents[b]))
    ensures SystemInv(AckStep(s, now, a, g.claim, through))
  {
    var t := AckStep(s, now, a, g.claim, through);
    var h := t.agents[a];
    StaysDistinct(s.agents, a, h);
    AgentsWith(t.world, s.agents, a, h);
  }

  lemma FailKeeps<K(!new)>(s: System<K>, x: Action<K>)
    requires SystemInv(s) && CanAct(s, x) && x.step.Fail?
    ensures SystemInv(Act(s, x))
  {
    AdvanceKeeps(s, x.now, Fault(s.agents[x.step.agent].claim, x.step.seqNo, x.step.reason), x.step.agent);
  }

  lemma ActKeeps<K(!new)>(s: System<K>, x: Action<K>)
    requires SystemInv(s) && CanAct(s, x)
    ensures SystemInv(Act(s, x))
  {
    match x.step
    case Client(_) => ClientKeeps(s, x);
    case Claim(_, _, _, _, _) => ClaimKeeps(s, x);
    case Drain(_, _) => DrainKeeps(s, x);
    case Look(_, _) => LookKeeps(s, x);
    case Quit(_) => QuitKeeps(s, x);
    case Process(_) => ProcessKeeps(s, x);
    case Ack(_) => AckKeeps(s, x);
    case Fail(_, _, _) => FailKeeps(s, x);
    case Crash(_) =>
  }

  // ---------- the theorems ----------

  /** Workers start idle over an empty queue. */
  ghost predicate Initial<K(!new)>(s: System<K>, cfg: Oracle.Config) {
    cfg.threshold > 0 && cfg.maxWait >= 0 && cfg.maxAttempts > 0 && s.world == Start<K>(cfg) &&
    forall a :: a in s.agents ==> s.agents[a].Idle?
  }

  lemma {:induction false} RunKeeps<K(!new)>(s: System<K>, xs: seq<Action<K>>)
    requires SystemInv(s)
    ensures SystemInv(Run(s, xs))
  {
    if xs != [] {
      var before := Run(s, xs[..|xs| - 1]);
      RunKeeps(s, xs[..|xs| - 1]);
      if CanAct(before, xs[|xs| - 1]) {
        ActKeeps(before, xs[|xs| - 1]);
      }
    }
  }

  lemma InitialInv<K(!new)>(s: System<K>, cfg: Oracle.Config)
    requires Initial(s, cfg)
    ensures SystemInv(s)
  {
    StartHistory<K>(cfg);
    forall k: K ensures LogOk(Log(s.world, k), Head(s.world, k)) {
      assert Log(s.world, k) == [] && Head(s.world, k) == 0;
    }
  }

  /**
   Processing follows arrival order. For any number of workers, any interleaving and any crashes:
   whenever the log of a key shows an arrival processed, every earlier arrival of that key was
   processed or dead-lettered before; and every acknowledged arrival was processed before its ack.
   */
  lemma ProcessingFollowsArrivals<K(!new)>(s: System<K>, cfg: Oracle.Config, xs: seq<Action<K>>, k: K, p: nat)
    requires Initial(s, cfg) && p < |Log(Run(s, xs).world, k)|
    ensures var log := Log(Run(s, xs).world, k); var e := log[p];
            && (e.Processed? ==> forall m :: 0 <= m < e.index ==> Reached(log[..p], m))
            && (e.Acked? ==> WasProcessed(log[..p], e.index))
            && (!e.Processed? ==> e.index == Settled(log[..p]))
  {
    InitialInv(s, cfg);
    RunKeeps(s, xs);
    assert LogOk(Log(Run(s, xs).world, k), Head(Run(s, xs).world, k));
    assert KeyHistory(Run(s, xs).world, k);
  }

  /** As long as no task of a key is dead-lettered, the processed arrivals are an initial segment. */
  lemma ProcessedIsInitialSegment<K(!new)>(s: System<K>, cfg: Oracle.Config, xs: seq<Action<K>>, k: K, i: int, m: int)
    requires Initial(s, cfg) && WasProcessed(Log(Run(s, xs).world, k), i) && 0 <= m <= i
    requires forall p :: 0 <= p < |Log(Run(s, xs).world, k)| ==> !Log(Run(s, xs).world, k)[p].Dead?
    ensures WasProcessed(Log(Run(s, xs).world, k), m)
  {
    var log := Log(Run(s, xs).world, k);
    var p :| 0 <= p < |log| && log[p].Processed? && log[p].index == i;
    if m < i {
      ProcessingFollowsArrivals(s, cfg, xs, k, p);
      assert Reached(log[..p], m);
      var q :| 0 <= q < p && (log[..p][q].Processed? || log[..p][q].Dead?) && log[..p][q].index == m;
      assert log[q] == log[..p][q];
    }
  }

  /** The task a worker processes is the arrival its log entry names, payload and cost included. */
  lemma ProcessedTaskIsTheArrival<K(!new)>(s: System<K>, cfg: Oracle.Config, xs: seq<Action<K>>, a: nat)
    requires Initial(s, cfg)
    requires a in Run(s, xs).agents && Run(s, xs).agents[a].Busy? && Run(s, xs).agents[a].done < |Run(s, xs).agents[a].batch|
    ensures var g := Run(s, xs).agents[a]; var arrivals := Arrivals(Run(s, xs).world, g.claim.key);
            0 <= g.base && g.base + g.done < |arrivals| && g.batch[g.done] == arrivals[g.base + g.done].task
  {
    InitialInv(s, cfg);
    RunKeeps(s, xs);
    assert AgentOk(Run(s, xs).world, Run(s, xs).agents[a]);
  }

  /** At most one worker holds a unit, and the batch of the holder starts at the unit's head. */
  lemma HoldersAreExclusive<K(!new)>(s: System<K>, cfg: Oracle.Config, xs: seq<Action<K>>, a: nat, b: nat)
    requires Initial(s, cfg) && a in Run(s, xs).agents && b in Run(s, xs).agents
    requires !Run(s, xs).agents[a].Idle? && !Run(s, xs).agents[b].Idle?
    requires Run(s, xs).agents[a].claim.key == Run(s, xs).agents[b].claim.key
    requires Oracle.Held(Run(s, xs).world.queue, Run(s, xs).agents[a].claim)
    requires Oracle.Held(Run(s, xs).world.queue, Run(s, xs).agents[b].claim)
    ensures a == b
    ensures Run(s, xs).agents[a].Busy? ==>
              Run(s, xs).agents[a].base == Head(Run(s, xs).world, Run(s, xs).agents[a].claim.key)
  {
    InitialInv(s, cfg);
    RunKeeps(s, xs);
    assert AgentOk(Run(s, xs).world, Run(s, xs).agents[a]);
  }
}
