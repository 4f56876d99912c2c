/** Leases and the workers behind them: only a crash leaves a lease that nobody works under. */
module Attendance {
  import opened Contract
  import O = Oracle
  import H = History
  import opened Workers

  /** The worker holds the unit and has not turned to anything else. */
  ghost predicate Attends<K>(s: System<K>, a: nat, k: K) {
    a in s.agents && !s.agents[a].Idle? && s.agents[a].claim.key == k && O.Held(s.world.queue, s.agents[a].claim)
  }

  ghost predicate Leased<K>(s: System<K>, k: K) {
    k in s.world.queue.units && s.world.queue.units[k].lease.Some?
  }

  ghost predicate AttendedAt<K>(s: System<K>, k: K) {
    Leased(s, k) ==> exists a :: Attends(s, a, k)
  }

  ghost predicate Attended<K(!new)>(s: System<K>) {
    forall k: K :: AttendedAt(s, k)
  }

  /** Of a unit leased afterwards: it was leased before, and to the same worker under the same token. */
  ghost predicate Kept<K>(s: O.State<K>, e: O.State<K>, k: K) {
    k in e.units && e.units[k].lease.Some? ==>
      && k in s.units && s.units[k].lease.Some?
      && s.units[k].lease.value.worker == e.units[k].lease.value.worker
      && s.units[k].lease.value.token == e.units[k].lease.value.token
  }

  lemma SettleKept<K>(s: O.State<K>, c: Claimed<K>, through: int, now: int, k: K)
    ensures Kept(s, O.Ack(s, c, through, now), k)
  {
  }

  lemma FaultKept<K>(s: O.State<K>, c: Claimed<K>, seqNo: int, reason: string, now: int, k: K)
    ensures Kept(s, O.Fail(s, c, seqNo, reason, now), k)
  {
  }

  lemma SweepKept<K>(s: O.State<K>, expiredBefore: int, at: int, k: K)
    ensures Kept(s, O.Reap(s, expiredBefore, at), k)
  {
  }

  lemma ArriveKept<K>(s: O.State<K>, j: K, payload: string, cost: int, now: int, k: K)
    ensures Kept(s, O.Enqueue(s, j, payload, cost, now), k)
  {
  }

  /** Whoever holds a unit after a step of the queue took it then or held it before. */
  lemma HeldBefore<K>(s: O.State<K>, t: H.Timed<K>, k: K)
    requires !(t.op.Take? && t.op.key == k)
    ensures Kept(s, H.Effect(s, t), k)
  {
    match t.op
    case Arrive(j, payload, cost) => ArriveKept(s, j, payload, cost, t.now, k);
    case Settle(c, through) => SettleKept(s, c, through, t.now, k);
    case Fault(c, seqNo, reason) => FaultKept(s, c, seqNo, reason, t.now, k);
    case Sweep(expiredBefore, at) => SweepKept(s, expiredBefore, at, k);
    case _ =>
  }

  /** Giving up, failing or acknowledging a held unit away leaves it without a lease. */
  lemma LetGo<K>(s: O.State<K>, t: H.Timed<K>, c: Claimed<K>)
    requires O.Held(s, c) && (t.op == H.GiveUp(c) || (t.op.Fault? && t.op.claim == c))
    ensures var e := H.Effect(s, t); c.key in e.units ==> e.units[c.key].lease.None?
  {
  }

  /** A worker that keeps its claim goes on attending; one that lets go did not hold, or leaves no lease. */
  lemma StillAttended<K>(s: System<K>, n: System<K>, t: H.Timed<K>, k: K, actor: nat)
    requires AttendedAt(s, k) && n.world.queue == H.Effect(s.world.queue, t) && !(t.op.Take? && t.op.key == k)
    requires forall b :: b in s.agents && b != actor ==> b in n.agents && n.agents[b] == s.agents[b]
    requires actor in s.agents && !s.agents[actor].Idle? ==>
               actor in n.agents && (if n.agents[actor].Idle? then !(Leased(n, k) && Attends(s, actor, k))
                                     else n.agents[actor].claim == s.agents[actor].claim)
    ensures AttendedAt(n, k)
  {
    if Leased(n, k) {
      HeldBefore(s.world.queue, t, k);
      var a :| Attends(s, a, k);
      assert Attends(n, a, k);
    }
  }

  /** The same when the queue stays as it is. */
  lemma StayAttended<K>(s: System<K>, n: System<K>, k: K, actor: nat)
    requires AttendedAt(s, k) && n.world.queue == s.world.queue
    requires forall b :: b in s.agents && b != actor ==> b in n.agents && n.agents[b] == s.agents[b]
    requires actor in s.agents && !s.agents[actor].Idle? ==>
               actor in n.agents && (if n.agents[actor].Idle? then !Attends(s, actor, k)
                                     else n.agents[actor].claim == s.agents[actor].claim)
    ensures AttendedAt(n, k)
  {
    if Leased(n, k) {
      var a :| Attends(s, a, k);
      assert Attends(n, a, k);
    }
  }

  lemma ClaimAttends<K>(s: System<K>, x: Action<K>, k: K)
    requires CanAct(s, x) && x.step.Claim? && (x.step.key == k || AttendedAt(s, k))
    ensures AttendedAt(Act(s, x), k)
  {
    var t := H.Timed(x.now, H.Take(x.step.key, x.step.worker, x.step.token, x.step.window));
    H.NextIs(s.world, t);
    if x.step.key == k {
      assert Attends(Act(s, x), x.step.agent, k);
    } else {
      StillAttended(s, Act(s, x), t, k, x.step.agent);
    }
  }

  lemma AckAttends<K>(s: System<K>, x: Action<K>, k: K)
    requires CanAct(s, x) && x.step.Ack? && AttendedAt(s, k)
    ensures AttendedAt(Act(s, x), k)
  {
    var g := s.agents[x.step.agent];
    var t := H.Timed(x.now, H.Settle(g.claim, g.batch[|g.batch| - 1].seqNo));
    Acts(s, x, g, t.op.through);
    H.NextIs(s.world, t);
    var n := Act(s, x);
    if Attends(s, x.step.agent, k) && Leased(n, k) {
      HeldBefore(s.world.queue, t, k);
    }
    StillAttended(s, n, t, k, x.step.agent);
  }

  /** Giving the unit up, or failing one of its tasks. */
  lemma LetGoAttends<K>(s: System<K>, n: System<K>, t: H.Timed<K>, k: K, actor: nat)
    requires AttendedAt(s, k) && actor in s.agents && !s.agents[actor].Idle?
    requires t.op == H.GiveUp(s.agents[actor].claim) || (t.op.Fault? && t.op.claim == s.agents[actor].claim)
    requires n == Become(s.(world := H.Next(s.world, t)), actor, Idle)
    ensures AttendedAt(n, k)
  {
    H.NextIs(s.world, t);
    if Attends(s, actor, k) {
      LetGo(s.world.queue, t, s.agents[actor].claim);
    }
    StillAttended(s, n, t, k, actor);
  }

  lemma DrainAttends<K>(s: System<K>, x: Action<K>, k: K)
    requires CanAct(s, x) && x.step.Drain? && AttendedAt(s, k)
    ensures AttendedAt(Act(s, x), k)
  {
    var c := s.agents[x.step.agent].claim;
    var r := O.Drain(s.world.queue, c, x.step.max);
    if r == Ok([]) {
      LetGoAttends(s, Act(s, x), H.Timed(x.now, H.GiveUp(c)), k, x.step.agent);
    } else {
      StayAttended(s, Act(s, x), k, x.step.agent);
    }
  }

  lemma ClientAttends<K>(s: System<K>, x: Action<K>, k: K)
    requires CanAct(s, x) && x.step.Client? && AttendedAt(s, k)
    ensures AttendedAt(Act(s, x), k)
  {
    var t := H.Timed(x.now, x.step.op);
    H.NextIs(s.world, t);
    if Leased(Act(s, x), k) {
      HeldBefore(s.world.queue, t, k);
      var a :| Attends(s, a, k);
      assert Attends(Act(s, x), a, k);
    }
  }

  lemma ActAttends<K>(s: System<K>, x: Action<K>, k: K)
    requires CanAct(s, x) && !x.step.Crash? && AttendedAt(s, k)
    ensures AttendedAt(Act(s, x), k)
  {
    match x.step
    case Client(_) => ClientAttends(s, x, k);
    case Claim(_, _, _, _, _) => ClaimAttends(s, x, k);
    case Drain(_, _) => DrainAttends(s, x, k);
    case Look(a, _) => StayAttended(s, Act(s, x), k, a);
    case Quit(a) => LetGoAttends(s, Act(s, x), H.Timed(x.now, H.GiveUp(s.agents[a].claim)), k, a);
    case Process(a) => StayAttended(s, Act(s, x), k, a);
    case Ack(_) => AckAttends(s, x, k);
    case Fail(a, seqNo, reason) =>
      LetGoAttends(s, Act(s, x), H.Timed(x.now, H.Fault(s.agents[a].claim, seqNo, reason)), k, a);
  }

  ghost function LeaseAt<K>(s: System<K>, k: K): O.Lease
    requires Leased(s, k)
  {
    s.world.queue.units[k].lease.value
  }

  ghost predicate SameLease<K>(s: System<K>, n: System<K>, k: K) {
    Leased(n, k) ==> Leased(s, k) && LeaseAt(s, k).token == LeaseAt(n, k).token
  }

  /** A lease that is there after an action was there before, unless the action claimed the unit. */
  lemma LeaseWasThere<K>(s: System<K>, x: Action<K>, k: K)
    requires CanAct(s, x) && !(x.step.Claim? && x.step.key == k)
    ensures SameLease(s, Act(s, x), k)
  {
    match x.step
    case Client(op) => Moved(s, Act(s, x), H.Timed(x.now, op), k);
    case Claim(_, j, worker, token, window) => Moved(s, Act(s, x), H.Timed(x.now, H.Take(j, worker, token, window)), k);
    case Drain(a, max) =>
      if O.Drain(s.world.queue, s.agents[a].claim, max) == Ok([]) {
        Moved(s, Act(s, x), H.Timed(x.now, H.GiveUp(s.agents[a].claim)), k);
      }
    case Quit(a) => Moved(s, Act(s, x), H.Timed(x.now, H.GiveUp(s.agents[a].claim)), k);
    case Ack(a) =>
      var g := s.agents[a];
      Acts(s, x, g, g.batch[|g.batch| - 1].seqNo);
      Moved(s, Act(s, x), H.Timed(x.now, H.Settle(g.claim, g.batch[|g.batch| - 1].seqNo)), k);
    case Fail(a, seqNo, reason) => Moved(s, Act(s, x), H.Timed(x.now, H.Fault(s.agents[a].claim, seqNo, reason)), k);
    case _ =>
  }

  lemma Moved<K>(s: System<K>, n: System<K>, t: H.Timed<K>, k: K)
    requires n.world == H.Next(s.world, t) && !(t.op.Take? && t.op.key == k)
    ensures SameLease(s, n, k)
  {
    H.NextIs(s.world, t);
    if Leased(n, k) {
      HeldBefore(s.world.queue, t, k);
    }
  }

  /** Some worker crashed while it bore the token. */
  ghost predicate Abandoned<K>(s: System<K>, xs: seq<Action<K>>, token: string) {
    if xs == [] then false else
    var before, x := Run(s, xs[..|xs| - 1]), xs[|xs| - 1];
    Abandoned(s, xs[..|xs| - 1], token) ||
    (CanAct(before, x) && x.step.Crash? && !before.agents[x.step.agent].Idle? && before.agents[x.step.agent].claim.token == token)
  }

  /** In every run a unit's lease has a worker that holds it, unless the worker it was granted to crashed. */
  lemma LeasesAreAttended<K(!new)>(s: System<K>, cfg: O.Config, xs: seq<Action<K>>, k: K)
    requires Initial(s, cfg) && Leased(Run(s, xs), k) && !Abandoned(s, xs, LeaseAt(Run(s, xs), k).token)
    ensures exists a :: Attends(Run(s, xs), a, k)
  {
    RunAttends(s, xs, k);
  }

  lemma {:induction false} RunAttends<K>(s: System<K>, xs: seq<Action<K>>, k: K)
    requires AttendedAt(s, k) && Leased(Run(s, xs), k) && !Abandoned(s, xs, LeaseAt(Run(s, xs), k).token)
    ensures AttendedAt(Run(s, xs), k)
  {
    if xs != [] {
      var before, x := Run(s, xs[..|xs| - 1]), xs[|xs| - 1];
      if CanAct(before, x) {
        if x.step.Claim? && x.step.key == k {
          ClaimAttends(before, x, k);
        } else {
          LeaseWasThere(before, x, k);
          RunAttends(s, xs[..|xs| - 1], k);
          if x.step.Crash? {
            StayAttended(before, Act(before, x), k, x.step.agent);
          } else {
            ActAttends(before, x, k);
          }
        }
      } else {
        RunAttends(s, xs[..|xs| - 1], k);
      }
    }
  }
}
