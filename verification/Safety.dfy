/** What holds over whole runs of the queue, for every client behaviour. */
module Safety {
  import opened Contract
  import opened Oracle
  import opened Invariant
  import opened History

  // ---------- conservation ----------

  ghost predicate SettlesAt(log: seq<Event>, p: int, i: int) {
    0 <= p < |log| && !log[p].Processed? && log[p].index == i
  }

  lemma {:induction false} SettledMonotone(log: seq<Event>, p: nat, q: nat)
    requires p <= q <= |log|
    ensures Settled(log[..p]) <= Settled(log[..q])
    ensures p < q && !log[p].Processed? ==> Settled(log[..p]) < Settled(log[..q])
    decreases q - p
  {
    if p < q {
      SettledMonotone(log, p, q - 1);
      assert log[..q][..q - 1] == log[..q - 1];
    }
  }

  lemma {:induction false} SettledWitness(log: seq<Event>, i: nat) returns (p: nat)
    requires InOrder(log) && i < Settled(log)
    ensures SettlesAt(log, p, i)
  {
    var l := log[..|log| - 1];
    if i < Settled(l) {
      assert InOrder(l) by {
        forall p | 0 <= p < |l| ensures l[..p] == log[..p] && l[p] == log[p] {
        }
      }
      p := SettledWitness(l, i);
    } else {
      p := |l|;
    }
  }

  /**
   Each arrival is in exactly one place: still pending, at its own position of the queue, or
   settled by exactly one event, which acknowledged it or sent it to the dead letters.
   */
  lemma Conservation<K(!new)>(w: World<K>, k: K, i: nat)
    requires HistoryInv(w) && i < |Arrivals(w, k)|
    ensures i >= Head(w, k) ==> Pending(w, k)[i - Head(w, k)] == Arrivals(w, k)[i]
    ensures i < Head(w, k) <==> exists p :: SettlesAt(Log(w, k), p, i)
    ensures forall p, q :: SettlesAt(Log(w, k), p, i) && SettlesAt(Log(w, k), q, i) ==> p == q
  {
    var log := Log(w, k);
    assert KeyHistory(w, k);
    assert log[..|log|] == log;
    if i < Head(w, k) {
      var p := SettledWitness(log, i);
    }
    forall p | SettlesAt(log, p, i) ensures i < Head(w, k) {
      SettledMonotone(log, p, |log|);
    }
    forall p, q | SettlesAt(log, p, i) && SettlesAt(log, q, i) ensures p == q {
      if p < q {
        SettledMonotone(log, p, q);
      } else if q < p {
        SettledMonotone(log, q, p);
      }
    }
  }

  /**
   Only a head is ever dead-lettered or acknowledged: everything that arrived before was already
   settled. And the dead letters of a key are exactly its dead arrivals, in order.
   */
  lemma OnlyHeadsSettle<K(!new)>(w: World<K>, ts: seq<Timed<K>>, k: K, p: nat, i: nat, j: nat)
    requires HistoryInv(w) && Legal(w, ts)
    requires var log := Log(Run(w, ts), k); SettlesAt(log, p, i) && j < i
    ensures exists q :: 0 <= q < p && SettlesAt(Log(Run(w, ts), k), q, j)
    ensures DeadOf(Run(w, ts).queue.dlq, k) == DeadIn(Arrivals(Run(w, ts), k), Log(Run(w, ts), k))
  {
    RunHistory(w, ts);
    var log := Log(Run(w, ts), k);
    assert KeyHistory(Run(w, ts), k);
    var l := log[..p];
    assert InOrder(l) by {
      forall q | 0 <= q < |l| ensures l[..q] == log[..q] && l[q] == log[q] {
      }
    }
    var q := SettledWitness(l, j);
    assert SettlesAt(log, q, j);
  }

  // ---------- leases ----------

  lemma LostStep<K>(w: World<K>, t: Timed<K>, c: Claimed<K>)
    requires Enabled(w, t) && c.token in w.queue.issued && !Held(w.queue, c)
    ensures c.token in Next(w, t).queue.issued && !Held(Next(w, t).queue, c)
  {
    assert Next(w, t).queue == Effect(w.queue, t);
    LostEffect(w.queue, t, c);
  }

  lemma LostEffect<K>(s: State<K>, t: Timed<K>, c: Claimed<K>)
    requires c.token in s.issued && !Held(s, c) && (t.op.Take? ==> t.op.token !in s.issued)
    ensures c.token in Effect(s, t).issued && !Held(Effect(s, t), c)
  {
    match t.op
    case Arrive(_, _, _) =>
    case Take(_, _, _, _) =>
    case Settle(d, through) => LostAck(s, d, through, t.now, c);
    case GiveUp(_) =>
    case Extend(_, _) =>
    case Fault(d, seqNo, reason) => LostFail(s, d, seqNo, reason, t.now, c);
    case Sweep(_, _) =>
  }

  lemma LostAck<K>(s: State<K>, d: Claimed<K>, through: int, now: int, c: Claimed<K>)
    requires !Held(s, c)
    ensures Ack(s, d, through, now).issued == s.issued && !Held(Ack(s, d, through, now), c)
  {
    if Held(s, d) {
      AckShape(s, d, through, now);
    }
  }

  lemma LostFail<K>(s: State<K>, d: Claimed<K>, seqNo: int, reason: string, now: int, c: Claimed<K>)
    requires !Held(s, c)
    ensures Fail(s, d, seqNo, reason, now).issued == s.issued && !Held(Fail(s, d, seqNo, reason, now), c)
  {
    if Held(s, d) {
      FailShape(s, d, seqNo, reason, now);
    }
  }

  /** A lease once lost is never regained, across reclaims, deletion and revival of the unit. */
  lemma {:induction false} LostForever<K>(w: World<K>, ts: seq<Timed<K>>, c: Claimed<K>)
    requires Legal(w, ts) && c.token in w.queue.issued && !Held(w.queue, c)
    ensures c.token in Run(w, ts).queue.issued && !Held(Run(w, ts).queue, c)
  {
    if ts != [] {
      LostForever(w, ts[..|ts| - 1], c);
      LostStep(Run(w, ts[..|ts| - 1]), ts[|ts| - 1], c);
    }
  }

  // ---------- gate and fairness ----------

  /**
   Whatever happened before, a unit handed out has reached its threshold, or the head it has now
   has waited its full maximum by some observed time. And preferring the least flush deadline is
   preferring the unit whose head arrived first.
   */
  lemma ClaimsAreGatedAndFair<K(!new)>(w: World<K>, ts: seq<Timed<K>>, k: K)
    requires HistoryInv(w) && Legal(w, ts) && Claimable(Run(w, ts).queue, k)
    ensures var e := Run(w, ts); var u := e.queue.units[k];
            && (Total(u.queue) >= e.queue.cfg.threshold || u.queue[0].at + e.queue.cfg.maxWait <= e.seen)
            && (Oldest(e.queue, k) <==> forall j :: j in e.queue.units && Claimable(e.queue, j) ==>
                  u.queue[0].at <= e.queue.units[j].queue[0].at)
  {
    RunHistory(w, ts);
    var s := Run(w, ts).queue;
    assert UnitInv(s.units[k], s.cfg, s.issued, Run(w, ts).clock, Run(w, ts).seen);
    forall j | j in s.units && Claimable(s, j)
      ensures s.units[k].queue[0].at <= s.units[j].queue[0].at <==> s.units[k].flushDeadline <= s.units[j].flushDeadline
    {
      assert UnitInv(s.units[j], s.cfg, s.issued, Run(w, ts).clock, Run(w, ts).seen);
    }
  }

  /** No unit in the map is empty and every leased unit is eligible, in every reachable state. */
  lemma ReachableUnits<K(!new)>(cfg: Config, ts: seq<Timed<K>>, k: K)
    requires cfg.threshold > 0 && cfg.maxWait >= 0 && cfg.maxAttempts > 0
    requires Legal(Start<K>(cfg), ts) && k in Run(Start<K>(cfg), ts).queue.units
    ensures var u := Run(Start<K>(cfg), ts).queue.units[k];
            |u.queue| > 0 && u.pendingCost == Total(u.queue) && Contiguous(u) && HeadFields(u) &&
            (u.lease.Some? ==> u.eligible)
  {
    StartHistory<K>(cfg);
    RunHistory(Start<K>(cfg), ts);
  }

  // ---------- reaping ----------

  /**
   After a sweep no expired lease survives and no free unit is due but not eligible. Exactly the
   units counted as reclaimed or flushed changed, and a second sweep at the same times finds nothing.
   */
  lemma SweepIsComplete<K>(s: State<K>, expiredBefore: int, at: int, clock: int, seen: int)
    requires Inv(s, clock, seen)
    ensures var r := Reap(s, expiredBefore, at);
            && (forall k :: k in r.units ==> !Expired(r.units[k], expiredBefore) && !Flushable(r.units[k], at))
            && (forall k :: k in s.units ==>
                  (r.units[k] != s.units[k] <==> k in Reclaimed(s, expiredBefore) || k in Flushed(s, expiredBefore, at)))
            && Reclaimed(r, expiredBefore) == {} && Flushed(r, expiredBefore, at) == {}
            && Reap(r, expiredBefore, at) == r
  {
    var r := Reap(s, expiredBefore, at);
    assert forall k :: k in r.units ==> ReapUnit(r.units[k], expiredBefore, at) == r.units[k];
    assert Reap(r, expiredBefore, at).units == r.units;
  }

  /**
   A sweep that takes back a lease at its last instant does what one that waits for the next does, unless
   some lease ends at just that instant.
   */
  lemma InclusiveSweep<K>(s: State<K>, now: int)
    ensures Reap(s, now + 1, now) == Reap(s, now, now) <==>
              forall k :: k in s.units && s.units[k].lease.Some? ==> s.units[k].lease.value.expires != now
  {
    if k :| k in s.units && s.units[k].lease.Some? && s.units[k].lease.value.expires == now {
      assert Reap(s, now + 1, now).units[k].lease.None? && Reap(s, now, now).units[k].lease.Some?;
    } else {
      assert Reap(s, now + 1, now).units == Reap(s, now, now).units;
    }
  }
}
