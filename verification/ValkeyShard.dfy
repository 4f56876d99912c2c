/** The Valkey scripts as they run on one shard, command by command, each an atomic step. */
module ValkeyShard {
  import opened Contract
  import opened Oracle
  import opened Invariant
  import opened Streams
  import opened ShardState
  import opened SlotSteps
  import opened ShardSteps
  import opened Tokens

  /** The page size of the acknowledgement script. */
  const PAGE := 256

  // ---------- a sorted set's least member ----------

  ghost predicate Least(z: ZSet, among: set<string>, m: string) {
    m in z && forall k :: k in among && k in z ==> z[m] <= z[k]
  }

  method LeastMember(z: ZSet) returns (m: string)
    requires z != map[]
    ensures m in z && forall k :: k in z ==> z[m] <= z[k]
  {
    var rest := z.Keys;
    m :| m in rest;
    rest := rest - {m};
    while rest != {}
      invariant rest <= z.Keys && Least(z, z.Keys - rest, m)
      decreases rest
    {
      var k :| k in rest;
      if z[k] < z[m] {
        m := k;
      }
      rest := rest - {k};
    }
    assert z.Keys - {} == z.Keys;
  }

  // ---------- sweeping member by member ----------

  /** The member names agree across the keyspace. */
  ghost predicate Typed(d: Keyspace) {
    && d.hashes.Keys == d.streams.Keys
    && d.eligible.Keys <= d.hashes.Keys && d.pendingFlush.Keys <= d.hashes.Keys && d.leases.Keys <= d.hashes.Keys
  }

  ghost predicate SameRest(d0: Keyspace, d: Keyspace) {
    Typed(d) && d.hashes.Keys == d0.hashes.Keys && d.dlq == d0.dlq && d.pendingTasks == d0.pendingTasks
  }

  /** Every slot has been put through f, except those still to do. */
  ghost predicate Underway(d0: Keyspace, d: Keyspace, todo: set<string>, f: Slot -> Slot) {
    && SameRest(d0, d)
    && forall k :: k in d0.hashes ==> SlotAt(d, k) == if k in todo then SlotAt(d0, k) else f(SlotAt(d0, k))
  }

  lemma Begun(d0: Keyspace, todo: set<string>, f: Slot -> Slot)
    requires Typed(d0) && forall k :: k in d0.hashes && k !in todo ==> f(SlotAt(d0, k)) == SlotAt(d0, k)
    ensures Underway(d0, d0, todo, f)
  {
  }

  lemma SlotWritten(d0: Keyspace, d: Keyspace, todo: set<string>, f: Slot -> Slot, m: string)
    requires Underway(d0, d, todo, f) && m in todo && m in d0.hashes
    ensures Underway(d0, SetSlot(d, m, Some(f(SlotAt(d0, m)))), todo - {m}, f)
  {
    var e := SetSlot(d, m, Some(f(SlotAt(d0, m))));
    SetSlotAt(d, m, Some(f(SlotAt(d0, m))));
    forall k | k in d0.hashes && k != m ensures SlotAt(e, k) == SlotAt(d, k) {
      SetSlotElsewhere(d, m, Some(f(SlotAt(d0, m))));
      SameSlot(d, e, m, k);
    }
  }

  lemma OneLess(todo: set<string>, m: string)
    requires m in todo
    ensures |todo - {m}| == |todo| - 1
  {
  }

  lemma SlotsDetermine(d: Keyspace, e: Keyspace)
    requires Typed(d) && SameRest(d, e)
    requires forall k :: k in d.hashes ==> SlotAt(d, k) == SlotAt(e, k)
    ensures d == e
  {
    forall k | k in d.hashes
      ensures d.hashes[k] == e.hashes[k] && d.streams[k] == e.streams[k]
      ensures Score(d.eligible, k) == Score(e.eligible, k)
      ensures Score(d.pendingFlush, k) == Score(e.pendingFlush, k)
      ensures Score(d.leases, k) == Score(e.leases, k)
    {
      assert SlotAt(d, k) == SlotAt(e, k);
    }
    assert d.hashes == e.hashes && d.streams == e.streams;
    SameScores(d.eligible, e.eligible, d.hashes.Keys);
    SameScores(d.pendingFlush, e.pendingFlush, d.hashes.Keys);
    SameScores(d.leases, e.leases, d.hashes.Keys);
  }

  lemma SameScores(a: ZSet, b: ZSet, members: set<string>)
    requires a.Keys <= members && b.Keys <= members && forall k :: k in members ==> Score(a, k) == Score(b, k)
    ensures a == b
  {
    forall k ensures k in a <==> k in b {
      assert k in members ==> Score(a, k) == Score(b, k);
    }
    forall k | k in a ensures a[k] == b[k] {
      assert Score(a, k) == Score(b, k);
    }
  }

  class Shard {
    var hashes: map<string, Hash>
    var streams: map<string, Stream>
    var eligible: ZSet
    var pendingFlush: ZSet
    var leases: ZSet
    var dlq: seq<DeadLetter<string>>
    var pendingTasks: int

    ghost function Store(): Keyspace
      reads this
    {
      Keyspace(hashes, streams, eligible, pendingFlush, leases, dlq, pendingTasks)
    }

    constructor ()
      ensures Store() == Keyspace(map[], map[], map[], map[], map[], [], 0)
    {
      hashes, streams, eligible, pendingFlush, leases := map[], map[], map[], map[], map[];
      dlq, pendingTasks := [], 0;
    }

    /** Create the member's stream and hash if they are missing. */
    method Create(m: string)
      modifies this`streams, this`hashes
      ensures m in hashes && m in streams && Store() == SetSlot(old(Store()), m, Some(SlotAt(old(Store()), m)))
    {
      ScoresKept(Store(), m, SlotAt(Store(), m));
      if m !in streams {
        streams := streams[m := EmptyStream()];
      }
      if m !in hashes {
        hashes := hashes[m := NO_FIELDS];
      }
    }

    /** Add the entry and its cost; an empty unit starts its flush clock. */
    method Append(m: string, payload: string, cost: int, cfg: Config, now: int) returns (seqNo: int)
      requires m in hashes && m in streams
      modifies this`streams, this`hashes, this`pendingTasks
      ensures Store() == SetSlot(old(Store()), m,
                Some(Appended(SlotAt(old(Store()), m), payload, cost, cfg.threshold, cfg.maxWait, now)))
                .(pendingTasks := old(pendingTasks) + 1)
      ensures seqNo == old(hashes)[m].nextSeq
    {
      ScoresKept(Store(), m, Appended(SlotAt(Store(), m), payload, cost, cfg.threshold, cfg.maxWait, now));
      var total := hashes[m].pendingCost + cost;
      seqNo := hashes[m].nextSeq;
      hashes := hashes[m := hashes[m].(pendingCost := total, nextSeq := seqNo + 1)];
      streams := streams[m := XAdd(streams[m], Entry(Task(seqNo, payload, cost), now))];
      pendingTasks := pendingTasks + 1;
      if total == cost {
        hashes := hashes[m := hashes[m].(oldestMs := now, flushMs := now + cfg.maxWait,
                                         threshold := cfg.threshold, maxWaitMs := cfg.maxWait)];
      }
    }

    method IndexFree(m: string, threshold: int)
      requires m in hashes && m in streams
      modifies this`eligible, this`pendingFlush
      ensures Store() == SetSlot(old(Store()), m, Some(FreeIndexed(SlotAt(old(Store()), m), threshold)))
    {
      if hashes[m].claimedBy.None? {
        var fd := hashes[m].flushMs;
        if hashes[m].pendingCost >= threshold {
          eligible := eligible[m := fd];
          pendingFlush := pendingFlush - {m};
        } else {
          pendingFlush := pendingFlush[m := fd];
        }
      }
    }

    method Enqueue(m: string, payload: string, cost: int, cfg: Config, now: int) returns (seqNo: int)
      modifies this
      ensures Store() == EnqueueTo(old(Store()), m, payload, cost, cfg, now)
      ensures seqNo == SlotAt(old(Store()), m).hash.nextSeq
    {
      ghost var d0 := Store();
      Create(m);
      seqNo := Append(m, payload, cost, cfg, now);
      IndexFree(m, cfg.threshold);
      ghost var x := SlotAt(d0, m);
      ghost var y := Appended(x, payload, cost, cfg.threshold, cfg.maxWait, now);
      SetTwice(d0, m, x, Some(y));
      SetTwice(d0, m, y, Some(FreeIndexed(y, cfg.threshold)));
    }

    method Claim(worker: string, token: string, window: int, now: int) returns (hit: Option<string>)
      requires Typed(Store())
      modifies this
      ensures hit.None? ==> eligible == map[] && Store() == old(Store())
      ensures hit.Some? ==> Poppable(old(Store()), hit.value) &&
                            Store() == ClaimFrom(old(Store()), hit.value, worker, token, window, now)
    {
      if eligible == map[] {
        return None;
      }
      var m := LeastMember(eligible);
      eligible := eligible - {m};
      var exp := now + window;
      hashes := hashes[m := hashes[m].(claimedBy := Some(worker), leaseToken := Some(token),
                                       leaseMs := window, leaseExp := Some(exp))];
      leases := leases[m := exp];
      hit := Some(m);
    }

    method Drain(m: string, token: string, max: nat) returns (r: Outcome<seq<Task>>)
      requires m in hashes ==> m in streams && StreamOk(streams[m])
      modifies this
      ensures !Presents(old(Store()), m, token) ==> r == LeaseLost && Store() == old(Store())
      ensures Presents(old(Store()), m, token) ==>
                && r == Ok(Tasks(SplitDrain(SlotAt(old(Store()), m).stream, max, 0).1))
                && Store() == DrainFrom(old(Store()), m, max)
    {
      if m !in hashes || hashes[m].leaseToken != Some(token) {
        return LeaseLost;
      }
      ScoresKept(Store(), m, SlotAt(Store(), m).(stream := SplitDrain(streams[m], max, 0).0));
      var s, batch := ReadBatch(streams[m], max);
      streams := streams[m := s];
      r := Ok(SortBySeq(Tasks(batch)));
    }

    /** Work off the pending list through a sequence number and settle the sums. */
    method TakeOff(m: string, through: int) returns (count: nat, ghost y: Slot)
      requires m in hashes && m in streams && StreamOk(streams[m])
      modifies this
      ensures var x := SlotAt(old(Store()), m);
              && count == Acknowledged(old(Store()), m, through)
              && y == Reduced(x, x.stream.(entries := x.stream.entries[count..], pel := x.stream.pel[count..]),
                              Total(Queue(x.stream.entries)) - Total(Queue(x.stream.entries[count..])))
              && Store() == SetSlot(old(Store()), m, Some(y)).(pendingTasks := old(pendingTasks) - count)
    {
      var s, cost;
      s, cost, count := ScanLive(streams[m], through);
      y := Reduced(SlotAt(Store(), m), s, cost);
      Reduce(m, s, cost, count);
    }

    method Reduce(m: string, s: Stream, cost: int, count: nat)
      requires m in hashes && m in streams
      modifies this`streams, this`hashes, this`pendingTasks
      ensures Store() == SetSlot(old(Store()), m, Some(Reduced(SlotAt(old(Store()), m), s, cost)))
                           .(pendingTasks := old(pendingTasks) - count)
    {
      ScoresKept(Store(), m, Reduced(SlotAt(Store(), m), s, cost));
      streams := streams[m := s];
      hashes := hashes[m := hashes[m].(pendingCost := hashes[m].pendingCost - cost, attempts := 0)];
      if count > 0 {
        pendingTasks := pendingTasks - count;
      }
    }

    method Delete(m: string)
      modifies this
      ensures Store() == SetSlot(old(Store()), m, None)
    {
      leases, eligible, pendingFlush := leases - {m}, eligible - {m}, pendingFlush - {m};
      hashes, streams := hashes - {m}, streams - {m};
    }

    /** Re-derive the head's age and flush time. */
    method Front(m: string)
      requires m in hashes && m in streams && |streams[m].entries| > 0
      modifies this`hashes
      ensures Store() == SetSlot(old(Store()), m, Some(Fronted(SlotAt(old(Store()), m))))
    {
      var hts := streams[m].entries[0].entry.at;
      hashes := hashes[m := hashes[m].(oldestMs := hts, flushMs := hts + hashes[m].maxWaitMs)];
    }

    method KeepOrPark(m: string, now: int) returns (held: bool)
      requires m in hashes && m in streams
      modifies this
      ensures Store() == SetSlot(old(Store()), m, Some(KeptOrParked(SlotAt(old(Store()), m), now)))
      ensures held == (old(hashes)[m].pendingCost >= old(hashes)[m].threshold || old(hashes)[m].flushMs <= now)
    {
      held := hashes[m].pendingCost >= hashes[m].threshold || hashes[m].flushMs <= now;
      if held {
        var exp := now + hashes[m].leaseMs;
        hashes := hashes[m := hashes[m].(leaseExp := Some(exp))];
        leases := leases[m := exp];
      } else {
        var flush := hashes[m].flushMs;
        hashes := hashes[m := Unlease(hashes[m])];
        leases := leases - {m};
        pendingFlush := pendingFlush[m := flush];
      }
    }

    method Ack(m: string, token: string, through: int, now: int) returns (r: Outcome<bool>)
      requires m in hashes ==> m in streams && StreamOk(streams[m])
      modifies this
      ensures !Presents(old(Store()), m, token) ==> r == LeaseLost && Store() == old(Store())
      ensures Presents(old(Store()), m, token) ==>
                && Store() == AckTo(old(Store()), m, through, now)
                && r == Ok(Presents(Store(), m, token))
    {
      if m !in hashes || hashes[m].leaseToken != Some(token) {
        return LeaseLost;
      }
      ghost var d0 := Store();
      var count, y := TakeOff(m, through);
      if streams[m].entries == [] {
        Delete(m);
        SetTwice(d0, m, y, None);
        return Ok(false);
      }
      Front(m);
      var held := KeepOrPark(m, now);
      SetTwice(d0, m, y, Some(Fronted(y)));
      SetTwice(d0, m, Fronted(y), Some(KeptOrParked(Fronted(y), now)));
      r := Ok(held);
    }

    /** Index a member by its own cost and flush time. */
    method Reindex(m: string, now: int)
      requires m in hashes && m in streams
      modifies this`eligible, this`pendingFlush
      ensures Store() == SetSlot(old(Store()), m, Some(Reindexed(SlotAt(old(Store()), m), now)))
    {
      var flush := hashes[m].flushMs;
      if hashes[m].pendingCost >= hashes[m].threshold || flush <= now {
        eligible := eligible[m := flush];
      } else {
        pendingFlush := pendingFlush[m := flush];
      }
    }

    method Release(m: string, token: string, now: int) returns (r: Outcome<()>)
      requires m in hashes ==> m in streams
      modifies this
      ensures !Presents(old(Store()), m, token) ==> r == LeaseLost && Store() == old(Store())
      ensures Presents(old(Store()), m, token) ==> r == Ok(()) && Store() == ReleaseOf(old(Store()), m, now)
    {
      if m !in hashes || hashes[m].leaseToken != Some(token) {
        return LeaseLost;
      }
      hashes := hashes[m := Unlease(hashes[m])];
      leases := leases - {m};
      if streams[m].entries == [] {
        eligible, pendingFlush := eligible - {m}, pendingFlush - {m};
        hashes, streams := hashes - {m}, streams - {m};
      } else {
        Reindex(m, now);
      }
      r := Ok(());
    }

    method Heartbeat(m: string, token: string, extend: int, now: int) returns (r: Outcome<()>)
      requires m in hashes ==> m in streams
      modifies this
      ensures !Presents(old(Store()), m, token) ==> r == LeaseLost && Store() == old(Store())
      ensures Presents(old(Store()), m, token) ==> r == Ok(()) && Store() == HeartbeatOf(old(Store()), m, extend, now)
    {
      if m !in hashes || hashes[m].leaseToken != Some(token) {
        return LeaseLost;
      }
      var exp := now + extend;
      hashes := hashes[m := hashes[m].(leaseExp := Some(exp))];
      leases := leases[m := exp];
      r := Ok(());
    }

    method Fail(m: string, token: string, seqNo: int, reason: string, cap: int, now: int) returns (r: Outcome<()>)
      requires m in hashes ==> m in streams
      modifies this
      ensures !Presents(old(Store()), m, token) ==> r == LeaseLost && Store() == old(Store())
      ensures Presents(old(Store()), m, token) ==>
                r == Ok(()) && Store() == FailOf(old(Store()), m, seqNo, reason, cap, now)
    {
      if m !in hashes || hashes[m].leaseToken != Some(token) {
        return LeaseLost;
      }
      ghost var d0 := Store();
      ghost var y := CountFailure(m, seqNo, reason, cap);
      if streams[m].entries == [] {
        Delete(m);
        SetTwice(d0, m, y, None);
      } else {
        Front(m);
        ReclaimOne(m, now);
        SetTwice(d0, m, y, Some(Fronted(y)));
        SetTwice(d0, m, Fronted(y), Some(Released(Fronted(y), now)));
      }
      r := Ok(());
    }

    /** Count the failure; a poison head goes to the dead letters. */
    method CountFailure(m: string, seqNo: int, reason: string, cap: int) returns (ghost y: Slot)
      requires m in hashes && m in streams
      modifies this
      ensures var x := SlotAt(old(Store()), m);
              if PoisonHead(x, seqNo, cap) then
                var head := x.stream.entries[0].entry;
                && y == Reduced(x, Beheaded(x.stream), head.task.cost)
                && Store() == SetSlot(old(Store()), m, Some(y))
                     .(dlq := old(dlq) + [DeadLetter(m, head.task, reason)], pendingTasks := old(pendingTasks) - 1)
              else
                && y == x.(hash := x.hash.(attempts := x.hash.attempts + 1))
                && Store() == SetSlot(old(Store()), m, Some(y))
    {
      var attempts := hashes[m].attempts + 1;
      y := SlotAt(Store(), m).(hash := hashes[m].(attempts := attempts));
      ScoresKept(Store(), m, y);
      hashes := hashes[m := hashes[m].(attempts := attempts)];
      if attempts >= cap && streams[m].entries != [] && streams[m].entries[0].entry.task.seqNo == seqNo {
        var head := streams[m].entries[0];
        y := Reduced(y, Beheaded(streams[m]), head.entry.task.cost);
        ScoresKept(old(Store()), m, y);
        dlq := dlq + [DeadLetter(m, head.entry.task, reason)];
        streams := streams[m := XDel(XAck(streams[m], head.id), head.id)];
        hashes := hashes[m := hashes[m].(pendingCost := hashes[m].pendingCost - head.entry.task.cost, attempts := 0)];
        pendingTasks := pendingTasks - 1;
      }
    }

    /** Take the lease off a member and index it as free. */
    method ReclaimOne(m: string, now: int)
      requires m in hashes && m in streams
      modifies this
      ensures Store() == SetSlot(old(Store()), m, Some(Released(SlotAt(old(Store()), m), now)))
    {
      hashes := hashes[m := Unlease(hashes[m])];
      leases := leases - {m};
      Reindex(m, now);
    }

    /** Move one due member from the waiting set to the ready one, score and all. */
    method PromoteOne(m: string)
      requires m in hashes && m in streams && m in pendingFlush
      modifies this
      ensures var x := SlotAt(old(Store()), m);
              Store() == SetSlot(old(Store()), m, Some(x.(ready := x.waiting, waiting := None)))
    {
      var sc := pendingFlush[m];
      pendingFlush := pendingFlush - {m};
      eligible := eligible[m := sc];
    }

    /** Members by score: the leases lapsed by now. */
    method LapsedMembers(now: int) returns (ms: set<string>)
      requires Typed(Store())
      ensures ms == LapsedIn(Store(), now)
    {
      ms := set m | m in leases && 0 <= leases[m] <= now;
    }

    /** Members by score: the waiting units due by now. */
    method DueMembers(now: int) returns (ms: set<string>)
      requires Typed(Store())
      ensures ms == set m | m in hashes && Due(SlotAt(Store(), m), now)
      ensures forall m :: m in ms ==> m in hashes && Due(SlotAt(Store(), m), now)
      ensures forall m :: m in hashes && m !in ms ==> Promoted(SlotAt(Store(), m), now) == SlotAt(Store(), m)
    {
      ms := set m | m in pendingFlush && 0 <= pendingFlush[m] <= now;
    }

    method ReclaimLapsed(now: int) returns (reclaimed: nat)
      requires Typed(Store())
      modifies this
      ensures Underway(old(Store()), Store(), {}, x => SlotSteps.Reclaimed(x, now))
      ensures reclaimed == |LapsedIn(old(Store()), now)|
    {
      ghost var d0 := Store();
      var todo := LapsedMembers(now);
      ghost var all := todo;
      Begun(d0, todo, x => SlotSteps.Reclaimed(x, now));
      reclaimed := 0;
      while todo != {}
        invariant todo <= all && reclaimed + |todo| == |all|
        invariant Underway(d0, Store(), todo, x => SlotSteps.Reclaimed(x, now))
        decreases todo
      {
        var m :| m in todo;
        SlotWritten(d0, Store(), todo, x => SlotSteps.Reclaimed(x, now), m);
        OneLess(todo, m);
        ReclaimOne(m, now);
        todo := todo - {m};
        reclaimed := reclaimed + 1;
      }
    }

    method PromoteDue(now: int) returns (flushed: nat)
      requires Typed(Store())
      modifies this
      ensures Underway(old(Store()), Store(), {}, x => Promoted(x, now))
      ensures flushed == |set m | m in old(hashes) && Due(SlotAt(old(Store()), m), now)|
    {
      ghost var d0 := Store();
      var todo := DueMembers(now);
      ghost var all := todo;
      Begun(d0, todo, x => Promoted(x, now));
      flushed := 0;
      while todo != {}
        invariant todo <= all && flushed + |todo| == |all|
        invariant Underway(d0, Store(), todo, x => Promoted(x, now))
        decreases todo
      {
        var m :| m in todo;
        SlotWritten(d0, Store(), todo, x => Promoted(x, now), m);
        OneLess(todo, m);
        PromoteOne(m);
        todo := todo - {m};
        flushed := flushed + 1;
      }
    }

    method Reap(now: int) returns (reclaimed: nat, flushed: nat)
      requires Typed(Store())
      modifies this
      ensures Store() == ReapAll(old(Store()), now)
      ensures reclaimed == |LapsedIn(old(Store()), now)| && flushed == |DueIn(old(Store()), now)|
    {
      ghost var d0 := Store();
      reclaimed := ReclaimLapsed(now);
      ghost var d1 := Store();
      flushed := PromoteDue(now);
      SweepIs(d0, d1, Store(), now);
    }
  }

  /** Take over what is pending, then read new entries into what room is left. */
  method ReadBatch(s0: Stream, max: nat) returns (s: Stream, batch: seq<Entry>)
    requires StreamOk(s0)
    ensures (s, batch) == SplitDrain(s0, max, 0) && SortBySeq(Tasks(batch)) == Tasks(batch)
  {
    DrainInOrder(s0, max);
    s, batch := s0, XAutoClaim(s0, max);
    if |batch| < max {
      var read := XReadGroup(s, max - |batch|);
      batch := batch + read.1;
      s := read.0;
    }
  }

  /** The scan of a live stream takes off the covered prefix of what was delivered. */
  method ScanLive(s0: Stream, through: int) returns (s: Stream, cost: int, count: nat)
    requires StreamOk(s0)
    ensures count == Covered(Queue(Delivered(s0)), through)
    ensures s == s0.(entries := s0.entries[count..], pel := s0.pel[count..])
    ensures cost == Total(Queue(s0.entries)) - Total(Queue(s0.entries[count..]))
  {
    ghost var worked;
    s, cost, count, worked := ScanPel(s0, through, PAGE);
    ScanIsPrefix(s0, s, worked, through);
  }

  lemma DrainInOrder(s: Stream, max: nat)
    requires StreamOk(s)
    ensures SortBySeq(Tasks(SplitDrain(s, max, 0).1)) == Tasks(SplitDrain(s, max, 0).1)
    ensures XReadGroup(s, 0).0 == s
  {
    DrainIsPrefix(s, max);
    AscendingQueue(s.entries, Min(max, |s.entries|));
    SortedStays(Tasks(SplitDrain(s, max, 0).1));
  }

  lemma SweepIs(d0: Keyspace, d1: Keyspace, d2: Keyspace, now: int)
    requires Typed(d0) && Underway(d0, d1, {}, x => SlotSteps.Reclaimed(x, now)) && Underway(d1, d2, {}, x => Promoted(x, now))
    ensures d2 == ReapAll(d0, now)
    ensures (set m | m in d1.hashes && Due(SlotAt(d1, m), now)) == DueIn(d0, now)
  {
    var e := ReapAll(d0, now);
    forall k | k in d0.hashes ensures SlotAt(d1, k) == SlotSteps.Reclaimed(SlotAt(d0, k), now) && SlotAt(e, k) == SlotAt(d2, k) {
      SweptAt(d0, k, now);
    }
    SweepEnds(d0, d2, now);
  }

  lemma SweepEnds(d0: Keyspace, d2: Keyspace, now: int)
    requires Typed(d0) && SameRest(d0, d2)
    requires forall k :: k in d0.hashes ==> SlotAt(ReapAll(d0, now), k) == SlotAt(d2, k)
    ensures d2 == ReapAll(d0, now)
  {
    SlotsDetermine(ReapAll(d0, now), d2);
  }
}
