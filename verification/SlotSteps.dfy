/** What each script of a Valkey shard does to the one member it is about. */
module SlotSteps {
  import opened Contract
  import opened Oracle
  import opened Invariant
  import opened Streams
  import opened ShardState
  import opened Tokens

  /** A member nothing is stored about. */
  const NO_SLOT := Slot(NO_FIELDS, EmptyStream(), None, None, None)

  // ---------- enqueue ----------

  function Appended(x: Slot, payload: string, cost: int, threshold: int, maxWait: int, now: int): Slot {
    var total := x.hash.pendingCost + cost;
    var counted := x.hash.(pendingCost := total, nextSeq := x.hash.nextSeq + 1);
    var h := if total != cost then counted else
             counted.(oldestMs := now, flushMs := now + maxWait, threshold := threshold, maxWaitMs := maxWait);
    x.(hash := h, stream := XAdd(x.stream, Entry(Task(x.hash.nextSeq, payload, cost), now)))
  }

  /** Only a free unit is indexed anew, and one below threshold is left where it is if it is ready. */
  function FreeIndexed(y: Slot, threshold: int): Slot {
    if y.hash.claimedBy.Some? then y
    else if y.hash.pendingCost >= threshold then y.(ready := Some(y.hash.flushMs), waiting := None)
    else y.(waiting := Some(y.hash.flushMs))
  }

  function Enqueued(x: Slot, payload: string, cost: int, threshold: int, maxWait: int, now: int): Slot {
    FreeIndexed(Appended(x, payload, cost, threshold, maxWait, now), threshold)
  }

  /** The one enqueue that leaves a unit in two sets: a free, flush-promoted unit still below threshold. */
  predicate Straddles(x: Slot, cost: int, threshold: int) {
    x.hash.claimedBy.None? && x.ready.Some? && x.hash.pendingCost + cost < threshold
  }

  lemma AppendedStream(st: Stream, u: Unit, payload: string, cost: int, now: int)
    requires StreamOk(st) && Queue(st.entries) == u.queue && Contiguous(u)
    ensures var r := XAdd(st, Entry(Task(u.nextSeq, payload, cost), now));
            StreamOk(r) && Queue(r.entries) == Push(u, payload, cost, now).queue
  {
    forall i | 0 <= i < |st.entries| ensures st.entries[i].entry.task.seqNo < u.nextSeq {
      assert u.queue[i] == st.entries[i].entry;
    }
  }

  lemma EnqueuedNew(payload: string, cost: int, cfg: Config, now: int)
    requires cfg.threshold > 0 && cfg.maxWait >= 0 && now >= 0
    ensures var y := Enqueued(NO_SLOT, payload, cost, cfg.threshold, cfg.maxWait, now);
            Mirrors(y, Push(Blank(cfg), payload, cost, now)) && InOneIndex(y)
  {
    AppendedStream(EmptyStream(), Blank(cfg), payload, cost, now);
  }

  lemma EnqueuedMore(x: Slot, u: Unit, payload: string, cost: int, cfg: Config, issued: set<string>, clock: int, now: int)
    requires Mirrors(x, u) && UnitInv(u, cfg, issued, clock, clock) && cost > 0 && now >= 0
    ensures var y := Enqueued(x, payload, cost, cfg.threshold, cfg.maxWait, now);
            && Mirrors(y, Push(u, payload, cost, now))
            && (InOneIndex(x) ==> (InOneIndex(y) <==> !Straddles(x, cost, cfg.threshold)))
  {
    AppendedStream(x.stream, u, payload, cost, now);
    TotalPositive(u.queue);
  }

  // ---------- claim, heartbeat, release ----------

  function Lent(x: Slot, worker: string, token: string, window: int, now: int): Slot {
    x.(hash := x.hash.(claimedBy := Some(worker), leaseToken := Some(token), leaseMs := window, leaseExp := Some(now + window)),
       ready := None, leased := Some(now + window))
  }

  lemma LentMirrors(x: Slot, u: Unit, worker: string, token: string, window: int, now: int, clock: int)
    requires Mirrors(x, u) && Gated(u, clock) && u.lease.None? && u.eligible
    requires 0 <= clock <= now && window >= 0 && worker == WorkerOf(token)
    ensures Mirrors(Lent(x, worker, token, window, now), u.(lease := Some(Lease(worker, token, window, now + window))))
    ensures InOneIndex(x) ==> InOneIndex(Lent(x, worker, token, window, now))
  {
  }

  function Renewed(x: Slot, until: int): Slot {
    x.(hash := x.hash.(leaseExp := Some(until)), leased := Some(until))
  }

  lemma RenewedMirrors(x: Slot, u: Unit, extend: int, now: int, clock: int)
    requires Mirrors(x, u) && Gated(u, clock) && u.lease.Some? && 0 <= clock <= now && extend >= 0
    ensures Mirrors(Renewed(x, now + extend), Prolong(u, now + extend))
    ensures InOneIndex(x) ==> InOneIndex(Renewed(x, now + extend))
  {
  }

  /** Put a unit into the set of ready or of waiting units, by its own cost and flush time. */
  function Reindexed(x: Slot, now: int): Slot {
    if x.hash.pendingCost >= x.hash.threshold || x.hash.flushMs <= now
    then x.(ready := Some(x.hash.flushMs))
    else x.(waiting := Some(x.hash.flushMs))
  }

  function Released(x: Slot, now: int): Slot {
    Reindexed(x.(hash := Unlease(x.hash), leased := None), now)
  }

  /** A lease taken off once its unit is due, by the clock or by the lease's own end, leaves the unit ready. */
  lemma ReleasedMirrors(x: Slot, u: Unit, now: int, clock: int)
    requires Mirrors(x, u) && Gated(u, clock) && u.lease.Some?
    requires clock <= now || u.lease.value.expires <= now
    ensures Mirrors(Released(x, now), u.(lease := None))
    ensures InOneIndex(x) ==> InOneIndex(Released(x, now))
  {
  }

  // ---------- acknowledge ----------

  /** The highest sequence number the consumer group has delivered. */
  function DeliveredSeq(x: Slot): int
    requires |x.stream.entries| > 0
  {
    x.stream.entries[0].entry.task.seqNo + |x.stream.pel| - 1
  }

  /** The head's time, and the flush time it implies. */
  function Headed(h: Hash, at: int): Hash {
    h.(oldestMs := at, flushMs := at + h.maxWaitMs)
  }

  /** Take off the first n entries, which were delivered; None when nothing is left. */
  function Acked(x: Slot, n: nat, now: int): Option<Slot>
    requires n <= |x.stream.entries| && n <= |x.stream.pel|
  {
    var st := x.stream.(entries := x.stream.entries[n..], pel := x.stream.pel[n..]);
    if st.entries == [] then None else
    var cost := Total(Queue(x.stream.entries)) - Total(Queue(st.entries));
    Some(KeptOrParked(Rest(x, st, cost), now))
  }

  /** Renew the lease of a unit that is still due; otherwise give it up and wait. */
  function KeptOrParked(y: Slot, now: int): Slot {
    if y.hash.pendingCost >= y.hash.threshold || y.hash.flushMs <= now
    then Renewed(y, now + y.hash.leaseMs)
    else y.(hash := Unlease(y.hash), leased := None, waiting := Some(y.hash.flushMs))
  }

  /** Only delivered entries are acknowledged, however far ahead the caller asks. */
  lemma CoveredDelivered(x: Slot, u: Unit, through: int)
    requires StreamOk(x.stream) && Queue(x.stream.entries) == u.queue && Contiguous(u) && |u.queue| > 0
    ensures Covered(Queue(Delivered(x.stream)), through) == Covered(u.queue, Min(through, DeliveredSeq(x)))
  {
    var n := Covered(u.queue, Min(through, DeliveredSeq(x)));
    var q := Queue(Delivered(x.stream));
    assert u.queue[0] == x.stream.entries[0].entry;
    CoveredExact(u, Min(through, DeliveredSeq(x)));
    forall i | 0 <= i < |u.queue|
      ensures u.queue[i].task.seqNo <= DeliveredSeq(x) <==> i < |q|
      ensures i < |q| ==> q[i] == u.queue[i]
    {
      assert u.queue[i].task.seqNo == u.queue[0].task.seqNo + i;
    }
    if n > 0 {
      assert u.queue[n - 1].task.seqNo <= DeliveredSeq(x);
    }
    CoveredIs(q, through, n);
  }

  lemma QueueRest(es: seq<StreamEntry>, n: nat)
    requires n <= |es|
    ensures Queue(es[n..]) == Queue(es)[n..]
    ensures Total(Queue(es)) - Total(Queue(es[n..])) == Total(Queue(es)[..n])
  {
    assert Queue(es[n..]) == Queue(es)[n..];
    assert Queue(es) == Queue(es)[..n] + Queue(es)[n..];
    TotalSplit(Queue(es)[..n], Queue(es)[n..]);
  }

  /** What remains of a slot after n entries and their cost left it, with its head's times renewed. */
  function Rest(x: Slot, st: Stream, cost: int): Slot
    requires |st.entries| > 0
  {
    Fronted(Reduced(x, st, cost))
  }

  function Reduced(x: Slot, st: Stream, cost: int): Slot {
    x.(stream := st, hash := x.hash.(pendingCost := x.hash.pendingCost - cost, attempts := 0))
  }

  function Fronted(x: Slot): Slot
    requires |x.stream.entries| > 0
  {
    x.(hash := Headed(x.hash, x.stream.entries[0].entry.at))
  }

  /** It is what remains of the unit, its eligibility not yet settled. */
  lemma RestMirrors(x: Slot, u: Unit, st: Stream, n: nat, now: int)
    requires Mirrors(x, u) && StreamOk(st) && n < |x.stream.entries| && st.entries == x.stream.entries[n..]
    ensures var y := Rest(x, st, Total(Queue(x.stream.entries)) - Total(Queue(st.entries)));
            && UnitIn(y) == Refresh(Drop(u, n), now).(eligible := u.eligible)
            && y.stream == st && y.ready == x.ready && y.waiting == x.waiting && y.leased == x.leased
            && (x.hash.maxWaitMs >= 0 ==> y.hash.flushMs >= 0)
            && forall i :: 0 <= i < |st.entries| ==> st.entries[i].entry.at >= 0
  {
    QueueRest(x.stream.entries, n);
    assert u.queue[n] == st.entries[0].entry;
    RestAges(x, st, n);
    RestIs(x, u, st, n, now);
  }

  /** What is left are still entries of before, with their times. */
  lemma RestAges(x: Slot, st: Stream, n: nat)
    requires Consistent(x) && n < |x.stream.entries| && st.entries == x.stream.entries[n..]
    ensures forall i :: 0 <= i < |st.entries| ==> st.entries[i].entry.at >= 0
  {
    forall i | 0 <= i < |st.entries| ensures st.entries[i].entry.at >= 0 {
      assert st.entries[i] == x.stream.entries[n + i];
    }
  }

  lemma RestIs(x: Slot, u: Unit, st: Stream, n: nat, now: int)
    requires UnitIn(x) == u && n < |u.queue| && |st.entries| > 0 && Queue(st.entries) == u.queue[n..]
    requires Total(Queue(x.stream.entries)) - Total(Queue(st.entries)) == Total(u.queue[..n])
    requires u.queue[n] == st.entries[0].entry
    ensures var y := Rest(x, st, Total(Queue(x.stream.entries)) - Total(Queue(st.entries)));
            UnitIn(y) == Refresh(Drop(u, n), now).(eligible := u.eligible)
  {
  }

  lemma AckedMirrors(x: Slot, u: Unit, through: int, now: int, cfg: Config, issued: set<string>, clock: int)
    requires Mirrors(x, u) && UnitInv(u, cfg, issued, clock, clock) && u.lease.Some?
    requires cfg.maxWait >= 0 && 0 <= clock <= now
    ensures var n := Covered(u.queue, Min(through, DeliveredSeq(x)));
            && n <= |x.stream.pel|
            && Landing(x, Acked(x, n, now), AckUnit(u, Min(through, DeliveredSeq(x)), now))
  {
    CoveredDelivered(x, u, through);
    AckedRest(x, u, Min(through, DeliveredSeq(x)), now);
  }

  lemma AckedShape(x: Slot, u: Unit, through: int, now: int)
    requires UnitIn(x) == u && u.lease.Some? && Covered(u.queue, through) <= |x.stream.pel|
    ensures var n := Covered(u.queue, through);
            var y, v := Acked(x, n, now), AckUnit(u, through, now);
            if n == |u.queue| then y == None && v == None else
            var st := x.stream.(entries := x.stream.entries[n..], pel := x.stream.pel[n..]);
            var r := Refresh(Drop(u, n), now);
            && y == Some(KeptOrParked(Rest(x, st, Total(Queue(x.stream.entries)) - Total(Queue(st.entries))), now))
            && v == Some(if r.eligible
                 then Prolong(r, now + u.lease.value.window)
                 else r.(lease := None))
  {
  }

  /** A member left in the ready set while it was leased, whose unit is no longer due. */
  predicate Strays(x: Slot, v: Option<Unit>) {
    x.ready.Some? && v.Some? && !v.value.eligible
  }

  /**
   The same, read off the member before the step: it is ready, and once its first n entries are gone something is
   left that is below threshold and whose head is not due.
   */
  predicate ParksReady(x: Slot, n: nat, now: int) {
    && x.ready.Some? && n < |x.stream.entries|
    && x.hash.pendingCost - Total(Queue(x.stream.entries)[..n]) < x.hash.threshold
    && now < x.stream.entries[n].entry.at + x.hash.maxWaitMs
  }

  lemma AckParks(x: Slot, u: Unit, through: int, now: int)
    requires UnitIn(x) == u && u.lease.Some?
    ensures Strays(x, AckUnit(u, through, now)) <==> ParksReady(x, Covered(u.queue, through), now)
  {
    var n := Covered(u.queue, through);
    if n < |u.queue| {
      assert u.queue[n] == x.stream.entries[n].entry;
    }
  }

  lemma FailParks(x: Slot, u: Unit, seqNo: int, cap: int, now: int)
    requires UnitIn(x) == u && u.eligible && |u.queue| > 0
    ensures Strays(x, FailUnit(u, seqNo, cap, now)) <==> Poison(u, seqNo, cap) && ParksReady(x, 1, now)
  {
    if |u.queue| > 1 {
      assert u.queue[1] == x.stream.entries[1].entry;
    }
  }

  /** A slot shows the unit that came out of the same step, unless the member strays. */
  ghost predicate Landing(x: Slot, y: Option<Slot>, v: Option<Unit>) {
    && y.Some? == v.Some?
    && (y.Some? ==> (Mirrors(y.value, v.value) <==> !Strays(x, v)) && (InOneIndex(x) ==> InOneIndex(y.value)))
  }

  lemma AckedRest(x: Slot, u: Unit, through: int, now: int)
    requires Mirrors(x, u) && u.lease.Some? && now >= 0
    requires u.maxWait >= 0 && u.lease.value.window >= 0 && Covered(u.queue, through) <= |x.stream.pel|
    ensures Landing(x, Acked(x, Covered(u.queue, through), now), AckUnit(u, through, now))
  {
    AckedShape(x, u, through, now);
    if Covered(u.queue, through) < |x.stream.entries| {
      RestKept(x, u, Covered(u.queue, through), now);
    }
  }

  lemma RestKept(x: Slot, u: Unit, n: nat, now: int)
    requires Mirrors(x, u) && u.lease.Some? && now >= 0
    requires u.maxWait >= 0 && u.lease.value.window >= 0 && n <= |x.stream.pel| && n < |u.queue|
    ensures var st := x.stream.(entries := x.stream.entries[n..], pel := x.stream.pel[n..]);
            var r := Refresh(Drop(u, n), now);
            Landing(x, Some(KeptOrParked(Rest(x, st, Total(Queue(x.stream.entries)) - Total(Queue(st.entries))), now)),
              Some(if r.eligible
                   then Prolong(r, now + u.lease.value.window)
                   else r.(lease := None)))
  {
    StreamSuffix(x.stream, n);
    var st := x.stream.(entries := x.stream.entries[n..], pel := x.stream.pel[n..]);
    RestMirrors(x, u, st, n, now);
    RenewOrWait(x, u, st, n, now);
  }

  lemma RenewOrWait(x: Slot, u: Unit, st: Stream, n: nat, now: int)
    requires Consistent(x) && UnitIn(x) == u && u.lease.Some? && StreamOk(st)
    requires n < |u.queue| && |st.entries| > 0 && now >= 0 && u.lease.value.window >= 0
    requires forall i :: 0 <= i < |st.entries| ==> st.entries[i].entry.at >= 0
    requires var y := Rest(x, st, Total(Queue(x.stream.entries)) - Total(Queue(st.entries)));
             UnitIn(y) == Refresh(Drop(u, n), now).(eligible := u.eligible) && y.hash.flushMs >= 0
    ensures var y := Rest(x, st, Total(Queue(x.stream.entries)) - Total(Queue(st.entries)));
            var r := Refresh(Drop(u, n), now);
            Landing(x, Some(KeptOrParked(y, now)), Some(if r.eligible
                 then Prolong(r, now + u.lease.value.window)
                 else r.(lease := None)))
  {
  }

  // ---------- fail ----------

  /** Acknowledge and delete the head, delivered or not. */
  function Beheaded(st: Stream): Stream
    requires |st.entries| > 0
  {
    XDel(XAck(st, st.entries[0].id), st.entries[0].id)
  }

  lemma BeheadedRest(st: Stream)
    requires StreamOk(st) && |st.entries| > 0
    ensures StreamOk(Beheaded(st)) && Beheaded(st).entries == st.entries[1..]
  {
    var id := st.entries[0].id;
    WithoutPrefix(st.entries, {id}, 1);
    if st.pel == [] {
      assert Minus(st.pel, id) == [];
    } else {
      MinusHead(st.pel);
    }
  }

  /** The unit after one more counted failure of the entry numbered seqNo, its lease given up. */
  function Failed(x: Slot, seqNo: int, cap: int, now: int): Option<Slot>
    requires |x.stream.entries| > 0
  {
    var head := x.stream.entries[0].entry;
    if x.hash.attempts + 1 >= cap && head.task.seqNo == seqNo then
      if Beheaded(x.stream).entries == [] then None
      else Some(Released(Rest(x, Beheaded(x.stream), head.task.cost), now))
    else
      Some(Released(Fronted(x.(hash := x.hash.(attempts := x.hash.attempts + 1))), now))
  }

  lemma FailedMirrors(x: Slot, u: Unit, seqNo: int, cap: int, now: int, cfg: Config, issued: set<string>, clock: int)
    requires Mirrors(x, u) && UnitInv(u, cfg, issued, clock, clock) && u.lease.Some?
    requires cfg.maxWait >= 0 && 0 <= clock <= now
    ensures |x.stream.entries| > 0
    ensures Landing(x, Failed(x, seqNo, cap, now), FailUnit(u, seqNo, cap, now))
  {
    assert u.queue[0] == x.stream.entries[0].entry;
    if Poison(u, seqNo, cap) {
      BeheadedRest(x.stream);
      if |u.queue| > 1 {
        PoisonRest(x, u, now);
      }
    } else {
      var v := u.(attempts := u.attempts + 1);
      ReleasedMirrors(x.(hash := x.hash.(attempts := x.hash.attempts + 1)), v, now, clock);
    }
  }

  lemma PoisonRest(x: Slot, u: Unit, now: int)
    requires Mirrors(x, u) && u.lease.Some? && |u.queue| > 1 && x.hash.maxWaitMs >= 0
    requires Beheaded(x.stream).entries != []
    ensures var y := Released(Rest(x, Beheaded(x.stream), x.stream.entries[0].entry.task.cost), now);
            Landing(x, Some(y), Some(Refresh(Drop(u, 1), now).(lease := None)))
  {
    BeheadedRest(x.stream);
    QueueRest(x.stream.entries, 1);
    assert u.queue[..1] == [u.queue[0]];
    TotalOne(u.queue[0]);
    RestMirrors(x, u, Beheaded(x.stream), 1, now);
  }

  // ---------- reap ----------

  predicate Lapsed(x: Slot, now: int) {
    x.leased.Some? && 0 <= x.leased.value <= now
  }

  predicate Due(x: Slot, now: int) {
    x.waiting.Some? && 0 <= x.waiting.value <= now
  }

  function Reclaimed(x: Slot, now: int): Slot {
    if Lapsed(x, now) then Released(x, now) else x
  }

  function Promoted(x: Slot, now: int): Slot {
    if Due(x, now) then x.(ready := x.waiting, waiting := None) else x
  }

  /** The inclusive expiry of the shard is the oracle's strict one, one millisecond later. */
  lemma ReapedMirrors(x: Slot, u: Unit, now: int, cfg: Config, issued: set<string>, clock: int)
    requires Mirrors(x, u) && UnitInv(u, cfg, issued, clock, clock)
    ensures Mirrors(Promoted(Reclaimed(x, now), now), ReapUnit(u, now + 1, now))
    ensures Lapsed(x, now) <==> Expired(u, now + 1)
    ensures InOneIndex(x) ==> InOneIndex(Promoted(Reclaimed(x, now), now))
    ensures InOneIndex(x) ==> (Due(Reclaimed(x, now), now) <==> Flushable(Reclaim(u, now + 1), now))
  {
  }
}
