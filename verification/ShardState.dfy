/**
 One Valkey shard's keyspace: a hash and a stream per unit, three sorted sets over the units, the
 dead-letter stream and the maintained task counter, and how they show a state of the oracle.
 */
module ShardState {
  import opened Contract
  import opened Oracle
  import opened Invariant
  import opened Streams
  import opened Sums
  import opened Tokens

  /** A sorted set: members with their scores. */
  type ZSet = map<string, int>

  /** The fields of a unit's hash; the three lease fields are deleted together. */
  datatype Hash = Hash(
    pendingCost: int,
    nextSeq: int,
    oldestMs: int,
    flushMs: int,
    threshold: int,
    maxWaitMs: int,
    claimedBy: Option<string>,
    leaseToken: Option<string>,
    leaseMs: int,
    leaseExp: Option<int>,
    attempts: int)

  /** A hash none of whose fields has been written. */
  const NO_FIELDS := Hash(0, 0, 0, 0, 0, 0, None, None, 0, None, 0)

  datatype Keyspace = Keyspace(
    hashes: map<string, Hash>,
    streams: map<string, Stream>,
    eligible: ZSet,
    pendingFlush: ZSet,
    leases: ZSet,
    dlq: seq<DeadLetter<string>>,
    pendingTasks: int)

  /** Everything the keyspace holds about one member: its score in each sorted set included. */
  datatype Slot = Slot(hash: Hash, stream: Stream, ready: Option<int>, waiting: Option<int>, leased: Option<int>)

  function Score(z: ZSet, m: string): Option<int> {
    if m in z then Some(z[m]) else None
  }

  /** What is stored about a member; blank where nothing is. */
  function SlotAt(d: Keyspace, m: string): Slot {
    Slot(if m in d.hashes then d.hashes[m] else NO_FIELDS, if m in d.streams then d.streams[m] else EmptyStream(),
         Score(d.eligible, m), Score(d.pendingFlush, m), Score(d.leases, m))
  }

  function Unlease(h: Hash): Hash {
    h.(claimedBy := None, leaseToken := None, leaseExp := None)
  }

  // ---------- the unit a slot shows ----------

  function LeaseOf(h: Hash): Option<Lease> {
    if h.claimedBy.Some? && h.leaseToken.Some? && h.leaseExp.Some?
    then Some(Lease(h.claimedBy.value, h.leaseToken.value, h.leaseMs, h.leaseExp.value))
    else None
  }

  /** Eligibility is not a field: a free unit is eligible by index, and only eligible units are leased. */
  function UnitIn(x: Slot): Unit {
    Unit(Queue(x.stream.entries), x.hash.nextSeq, x.hash.pendingCost, x.hash.threshold, x.hash.maxWaitMs,
         x.hash.oldestMs, x.hash.flushMs, x.ready.Some? || x.hash.claimedBy.Some?, LeaseOf(x.hash), x.hash.attempts)
  }

  /**
   The lease set repeats the hash, a free unit that is not ready waits for its flush time, and a lease
   outlives the moment its unit became due.
   */
  ghost predicate Consistent(x: Slot) {
    && x.hash.claimedBy.Some? == x.hash.leaseToken.Some? == x.hash.leaseExp.Some?
    && x.leased == x.hash.leaseExp
    && (x.hash.claimedBy.None? && x.ready.None? ==> x.waiting == Some(x.hash.flushMs))
    && x.hash.flushMs >= 0 && (forall i :: 0 <= i < |x.stream.entries| ==> x.stream.entries[i].entry.at >= 0)
    && (x.hash.leaseExp.Some? ==>
          && x.hash.leaseExp.value >= 0
          && (x.hash.pendingCost >= x.hash.threshold || x.hash.flushMs <= x.hash.leaseExp.value))
    && (x.hash.claimedBy.Some? ==> x.hash.claimedBy.value == WorkerOf(x.hash.leaseToken.value))
  }

  ghost predicate Mirrors(x: Slot, u: Unit) {
    StreamOk(x.stream) && Consistent(x) && UnitIn(x) == u
  }

  /** A leased unit is in leases only; a free one in exactly one of the other two sets, at its flush time. */
  predicate InOneIndex(x: Slot) {
    if x.hash.claimedBy.Some? then x.ready.None? && x.waiting.None?
    else (x.ready == Some(x.hash.flushMs) && x.waiting.None?) || (x.ready.None? && x.waiting == Some(x.hash.flushMs))
  }

  // ---------- the whole keyspace ----------

  ghost function Lengths(streams: map<string, Stream>): map<string, int> {
    map m | m in streams :: |streams[m].entries|
  }

  /** The shard-wide counter counts every live entry. */
  ghost predicate Counted(d: Keyspace) {
    d.pendingTasks == Sum(Lengths(d.streams))
  }

  /** The keyspace shows the state s of the oracle. */
  ghost predicate Wf(d: Keyspace, s: State<string>, clock: int) {
    clock >= 0 && Inv(s, clock, clock) && Shows(d, s)
  }

  ghost predicate Shows(d: Keyspace, s: State<string>) {
    d.dlq == s.dlq && SameMembers(d, s) && AllMirror(d, s)
  }

  ghost predicate AllMirror(d: Keyspace, s: State<string>)
    requires SameMembers(d, s)
  {
    forall m {:trigger SlotAt(d, m)} :: m in s.units ==> Mirrors(SlotAt(d, m), s.units[m])
  }

  ghost predicate SameMembers(d: Keyspace, s: State<string>) {
    && d.hashes.Keys == d.streams.Keys == s.units.Keys
    && d.eligible.Keys <= s.units.Keys && d.pendingFlush.Keys <= s.units.Keys && d.leases.Keys <= s.units.Keys
  }

  ghost predicate Indexed(d: Keyspace) {
    forall m {:trigger SlotAt(d, m)} :: m in d.hashes && m in d.streams ==> InOneIndex(SlotAt(d, m))
  }

  lemma IndexOf(d: Keyspace, s: State<string>, m: string)
    requires SameMembers(d, s) && AllMirror(d, s) && m in d.hashes && InOneIndex(SlotAt(d, m))
    ensures m in d.leases ==> m !in d.eligible && m !in d.pendingFlush
    ensures m !in d.leases ==> (m in d.eligible <==> m !in d.pendingFlush)
    ensures m in d.eligible ==> d.eligible[m] == d.hashes[m].flushMs
    ensures m in d.pendingFlush ==> d.pendingFlush[m] == d.hashes[m].flushMs
    ensures m in d.leases ==> d.hashes[m].leaseExp == Some(d.leases[m])
  {
    assert Mirrors(SlotAt(d, m), s.units[m]);
  }

  /**
   The three sets are pairwise disjoint and together cover exactly the live units; scores are flush
   times and lease expiries.
   */
  lemma IndexPartition(d: Keyspace, s: State<string>)
    requires SameMembers(d, s) && AllMirror(d, s) && Indexed(d)
    ensures d.eligible.Keys !! d.pendingFlush.Keys !! d.leases.Keys
    ensures d.eligible.Keys + d.pendingFlush.Keys + d.leases.Keys == d.hashes.Keys
    ensures forall m :: m in d.eligible ==> d.eligible[m] == d.hashes[m].flushMs
    ensures forall m :: m in d.pendingFlush ==> d.pendingFlush[m] == d.hashes[m].flushMs
    ensures forall m :: m in d.leases ==> d.hashes[m].leaseExp == Some(d.leases[m])
  {
    forall m | m in d.hashes
      ensures m in d.leases ==> m !in d.eligible && m !in d.pendingFlush
      ensures m !in d.leases ==> (m in d.eligible <==> m !in d.pendingFlush)
      ensures m in d.eligible ==> d.eligible[m] == d.hashes[m].flushMs
      ensures m in d.pendingFlush ==> d.pendingFlush[m] == d.hashes[m].flushMs
      ensures m in d.leases ==> d.hashes[m].leaseExp == Some(d.leases[m])
    {
      IndexOf(d, s, m);
    }
  }

  /** Each hash's cost is its stream's. */
  lemma CostsMatch(d: Keyspace, s: State<string>, clock: int)
    requires Wf(d, s, clock)
    ensures forall m :: m in d.hashes ==> d.hashes[m].pendingCost == Total(Queue(d.streams[m].entries))
  {
    forall m | m in d.hashes ensures d.hashes[m].pendingCost == Total(Queue(d.streams[m].entries)) {
      assert Mirrors(SlotAt(d, m), s.units[m]) && UnitInv(s.units[m], s.cfg, s.issued, clock, clock);
    }
  }

  // ---------- one member changes, the rest stays ----------

  ghost predicate Elsewhere(d0: Keyspace, d1: Keyspace, m: string) {
    && d1.hashes - {m} == d0.hashes - {m} && d1.streams - {m} == d0.streams - {m}
    && d1.eligible - {m} == d0.eligible - {m} && d1.pendingFlush - {m} == d0.pendingFlush - {m}
    && d1.leases - {m} == d0.leases - {m}
  }

  lemma SameSlot(d0: Keyspace, d1: Keyspace, m: string, k: string)
    requires Elsewhere(d0, d1, m) && k != m
    ensures k in d1.hashes <==> k in d0.hashes
    ensures k in d1.streams <==> k in d0.streams
    ensures k in d1.eligible <==> k in d0.eligible
    ensures k in d1.pendingFlush <==> k in d0.pendingFlush
    ensures k in d1.leases <==> k in d0.leases
    ensures k in d0.hashes && k in d0.streams ==> SlotAt(d1, k) == SlotAt(d0, k)
  {
    assert k in d0.hashes - {m} <==> k in d1.hashes - {m};
    assert k in d0.streams - {m} <==> k in d1.streams - {m};
    assert k in d0.eligible - {m} <==> k in d1.eligible - {m};
    assert k in d0.pendingFlush - {m} <==> k in d1.pendingFlush - {m};
    assert k in d0.leases - {m} <==> k in d1.leases - {m};
  }

  function Length(streams: map<string, Stream>, m: string): int {
    if m in streams then |streams[m].entries| else 0
  }

  lemma TallyMoves(before: map<string, Stream>, after: map<string, Stream>, m: string)
    requires before - {m} == after - {m}
    ensures Sum(Lengths(after)) - Sum(Lengths(before)) == Length(after, m) - Length(before, m)
  {
    TallySplit(before, m);
    TallySplit(after, m);
  }

  lemma TallySplit(streams: map<string, Stream>, m: string)
    ensures Sum(Lengths(streams)) == Sum(Lengths(streams - {m})) + Length(streams, m)
  {
    if m in streams {
      SumAt(Lengths(streams), m);
      assert Lengths(streams) - {m} == Lengths(streams - {m});
    } else {
      assert streams - {m} == streams;
    }
  }

  ghost predicate Landed(d: Keyspace, m: string, u: Option<Unit>) {
    if u.Some?
    then m in d.hashes && m in d.streams && Mirrors(SlotAt(d, m), u.value)
    else m !in d.hashes && m !in d.streams && m !in d.eligible && m !in d.pendingFlush && m !in d.leases
  }

  /** A script that leaves the other members alone only has to account for its own. */
  lemma Committed(d0: Keyspace, d1: Keyspace, s0: State<string>, s1: State<string>, m: string, u: Option<Unit>)
    requires Shows(d0, s0) && Elsewhere(d0, d1, m) && Landed(d1, m, u)
    requires s1.units == Put(s0, m, u).units && s1.dlq == d1.dlq
    ensures Shows(d1, s1)
  {
    CommittedMembers(d0, d1, s0, s1, m, u);
    CommittedMirrors(d0, d1, s0, s1, m, u);
  }

  lemma CommittedMirrors(d0: Keyspace, d1: Keyspace, s0: State<string>, s1: State<string>, m: string, u: Option<Unit>)
    requires SameMembers(d0, s0) && AllMirror(d0, s0) && Elsewhere(d0, d1, m) && Landed(d1, m, u)
    requires SameMembers(d1, s1) && s1.units == Put(s0, m, u).units
    ensures AllMirror(d1, s1)
  {
    forall k | k in s1.units ensures Mirrors(SlotAt(d1, k), s1.units[k]) {
      if k != m {
        SameSlot(d0, d1, m, k);
      }
    }
  }

  lemma CommittedMembers(d0: Keyspace, d1: Keyspace, s0: State<string>, s1: State<string>, m: string, u: Option<Unit>)
    requires SameMembers(d0, s0) && Elsewhere(d0, d1, m) && Landed(d1, m, u)
    requires s1.units == Put(s0, m, u).units
    ensures SameMembers(d1, s1)
  {
    forall k
      ensures k in d1.hashes <==> k in s1.units
      ensures k in d1.streams <==> k in s1.units
      ensures k in d1.eligible ==> k in s1.units
      ensures k in d1.pendingFlush ==> k in s1.units
      ensures k in d1.leases ==> k in s1.units
    {
      if k != m {
        SameSlot(d0, d1, m, k);
      }
    }
  }

  /** Whether the sets still index every unit rests on the one member that changed. */
  lemma CommittedIndex(d0: Keyspace, d1: Keyspace, m: string)
    requires Elsewhere(d0, d1, m) && Indexed(d0)
    ensures Indexed(d1) <==> (m in d1.hashes && m in d1.streams ==> InOneIndex(SlotAt(d1, m)))
  {
    forall k | k in d1.hashes && k in d1.streams && k != m ensures InOneIndex(SlotAt(d1, k)) {
      SameSlot(d0, d1, m, k);
    }
  }
}
