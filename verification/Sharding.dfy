/**
 N independent shards behind one router. A key's shard is an arbitrary function of its workspace
 modulo N; each shard is one oracle queue; together they are one queue, the disjoint union.
 */
module Sharding {
  import opened Contract
  import opened Oracle
  import opened Invariant
  import opened Tokens

  /** The shard a key is routed to. */
  function Home(hash: string -> nat, n: nat, k: Key): (i: nat)
    requires n > 0
    ensures i < n
  {
    if n == 1 then 0 else hash(k.workspace) % n
  }

  /** One shard, as the driver computes it, with or without the shortcut for a single one: the workspace alone decides. */
  lemma HomeIs(hash: string -> nat, n: nat, k: Key)
    requires n > 0
    ensures Home(hash, n, k) == hash(k.workspace) % n
  {
  }

  /** All shards but one are as they were. */
  ghost predicate OthersKept(before: seq<State<Key>>, after: seq<State<Key>>, i: nat) {
    |after| == |before| && forall j :: 0 <= j < |before| && j != i ==> after[j] == before[j]
  }

  // ---------- the union of the shards ----------

  /** The dead letters whose keys live on one shard, in order. */
  function Homed(dlq: seq<DeadLetter<Key>>, hash: string -> nat, n: nat, i: nat): seq<DeadLetter<Key>>
    requires n > 0
  {
    if dlq == [] then [] else
    var d := dlq[|dlq| - 1];
    Homed(dlq[..|dlq| - 1], hash, n, i) + if Home(hash, n, d.key) == i then [d] else []
  }

  ghost predicate Part(whole: State<Key>, shards: seq<State<Key>>, hash: string -> nat, i: nat)
    requires i < |shards|
  {
    && shards[i].cfg == whole.cfg && shards[i].issued <= whole.issued
    && shards[i].dlq == Homed(whole.dlq, hash, |shards|, i)
    && forall k :: k in shards[i].units <==> k in whole.units && Home(hash, |shards|, k) == i
  }

  /** Each unit is on its own shard and nowhere else, and looks there as it does in the whole. */
  ghost predicate Joined(whole: State<Key>, shards: seq<State<Key>>, hash: string -> nat) {
    && |shards| > 0
    && (forall i :: 0 <= i < |shards| ==> Part(whole, shards, hash, i))
    && (forall k :: k in whole.units ==> whole.units[k] == UnitOf(shards[Home(hash, |shards|, k)], k))
  }

  lemma HomedPush(dlq: seq<DeadLetter<Key>>, d: DeadLetter<Key>, hash: string -> nat, n: nat, i: nat)
    requires n > 0
    ensures Homed(dlq + [d], hash, n, i) == Homed(dlq, hash, n, i) + if Home(hash, n, d.key) == i then [d] else []
  {
    assert (dlq + [d])[..|dlq|] == dlq;
  }

  lemma HomedChange(dlq: seq<DeadLetter<Key>>, dead: Option<DeadLetter<Key>>, hash: string -> nat, n: nat, i: nat)
    requires n > 0
    ensures var more := if dead.Some? then [dead.value] else [];
            Homed(dlq + more, hash, n, i) ==
              Homed(dlq, hash, n, i) + if dead.Some? && Home(hash, n, dead.value.key) == i then more else []
  {
    if dead.Some? {
      HomedPush(dlq, dead.value, hash, n, i);
    } else {
      assert dlq + [] == dlq;
    }
  }

  /** What one operation on a unit does: a new unit or none, perhaps a dead letter, perhaps a token. */
  function Change(s: State<Key>, k: Key, v: Option<Unit>, dead: Option<DeadLetter<Key>>, issued: set<string>): State<Key> {
    Put(s, k, v).(dlq := s.dlq + (if dead.Some? then [dead.value] else []), issued := s.issued + issued)
  }

  /** An operation on a key's own shard is that operation on the union. */
  lemma ChangeJoins(whole: State<Key>, shards: seq<State<Key>>, hash: string -> nat, k: Key,
      v: Option<Unit>, dead: Option<DeadLetter<Key>>, issued: set<string>)
    requires Joined(whole, shards, hash) && (dead.Some? ==> dead.value.key == k)
    ensures var h := Home(hash, |shards|, k);
            Joined(Change(whole, k, v, dead, issued), shards[h := Change(shards[h], k, v, dead, issued)], hash)
  {
    var h := Home(hash, |shards|, k);
    var w, ss := Change(whole, k, v, dead, issued), shards[h := Change(shards[h], k, v, dead, issued)];
    forall i | 0 <= i < |ss| ensures Part(w, ss, hash, i) {
      assert Part(whole, shards, hash, i);
      HomedChange(whole.dlq, dead, hash, |shards|, i);
    }
    forall j | j in w.units ensures w.units[j] == UnitOf(ss[Home(hash, |ss|, j)], j) {
      if j != k {
        assert whole.units[j] == UnitOf(shards[Home(hash, |shards|, j)], j);
      }
    }
  }

  lemma UnitAtHome(whole: State<Key>, shards: seq<State<Key>>, hash: string -> nat, k: Key)
    requires Joined(whole, shards, hash)
    ensures UnitOf(whole, k) == UnitOf(shards[Home(hash, |shards|, k)], k)
    ensures k in whole.units <==> k in shards[Home(hash, |shards|, k)].units
  {
    assert Part(whole, shards, hash, Home(hash, |shards|, k));
  }

  lemma HeldAtHome(whole: State<Key>, shards: seq<State<Key>>, hash: string -> nat, c: Claimed<Key>)
    requires Joined(whole, shards, hash)
    ensures Held(whole, c) <==> Held(shards[Home(hash, |shards|, c.key)], c)
  {
    UnitAtHome(whole, shards, hash, c.key);
  }

  // ---------- routed operations ----------

  lemma EnqueueJoins(whole: State<Key>, shards: seq<State<Key>>, hash: string -> nat, k: Key, payload: string, cost: int, now: int)
    requires Joined(whole, shards, hash)
    ensures var h := Home(hash, |shards|, k);
            Joined(Enqueue(whole, k, payload, cost, now), shards[h := Enqueue(shards[h], k, payload, cost, now)], hash)
  {
    var h := Home(hash, |shards|, k);
    UnitAtHome(whole, shards, hash, k);
    var v := Some(Push(UnitOf(whole, k), payload, cost, now));
    ChangeJoins(whole, shards, hash, k, v, None, {});
    ChangeIs(whole, k, v, None);
    ChangeIs(shards[h], k, v, None);
  }

  lemma ChangeIs(s: State<Key>, k: Key, v: Option<Unit>, dead: Option<DeadLetter<Key>>)
    ensures Change(s, k, v, dead, {}) == Put(s, k, v).(dlq := s.dlq + if dead.Some? then [dead.value] else [])
    ensures dead.None? ==> Change(s, k, v, dead, {}) == Put(s, k, v)
  {
  }

  lemma SameShard(shards: seq<State<Key>>, i: nat)
    requires i < |shards|
    ensures shards[i := shards[i]] == shards
  {
  }

  lemma AckJoins(whole: State<Key>, shards: seq<State<Key>>, hash: string -> nat, c: Claimed<Key>, through: int, now: int)
    requires Joined(whole, shards, hash)
    ensures var h := Home(hash, |shards|, c.key);
            && Joined(Ack(whole, c, through, now), shards[h := Ack(shards[h], c, through, now)], hash)
            && AckOutcome(whole, c, through, now) == AckOutcome(shards[h], c, through, now)
  {
    var h := Home(hash, |shards|, c.key);
    HeldAtHome(whole, shards, hash, c);
    if Held(whole, c) {
      UnitAtHome(whole, shards, hash, c.key);
      var v := AckUnit(whole.units[c.key], through, now);
      ChangeJoins(whole, shards, hash, c.key, v, None, {});
      ChangeIs(whole, c.key, v, None);
      ChangeIs(shards[h], c.key, v, None);
      AckShape(whole, c, through, now);
      AckShape(shards[h], c, through, now);
    } else {
      SameShard(shards, h);
    }
  }

  lemma ReleaseJoins(whole: State<Key>, shards: seq<State<Key>>, hash: string -> nat, c: Claimed<Key>)
    requires Joined(whole, shards, hash)
    ensures var h := Home(hash, |shards|, c.key); Joined(Release(whole, c), shards[h := Release(shards[h], c)], hash)
  {
    var h := Home(hash, |shards|, c.key);
    HeldAtHome(whole, shards, hash, c);
    if Held(whole, c) {
      UnitAtHome(whole, shards, hash, c.key);
      var v := Some(whole.units[c.key].(lease := None));
      ChangeJoins(whole, shards, hash, c.key, v, None, {});
      ChangeIs(whole, c.key, v, None);
      ChangeIs(shards[h], c.key, v, None);
    } else {
      SameShard(shards, h);
    }
  }

  lemma HeartbeatJoins(whole: State<Key>, shards: seq<State<Key>>, hash: string -> nat, c: Claimed<Key>, extend: int, now: int)
    requires Joined(whole, shards, hash)
    ensures var h := Home(hash, |shards|, c.key);
            Joined(Heartbeat(whole, c, extend, now), shards[h := Heartbeat(shards[h], c, extend, now)], hash)
  {
    var h := Home(hash, |shards|, c.key);
    HeldAtHome(whole, shards, hash, c);
    if Held(whole, c) {
      UnitAtHome(whole, shards, hash, c.key);
      var v := Some(Prolong(whole.units[c.key], now + extend));
      ChangeJoins(whole, shards, hash, c.key, v, None, {});
      ChangeIs(whole, c.key, v, None);
      ChangeIs(shards[h], c.key, v, None);
      HeartbeatShape(whole, c, extend, now);
      HeartbeatShape(shards[h], c, extend, now);
    } else {
      SameShard(shards, h);
    }
  }

  lemma FailJoins(whole: State<Key>, shards: seq<State<Key>>, hash: string -> nat, c: Claimed<Key>, seqNo: int, reason: string, now: int)
    requires Joined(whole, shards, hash)
    ensures var h := Home(hash, |shards|, c.key);
            Joined(Fail(whole, c, seqNo, reason, now), shards[h := Fail(shards[h], c, seqNo, reason, now)], hash)
  {
    var h := Home(hash, |shards|, c.key);
    HeldAtHome(whole, shards, hash, c);
    if Held(whole, c) {
      assert Part(whole, shards, hash, h);
      UnitAtHome(whole, shards, hash, c.key);
      var u, cap := whole.units[c.key], whole.cfg.maxAttempts;
      var v := FailUnit(u, seqNo, cap, now);
      var dead := if Poison(u, seqNo, cap) then Some(DeadLetter(c.key, u.queue[0].task, reason)) else None;
      ChangeJoins(whole, shards, hash, c.key, v, dead, {});
      ChangeIs(whole, c.key, v, dead);
      ChangeIs(shards[h], c.key, v, dead);
      FailShape(whole, c, seqNo, reason, now);
      FailShape(shards[h], c, seqNo, reason, now);
    } else {
      SameShard(shards, h);
    }
  }

  // ---------- claiming across shards ----------

  lemma GrantJoins(whole: State<Key>, shards: seq<State<Key>>, hash: string -> nat, i: nat, k: Key,
      worker: string, token: string, window: int, now: int)
    requires Joined(whole, shards, hash) && i < |shards| && k in shards[i].units
    ensures Home(hash, |shards|, k) == i && k in whole.units && whole.units[k] == shards[i].units[k]
    ensures Joined(Grant(whole, k, worker, token, window, now),
                   shards[i := Grant(shards[i], k, worker, token, window, now)], hash)
  {
    assert Part(whole, shards, hash, i);
    UnitAtHome(whole, shards, hash, k);
    var v := Some(whole.units[k].(lease := Some(Lease(worker, token, window, now + window))));
    ChangeJoins(whole, shards, hash, k, v, None, {token});
    assert Change(whole, k, v, None, {token}) == Grant(whole, k, worker, token, window, now);
    assert Change(shards[i], k, v, None, {token}) == Grant(shards[i], k, worker, token, window, now);
  }

  /** The shard a claim consults at its i-th attempt. */
  function Turn(start: nat, n: nat, i: nat): (t: nat)
    requires n > 0
    ensures t < n
  {
    (start + i) % n
  }

  lemma {:induction false} AtLeast(a: nat, p: int, n: nat)
    requires a >= 1
    ensures (p + a) * n >= p * n + n
  {
    if a > 1 {
      AtLeast(a - 1, p, n);
    }
    assert (p + a) * n == (p + (a - 1)) * n + n;
  }

  lemma SameRemainder(n: nat, q: int, r: nat, p: int, s: nat)
    requires r < n && s < n && q * n + r == p * n + s
    ensures r == s
  {
    if q > p {
      AtLeast(q - p, p, n);
    } else if q < p {
      AtLeast(p - q, q, n);
    }
  }

  lemma TurnIs(start: nat, n: nat, i: nat)
    requires i < n
    ensures var s := start % n; Turn(start, n, i) == if s + i < n then s + i else s + i - n
  {
    var s, q := start % n, start / n;
    var p := (start + i) / n;
    assert start + i == p * n + Turn(start, n, i);
    if s + i < n {
      SameRemainder(n, p, Turn(start, n, i), q, s + i);
    } else {
      assert (q + 1) * n == q * n + n;
      SameRemainder(n, p, Turn(start, n, i), q + 1, s + i - n);
    }
  }

  /** The rotation from any start visits each shard exactly once. */
  lemma RotationVisits(start: nat, n: nat, target: nat) returns (i: nat)
    requires target < n
    ensures i < n && Turn(start, n, i) == target
    ensures forall j :: 0 <= j < n && Turn(start, n, j) == target ==> j == i
  {
    var s := start % n;
    i := if target >= s then target - s else target + n - s;
    TurnIs(start, n, i);
    forall j | 0 <= j < n && Turn(start, n, j) == target ensures j == i {
      TurnIs(start, n, j);
    }
  }

  /** The shard that the i-th claim consults first, when the cursor stands at rr for the claim numbered zero. */
  function FirstOf(rr: nat, n: nat, i: nat): (t: nat)
    requires n > 0
    ensures t < n && t == Turn(rr, n, i)
  {
    Turn(rr + i, n, 0)
  }

  /** Among as many claims in a row as there are shards, exactly one consults a given shard first. */
  lemma FirstInTurn(rr: nat, n: nat, target: nat) returns (i: nat)
    requires target < n
    ensures i < n && FirstOf(rr, n, i) == target
    ensures forall j :: 0 <= j < n && FirstOf(rr, n, j) == target ==> j == i
  {
    i := RotationVisits(rr, n, target);
  }

  /** When no shard has anything claimable, the whole has not. */
  lemma NothingAnywhere(whole: State<Key>, shards: seq<State<Key>>, hash: string -> nat)
    requires Joined(whole, shards, hash) && forall i :: 0 <= i < |shards| ==> NothingClaimable(shards[i])
    ensures NothingClaimable(whole)
  {
    forall k | k in whole.units ensures !Claimable(whole, k) {
      UnitAtHome(whole, shards, hash, k);
      assert NothingClaimable(shards[Home(hash, |shards|, k)]);
    }
  }

  /** The rotation from start comes to k at its i-th turn: the first shard with anything hands out its oldest. */
  ghost predicate WinsAt(shards: seq<State<Key>>, start: nat, i: nat, k: Key)
    requires i < |shards|
  {
    Oldest(shards[Turn(start, |shards|, i)], k) && NothingBefore(shards, start, i)
  }

  /** The first i shards of the rotation had nothing to hand out. */
  ghost predicate NothingBefore(shards: seq<State<Key>>, start: nat, i: nat)
    requires i <= |shards|
  {
    forall j :: 0 <= j < i ==> NothingClaimable(shards[Turn(start, |shards|, j)])
  }

  ghost predicate Wins(shards: seq<State<Key>>, start: nat, k: Key) {
    exists i :: 0 <= i < |shards| && WinsAt(shards, start, i, k)
  }

  lemma FirstHasNothing(shards: seq<State<Key>>, start: nat, i: nat)
    requires 0 < |shards| && i <= |shards| && NothingBefore(shards, start, i)
    ensures i > 0 ==> NothingClaimable(shards[Turn(start, |shards|, 0)])
  {
  }

  /** A claim that consults a shard first and finds something there takes it. */
  lemma FirstWins(shards: seq<State<Key>>, start: nat, k: Key, target: nat)
    requires Wins(shards, start, k) && target < |shards| && Turn(start, |shards|, 0) == target
    requires !NothingClaimable(shards[target])
    ensures Oldest(shards[target], k)
  {
    var i :| 0 <= i < |shards| && WinsAt(shards, start, i, k);
    FirstHasNothing(shards, start, i);
  }

  lemma ClaimableAtHome(whole: State<Key>, shards: seq<State<Key>>, hash: string -> nat, i: nat, k: Key)
    requires Joined(whole, shards, hash) && i < |shards|
    ensures Claimable(shards[i], k) <==> Claimable(whole, k) && Home(hash, |shards|, k) == i
  {
    assert Part(whole, shards, hash, i);
    UnitAtHome(whole, shards, hash, k);
  }

  lemma WinnerIsClaimable(whole: State<Key>, shards: seq<State<Key>>, hash: string -> nat, start: nat, k: Key)
    requires Joined(whole, shards, hash) && Wins(shards, start, k)
    ensures Claimable(whole, k) && Oldest(shards[Home(hash, |shards|, k)], k)
  {
    var i :| 0 <= i < |shards| && WinsAt(shards, start, i, k);
    ClaimableAtHome(whole, shards, hash, Turn(start, |shards|, i), k);
  }

  /** A shard holds a unit to hand out whose deadline is least among those of all shards. */
  ghost predicate HoldsLeast(shards: seq<State<Key>>, p: nat)
    requires p < |shards|
  {
    exists k :: Claimable(shards[p], k) && NoneEarlier(shards, shards[p].units[k].flushDeadline)
  }

  /** No shard has a unit to hand out whose deadline is earlier. */
  ghost predicate NoneEarlier(shards: seq<State<Key>>, deadline: int) {
    forall i, j :: 0 <= i < |shards| && Claimable(shards[i], j) ==> deadline <= shards[i].units[j].flushDeadline
  }

  lemma OldestOverall(whole: State<Key>, shards: seq<State<Key>>, hash: string -> nat, k: Key)
    requires Joined(whole, shards, hash) && Claimable(whole, k)
    ensures Oldest(whole, k) <==> NoneEarlier(shards, whole.units[k].flushDeadline)
  {
    var deadline := whole.units[k].flushDeadline;
    if NoneEarlier(shards, deadline) {
      forall j | j in whole.units && Claimable(whole, j) ensures deadline <= whole.units[j].flushDeadline {
        ClaimableAtHome(whole, shards, hash, Home(hash, |shards|, j), j);
        UnitAtHome(whole, shards, hash, j);
      }
    } else {
      var i, j :| 0 <= i < |shards| && Claimable(shards[i], j) && shards[i].units[j].flushDeadline < deadline;
      ClaimableAtHome(whole, shards, hash, i, j);
      UnitAtHome(whole, shards, hash, j);
    }
  }

  /**
   Whatever a rotation hands out is the oldest of all if and only if the first shard it comes to that has
   anything to hand out holds a least deadline among all shards.
   */
  lemma FairExactly(whole: State<Key>, shards: seq<State<Key>>, hash: string -> nat, start: nat, i: nat, k: Key)
    requires Joined(whole, shards, hash) && i < |shards| && WinsAt(shards, start, i, k)
    ensures Claimable(whole, k)
    ensures Oldest(whole, k) <==> HoldsLeast(shards, Turn(start, |shards|, i))
  {
    var p := Turn(start, |shards|, i);
    ClaimableAtHome(whole, shards, hash, p, k);
    UnitAtHome(whole, shards, hash, k);
    OldestOverall(whole, shards, hash, k);
    if HoldsLeast(shards, p) {
      var j :| Claimable(shards[p], j) && NoneEarlier(shards, shards[p].units[j].flushDeadline);
      assert shards[p].units[k].flushDeadline <= shards[p].units[j].flushDeadline;
    }
  }

  /** What a claim may hand out, and when it is the oldest of all. */
  ghost predicate Granted(whole: State<Key>, shards: seq<State<Key>>, start: nat, k: Key) {
    Claimable(whole, k) &&
    exists i :: 0 <= i < |shards| && WinsAt(shards, start, i, k) &&
      (Oldest(whole, k) <==> HoldsLeast(shards, Turn(start, |shards|, i)))
  }

  lemma TurnGrants(whole: State<Key>, shards: seq<State<Key>>, hash: string -> nat, start: nat, i: nat, k: Key)
    requires Joined(whole, shards, hash) && i < |shards| && NothingBefore(shards, start, i)
    requires Oldest(shards[Turn(start, |shards|, i)], k)
    ensures Granted(whole, shards, start, k)
  {
    assert WinsAt(shards, start, i, k);
    FairExactly(whole, shards, hash, start, i, k);
  }

  /** A rotation that found nothing has seen every shard. */
  lemma NothingAtAll(whole: State<Key>, shards: seq<State<Key>>, hash: string -> nat, start: nat)
    requires Joined(whole, shards, hash) && NothingBefore(shards, start, |shards|)
    ensures NothingClaimable(whole)
  {
    forall target | 0 <= target < |shards| ensures NothingClaimable(shards[target]) {
      var j := RotationVisits(start, |shards|, target);
    }
    NothingAnywhere(whole, shards, hash);
  }

  // ---------- sweeping every shard ----------

  lemma ReapJoins(whole: State<Key>, shards: seq<State<Key>>, after: seq<State<Key>>, hash: string -> nat, expiredBefore: int, bound: int)
    requires Joined(whole, shards, hash) && |after| == |shards|
    requires forall i :: 0 <= i < |shards| ==> after[i] == Reap(shards[i], expiredBefore, bound)
    ensures Joined(Reap(whole, expiredBefore, bound), after, hash)
  {
    var w := Reap(whole, expiredBefore, bound);
    forall i | 0 <= i < |after| ensures Part(w, after, hash, i) {
      assert Part(whole, shards, hash, i);
    }
    forall k | k in w.units ensures w.units[k] == UnitOf(after[Home(hash, |after|, k)], k) {
      UnitAtHome(whole, shards, hash, k);
    }
  }

  /** The members of a set of units that live on the first n shards. */
  ghost function Below(ks: set<Key>, hash: string -> nat, shards: nat, n: nat): set<Key>
    requires shards > 0
  {
    set k | k in ks && Home(hash, shards, k) < n
  }

  lemma BelowGrows(ks: set<Key>, mine: set<Key>, hash: string -> nat, shards: nat, n: nat)
    requires shards > 0 && n < shards && forall k :: k in mine <==> k in ks && Home(hash, shards, k) == n
    ensures |Below(ks, hash, shards, n + 1)| == |Below(ks, hash, shards, n)| + |mine|
  {
    assert Below(ks, hash, shards, n + 1) == Below(ks, hash, shards, n) + mine;
  }

  lemma BelowEnds(ks: set<Key>, hash: string -> nat, shards: nat)
    requires shards > 0
    ensures Below(ks, hash, shards, shards) == ks && Below(ks, hash, shards, 0) == {}
  {
  }

  lemma SweptAtHome(whole: State<Key>, shards: seq<State<Key>>, hash: string -> nat, expiredBefore: int, bound: int, i: nat)
    requires Joined(whole, shards, hash) && i < |shards|
    ensures forall k :: k in Reclaimed(shards[i], expiredBefore) <==>
              k in Reclaimed(whole, expiredBefore) && Home(hash, |shards|, k) == i
    ensures forall k :: k in Flushed(shards[i], expiredBefore, bound) <==>
              k in Flushed(whole, expiredBefore, bound) && Home(hash, |shards|, k) == i
  {
    assert Part(whole, shards, hash, i);
  }

  ghost predicate SweptTo(before: seq<State<Key>>, shards: seq<State<Key>>, n: nat, expiredBefore: int, bound: int) {
    |shards| == |before| &&
    forall j :: 0 <= j < |shards| ==> shards[j] == if j < n then Reap(before[j], expiredBefore, bound) else before[j]
  }

  ghost predicate CountedTo(whole: State<Key>, shards: nat, hash: string -> nat, expiredBefore: int, bound: int, n: nat, r: nat, f: nat)
    requires shards > 0
  {
    && r == |Below(Oracle.Reclaimed(whole, expiredBefore), hash, shards, n)|
    && f == |Below(Flushed(whole, expiredBefore, bound), hash, shards, n)|
  }

  lemma NoneSwept(whole: State<Key>, shards: seq<State<Key>>, hash: string -> nat, expiredBefore: int, bound: int)
    requires |shards| > 0
    ensures SweptTo(shards, shards, 0, expiredBefore, bound)
    ensures CountedTo(whole, |shards|, hash, expiredBefore, bound, 0, 0, 0)
  {
    BelowEnds(Oracle.Reclaimed(whole, expiredBefore), hash, |shards|);
    BelowEnds(Flushed(whole, expiredBefore, bound), hash, |shards|);
  }

  lemma CountOneMore(whole: State<Key>, shards: seq<State<Key>>, hash: string -> nat, expiredBefore: int, bound: int, i: nat, r: nat, f: nat,
      next: nat, r': nat, f': nat)
    requires Joined(whole, shards, hash) && i < |shards| && next == i + 1
    requires CountedTo(whole, |shards|, hash, expiredBefore, bound, i, r, f)
    requires r' == r + |Oracle.Reclaimed(shards[i], expiredBefore)| && f' == f + |Flushed(shards[i], expiredBefore, bound)|
    ensures CountedTo(whole, |shards|, hash, expiredBefore, bound, next, r', f')
  {
    SweptAtHome(whole, shards, hash, expiredBefore, bound, i);
    BelowGrows(Oracle.Reclaimed(whole, expiredBefore), Oracle.Reclaimed(shards[i], expiredBefore), hash, |shards|, i);
    BelowGrows(Flushed(whole, expiredBefore, bound), Flushed(shards[i], expiredBefore, bound), hash, |shards|, i);
  }

  lemma SweptMore(before: seq<State<Key>>, shards: seq<State<Key>>, i: nat, next: nat, expiredBefore: int, bound: int)
    requires SweptTo(before, shards, i, expiredBefore, bound) && i < |shards| && next == i + 1
    ensures SweptTo(before, shards[i := Reap(shards[i], expiredBefore, bound)], next, expiredBefore, bound)
  {
  }

  /** The router: the shards, the rotation cursor and the token counter. */
  class Cluster {
    const hash: string -> nat
    var shards: seq<State<Key>>
    var rr: nat
    var tokens: nat

    /** The one queue the shards make up. */
    ghost var whole: State<Key>

    ghost predicate Valid()
      reads this
    {
      && Joined(whole, shards, hash)
      && forall t :: t in whole.issued ==> exists w, n: nat :: n <= tokens && t == ValkeyToken(w, n)
    }

    constructor (hash: string -> nat, n: nat, cfg: Config)
      requires n > 0
      ensures Valid() && |shards| == n && this.hash == hash && whole == State(map[], [], {}, cfg)
    {
      this.hash := hash;
      shards := seq(n, i => State(map[], [], {}, cfg));
      rr, tokens := 0, 0;
      whole := State(map[], [], {}, cfg);
    }

    method Enqueue(k: Key, payload: string, cost: int, now: int)
      requires Valid()
      modifies this`shards, this`whole
      ensures Valid() && whole == Oracle.Enqueue(old(whole), k, payload, cost, now)
      ensures OthersKept(old(shards), shards, hash(k.workspace) % |old(shards)|)
    {
      HomeIs(hash, |shards|, k);
      var h := Home(hash, |shards|, k);
      EnqueueJoins(whole, shards, hash, k, payload, cost, now);
      shards := shards[h := Oracle.Enqueue(shards[h], k, payload, cost, now)];
      whole := Oracle.Enqueue(whole, k, payload, cost, now);
    }

    /** A claim on one shard: some claimable unit of least deadline, if there is one. */
    method PickOn(s: State<Key>) returns (best: Option<Key>)
      ensures best.None? ==> NothingClaimable(s)
      ensures best.Some? ==> Oldest(s, best.value)
    {
      best := None;
      var rest := s.units.Keys;
      while rest != {}
        invariant rest <= s.units.Keys && (best.Some? ==> Claimable(s, best.value))
        invariant forall j :: j in s.units && j !in rest && Claimable(s, j) ==>
                    best.Some? && s.units[best.value].flushDeadline <= s.units[j].flushDeadline
        decreases rest
      {
        var k :| k in rest;
        if Claimable(s, k) && (best.None? || s.units[k].flushDeadline < s.units[best.value].flushDeadline) {
          best := Some(k);
        }
        rest := rest - {k};
      }
    }

    /** The next token: the counter has never been rendered before. */
    method NextToken(worker: string) returns (token: string)
      requires Valid()
      modifies this`tokens
      ensures Valid() && token !in whole.issued && tokens == old(tokens) + 1 && token == ValkeyToken(worker, tokens)
    {
      tokens := tokens + 1;
      token := ValkeyToken(worker, tokens);
      if token in whole.issued {
        ghost var w, n: nat :| n <= tokens - 1 && token == ValkeyToken(w, n);
        ValkeyTokenInjective(worker, tokens, w, n);
      }
    }

    /**
     Consult the shards in rotating order; the first with anything claimable wins. A claim that comes
     back empty has consulted every shard, and the claimed unit's key routes back to its shard.
     */
    method Claim(worker: string, window: int, now: int) returns (r: Option<Claimed<Key>>)
      requires Valid()
      modifies this
      ensures Valid() && rr == old(rr) + 1 && tokens == old(tokens) + 1 && |shards| == |old(shards)|
      ensures r.None? ==> whole == old(whole) && shards == old(shards) && NothingClaimable(whole)
      ensures r.Some? ==>
                && r.value.worker == worker && r.value.till == now + window && r.value.token !in old(whole).issued
                && r.value.token == ValkeyToken(worker, tokens)
                && Granted(old(whole), old(shards), old(rr) + 1, r.value.key)
                && OthersKept(old(shards), shards, hash(r.value.key.workspace) % |old(shards)|)
                && whole == Grant(old(whole), r.value.key, worker, r.value.token, window, now)
    {
      var token := NextToken(worker);
      rr := rr + 1;
      var i := 0;
      while i < |shards|
        invariant 0 <= i <= |shards| && shards == old(shards) && whole == old(whole) && Valid()
        invariant rr == old(rr) + 1 && tokens == old(tokens) + 1 && token == ValkeyToken(worker, tokens) && token !in whole.issued
        invariant NothingBefore(shards, rr, i)
      {
        var t := Turn(rr, |shards|, i);
        var best := PickOn(shards[t]);
        if best.Some? {
          TurnGrants(whole, shards, hash, rr, i, best.value);
          GrantOn(t, best.value, worker, token, window, now);
          return Some(Claimed(best.value, worker, token, now + window));
        }
        i := i + 1;
      }
      NothingAtAll(whole, shards, hash, rr);
      r := None;
    }

    method GrantOn(t: nat, k: Key, worker: string, token: string, window: int, now: int)
      requires Valid() && t < |shards| && Oldest(shards[t], k) && token == ValkeyToken(worker, tokens)
      modifies this`shards, this`whole
      ensures Valid() && Claimable(old(whole), k) && OthersKept(old(shards), shards, hash(k.workspace) % |old(shards)|)
      ensures whole == Grant(old(whole), k, worker, token, window, now)
    {
      GrantJoins(whole, shards, hash, t, k, worker, token, window, now);
      ClaimableAtHome(whole, shards, hash, t, k);
      HomeIs(hash, |shards|, k);
      shards := shards[t := Grant(shards[t], k, worker, token, window, now)];
      whole := Grant(whole, k, worker, token, window, now);
    }

    method Drain(c: Claimed<Key>, max: nat) returns (r: Outcome<seq<Task>>)
      requires Valid()
      ensures r == Oracle.Drain(whole, c, max)
    {
      HeldAtHome(whole, shards, hash, c);
      UnitAtHome(whole, shards, hash, c.key);
      r := Oracle.Drain(shards[Home(hash, |shards|, c.key)], c, max);
    }

    method Ack(c: Claimed<Key>, through: int, now: int) returns (r: Outcome<bool>)
      requires Valid()
      modifies this`shards, this`whole
      ensures Valid() && whole == Oracle.Ack(old(whole), c, through, now) && r == AckOutcome(old(whole), c, through, now)
      ensures OthersKept(old(shards), shards, hash(c.key.workspace) % |old(shards)|)
    {
      HomeIs(hash, |shards|, c.key);
      var h := Home(hash, |shards|, c.key);
      AckJoins(whole, shards, hash, c, through, now);
      r := AckOutcome(shards[h], c, through, now);
      shards := shards[h := Oracle.Ack(shards[h], c, through, now)];
      whole := Oracle.Ack(whole, c, through, now);
    }

    method Release(c: Claimed<Key>) returns (held: bool)
      requires Valid()
      modifies this`shards, this`whole
      ensures Valid() && whole == Oracle.Release(old(whole), c) && held == Held(old(whole), c)
      ensures OthersKept(old(shards), shards, hash(c.key.workspace) % |old(shards)|)
    {
      HomeIs(hash, |shards|, c.key);
      var h := Home(hash, |shards|, c.key);
      ReleaseJoins(whole, shards, hash, c);
      HeldAtHome(whole, shards, hash, c);
      held := Held(shards[h], c);
      shards := shards[h := Oracle.Release(shards[h], c)];
      whole := Oracle.Release(whole, c);
    }

    method Heartbeat(c: Claimed<Key>, extend: int, now: int) returns (held: bool)
      requires Valid()
      modifies this`shards, this`whole
      ensures Valid() && whole == Oracle.Heartbeat(old(whole), c, extend, now) && held == Held(old(whole), c)
      ensures OthersKept(old(shards), shards, hash(c.key.workspace) % |old(shards)|)
    {
      HomeIs(hash, |shards|, c.key);
      var h := Home(hash, |shards|, c.key);
      HeartbeatJoins(whole, shards, hash, c, extend, now);
      HeldAtHome(whole, shards, hash, c);
      held := Held(shards[h], c);
      shards := shards[h := Oracle.Heartbeat(shards[h], c, extend, now)];
      whole := Oracle.Heartbeat(whole, c, extend, now);
    }

    method Fail(c: Claimed<Key>, seqNo: int, reason: string, now: int) returns (held: bool)
      requires Valid()
      modifies this`shards, this`whole
      ensures Valid() && whole == Oracle.Fail(old(whole), c, seqNo, reason, now) && held == Held(old(whole), c)
      ensures OthersKept(old(shards), shards, hash(c.key.workspace) % |old(shards)|)
    {
      HomeIs(hash, |shards|, c.key);
      var h := Home(hash, |shards|, c.key);
      FailJoins(whole, shards, hash, c, seqNo, reason, now);
      HeldAtHome(whole, shards, hash, c);
      held := Held(shards[h], c);
      shards := shards[h := Oracle.Fail(shards[h], c, seqNo, reason, now)];
      whole := Oracle.Fail(whole, c, seqNo, reason, now);
    }

    /** Sweep the shards one after the other and add up their counts. */
    method ReapExpired(expiredBefore: int, bound: int) returns (reclaimed: nat, flushed: nat)
      requires Valid()
      modifies this`shards, this`whole
      ensures Valid() && whole == Reap(old(whole), expiredBefore, bound)
      ensures reclaimed == |Oracle.Reclaimed(old(whole), expiredBefore)| && flushed == |Flushed(old(whole), expiredBefore, bound)|
    {
      ghost var before := shards;
      reclaimed, flushed := SweepShards(expiredBefore, bound);
      ReapJoins(whole, before, shards, hash, expiredBefore, bound);
      BelowEnds(Oracle.Reclaimed(whole, expiredBefore), hash, |before|);
      BelowEnds(Flushed(whole, expiredBefore, bound), hash, |before|);
      whole := Reap(whole, expiredBefore, bound);
    }

    method SweepShards(expiredBefore: int, bound: int) returns (reclaimed: nat, flushed: nat)
      requires Joined(whole, shards, hash)
      modifies this`shards
      ensures SweptTo(old(shards), shards, |old(shards)|, expiredBefore, bound)
      ensures CountedTo(whole, |old(shards)|, hash, expiredBefore, bound, |old(shards)|, reclaimed, flushed)
    {
      reclaimed, flushed := 0, 0;
      NoneSwept(whole, shards, hash, expiredBefore, bound);
      var i := 0;
      while i < |shards|
        invariant 0 <= i <= |shards| == |old(shards)| && SweptTo(old(shards), shards, i, expiredBefore, bound)
        invariant CountedTo(whole, |old(shards)|, hash, expiredBefore, bound, i, reclaimed, flushed)
      {
        var r, f := reclaimed + |Oracle.Reclaimed(shards[i], expiredBefore)|, flushed + |Flushed(shards[i], expiredBefore, bound)|;
        var next := i + 1;
        CountOneMore(whole, old(shards), hash, expiredBefore, bound, i, reclaimed, flushed, next, r, f);
        SweptMore(old(shards), shards, i, next, expiredBefore, bound);
        shards := shards[i := Reap(shards[i], expiredBefore, bound)];
        reclaimed, flushed, i := r, f, next;
      }
    }
  }
}
