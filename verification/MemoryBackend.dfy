/** The in-memory backend: one map of units mutated in place, each operation under the same lock. */
module MemoryBackend {
  import opened Contract
  import opened Oracle
  import opened Invariant
  import opened Tokens

  /** The zero time. Real clock readings are later. */
  const ZERO_TIME := 0

  // ---------- the order used to break ties ----------

  predicate Before(a: string, b: string) {
    if b == "" then false
    else if a == "" then true
    else a[0] < b[0] || (a[0] == b[0] && Before(a[1..], b[1..]))
  }

  lemma {:induction false} BeforeTransitive(a: string, b: string, c: string)
    requires Before(a, b) && Before(b, c)
    ensures Before(a, c)
  {
    if a != "" && a[0] == b[0] == c[0] {
      BeforeTransitive(a[1..], b[1..], c[1..]);
    }
  }

  lemma {:induction false} BeforeTotal(a: string, b: string)
    ensures a == b || Before(a, b) || Before(b, a)
  {
    if a != "" && b != "" && a[0] == b[0] {
      BeforeTotal(a[1..], b[1..]);
      assert a == [a[0]] + a[1..] && b == [b[0]] + b[1..];
    }
  }

  /** The two strings agree before i, where the first ends or has the lesser character. */
  predicate LesserAt(a: string, b: string, i: int) {
    0 <= i <= |a| && i < |b| && a[..i] == b[..i] && (i == |a| || a[i] < b[i])
  }

  /** A string comes before another if and only if it is lesser where they first differ. */
  lemma {:induction false} BeforeFirst(a: string, b: string)
    ensures Before(a, b) <==> exists i :: LesserAt(a, b, i)
  {
    if a == "" || b == "" || a[0] != b[0] {
      assert Before(a, b) ==> LesserAt(a, b, 0);
    } else {
      BeforeFirst(a[1..], b[1..]);
      if Before(a, b) {
        var i :| LesserAt(a[1..], b[1..], i);
        assert a[..i + 1] == [a[0]] + a[1..][..i] && b[..i + 1] == [b[0]] + b[1..][..i];
        assert LesserAt(a, b, i + 1);
      }
      forall i | LesserAt(a, b, i) ensures Before(a, b) {
        assert a[1..][..i - 1] == a[..i][1..] && b[1..][..i - 1] == b[..i][1..];
        assert LesserAt(a[1..], b[1..], i - 1);
      }
    }
  }

  /** The rendering is the three fields in turn with a slash between each two. */
  lemma RenderJoins(k: Key)
    ensures var r, w, s := k.Render(), |k.workspace|, |k.session|;
            && |r| == w + s + |k.peer| + 2 && r[w] == r[w + 1 + s] == '/'
            && r[..w] == k.workspace && r[w + 1..w + 1 + s] == k.session && r[w + 2 + s..] == k.peer
  {
  }

  predicate Earlier(s: State<Key>, a: Key, b: Key)
    requires a in s.units && b in s.units
  {
    s.units[a].flushDeadline < s.units[b].flushDeadline ||
    (s.units[a].flushDeadline == s.units[b].flushDeadline && Before(a.Render(), b.Render()))
  }

  /** The unit the in-memory backend hands out: least deadline, ties broken by the rendered key. */
  ghost predicate Best(s: State<Key>, k: Key) {
    Claimable(s, k) && forall j :: j in s.units && Claimable(s, j) ==> !Earlier(s, j, k)
  }

  lemma BestIsOldest(s: State<Key>, k: Key)
    requires Best(s, k)
    ensures Oldest(s, k)
  {
  }

  /** The choice is unique, whatever order the map is iterated in, if keys render distinctly. */
  lemma BestIsUnique(s: State<Key>, a: Key, b: Key)
    requires Best(s, a) && Best(s, b) && (a.Render() == b.Render() ==> a == b)
    ensures a == b
  {
    BeforeTotal(a.Render(), b.Render());
  }

  /** Of two claimable units of one deadline, the one whose rendering is lesser where they first differ goes first. */
  lemma TieGoesToLesser(s: State<Key>, a: Key, b: Key, i: int)
    requires Claimable(s, a) && Claimable(s, b) && s.units[a].flushDeadline == s.units[b].flushDeadline
    requires LesserAt(a.Render(), b.Render(), i)
    ensures !Best(s, b)
  {
    BeforeFirst(a.Render(), b.Render());
    assert Earlier(s, a, b);
  }

  lemma EarlierTransitive(s: State<Key>, a: Key, b: Key, c: Key)
    requires a in s.units && b in s.units && c in s.units && Earlier(s, a, b) && !Earlier(s, c, b)
    ensures !Earlier(s, c, a)
  {
    if Earlier(s, c, a) && Before(a.Render(), b.Render()) && Before(c.Render(), a.Render()) {
      BeforeTransitive(c.Render(), a.Render(), b.Render());
    }
  }

  lemma {:induction false} BeforeIrreflexive(a: string)
    ensures !Before(a, a)
  {
    if a != "" {
      BeforeIrreflexive(a[1..]);
    }
  }

  lemma EarlierIrreflexive(s: State<Key>, a: Key)
    requires a in s.units
    ensures !Earlier(s, a, a)
  {
    BeforeIrreflexive(a.Render());
  }

  // ---------- units ----------

  function Zip(tasks: seq<Task>, ats: seq<int>): seq<Entry>
    requires |tasks| == |ats|
  {
    seq(|tasks|, i requires 0 <= i < |tasks| => Entry(tasks[i], ats[i]))
  }

  lemma ZipPush(tasks: seq<Task>, ats: seq<int>, task: Task, at: int)
    requires |tasks| == |ats|
    ensures Zip(tasks + [task], ats + [at]) == Zip(tasks, ats) + [Entry(task, at)]
  {
  }

  lemma ZipTail(tasks: seq<Task>, ats: seq<int>, n: nat)
    requires n <= |tasks| == |ats|
    ensures Zip(tasks[n..], ats[n..]) == Zip(tasks, ats)[n..]
  {
  }

  class WorkUnit {
    const key: Key
    var tasks: seq<Task>
    var enqAt: seq<int>
    var nextSeq: int
    var pendingCost: int
    const threshold: int
    const maxWait: int
    var oldestPending: int
    var flushDeadline: int
    var eligible: bool
    var claimedBy: string
    var lease: string
    var leaseDur: int
    var leaseExpires: int
    var attempts: int

    constructor (key: Key, threshold: int, maxWait: int)
      ensures this.key == key && this.threshold == threshold && this.maxWait == maxWait
      ensures tasks == [] && enqAt == [] && nextSeq == 0 && pendingCost == 0
      ensures oldestPending == flushDeadline == ZERO_TIME && !eligible && claimedBy == "" && attempts == 0
    {
      this.key := key;
      this.threshold := threshold;
      this.maxWait := maxWait;
      tasks, enqAt, nextSeq, pendingCost := [], [], 0, 0;
      oldestPending, flushDeadline, eligible := ZERO_TIME, ZERO_TIME, false;
      claimedBy, lease, leaseDur, leaseExpires, attempts := "", "", 0, ZERO_TIME, 0;
    }

    /** The unit as the contract sees it: lease fields mean nothing while nobody holds the unit. */
    ghost function View(): Unit
      requires |tasks| == |enqAt|
      reads this
    {
      Unit(Zip(tasks, enqAt), nextSeq, pendingCost, threshold, maxWait, oldestPending, flushDeadline, eligible,
           if claimedBy == "" then None else Some(Lease(claimedBy, lease, leaseDur, leaseExpires)), attempts)
    }

    ghost predicate Sound()
      reads this
    {
      |tasks| == |enqAt| &&
      (forall i :: 0 <= i < |enqAt| ==> enqAt[i] + maxWait > ZERO_TIME) &&
      (|tasks| > 0 ==> flushDeadline > ZERO_TIME)
    }

    method Append(payload: string, cost: int, now: int) returns (seqNo: int)
      requires Sound() && now + maxWait > ZERO_TIME
      modifies this
      ensures Sound() && View() == Push(old(View()), payload, cost, now) && seqNo == old(nextSeq)
      ensures |tasks| == old(|tasks|) + 1
    {
      seqNo := nextSeq;
      nextSeq := nextSeq + 1;
      StartClock(now);
      Extend(Task(seqNo, payload, cost), now);
      pendingCost := pendingCost + cost;
      if pendingCost >= threshold {
        eligible := true;
      }
    }

    /** A unit that was empty starts waiting now. */
    method StartClock(now: int)
      modifies this`oldestPending, this`flushDeadline
      ensures oldestPending == if |tasks| == 0 then now else old(oldestPending)
      ensures flushDeadline == if |tasks| == 0 then now + maxWait else old(flushDeadline)
    {
      if |tasks| == 0 {
        oldestPending := now;
        flushDeadline := now + maxWait;
      }
    }

    /** Extend the two parallel slices. */
    method Extend(task: Task, at: int)
      requires |tasks| == |enqAt|
      modifies this`tasks, this`enqAt
      ensures tasks == old(tasks) + [task] && enqAt == old(enqAt) + [at]
      ensures Zip(tasks, enqAt) == old(Zip(tasks, enqAt)) + [Entry(task, at)]
    {
      ZipPush(tasks, enqAt, task, at);
      tasks := tasks + [task];
      enqAt := enqAt + [at];
    }

    /** Drop the tasks numbered at most through from the head, subtracting their costs. */
    method DropThrough(through: int)
      requires Sound()
      modifies this
      ensures Sound() && View() == Drop(old(View()), Covered(old(View()).queue, through))
    {
      ghost var queue := View().queue;
      var i := 0;
      while i < |tasks| && tasks[i].seqNo <= through
        invariant 0 <= i <= |tasks|
        invariant forall j :: 0 <= j < i ==> tasks[j].seqNo <= through
        invariant |tasks| == |queue| && pendingCost == old(pendingCost) - Total(queue[..i])
        invariant unchanged(this`tasks) && unchanged(this`enqAt) && unchanged(this`nextSeq)
        invariant unchanged(this`oldestPending) && unchanged(this`flushDeadline) && unchanged(this`eligible)
        invariant unchanged(this`claimedBy) && unchanged(this`lease) && unchanged(this`leaseDur)
        invariant unchanged(this`leaseExpires) && unchanged(this`attempts)
      {
        TotalSnoc(queue, i);
        pendingCost := pendingCost - tasks[i].cost;
        i := i + 1;
      }
      CoveredIs(queue, through, i);
      ZipTail(tasks, enqAt, i);
      tasks := tasks[i..];
      enqAt := enqAt[i..];
      attempts := 0;
    }

    method PopHead()
      requires Sound() && |tasks| > 0
      modifies this
      ensures Sound() && View() == Drop(old(View()), 1)
    {
      ghost var queue := View().queue;
      TotalOne(queue[0]);
      assert queue[..1] == [queue[0]];
      ZipTail(tasks, enqAt, 1);
      pendingCost := pendingCost - tasks[0].cost;
      tasks := tasks[1..];
      enqAt := enqAt[1..];
      attempts := 0;
    }

    /** Re-derive the head metadata; called only while tasks remain. */
    method Recompute(now: int)
      requires Sound() && |tasks| > 0
      modifies this
      ensures Sound() && View() == Refresh(old(View()), now) && claimedBy == old(claimedBy)
      ensures unchanged(this`tasks) && unchanged(this`enqAt)
    {
      oldestPending := enqAt[0];
      flushDeadline := oldestPending + maxWait;
      eligible := pendingCost >= threshold || (flushDeadline != ZERO_TIME && now >= flushDeadline);
    }

    method Lend(worker: string, token: string, window: int, now: int)
      requires Sound() && worker != ""
      modifies this
      ensures Sound() && View() == old(View()).(lease := Some(Lease(worker, token, window, now + window)))
      ensures unchanged(this`tasks) && unchanged(this`enqAt)
    {
      claimedBy := worker;
      lease := token;
      leaseDur := window;
      leaseExpires := now + window;
    }

    method Unlease()
      requires Sound()
      modifies this
      ensures Sound() && View() == old(View()).(lease := None)
      ensures unchanged(this`tasks) && unchanged(this`enqAt)
    {
      claimedBy := "";
      lease := "";
    }

    method Renew(until: int)
      requires Sound() && claimedBy != ""
      modifies this
      ensures Sound() && View() == Prolong(old(View()), until)
      ensures unchanged(this`tasks) && unchanged(this`enqAt)
    {
      leaseExpires := until;
    }

    /** One unit's share of an acknowledgement; an emptied unit is left for the caller to delete. */
    method Settle(through: int, now: int) returns (held: bool)
      requires Sound() && claimedBy != ""
      modifies this
      ensures Sound() && held == (|tasks| > 0 && eligible)
      ensures var r := AckUnit(old(View()), through, now);
              if |tasks| == 0 then r == None else r == Some(View())
    {
      DropThrough(through);
      if |tasks| == 0 {
        return false;
      }
      Recompute(now);
      if eligible {
        Renew(now + leaseDur);
        return true;
      }
      Unlease();
      return false;
    }

    /** Count one failure; a poison head is removed and returned. */
    method CountFailure(seqNo: int, cap: int, now: int) returns (poison: Option<Task>)
      requires Sound() && |tasks| > 0
      modifies this
      ensures Sound()
      ensures var r := FailUnit(old(View()), seqNo, cap, now);
              if |tasks| == 0 then r == None else r == Some(View())
      ensures poison == if Poison(old(View()), seqNo, cap) then Some(old(tasks)[0]) else None
    {
      poison := None;
      attempts := attempts + 1;
      if attempts >= cap && |tasks| > 0 && tasks[0].seqNo == seqNo {
        poison := Some(tasks[0]);
        PopHead();
        if |tasks| == 0 {
          return;
        }
        Recompute(now);
      }
      Unlease();
    }

    /** One unit's share of a reaper pass. */
    method Sweep(now: int) returns (reclaimed: bool, flushed: bool)
      requires Sound()
      modifies this
      ensures Sound() && View() == ReapUnit(old(View()), now, now)
      ensures reclaimed == Expired(old(View()), now) && flushed == Flushable(Reclaim(old(View()), now), now)
      ensures unchanged(this`tasks) && unchanged(this`enqAt)
    {
      reclaimed, flushed := false, false;
      if claimedBy != "" && now > leaseExpires {
        Unlease();
        reclaimed := true;
      }
      if claimedBy == "" && !eligible && |tasks| > 0 && flushDeadline != ZERO_TIME && now >= flushDeadline {
        eligible := true;
        flushed := true;
      }
    }
  }

  lemma TotalSnoc(q: seq<Entry>, i: nat)
    requires i < |q|
    ensures Total(q[..i + 1]) == Total(q[..i]) + q[i].task.cost
  {
    TotalSplit(q[..i], [q[i]]);
    TotalOne(q[i]);
    assert q[..i + 1] == q[..i] + [q[i]];
  }

  ghost function WithIf(s: set<Key>, k: Key, b: bool): (r: set<Key>)
    ensures k !in s ==> |r| == |s| + if b then 1 else 0
  {
    if b then s + {k} else s
  }

  class Backend {
    var units: map<Key, WorkUnit>
    var dlq: seq<DeadLetter<Key>>
    var leaseCounter: nat
    const threshold: int
    const maxWait: int
    const maxAttempts: int

    /** The contract's view of this object; Valid ties the real fields to it. */
    ghost var model: State<Key>

    constructor (defaultThreshold: int, defaultMaxWait: int, attempts: int)
      ensures Valid()
      ensures model == State(map[], [], {}, Config(defaultThreshold, defaultMaxWait, if attempts <= 0 then 3 else attempts))
    {
      units, dlq, leaseCounter := map[], [], 0;
      threshold := defaultThreshold;
      maxWait := defaultMaxWait;
      maxAttempts := if attempts <= 0 then 3 else attempts;
      model := State(map[], [], {}, Config(defaultThreshold, defaultMaxWait, if attempts <= 0 then 3 else attempts));
    }

    /** The record stored under k is sound and shows what the view says. */
    ghost predicate Shows(k: Key)
      requires k in units && k in model.units
      reads this, units[k]
    {
      && units[k].key == k && units[k].maxWait == maxWait
      && units[k].Sound() && |units[k].tasks| > 0 && units[k].View() == model.units[k]
    }

    ghost predicate Settings()
      reads this
    {
      && model.cfg == Config(threshold, maxWait, maxAttempts)
      && (forall t :: t in model.issued ==> exists w, n: nat :: n <= leaseCounter && t == MemoryToken(w, n))
    }

    /** Everything but the record under one key agrees with the view. */
    ghost predicate ValidBut(key: Key)
      reads this, units.Values
    {
      && Settings()
      && units.Keys - {key} == model.units.Keys - {key}
      && (forall k :: k in units && k in model.units && k != key ==> Shows(k))
    }

    ghost predicate Valid()
      reads this, units.Values
    {
      && Settings() && model.dlq == dlq
      && units.Keys == model.units.Keys
      && (forall k :: k in units ==> Shows(k))
    }

    /** Bring the view up to date with the one record that was changed. */
    ghost method Commit(key: Key)
      requires ValidBut(key) && key in units
      requires units[key].key == key && units[key].maxWait == maxWait && units[key].Sound() && |units[key].tasks| > 0
      modifies this`model
      ensures Valid() && model == Put(old(model), key, Some(units[key].View())).(dlq := dlq)
    {
      model := Put(model, key, Some(units[key].View())).(dlq := dlq);
      assert units.Keys == units.Keys - {key} + {key};
      assert model.units.Keys == old(model).units.Keys - {key} + {key};
    }

    ghost method CommitRemoval(key: Key)
      requires ValidBut(key) && key !in units
      modifies this`model
      ensures Valid() && model == Put(old(model), key, None).(dlq := dlq)
    {
      assert units.Keys == units.Keys - {key};
      model := Put(model, key, None).(dlq := dlq);
    }

    /** The unit stored under a key, created on first use. */
    method FindOrCreate(key: Key)
      requires Valid()
      modifies this`units
      ensures ValidBut(key) && model.dlq == dlq && key in units && units.Keys == old(units.Keys) + {key}
      ensures key in old(units) ==> units == old(units)
      ensures fresh(units.Values - old(units.Values))
      ensures units[key].key == key && units[key].maxWait == maxWait
      ensures units[key].Sound() && units[key].View() == UnitOf(model, key)
    {
      if key !in units {
        var u := new WorkUnit(key, threshold, maxWait);
        units := units[key := u];
      }
    }

    method AppendTo(key: Key, payload: string, cost: int, now: int) returns (seqNo: int)
      requires ValidBut(key) && model.dlq == dlq && key in units && now + maxWait > ZERO_TIME
      requires units[key].key == key && units[key].maxWait == maxWait && units[key].Sound() && units[key].View() == UnitOf(model, key)
      modifies this`model, units[key]
      ensures Valid() && model == Oracle.Enqueue(old(model), key, payload, cost, now)
      ensures seqNo == UnitOf(old(model), key).nextSeq
    {
      seqNo := units[key].Append(payload, cost, now);
      Commit(key);
    }

    method Enqueue(key: Key, payload: string, cost: int, now: int) returns (seqNo: int)
      requires Valid() && now + maxWait > ZERO_TIME
      modifies this`units, this`model, units.Values
      ensures Valid() && fresh(units.Values - old(units.Values))
      ensures model == Oracle.Enqueue(old(model), key, payload, cost, now)
      ensures seqNo == UnitOf(old(model), key).nextSeq
    {
      FindOrCreate(key);
      seqNo := AppendTo(key, payload, cost, now);
    }

    /** Check that a claim still owns its unit. */
    method HeldUnit(c: Claimed<Key>) returns (r: Outcome<WorkUnit>)
      requires Valid() && c.worker != ""
      ensures r.Ok? == Held(model, c)
      ensures r.Ok? ==> c.key in units && r.value == units[c.key] && r.value.claimedBy != ""
    {
      if c.key !in units || units[c.key].claimedBy != c.worker || units[c.key].lease != c.token {
        return LeaseLost;
      }
      return Ok(units[c.key]);
    }

    method Drain(c: Claimed<Key>, max: nat) returns (r: Outcome<seq<Task>>)
      requires Valid() && c.worker != ""
      ensures r == Oracle.Drain(model, c, max)
    {
      var u :- HeldUnit(c);
      var n := max;
      if n > |u.tasks| {
        n := |u.tasks|;
      }
      r := Ok(u.tasks[..n]);
      assert u.tasks[..n] == Tasks(u.View().queue[..n]);
    }

    method Ack(c: Claimed<Key>, throughSeq: int, now: int) returns (r: Outcome<bool>)
      requires Valid() && c.worker != ""
      modifies this`units, this`model, units.Values
      ensures Valid() && units.Values <= old(units.Values)
      ensures model == Oracle.Ack(old(model), c, throughSeq, now)
      ensures r == AckOutcome(old(model), c, throughSeq, now)
    {
      var u :- HeldUnit(c);
      AckShape(model, c, throughSeq, now);
      var held := SettleUnit(c.key, throughSeq, now);
      r := Ok(held);
    }

    method SettleUnit(k: Key, throughSeq: int, now: int) returns (held: bool)
      requires Valid() && k in units && units[k].claimedBy != ""
      modifies this`units, this`model, units[k]
      ensures Valid() && units.Values <= old(units.Values)
      ensures model == Put(old(model), k, AckUnit(old(model).units[k], throughSeq, now))
      ensures held == (var u := AckUnit(old(model).units[k], throughSeq, now); u.Some? && u.value.lease.Some?)
    {
      held := units[k].Settle(throughSeq, now);
      Retire(k);
    }

    method Release(c: Claimed<Key>) returns (r: Outcome<()>)
      requires Valid() && c.worker != ""
      modifies this`model, units.Values
      ensures Valid() && units == old(units)
      ensures model == Oracle.Release(old(model), c) && r.Ok? == Held(old(model), c)
    {
      var u :- HeldUnit(c);
      u.Unlease();
      Commit(c.key);
      r := Ok(());
    }

    method Heartbeat(c: Claimed<Key>, extend: int, now: int) returns (r: Outcome<()>)
      requires Valid() && c.worker != ""
      modifies this`model, units.Values
      ensures Valid() && units == old(units)
      ensures model == Oracle.Heartbeat(old(model), c, extend, now) && r.Ok? == Held(old(model), c)
    {
      var u :- HeldUnit(c);
      HeartbeatShape(model, c, extend, now);
      RenewUnit(c.key, extend, now);
      r := Ok(());
    }

    method RenewUnit(k: Key, extend: int, now: int)
      requires Valid() && k in units && units[k].claimedBy != ""
      modifies this`model, units[k]
      ensures Valid() && units == old(units)
      ensures var u := old(model).units[k];
              u.lease.Some? && model == Put(old(model), k, Some(Prolong(u, now + extend)))
    {
      units[k].Renew(now + extend);
      Commit(k);
    }

    method Fail(c: Claimed<Key>, seqNo: int, reason: string, now: int) returns (r: Outcome<()>)
      requires Valid() && c.worker != ""
      modifies this`units, this`dlq, this`model, units.Values
      ensures Valid() && units.Values <= old(units.Values)
      ensures model == Oracle.Fail(old(model), c, seqNo, reason, now) && r.Ok? == Held(old(model), c)
    {
      var u :- HeldUnit(c);
      FailKeyed(c.key, seqNo, reason, now);
      r := Ok(());
    }

    method FailKeyed(k: Key, seqNo: int, reason: string, now: int)
      requires Valid() && k in units
      modifies this`units, this`dlq, this`model, units[k]
      ensures Valid() && units.Values <= old(units.Values)
      ensures var u := old(model).units[k];
              model == Put(old(model), k, FailUnit(u, seqNo, maxAttempts, now)).(dlq :=
                if Poison(u, seqNo, maxAttempts) then old(dlq) + [DeadLetter(k, u.queue[0].task, reason)] else old(dlq))
    {
      var poison := units[k].CountFailure(seqNo, maxAttempts, now);
      if poison.Some? {
        dlq := dlq + [DeadLetter(k, poison.value, reason)];
      }
      Retire(k);
    }

    /** Delete the unit if it was emptied. */
    method Retire(k: Key)
      requires ValidBut(k) && k in units && units[k].key == k && units[k].maxWait == maxWait && units[k].Sound()
      modifies this`units, this`model
      ensures Valid() && units.Values <= old(units.Values)
      ensures model == Put(old(model), k, if |old(units)[k].tasks| == 0 then None else Some(old(units)[k].View())).(dlq := dlq)
    {
      if |units[k].tasks| == 0 {
        units := units - {k};
        CommitRemoval(k);
      } else {
        Commit(k);
      }
    }

    /** The units already visited by a reaper pass, and what it found among them. */
    ghost predicate Swept(rest: set<Key>, now: int, rs: set<Key>, fs: set<Key>)
      reads this, units.Values
    {
      && rest <= units.Keys == model.units.Keys
      && (forall k :: k in units ==> units[k].key == k && units[k].maxWait == maxWait && units[k].Sound() && |units[k].tasks| > 0)
      && (forall k :: k in units ==>
            units[k].View() == if k in rest then model.units[k] else ReapUnit(model.units[k], now, now))
      && (forall k :: k in rs <==> k in units && k !in rest && Expired(model.units[k], now))
      && (forall k :: k in fs <==> k in units && k !in rest && Flushable(Reclaim(model.units[k], now), now))
    }

    method SweepOne(k: Key, ghost rest: set<Key>, now: int, ghost rs: set<Key>, ghost fs: set<Key>)
      returns (r: bool, f: bool, ghost rs': set<Key>, ghost fs': set<Key>)
      requires Swept(rest, now, rs, fs) && k in rest
      modifies units.Values
      ensures Swept(rest - {k}, now, rs', fs')
      ensures |rs'| == |rs| + (if r then 1 else 0) && |fs'| == |fs| + (if f then 1 else 0)
    {
      r, f := units[k].Sweep(now);
      rs', fs' := WithIf(rs, k, r), WithIf(fs, k, f);
    }

    /** Iterate over the units in any order, reclaiming and flushing each in place. */
    method ReapExpired(now: int) returns (reclaimed: nat, flushed: nat)
      requires Valid()
      modifies this`model, units.Values
      ensures Valid() && units == old(units) && model == Reap(old(model), now, now)
      ensures reclaimed == |Reclaimed(old(model), now)| && flushed == |Flushed(old(model), now, now)|
    {
      ghost var rs: set<Key>, fs: set<Key> := {}, {};
      reclaimed, flushed := 0, 0;
      var rest := units.Keys;
      while rest != {}
        invariant Swept(rest, now, rs, fs) && unchanged(this)
        invariant reclaimed == |rs| && flushed == |fs|
        decreases rest
      {
        var k :| k in rest;
        var r, f;
        r, f, rs, fs := SweepOne(k, rest, now, rs, fs);
        rest := rest - {k};
        if r {
          reclaimed := reclaimed + 1;
        }
        if f {
          flushed := flushed + 1;
        }
      }
      CommitSweep(now, rs, fs);
    }

    ghost method CommitSweep(now: int, rs: set<Key>, fs: set<Key>)
      requires Swept({}, now, rs, fs) && Settings() && model.dlq == dlq
      modifies this`model
      ensures Valid() && model == Reap(old(model), now, now)
      ensures rs == Reclaimed(old(model), now) && fs == Flushed(old(model), now, now)
    {
      assert rs == Reclaimed(model, now) && fs == Flushed(model, now, now);
      model := Reap(model, now, now);
    }

    /** best is at least as good as every claimable unit already visited. */
    ghost predicate BestSoFar(best: Option<Key>, rest: set<Key>)
      reads this
    {
      && (best.Some? ==> Claimable(model, best.value) && best.value !in rest)
      && (forall j :: j in model.units && j !in rest && Claimable(model, j) ==>
            best.Some? && !Earlier(model, j, best.value))
    }

    lemma BestStep(best: Option<Key>, rest: set<Key>, k: Key)
      requires BestSoFar(best, rest) && k in rest && k in model.units
      ensures !Claimable(model, k) ==> BestSoFar(best, rest - {k})
      ensures Claimable(model, k) && (best.None? || Earlier(model, k, best.value)) ==> BestSoFar(Some(k), rest - {k})
      ensures Claimable(model, k) && best.Some? && !Earlier(model, k, best.value) ==> BestSoFar(best, rest - {k})
    {
      var s := model;
      if Claimable(s, k) && best.Some? && Earlier(s, k, best.value) {
        forall j | j in s.units && j !in rest && Claimable(s, j) ensures !Earlier(s, j, k) {
          EarlierTransitive(s, k, best.value, j);
        }
      }
      EarlierIrreflexive(s, k);
    }

    /** Draw the next token; the counter has never been rendered with any worker id before. */
    method NextToken(worker: string) returns (token: string)
      requires Valid()
      modifies this`leaseCounter, this`model
      ensures Valid() && token !in old(model).issued
      ensures leaseCounter == old(leaseCounter) + 1 && token == MemoryToken(worker, leaseCounter)
      ensures model == old(model).(issued := old(model).issued + {token})
    {
      token := MemoryToken(worker, leaseCounter + 1);
      if token in model.issued {
        ghost var w, n: nat :| n <= leaseCounter && token == MemoryToken(w, n);
        MemoryTokenInjective(worker, leaseCounter + 1, w, n);
      }
      leaseCounter := leaseCounter + 1;
      model := model.(issued := model.issued + {token});
    }

    /** Scan the units in any order for the best claimable one. */
    method Pick() returns (best: Option<Key>)
      requires Valid()
      ensures best.Some? ==> Best(model, best.value)
      ensures best.None? ==> NothingClaimable(model)
    {
      best := None;
      var rest := units.Keys;
      while rest != {}
        invariant rest <= units.Keys && BestSoFar(best, rest)
        decreases rest
      {
        var k :| k in rest;
        var u := units[k];
        BestStep(best, rest, k);
        rest := rest - {k};
        if !u.eligible || u.claimedBy != "" || |u.tasks| == 0 {
          continue;
        }
        if best.None? || u.flushDeadline < units[best.value].flushDeadline ||
           (u.flushDeadline == units[best.value].flushDeadline &&
            Before(u.key.Render(), units[best.value].key.Render())) {
          best := Some(k);
        }
      }
    }

    method LendUnit(k: Key, worker: string, token: string, lease: int, now: int)
      requires Valid() && k in units && worker != ""
      modifies this`model, units[k]
      ensures Valid() && units == old(units)
      ensures model == Put(old(model), k, Some(old(model).units[k].(lease := Some(Lease(worker, token, lease, now + lease)))))
    {
      units[k].Lend(worker, token, lease, now);
      Commit(k);
    }

    method Claim(worker: string, lease: int, now: int) returns (r: Option<Claimed<Key>>)
      requires Valid() && worker != ""
      modifies this`leaseCounter, this`model, units.Values
      ensures Valid() && units == old(units)
      ensures r.None? ==> model == old(model) && NothingClaimable(model)
      ensures r.Some? ==> leaseCounter == old(leaseCounter) + 1 && r.value.token == MemoryToken(worker, leaseCounter)
      ensures r.Some? ==> Best(old(model), r.value.key) && r.value.worker == worker && r.value.till == now + lease
      ensures r.Some? ==> r.value.token !in old(model).issued &&
                          model == Grant(old(model), r.value.key, worker, r.value.token, lease, now)
    {
      var best := Pick();
      if best.None? {
        return None;
      }
      var token := NextToken(worker);
      LendUnit(best.value, worker, token, lease, now);
      r := Some(Claimed(best.value, worker, token, now + lease));
    }
  }
}
