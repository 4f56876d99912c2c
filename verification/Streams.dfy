/**
 The part of a Redis stream that the driver uses: entries in id order, the id the consumer group
 has delivered up to, and the group's list of entries delivered but not yet acknowledged (its PEL).
 */
module Streams {
  import opened Contract
  import opened Oracle
  import opened Invariant

  datatype StreamEntry = StreamEntry(id: nat, entry: Entry)

  datatype Stream = Stream(entries: seq<StreamEntry>, lastId: nat, delivered: nat, pel: seq<nat>)

  function EmptyStream(): Stream {
    Stream([], 0, 0, [])
  }

  function Queue(es: seq<StreamEntry>): (q: seq<Entry>)
    ensures |q| == |es|
  {
    seq(|es|, i requires 0 <= i < |es| => es[i].entry)
  }

  // ---------- commands ----------

  function XAdd(s: Stream, e: Entry): Stream {
    s.(entries := s.entries + [StreamEntry(s.lastId + 1, e)], lastId := s.lastId + 1)
  }

  function XRange(es: seq<StreamEntry>, id: nat): Option<StreamEntry> {
    if es == [] then None else if es[0].id == id then Some(es[0]) else XRange(es[1..], id)
  }

  function XDel(s: Stream, id: nat): Stream {
    s.(entries := Without(s.entries, {id}))
  }

  function XAck(s: Stream, id: nat): Stream {
    s.(pel := Minus(s.pel, id))
  }

  function Minus(pel: seq<nat>, id: nat): seq<nat> {
    if pel == [] then [] else (if pel[0] == id then [] else [pel[0]]) + Minus(pel[1..], id)
  }

  function After(pel: seq<nat>, start: Option<nat>): seq<nat> {
    if start.None? then pel
    else if pel == [] then []
    else (if pel[0] > start.value then [pel[0]] else []) + After(pel[1..], start)
  }

  /** Up to count pending ids, in id order, strictly after start. */
  function XPending(pel: seq<nat>, start: Option<nat>, count: nat): seq<nat> {
    var rest := After(pel, start);
    rest[..Min(count, |rest|)]
  }

  function Without(es: seq<StreamEntry>, ids: set<nat>): seq<StreamEntry> {
    if es == [] then []
    else (if es[0].id in ids then [] else [es[0]]) + Without(es[1..], ids)
  }

  // ---------- well-formedness ----------

  ghost predicate Sorted(es: seq<StreamEntry>) {
    forall i, j :: 0 <= i < j < |es| ==> es[i].id < es[j].id && es[i].entry.task.seqNo < es[j].entry.task.seqNo
  }

  ghost predicate Increasing(pel: seq<nat>) {
    forall i, j :: 0 <= i < j < |pel| ==> pel[i] < pel[j]
  }

  /** The live stream is its PEL entries followed by its undelivered ones. */
  ghost predicate StreamOk(s: Stream) {
    && Sorted(s.entries) && |s.pel| <= |s.entries| && s.delivered <= s.lastId
    && (forall i :: 0 <= i < |s.entries| ==> s.entries[i].id <= s.lastId)
    && (forall i :: 0 <= i < |s.pel| ==> s.pel[i] == s.entries[i].id)
    && (forall i :: 0 <= i < |s.entries| ==> (i < |s.pel| <==> s.entries[i].id <= s.delivered))
  }

  /** The entries on the pending list of a well-formed stream. */
  function Delivered(s: Stream): seq<StreamEntry> {
    s.entries[..Min(|s.pel|, |s.entries|)]
  }

  // ---------- facts about the commands ----------

  lemma {:induction false} WithoutMember(es: seq<StreamEntry>, ids: set<nat>, e: StreamEntry)
    ensures e in Without(es, ids) <==> e in es && e.id !in ids
  {
    if es != [] {
      WithoutMember(es[1..], ids, e);
    }
  }

  lemma {:induction false} WithoutTwice(es: seq<StreamEntry>, a: set<nat>, b: set<nat>)
    ensures Without(Without(es, a), b) == Without(es, a + b)
  {
    if es != [] {
      WithoutTwice(es[1..], a, b);
      if es[0].id !in a {
        assert Without(es, a)[1..] == Without(es[1..], a);
      } else {
        assert Without(es, a) == Without(es[1..], a);
      }
    }
  }

  lemma {:induction false} WithoutSame(es: seq<StreamEntry>, a: set<nat>, b: set<nat>)
    requires forall e :: e in es ==> (e.id in a <==> e.id in b)
    ensures Without(es, a) == Without(es, b)
  {
    if es != [] {
      WithoutSame(es[1..], a, b);
    }
  }

  lemma {:induction false} WithoutNone(es: seq<StreamEntry>, ids: set<nat>)
    requires forall e :: e in es ==> e.id !in ids
    ensures Without(es, ids) == es
  {
    if es != [] {
      WithoutNone(es[1..], ids);
    }
  }

  lemma {:induction false} WithoutSorted(es: seq<StreamEntry>, ids: set<nat>)
    requires Sorted(es)
    ensures Sorted(Without(es, ids))
  {
    if es != [] {
      WithoutSorted(es[1..], ids);
      var w := Without(es[1..], ids);
      forall j | 0 <= j < |w| ensures es[0].id < w[j].id && es[0].entry.task.seqNo < w[j].entry.task.seqNo {
        WithoutMember(es[1..], ids, w[j]);
        var i :| 0 <= i < |es[1..]| && es[1..][i] == w[j];
        assert es[i + 1] == w[j];
      }
    }
  }

  /** Dropping a prefix of ids of a sorted stream drops that prefix. */
  lemma {:induction false} WithoutPrefix(es: seq<StreamEntry>, ids: set<nat>, n: nat)
    requires Sorted(es) && n <= |es|
    requires forall i :: 0 <= i < |es| ==> (es[i].id in ids <==> i < n)
    ensures Without(es, ids) == es[n..]
  {
    if es != [] {
      WithoutPrefix(es[1..], ids, if n == 0 then 0 else n - 1);
    }
  }

  lemma {:induction false} XRangeFinds(es: seq<StreamEntry>, id: nat)
    ensures XRange(es, id).Some? ==> XRange(es, id).value in es && XRange(es, id).value.id == id
    ensures XRange(es, id).None? ==> forall e :: e in es ==> e.id != id
  {
    if es != [] {
      XRangeFinds(es[1..], id);
    }
  }

  /** Deleting the one entry with an id takes away its cost and one from the count. */
  lemma {:induction false} DeleteOne(es: seq<StreamEntry>, e: StreamEntry)
    requires Sorted(es) && e in es
    ensures Total(Queue(Without(es, {e.id}))) == Total(Queue(es)) - e.entry.task.cost
    ensures |Without(es, {e.id})| == |es| - 1
  {
    assert Queue(es)[1..] == Queue(es[1..]);
    if es[0].id == e.id {
      assert es[0] == e by {
        var i :| 0 <= i < |es| && es[i] == e;
        assert forall j :: 0 < j < |es| ==> es[0].id < es[j].id;
      }
      forall x | x in es[1..] ensures x.id !in {e.id} {
        var i :| 0 <= i < |es[1..]| && es[1..][i] == x;
        assert es[0].id < es[i + 1].id;
      }
      WithoutNone(es[1..], {e.id});
      assert Without(es, {e.id}) == es[1..];
    } else {
      DeleteOne(es[1..], e);
      var w := Without(es, {e.id});
      assert w[1..] == Without(es[1..], {e.id});
      assert Queue(w)[1..] == Queue(w[1..]);
    }
  }

  lemma {:induction false} MinusHead(pel: seq<nat>)
    requires Increasing(pel) && pel != []
    ensures Minus(pel, pel[0]) == pel[1..]
  {
    MinusAbsent(pel[1..], pel[0]);
  }

  lemma {:induction false} MinusAbsent(pel: seq<nat>, id: nat)
    requires id !in pel
    ensures Minus(pel, id) == pel
  {
    if pel != [] {
      MinusAbsent(pel[1..], id);
    }
  }

  lemma {:induction false} AfterAll(pel: seq<nat>, start: Option<nat>)
    requires start.Some? ==> forall i :: 0 <= i < |pel| ==> pel[i] > start.value
    ensures After(pel, start) == pel
  {
    if pel != [] && start.Some? {
      AfterAll(pel[1..], start);
    }
  }

  // ---------- the paged scan of the acknowledgement script ----------

  /** The delivered entries numbered at most through. */
  ghost function Settled(s: Stream, through: int): set<nat> {
    set e | e in s.entries && e.id in s.pel && e.entry.task.seqNo <= through :: e.id
  }

  /** Pending ids are in order and no two entries share an id; ids may outlive their entries. */
  ghost predicate Scannable(s: Stream) {
    Sorted(s.entries) && Increasing(s.pel)
  }

  /** After working off the first n pending ids, all of them gone or numbered at most through. */
  ghost predicate Worked(s0: Stream, s: Stream, n: nat, through: int) {
    && n <= |s0.pel| && s == s0.(entries := s.entries, pel := s0.pel[n..])
    && s.entries == Without(s0.entries, Ids(s0.pel, n))
    && (forall e :: e in s0.entries && e.id in s0.pel[..n] ==> e.entry.task.seqNo <= through)
  }

  ghost function Ids(pel: seq<nat>, n: nat): set<nat>
    requires n <= |pel|
  {
    set i | 0 <= i < n :: pel[i]
  }

  lemma WorkStep(s0: Stream, s: Stream, n: nat, through: int)
    requires Scannable(s0) && Worked(s0, s, n, through) && n < |s0.pel|
    ensures var id := s0.pel[n]; var e := XRange(s.entries, id);
            && (e.None? ==> Worked(s0, XAck(s, id), n + 1, through))
            && (e.Some? && e.value.entry.task.seqNo <= through ==>
                  && Worked(s0, XDel(XAck(s, id), id), n + 1, through)
                  && Total(Queue(Without(s.entries, {id}))) == Total(Queue(s.entries)) - e.value.entry.task.cost
                  && |Without(s.entries, {id})| == |s.entries| - 1)
            && (e.Some? ==> e.value in s0.entries && e.value.id == id)
  {
    var id := s0.pel[n];
    MinusHead(s.pel);
    assert s0.pel[n..][1..] == s0.pel[n + 1..];
    XRangeFinds(s.entries, id);
    var e := XRange(s.entries, id);
    assert Ids(s0.pel, n + 1) == Ids(s0.pel, n) + {id};
    WithoutTwice(s0.entries, Ids(s0.pel, n), {id});
    forall x | x in s0.entries && x.id == id ensures x in s.entries {
      assert id !in Ids(s0.pel, n);
      WithoutMember(s0.entries, Ids(s0.pel, n), x);
    }
    if e.None? {
      WithoutNone(s.entries, {id});
    } else {
      WithoutSorted(s0.entries, Ids(s0.pel, n));
      DeleteOne(s.entries, e.value);
      WithoutMember(s0.entries, Ids(s0.pel, n), e.value);
    }
  }

  /** Nothing is left to work off: the pending list is used up or its first entry is past through. */
  ghost predicate Stopped(s0: Stream, s: Stream, n: nat, through: int) {
    n <= |s0.pel| && (n < |s0.pel| ==>
      XRange(s.entries, s0.pel[n]).Some? && XRange(s.entries, s0.pel[n]).value.entry.task.seqNo > through)
  }

  /** Whatever is still pending when the scan stops is numbered past through. */
  lemma PastStays(s0: Stream, s: Stream, n: nat, through: int, e: StreamEntry)
    requires Scannable(s0) && Worked(s0, s, n, through) && Stopped(s0, s, n, through)
    requires e in s0.entries && e.id in s0.pel[n..]
    ensures e.entry.task.seqNo > through
  {
    var i :| 0 <= i < |s0.pel[n..]| && s0.pel[n..][i] == e.id;
    assert s0.pel[n] <= s0.pel[n + i] == e.id;
    XRangeFinds(s.entries, s0.pel[n]);
    var f := XRange(s.entries, s0.pel[n]).value;
    WithoutMember(s0.entries, Ids(s0.pel, n), f);
    SortedById(s0.entries, f, e);
  }

  lemma WorkedOff(s0: Stream, s: Stream, n: nat, through: int)
    requires Scannable(s0) && Worked(s0, s, n, through) && Stopped(s0, s, n, through)
    ensures s.entries == Without(s0.entries, Settled(s0, through))
  {
    assert s0.pel == s0.pel[..n] + s0.pel[n..];
    forall e | e in s0.entries ensures e.id in Ids(s0.pel, n) <==> e.id in Settled(s0, through) {
      if e.id in s0.pel[n..] {
        PastStays(s0, s, n, through, e);
      }
      forall d | d in s0.entries && d.id == e.id ensures d == e {
        SortedById(s0.entries, d, e);
      }
      assert e.id in Ids(s0.pel, n) <==> e.id in s0.pel[..n];
    }
    WithoutSame(s0.entries, Ids(s0.pel, n), Settled(s0, through));
  }

  lemma SortedById(es: seq<StreamEntry>, a: StreamEntry, b: StreamEntry)
    requires Sorted(es) && a in es && b in es
    ensures a.id == b.id ==> a == b
    ensures a.id < b.id ==> a.entry.task.seqNo < b.entry.task.seqNo
  {
    var i :| 0 <= i < |es| && es[i] == a;
    var j :| 0 <= j < |es| && es[j] == b;
  }

  /** The accumulators account for exactly what has left the stream so far. */
  ghost predicate Tallied(s0: Stream, s: Stream, cost: int, count: int) {
    cost == Total(Queue(s0.entries)) - Total(Queue(s.entries)) && count == |s0.entries| - |s.entries|
  }

  /** Work off one page of pending ids, in order, up to the first entry past through. */
  method ScanPage(s0: Stream, s1: Stream, through: int, pend: seq<nat>, cost1: int, count1: nat, ghost from: nat)
    returns (s: Stream, cost: int, count: nat, past: bool, ghost worked: nat)
    requires Scannable(s0) && Worked(s0, s1, from, through) && Tallied(s0, s1, cost1, count1)
    requires from + |pend| <= |s0.pel| && pend == s0.pel[from..from + |pend|]
    ensures Worked(s0, s, worked, through) && Tallied(s0, s, cost, count)
    ensures if past then Stopped(s0, s, worked, through) else worked == from + |pend|
  {
    s, cost, count, past, worked := s1, cost1, count1, false, from;
    var i := 0;
    while i < |pend| && !past
      invariant 0 <= i <= |pend| && worked == from + i
      invariant Worked(s0, s, worked, through) && Tallied(s0, s, cost, count)
      invariant past ==> Stopped(s0, s, worked, through)
      decreases |pend| - i, !past
    {
      var id := pend[i];
      WorkStep(s0, s, worked, through);
      var e := XRange(s.entries, id);
      if e.None? {
        s := XAck(s, id);
        i, worked := i + 1, worked + 1;
      } else if e.value.entry.task.seqNo > through {
        past := true;
      } else {
        s := XDel(XAck(s, id), id);
        cost := cost + e.value.entry.task.cost;
        count := count + 1;
        i, worked := i + 1, worked + 1;
      }
    }
  }

  /** A page read after the last id worked off is the next stretch of the list; a short one ends it. */
  lemma NextPage(pel: seq<nat>, worked: nat, start: Option<nat>, page: nat)
    requires Increasing(pel) && worked <= |pel| && (start.Some? ==> worked > 0 && start.value == pel[worked - 1])
    ensures var pend := XPending(pel[worked..], start, page);
            && worked + |pend| <= |pel| && pend == pel[worked..worked + |pend|]
            && (|pend| < page ==> worked + |pend| == |pel|)
  {
    AfterAll(pel[worked..], start);
  }

  /**
   The loop of the acknowledgement script: read a page of pending ids, acknowledge and delete each
   entry numbered at most through, resume after the last id seen, stop at the first entry past
   through or at a short page. The list it pages over shrinks under it, yet for every depth and
   every page size it removes exactly the delivered entries numbered at most through, and reports
   exactly their cost and count.
   */
  method ScanPel(s0: Stream, through: int, page: nat) returns (s: Stream, cost: int, count: nat, ghost worked: nat)
    requires Scannable(s0) && page >= 1
    ensures s.entries == Without(s0.entries, Settled(s0, through))
    ensures Tallied(s0, s, cost, count)
    ensures Worked(s0, s, worked, through) && Stopped(s0, s, worked, through)
  {
    s, cost, count, worked := s0, 0, 0, 0;
    WithoutNone(s0.entries, {});
    assert Ids(s0.pel, 0) == {};
    var start: Option<nat> := None;
    while true
      invariant Worked(s0, s, worked, through) && Tallied(s0, s, cost, count)
      invariant start.Some? ==> worked > 0 && start.value == s0.pel[worked - 1]
      decreases |s.pel|
    {
      var pend := XPending(s.pel, start, page);
      NextPage(s0.pel, worked, start, page);
      if |pend| == 0 {
        break;
      }
      var past;
      s, cost, count, past, worked := ScanPage(s0, s, through, pend, cost, count, worked);
      start := Some(pend[|pend| - 1]);
      if past || |pend| < page {
        break;
      }
    }
    WorkedOff(s0, s, worked, through);
  }

  lemma WorkedIsCovered(s0: Stream, s: Stream, worked: nat, through: int)
    requires StreamOk(s0) && Worked(s0, s, worked, through) && Stopped(s0, s, worked, through)
    ensures worked == Covered(Queue(Delivered(s0)), through)
  {
    var q := Queue(Delivered(s0));
    forall i | 0 <= i < worked ensures q[i].task.seqNo <= through {
      assert s0.entries[i] in s0.entries && s0.entries[i].id == s0.pel[..worked][i];
    }
    if worked < |s0.pel| {
      XRangeFinds(s.entries, s0.pel[worked]);
      var f := XRange(s.entries, s0.pel[worked]).value;
      WithoutMember(s0.entries, Ids(s0.pel, worked), f);
      SortedById(s0.entries, f, s0.entries[worked]);
    }
    CoveredIs(q, through, worked);
  }

  lemma IdsArePrefix(s: Stream, n: nat, i: nat)
    requires StreamOk(s) && n <= |s.pel| && i < |s.entries|
    ensures s.entries[i].id in Ids(s.pel, n) <==> i < n
  {
    if i < n {
      assert s.pel[i] == s.entries[i].id;
    } else {
      assert forall k :: 0 <= k < n ==> s.pel[k] == s.entries[k].id && s.entries[k].id < s.entries[i].id;
    }
  }

  /** On a well-formed stream the scan takes off the covered prefix of the delivered entries. */
  lemma ScanIsPrefix(s0: Stream, s: Stream, worked: nat, through: int)
    requires StreamOk(s0) && Worked(s0, s, worked, through) && Stopped(s0, s, worked, through)
    ensures worked == Covered(Queue(Delivered(s0)), through)
    ensures s == s0.(entries := s0.entries[worked..], pel := s0.pel[worked..]) && StreamOk(s)
  {
    WorkedIsCovered(s0, s, worked, through);
    forall i | 0 <= i < |s0.entries| ensures s0.entries[i].id in Ids(s0.pel, worked) <==> i < worked {
      IdsArePrefix(s0, worked, i);
    }
    WithoutPrefix(s0.entries, Ids(s0.pel, worked), worked);
    StreamSuffix(s0, worked);
  }

  lemma StreamSuffix(s: Stream, n: nat)
    requires StreamOk(s) && n <= |s.pel|
    ensures StreamOk(s.(entries := s.entries[n..], pel := s.pel[n..]))
  {
  }

  // ---------- draining ----------

  function Fetch(es: seq<StreamEntry>, ids: seq<nat>): seq<Entry> {
    if ids == [] then []
    else (if XRange(es, ids[0]).Some? then [XRange(es, ids[0]).value.entry] else []) + Fetch(es, ids[1..])
  }

  /** Take over up to count pending entries, in id order, whoever they were delivered to. */
  function XAutoClaim(s: Stream, count: nat): seq<Entry> {
    Fetch(s.entries, s.pel[..Min(count, |s.pel|)])
  }

  function Undelivered(es: seq<StreamEntry>, delivered: nat): seq<StreamEntry> {
    if es == [] then []
    else (if es[0].id > delivered then [es[0]] else []) + Undelivered(es[1..], delivered)
  }

  function IdsOf(es: seq<StreamEntry>): seq<nat> {
    seq(|es|, i requires 0 <= i < |es| => es[i].id)
  }

  /** Deliver up to count new entries: they join the pending list. */
  function XReadGroup(s: Stream, count: nat): (Stream, seq<Entry>) {
    var waiting := Undelivered(s.entries, s.delivered);
    var got := waiting[..Min(count, |waiting|)];
    (if got == [] then s else s.(pel := s.pel + IdsOf(got), delivered := got[|got| - 1].id), Queue(got))
  }

  lemma {:induction false} FetchPrefix(es: seq<StreamEntry>, lo: nat, hi: nat)
    requires Sorted(es) && lo <= hi <= |es|
    ensures Fetch(es, IdsOf(es[lo..hi])) == Queue(es[lo..hi])
    decreases hi - lo
  {
    if lo < hi {
      var ids := IdsOf(es[lo..hi]);
      assert ids[1..] == IdsOf(es[lo + 1..hi]);
      FetchPrefix(es, lo + 1, hi);
      XRangeFinds(es, es[lo].id);
      SortedById(es, XRange(es, es[lo].id).value, es[lo]);
    }
  }

  lemma {:induction false} UndeliveredSuffix(es: seq<StreamEntry>, delivered: nat, n: nat)
    requires n <= |es| && forall i :: 0 <= i < |es| ==> (i < n <==> es[i].id <= delivered)
    ensures Undelivered(es, delivered) == es[n..]
  {
    if es != [] {
      UndeliveredSuffix(es[1..], delivered, if n == 0 then 0 else n - 1);
    }
  }

  lemma AutoClaimPrefix(s: Stream, count: nat)
    requires StreamOk(s)
    ensures XAutoClaim(s, count) == Queue(s.entries[..Min(count, |s.pel|)])
  {
    var c := Min(count, |s.pel|);
    assert s.pel[..c] == IdsOf(s.entries[0..c]);
    FetchPrefix(s.entries, 0, c);
  }

  /** The stream after its next n undelivered entries were delivered. */
  function Deliver(s: Stream, n: nat): Stream
    requires |s.pel| + n <= |s.entries|
  {
    if n == 0 then s else
    s.(pel := s.pel + IdsOf(s.entries[|s.pel|..|s.pel| + n]), delivered := s.entries[|s.pel| + n - 1].id)
  }

  lemma DeliverOk(s: Stream, n: nat)
    requires StreamOk(s) && |s.pel| + n <= |s.entries|
    ensures StreamOk(Deliver(s, n))
  {
    if n > 0 {
      var d, last := Deliver(s, n), |s.pel| + n - 1;
      forall i | 0 <= i < |s.entries| ensures i <= last <==> s.entries[i].id <= s.entries[last].id {
        assert i < last ==> s.entries[i].id < s.entries[last].id;
        assert last < i ==> s.entries[last].id < s.entries[i].id;
      }
    }
  }

  /** Reading keeps the shape of the stream: what was delivered is still followed by what was not. */
  lemma ReadGroupNext(s: Stream, count: nat)
    requires StreamOk(s)
    ensures var c := Min(count, |s.entries| - |s.pel|); var r := XReadGroup(s, count);
            && StreamOk(r.0) && r.0.entries == s.entries && |r.0.pel| == |s.pel| + c
            && r.1 == Queue(s.entries[|s.pel|..|s.pel| + c])
  {
    ReadGroupDelivers(s, count);
    DeliverOk(s, Min(count, |s.entries| - |s.pel|));
  }

  lemma ReadGroupDelivers(s: Stream, count: nat)
    requires StreamOk(s)
    ensures var c := Min(count, |s.entries| - |s.pel|);
            XReadGroup(s, count) == (Deliver(s, c), Queue(s.entries[|s.pel|..|s.pel| + c]))
  {
    UndeliveredSuffix(s.entries, s.delivered, |s.pel|);
    var c := Min(count, |s.entries| - |s.pel|);
    assert s.entries[|s.pel|..][..c] == s.entries[|s.pel|..|s.pel| + c];
  }

  // ---------- sorting what was read ----------

  predicate Ascending(q: seq<Task>) {
    forall i, j :: 0 <= i < j < |q| ==> q[i].seqNo < q[j].seqNo
  }

  function Insert(t: Task, q: seq<Task>): (r: seq<Task>)
    ensures |r| == |q| + 1
  {
    if q == [] || t.seqNo <= q[0].seqNo then [t] + q else [q[0]] + Insert(t, q[1..])
  }

  function SortBySeq(q: seq<Task>): (r: seq<Task>)
    ensures |r| == |q|
  {
    if q == [] then [] else Insert(q[0], SortBySeq(q[1..]))
  }

  predicate Rising(q: seq<Task>) {
    forall i, j :: 0 <= i < j < |q| ==> q[i].seqNo <= q[j].seqNo
  }

  lemma {:induction false} InsertRises(t: Task, q: seq<Task>)
    requires Rising(q)
    ensures Rising(Insert(t, q)) && multiset(Insert(t, q)) == multiset{t} + multiset(q)
  {
    if q == [] || t.seqNo <= q[0].seqNo {
      assert multiset([t] + q) == multiset{t} + multiset(q);
    } else {
      InsertRises(t, q[1..]);
      HeadRises(t, q, Insert(t, q[1..]));
    }
  }

  lemma HeadRises(t: Task, q: seq<Task>, r: seq<Task>)
    requires Rising(q) && q != [] && q[0].seqNo < t.seqNo
    requires Rising(r) && multiset(r) == multiset{t} + multiset(q[1..])
    ensures Rising([q[0]] + r) && multiset([q[0]] + r) == multiset{t} + multiset(q)
  {
    assert q == [q[0]] + q[1..];
    forall j | 0 <= j < |r| ensures q[0].seqNo <= r[j].seqNo {
      assert r[j] in multiset(r);
      assert r[j] == t || r[j] in q[1..];
    }
  }

  /** Sorting puts the tasks in order of their numbers and neither adds nor drops one. */
  lemma {:induction false} SortOrders(q: seq<Task>)
    ensures Rising(SortBySeq(q)) && multiset(SortBySeq(q)) == multiset(q)
  {
    if q != [] {
      SortOrders(q[1..]);
      InsertRises(q[0], SortBySeq(q[1..]));
      assert q == [q[0]] + q[1..];
    }
  }

  /** A batch that comes out in order is left as it is. */
  lemma {:induction false} SortedStays(q: seq<Task>)
    requires Ascending(q)
    ensures SortBySeq(q) == q
  {
    if q != [] {
      SortedStays(q[1..]);
      assert |q| > 1 ==> q[0].seqNo < q[1].seqNo;
    }
  }

  lemma AscendingQueue(es: seq<StreamEntry>, n: nat)
    requires Sorted(es) && n <= |es|
    ensures Ascending(Tasks(Queue(es[..n])))
  {
  }

  // ---------- a drain of two reads ----------

  /**
   A batch whose two reads enclose a foreign read of stolen entries, as a worker that has lost its
   lease but not noticed may issue one between them.
   */
  function SplitDrain(s: Stream, max: nat, stolen: nat): (Stream, seq<Entry>) {
    var orphans := XAutoClaim(s, max);
    var between := XReadGroup(s, stolen).0;
    if |orphans| < max then
      var r := XReadGroup(between, max - |orphans|);
      (r.0, orphans + r.1)
    else (between, orphans)
  }

  lemma QueueJoin(es: seq<StreamEntry>, a: nat, b: nat)
    requires a <= b <= |es|
    ensures Queue(es[..a]) + Queue(es[a..b]) == Queue(es[..b])
  {
  }

  /** With nothing in between, a drain returns exactly the first live entries, in order, and delivers no others. */
  lemma DrainIsPrefix(s: Stream, max: nat)
    requires StreamOk(s)
    ensures var r := SplitDrain(s, max, 0); var n := Min(max, |s.entries|);
            && r.1 == Queue(s.entries[..n])
            && StreamOk(r.0) && r.0.entries == s.entries && |r.0.pel| == Max(|s.pel|, n)
  {
    var after, batch, a, b, e := SplitDrainShape(s, max, 0);
    if a == b {
      QueueJoin(s.entries, a, e);
    } else {
      assert Queue(s.entries[..a]) + Queue(s.entries[b..e]) == Queue(s.entries[..a]);
    }
  }

  /**
   The batch and the stream after it, read off its two reads and the foreign one between them: the
   batch joins the first a entries with those from b up to e, which is how far everything was read.
   */
  lemma SplitDrainShape(s: Stream, max: nat, stolen: nat)
    returns (after: Stream, batch: seq<Entry>, a: nat, b: nat, e: nat)
    requires StreamOk(s)
    ensures SplitDrain(s, max, stolen) == (after, batch) && a <= b <= e <= |s.entries|
    ensures a == Min(|s.pel|, max) && b == |s.pel| + Min(stolen, |s.entries| - |s.pel|)
    ensures e == b + if |s.pel| < max then Min(max - |s.pel|, |s.entries| - b) else 0
    ensures batch == Queue(s.entries[..a]) + Queue(s.entries[b..e])
    ensures StreamOk(after) && after.entries == s.entries && |after.pel| == e
  {
    AutoClaimPrefix(s, max);
    var between := ReadNext(s, stolen);
    a, b := Min(|s.pel|, max), |between.pel|;
    after, batch := between, XAutoClaim(s, max);
    if |s.pel| < max {
      var room := max - |s.pel|;
      after := ReadNext(between, room);
      batch := batch + XReadGroup(between, room).1;
    } else {
      assert batch + Queue(s.entries[b..b]) == batch;
    }
    e := |after.pel|;
  }

  lemma ReadNext(s: Stream, count: nat) returns (after: Stream)
    requires StreamOk(s)
    ensures after == XReadGroup(s, count).0 && StreamOk(after) && after.entries == s.entries
    ensures var c := Min(count, |s.entries| - |s.pel|);
            |after.pel| == |s.pel| + c && XReadGroup(s, count).1 == Queue(s.entries[|s.pel|..|s.pel| + c])
  {
    ReadGroupNext(s, count);
    after := XReadGroup(s, count).0;
  }

  /** The foreign read took some of what the orphans left room for, but not all of it. */
  predicate Gaps(s: Stream, max: nat, stolen: nat) {
    |s.pel| < max && 0 < stolen < |s.entries| - |s.pel|
  }

  /** A split batch is still a prefix of the live entries exactly when the foreign read left no gap. */
  lemma SplitBatchGap(s: Stream, max: nat, stolen: nat)
    requires StreamOk(s)
    ensures SplitDrain(s, max, stolen).1 <= Queue(s.entries) <==> !Gaps(s, max, stolen)
  {
    var after, batch, a, b, e := SplitDrainShape(s, max, stolen);
    SkippedIsPrefix(s.entries, a, b, e);
  }

  /** Two runs of a sorted queue join up to a prefix of it only if nothing lies between them. */
  lemma SkippedIsPrefix(es: seq<StreamEntry>, a: nat, b: nat, e: nat)
    requires Sorted(es) && a <= b <= e <= |es|
    ensures Queue(es[..a]) + Queue(es[b..e]) <= Queue(es) <==> a == b || b == e
  {
    var q := Queue(es[..a]) + Queue(es[b..e]);
    assert Queue(es[..a]) == Queue(es)[..a];
    if a < b < e {
      assert q[a] == es[b].entry && es[a].entry.task.seqNo < es[b].entry.task.seqNo;
    } else if a == b {
      QueueJoin(es, a, e);
      assert Queue(es[..e]) == Queue(es)[..e];
    } else {
      assert q == Queue(es)[..a];
    }
  }

  /** How many entries an acknowledgement through a batch's last task takes off. */
  function CoveredBy(after: Stream, batch: seq<Entry>): (n: nat)
    requires |batch| > 0
    ensures n <= |after.entries|
  {
    Covered(Queue(Delivered(after)), batch[|batch| - 1].task.seqNo)
  }

  /** It takes off an entry the batch never held. */
  ghost predicate Loses(after: Stream, batch: seq<Entry>)
    requires |batch| > 0
  {
    exists i :: 0 <= i < CoveredBy(after, batch) && after.entries[i].entry !in batch
  }

  /** The entries the foreign read was given are taken off, and none of them is in the batch. */
  ghost predicate Missed(after: Stream, batch: seq<Entry>, from: nat, stolen: nat)
    requires |batch| > 0
  {
    forall i :: from <= i < from + stolen ==> i < CoveredBy(after, batch) && after.entries[i].entry !in batch
  }

  /** What an acknowledgement takes off beside the batch: nothing, or what was stolen. */
  ghost predicate Accounted(gap: bool, after: Stream, batch: seq<Entry>, from: nat, stolen: nat)
    requires |batch| > 0
  {
    && (Loses(after, batch) <==> gap) && (CoveredBy(after, batch) == |batch| <==> !gap)
    && (gap ==> Missed(after, batch, from, stolen))
  }

  /**
   Acknowledging a batch through its last task takes off entries the batch never held exactly when
   there is a gap: without one it takes off as many entries as the batch has, and with one also
   everything the foreign read was given.
   */
  lemma SplitBatchLoses(s: Stream, max: nat, stolen: nat)
    requires StreamOk(s)
    ensures Gaps(s, max, stolen) ==> |SplitDrain(s, max, stolen).1| > 0
    ensures var (after, batch) := SplitDrain(s, max, stolen);
            |batch| > 0 ==> Accounted(Gaps(s, max, stolen), after, batch, |s.pel|, stolen)
  {
    var after, batch, a, b, e := SplitDrainShape(s, max, stolen);
    if Gaps(s, max, stolen) {
      GapLoses(s.entries, a, b, e, batch, after, |s.pel|, stolen);
    } else if |batch| > 0 {
      KeptOf(s.entries, a, b, e, batch, after);
    }
  }

  lemma GapLoses(es: seq<StreamEntry>, a: nat, b: nat, e: nat, batch: seq<Entry>, after: Stream, from: nat, stolen: nat)
    requires Sorted(es) && from == a < b == from + stolen && b < e <= |es|
    requires batch == Queue(es[..a]) + Queue(es[b..e]) && after.entries == es && |after.pel| == e
    ensures |batch| > 0 && Accounted(true, after, batch, from, stolen)
  {
    forall i | a <= i < b ensures |batch| > 0 && i < CoveredBy(after, batch) && es[i].entry !in batch {
      LossOf(es, a, b, e, i, batch, after);
    }
    LossOf(es, a, b, e, a, batch, after);
  }

  /** A batch without a gap is covered entry by entry. */
  lemma KeptOf(es: seq<StreamEntry>, a: nat, b: nat, e: nat, batch: seq<Entry>, after: Stream)
    requires Sorted(es) && a <= b <= e <= |es| && (b == e || a == b) && |batch| > 0
    requires batch == Queue(es[..a]) + Queue(es[b..e]) && after.entries == es && |after.pel| == e
    ensures forall from, stolen :: Accounted(false, after, batch, from, stolen)
  {
    forall k | 0 <= k < |batch| ensures batch[k] == es[k].entry {
      JoinedAt(es, a, b, e, k);
    }
    CoversExactly(es, e, |batch| - 1);
  }

  lemma LossOf(es: seq<StreamEntry>, a: nat, b: nat, e: nat, i: nat, batch: seq<Entry>, after: Stream)
    requires Sorted(es) && a <= i < b < e <= |es|
    requires batch == Queue(es[..a]) + Queue(es[b..e]) && after.entries == es && |after.pel| == e
    ensures es[i].entry !in batch && |batch| == a + (e - b) && CoveredBy(after, batch) == e
  {
    SkippedLost(es, a, b, e, i);
    CoversExactly(es, e, e - 1);
  }

  /** Entries skipped between two runs are in neither, and come before the last of the second. */
  lemma SkippedLost(es: seq<StreamEntry>, a: nat, b: nat, e: nat, i: nat)
    requires Sorted(es) && a <= i < b < e <= |es|
    ensures var q := Queue(es[..a]) + Queue(es[b..e]);
            |q| == a + (e - b) && es[i].entry !in q && q[|q| - 1] == es[e - 1].entry
  {
    var q := Queue(es[..a]) + Queue(es[b..e]);
    forall k | 0 <= k < |q| ensures q[k] != es[i].entry {
      JoinedAt(es, a, b, e, k);
      SortedSeq(es, if k < a then k else k - a + b, i);
    }
    JoinedAt(es, a, b, e, |q| - 1);
  }

  lemma JoinedAt(es: seq<StreamEntry>, a: nat, b: nat, e: nat, k: nat)
    requires a <= b <= e <= |es| && k < a + (e - b)
    ensures (Queue(es[..a]) + Queue(es[b..e]))[k] == es[if k < a then k else k - a + b].entry
  {
  }

  lemma SortedSeq(es: seq<StreamEntry>, i: nat, j: nat)
    requires Sorted(es) && i < |es| && j < |es| && i != j
    ensures es[i].entry.task.seqNo != es[j].entry.task.seqNo
  {
    assert i < j ==> es[i].entry.task.seqNo < es[j].entry.task.seqNo;
    assert j < i ==> es[j].entry.task.seqNo < es[i].entry.task.seqNo;
  }

  lemma CoversExactly(es: seq<StreamEntry>, n: nat, last: nat)
    requires Sorted(es) && last < n <= |es|
    ensures Covered(Queue(es[..n]), es[last].entry.task.seqNo) == last + 1
  {
    var q := Queue(es[..n]);
    forall k | 0 <= k < n ensures q[k].task.seqNo <= es[last].entry.task.seqNo <==> k <= last {
      assert q[k] == es[k].entry;
    }
    CoveredIs(q, es[last].entry.task.seqNo, last + 1);
  }
}
