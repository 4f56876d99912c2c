/** What the callbacks of the workers were given, read off the record of a run, arrival by arrival. */
module Callbacks {
  import opened Contract
  import opened Oracle
  import W = Workers
  import H = History

  /** The arrivals handed to the callback, in the order of the log. */
  function Given(log: seq<H.Event>): seq<int> {
    if log == [] then [] else
    Given(log[..|log| - 1]) + if log[|log| - 1].Processed? then [log[|log| - 1].index] else []
  }

  /** What the callback was given is, call by call, the task of the arrival that the log names. */
  ghost predicate GivenFrom(given: seq<Task>, arrivals: seq<Entry>, log: seq<H.Event>) {
    |given| == |Given(log)| &&
    forall q :: 0 <= q < |given| ==> 0 <= Given(log)[q] < |arrivals| && given[q] == arrivals[Given(log)[q]].task
  }

  lemma MoreArrivals(given: seq<Task>, arrivals: seq<Entry>, later: seq<Entry>, log: seq<H.Event>)
    requires GivenFrom(given, arrivals, log) && arrivals <= later
    ensures GivenFrom(given, later, log)
  {
  }

  ghost predicate Unprocessed(more: seq<H.Event>) {
    forall p :: 0 <= p < |more| ==> !more[p].Processed?
  }

  lemma {:induction false} MoreSettled(log: seq<H.Event>, more: seq<H.Event>)
    requires Unprocessed(more)
    ensures Given(log + more) == Given(log)
  {
    var l := log + more;
    if more == [] {
      assert l == log;
    } else {
      assert l[..|l| - 1] == log + more[..|more| - 1];
      MoreSettled(log, more[..|more| - 1]);
    }
  }

  lemma GivenPush(log: seq<H.Event>, e: H.Event)
    ensures Given(log + [e]) == Given(log) + if e.Processed? then [e.index] else []
  {
    assert (log + [e])[..|log|] == log;
  }

  lemma OneGiven(given: seq<Task>, arrivals: seq<Entry>, log: seq<H.Event>, task: Task, i: int)
    requires GivenFrom(given, arrivals, log) && 0 <= i < |arrivals| && task == arrivals[i].task
    ensures GivenFrom(given + [task], arrivals, log + [H.Processed(i)])
  {
    GivenPush(log, H.Processed(i));
  }

  lemma {:induction false} ProcessedIsGiven(log: seq<H.Event>, i: int)
    ensures W.WasProcessed(log, i) <==> i in Given(log)
  {
    if log != [] {
      var before, e := log[..|log| - 1], log[|log| - 1];
      assert log == before + [e];
      ProcessedIsGiven(before, i);
      W.LogMore(before, [e], i);
      if W.WasProcessed(log, i) && !(e.Processed? && e.index == i) {
        var p :| 0 <= p < |log| && log[p].Processed? && log[p].index == i;
        assert before[p] == log[p];
      }
      assert log[|before|] == e;
    }
  }

  /** Every arrival before the one given at q was given before, or is a dead letter. */
  ghost predicate InTurn(log: seq<H.Event>, q: nat)
    requires q < |Given(log)|
  {
    forall j :: 0 <= j < Given(log)[q] ==> j in Given(log)[..q] || H.Dead(j) in log
  }

  /** An ordered record has given every arrival to the callbacks in its turn. */
  lemma {:induction false} GivenInTurn(log: seq<H.Event>, q: nat)
    requires W.Ordered(log) && q < |Given(log)|
    ensures InTurn(log, q)
  {
    var before, e := log[..|log| - 1], log[|log| - 1];
    OrderedBefore(log);
    if e.Processed? && q == |Given(log)| - 1 {
      assert Given(log)[..q] == Given(before);
      forall j | 0 <= j < Given(log)[q] ensures j in Given(log)[..q] || H.Dead(j) in log {
        assert W.Reached(before, j);
        ReachedIsGiven(before, j);
      }
    } else {
      GivenInTurn(before, q);
      assert Given(log)[..q] == Given(before)[..q];
    }
  }

  lemma ReachedIsGiven(log: seq<H.Event>, j: int)
    ensures W.Reached(log, j) ==> j in Given(log) || H.Dead(j) in log
  {
    if W.Reached(log, j) {
      var p :| 0 <= p < |log| && (log[p].Processed? || log[p].Dead?) && log[p].index == j;
      if log[p].Processed? {
        ProcessedIsGiven(log, j);
      } else {
        assert log[p] == H.Dead(j);
      }
    }
  }

  /** What an ordered record shows acknowledged had been given to a callback by then. */
  lemma AckedWasGiven(log: seq<H.Event>, p: nat)
    requires W.Ordered(log) && p < |log| && log[p].Acked?
    ensures log[p].index in Given(log[..p])
  {
    ProcessedIsGiven(log[..p], log[p].index);
  }

  lemma OrderedBefore(log: seq<H.Event>)
    requires W.Ordered(log) && log != []
    ensures W.Ordered(log[..|log| - 1])
  {
    var before := log[..|log| - 1];
    forall p | 0 <= p < |before| ensures before[..p] == log[..p] && before[p] == log[p] {
    }
  }
}
