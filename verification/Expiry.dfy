/** The run on which a Valkey shard takes a lease back an instant before the oracle would. */
module Expiry {
  import opened Contract
  import opened Oracle
  import opened ShardState
  import opened SlotSteps
  import opened ShardSteps
  import opened Straddle
  import opened Tokens
  import R = ShardRuns
  import History

  /** The run up to the claim. */
  function UpToClaim(m: string, cfg: Config, t: int, token: string, window: int): seq<R.Timed> {
    [] + [R.Timed(t, R.Enqueue(m, "task", cfg.threshold))] + [R.Timed(t, R.Claim(m, token, window))]
  }

  lemma ReadyAtOnce(cfg: Config, t: int)
    requires cfg.threshold > 0
    ensures var x := Enqueued(NO_SLOT, "task", cfg.threshold, cfg.threshold, cfg.maxWait, t);
            x.ready.Some? && x.hash.claimedBy.None?
  {
  }

  lemma LentUntil(x: Slot, y: Slot, token: string, window: int, t: int, end: int)
    requires x == Lent(y, WorkerOf(token), token, window, t) && end == t + window
    ensures x.hash.leaseExp == x.leased == Some(end)
  {
  }

  /** A member enqueued at threshold is ready, and can be claimed until the end of a window. */
  lemma ClaimedOnce(m: string, cfg: Config, t: int, token: string, window: int, end: int, acts: seq<R.Timed>)
    returns (d: Keyspace)
    requires cfg.threshold > 0 && cfg.maxWait >= 0 && cfg.maxAttempts > 0 && t >= 0
    requires window >= 0 && WorkerOf(token) != "" && end == t + window && acts == UpToClaim(m, cfg, t, token, window)
    ensures Leads(cfg, acts, d, {token}, t) && SoleMember(d, m) && Presents(d, m, token)
    ensures SlotAt(d, m).hash.leaseExp == SlotAt(d, m).leased == Some(end)
  {
    ReadyAtOnce(cfg, t);
    var one := EnqueueGoes(R.Fresh(), cfg, {}, 0, t, m, "task", cfg.threshold);
    d := ClaimGoes(one, cfg, {}, t, t, m, token, window, {token});
    LentUntil(SlotAt(d, m), SlotAt(one, m), token, window, t, end);
    Begins(cfg);
    TwoOn(cfg, [], R.Fresh(), {}, 0, R.Timed(t, R.Enqueue(m, "task", cfg.threshold)), one, {}, t,
          R.Timed(t, R.Claim(m, token, window)), d, {token}, t, acts);
  }

  /** The shard's sweep at the end of a lease takes it off. */
  lemma TakenOff(d: Keyspace, m: string, token: string, end: int)
    requires SoleMember(d, m) && end >= 0 && SlotAt(d, m).leased == Some(end)
    ensures !Presents(ReapAll(d, end), m, token)
  {
    SoleSwept(d, m, end);
    SweptFree(SlotAt(d, m), end);
  }

  lemma SweptFree(x: Slot, end: int)
    requires end >= 0 && x.leased == Some(end)
    ensures Promoted(SlotSteps.Reclaimed(x, end), end).hash.leaseToken.None?
  {
  }

  /** The oracle's sweep then does not. */
  lemma StillHeld(s: State<string>, c: Claimed<string>, end: int)
    requires Held(s, c) && s.units[c.key].lease.value.expires == end
    ensures Held(Reap(s, end, end), c)
  {
  }

  lemma EndOfLease(d: Keyspace, s: State<string>, m: string, token: string, end: int)
    requires Shows(d, s) && Presents(d, m, token) && SlotAt(d, m).hash.leaseExp == Some(end)
    ensures Held(s, Bearer(m, token)) && s.units[m].lease.value.expires == end
  {
    PresentsIsHeld(d, s, m, token);
    assert Mirrors(SlotAt(d, m), s.units[m]);
  }

  /**
   For every window there is a run of a shard whose next sweep, at the last instant of a lease, takes it
   away, while the oracle's sweep at that instant leaves it held.
   */
  lemma TakenAtTheEnd(m: string, cfg: Config, t: int, token: string, window: int, end: int)
    requires cfg.threshold > 0 && cfg.maxWait >= 0 && cfg.maxAttempts > 0 && t >= 0
    requires window >= 0 && WorkerOf(token) != "" && end == t + window
    ensures EndedEarly(cfg, UpToClaim(m, cfg, t, token, window), m, token, end)
  {
    var acts := UpToClaim(m, cfg, t, token, window);
    var d := ClaimedOnce(m, cfg, t, token, window, end, acts);
    EndsAfter(cfg, acts, d, t, m, token, end);
  }

  /** After a permitted run the shard's sweep takes off a lease that the oracle's sweep leaves. */
  ghost predicate EndedEarly(cfg: Config, acts: seq<R.Timed>, m: string, token: string, end: int) {
    var d, w := R.Run(R.Fresh(), cfg, acts), History.Run(History.Start(cfg), R.Images(R.Fresh(), cfg, acts));
    && R.Legal(R.Fresh(), History.Start(cfg), acts) && Presents(d, m, token)
    && !Presents(ReapAll(d, end), m, token) && Held(Reap(w.queue, end, end), Bearer(m, token))
  }

  lemma EndsAfter(cfg: Config, acts: seq<R.Timed>, d: Keyspace, t: int, m: string, token: string, end: int)
    requires Leads(cfg, acts, d, {token}, t) && SoleMember(d, m) && Presents(d, m, token) && end >= 0
    requires SlotAt(d, m).hash.leaseExp == SlotAt(d, m).leased == Some(end)
    ensures EndedEarly(cfg, acts, m, token, end)
  {
    EndsAt(d, History.Run(History.Start(cfg), R.Images(R.Fresh(), cfg, acts)).queue, m, token, end);
  }

  lemma EndsAt(d: Keyspace, s: State<string>, m: string, token: string, end: int)
    requires Shows(d, s) && SoleMember(d, m) && Presents(d, m, token) && end >= 0
    requires SlotAt(d, m).hash.leaseExp == SlotAt(d, m).leased == Some(end)
    ensures !Presents(ReapAll(d, end), m, token) && Held(Reap(s, end, end), Bearer(m, token))
  {
    EndOfLease(d, s, m, token, end);
    TakenOff(d, m, token, end);
    StillHeld(s, Bearer(m, token), end);
  }
}
