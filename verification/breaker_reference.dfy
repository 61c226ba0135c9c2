/** A second description of the breaker, by what has happened to it and without its five fields: which failures
    open it or keep it open longer, and which calls it lets through. */
module BreakerReference {
  import opened Base
  import opened Resilience
  import opened BreakerHistory

  /** Calls pass; none passes until the recovery time since a failure is over; or single calls probe. */
  datatype Mode = Normal | Blocked(since: Time) | Probing(won: nat, out: bool)

  function Front(h: History): History
    requires h != []
  {
    h[..|h| - 1]
  }

  /** The failures since the last success, those recorded while probing aside. */
  function Missed(cfg: Thresholds, h: History): nat
    decreases |h|, 1
  {
    if h == [] then 0
    else
      match h[|h| - 1].kind
      case Ask => Missed(cfg, Front(h))
      case Success => 0
      case Failure => Missed(cfg, Front(h)) + if ModeOf(cfg, Front(h)).Probing? then 0 else 1
  }

  /** A failure blocks from its own time on when it is a probe's, or when it makes the missed ones as many as
      the threshold, whether calls pass or are blocked already. */
  function ModeOf(cfg: Thresholds, h: History): Mode
    decreases |h|, 0
  {
    if h == [] then Normal
    else
      var mode, e := ModeOf(cfg, Front(h)), h[|h| - 1];
      match e.kind
      case Ask =>
        if mode.Blocked? && e.at >= mode.since + cfg.recovery then Probing(0, true)
        else if mode.Probing? then Probing(mode.won, true)
        else mode
      case Success =>
        if !mode.Probing? then mode
        else if mode.won + 1 < cfg.successes then Probing(mode.won + 1, false)
        else Normal
      case Failure =>
        if mode.Probing? || Missed(cfg, Front(h)) + 1 >= cfg.failures then Blocked(e.at) else mode
  }

  /** The breaker's fields for a mode. */
  predicate Shows(b: Breaker, mode: Mode) {
    match mode
    case Normal => b.health.Closed?
    case Blocked(since) => b.health.Open? && b.openedAt == Some(since)
    case Probing(won, out) => b.health.HalfOpen? && b.successes == won && b.trial == out
  }

  /** After every history the breaker is in the mode the history has led to, and its failure counter holds the
      missed failures. */
  lemma {:induction false} BreakerIsMode(cfg: Thresholds, h: History)
    requires cfg.Valid()
    ensures Shows(Run(cfg, h), ModeOf(cfg, h)) && Run(cfg, h).failures == Missed(cfg, h)
    decreases |h|
  {
    if h != [] {
      BreakerIsMode(cfg, Front(h));
      ReachableWellFormed(cfg, Front(h));
    }
  }

  /** A call passes exactly in normal operation, or once the recovery time is over, or when no probe is out. */
  lemma AdmitsIff(cfg: Thresholds, h: History, i: nat)
    requires cfg.Valid() && i < |h| && h[i].kind.Ask?
    ensures Admits(cfg, h, i) <==>
      match ModeOf(cfg, h[..i])
      case Normal => true
      case Blocked(since) => h[i].at >= since + cfg.recovery
      case Probing(_, out) => !out
  {
    BreakerIsMode(cfg, h[..i]);
    ReachableWellFormed(cfg, h[..i]);
  }

  /** The failure at i blocks from its time on. */
  predicate Blocks(cfg: Thresholds, h: History, i: nat)
    requires i < |h|
  {
    h[i].kind.Failure? && (ModeOf(cfg, h[..i]).Probing? || Missed(cfg, h[..i + 1]) >= cfg.failures)
  }

  /** The failures that open the breaker or extend the time it stays open are exactly those of probes and those
      that find, or make, the missed ones as many as the threshold; any other changes nothing about who passes. */
  lemma TripsIff(cfg: Thresholds, h: History, i: nat)
    requires cfg.Valid() && i < |h|
    ensures Blocks(cfg, h, i) ==> Trips(cfg, h, i) && ModeOf(cfg, h[..i + 1]) == Blocked(h[i].at)
    ensures !Blocks(cfg, h, i) && h[i].kind.Failure? ==> ModeOf(cfg, h[..i + 1]) == ModeOf(cfg, h[..i])
  {
    assert Front(h[..i + 1]) == h[..i];
    BreakerIsMode(cfg, h[..i + 1]);
  }

  /** With a monotone clock no call passes from any such failure until its recovery time is over, those
      recorded while the breaker is open included. */
  lemma FailureBlocks(cfg: Thresholds, h: History, i: nat, j: nat)
    requires cfg.Valid() && Monotone(h) && i < j < |h| && Blocks(cfg, h, i)
    ensures Admits(cfg, h, j) ==> h[i].at + cfg.recovery <= h[j].at
  {
    TripsIff(cfg, h, i);
    if Admits(cfg, h, j) {
      NoCallBeforeRecovery(cfg, h, i, j);
    }
  }

  /** A late failure at a threshold of one: opened at 0 and again at 10, the breaker refuses at 15 and passes
      at 25. */
  lemma LateFailureExtends()
    ensures var cfg := Thresholds(1, 2, 15);
      var h := [Event(Failure, 0), Event(Failure, 10), Event(Ask, 15), Event(Ask, 25)];
      Blocks(cfg, h, 1) && !Admits(cfg, h, 2) && Admits(cfg, h, 3)
  {
    var cfg := Thresholds(1, 2, 15);
    var h := [Event(Failure, 0), Event(Failure, 10), Event(Ask, 15), Event(Ask, 25)];
    assert h[..0] == [] && Front(h[..1]) == h[..0] && Front(h[..2]) == h[..1] && Front(h[..3]) == h[..2];
    AdmitsIff(cfg, h, 2);
    AdmitsIff(cfg, h, 3);
  }
}
