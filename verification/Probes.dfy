/** What aborted probes do to a service: sequences of the retry loop, one after the other, on one circuit
    breaker. A probe whose operation is aborted, by an interrupt or another `BaseException`, is never
    given back (resilience/retry.py, resilience/control.py). */
module Probes {
  import opened Domain
  import opened Windows
  import opened Control
  import opened Retry
  import opened RetryBounds

  /** One use of the retry loop. */
  datatype Sequence<T> = Sequence(job: Job, env: nat -> Attempt<T>, start: real)

  function Ended<T>(cfg: Config, s: ServiceState, q: Sequence<T>): Finished<T>
    requires cfg.Valid()
  {
    Run(q.job, cfg, q.env, Delays(cfg, q.env), 1, q.start, 0, None, s)
  }

  /** The service after all these sequences, one after the other. */
  function AllEnded<T>(cfg: Config, s: ServiceState, qs: seq<Sequence<T>>): ServiceState
    requires cfg.Valid()
  {
    if qs == [] then s else Ended(cfg, AllEnded(cfg, s, qs[..|qs| - 1]), qs[|qs| - 1]).service
  }

  const UNUSED := ServiceState(FRESH, [], [])

  // ---------------------------------------------------------------------------- a blocked circuit

  /** All probes allowed are under way. */
  predicate Blocked(c: Circuit, cfg: Config) {
    c.state == HalfOpen && c.inFlight >= cfg.probes
  }

  /** That is when no time is late enough for the circuit to let a call through. */
  lemma BlockedExact(c: Circuit, cfg: Config)
    requires cfg.Valid() && CircuitOk(c, cfg)
    ensures Blocked(c, cfg) <==> forall now :: !Entered(c, cfg, now).1
  {
    if !Blocked(c, cfg) {
      EnteredExact(c, cfg, c.openedAt + cfg.recovery);
      assert Entered(c, cfg, c.openedAt + cfg.recovery).1;
    }
  }

  lemma BlockedPass<T>(cfg: Config, s: ServiceState, q: Sequence<T>)
    requires cfg.Valid() && q.job.controlled && Blocked(s.circuit, cfg)
    ensures Ended(cfg, s, q).calls == 0 && Ended(cfg, s, q).service == s
  {
    var e := q.env(1);
    if !TooLate(q.job, q.start) {
      assert !TryCall(q.job, cfg, e, s, q.start).called;
      TryReplays(q.job, cfg, e, s, q.start);
    }
  }

  /** A blocked service stays blocked, whatever sequences follow and whenever they do, and none of them
      calls its operation. */
  lemma {:induction false} BlockedForEver<T>(cfg: Config, s: ServiceState, qs: seq<Sequence<T>>)
    requires cfg.Valid() && Blocked(s.circuit, cfg) && forall q | q in qs :: q.job.controlled
    ensures AllEnded(cfg, s, qs) == s
    ensures forall i | 0 <= i < |qs| :: Ended(cfg, AllEnded(cfg, s, qs[..i]), qs[i]).calls == 0
  {
    if qs != [] {
      var front := qs[..|qs| - 1];
      BlockedForEver(cfg, s, front);
      BlockedPass(cfg, s, qs[|qs| - 1]);
      forall i | 0 <= i < |qs| ensures Ended(cfg, AllEnded(cfg, s, qs[..i]), qs[i]).calls == 0 {
        assert i < |front| ==> front[..i] == qs[..i];
      }
    }
  }

  // ---------------------------------------------------------------------------- what can block it

  lemma TryProbes<T>(job: Job, cfg: Config, e: Attempt<T>, s: ServiceState, now: real)
    requires cfg.Valid() && CircuitOk(s.circuit, cfg)
    ensures var t := TryCall(job, cfg, e, s, now);
            && CircuitOk(t.service.circuit, cfg)
            && t.service.circuit.inFlight <= s.circuit.inFlight + if t.called && job.controlled then 1 else 0
  {
  }

  lemma PassProbes<T>(job: Job, cfg: Config, e: Attempt<T>, delay: real, k: nat, now: real, calls: nat,
                      last: Option<Category>, s: ServiceState)
    requires cfg.Valid() && k >= 1 && CircuitOk(s.circuit, cfg)
    ensures match Pass(job, cfg, e, delay, k, now, calls, last, s)
            case Over(f) =>
              CircuitOk(f.service.circuit, cfg)
              && f.service.circuit.inFlight <=
                 s.circuit.inFlight + if f.ending.Abandoned? && job.controlled then 1 else 0
            case On(_, _, _, s1) => CircuitOk(s1.circuit, cfg) && s1.circuit.inFlight <= s.circuit.inFlight
  {
    if !TooLate(job, now) {
      TryProbes(job, cfg, e, s, now);
    }
  }

  /** A sequence adds at most its own probe, and only when it is abandoned. */
  lemma {:induction false} RunProbes<T>(job: Job, cfg: Config, env: nat -> Attempt<T>, delays: nat -> real, k: nat,
                                        now: real, calls: nat, last: Option<Category>, s: ServiceState)
    requires cfg.Valid() && 1 <= k <= AttemptsAllowed(cfg) && CircuitOk(s.circuit, cfg)
    ensures var r := Run(job, cfg, env, delays, k, now, calls, last, s);
            && CircuitOk(r.service.circuit, cfg)
            && r.service.circuit.inFlight <= s.circuit.inFlight + if r.ending.Abandoned? && job.controlled then 1 else 0
    decreases AttemptsAllowed(cfg) - k
  {
    PassProbes(job, cfg, env(k), delays(k), k, now, calls, last, s);
    match Pass(job, cfg, env(k), delays(k), k, now, calls, last, s)
    case Over(_) =>
    case On(at, n, category, s1) => RunProbes(job, cfg, env, delays, k + 1, at, n, Some(category), s1);
  }

  /** How many of the sequences were abandoned. */
  function Abandonments<T>(cfg: Config, s: ServiceState, qs: seq<Sequence<T>>): nat
    requires cfg.Valid()
  {
    if qs == [] then 0
    else
      var front, q := qs[..|qs| - 1], qs[|qs| - 1];
      var ending := Ended(cfg, AllEnded(cfg, s, front), q).ending;
      Abandonments(cfg, s, front) + if ending.Abandoned? && q.job.controlled then 1 else 0
  }

  /** A service is blocked only after as many abandoned sequences as it allows probes. */
  lemma {:induction false} BlockedNeedsAbandonments<T>(cfg: Config, qs: seq<Sequence<T>>)
    requires cfg.Valid()
    ensures var c := AllEnded(cfg, UNUSED, qs).circuit;
            && CircuitOk(c, cfg) && c.inFlight <= Abandonments(cfg, UNUSED, qs)
            && (Blocked(c, cfg) ==> Abandonments(cfg, UNUSED, qs) >= cfg.probes)
  {
    if qs != [] {
      var front, q := qs[..|qs| - 1], qs[|qs| - 1];
      BlockedNeedsAbandonments(cfg, front);
      RunProbes(q.job, cfg, q.env, Delays(cfg, q.env), 1, q.start, 0, None, AllEnded(cfg, UNUSED, front));
    }
  }

  // -------------------------------------------------------------------------- a run that blocks it

  const WRITE := Job(ToolCall, true, true, false, None, None)

  /** A write that ends in this way at this time. */
  function Ends(outcome: Outcome<int>, at: real): Sequence<int> {
    Sequence(WRITE, _ => Attempt(true, 0.0, 0.0, outcome, 0.5, None), at)
  }

  function Repeat<T>(q: Sequence<T>, n: nat): (qs: seq<Sequence<T>>)
    ensures |qs| == n && forall i | 0 <= i < n :: qs[i] == q
  {
    seq(n, _ => q)
  }

  lemma RepeatOne<T>(cfg: Config, s: ServiceState, q: Sequence<T>, n: nat)
    requires cfg.Valid() && n > 0
    ensures AllEnded(cfg, s, Repeat(q, n)) == Ended(cfg, AllEnded(cfg, s, Repeat(q, n - 1)), q).service
  {
    assert Repeat(q, n)[..n - 1] == Repeat(q, n - 1);
  }

  /** As many unknown outcomes as the threshold open the circuit. */
  lemma {:induction false} UnknownOutcomesOpen(cfg: Config, n: nat)
    requires cfg.Valid() && n <= cfg.threshold
    ensures AllEnded(cfg, UNUSED, Repeat(Ends(UnknownWrite, 0.0), n)).circuit ==
            Circuit(if n < cfg.threshold then Closed else Open, n, 0.0, 0, 0)
  {
    if n > 0 {
      UnknownOutcomesOpen(cfg, n - 1);
      RepeatOne(cfg, UNUSED, Ends(UnknownWrite, 0.0), n);
    }
  }

  /** From an open circuit, aborted writes use up the probes. */
  lemma {:induction false} AbortsUseUp(cfg: Config, s: ServiceState, n: nat)
    requires cfg.Valid() && 0 < n <= cfg.probes && s.circuit == Circuit(Open, cfg.threshold, 0.0, 0, 0)
    ensures AllEnded(cfg, s, Repeat(Ends(Aborted, cfg.recovery), n)).circuit ==
              Circuit(HalfOpen, cfg.threshold, 0.0, n, n)
  {
    RepeatOne(cfg, s, Ends(Aborted, cfg.recovery), n);
    if n > 1 {
      AbortsUseUp(cfg, s, n - 1);
    } else {
      assert AllEnded(cfg, s, Repeat(Ends(Aborted, cfg.recovery), 0)) == s;
    }
  }

  /** On every configuration: as many unknown outcomes as the threshold, and after the recovery time as
      many aborted writes as probes are allowed, and the service is refused for ever; no later sequence,
      at whatever time, calls its operation. */
  lemma AbortedProbesBlock<T>(cfg: Config, later: seq<Sequence<T>>)
    requires cfg.Valid() && forall q | q in later :: q.job.controlled
    ensures var tripped := AllEnded(cfg, UNUSED, Repeat(Ends(UnknownWrite, 0.0), cfg.threshold));
            var s := AllEnded(cfg, tripped, Repeat(Ends(Aborted, cfg.recovery), cfg.probes));
            && (forall now :: !Entered(s.circuit, cfg, now).1)
            && AllEnded(cfg, s, later) == s
            && forall i | 0 <= i < |later| :: Ended(cfg, AllEnded(cfg, s, later[..i]), later[i]).calls == 0
  {
    UnknownOutcomesOpen(cfg, cfg.threshold);
    var tripped := AllEnded(cfg, UNUSED, Repeat(Ends(UnknownWrite, 0.0), cfg.threshold));
    AbortsUseUp(cfg, tripped, cfg.probes);
    var s := AllEnded(cfg, tripped, Repeat(Ends(Aborted, cfg.recovery), cfg.probes));
    BlockedExact(s.circuit, cfg);
    BlockedForEver(cfg, s, later);
  }
}
