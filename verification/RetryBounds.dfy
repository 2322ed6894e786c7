/** What every retry sequence keeps: how often it calls, when it ends, what it leaves in the circuit
    breaker and in the retry budget. */
module RetryBounds {
  import opened Domain
  import opened Windows
  import opened Control
  import opened Retry

  // ------------------------------------------------------------------------------ number of calls

  /** The operation failed in a way that is safe to replay. */
  predicate Replayable<T>(job: Job, e: Attempt<T>) {
    e.outcome.Raised? && IsRetryable(Classify(e.outcome.failure, job.dependency, job.write), job.write)
  }

  /** One pass: it calls at most once; it goes on only after a call that failed in a replayable way;
      when it returns a value or an unknown outcome that is what its one call gave. */
  ghost predicate PassCounts<T>(job: Job, e: Attempt<T>, k: nat, calls: nat, r: Passed<T>) {
    match r
    case On(_, n, _, _) => n == calls + 1 && Replayable(job, e)
    case Over(f) =>
      && f.calls in {calls, calls + 1} && f.passes in {k - 1, k} && (f.passes < k ==> f.calls == calls)
      && (f.ending.Returned? ==> f.calls == calls + 1 && f.passes == k && e.outcome == Answered(f.ending.value))
      && (f.ending.UnknownOutcome? ==> f.calls == calls + 1 && f.passes == k && e.outcome == UnknownWrite)
      && (f.ending.Abandoned? ==> f.calls == calls + 1 && f.passes == k && e.outcome == Aborted)
      && (f.ending.Exhausted? ==> f.ending.attempts == f.calls && (f.passes == k ==> f.calls == k && Replayable(job, e)))
  }

  lemma PassCalls<T>(job: Job, cfg: Config, e: Attempt<T>, delay: real, k: nat, now: real, last: Option<Category>, s: ServiceState)
    requires cfg.Valid() && k >= 1
    ensures PassCounts(job, e, k, k - 1, Pass(job, cfg, e, delay, k, now, k - 1, last, s))
  {
    if !TooLate(job, now) {
      TryReplays(job, cfg, e, s, now);
    }
  }

  /** What the controller itself refuses is never replayed. */
  lemma TryReplays<T>(job: Job, cfg: Config, e: Attempt<T>, s: ServiceState, now: real)
    requires cfg.Valid()
    ensures var t := TryCall(job, cfg, e, s, now);
            if t.called then t.outcome == e.outcome
            else t.outcome.Raised? && !IsRetryable(Classify(t.outcome.failure, job.dependency, job.write), job.write)
  {
  }

  /** The operation is called at most `max_retries` + 1 times and at most once for a write; every pass
      but the last called it exactly once and saw a failure that is safe to replay, so never the
      unknown outcome of a write; and the reported number of attempts is the number of calls. */
  lemma {:induction false} CallsExact<T>(job: Job, cfg: Config, env: nat -> Attempt<T>, delays: nat -> real, k: nat, now: real,
                                         last: Option<Category>, s: ServiceState)
    requires cfg.Valid() && 1 <= k <= AttemptsAllowed(cfg)
    ensures var r := Run(job, cfg, env, delays, k, now, k - 1, last, s);
            && k - 1 <= r.passes <= AttemptsAllowed(cfg) && r.passes - 1 <= r.calls <= r.passes
            && (forall j | k <= j < r.passes :: Replayable(job, env(j)))
            && (job.write ==> r.calls <= k)
            && (r.ending.Returned? ==> r.calls == r.passes && env(r.passes).outcome == Answered(r.ending.value))
            && (r.ending.UnknownOutcome? ==> r.calls == r.passes && env(r.passes).outcome == UnknownWrite)
            && (r.ending.Abandoned? ==> r.calls == r.passes && env(r.passes).outcome == Aborted)
            && (r.ending.Exhausted? ==> r.ending.attempts == r.calls)
    decreases AttemptsAllowed(cfg) - k
  {
    PassCalls(job, cfg, env(k), delays(k), k, now, last, s);
    match Pass(job, cfg, env(k), delays(k), k, now, k - 1, last, s)
    case Over(_) =>
    case On(at, _, category, s1) => CallsExact(job, cfg, env, delays, k + 1, at, Some(category), s1);
  }

  // -------------------------------------------------------------------------------- the deadline

  /** Every attempt ends within the timeout. */
  ghost predicate Prompt<T(!new)>(env: nat -> Attempt<T>, timeout: real) {
    forall k :: PromptAt(env(k), timeout)
  }

  predicate PromptAt<T>(e: Attempt<T>, timeout: real) {
    0.0 <= e.waited && 0.0 <= e.took && e.waited + e.took <= timeout
  }

  /** A pass that goes on leaves room for one more attempt; a pass that ends took one attempt. */
  lemma PassTimes<T>(job: Job, cfg: Config, e: Attempt<T>, delay: real, k: nat, now: real, calls: nat, last: Option<Category>,
                     s: ServiceState, d: real, timeout: real)
    requires cfg.Valid() && k >= 1 && job.timeout == Some(timeout) && job.deadline == Some(d) && PromptAt(e, timeout)
    ensures match Pass(job, cfg, e, delay, k, now, calls, last, s)
            case Over(f) => f.at <= now + timeout
            case On(at, _, _, _) => at + timeout <= d
  {
  }

  /** Under a deadline, no attempt but the first starts unless its timeout fits before the deadline. */
  lemma {:induction false} EndsByDeadline<T(!new)>(job: Job, cfg: Config, env: nat -> Attempt<T>, delays: nat -> real, k: nat, now: real,
                                                   calls: nat, last: Option<Category>, s: ServiceState, d: real, timeout: real)
    requires cfg.Valid() && 1 <= k <= AttemptsAllowed(cfg)
    requires job.timeout == Some(timeout) && job.deadline == Some(d) && Prompt(env, timeout)
    ensures Run(job, cfg, env, delays, k, now, calls, last, s).at <= Max(d, now + timeout)
    decreases AttemptsAllowed(cfg) - k
  {
    assert PromptAt(env(k), timeout);
    PassTimes(job, cfg, env(k), delays(k), k, now, calls, last, s, d, timeout);
    match Pass(job, cfg, env(k), delays(k), k, now, calls, last, s)
    case Over(_) =>
    case On(at, n, category, s1) => EndsByDeadline(job, cfg, env, delays, k + 1, at, n, Some(category), s1, d, timeout);
  }

  lemma {:induction false} BackoffsNonNegative(cfg: Config, k: nat, n: nat)
    requires k >= 1
    ensures BackoffsFrom(cfg, k, n) >= 0.0
    decreases n - k
  {
    if k < n {
      BackoffsNonNegative(cfg, k + 1, n);
    }
  }

  lemma Product(a: real, b: real)
    requires a >= 0.0 && b >= 0.0
    ensures a * b >= 0.0
  {
  }

  lemma FirstFits(cfg: Config, start: real, timeout: real)
    requires timeout >= 0.0
    ensures start + timeout <= SequenceDeadline(start, Some(timeout), cfg).value
  {
    var m := AttemptsAllowed(cfg) as real - 1.0;
    Product(timeout, m);
    assert timeout * (m + 1.0) == timeout + timeout * m;
    BackoffsNonNegative(cfg, 1, AttemptsAllowed(cfg));
  }

  /** The whole sequence ends within timeout times attempts plus the total backoff, whatever delays
      jitter or Retry-After ask for, when each attempt keeps its own timeout. */
  lemma EndsInTime<T(!new)>(job: Job, cfg: Config, env: nat -> Attempt<T>, delays: nat -> real, start: real, s: ServiceState, timeout: real)
    requires cfg.Valid() && job.timeout == Some(timeout) && Prompt(env, timeout)
    requires job.deadline == SequenceDeadline(start, job.timeout, cfg)
    ensures Run(job, cfg, env, delays, 1, start, 0, None, s).at <= job.deadline.value
  {
    assert PromptAt(env(1), timeout);
    FirstFits(cfg, start, timeout);
    EndsByDeadline(job, cfg, env, delays, 1, start, 0, None, s, job.deadline.value, timeout);
  }

  // ------------------------------------------------------------------- when the deadline is inert

  /** No attempt asks for a later retry. */
  ghost predicate Unhurried<T(!new)>(env: nat -> Attempt<T>) {
    forall k :: env(k).retryAfter == None
  }

  lemma DoubledPositive(base: nat, times: nat)
    ensures Doubled(base, times) > 0 <==> base > 0
  {
  }

  /** The delays are the plain backoffs. */
  ghost predicate AsPlanned(cfg: Config, delays: nat -> real) {
    forall k: nat | k >= 1 :: delays(k) == Backoff(cfg, k)
  }

  lemma BackoffSign(cfg: Config, k: nat)
    requires k >= 1
    ensures Backoff(cfg, k) >= 0.0
    ensures Backoff(cfg, k) > 0.0 <==> cfg.initialBackoffMs > 0 && cfg.maxBackoffMs > 0
  {
    DoubledPositive(cfg.initialBackoffMs, k - 1);
  }

  lemma PlainDelays<T(!new)>(cfg: Config, env: nat -> Attempt<T>)
    requires cfg.jitterRatio == 0.0 && Unhurried(env)
    ensures AsPlanned(cfg, Delays(cfg, env))
  {
    forall k: nat | k >= 1 ensures Delays(cfg, env)(k) == Backoff(cfg, k) {
      BackoffSign(cfg, k);
      assert env(k).retryAfter == None;
      assert Jittered(Backoff(cfg, k), 0.0, env(k).sample) == Backoff(cfg, k);
    }
  }

  /** The time still needed at most from the k-th pass on. */
  function Needed(cfg: Config, timeout: real, k: nat): real
    requires 1 <= k <= AttemptsAllowed(cfg)
  {
    timeout * (AttemptsAllowed(cfg) - k + 1) as real + BackoffsFrom(cfg, k, AttemptsAllowed(cfg))
  }

  lemma NeededNext(cfg: Config, timeout: real, k: nat)
    requires 1 <= k < AttemptsAllowed(cfg) && timeout >= 0.0
    ensures Needed(cfg, timeout, k) == timeout + Backoff(cfg, k) + Needed(cfg, timeout, k + 1)
  {
    var m := (AttemptsAllowed(cfg) - k) as real;
    assert timeout * (m + 1.0) == timeout + timeout * m;
  }

  lemma NeededOne(cfg: Config, timeout: real, k: nat)
    requires 1 <= k <= AttemptsAllowed(cfg) && timeout >= 0.0
    ensures Needed(cfg, timeout, k) >= timeout
  {
    var m := (AttemptsAllowed(cfg) - k) as real;
    Product(timeout, m);
    assert timeout * (m + 1.0) == timeout + timeout * m;
    BackoffsNonNegative(cfg, k, AttemptsAllowed(cfg));
  }

  /** A pass that starts before the deadline, with room behind it for its delay and one more attempt,
      is the pass that there would be without a deadline. */
  lemma PassFree<T>(job: Job, cfg: Config, e: Attempt<T>, delay: real, k: nat, now: real, calls: nat, last: Option<Category>,
                    s: ServiceState, d: real, timeout: real)
    requires cfg.Valid() && k >= 1 && job.timeout == Some(timeout) && job.deadline == Some(d) && PromptAt(e, timeout)
    requires now < d && (k < AttemptsAllowed(cfg) ==> 0.0 < delay && now + timeout + delay + timeout <= d)
    ensures var r := Pass(job, cfg, e, delay, k, now, calls, last, s);
            && r == Pass(job.(deadline := None), cfg, e, delay, k, now, calls, last, s)
            && (r.On? ==> r.at <= now + timeout + delay)
  {
  }

  lemma {:induction false} DeadlineInertFrom<T(!new)>(job: Job, cfg: Config, env: nat -> Attempt<T>, delays: nat -> real, k: nat, now: real,
                                                      calls: nat, last: Option<Category>, s: ServiceState, d: real, timeout: real)
    requires cfg.Valid() && 1 <= k <= AttemptsAllowed(cfg) && AsPlanned(cfg, delays)
    requires job.timeout == Some(timeout) && job.deadline == Some(d) && Prompt(env, timeout)
    requires timeout > 0.0 && (AttemptsAllowed(cfg) > 1 ==> cfg.initialBackoffMs > 0 && cfg.maxBackoffMs > 0)
    requires now + Needed(cfg, timeout, k) <= d
    ensures Run(job, cfg, env, delays, k, now, calls, last, s) == Run(job.(deadline := None), cfg, env, delays, k, now, calls, last, s)
    decreases AttemptsAllowed(cfg) - k
  {
    assert PromptAt(env(k), timeout);
    BackoffSign(cfg, k);
    NeededOne(cfg, timeout, k);
    if k < AttemptsAllowed(cfg) {
      NeededNext(cfg, timeout, k);
      NeededOne(cfg, timeout, k + 1);
    }
    PassFree(job, cfg, env(k), delays(k), k, now, calls, last, s, d, timeout);
    match Pass(job, cfg, env(k), delays(k), k, now, calls, last, s)
    case Over(_) =>
    case On(at, n, category, s1) => DeadlineInertFrom(job, cfg, env, delays, k + 1, at, n, Some(category), s1, d, timeout);
  }

  /** The deadline of the sequence gives way to its own budget: with no jitter and no Retry-After, a
      positive timeout and, when there is anything to retry, a positive backoff, a run under the
      deadline is the run without any, call for call and second for second. */
  lemma DeadlineInert<T(!new)>(job: Job, cfg: Config, env: nat -> Attempt<T>, start: real, s: ServiceState, timeout: real)
    requires cfg.Valid() && cfg.jitterRatio == 0.0
    requires job.timeout == Some(timeout) && job.deadline == SequenceDeadline(start, job.timeout, cfg)
    requires Prompt(env, timeout) && Unhurried(env)
    requires timeout > 0.0 && (AttemptsAllowed(cfg) > 1 ==> cfg.initialBackoffMs > 0 && cfg.maxBackoffMs > 0)
    ensures Run(job, cfg, env, Delays(cfg, env), 1, start, 0, None, s) ==
            Run(job.(deadline := None), cfg, env, Delays(cfg, env), 1, start, 0, None, s)
  {
    PlainDelays(cfg, env);
    DeadlineInertFrom(job, cfg, env, Delays(cfg, env), 1, start, 0, None, s, job.deadline.value, timeout);
  }

  /** An operation that always runs into its timeout. */
  function AlwaysTimesOut(timeout: real): nat -> Attempt<int> {
    k => Attempt(true, 0.0, timeout, Raised(TimedOut), 0.5, None)
  }

  function PlainRead(timeout: real, deadline: Option<real>): Job {
    Job(Llm, false, false, false, Some(timeout), deadline)
  }

  /** A pass of such an operation, with or without a deadline. */
  lemma TimeoutPass(cfg: Config, timeout: real, deadline: Option<real>, delay: real, k: nat, now: real, calls: nat,
                    last: Option<Category>, s: ServiceState)
    requires cfg.Valid() && 1 <= k <= AttemptsAllowed(cfg)
    ensures var job := PlainRead(timeout, deadline);
            var room := if deadline.Some? then deadline.value - (now + timeout) - timeout else delay;
            match Pass(job, cfg, AlwaysTimesOut(timeout)(k), delay, k, now, calls, last, s)
            case Over(f) => if TooLate(job, now) then f.calls == calls else f.calls == calls + 1 && (k == AttemptsAllowed(cfg) || (deadline.Some? && room <= 0.0))
            case On(at, n, _, _) => n == calls + 1 && !TooLate(job, now) && (deadline.Some? ==> room > 0.0) && (delay <= room ==> at == now + timeout + delay)
  {
  }

  lemma {:induction false} UnboundedCallsAll(cfg: Config, timeout: real, delays: nat -> real, k: nat, now: real,
                                             last: Option<Category>, s: ServiceState)
    requires cfg.Valid() && 1 <= k <= AttemptsAllowed(cfg)
    ensures Run(PlainRead(timeout, None), cfg, AlwaysTimesOut(timeout), delays, k, now, k - 1, last, s).calls == AttemptsAllowed(cfg)
    decreases AttemptsAllowed(cfg) - k
  {
    TimeoutPass(cfg, timeout, None, delays(k), k, now, k - 1, last, s);
    match Pass(PlainRead(timeout, None), cfg, AlwaysTimesOut(timeout)(k), delays(k), k, now, k - 1, last, s)
    case Over(_) =>
    case On(at, _, category, s1) => UnboundedCallsAll(cfg, timeout, delays, k + 1, at, Some(category), s1);
  }

  lemma {:induction false} DeadlineCutsFrom(cfg: Config, timeout: real, delays: nat -> real, k: nat, now: real,
                                            last: Option<Category>, s: ServiceState, d: real)
    requires cfg.Valid() && 1 <= k <= AttemptsAllowed(cfg) && AsPlanned(cfg, delays) && timeout >= 0.0
    requires timeout == 0.0 || (k < AttemptsAllowed(cfg) && (cfg.initialBackoffMs == 0 || cfg.maxBackoffMs == 0))
    requires d == now + Needed(cfg, timeout, k)
    ensures Run(PlainRead(timeout, Some(d)), cfg, AlwaysTimesOut(timeout), delays, k, now, k - 1, last, s).calls < AttemptsAllowed(cfg)
    decreases AttemptsAllowed(cfg) - k
  {
    var n := AttemptsAllowed(cfg);
    TimeoutPass(cfg, timeout, Some(d), delays(k), k, now, k - 1, last, s);
    if k < n {
      BackoffSign(cfg, k);
      NeededNext(cfg, timeout, k);
      NeededOne(cfg, timeout, k + 1);
    }
    match Pass(PlainRead(timeout, Some(d)), cfg, AlwaysTimesOut(timeout)(k), delays(k), k, now, k - 1, last, s)
    case Over(_) =>
    case On(at, _, category, s1) =>
      if timeout > 0.0 && k + 1 == n {
        assert false;
      }
      DeadlineCutsFrom(cfg, timeout, delays, k + 1, at, Some(category), s1, d);
  }

  /** Both conditions are needed: with a timeout of zero, or with something to retry and a backoff of
      zero, an operation that always runs into its timeout loses a call to the deadline; with a
      single attempt and a timeout of zero, its only one. */
  lemma DeadlineCanCut(cfg: Config, timeout: real, start: real, s: ServiceState)
    requires cfg.Valid() && cfg.jitterRatio == 0.0 && timeout >= 0.0
    requires timeout == 0.0 || (AttemptsAllowed(cfg) > 1 && (cfg.initialBackoffMs == 0 || cfg.maxBackoffMs == 0))
    ensures var env, d := AlwaysTimesOut(timeout), SequenceDeadline(start, Some(timeout), cfg);
            && Prompt(env, timeout) && Unhurried(env)
            && Run(PlainRead(timeout, d), cfg, env, Delays(cfg, env), 1, start, 0, None, s).calls <
               Run(PlainRead(timeout, None), cfg, env, Delays(cfg, env), 1, start, 0, None, s).calls
  {
    var env := AlwaysTimesOut(timeout);
    PlainDelays(cfg, env);
    UnboundedCallsAll(cfg, timeout, Delays(cfg, env), 1, start, None, s);
    DeadlineCutsFrom(cfg, timeout, Delays(cfg, env), 1, start, None, s, SequenceDeadline(start, Some(timeout), cfg).value);
  }

  // ------------------------------------------------------------------- circuit breaker and budget

  /** The probes under way after a pass or a sequence that found none: one when the operation was aborted
      while half open. */
  predicate ProbesLeft<T>(job: Job, cfg: Config, ending: Ending<T>, c: Circuit) {
    CircuitOk(c, cfg) && c.inFlight == if job.controlled && ending.Abandoned? && c.state == HalfOpen then 1 else 0
  }

  lemma PassCircuit<T>(job: Job, cfg: Config, e: Attempt<T>, delay: real, k: nat, now: real, calls: nat, last: Option<Category>, s: ServiceState)
    requires cfg.Valid() && k >= 1 && CircuitOk(s.circuit, cfg) && s.circuit.inFlight == 0
    ensures match Pass(job, cfg, e, delay, k, now, calls, last, s)
            case Over(f) => ProbesLeft(job, cfg, f.ending, f.service.circuit)
            case On(_, _, _, s1) => CircuitOk(s1.circuit, cfg) && s1.circuit.inFlight == 0
  {
    if !TooLate(job, now) {
      TryCircuit(job, cfg, e, s, now);
    }
  }

  lemma TryCircuit<T>(job: Job, cfg: Config, e: Attempt<T>, s: ServiceState, now: real)
    requires cfg.Valid() && CircuitOk(s.circuit, cfg) && s.circuit.inFlight == 0
    ensures var t := TryCall(job, cfg, e, s, now);
            && CircuitOk(t.service.circuit, cfg)
            && t.service.circuit.inFlight == if job.controlled && t.called && t.service.circuit.state == HalfOpen then 1 else 0
  {
  }

  /** Calls that do not overlap leave no probe behind, so that the next one is refused by the circuit
      only before its recovery time is over; with one exception: an operation that is aborted while
      half open leaves its own. */
  lemma {:induction false} NoProbeIsLeft<T>(job: Job, cfg: Config, env: nat -> Attempt<T>, delays: nat -> real, k: nat, now: real,
                                            calls: nat, last: Option<Category>, s: ServiceState, later: real)
    requires cfg.Valid() && 1 <= k <= AttemptsAllowed(cfg) && CircuitOk(s.circuit, cfg) && s.circuit.inFlight == 0
    ensures var r := Run(job, cfg, env, delays, k, now, calls, last, s);
            var c := r.service.circuit;
            && ProbesLeft(job, cfg, r.ending, c)
            && (c.inFlight == 0 <==> !(job.controlled && r.ending.Abandoned? && c.state == HalfOpen))
            && (c.inFlight == 0 ==> (Entered(c, cfg, later).1 <==> !(c.state == Open && later < c.openedAt + cfg.recovery)))
    decreases AttemptsAllowed(cfg) - k
  {
    PassCircuit(job, cfg, env(k), delays(k), k, now, calls, last, s);
    match Pass(job, cfg, env(k), delays(k), k, now, calls, last, s)
    case Over(_) =>
    case On(at, n, category, s1) => NoProbeIsLeft(job, cfg, env, delays, k + 1, at, n, Some(category), s1, later);
  }

  /** The retry budget's queue stands for the retries granted. */
  ghost predicate Budgeted(cfg: Config, s: ServiceState, h: seq<real>, clock: real) {
    Refines(s.retries, h, cfg.budgetWindow, cfg.budgetAttempts, clock)
  }

  lemma BudgetedLater(cfg: Config, s: ServiceState, h: seq<real>, clock: real, later: real)
    requires Budgeted(cfg, s, h, clock) && clock <= later
    ensures Budgeted(cfg, s, h, later)
  {
    RefinesLater(s.retries, h, cfg.budgetWindow, cfg.budgetAttempts, clock, later);
  }

  lemma TakeBudget(cfg: Config, s: ServiceState, h: seq<real>, clock: real, now: real)
    requires cfg.Valid() && Budgeted(cfg, s, h, clock) && clock <= now
    ensures var (left, v) := Take(s.retries, cfg.budgetWindow, cfg.budgetAttempts, now);
            Budgeted(cfg, s.(retries := left), if v == Admitted then h + [now] else h, now)
  {
    TakeRefines(s.retries, h, cfg.budgetWindow, cfg.budgetAttempts, clock, now);
  }

  lemma DelayNonNegative(cfg: Config, k: nat, sample: real, retryAfter: Option<real>)
    requires k >= 1
    ensures RetryDelay(cfg, k, sample, retryAfter) >= 0.0
  {
  }

  /** What a pass does to the budget: its queue is as it was, or as one more request left it. */
  lemma PassBudget<T>(job: Job, cfg: Config, e: Attempt<T>, delay: real, k: nat, now: real, calls: nat, last: Option<Category>, s: ServiceState)
    returns (t: real)
    requires cfg.Valid() && k >= 1 && job.controlled && e.waited >= 0.0 && e.took >= 0.0 && delay >= 0.0
    ensures now <= t
    ensures var (left, v) := Take(s.retries, cfg.budgetWindow, cfg.budgetAttempts, t);
            match Pass(job, cfg, e, delay, k, now, calls, last, s)
            case Over(f) => f.at == t && f.service.retries in {s.retries, left}
            case On(at, _, _, s1) => t <= at && v == Admitted && s1.retries == left
  {
    t := if TooLate(job, now) then now else TryCall(job, cfg, e, s, now).at;
  }

  /** The history gains what one pass was granted. */
  lemma PassGranted<T>(job: Job, cfg: Config, e: Attempt<T>, delay: real, k: nat, now: real, calls: nat, last: Option<Category>,
                       s: ServiceState, h: seq<real>)
    returns (granted: seq<real>)
    requires cfg.Valid() && k >= 1 && job.controlled && e.waited >= 0.0 && e.took >= 0.0 && delay >= 0.0
    requires Budgeted(cfg, s, h, now)
    ensures match Pass(job, cfg, e, delay, k, now, calls, last, s)
            case Over(f) => Budgeted(cfg, f.service, h + granted, f.at)
            case On(at, _, _, s1) => |granted| == 1 && Budgeted(cfg, s1, h + granted, at)
  {
    var t := PassBudget(job, cfg, e, delay, k, now, calls, last, s);
    var (left, v) := Take(s.retries, cfg.budgetWindow, cfg.budgetAttempts, t);
    var taken := s.(retries := left);
    TakeBudget(cfg, s, h, now, t);
    BudgetedLater(cfg, s, h, now, t);
    assert h + [] == h;
    match Pass(job, cfg, e, delay, k, now, calls, last, s)
    case Over(f) =>
      if f.service.retries == s.retries {
        granted := [];
        BudgetQueue(cfg, s, f.service, h, t);
      } else {
        granted := if v == Admitted then [t] else [];
        BudgetQueue(cfg, taken, f.service, h + granted, t);
      }
    case On(at, _, _, s1) =>
      granted := [t];
      BudgetQueue(cfg, taken, s1, h + granted, t);
      BudgetedLater(cfg, s1, h + granted, t, at);
  }

  lemma {:induction false} RetriesGranted<T>(job: Job, cfg: Config, env: nat -> Attempt<T>, delays: nat -> real, k: nat, now: real,
                                             calls: nat, last: Option<Category>, s: ServiceState, h: seq<real>)
    returns (granted: seq<real>)
    requires cfg.Valid() && 1 <= k <= AttemptsAllowed(cfg) && job.controlled && Budgeted(cfg, s, h, now)
    requires forall j :: env(j).waited >= 0.0 && env(j).took >= 0.0
    requires forall j :: delays(j) >= 0.0
    ensures var r := Run(job, cfg, env, delays, k, now, calls, last, s);
            Budgeted(cfg, r.service, h + granted, r.at) && r.passes - k <= |granted|
    decreases AttemptsAllowed(cfg) - k
  {
    granted := PassGranted(job, cfg, env(k), delays(k), k, now, calls, last, s, h);
    PassPasses(job, cfg, env(k), delays(k), k, now, calls, last, s);
    match Pass(job, cfg, env(k), delays(k), k, now, calls, last, s)
    case Over(_) =>
    case On(at, n, category, s1) =>
      var rest := RetriesGranted(job, cfg, env, delays, k + 1, at, n, Some(category), s1, h + granted);
      assert h + (granted + rest) == h + granted + rest;
      granted := granted + rest;
  }

  lemma PassPasses<T>(job: Job, cfg: Config, e: Attempt<T>, delay: real, k: nat, now: real, calls: nat, last: Option<Category>, s: ServiceState)
    requires cfg.Valid() && k >= 1
    ensures var r := Pass(job, cfg, e, delay, k, now, calls, last, s); r.Over? ==> r.finished.passes <= k
  {
  }

  lemma BudgetQueue(cfg: Config, s: ServiceState, s1: ServiceState, h: seq<real>, clock: real)
    requires Budgeted(cfg, s, h, clock) && s1.retries == s.retries
    ensures Budgeted(cfg, s1, h, clock)
  {
  }

  /** Across all sequences of a service: the budget's queue goes on standing for every retry granted,
      each pass after the first was granted one, and so no window holds more retries than the
      budget. */
  lemma RetriesWithinBudget<T>(job: Job, cfg: Config, env: nat -> Attempt<T>, start: real, s: ServiceState, h: seq<real>, from: real)
    returns (granted: seq<real>)
    requires cfg.Valid() && job.controlled && Budgeted(cfg, s, h, start)
    requires forall j :: env(j).waited >= 0.0 && env(j).took >= 0.0
    ensures var r := Run(job, cfg, env, Delays(cfg, env), 1, start, 0, None, s);
            && Budgeted(cfg, r.service, h + granted, r.at)
            && r.calls - 1 <= r.passes - 1 <= |granted|
            && |Within(h + granted, from, from + cfg.budgetWindow)| <= cfg.budgetAttempts
  {
    forall j ensures Delays(cfg, env)(j) >= 0.0 {
      if j >= 1 {
        DelayNonNegative(cfg, j, env(j).sample, env(j).retryAfter);
      }
    }
    granted := RetriesGranted(job, cfg, env, Delays(cfg, env), 1, start, 0, None, s, h);
    CallsExact(job, cfg, env, Delays(cfg, env), 1, start, None, s);
    WindowBound(h + granted, cfg.budgetWindow, cfg.budgetAttempts, Run(job, cfg, env, Delays(cfg, env), 1, start, 0, None, s).at, from);
  }
}
