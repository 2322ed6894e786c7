/** The deadline-aware retry loop (resilience/retry.py) and the classification of failures that
    drives it (resilience/classification.py). Time passes only while a call waits or runs and while
    the loop sleeps; sleeps are exact. */
module Retry {
  import opened Domain
  import opened Windows
  import opened Control

  // ------------------------------------------------------------------------------ classification

  datatype Category =
    | LlmTimeout | LlmUnavailable | LlmMalformedOutput | DatabaseTransient | DatabaseUnavailable
    | ToolTimeout | ToolTransientFailure | ToolPermanentFailure | RetrievalTimeout | RetrievalUnavailable
    | RetrievalEmpty | RerankerFailure | EmbeddingFailure | PolicyFailure | MemoryFailure
    | UnknownDependencyFailure | CircuitOpen | BulkheadRejected | RateLimited | BudgetSpent

  datatype Dependency = Llm | Retrieval | ToolCall | Database | Memory | Policy | OtherDependency

  /** What an operation raises, by the class that decides; the unknown outcome of a write is apart. */
  datatype Failure =
    | Classified(category: Category)   // a resilience error, which carries its category
    | TimedOut
    | BadValue
    | DatabaseError
    | BusinessError
    | OtherError

  /** `classify_failure`. */
  function Classify(f: Failure, dependency: Dependency, write: bool): Category {
    match f
    case Classified(c) => c
    case TimedOut =>
      (match dependency
       case Llm => LlmTimeout
       case Retrieval => RetrievalTimeout
       case ToolCall => ToolTimeout
       case _ => UnknownDependencyFailure)
    case _ =>
      if f == BadValue && dependency == Llm then LlmMalformedOutput
      else if f == BadValue && dependency == ToolCall then ToolPermanentFailure
      else if f == DatabaseError then if dependency == Database then DatabaseUnavailable else DatabaseTransient
      else if f == BusinessError then ToolPermanentFailure
      else match dependency
        case Retrieval => RetrievalUnavailable
        case Memory => MemoryFailure
        case Policy => PolicyFailure
        case Llm => LlmUnavailable
        case ToolCall => if write then ToolPermanentFailure else ToolTransientFailure
        case _ => UnknownDependencyFailure
  }

  /** `is_retryable`. */
  predicate IsRetryable(c: Category, write: bool) {
    !write && c in {LlmTimeout, LlmUnavailable, DatabaseTransient, DatabaseUnavailable, ToolTimeout,
                    ToolTransientFailure, RetrievalTimeout, RetrievalUnavailable, EmbeddingFailure}
  }

  // ------------------------------------------------------------------------- backoff and deadline

  function AttemptsAllowed(cfg: Config): (n: nat)
    ensures n >= 1
  {
    if cfg.enabled then cfg.maxRetries + 1 else 1
  }

  function Doubled(base: nat, times: nat): nat {
    if times == 0 then base else 2 * Doubled(base, times - 1)
  }

  /** The backoff after the k-th attempt, in seconds. */
  function Backoff(cfg: Config, k: nat): real
    requires k >= 1
  {
    var ms := Doubled(cfg.initialBackoffMs, k - 1);
    (if ms < cfg.maxBackoffMs then ms else cfg.maxBackoffMs) as real / 1000.0
  }

  /** The backoffs after the attempts k, ..., n - 1. */
  function BackoffsFrom(cfg: Config, k: nat, n: nat): real
    requires k >= 1
    decreases n - k
  {
    if k >= n then 0.0 else Backoff(cfg, k) + BackoffsFrom(cfg, k + 1, n)
  }

  /** `_sequence_deadline`: the timeout for every attempt, and every backoff between them. */
  function SequenceDeadline(started: real, timeout: Option<real>, cfg: Config): Option<real> {
    match timeout
    case None => None
    case Some(t) => Some(started + t * AttemptsAllowed(cfg) as real + BackoffsFrom(cfg, 1, AttemptsAllowed(cfg)))
  }

  function Max(a: real, b: real): real { if a < b then b else a }

  function Min(a: real, b: real): real { if b < a then b else a }

  /** The backoff with its jitter; `sample` is the random number. */
  function Jittered(base: real, ratio: real, sample: real): (r: real)
    ensures r >= 0.0
  {
    var jittered := base * (1.0 + ratio * (2.0 * Min(1.0, Max(0.0, sample)) - 1.0));
    if jittered > 0.0 then jittered else 0.0
  }

  /** `_retry_delay`; `retryAfter` is what the error asks for (section 10.2.3 of RFC 9110), None when
      it asks for nothing. */
  function RetryDelay(cfg: Config, k: nat, sample: real, retryAfter: Option<real>): real
    requires k >= 1
  {
    var jittered := Jittered(Backoff(cfg, k), cfg.jitterRatio, sample);
    match retryAfter
    case None => jittered
    case Some(r) => Max(jittered, Min(r, cfg.maxRetryAfter))
  }

  // ------------------------------------------------------------------------------- one attempt

  /** How an operation ends; it is aborted by what is no `Exception`, such as an interrupt or the end of
      the process, which no handler of the loop catches. */
  datatype Outcome<T> = Answered(value: T) | UnknownWrite | Raised(failure: Failure) | Aborted

  /** What the environment does with one attempt. */
  datatype Attempt<T> = Attempt(
    acquired: bool,             // the bulkhead let it in
    waited: real,
    took: real,
    outcome: Outcome<T>,        // of the operation, when it is called
    sample: real,
    retryAfter: Option<real>)

  datatype Job = Job(
    dependency: Dependency,
    write: bool,
    controlled: bool,           // a controller was given
    rateLimited: bool,          // provider_rate_limit
    timeout: Option<real>,
    deadline: Option<real>)     // the effective one

  /** What the controller keeps for this service. */
  datatype ServiceState = ServiceState(circuit: Circuit, retries: seq<real>, provider: seq<real>)

  /** One try: whether the operation was called, how it ended, and when. */
  datatype Tried<T> = Tried(service: ServiceState, called: bool, outcome: Outcome<T>, at: real)

  function TryCall<T>(job: Job, cfg: Config, e: Attempt<T>, s: ServiceState, now: real): Tried<T>
    requires cfg.Valid()
  {
    var begun, done := now + e.waited, now + e.waited + e.took;
    if !job.controlled then Tried(s, true, e.outcome, done)
    else if !e.acquired then Tried(s, false, Raised(Classified(BulkheadRejected)), begun)
    else
      var (c, allowed) := Entered(s.circuit, cfg, begun);
      if !allowed then Tried(s.(circuit := c), false, Raised(Classified(Category.CircuitOpen)), begun)
      else if !job.rateLimited then Tried(s.(circuit := c), true, e.outcome, done)
      else
        var (left, v) := Take(s.provider, cfg.rateWindow, cfg.providerLimit, begun);
        if v.Refused? then Tried(s.(circuit := Cancelled(c), provider := left), false, Raised(Classified(RateLimited)), begun)
        else Tried(s.(circuit := c, provider := left), true, e.outcome, done)
  }

  datatype Ending<T> =
    | Returned(value: T)
    | UnknownOutcome
    | Propagated(failure: Failure)
    | Exhausted(category: Category, attempts: nat)
    | BudgetExhausted
    | Abandoned

  datatype Decision<T> = Stop(ending: Ending<T>) | Again(delay: real, category: Category)

  /** What follows a failed try: the circuit is told, the budget is asked, the deadline is kept. */
  function Handle<T>(job: Job, cfg: Config, delay: real, k: nat, t: Tried<T>, attempts: nat): (ServiceState, Decision<T>)
    requires cfg.Valid() && k >= 1 && t.outcome.Raised?
  {
    var f := t.outcome.failure;
    var category := Classify(f, job.dependency, job.write);
    var safe := IsRetryable(category, job.write);
    var told := job.controlled && t.called && (safe || t.service.circuit.state == HalfOpen);
    var s := if told then t.service.(circuit := Struck(t.service.circuit, cfg, t.at)) else t.service;
    if !safe then (s, Stop(Propagated(f)))
    else if k >= AttemptsAllowed(cfg) then (s, Stop(Exhausted(category, attempts)))
    else
      var (left, v) := if job.controlled then Take(s.retries, cfg.budgetWindow, cfg.budgetAttempts, t.at) else (s.retries, Admitted);
      var s1 := s.(retries := left);
      if v.Refused? then (s1, Stop(BudgetExhausted))
      else (s1, Paced(job, delay, t.at, category, attempts))
  }

  /** The deadline leaves room for one more attempt, or there is none. */
  function Paced<T>(job: Job, delay: real, at: real, category: Category, attempts: nat): Decision<T> {
    match job.deadline
    case None => Again(delay, category)
    case Some(d) =>
      var room := d - at - (if job.timeout.Some? then job.timeout.value else 0.0);
      if room <= 0.0 then Stop(Exhausted(category, attempts))
      else if delay > room then Again(Max(0.0, room), category)
      else Again(delay, category)
  }

  /** How a sequence ended: when, after how many calls and how many passes through the loop. */
  datatype Finished<T> = Finished(ending: Ending<T>, at: real, calls: nat, passes: nat, service: ServiceState)

  predicate TooLate(job: Job, now: real) {
    job.deadline.Some? && now >= job.deadline.value
  }

  /** One pass through the loop: it is over, or goes on at a later time. */
  datatype Passed<T> = Over(finished: Finished<T>) | On(at: real, calls: nat, category: Category, service: ServiceState)

  function Pass<T>(job: Job, cfg: Config, e: Attempt<T>, delay: real, k: nat, now: real, calls: nat, last: Option<Category>, s: ServiceState)
    : (r: Passed<T>)
    requires cfg.Valid() && k >= 1
    ensures r.On? ==> k < AttemptsAllowed(cfg)
  {
    if TooLate(job, now) then
      Over(Finished(Exhausted(if last.Some? then last.value else UnknownDependencyFailure, calls), now, calls, k - 1, s))
    else
      var t := TryCall(job, cfg, e, s, now);
      var n := if t.called then calls + 1 else calls;
      match t.outcome
      case Answered(v) =>
        Over(Finished(Returned(v), t.at, n, k, if job.controlled then t.service.(circuit := Recovered(t.service.circuit)) else t.service))
      case UnknownWrite =>
        Over(Finished(UnknownOutcome, t.at, n, k,
                      if job.controlled then t.service.(circuit := Struck(t.service.circuit, cfg, t.at)) else t.service))
      case Aborted => Over(Finished(Abandoned, t.at, n, k, t.service))
      case Raised(_) =>
        var (s1, d) := Handle(job, cfg, delay, k, t, n);
        match d
        case Stop(ending) => Over(Finished(ending, t.at, n, k, s1))
        case Again(wait, category) => On(t.at + wait, n, category, s1)
  }

  /** The delays that the environment's attempts call for. */
  function Delays<T>(cfg: Config, env: nat -> Attempt<T>): nat -> real {
    (k: nat) => if k == 0 then 0.0 else RetryDelay(cfg, k, env(k).sample, env(k).retryAfter)
  }

  /** `run_with_retry` from its k-th pass on. */
  function Run<T>(job: Job, cfg: Config, env: nat -> Attempt<T>, delays: nat -> real, k: nat, now: real, calls: nat,
                  last: Option<Category>, s: ServiceState): Finished<T>
    requires cfg.Valid() && 1 <= k <= AttemptsAllowed(cfg)
    decreases AttemptsAllowed(cfg) - k
  {
    match Pass(job, cfg, env(k), delays(k), k, now, calls, last, s)
    case Over(f) => f
    case On(at, n, category, s1) => Run(job, cfg, env, delays, k + 1, at, n, Some(category), s1)
  }

  // ---------------------------------------------------------------------------------- the loop

  /** The controller's view of one service. */
  function ServiceOf(c: ReliabilityController, id: string): ServiceState
    reads c
  {
    ServiceState(CircuitOf(c.circuits, id), EventsOf(c.retries, id), EventsOf(c.rates, (LimitScope.Provider, id)))
  }

  /** One attempt up to the end of the operation. */
  method TryOnce<T>(c: ReliabilityController, job: Job, e: Attempt<T>, id: string, now: real)
    returns (called: bool, outcome: Outcome<T>, at: real)
    requires c.cfg.Valid()
    modifies c
    ensures TryCall(job, c.cfg, e, old(ServiceOf(c, id)), now) == Tried(ServiceOf(c, id), called, outcome, at)
    ensures OthersKept(old(c.circuits), c.circuits, old(c.retries), c.retries, old(c.rates), c.rates, id)
  {
    if !job.controlled {
      return true, e.outcome, now + e.waited + e.took;
    }
    at := now + e.waited;
    if !e.acquired {
      return false, Raised(Classified(BulkheadRejected)), at;
    }
    var allowed := c.BeforeCall(id, at);
    if !allowed {
      return false, Raised(Classified(Category.CircuitOpen)), at;
    }
    if job.rateLimited {
      var v := c.ConsumeRateLimit((LimitScope.Provider, id), at);
      if v.Refused? {
        c.CancelCall(id);
        return false, Raised(Classified(RateLimited)), at;
      }
    }
    called, outcome, at := true, e.outcome, at + e.took;
  }

  /** Nothing of any other service changes. */
  ghost predicate OthersKept(circuits: map<string, Circuit>, circuits': map<string, Circuit>, retries: map<string, seq<real>>,
                             retries': map<string, seq<real>>, rates: map<Key, seq<real>>, rates': map<Key, seq<real>>, id: string) {
    && (forall k | k != id :: CircuitOf(circuits', k) == CircuitOf(circuits, k))
    && (forall k | k != id :: EventsOf(retries', k) == EventsOf(retries, k))
    && (forall k: Key | k != (LimitScope.Provider, id) :: EventsOf(rates', k) == EventsOf(rates, k))
  }

  /** The handler of a failed attempt. */
  method HandleFailure<T>(c: ReliabilityController, job: Job, delay: real, k: nat, ghost t: Tried<T>, f: Failure,
                          called: bool, attempts: nat, at: real, id: string)
    returns (d: Decision<T>)
    requires c.cfg.Valid() && k >= 1
    requires t == Tried(ServiceOf(c, id), called, Raised(f), at)
    modifies c
    ensures (ServiceOf(c, id), d) == Handle(job, c.cfg, delay, k, t, attempts)
    ensures OthersKept(old(c.circuits), c.circuits, old(c.retries), c.retries, old(c.rates), c.rates, id)
  {
    var category := Classify(f, job.dependency, job.write);
    var safe := IsRetryable(category, job.write);
    if job.controlled && called && (safe || CircuitOf(c.circuits, id).state == HalfOpen) {
      c.RecordFailure(id, at);
    }
    var retry := k < AttemptsAllowed(c.cfg) && safe;
    var wait := delay;
    var spent := false;
    if retry && job.controlled {
      var granted := c.ConsumeRetryBudget(id, at);
      retry, spent := granted, !granted;
    }
    if retry && job.deadline.Some? {
      var room := job.deadline.value - at - (if job.timeout.Some? then job.timeout.value else 0.0);
      if room <= 0.0 {
        retry := false;
      } else if wait > room {
        wait := Max(0.0, room);
      }
    }
    if retry {
      return Again(wait, category);
    }
    if !safe {
      return Stop(Propagated(f));
    }
    d := Stop(if spent then BudgetExhausted else Exhausted(category, attempts));
  }

  /** One pass through the loop. */
  method RunPass<T>(c: ReliabilityController, job: Job, e: Attempt<T>, delay: real, k: nat, id: string, now: real,
                    started: nat, last: Option<Category>)
    returns (over: bool, ending: Ending<T>, category: Category, at: real, calls: nat)
    requires c.cfg.Valid() && k >= 1
    modifies c
    ensures match Pass(job, c.cfg, e, delay, k, now, started, last, old(ServiceOf(c, id)))
            case Over(f) => over && ending == f.ending && at == f.at && calls == f.calls && ServiceOf(c, id) == f.service
            case On(t, n, g, s) => !over && category == g && at == t && calls == n && ServiceOf(c, id) == s
    ensures OthersKept(old(c.circuits), c.circuits, old(c.retries), c.retries, old(c.rates), c.rates, id)
  {
    over, category, at, calls := true, UnknownDependencyFailure, now, started;
    if TooLate(job, now) {
      ending := Exhausted(if last.Some? then last.value else UnknownDependencyFailure, calls);
      return;
    }
    ghost var t := TryCall(job, c.cfg, e, ServiceOf(c, id), now);
    var called, outcome;
    called, outcome, at := TryOnce(c, job, e, id, now);
    if called {
      calls := calls + 1;
    }
    match outcome {
      case Answered(v) =>
        if job.controlled {
          c.RecordSuccess(id);
        }
        ending := Returned(v);
      case UnknownWrite =>
        if job.controlled {
          c.RecordFailure(id, at);
        }
        ending := UnknownOutcome;
      case Aborted => ending := Abandoned;
      case Raised(f) =>
        var d := HandleFailure(c, job, delay, k, t, f, called, calls, at, id);
        if d.Stop? {
          ending := d.ending;
        } else {
          over, ending, category, at := false, UnknownOutcome, d.category, at + d.delay;
        }
    }
  }

  /** `run_with_retry`; `env` is what the environment does with each attempt, and `c` the controller,
      which is left alone when none was given. */
  method RunWithRetry<T>(c: ReliabilityController, job: Job, env: nat -> Attempt<T>, id: string, start: real)
    returns (ending: Ending<T>, at: real, calls: nat)
    requires c.cfg.Valid()
    modifies c
    ensures var r := Run(job, c.cfg, env, Delays(c.cfg, env), 1, start, 0, None, old(ServiceOf(c, id)));
            ending == r.ending && at == r.at && calls == r.calls && ServiceOf(c, id) == r.service
    ensures OthersKept(old(c.circuits), c.circuits, old(c.retries), c.retries, old(c.rates), c.rates, id)
  {
    var last: Option<Category>, delays := None, Delays(c.cfg, env);
    calls, at := 0, start;
    ghost var r := Run(job, c.cfg, env, delays, 1, start, 0, None, ServiceOf(c, id));
    var k := 1;
    while k <= AttemptsAllowed(c.cfg)
      invariant 1 <= k <= AttemptsAllowed(c.cfg)
      invariant r == Run(job, c.cfg, env, delays, k, at, calls, last, ServiceOf(c, id))
      invariant OthersKept(old(c.circuits), c.circuits, old(c.retries), c.retries, old(c.rates), c.rates, id)
    {
      var over, category;
      over, ending, category, at, calls := RunPass(c, job, env(k), delays(k), k, id, at, calls, last);
      if over {
        return;
      }
      last, k := Some(category), k + 1;
    }
    assert false;   // the code after the loop is never reached
  }
}
