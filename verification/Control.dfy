/** The reliability controls of one replica: circuit breakers, the retry budget and the request
    limiters (resilience/control.py). Every method of the class is one critical section. */
module Control {
  import opened Windows

  /** The settings, in the ranges the application's configuration declares. */
  datatype Config = Config(
    enabled: bool,
    maxRetries: nat,
    initialBackoffMs: nat,
    maxBackoffMs: nat,
    jitterRatio: real,
    budgetAttempts: nat,
    budgetWindow: real,
    maxRetryAfter: real,
    threshold: nat,
    recovery: real,
    probes: nat,               // the attempts allowed at once while half open
    principalLimit: nat,
    customerLimit: nat,
    providerLimit: nat,
    rateWindow: real)
  {
    predicate Valid() {
      && 0.0 <= jitterRatio <= 1.0 && maxRetryAfter >= 0.0
      && budgetAttempts > 0 && budgetWindow > 0.0
      && threshold > 0 && recovery > 0.0 && probes > 0
      && principalLimit > 0 && customerLimit > 0 && providerLimit > 0 && rateWindow > 0.0
    }
  }

  // -------------------------------------------------------------------------------- the circuit

  datatype CircuitState = Closed | Open | HalfOpen

  datatype Circuit = Circuit(state: CircuitState, failures: nat, openedAt: real, inFlight: nat, recoveries: nat)

  const FRESH := Circuit(Closed, 0, 0.0, 0, 0)

  /** `before_call`; false is the refusal. */
  function Entered(c: Circuit, cfg: Config, now: real): (Circuit, bool) {
    if c.state == Open && now - c.openedAt < cfg.recovery then (c, false)
    else
      var d := if c.state == Open then c.(state := HalfOpen, inFlight := 0) else c;
      if d.state == HalfOpen then
        if d.inFlight >= cfg.probes then (d, false) else (d.(inFlight := d.inFlight + 1, recoveries := d.recoveries + 1), true)
      else (d, true)
  }

  function Recovered(c: Circuit): Circuit {
    c.(state := Closed, failures := 0, inFlight := 0)
  }

  /** `cancel_call`: a probe that made no call is given back. */
  function Cancelled(c: Circuit): Circuit {
    if c.state == HalfOpen && c.inFlight > 0 then c.(inFlight := c.inFlight - 1) else c
  }

  function Tripped(c: Circuit, now: real): Circuit {
    c.(state := Open, openedAt := now, inFlight := 0)
  }

  /** `record_failure`. */
  function Struck(c: Circuit, cfg: Config, now: real): Circuit {
    if c.state == HalfOpen then Tripped(c, now)
    else
      var d := c.(failures := c.failures + 1);
      if d.failures >= cfg.threshold then Tripped(d, now) else d
  }

  /** Closed means fewer failures than the threshold, in both directions; probes are counted only
      while half open, and never more than allowed. */
  predicate CircuitOk(c: Circuit, cfg: Config) {
    && (c.state == Closed <==> c.failures < cfg.threshold)
    && c.inFlight <= cfg.probes
    && (c.inFlight > 0 ==> c.state == HalfOpen)
  }

  datatype Op = Enter(now: real) | Success | Cancel | Failure(now: real)

  function Apply(c: Circuit, cfg: Config, op: Op): Circuit {
    match op
    case Enter(now) => Entered(c, cfg, now).0
    case Success => Recovered(c)
    case Cancel => Cancelled(c)
    case Failure(now) => Struck(c, cfg, now)
  }

  /** Any interleaving of the critical sections of any callers. */
  function After(cfg: Config, ops: seq<Op>): Circuit {
    if ops == [] then FRESH else Apply(After(cfg, ops[..|ops| - 1]), cfg, ops[|ops| - 1])
  }

  /** The failures recorded since the last success. */
  function FailuresSince(ops: seq<Op>): nat {
    if ops == [] || ops[|ops| - 1] == Success then 0
    else FailuresSince(ops[..|ops| - 1]) + if ops[|ops| - 1].Failure? then 1 else 0
  }

  /** Those of them that were recorded while half open. */
  function FailedProbes(cfg: Config, ops: seq<Op>): nat {
    if ops == [] || ops[|ops| - 1] == Success then 0
    else
      var before := ops[..|ops| - 1];
      FailedProbes(cfg, before) + if ops[|ops| - 1].Failure? && After(cfg, before).state == HalfOpen then 1 else 0
  }

  /** After any interleaving: the state is closed exactly when the count is below the threshold, and
      the count falls short of the failures since the last success by exactly the failed probes. So
      the two agree exactly when no probe has failed since. */
  lemma {:induction false} CircuitExact(cfg: Config, ops: seq<Op>)
    requires cfg.Valid()
    ensures var c := After(cfg, ops);
            CircuitOk(c, cfg) && c.failures + FailedProbes(cfg, ops) == FailuresSince(ops)
    ensures After(cfg, ops).failures == FailuresSince(ops) <==> FailedProbes(cfg, ops) == 0
  {
    if ops != [] {
      CircuitExact(cfg, ops[..|ops| - 1]);
    }
  }

  /** One failed probe already makes the count differ. */
  lemma FailedProbeIsNotCounted(cfg: Config)
    requires cfg.Valid() && cfg.threshold == 1
    ensures var ops := [Failure(0.0), Enter(cfg.recovery), Failure(cfg.recovery)];
            After(cfg, ops).failures == 1 && FailuresSince(ops) == 2
  {
    var ops := [Failure(0.0), Enter(cfg.recovery), Failure(cfg.recovery)];
    assert ops[..2] == [Failure(0.0), Enter(cfg.recovery)];
    assert ops[..2][..1] == [Failure(0.0)] && ops[..2][..1][..0] == [];
    assert After(cfg, ops[..2][..1]) == Struck(FRESH, cfg, 0.0);
    assert FailuresSince(ops[..2][..1]) == 1;
    assert FailuresSince(ops[..2]) == 1;
  }

  /** When a call is let through. With no probe under way it is refused only while the circuit is
      open and its recovery time has not passed: it never stays blocked longer. */
  lemma EnteredExact(c: Circuit, cfg: Config, now: real)
    requires cfg.Valid() && CircuitOk(c, cfg)
    ensures Entered(c, cfg, now).1 <==>
            match c.state
            case Closed => true
            case Open => now >= c.openedAt + cfg.recovery
            case HalfOpen => c.inFlight < cfg.probes
    ensures c.inFlight == 0 && now >= c.openedAt + cfg.recovery ==> Entered(c, cfg, now).1
    ensures Entered(c, cfg, now).1 ==> Cancelled(Entered(c, cfg, now).0).inFlight == c.inFlight
  {
  }

  // -------------------------------------------------------------------------- the request limits

  datatype LimitScope = Principal | Customer | Provider

  type Key = (LimitScope, string)

  /** A missing queue is an empty one. */
  function EventsOf<K>(m: map<K, seq<real>>, k: K): seq<real> {
    if k in m then m[k] else []
  }

  function LimitOf(cfg: Config, scope: LimitScope): nat {
    match scope
    case Principal => cfg.principalLimit
    case Customer => cfg.customerLimit
    case Provider => cfg.providerLimit
  }

  function Consumed(rates: map<Key, seq<real>>, cfg: Config, key: Key, now: real): (map<Key, seq<real>>, Verdict)
    requires cfg.Valid()
  {
    var (left, v) := Take(EventsOf(rates, key), cfg.rateWindow, LimitOf(cfg, key.0), now);
    (rates[key := left], v)
  }

  datatype RequestVerdict = Accepted | Rejected(scope: LimitScope, retryAfter: real)

  /** `enforce_request_limits` with no other request in between: `t` and `u` are its two readings of
      the clock. */
  function Enforced(rates: map<Key, seq<real>>, cfg: Config, principal: string, customer: string, t: real, u: real)
    : (map<Key, seq<real>>, RequestVerdict)
    requires cfg.Valid()
  {
    var (rates1, v) := Consumed(rates, cfg, (Principal, principal), t);
    if v.Refused? then (rates1, Rejected(Principal, v.retryAfter))
    else
      var (rates2, w) := Consumed(rates1, cfg, (Customer, customer), u);
      if w == Admitted then (rates2, Accepted)
      else (rates2[(Principal, principal) := Pop(rates2[(Principal, principal)])], Rejected(Customer, w.retryAfter))
  }

  /** Every queue stands for its history. */
  ghost predicate AllRefine(rates: map<Key, seq<real>>, logs: map<Key, seq<real>>, cfg: Config, clock: real) {
    forall k: Key :: KeyRefines(rates, logs, cfg, clock, k)
  }

  ghost predicate KeyRefines(rates: map<Key, seq<real>>, logs: map<Key, seq<real>>, cfg: Config, clock: real, k: Key) {
    Refines(EventsOf(rates, k), EventsOf(logs, k), cfg.rateWindow, LimitOf(cfg, k.0), clock)
  }

  lemma RefinesLater(events: seq<real>, h: seq<real>, width: real, limit: nat, clock: real, later: real)
    requires Refines(events, h, width, limit, clock) && clock <= later
    ensures Refines(events, h, width, limit, later)
  {
    var c :| c <= clock - width && events == Recent(h, c);
    assert c <= later - width;
  }

  /** One queue changes, the others only see time pass. */
  lemma OneKeyChanges(rates: map<Key, seq<real>>, logs: map<Key, seq<real>>, rates': map<Key, seq<real>>,
                      logs': map<Key, seq<real>>, cfg: Config, clock: real, now: real, key: Key)
    requires AllRefine(rates, logs, cfg, clock) && clock <= now && KeyRefines(rates', logs', cfg, now, key)
    requires forall k: Key | k != key :: EventsOf(rates', k) == EventsOf(rates, k) && EventsOf(logs', k) == EventsOf(logs, k)
    ensures AllRefine(rates', logs', cfg, now)
  {
    forall k: Key | k != key ensures KeyRefines(rates', logs', cfg, now, k) {
      assert KeyRefines(rates, logs, cfg, clock, k);
      RefinesLater(EventsOf(rates, k), EventsOf(logs, k), cfg.rateWindow, LimitOf(cfg, k.0), clock, now);
    }
  }

  lemma KeyConsumed(rates: map<Key, seq<real>>, logs: map<Key, seq<real>>, cfg: Config, clock: real, key: Key, now: real)
    requires cfg.Valid() && KeyRefines(rates, logs, cfg, clock, key) && clock <= now
    ensures var (rates', v) := Consumed(rates, cfg, key, now);
            && (v == Admitted <==> |Recent(EventsOf(logs, key), now - cfg.rateWindow)| < LimitOf(cfg, key.0))
            && KeyRefines(rates', Logged(logs, key, now, v), cfg, now, key)
  {
    TakeRefines(EventsOf(rates, key), EventsOf(logs, key), cfg.rateWindow, LimitOf(cfg, key.0), clock, now);
  }

  /** The histories after a try. */
  function Logged(logs: map<Key, seq<real>>, key: Key, now: real, v: Verdict): map<Key, seq<real>> {
    if v == Admitted then logs[key := EventsOf(logs, key) + [now]] else logs
  }

  lemma ConsumedRefines(rates: map<Key, seq<real>>, logs: map<Key, seq<real>>, cfg: Config, clock: real, key: Key, now: real)
    requires cfg.Valid() && AllRefine(rates, logs, cfg, clock) && clock <= now
    ensures var (rates', v) := Consumed(rates, cfg, key, now);
            && (v == Admitted <==> |Recent(EventsOf(logs, key), now - cfg.rateWindow)| < LimitOf(cfg, key.0))
            && AllRefine(rates', Logged(logs, key, now, v), cfg, now)
  {
    KeyConsumed(rates, logs, cfg, clock, key, now);
    var (rates', v) := Consumed(rates, cfg, key, now);
    OthersConsumed(rates, logs, cfg, key, now, rates', Logged(logs, key, now, v), v);
    OneKeyChanges(rates, logs, rates', Logged(logs, key, now, v), cfg, clock, now, key);
  }

  lemma OthersConsumed(rates: map<Key, seq<real>>, logs: map<Key, seq<real>>, cfg: Config, key: Key, now: real,
                       rates': map<Key, seq<real>>, logs': map<Key, seq<real>>, v: Verdict)
    requires cfg.Valid() && (rates', v) == Consumed(rates, cfg, key, now) && logs' == Logged(logs, key, now, v)
    ensures forall k: Key | k != key :: EventsOf(rates', k) == EventsOf(rates, k) && EventsOf(logs', k) == EventsOf(logs, k)
  {
  }

  /** A request is accepted exactly when both its principal and its customer had fewer admissions
      than their limit in the window that ends at the request; then both histories gain it. A refused
      request, by whichever limit, leaves no trace: every queue stands for the same history as
      before. */
  lemma EnforcedExact(rates: map<Key, seq<real>>, logs: map<Key, seq<real>>, cfg: Config, clock: real,
                      principal: string, customer: string, t: real, u: real)
    requires cfg.Valid() && AllRefine(rates, logs, cfg, clock) && clock <= t <= u
    ensures var (rates', v) := Enforced(rates, cfg, principal, customer, t, u);
            var p, c := EventsOf(logs, (Principal, principal)), EventsOf(logs, (Customer, customer));
            && (v == Accepted <==>
                  |Recent(p, t - cfg.rateWindow)| < cfg.principalLimit && |Recent(c, u - cfg.rateWindow)| < cfg.customerLimit)
            && (v == Accepted ==>
                  AllRefine(rates', logs[(Principal, principal) := p + [t]][(Customer, customer) := c + [u]], cfg, u))
            && (v.Rejected? ==> AllRefine(rates', logs, cfg, u))
  {
    var pk: Key, ck: Key := (Principal, principal), (Customer, customer);
    var p := EventsOf(logs, pk);
    ConsumedRefines(rates, logs, cfg, clock, pk, t);
    var (rates1, v) := Consumed(rates, cfg, pk, t);
    if v == Admitted {
      var logs1 := logs[pk := p + [t]];
      ConsumedRefines(rates1, logs1, cfg, t, ck, u);
      var (rates2, w) := Consumed(rates1, cfg, ck, u);
      if w.Refused? {
        RolledBack(rates2, logs, cfg, u, pk, t);
      }
    } else {
      assert KeyRefines(rates1, logs, cfg, t, pk);
      RefinesLater(EventsOf(rates1, pk), p, cfg.rateWindow, cfg.principalLimit, t, u);
      OneKeyChanges(rates1, logs, rates1, logs, cfg, t, u, pk);
    }
  }

  lemma RolledBack(rates: map<Key, seq<real>>, logs: map<Key, seq<real>>, cfg: Config, clock: real, key: Key, t: real)
    requires cfg.Valid() && key in rates
    requires AllRefine(rates, logs[key := EventsOf(logs, key) + [t]], cfg, clock)
    ensures AllRefine(rates[key := Pop(rates[key])], logs, cfg, clock)
  {
    var h := EventsOf(logs, key);
    var logs1, rates' := logs[key := h + [t]], rates[key := Pop(rates[key])];
    assert KeyRefines(rates, logs1, cfg, clock, key);
    PopRefines(rates[key], h + [t], cfg.rateWindow, LimitOf(cfg, key.0), clock);
    assert (h + [t])[..|h|] == h;
    assert KeyRefines(rates', logs, cfg, clock, key);
    OneKeyChanges(rates, logs1, rates', logs, cfg, clock, clock, key);
  }

  // ------------------------------------------------------------------------- sequences of requests

  /** One request: who, for whom, and its two readings of the clock. */
  datatype Ask = Ask(principal: string, customer: string, t: real, u: real)

  /** The requests come one after the other. */
  ghost predicate InOrder(asks: seq<Ask>, from: real) {
    && (forall i | 0 <= i < |asks| :: from <= asks[i].t <= asks[i].u)
    && (forall i, j | 0 <= i < j < |asks| :: asks[i].u <= asks[j].t)
  }

  function LastTime(asks: seq<Ask>, from: real): real {
    if asks == [] then from else asks[|asks| - 1].u
  }

  function Served(rates: map<Key, seq<real>>, cfg: Config, a: Ask): (map<Key, seq<real>>, RequestVerdict)
    requires cfg.Valid()
  {
    Enforced(rates, cfg, a.principal, a.customer, a.t, a.u)
  }

  /** The queues after all requests, with their rollbacks. */
  function RatesAfter(cfg: Config, asks: seq<Ask>): map<Key, seq<real>>
    requires cfg.Valid()
  {
    if asks == [] then map[] else Served(RatesAfter(cfg, asks[..|asks| - 1]), cfg, asks[|asks| - 1]).0
  }

  /** Both the principal and the customer have fewer admissions than their limit in the window that
      ends at the request. */
  predicate Welcome(logs: map<Key, seq<real>>, cfg: Config, a: Ask) {
    && |Recent(EventsOf(logs, (Principal, a.principal)), a.t - cfg.rateWindow)| < cfg.principalLimit
    && |Recent(EventsOf(logs, (Customer, a.customer)), a.u - cfg.rateWindow)| < cfg.customerLimit
  }

  /** A welcome request enters the histories of its principal and its customer, any other none. */
  function Noted(logs: map<Key, seq<real>>, cfg: Config, a: Ask): map<Key, seq<real>> {
    var pk: Key, ck: Key := (Principal, a.principal), (Customer, a.customer);
    if Welcome(logs, cfg, a) then logs[pk := EventsOf(logs, pk) + [a.t]][ck := EventsOf(logs, ck) + [a.u]] else logs
  }

  /** The full histories. */
  function HistoriesAfter(cfg: Config, asks: seq<Ask>): map<Key, seq<real>> {
    if asks == [] then map[] else Noted(HistoriesAfter(cfg, asks[..|asks| - 1]), cfg, asks[|asks| - 1])
  }

  lemma NothingYet(cfg: Config, from: real)
    requires cfg.Valid()
    ensures AllRefine(map[], map[], cfg, from)
  {
    forall k: Key ensures KeyRefines(map[], map[], cfg, from, k) {
      assert [] == Recent([], from - cfg.rateWindow);
    }
  }

  lemma OneRequest(rates: map<Key, seq<real>>, logs: map<Key, seq<real>>, cfg: Config, clock: real, a: Ask)
    requires cfg.Valid() && AllRefine(rates, logs, cfg, clock) && clock <= a.t <= a.u
    ensures Served(rates, cfg, a).1 == Accepted <==> Welcome(logs, cfg, a)
    ensures AllRefine(Served(rates, cfg, a).0, Noted(logs, cfg, a), cfg, a.u)
  {
    EnforcedExact(rates, logs, cfg, clock, a.principal, a.customer, a.t, a.u);
  }

  lemma FrontInOrder(asks: seq<Ask>, from: real, n: nat)
    requires InOrder(asks, from) && n < |asks|
    ensures InOrder(asks[..n], from) && LastTime(asks[..n], from) <= asks[n].t <= asks[n].u
  {
    assert n > 0 ==> asks[n - 1].u <= asks[n].t;
  }

  /** Over any sequence of requests of any principals and customers every queue stands for its full
      history. */
  lemma {:induction false} RequestsRefine(cfg: Config, asks: seq<Ask>, from: real)
    requires cfg.Valid() && InOrder(asks, from)
    ensures AllRefine(RatesAfter(cfg, asks), HistoriesAfter(cfg, asks), cfg, LastTime(asks, from))
  {
    if asks == [] {
      NothingYet(cfg, from);
    } else {
      var front, a := asks[..|asks| - 1], asks[|asks| - 1];
      FrontInOrder(asks, from, |asks| - 1);
      RequestsRefine(cfg, front, from);
      OneRequest(RatesAfter(cfg, front), HistoriesAfter(cfg, front), cfg, LastTime(front, from), a);
    }
  }

  /** So every request is decided by the full histories of its two keys. */
  lemma RequestsExact(cfg: Config, asks: seq<Ask>, from: real, i: nat)
    requires cfg.Valid() && InOrder(asks, from) && i < |asks|
    ensures Served(RatesAfter(cfg, asks[..i]), cfg, asks[i]).1 == Accepted <==> Welcome(HistoriesAfter(cfg, asks[..i]), cfg, asks[i])
  {
    FrontInOrder(asks, from, i);
    RequestsRefine(cfg, asks[..i], from);
    OneRequest(RatesAfter(cfg, asks[..i]), HistoriesAfter(cfg, asks[..i]), cfg, LastTime(asks[..i], from), asks[i]);
  }

  /** And for no key does any window, wherever it starts, hold more admitted requests than its limit. */
  lemma RequestsKeepLimits(cfg: Config, asks: seq<Ask>, from: real, k: Key, start: real)
    requires cfg.Valid() && InOrder(asks, from)
    ensures |Within(EventsOf(HistoriesAfter(cfg, asks), k), start, start + cfg.rateWindow)| <= LimitOf(cfg, k.0)
  {
    RequestsRefine(cfg, asks, from);
    assert KeyRefines(RatesAfter(cfg, asks), HistoriesAfter(cfg, asks), cfg, LastTime(asks, from), k);
    WindowBound(EventsOf(HistoriesAfter(cfg, asks), k), cfg.rateWindow, LimitOf(cfg, k.0), LastTime(asks, from), start);
  }

  // -------------------------------------------------------------------------------- the controller

  function CircuitOf(m: map<string, Circuit>, id: string): Circuit {
    if id in m then m[id] else FRESH
  }

  class ReliabilityController {
    const cfg: Config
    var circuits: map<string, Circuit>
    var retries: map<string, seq<real>>
    var rates: map<Key, seq<real>>

    constructor (cfg: Config)
      ensures this.cfg == cfg && circuits == map[] && retries == map[] && rates == map[]
    {
      this.cfg := cfg;
      circuits, retries, rates := map[], map[], map[];
    }

    method ConsumeRateLimit(key: Key, now: real) returns (v: Verdict)
      requires cfg.Valid()
      modifies this`rates
      ensures (rates, v) == Consumed(old(rates), cfg, key, now)
    {
      var left := Expire(EventsOf(rates, key), now - cfg.rateWindow);
      if |left| >= LimitOf(cfg, key.0) {
        v := Refused(cfg.rateWindow - (now - left[0]));
      } else {
        left := left + [now];
        v := Admitted;
      }
      rates := rates[key := left];
    }

    method RollbackRateLimit(key: Key)
      modifies this`rates
      ensures rates == if key in old(rates) then old(rates)[key := Pop(old(rates)[key])] else old(rates)
    {
      if key in rates {
        var events := rates[key];
        if events != [] {
          events := events[..|events| - 1];
        }
        rates := rates[key := events];
      }
    }

    method EnforceRequestLimits(principal: string, customer: string, t: real, u: real) returns (v: RequestVerdict)
      requires cfg.Valid()
      modifies this`rates
      ensures (rates, v) == Enforced(old(rates), cfg, principal, customer, t, u)
    {
      var first := ConsumeRateLimit((Principal, principal), t);
      if first.Refused? {
        return Rejected(Principal, first.retryAfter);
      }
      var second := ConsumeRateLimit((Customer, customer), u);
      if second.Refused? {
        RollbackRateLimit((Principal, principal));
        return Rejected(Customer, second.retryAfter);
      }
      v := Accepted;
    }

    method ConsumeRetryBudget(id: string, now: real) returns (granted: bool)
      requires cfg.Valid()
      modifies this`retries
      ensures var (left, v) := Take(EventsOf(old(retries), id), cfg.budgetWindow, cfg.budgetAttempts, now);
              retries == old(retries)[id := left] && granted == (v == Admitted)
    {
      var events := Expire(EventsOf(retries, id), now - cfg.budgetWindow);
      granted := |events| < cfg.budgetAttempts;
      if granted {
        events := events + [now];
      }
      retries := retries[id := events];
    }

    method BeforeCall(id: string, now: real) returns (allowed: bool)
      modifies this`circuits
      ensures circuits == old(circuits)[id := Entered(CircuitOf(old(circuits), id), cfg, now).0]
      ensures allowed == Entered(CircuitOf(old(circuits), id), cfg, now).1
    {
      var c := CircuitOf(circuits, id);
      circuits := circuits[id := c];
      if c.state == Open {
        if now - c.openedAt < cfg.recovery {
          return false;
        }
        c := c.(state := HalfOpen, inFlight := 0);
        circuits := circuits[id := c];
      }
      if c.state == HalfOpen {
        if c.inFlight >= cfg.probes {
          return false;
        }
        circuits := circuits[id := c.(inFlight := c.inFlight + 1, recoveries := c.recoveries + 1)];
      }
      allowed := true;
    }

    method RecordSuccess(id: string)
      modifies this`circuits
      ensures circuits == old(circuits)[id := Recovered(CircuitOf(old(circuits), id))]
    {
      circuits := circuits[id := CircuitOf(circuits, id).(state := Closed, failures := 0, inFlight := 0)];
    }

    method CancelCall(id: string)
      modifies this`circuits
      ensures circuits == old(circuits)[id := Cancelled(CircuitOf(old(circuits), id))]
    {
      var c := CircuitOf(circuits, id);
      if c.state == HalfOpen && c.inFlight > 0 {
        c := c.(inFlight := c.inFlight - 1);
      }
      circuits := circuits[id := c];
    }

    method RecordFailure(id: string, now: real)
      modifies this`circuits
      ensures circuits == old(circuits)[id := Struck(CircuitOf(old(circuits), id), cfg, now)]
    {
      var c := CircuitOf(circuits, id);
      if c.state == HalfOpen {
        circuits := circuits[id := Tripped(c, now)];
        return;
      }
      c := c.(failures := c.failures + 1);
      if c.failures >= cfg.threshold {
        c := Tripped(c, now);
      }
      circuits := circuits[id := c];
    }
  }

  /** The i-th answer is the one the full histories give. */
  ghost predicate RightAnswer(cfg: Config, asks: seq<Ask>, i: nat, accepted: bool)
    requires i < |asks|
  {
    accepted <==> Welcome(HistoriesAfter(cfg, asks[..i]), cfg, asks[i])
  }

  lemma RatesMore(cfg: Config, asks: seq<Ask>, n: nat)
    requires cfg.Valid() && n < |asks|
    ensures RatesAfter(cfg, asks[..n + 1]) == Served(RatesAfter(cfg, asks[..n]), cfg, asks[n]).0
  {
    assert asks[..n + 1][..n] == asks[..n];
  }

  /** The controller serving any sequence of requests, one after the other. */
  method ServeRequests(c: ReliabilityController, asks: seq<Ask>, from: real) returns (accepted: seq<bool>)
    requires c.cfg.Valid() && c.rates == map[] && InOrder(asks, from)
    modifies c`rates
    ensures |accepted| == |asks| && forall i | 0 <= i < |asks| :: RightAnswer(c.cfg, asks, i, accepted[i])
    ensures AllRefine(c.rates, HistoriesAfter(c.cfg, asks), c.cfg, LastTime(asks, from))
  {
    accepted := [];
    for n := 0 to |asks|
      invariant |accepted| == n && c.rates == RatesAfter(c.cfg, asks[..n])
      invariant forall i | 0 <= i < n :: RightAnswer(c.cfg, asks, i, accepted[i])
    {
      RatesMore(c.cfg, asks, n);
      assert Served(RatesAfter(c.cfg, asks[..n]), c.cfg, asks[n]).1 == Accepted <==> RightAnswer(c.cfg, asks, n, true) by {
        RequestsExact(c.cfg, asks, from, n);
      }
      var v := c.EnforceRequestLimits(asks[n].principal, asks[n].customer, asks[n].t, asks[n].u);
      accepted := accepted + [v == Accepted];
    }
    assert asks[..|asks|] == asks;
    RequestsRefine(c.cfg, asks, from);
  }
}
