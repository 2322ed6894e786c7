/** The retry budget of one service under any number of retry sequences at once (resilience/retry.py,
    resilience/control.py): each failed attempt is handled in turn on the shared records, and other calls
    move the circuit and the provider's queue in between. */
module RetryTraffic {
  import opened Domain
  import opened Windows
  import opened Control
  import opened Retry
  import opened RetryBounds

  /** A sequence under way: its pass, and the calls of its operation that are over. */
  datatype Going = Going(job: Job, pass: nat, calls: nat)

  /** A record for the properties only: the budget let this sequence try again; `used` says that the
      deadline let it, too. */
  datatype Grant = Grant(sequence: nat, at: real, used: bool)

  datatype Traffic = Traffic(service: ServiceState, going: map<nat, Going>, started: nat, grants: seq<Grant>,
                             clock: real)

  datatype TrafficEvent =
    | Starts(job: Job)
    | Fails(id: nat, called: bool, failure: Failure, at: real, delay: real)
    | Ends(id: nat)
    | Others(circuit: Circuit, provider: seq<real>)

  /** The handler of this failure asks the budget. */
  predicate AsksBudget(cfg: Config, g: Going, failure: Failure) {
    IsRetryable(Classify(failure, g.job.dependency, g.job.write), g.job.write) && g.pass < AttemptsAllowed(cfg)
  }

  predicate IsGranted(cfg: Config, s: ServiceState, g: Going, failure: Failure, at: real)
    requires cfg.Valid()
  {
    AsksBudget(cfg, g, failure) && Take(s.retries, cfg.budgetWindow, cfg.budgetAttempts, at).1 == Admitted
  }

  /** One attempt of a sequence has failed, and its handler has run. */
  function Failed(cfg: Config, t: Traffic, id: nat, called: bool, failure: Failure, at: real, delay: real): Traffic
    requires cfg.Valid() && id in t.going && t.going[id].pass >= 1
  {
    var g := t.going[id];
    var calls := if called then g.calls + 1 else g.calls;
    var (s, d) := Handle<int>(g.job, cfg, delay, g.pass, Tried(t.service, called, Raised(failure), at), calls);
    Traffic(s,
            if d.Again? then t.going[id := Going(g.job, g.pass + 1, calls)] else t.going - {id},
            t.started,
            if IsGranted(cfg, t.service, g, failure, at) then t.grants + [Grant(id, at, d.Again?)] else t.grants,
            at)
  }

  ghost predicate TrafficNext(cfg: Config, t: Traffic, e: TrafficEvent, t': Traffic)
    requires cfg.Valid()
  {
    match e
    case Starts(job) =>
      job.controlled && t' == t.(going := t.going[t.started := Going(job, 1, 0)], started := t.started + 1)
    case Fails(id, called, failure, at, delay) =>
      id in t.going && t.going[id].pass >= 1 && t.clock <= at && t' == Failed(cfg, t, id, called, failure, at, delay)
    case Ends(id) => t' == t.(going := t.going - {id})
    case Others(circuit, provider) => t' == t.(service := t.service.(circuit := circuit, provider := provider))
  }

  ghost predicate TrafficRun(cfg: Config, run: seq<Traffic>, events: seq<TrafficEvent>)
    requires cfg.Valid()
  {
    && |run| == |events| + 1
    && run[0].service.retries == [] && run[0].going == map[] && run[0].grants == []
    && forall i | 0 <= i < |events| :: TrafficNext(cfg, run[i], events[i], run[i + 1])
  }

  // ------------------------------------------------------------------------------- the invariant

  function Times(grants: seq<Grant>): seq<real> {
    if grants == [] then [] else Times(grants[..|grants| - 1]) + [grants[|grants| - 1].at]
  }

  /** How often this sequence went on. */
  function Retries(grants: seq<Grant>, id: nat): nat {
    if grants == [] then 0
    else
      var g := grants[|grants| - 1];
      Retries(grants[..|grants| - 1], id) + if g.used && g.sequence == id then 1 else 0
  }

  lemma OneMore(grants: seq<Grant>, g: Grant)
    ensures Times(grants + [g]) == Times(grants) + [g.at]
    ensures forall id :: Retries(grants + [g], id) == Retries(grants, id) + if g.used && g.sequence == id then 1 else 0
  {
    assert (grants + [g])[..|grants|] == grants;
  }

  /** The numbers of sequences that are yet to start are in no grant. */
  lemma {:induction false} NotYet(grants: seq<Grant>, id: nat)
    requires forall g | g in grants :: g.sequence < id
    ensures Retries(grants, id) == 0
  {
    if grants != [] {
      NotYet(grants[..|grants| - 1], id);
    }
  }

  ghost predicate GoingOk(t: Traffic, id: nat)
    requires id in t.going
  {
    t.going[id].job.controlled && id < t.started && t.going[id].pass == 1 + Retries(t.grants, id)
  }

  ghost predicate TrafficOk(cfg: Config, t: Traffic) {
    && Budgeted(cfg, t.service, Times(t.grants), t.clock)
    && (forall g | g in t.grants :: g.sequence < t.started)
    && forall id | id in t.going :: GoingOk(t, id)
  }

  /** What the handler does to the queue of the budget. */
  lemma HandledQueue(cfg: Config, t: Traffic, id: nat, called: bool, failure: Failure, at: real, delay: real)
    requires cfg.Valid() && id in t.going && t.going[id].pass >= 1 && t.going[id].job.controlled
    ensures var t' := Failed(cfg, t, id, called, failure, at, delay);
            && (id in t'.going ==> IsGranted(cfg, t.service, t.going[id], failure, at))
            && t'.service.retries == (if AsksBudget(cfg, t.going[id], failure)
                                      then Take(t.service.retries, cfg.budgetWindow, cfg.budgetAttempts, at).0
                                      else t.service.retries)
  {
  }

  lemma GrantedTimes(cfg: Config, t: Traffic, id: nat, called: bool, failure: Failure, at: real, delay: real)
    requires cfg.Valid() && id in t.going && t.going[id].pass >= 1
    ensures Times(Failed(cfg, t, id, called, failure, at, delay).grants) ==
            if IsGranted(cfg, t.service, t.going[id], failure, at) then Times(t.grants) + [at] else Times(t.grants)
  {
    OneMore(t.grants, Grant(id, at, true));
    OneMore(t.grants, Grant(id, at, false));
  }

  /** The decision of the budget is that of the full history of grants. */
  lemma HandledBudget(cfg: Config, t: Traffic, id: nat, called: bool, failure: Failure, at: real, delay: real)
    requires cfg.Valid() && TrafficOk(cfg, t) && id in t.going && t.clock <= at && GoingOk(t, id)
    ensures IsGranted(cfg, t.service, t.going[id], failure, at) <==>
            AsksBudget(cfg, t.going[id], failure)
              && |Recent(Times(t.grants), at - cfg.budgetWindow)| < cfg.budgetAttempts
    ensures Budgeted(cfg, Failed(cfg, t, id, called, failure, at, delay).service,
                     Times(Failed(cfg, t, id, called, failure, at, delay).grants), at)
  {
    var t', h := Failed(cfg, t, id, called, failure, at, delay), Times(t.grants);
    HandledQueue(cfg, t, id, called, failure, at, delay);
    GrantedTimes(cfg, t, id, called, failure, at, delay);
    QueueStands(cfg, t.service, t'.service, h, t.clock, at, AsksBudget(cfg, t.going[id], failure));
  }

  lemma QueueStands(cfg: Config, s: ServiceState, s': ServiceState, h: seq<real>, clock: real, at: real, asked: bool)
    requires cfg.Valid() && Budgeted(cfg, s, h, clock) && clock <= at
    requires s'.retries == if asked then Take(s.retries, cfg.budgetWindow, cfg.budgetAttempts, at).0 else s.retries
    ensures var v := Take(s.retries, cfg.budgetWindow, cfg.budgetAttempts, at).1;
            && (v == Admitted <==> |Recent(h, at - cfg.budgetWindow)| < cfg.budgetAttempts)
            && Budgeted(cfg, s', if asked && v == Admitted then h + [at] else h, at)
  {
    TakeRefines(s.retries, h, cfg.budgetWindow, cfg.budgetAttempts, clock, at);
    RefinesLater(s.retries, h, cfg.budgetWindow, cfg.budgetAttempts, clock, at);
  }

  lemma FailsKeeps(cfg: Config, t: Traffic, id: nat, called: bool, failure: Failure, at: real, delay: real)
    requires cfg.Valid() && TrafficOk(cfg, t) && id in t.going && t.clock <= at
    ensures TrafficOk(cfg, Failed(cfg, t, id, called, failure, at, delay))
  {
    var t' := Failed(cfg, t, id, called, failure, at, delay);
    assert GoingOk(t, id);
    HandledBudget(cfg, t, id, called, failure, at, delay);
    HandledQueue(cfg, t, id, called, failure, at, delay);
    OneMore(t.grants, Grant(id, at, id in t'.going));
    forall j | j in t'.going ensures GoingOk(t', j) {
      assert GoingOk(t, j);
    }
  }

  lemma StartsKeeps(cfg: Config, t: Traffic, job: Job)
    requires TrafficOk(cfg, t) && job.controlled
    ensures TrafficOk(cfg, t.(going := t.going[t.started := Going(job, 1, 0)], started := t.started + 1))
  {
    NotYet(t.grants, t.started);
    var t' := t.(going := t.going[t.started := Going(job, 1, 0)], started := t.started + 1);
    forall j | j in t'.going ensures GoingOk(t', j) {
      assert j != t.started ==> GoingOk(t, j);
    }
  }

  lemma NextKeeps(cfg: Config, t: Traffic, e: TrafficEvent, t': Traffic)
    requires cfg.Valid() && TrafficOk(cfg, t) && TrafficNext(cfg, t, e, t')
    ensures TrafficOk(cfg, t')
  {
    match e
    case Starts(job) => StartsKeeps(cfg, t, job);
    case Fails(id, called, failure, at, delay) => FailsKeeps(cfg, t, id, called, failure, at, delay);
    case Ends(_) =>
      forall j | j in t'.going ensures GoingOk(t', j) {
        assert GoingOk(t, j);
      }
    case Others(_, _) =>
      BudgetQueue(cfg, t.service, t'.service, Times(t.grants), t.clock);
      forall j | j in t'.going ensures GoingOk(t', j) {
        assert GoingOk(t, j);
      }
  }

  lemma {:induction false} TrafficRunKeeps(cfg: Config, run: seq<Traffic>, events: seq<TrafficEvent>, i: nat)
    requires cfg.Valid() && TrafficRun(cfg, run, events) && i < |run|
    ensures TrafficOk(cfg, run[i])
  {
    if i > 0 {
      TrafficRunKeeps(cfg, run, events, i - 1);
      NextKeeps(cfg, run[i - 1], events[i - 1], run[i]);
    } else {
      assert [] == Recent([], run[0].clock - cfg.budgetWindow);
    }
  }

  /** However the sequences of a service overlap, no window holds more retries than the budget: each pass
      of a sequence after its first was granted once, and the grants of all sequences together keep the
      limit. */
  lemma OverlappingRetriesWithinBudget(cfg: Config, run: seq<Traffic>, events: seq<TrafficEvent>, i: nat, from: real)
    requires cfg.Valid() && TrafficRun(cfg, run, events) && i < |run|
    ensures |Within(Times(run[i].grants), from, from + cfg.budgetWindow)| <= cfg.budgetAttempts
    ensures forall id | id in run[i].going :: run[i].going[id].pass - 1 == Retries(run[i].grants, id)
  {
    TrafficRunKeeps(cfg, run, events, i);
    WindowBound(Times(run[i].grants), cfg.budgetWindow, cfg.budgetAttempts, run[i].clock, from);
    forall id | id in run[i].going ensures run[i].going[id].pass - 1 == Retries(run[i].grants, id) {
      assert GoingOk(run[i], id);
    }
  }

  /** And none is refused too early: a failure that may be retried is granted exactly when the window that
      ends at it holds fewer grants, of all sequences, than the budget. */
  lemma GrantedExact(cfg: Config, run: seq<Traffic>, events: seq<TrafficEvent>, i: nat)
    requires cfg.Valid() && TrafficRun(cfg, run, events) && i < |events| && events[i].Fails?
    ensures var t, e := run[i], events[i];
            |run[i + 1].grants| > |t.grants| <==>
            AsksBudget(cfg, t.going[e.id], e.failure)
              && |Recent(Times(t.grants), e.at - cfg.budgetWindow)| < cfg.budgetAttempts
  {
    var t, e := run[i], events[i];
    TrafficRunKeeps(cfg, run, events, i);
    assert TrafficNext(cfg, t, e, run[i + 1]);
    assert GoingOk(t, e.id);
    HandledBudget(cfg, t, e.id, e.called, e.failure, e.at, e.delay);
  }
}
