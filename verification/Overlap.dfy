/** Several turns of one thread at once. Nothing keeps two requests of one conversation apart: each turn
    loads a checkpoint when it begins, goes on with its own state, and adds its checkpoints to the
    thread's (agent/runtime.py). All turns share the database and the records. */
module Overlap {
  import opened Domain
  import opened PendingPayload
  import opened Compiler
  import opened Agent
  import opened Graph
  import opened Safety
  import Conversations
  import DB = Database
  import TX = Transactions

  /** A turn in flight. */
  datatype Flight = Flight(state: State, node: Node)

  /** What the turns share, and the turns in flight by their numbers; the state, the node and the turn
      of `shared` itself mean nothing. */
  datatype Thread = Thread(shared: World, flights: map<nat, Flight>)

  /** The world as one turn sees it. */
  function View(m: Thread, t: nat): World
    requires t in m.flights
  {
    m.shared.(state := m.flights[t].state, node := m.flights[t].node, turn := t)
  }

  /** The records of `w`, as the turns share them. */
  function Shared(m: Thread, w: World): World {
    w.(state := m.shared.state, node := m.shared.node, turn := m.shared.turn)
  }

  /** The thread after turn `t` made its view `w`; a turn at its end is no longer in flight. */
  function Put(m: Thread, t: nat, w: World): Thread {
    Thread(Shared(m, w), if w.node == Idle then m.flights - {t} else m.flights[t := Flight(w.state, w.node)])
  }

  datatype ThreadEvent =
    | Begins(k: nat, context: Context, conversationId: string, message: Message)   // from the k-th checkpoint
    | Steps(t: nat, choice: Choice)
    | Dies(t: nat)
    | Ticks(now: int)
    | Changes(db: DB.Db)      // other threads and the rest of the business

  /** The turn loads a checkpoint, the latest one or an earlier one; `fellBack` records that it was an
      earlier one, or that another turn was in flight. */
  function Begun(m: Thread, k: nat, c: Context, id: string, message: Message): Thread
    requires k < |m.shared.checkpoints|
  {
    var w := m.shared;
    var s := WithRequest(w.checkpoints[k], c, id, message);
    Thread(w.(latest := w.latest + 1, checkpoints := w.checkpoints + [s],
              fellBack := w.fellBack || k + 1 != |w.checkpoints| || m.flights != map[]),
           m.flights[w.latest + 1 := Flight(s, AtLoadContext)])
  }

  ghost predicate ThreadNext(cfg: Config, m: Thread, e: ThreadEvent, m': Thread) {
    match e
    case Begins(k, c, id, message) => k < |m.shared.checkpoints| && m' == Begun(m, k, c, id, message)
    case Steps(t, ch) =>
      t in m.flights && ch.newId !in m.shared.usedIds && m' == Put(m, t, RunNode(cfg, View(m, t), ch))
    case Dies(t) => t in m.flights && m' == m.(flights := m.flights - {t})
    case Ticks(now) => m' == m.(shared := m.shared.(now := now))
    case Changes(db) => DB.Consistent(db) && TX.Grows(m.shared.db, db) && m' == m.(shared := m.shared.(db := db))
  }

  ghost predicate ThreadRun(cfg: Config, run: seq<Thread>, events: seq<ThreadEvent>) {
    && |run| == |events| + 1
    && Init(run[0].shared) && run[0].flights == map[]
    && forall i | 0 <= i < |events| :: ThreadNext(cfg, run[i], events[i], run[i + 1])
  }

  // ------------------------------------------------------------------------------- the invariant

  ghost predicate FlightOk(cfg: Config, m: Thread, t: nat)
    requires t in m.flights
  {
    var w := View(m, t);
    t <= w.latest && w.node != Idle && Here(cfg, w, w.node)
  }

  /** While no turn began beside another or from an earlier checkpoint, the last checkpoint is the state
      of the one turn there may be, and nothing spent is armed. */
  ghost predicate Alone(m: Thread) {
    var w := m.shared;
    && |w.checkpoints| > 0
    && (m.flights == map[] ==> Armed(Idle, w.checkpoints[|w.checkpoints| - 1]) !! w.spent)
    && forall t | t in m.flights ::
         && m.flights.Keys == {t} && m.flights[t].state == w.checkpoints[|w.checkpoints| - 1]
         && Armed(m.flights[t].node, m.flights[t].state) !! w.spent
  }

  ghost predicate ThreadOk(cfg: Config, m: Thread) {
    && Records(cfg, m.shared) && |m.shared.checkpoints| > 0
    && (forall k | 0 <= k < |m.shared.checkpoints| :: StateOk(m.shared, m.shared.checkpoints[k]))
    && (forall t | t in m.flights :: FlightOk(cfg, m, t))
    && (!m.shared.fellBack ==> Alone(m))
  }

  /** The records of two worlds are the same but for the turn that looks at them. */
  predicate SameShared(w: World, w': World) {
    w' == w.(state := w'.state, node := w'.node, turn := w'.turn)
  }

  lemma SameRecords(cfg: Config, w: World, w': World)
    requires SameShared(w, w')
    ensures Records(cfg, w) ==> Records(cfg, w')
    ensures forall s :: StateOk(w, s) <==> StateOk(w', s)
  {
    if Records(cfg, w) {
      forall i | 0 <= i < |w'.created| ensures CreationOk(cfg, w', i) {
        assert CreationOk(cfg, w, i);
      }
      forall k | 0 <= k < |w'.calls| ensures CallOk(cfg, w', w'.calls[k]) {
        assert CallOk(cfg, w, w.calls[k]);
      }
    }
  }

  /** Each turn in flight sees a world that keeps the invariant of a turn alone. */
  lemma ViewKeepsInv(cfg: Config, m: Thread, t: nat)
    requires ThreadOk(cfg, m) && t in m.flights
    ensures Inv(cfg, View(m, t))
  {
    SameRecords(cfg, m.shared, View(m, t));
    assert FlightOk(cfg, m, t);
  }

  // ------------------------------------------------------------------------------- one step

  /** What one turn's step leaves of the records for the others. */
  predicate Later(w: World, w': World) {
    && w.created <= w'.created && w.confirms <= w'.confirms && w.usedIds <= w'.usedIds
    && w.latest <= w'.latest
  }

  lemma StateStays(w: World, w': World, s: State)
    requires Later(w, w') && StateOk(w, s)
    ensures StateOk(w', s)
  {
  }

  lemma NodeStays(cfg: Config, w: World, w': World)
    requires Later(w, w') && Here(cfg, w, w.node)
    requires w'.state == w.state && w'.node == w.node && w'.turn == w.turn
    ensures Here(cfg, w', w'.node)
  {
    if ConfirmedPath(cfg, w, w.state) {
      var k :| 0 <= k < |w.confirms| && ConfirmsNow(cfg, w.turn, w.state.slots.pending.value, w.state, w.confirms[k]);
      assert w'.confirms[k] == w.confirms[k];
    }
  }

  lemma OtherFlightOk(cfg: Config, m: Thread, m': Thread, t: nat)
    requires t in m.flights && t in m'.flights && m'.flights[t] == m.flights[t]
    requires FlightOk(cfg, m, t) && Later(m.shared, m'.shared)
    ensures FlightOk(cfg, m', t)
  {
    NodeStays(cfg, View(m, t), View(m', t));
  }

  lemma RecordCallLater(w: World, r: ToolRun)
    ensures var w' := RecordCall(w, r);
            && Later(w, w') && w'.latest == w.latest && w'.turn == w.turn && w'.fellBack == w.fellBack
            && w'.checkpoints == w.checkpoints && w'.state == w.state && w.calls <= w'.calls
            && |w'.calls| <= |w.calls| + 1
            && forall k | |w.calls| <= k < |w'.calls| :: w'.calls[k].turn == w.turn
  {
  }

  lemma ExecutesLater(w: World, r: ToolRun)
    ensures var w' := Executes(w, r);
            && Later(w, w') && w'.latest == w.latest && w'.turn == w.turn && w'.fellBack == w.fellBack
            && (if r.state.Some? then w'.checkpoints == w.checkpoints + [w'.state]
                else w'.checkpoints == w.checkpoints && w'.state == w.state)
            && w.calls <= w'.calls && |w'.calls| <= |w.calls| + 1
            && forall k | |w.calls| <= k < |w'.calls| :: w'.calls[k].turn == w.turn
  {
    RecordCallLater(w, r);
  }

  lemma MovesLater(cfg: Config, w: World, ch: Choice)
    requires !Executing(w.node)
    ensures var w' := RunNode(cfg, w, ch);
            && Later(w, w') && w'.latest == w.latest && w'.turn == w.turn && w'.fellBack == w.fellBack
            && w'.checkpoints == w.checkpoints + [w'.state] && w'.calls == w.calls && w'.node == After(w.node, w'.state)
  {
  }

  /** Where a turn has been called, or can no longer be. */
  predicate PastCalls(n: Node) {
    n in {Idle, AtRespond, AtRetrieveKnowledge}
  }

  lemma AfterExecution(w: World, r: ToolRun)
    requires Executing(w.node)
    ensures PastCalls(Executes(w, r).node)
  {
  }

  /** What a step does to the records. */
  ghost predicate Stepped(w: World, w': World) {
    && Later(w, w') && w'.latest == w.latest && w'.turn == w.turn && w'.fellBack == w.fellBack
    && w.checkpoints <= w'.checkpoints
    && (if w'.checkpoints == w.checkpoints then w'.state == w.state else w'.checkpoints == w.checkpoints + [w'.state])
    && w.calls <= w'.calls && |w'.calls| <= |w.calls| + 1
    && (forall k | |w.calls| <= k < |w'.calls| :: w'.calls[k].turn == w.turn)
    && (|w'.calls| > |w.calls| ==> !PastCalls(w.node) && PastCalls(w'.node))
    && (PastCalls(w.node) ==> PastCalls(w'.node))
  }

  lemma ExecutedIsStepped(w: World, r: ToolRun)
    requires Executing(w.node)
    ensures Stepped(w, Executes(w, r))
  {
    ExecutesLater(w, r);
    AfterExecution(w, r);
  }

  lemma StepIs(cfg: Config, w: World, ch: Choice)
    ensures Stepped(w, RunNode(cfg, w, ch))
  {
    if Executing(w.node) {
      Conversations.ExecutingIs(cfg, w, ch);
      ExecutedIsStepped(w, Result(w, ch.fate));
    } else {
      MovesLater(cfg, w, ch);
    }
  }

  lemma StepsKeeps(cfg: Config, m: Thread, t: nat, ch: Choice)
    requires ThreadOk(cfg, m) && t in m.flights && ch.newId !in m.shared.usedIds
    ensures ThreadOk(cfg, Put(m, t, RunNode(cfg, View(m, t), ch)))
  {
    var w := View(m, t);
    ViewKeepsInv(cfg, m, t);
    assert FlightOk(cfg, m, t);
    Conversations.NodeKeeps(cfg, w, ch);
    StepIs(cfg, w, ch);
    PutKeeps(cfg, m, t, RunNode(cfg, w, ch));
  }

  lemma PutAlone(m: Thread, t: nat, w': World)
    requires Alone(m) && t in m.flights && Stepped(View(m, t), w') && Armed(w'.node, w'.state) !! w'.spent
    ensures Alone(Put(m, t, w'))
  {
    assert m.flights.Keys == {t} && |w'.checkpoints| > 0;
    assert w'.state == w'.checkpoints[|w'.checkpoints| - 1];
  }

  lemma PutFlights(cfg: Config, m: Thread, t: nat, w': World)
    requires (forall u | u in m.flights :: FlightOk(cfg, m, u)) && t in m.flights
    requires Stepped(View(m, t), w') && Here(cfg, w', w'.node)
    ensures var m' := Put(m, t, w'); forall u | u in m'.flights :: FlightOk(cfg, m', u)
  {
    var m' := Put(m, t, w');
    assert FlightOk(cfg, m, t);
    forall u | u in m'.flights ensures FlightOk(cfg, m', u) {
      if u == t {
        assert View(m', t) == w';
      } else {
        OtherFlightOk(cfg, m, m', u);
      }
    }
  }

  lemma SharedOk(cfg: Config, m: Thread, w': World)
    requires Inv(cfg, w')
    ensures var w := Shared(m, w');
            Records(cfg, w) && forall k | 0 <= k < |w.checkpoints| :: StateOk(w, w.checkpoints[k])
  {
    SameRecords(cfg, w', Shared(m, w'));
  }

  lemma PutKeeps(cfg: Config, m: Thread, t: nat, w': World)
    requires ThreadOk(cfg, m) && t in m.flights && Stepped(View(m, t), w') && Inv(cfg, w')
    ensures ThreadOk(cfg, Put(m, t, w'))
  {
    SharedOk(cfg, m, w');
    PutFlights(cfg, m, t, w');
    if !w'.fellBack {
      PutAlone(m, t, w');
    }
  }

  lemma BegunOther(cfg: Config, m: Thread, k: nat, c: Context, id: string, message: Message, u: nat)
    requires k < |m.shared.checkpoints| && u in m.flights && FlightOk(cfg, m, u)
    ensures FlightOk(cfg, Begun(m, k, c, id, message), u)
  {
    OtherFlightOk(cfg, m, Begun(m, k, c, id, message), u);
  }

  lemma BegunFlights(cfg: Config, m: Thread, k: nat, c: Context, id: string, message: Message)
    requires ThreadOk(cfg, m) && k < |m.shared.checkpoints|
    ensures var m' := Begun(m, k, c, id, message); forall u | u in m'.flights :: FlightOk(cfg, m', u)
  {
    var m' := Begun(m, k, c, id, message);
    NewFlightOk(cfg, m, k, c, id, message);
    forall u | u in m'.flights && u != m.shared.latest + 1 ensures FlightOk(cfg, m', u) {
      BegunOther(cfg, m, k, c, id, message, u);
    }
  }

  lemma BegunCheckpoints(m: Thread, k: nat, c: Context, id: string, message: Message)
    requires k < |m.shared.checkpoints|
             && forall i | 0 <= i < |m.shared.checkpoints| :: StateOk(m.shared, m.shared.checkpoints[i])
    ensures var w := Begun(m, k, c, id, message).shared;
            forall i | 0 <= i < |w.checkpoints| :: StateOk(w, w.checkpoints[i])
  {
    var w, w' := m.shared, Begun(m, k, c, id, message).shared;
    forall i | 0 <= i < |w'.checkpoints| ensures StateOk(w', w'.checkpoints[i]) {
      assert StateOk(w, w.checkpoints[if i < |w.checkpoints| then i else k]);
    }
  }

  lemma BegunAlone(m: Thread, k: nat, c: Context, id: string, message: Message)
    requires Alone(m) && k < |m.shared.checkpoints| && !Begun(m, k, c, id, message).shared.fellBack
    ensures Alone(Begun(m, k, c, id, message))
  {
    var s := m.shared.checkpoints[k];
    assert Armed(AtLoadContext, WithRequest(s, c, id, message)) <= Armed(Idle, s);
  }

  lemma BeginsKeeps(cfg: Config, m: Thread, k: nat, c: Context, id: string, message: Message)
    requires ThreadOk(cfg, m) && k < |m.shared.checkpoints|
    ensures ThreadOk(cfg, Begun(m, k, c, id, message))
  {
    BegunRecords(cfg, m.shared, Begun(m, k, c, id, message).shared);
    BegunCheckpoints(m, k, c, id, message);
    BegunFlights(cfg, m, k, c, id, message);
    if !Begun(m, k, c, id, message).shared.fellBack {
      BegunAlone(m, k, c, id, message);
    }
  }

  lemma BegunRecords(cfg: Config, w: World, w': World)
    requires Records(cfg, w) && w.latest <= w'.latest && (w.fellBack ==> w'.fellBack)
    requires w' == w.(latest := w'.latest, checkpoints := w'.checkpoints, fellBack := w'.fellBack)
    ensures Records(cfg, w')
  {
    forall i | 0 <= i < |w'.created| ensures CreationOk(cfg, w', i) {
      assert CreationOk(cfg, w, i);
    }
    forall k | 0 <= k < |w'.calls| ensures CallOk(cfg, w', w'.calls[k]) {
      CallStays(cfg, w, w', w.calls[k]);
    }
  }

  lemma NewFlightOk(cfg: Config, m: Thread, k: nat, c: Context, id: string, message: Message)
    requires ThreadOk(cfg, m) && k < |m.shared.checkpoints|
    ensures FlightOk(cfg, Begun(m, k, c, id, message), m.shared.latest + 1)
  {
    var w := m.shared;
    assert StateOk(w, w.checkpoints[k]);
    forall i | 0 <= i < |w.created| ensures w.created[i].turn <= w.latest {
      assert CreationOk(cfg, w, i);
    }
  }

  lemma SharedKeeps(cfg: Config, m: Thread, m': Thread)
    requires ThreadOk(cfg, m) && m'.flights == m.flights
    requires m'.shared == m.shared.(now := m'.shared.now, db := m'.shared.db)
    requires DB.Consistent(m'.shared.db) && TX.Grows(m.shared.db, m'.shared.db)
    ensures ThreadOk(cfg, m')
  {
    RecordsKept(cfg, m.shared, m'.shared);
    forall u | u in m'.flights ensures FlightOk(cfg, m', u) {
      assert FlightOk(cfg, m, u);
      OtherFlightOk(cfg, m, m', u);
    }
  }

  lemma DiesAlone(m: Thread, t: nat)
    requires Alone(m) && t in m.flights
    ensures Alone(m.(flights := m.flights - {t}))
  {
    assert m.flights.Keys == {t};
    assert Armed(Idle, m.flights[t].state) <= Armed(m.flights[t].node, m.flights[t].state);
  }

  lemma DiesFlights(cfg: Config, m: Thread, t: nat)
    requires forall u | u in m.flights :: FlightOk(cfg, m, u)
    ensures var m' := m.(flights := m.flights - {t}); forall u | u in m'.flights :: FlightOk(cfg, m', u)
  {
    var m' := m.(flights := m.flights - {t});
    forall u | u in m'.flights ensures FlightOk(cfg, m', u) {
      assert FlightOk(cfg, m, u);
      OtherFlightOk(cfg, m, m', u);
    }
  }

  lemma DiesKeeps(cfg: Config, m: Thread, t: nat)
    requires ThreadOk(cfg, m) && t in m.flights
    ensures ThreadOk(cfg, m.(flights := m.flights - {t}))
  {
    DiesFlights(cfg, m, t);
    if !m.shared.fellBack {
      DiesAlone(m, t);
    }
  }

  lemma ThreadNextKeeps(cfg: Config, m: Thread, e: ThreadEvent, m': Thread)
    requires ThreadOk(cfg, m) && ThreadNext(cfg, m, e, m')
    ensures ThreadOk(cfg, m')
  {
    match e
    case Begins(k, c, id, message) => BeginsKeeps(cfg, m, k, c, id, message);
    case Steps(t, ch) => StepsKeeps(cfg, m, t, ch);
    case Dies(t) => DiesKeeps(cfg, m, t);
    case _ => SharedKeeps(cfg, m, m');
  }

  /** The invariant of the protocol holds for every turn in flight, in every state of every run. */
  lemma {:induction false} ThreadRunKeeps(cfg: Config, run: seq<Thread>, events: seq<ThreadEvent>, i: nat)
    requires ThreadRun(cfg, run, events) && i < |run|
    ensures ThreadOk(cfg, run[i])
  {
    if i > 0 {
      ThreadRunKeeps(cfg, run, events, i - 1);
      ThreadNextKeeps(cfg, run[i - 1], events[i - 1], run[i]);
    }
  }

  // ------------------------------------------------------------------------------- main results

  /** However turns overlap, what runs is what was confirmed, in the turn of the call itself. */
  lemma OverlappingRunsConfirmed(cfg: Config, run: seq<Thread>, events: seq<ThreadEvent>, i: nat, k: nat)
    requires ThreadRun(cfg, run, events) && i < |run| && k < |run[i].shared.calls|
    ensures Conversations.WasConfirmed(cfg, run[i].shared, run[i].shared.calls[k])
  {
    ThreadRunKeeps(cfg, run, events, i);
    Conversations.RecordedWasConfirmed(cfg, run[i].shared, k);
  }

  /** However turns overlap, each captured action, and each idempotency key of a tool, changes business
      rows at most once. */
  lemma OverlappingAtMostOneEffect(cfg: Config, run: seq<Thread>, events: seq<ThreadEvent>, i: nat, j: nat, k: nat)
    requires ThreadRun(cfg, run, events) && i < |run| && j < |run[i].shared.calls| && k < |run[i].shared.calls|
    requires run[i].shared.calls[j].wrote && run[i].shared.calls[k].wrote
    requires run[i].shared.calls[j].serial == run[i].shared.calls[k].serial
             || ScopeOfCall(run[i].shared.calls[j]) == ScopeOfCall(run[i].shared.calls[k])
    ensures j == k
  {
    ThreadRunKeeps(cfg, run, events, i);
    var w := run[i].shared;
    assert CallOk(cfg, w, w.calls[j]) && CallOk(cfg, w, w.calls[k]);
  }

  /** While no turn begins beside another or from an earlier checkpoint, each captured action is called
      at most once. */
  lemma SequentialAtMostOneCall(cfg: Config, run: seq<Thread>, events: seq<ThreadEvent>, i: nat, j: nat, k: nat)
    requires ThreadRun(cfg, run, events) && i < |run| && j < |run[i].shared.calls| && k < |run[i].shared.calls|
    requires !run[i].shared.fellBack
    requires run[i].shared.calls[j].serial.Some? && run[i].shared.calls[j].serial == run[i].shared.calls[k].serial
    ensures j == k
  {
    ThreadRunKeeps(cfg, run, events, i);
  }

  // ------------------------------------------------------------------------- one call for each turn

  ghost predicate OneCallEach(m: Thread) {
    && (forall k | 0 <= k < |m.shared.calls| :: m.shared.calls[k].turn <= m.shared.latest)
    && (forall j, k | 0 <= j < k < |m.shared.calls| :: m.shared.calls[j].turn != m.shared.calls[k].turn)
    && (forall t | t in m.flights :: t <= m.shared.latest && (!PastCalls(m.flights[t].node) ==> NotCalledBy(m, t)))
  }

  ghost predicate NotCalledBy(m: Thread, t: nat) {
    forall k | 0 <= k < |m.shared.calls| :: m.shared.calls[k].turn != t
  }

  lemma OneCallPut(m: Thread, t: nat, w': World)
    requires OneCallEach(m) && t in m.flights && Stepped(View(m, t), w')
    ensures OneCallEach(Put(m, t, w'))
  {
    var m', calls := Put(m, t, w'), m.shared.calls;
    forall k | 0 <= k < |w'.calls| ensures w'.calls[k].turn <= w'.latest && (k < |calls| ==> w'.calls[k] == calls[k]) {
    }
    forall u | u in m'.flights ensures u <= w'.latest && (!PastCalls(m'.flights[u].node) ==> NotCalledBy(m', u)) {
      if u == t {
        assert !PastCalls(w'.node) ==> w'.calls == calls;
      }
    }
  }

  lemma OneCallBegins(m: Thread, k: nat, c: Context, id: string, message: Message)
    requires OneCallEach(m) && k < |m.shared.checkpoints|
    ensures OneCallEach(Begun(m, k, c, id, message))
  {
  }

  lemma OneCallStep(cfg: Config, m: Thread, e: ThreadEvent, m': Thread)
    requires OneCallEach(m) && ThreadNext(cfg, m, e, m')
    ensures OneCallEach(m')
  {
    match e
    case Begins(k, c, id, message) => OneCallBegins(m, k, c, id, message);
    case Steps(t, ch) =>
      StepIs(cfg, View(m, t), ch);
      OneCallPut(m, t, RunNode(cfg, View(m, t), ch));
    case _ =>
  }

  lemma {:induction false} RunOneCallEach(cfg: Config, run: seq<Thread>, events: seq<ThreadEvent>, i: nat)
    requires ThreadRun(cfg, run, events) && i < |run|
    ensures OneCallEach(run[i])
  {
    if i > 0 {
      RunOneCallEach(cfg, run, events, i - 1);
      OneCallStep(cfg, run[i - 1], events[i - 1], run[i]);
    }
  }

  /** However turns overlap, an action is called twice only in two turns, after a yes in each of them: a
      confirmation causes at most one call. */
  lemma EachYesCallsOnce(cfg: Config, run: seq<Thread>, events: seq<ThreadEvent>, i: nat, j: nat, k: nat)
    requires ThreadRun(cfg, run, events) && i < |run| && j < |run[i].shared.calls| && k < |run[i].shared.calls|
             && j != k
    requires run[i].shared.calls[j].serial.Some? && run[i].shared.calls[j].serial == run[i].shared.calls[k].serial
    ensures var w := run[i].shared;
            && w.calls[j].turn != w.calls[k].turn
            && exists y, z :: 0 <= y < |w.confirms| && 0 <= z < |w.confirms| && y != z
                              && w.confirms[y].turn == w.calls[j].turn && w.confirms[z].turn == w.calls[k].turn
                              && w.confirms[y].serial == w.confirms[z].serial == w.calls[j].serial.value
  {
    ThreadRunKeeps(cfg, run, events, i);
    RunOneCallEach(cfg, run, events, i);
    var w := run[i].shared;
    assert CallOk(cfg, w, w.calls[j]) && CallOk(cfg, w, w.calls[k]);
    var y := YesOf(cfg, w, j);
    var z := YesOf(cfg, w, k);
  }

  lemma YesOf(cfg: Config, w: World, j: nat) returns (y: nat)
    requires Records(cfg, w) && j < |w.calls| && w.calls[j].serial.Some?
    ensures y < |w.confirms| && w.confirms[y].turn == w.calls[j].turn && w.confirms[y].serial == w.calls[j].serial.value
  {
    var c := w.calls[j];
    assert CallOk(cfg, w, c);
    assert CreationOk(cfg, w, c.serial.value);
    y :| 0 <= y < |w.confirms| && YesTo(cfg, w.created[c.serial.value].action, w.confirms[y], c);
  }

  /** However turns overlap, in each of them an action is never both pending and suspended, and both are
      as they were captured. */
  lemma OverlappingSlots(cfg: Config, run: seq<Thread>, events: seq<ThreadEvent>, i: nat, t: nat)
    requires ThreadRun(cfg, run, events) && i < |run| && t in run[i].flights
    ensures var s, w := run[i].flights[t].state, run[i].shared;
            && (Suspension(s).Some? ==>
                  var a := Suspension(s).value;
                  && a.serial < |w.created| && a == w.created[a.serial].action.(status := Waiting)
                  && (s.slots.pending.Some? ==>
                        s.slots.pending.value.serial != a.serial && s.slots.pending.value.id != a.id))
            && (s.slots.pending.Some? ==> Known(w, s.slots.pending.value))
  {
    ThreadRunKeeps(cfg, run, events, i);
    assert FlightOk(cfg, run[i], t);
  }
}
