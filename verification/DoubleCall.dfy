/** Two requests at once: a run in which two confirmations of one waiting cancellation overlap, and the
    tool is called twice. */
module DoubleCall {
  import opened Domain
  import opened Compiler
  import opened Agent
  import opened Graph
  import opened Turns
  import opened Overlap
  import opened Reuse
  import DB = Database

  // ------------------------------------------------------------------------------- reachability

  /** Every turn begins from the latest checkpoint. */
  ghost predicate LoadsLatest(run: seq<Thread>, events: seq<ThreadEvent>) {
    forall i | 0 <= i < |events| && i < |run| :: events[i].Begins? ==> events[i].k + 1 == |run[i].shared.checkpoints|
  }

  ghost predicate Reached(cfg: Config, m: Thread) {
    exists run, events :: ThreadRun(cfg, run, events) && LoadsLatest(run, events) && run[|run| - 1] == m
  }

  lemma ReachedNext(cfg: Config, m: Thread, e: ThreadEvent, m': Thread)
    requires Reached(cfg, m) && ThreadNext(cfg, m, e, m')
    requires e.Begins? ==> e.k + 1 == |m.shared.checkpoints|
    ensures Reached(cfg, m')
  {
    var run, events :| ThreadRun(cfg, run, events) && LoadsLatest(run, events) && run[|run| - 1] == m;
    var run', events' := run + [m'], events + [e];
    forall i | 0 <= i < |events'|
      ensures ThreadNext(cfg, run'[i], events'[i], run'[i + 1])
      ensures events'[i].Begins? ==> events'[i].k + 1 == |run'[i].shared.checkpoints|
    {
      if i < |events| {
        assert ThreadNext(cfg, run[i], events[i], run[i + 1]);
      }
    }
    assert ThreadRun(cfg, run', events') && LoadsLatest(run', events') && run'[|run'| - 1] == m';
  }

  /** The worlds that turn `t` of the thread can see when it alone goes on. */
  ghost function FlightWorlds(cfg: Config, m: Thread, t: nat): iset<World> {
    iset w: World | w.turn == t && w.latest == m.shared.latest && w.fellBack == m.shared.fellBack
      && Reached(cfg, Put(m, t, w))
  }

  lemma PutTwice(m: Thread, t: nat, w: World, w': World)
    requires w.node != Idle && w.turn == t
    ensures t in Put(m, t, w).flights && View(Put(m, t, w), t) == w
    ensures Put(Put(m, t, w), t, w') == Put(m, t, w')
  {
    assert m.flights[t := Flight(w.state, w.node)] - {t} == m.flights - {t};
  }

  lemma FlightStep(cfg: Config, m: Thread, t: nat, w: World, ch: Choice)
    requires w in FlightWorlds(cfg, m, t) && w.node != Idle && ch.newId !in w.usedIds
    ensures RunNode(cfg, w, ch) in FlightWorlds(cfg, m, t)
  {
    PutTwice(m, t, w, RunNode(cfg, w, ch));
    StepIs(cfg, w, ch);
    ReachedNext(cfg, Put(m, t, w), Steps(t, ch), Put(m, t, RunNode(cfg, w, ch)));
  }

  lemma FlightsAreClosed(cfg: Config, m: Thread, t: nat)
    ensures Closed(cfg, FlightWorlds(cfg, m, t))
  {
    var worlds := FlightWorlds(cfg, m, t);
    forall w: World, ch: Choice | w in worlds && w.node != Idle && ch.newId !in w.usedIds
      ensures RunNode(cfg, w, ch) in worlds
    {
      FlightStep(cfg, m, t, w, ch);
    }
  }

  lemma InFlight(cfg: Config, m: Thread, t: nat)
    requires Reached(cfg, m) && t in m.flights && m.flights[t].node != Idle
    ensures View(m, t) in FlightWorlds(cfg, m, t)
  {
    assert m.flights[t := Flight(m.flights[t].state, m.flights[t].node)] == m.flights;
    assert Put(m, t, View(m, t)) == m;
  }

  /** A turn of Alice's begins from the latest checkpoint. */
  lemma BeginsLatest(m: Thread, message: Message) returns (m': Thread)
    requires Reached(SHOP, m) && |m.shared.checkpoints| > 0
    ensures m' == Begun(m, |m.shared.checkpoints| - 1, ALICE, "c1", message) && Reached(SHOP, m')
  {
    m' := Begun(m, |m.shared.checkpoints| - 1, ALICE, "c1", message);
    ReachedNext(SHOP, m, Begins(|m.shared.checkpoints| - 1, ALICE, "c1", message), m');
  }

  // ------------------------------------------------------------------------------- the run

  /** The cancellation of order 7 is waiting in the latest checkpoint. */
  ghost predicate WaitsShared(w: World) {
    && w.db == ORDERS && w.calls == [] && w.now == 0 && w.usedIds == {ID1, ID2} && |w.checkpoints| > 0
    && WaitsIn(w.checkpoints[|w.checkpoints| - 1])
  }

  ghost predicate WaitsIn(s: State) {
    s.owner == Some(OwnerOf(ALICE)) && !s.work.active && s.request.context == ALICE && AliceWaits(s, 7)
  }

  lemma NewIsReached()
    ensures Reached(SHOP, Thread(THREAD, map[]))
  {
    ThreadIsNew();
    var m := Thread(THREAD, map[]);
    assert ThreadRun(SHOP, [m], []) && LoadsLatest([m], []) && [m][|[m]| - 1] == m;
  }

  /** "cancel order 7". */
  lemma OrderIsAsked() returns (m: Thread)
    ensures Reached(SHOP, m) && WaitsShared(m.shared)
  {
    NewIsReached();
    var m1 := BeginsLatest(Thread(THREAD, map[]), AskFor(7));
    FlightsAreClosed(SHOP, m1, 1);
    InFlight(SHOP, m1, 1);
    var w := FirstIsAsked(SHOP, FlightWorlds(SHOP, m1, 1), View(m1, 1));
    m := Put(m1, 1, w);
  }

  /** A turn has just begun, with a yes to the cancellation. */
  ghost predicate SaysYesTo(s: State, before: string) {
    WaitsIn(s) && s.request == Agent.Request(ALICE, "c1", YES, before + " yes")
  }

  function Latest(w: World): State
    requires |w.checkpoints| > 0
  {
    w.checkpoints[|w.checkpoints| - 1]
  }

  lemma YesBegins(m: Thread) returns (m': Thread, before: string)
    requires Reached(SHOP, m) && WaitsShared(m.shared)
    ensures Reached(SHOP, m') && WaitsShared(m'.shared) && m'.shared.latest == m.shared.latest + 1
    ensures m'.flights == m.flights[m'.shared.latest := Flight(Latest(m'.shared), AtLoadContext)]
    ensures SaysYesTo(Latest(m'.shared), before) && Latest(m'.shared).slots == Latest(m.shared).slots
  {
    m' := BeginsLatest(m, YES);
    before := Latest(m.shared).request.text;
  }

  /** Two turns in flight, each of them with a yes to the same waiting action. */
  ghost predicate BothSayYes(m: Thread, t: nat, u: nat, before: string, before': string) {
    && t != u && t in m.flights && u in m.flights && WaitsShared(m.shared)
    && m.flights[t].node == AtLoadContext && SaysYesTo(m.flights[t].state, before)
    && m.flights[u].node == AtLoadContext && SaysYesTo(m.flights[u].state, before')
    && m.flights[u].state.slots == m.flights[t].state.slots
  }

  lemma FirstIsCalled(worlds: iset<World>, w: World, before: string) returns (w': World)
    requires Closed(SHOP, worlds) && w in worlds && w.node == AtLoadContext && SaysYesTo(w.state, before)
    requires w.db == ORDERS && w.calls == [] && w.now == 0 && w.usedIds == {ID1, ID2}
    ensures w' in worlds && w'.node == Idle && OneCancelledIn(w')
    ensures w'.calls[0].serial == Some(w.state.slots.pending.value.serial)
  {
    w' := FirstIsConfirmed(worlds, w, before);
  }

  /** The first of them goes through to its end. */
  lemma FirstGoesThrough(m: Thread, t: nat, u: nat, before: string, before': string) returns (m': Thread)
    requires Reached(SHOP, m) && BothSayYes(m, t, u, before, before')
    ensures Reached(SHOP, m') && u in m'.flights && m'.flights[u] == m.flights[u]
    ensures OneCancelledIn(m'.shared)
            && m'.shared.calls[0].serial == Some(m.flights[u].state.slots.pending.value.serial)
  {
    var worlds := FlightWorlds(SHOP, m, t);
    FlightsAreClosed(SHOP, m, t);
    InFlight(SHOP, m, t);
    var w := FirstIsCalled(worlds, View(m, t), before);
    m' := Put(m, t, w);
  }

  /** The records after the first call. */
  ghost predicate OneCancelledIn(w: World) {
    w.now == 0 && w.usedIds == {ID1, ID2} && w.db == DB.Execute(ORDERS, Cancellation(7)).0 && FirstCall(w)
  }

  /** Both calls of the same action. */
  ghost predicate CalledTwice(w: World) {
    && |w.calls| == 2 && w.calls[0].serial.Some? && w.calls[1].serial == w.calls[0].serial
    && w.calls[0].call == w.calls[1].call == Agent.Call(CancelOrder, CancelArguments(1, 7), ALICE, ID1)
    && w.calls[0].wrote && !w.calls[1].wrote
  }

  /** The same cancellation is about to be called once more. */
  ghost predicate Repeats(w: World) {
    ReadyToCancel(w, 7) && OneCancelledIn(w) && w.calls[0].serial == Some(w.state.slots.pending.value.serial)
  }

  lemma RepeatIsCalled(w: World)
    requires Repeats(w)
    ensures AboutToCall(w, w.state.slots.pending.value)
  {
    FirstCancellation();
    ReadyIsAboutToCall(w, 7);
  }

  lemma RepeatIsRecorded(w: World, w': World)
    requires Repeats(w) && HasCalled(w, w.state.slots.pending.value, w')
    ensures CalledTwice(w')
  {
    FirstCancellation();
  }

  lemma SecondIsCalled(worlds: iset<World>, w: World, before: string) returns (w': World)
    requires Closed(SHOP, worlds) && w in worlds && w.node == AtLoadContext && SaysYesTo(w.state, before)
             && OneCancelledIn(w)
    requires w.calls[0].serial == Some(w.state.slots.pending.value.serial)
    ensures w' in worlds && w'.node == Idle && CalledTwice(w')
  {
    IdsDiffer();
    FirstCancellation();
    var w1 := AliceConfirms(SHOP, worlds, w, before, 7, ID3);
    RepeatIsCalled(w1);
    w' := ExecutionStep(SHOP, worlds, w1, w1.state.slots.pending.value, ID3);
    RepeatIsRecorded(w1, w');
  }

  /** The second of them, whose state knows nothing of the first, is confirmed and calls again. */
  lemma SecondGoesThrough(m: Thread, u: nat, before: string) returns (m': Thread)
    requires Reached(SHOP, m) && u in m.flights && OneCancelledIn(m.shared)
    requires m.flights[u].node == AtLoadContext && SaysYesTo(m.flights[u].state, before)
    requires m.shared.calls[0].serial == Some(m.flights[u].state.slots.pending.value.serial)
    ensures Reached(SHOP, m') && CalledTwice(m'.shared)
  {
    var worlds := FlightWorlds(SHOP, m, u);
    FlightsAreClosed(SHOP, m, u);
    InFlight(SHOP, m, u);
    var w := SecondIsCalled(worlds, View(m, u), before);
    m' := Put(m, u, w);
  }

  lemma YesesBegin(m: Thread) returns (m': Thread, t: nat, u: nat, before: string, before': string)
    requires Reached(SHOP, m) && WaitsShared(m.shared)
    ensures Reached(SHOP, m') && BothSayYes(m', t, u, before, before')
  {
    var m1;
    m1, before := YesBegins(m);
    m', before' := YesBegins(m1);
    t, u := m1.shared.latest, m'.shared.latest;
  }

  lemma TwiceIsReached() returns (m: Thread)
    ensures Reached(SHOP, m) && CalledTwice(m.shared)
  {
    var m1 := OrderIsAsked();
    var m2, t, u, before, before' := YesesBegin(m1);
    var m3 := FirstGoesThrough(m2, t, u, before, before');
    m := SecondGoesThrough(m3, u, before');
  }

  /** A run in which a customer asks for a cancellation once and confirms it twice, the two requests
      overlapping. No turn begins from an earlier checkpoint, and yet the captured action is called twice;
      the second call finds the receipt of the first, and no row changes again. */
  lemma OverlappingYesesCallTwice() returns (run: seq<Thread>, events: seq<ThreadEvent>)
    ensures ThreadRun(SHOP, run, events) && LoadsLatest(run, events) && CalledTwice(run[|run| - 1].shared)
  {
    var m := TwiceIsReached();
    run, events :| ThreadRun(SHOP, run, events) && LoadsLatest(run, events) && run[|run| - 1] == m;
  }
}
