/** Two cancellations in one conversation: a run in which nothing fails, and the second action, confirmed
    under the id of the first, is refused. */
module Reuse {
  import opened Domain
  import opened PendingPayload
  import opened Compiler
  import opened Agent
  import opened Graph
  import opened Safety
  import opened Completion
  import opened Turns
  import Conversations
  import DB = Database

  // ------------------------------------------------------------------------------- reachability

  ghost predicate Reachable(cfg: Config, w: World) {
    exists run, events :: Run(cfg, run, events) && run[|run| - 1] == w
  }

  ghost function ReachableWorlds(cfg: Config): iset<World> {
    iset w: World | Reachable(cfg, w)
  }

  lemma ReachNext(cfg: Config, w: World, e: Event, w': World)
    requires Reachable(cfg, w) && Next(cfg, w, e, w')
    ensures Reachable(cfg, w')
  {
    var run, events :| Run(cfg, run, events) && run[|run| - 1] == w;
    var run', events' := run + [w'], events + [e];
    forall i | 0 <= i < |events'| ensures Next(cfg, run'[i], events'[i], run'[i + 1]) {
      if i < |events| {
        assert Next(cfg, run[i], events[i], run[i + 1]);
      }
    }
    assert Run(cfg, run', events') && run'[|run'| - 1] == w';
  }

  /** Nodes and turns lead from reachable worlds to reachable ones. */
  lemma ReachableIsClosed(cfg: Config)
    ensures Closed(cfg, ReachableWorlds(cfg)) && TakesTurns(ReachableWorlds(cfg))
  {
    var worlds := ReachableWorlds(cfg);
    forall w: World, ch: Choice | w in worlds && w.node != Idle && ch.newId !in w.usedIds
      ensures RunNode(cfg, w, ch) in worlds
    {
      ReachNext(cfg, w, Node(ch), RunNode(cfg, w, ch));
    }
    forall w: World, c, id, m | w in worlds && w.node == Idle ensures Turned(w, c, id, m) in worlds {
      ReachNext(cfg, w, Turn(c, id, m), Turned(w, c, id, m));
    }
  }

  lemma ReachableKeeps(cfg: Config, w: World)
    requires Reachable(cfg, w)
    ensures Inv(cfg, w)
  {
    var run, events :| Run(cfg, run, events) && run[|run| - 1] == w;
    Conversations.RunKeeps(cfg, run, events, |run| - 1);
  }

  // ------------------------------------------------------------------------- Alice and her orders

  const ALICE := Context("c1", "acme", 1, "alice", ActorType.Customer, Static, [], [])

  const ID1 := "act_0001"
  const ID2 := "act_0002"
  const ID3 := "act_0003"
  const ID4 := "act_0004"
  const ID5 := "act_0005"

  lemma IdsDiffer()
    ensures |ID1| == |ID2| == |ID3| == |ID4| == |ID5| == 8
    ensures ID1 !in {ID2, ID3, ID4, ID5} && ID2 !in {ID3, ID4, ID5} && ID3 !in {ID4, ID5} && ID4 != ID5
  {
    assert ID1[7] == '1' && ID2[7] == '2' && ID3[7] == '3' && ID4[7] == '4' && ID5[7] == '5';
  }

  /** A message in which no phrase list finds anything. */
  function Says(text: string, parsed: Parsed): Message {
    Message(text, parsed, false, false, NoSignal, None, false, false, false, false)
  }

  function AskText(order: int): string {
    if order == 7 then "cancel order 7" else "cancel order 8"
  }

  /** A request to cancel is one of the shapes that can interrupt another workflow. */
  function AskFor(order: int): Message {
    Says(AskText(order), SaysOther).(interruption := true)
  }

  const YES := Says("yes", SaysYes)

  const ORDERS :=
    DB.Db(map[7 := DB.Order("acme", 1, DB.Pending), 8 := DB.Order("acme", 1, DB.Pending)], map[], map[], 1, 1)

  const BLANK := State(
    Agent.Request(ALICE, "c1", Says("", SaysOther), ""), None, Slots(None, None, None),
    Plan(None, map[], None, UnknownIntent, Unclear, false, false, NotApplicable, None, false, false),
    Work(false, None, map[], map[], None, [], false, NoInterruption, NoResumption),
    Progress(Unset, None, false, false, NotExecuted))

  const THREAD := World(BLANK, Idle, 0, 0, 0, ORDERS, {}, [BLANK], [], [], [], {}, false)

  lemma ThreadIsNew()
    ensures Init(THREAD)
  {
    assert DB.Consistent(ORDERS);
  }

  /** A number of one digit at the end of a text stands alone. */
  lemma LastDigitStands(text: string, n: nat)
    requires 1 <= n < 10 && |text| >= 2 && text[|text| - 2] == ' ' && text[|text| - 1] == (n as char) + '0'
    ensures WrittenIn(n, text)
  {
    var i, j := |text| - 1, |text|;
    assert text[i..j] == [text[i]] == DecimalText(n);
    assert StandsAlone(text, i, j);
  }

  lemma CancelWritten(before: string, order: int)
    requires order in {7, 8}
    ensures WrittenIn(order, before + " " + AskText(order))
  {
    var last := AskText(order);
    assert |last| == 14 && last[12] == ' ' && last[13] == (order as char) + '0';
    LastDigitStands(before + " " + last, order);
  }

  /** A turn of Alice has just begun, with this message after the text of the earlier ones. */
  ghost predicate AliceSays(w: World, m: Message, before: string) {
    && w.node == AtLoadContext && w.state.request == Agent.Request(ALICE, "c1", m, before + " " + m.text)
    && w.state.owner in {None, Some(OwnerOf(ALICE))} && !w.state.work.active
  }

  lemma AliceBegins(worlds: iset<World>, w: World, m: Message) returns (w': World)
    requires TakesTurns(worlds) && w in worlds && w.node == Idle
    requires w.state.owner in {None, Some(OwnerOf(ALICE))} && !w.state.work.active
    ensures w' in worlds && AliceSays(w', m, w.state.request.text) && w'.state.slots == w.state.slots
    ensures SameRest(w, w') && w'.usedIds == w.usedIds
  {
    w' := Begins(worlds, w, ALICE, m);
  }

  /** Alice's cancellation of this order, waiting since the start. */
  ghost predicate AliceWaits(s: State, order: int) {
    && s.slots.pending.Some? && s.slots.actionId == Some(ID1)
    && CancelsOrder(s.slots.pending.value, s.request, order, ID1, 0)
  }

  /** Alice asks for the cancellation of one of the orders, with nothing before it or an executed action. */
  lemma AliceAsks(cfg: Config, worlds: iset<World>, w: World, before: string, order: int,
                  id1: string, id2: string, id3: string)
    returns (w': World)
    requires CanGo(cfg, worlds, w, Calm(NoAnswer, id1), AtLoadContext) && AliceSays(w, AskFor(order), before)
    requires cfg.contract == SemanticContract && !cfg.lex.contradictoryCancel(w.state.request.text) && order in {7, 8}
    requires id2 !in w.usedIds && id3 !in w.usedIds && id1 != id2 && id1 != id3 && id2 != id3
    requires w.state.slots.pending.Some? ==>
               w.state.slots.pending.value.status == Executed && BelongsTo(w.state.slots.pending.value, ALICE)
    requires w.now == 0 && Named(w.state.slots, id1).actionId == Some(ID1)
    ensures w' in worlds && w'.node == Idle && SameRest(w, w') && w'.usedIds == w.usedIds + {id1, id2} && Saved(w')
    ensures w'.state.request == w.state.request && w'.state.owner == Some(OwnerOf(ALICE)) && !w'.state.work.active
    ensures AliceWaits(w'.state, order)
  {
    CancelWritten(before, order);
    w' := RequestIsCaptured(cfg, worlds, w, order, id1, id2, id3);
  }

  /** A yes of Alice to her own waiting cancellation is all it takes. */
  lemma YesAgrees(cfg: Config, w: World, before: string, order: int)
    requires AliceSays(w, YES, before) && AliceWaits(w.state, order) && order > 0 && w.now == 0 && cfg.ttl > 0
    requires !cfg.lex.contradictoryCancel(w.state.request.text)
    requires DB.ValidateCancel(w.db, RequestOf(CancelOrder, ALICE, ID1, CancelArguments(1, order))) == None
    ensures Agrees(cfg, w)
  {
    CancelIsCaptured(w.state.slots.pending.value, w.state.request, order, ID1, 0);
  }

  /** The confirmed cancellation is about to be called. */
  ghost predicate ReadyToCancel(w: World, order: int) {
    && w.node == AtExecuteConfirmed && w.state.slots.pending.Some? && w.state.slots.actionId == Some(ID1)
    && w.state.request.context == ALICE && w.state.owner == Some(OwnerOf(ALICE)) && !w.state.work.active
    && var a := w.state.slots.pending.value;
       && a.tool == CancelOrder && a.id == ID1 && a.arguments == CancelArguments(1, order) && BelongsTo(a, ALICE)
       && w.state.plan.tool == Some(CancelOrder) && w.state.plan.arguments == a.arguments
  }

  /** "yes", to the waiting cancellation. */
  lemma AliceConfirms(cfg: Config, worlds: iset<World>, w: World, before: string, order: int, spare: string)
    returns (w': World)
    requires CanGo(cfg, worlds, w, Calm(NoAnswer, spare), AtLoadContext) && AliceSays(w, YES, before)
    requires AliceWaits(w.state, order) && order > 0 && w.now == 0 && cfg.ttl > 0
    requires !cfg.lex.contradictoryCancel(w.state.request.text)
    requires DB.ValidateCancel(w.db, RequestOf(CancelOrder, ALICE, ID1, CancelArguments(1, order))) == None
    ensures w' in worlds && SameRest(w, w') && w'.usedIds == w.usedIds && ReadyToCancel(w', order)
    ensures w'.state.slots == w.state.slots.(pending := Some(w.state.slots.pending.value.(status := Confirmed)))
  {
    YesAgrees(cfg, w, before, order);
    w' := YesReachesExecution(cfg, worlds, w, spare);
  }

  lemma ReadyIsAboutToCall(w: World, order: int)
    requires ReadyToCancel(w, order) && order > 0 && !DB.Execute(w.db, Sent(w, w.state.slots.pending.value)).1.Refused?
    ensures AboutToCall(w, w.state.slots.pending.value)
  {
    NormalisedCancel(CancelArguments(1, order), 1, order);
  }

  // ------------------------------------------------------------------------ the second cancellation

  /** A lexicon that finds nothing wrong. */
  const TRUSTING := Lexicon(_ => {}, {}, _ => false, _ => false, _ => false, _ => false)

  const SHOP := Config(SemanticContract, 900, TRUSTING)

  function Cancellation(order: int): DB.Request {
    RequestOf(CancelOrder, ALICE, ID1, CancelArguments(1, order))
  }

  /** What is left of the shop when order 7 is cancelled. */
  lemma FirstCancellation()
    ensures var (db, out) := DB.Execute(ORDERS, Cancellation(7));
            && out.Written? && RowsDiffer(ORDERS, db) && DB.ValidateCancel(ORDERS, Cancellation(7)) == None
            && DB.ValidateCancel(db, Cancellation(7)) == None && DB.ValidateCancel(db, Cancellation(8)) == None
            && DB.Consistent(db) && DB.Execute(db, Cancellation(7)) == (db, DB.Replayed(7))
  {
    var db := DB.Execute(ORDERS, Cancellation(7)).0;
    assert DB.Consistent(ORDERS);
    DB.ExecuteKeeps(ORDERS, Cancellation(7));
    assert !DB.HasScope(ORDERS, DB.ScopeOf(Cancellation(7)));
    assert db.orders[7].status == DB.Cancelled;
    assert db.receipts == map[1 := DB.Receipt(DB.ScopeOf(Cancellation(7)), Cancellation(7).payload, 7)];
    DB.RetryIsReplay(db, Cancellation(7), Cancellation(7));
  }

  ghost predicate FirstCall(w: World) {
    && |w.calls| == 1 && w.calls[0].wrote
    && w.calls[0].call == Agent.Call(CancelOrder, CancelArguments(1, 7), ALICE, ID1)
  }

  /** After the first cancellation. */
  ghost predicate OneCancelled(w: World) {
    && w.node == Idle && w.now == 0 && w.usedIds == {ID1, ID2}
    && w.db == DB.Execute(ORDERS, Cancellation(7)).0 && FirstCall(w)
    && w.state.slots.pending.Some? && w.state.slots.pending.value.status == Executed
    && BelongsTo(w.state.slots.pending.value, ALICE)
    && w.state.slots.actionId == Some(ID1) && w.state.owner == Some(OwnerOf(ALICE)) && !w.state.work.active
  }

  lemma AliceIsServed(worlds: iset<World>, w: World) returns (w': World)
    requires CanGo(SHOP, worlds, w, Calm(NoAnswer, ID3), AtExecuteConfirmed) && ReadyToCancel(w, 7) && w.db == ORDERS
    requires w.now == 0 && w.usedIds == {ID1, ID2} && w.calls == []
    ensures w' in worlds && OneCancelled(w') && HasCalled(w, w.state.slots.pending.value, w')
  {
    FirstCancellation();
    ReadyIsAboutToCall(w, 7);
    w' := ExecutionStep(SHOP, worlds, w, w.state.slots.pending.value, ID3);
  }

  /** A thread in which nothing has happened, on a shop with two open orders. */
  ghost predicate NewThread(w: World) {
    && w.node == Idle && w.db == ORDERS && w.calls == [] && w.now == 0 && w.usedIds == {}
    && w.state.slots == Slots(None, None, None) && w.state.owner == None && !w.state.work.active
  }

  /** "cancel order 7": the first request, waiting for an answer. */
  ghost predicate FirstWaits(w: World) {
    && w.node == Idle && w.db == ORDERS && w.calls == [] && w.now == 0 && w.usedIds == {ID1, ID2} && Saved(w)
    && w.state.owner == Some(OwnerOf(ALICE)) && !w.state.work.active
    && w.state.request.context == ALICE && AliceWaits(w.state, 7)
  }

  lemma FirstIsAsked(cfg: Config, worlds: iset<World>, w: World) returns (w': World)
    requires Closed(cfg, worlds) && w in worlds && cfg.contract == SemanticContract
    requires w.db == ORDERS && w.calls == [] && w.now == 0 && w.usedIds == {}
             && w.state.slots == Slots(None, None, None)
    requires AliceSays(w, AskFor(7), "") && !cfg.lex.contradictoryCancel(w.state.request.text)
    ensures w' in worlds && FirstWaits(w') && w'.state.request == w.state.request
  {
    IdsDiffer();
    w' := AliceAsks(cfg, worlds, w, "", 7, ID1, ID2, ID3);
  }

  /** "yes". */
  lemma FirstIsConfirmed(worlds: iset<World>, w: World, before: string) returns (w': World)
    requires Closed(SHOP, worlds) && w in worlds && AliceSays(w, YES, before)
    requires w.db == ORDERS && w.calls == [] && w.now == 0 && w.usedIds == {ID1, ID2} && AliceWaits(w.state, 7)
    ensures w' in worlds && OneCancelled(w') && w'.calls[0].serial == Some(w.state.slots.pending.value.serial)
  {
    IdsDiffer();
    FirstCancellation();
    var w1 := AliceConfirms(SHOP, worlds, w, before, 7, ID3);
    w' := AliceIsServed(worlds, w1);
  }

  /** The second request, waiting for an answer, on the shop the first has left. */
  ghost predicate SecondWaits(w: World) {
    && w.node == Idle && w.db == DB.Execute(ORDERS, Cancellation(7)).0 && w.now == 0 && FirstCall(w)
    && ID5 !in w.usedIds && w.state.owner == Some(OwnerOf(ALICE)) && !w.state.work.active
    && w.state.request.context == ALICE && AliceWaits(w.state, 8)
  }

  /** "cancel order 8". */
  lemma SecondIsAsked(worlds: iset<World>, from: World) returns (w: World)
    requires Closed(SHOP, worlds) && TakesTurns(worlds) && from in worlds && OneCancelled(from)
    ensures w in worlds && SecondWaits(w)
  {
    IdsDiffer();
    var w1 := AliceBegins(worlds, from, AskFor(8));
    w := AliceAsks(SHOP, worlds, w1, from.state.request.text, 8, ID3, ID4, ID5);
  }

  /** "yes": the second action reaches its execution under the id of the first. */
  lemma SecondIsConfirmed(worlds: iset<World>, from: World) returns (w: World)
    requires Closed(SHOP, worlds) && TakesTurns(worlds) && from in worlds && SecondWaits(from)
    ensures w in worlds && ID5 !in w.usedIds && FirstCall(w) && w.db == from.db && ReadyToCancel(w, 8)
  {
    FirstCancellation();
    var w1 := AliceBegins(worlds, from, YES);
    w := AliceConfirms(SHOP, worlds, w1, from.state.request.text, 8, ID5);
  }

  /** A run in which a customer cancels order 7 and then asks to cancel order 8, confirms both in time,
      and nothing fails. The second call passes the tool's own check, but its key has the receipt of the
      first: it is refused as a duplicate, nothing changes, and the action ends failed. */
  lemma SecondCancellationIsRefused() returns (w: World, ch: Choice)
    ensures Reachable(SHOP, w) && w.node == AtExecuteConfirmed && Next(SHOP, w, Node(ch), RunNode(SHOP, w, ch))
    ensures ch.fate == NOTHING_BREAKS && FirstCall(w) && ReadyToCancel(w, 8)
    ensures DB.ValidateCancel(w.db, Sent(w, w.state.slots.pending.value)) == None
    ensures RunNode(SHOP, w, ch).db == w.db
    ensures RunNode(SHOP, w, ch).state.slots.pending == Some(w.state.slots.pending.value.(status := Failed))
    ensures RunNode(SHOP, w, ch).state.progress.error == Some(DuplicateError)
  {
    var worlds := ReachableWorlds(SHOP);
    ReachableIsClosed(SHOP);
    ThreadIsNew();
    assert Run(SHOP, [THREAD], []) && [THREAD][|[THREAD]| - 1] == THREAD;
    var w1 := FirstIsServed(worlds, THREAD);
    var w2 := SecondIsAsked(worlds, w1);
    w := SecondIsConfirmed(worlds, w2);
    ch := Calm(NoAnswer, ID5);
    FirstCancellation();
    ReachableKeeps(SHOP, w);
    Conversations.ReusedKeyIsRefused(SHOP, w, ch, 0);
  }

  lemma FirstIsServed(worlds: iset<World>, from: World) returns (w: World)
    requires Closed(SHOP, worlds) && TakesTurns(worlds) && from in worlds && NewThread(from)
             && from.state.request.text == ""
    ensures w in worlds && OneCancelled(w)
  {
    var w1 := AliceBegins(worlds, from, AskFor(7));
    var w2 := FirstIsAsked(SHOP, worlds, w1);
    var w3 := AliceBegins(worlds, w2, YES);
    w := FirstIsConfirmed(worlds, w3, w2.state.request.text);
  }
}
