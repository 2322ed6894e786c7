/** A wavering customer: a run from a new thread in which a confirmed cancellation is never called, and a
    further yes does not help. */
module Stall {
  import opened Domain
  import opened PendingPayload
  import opened Compiler
  import opened Agent
  import opened Graph
  import opened Safety
  import opened Completion
  import opened Turns
  import opened Reuse

  /** A deployment that takes a text with "cancel" and "maybe" for a contradictory cancellation, and the
      first request of this run for none. */
  ghost predicate Heeds(cfg: Config) {
    && cfg.contract == SemanticContract && cfg.ttl > 0
    && cfg.lex.contradictoryCancel(ASKED) == Wavers(ASKED) && cfg.lex.contradictoryCancel(WAVERED) == Wavers(WAVERED)
  }

  const MAYBE := Says("maybe", SaysOther)

  /** Nothing has been called, and the thread is between turns. */
  ghost predicate Untouched(w: World) {
    w.node == Idle && w.db == ORDERS && w.calls == [] && w.now == 0 && w.usedIds == {ID1, ID2}
  }

  predicate AlicesOwn(s: State, text: string) {
    s.owner == Some(OwnerOf(ALICE)) && !s.work.active && s.request.context == ALICE && s.request.text == text
  }

  /** Alice's cancellation of order 7 is waiting, after this text. */
  ghost predicate WaitsAfter(w: World, text: string) {
    Untouched(w) && WaitingState(w.state, text)
  }

  ghost predicate WaitingState(s: State, text: string) {
    AlicesOwn(s, text) && AliceWaits(s, 7)
  }

  /** It is confirmed, and was not called. */
  ghost predicate StalledAfter(w: World, text: string) {
    Untouched(w) && StalledState(w.state, text)
  }

  ghost predicate StalledState(s: State, text: string) {
    AlicesOwn(s, text) && s.slots.pending.Some? && ConfirmedCancel(s.slots.pending.value)
  }

  predicate ConfirmedCancel(a: Action) {
    a.status == Confirmed && a.tool == CancelOrder && a.arguments == CancelArguments(1, 7) && BelongsTo(a, ALICE)
  }

  lemma AskedIsHeeded(cfg: Config)
    requires Heeds(cfg)
    ensures !cfg.lex.contradictoryCancel(ASKED) && "" + " " + AskText(7) == ASKED
  {
    AskedDoesNotWaver();
  }

  /** "cancel order 7". */
  lemma OrderIsAsked(cfg: Config, worlds: iset<World>) returns (w: World)
    requires Closed(cfg, worlds) && TakesTurns(worlds) && THREAD in worlds && Heeds(cfg)
    ensures w in worlds && WaitsAfter(w, ASKED)
  {
    AskedIsHeeded(cfg);
    var w1 := AliceBegins(worlds, THREAD, AskFor(7));
    w := FirstIsAsked(cfg, worlds, w1);
  }

  function AliceRequest(m: Message, before: string): Request {
    Agent.Request(ALICE, "c1", m, before + " " + m.text)
  }

  lemma NewIdIsFree(w: World)
    requires Untouched(w)
    ensures ID3 !in w.usedIds
  {
    IdsDiffer();
  }

  /** A turn of Alice's, up to the check of what is pending. */
  lemma AliceOpens(cfg: Config, worlds: iset<World>, from: World, m: Message) returns (w: World)
    requires Closed(cfg, worlds) && TakesTurns(worlds) && from in worlds && Untouched(from)
    requires AlicesOwn(from.state, from.state.request.text) && m.signal == NoSignal
    ensures w in worlds && w.node == AtCheckPending && SameRest(from, w) && w.usedIds == from.usedIds
    ensures OnTheWay(w.state, AliceRequest(m, from.state.request.text), from.state.slots)
            && w.state.progress.confirmation == Unset
  {
    NewIdIsFree(from);
    var w1 := AliceBegins(worlds, from, m);
    w := Opening(cfg, worlds, w1, ID3);
  }

  /** The check ends the turn. */
  lemma EndsAtOnce(cfg: Config, worlds: iset<World>, w: World) returns (w': World)
    requires Closed(cfg, worlds) && w in worlds && w.node == AtCheckPending && ID3 !in w.usedIds
    requires After(AtCheckPending, CheckPending(w.state, w.now, cfg.ttl)) == AtRespond
    ensures w' in worlds && w'.node == Idle && SameRest(w, w') && w'.usedIds == w.usedIds
    ensures w'.state == CheckPending(w.state, w.now, cfg.ttl)
  {
    var w1 := GoesCheck(cfg, worlds, w, Calm(NoAnswer, ID3));
    w' := EndTurn(cfg, worlds, w1, Calm(NoAnswer, ID3));
  }

  /** A turn of Alice's that ends with the check of what is pending. */
  lemma ShortTurn(cfg: Config, worlds: iset<World>, from: World, m: Message) returns (w: World, s: State)
    requires Closed(cfg, worlds) && TakesTurns(worlds) && from in worlds && Untouched(from)
    requires AlicesOwn(from.state, from.state.request.text) && m.signal == NoSignal
    requires forall s | OnTheWay(s, AliceRequest(m, from.state.request.text), from.state.slots) ::
               After(AtCheckPending, CheckPending(s, 0, cfg.ttl)) == AtRespond
    ensures w in worlds && Untouched(w) && w.state == CheckPending(s, 0, cfg.ttl)
    ensures OnTheWay(s, AliceRequest(m, from.state.request.text), from.state.slots)
  {
    NewIdIsFree(from);
    var w1 := AliceOpens(cfg, worlds, from, m);
    s := w1.state;
    w := EndsAtOnce(cfg, worlds, w1);
  }

  lemma MaybeIsAmbiguous(s: State, slots: Slots, t: State, ttl: int)
    requires WaitingState(t, ASKED) && slots == t.slots && OnTheWay(s, AliceRequest(MAYBE, ASKED), slots) && ttl > 0
    ensures After(AtCheckPending, CheckPending(s, 0, ttl)) == AtRespond
            && WaitingState(CheckPending(s, 0, ttl), ASKED + " maybe")
  {
    assert ASKED + " " + "maybe" == ASKED + " maybe";
  }

  /** "maybe": it neither confirms nor rejects. */
  lemma MaybeIsSaid(cfg: Config, worlds: iset<World>, from: World) returns (w: World)
    requires Closed(cfg, worlds) && TakesTurns(worlds) && from in worlds && WaitsAfter(from, ASKED) && cfg.ttl > 0
    ensures w in worlds && WaitsAfter(w, ASKED + " maybe")
  {
    forall s | OnTheWay(s, AliceRequest(MAYBE, ASKED), from.state.slots)
      ensures After(AtCheckPending, CheckPending(s, 0, cfg.ttl)) == AtRespond
    {
      MaybeIsAmbiguous(s, from.state.slots, from.state, cfg.ttl);
    }
    var s;
    w, s := ShortTurn(cfg, worlds, from, MAYBE);
    MaybeIsAmbiguous(s, from.state.slots, from.state, cfg.ttl);
  }

  lemma ContradictionAsks(d: Decision, c: Context, text: string, order: int, lex: Lexicon)
    requires d.intent == OrderCancel && d.target == Some(ExplicitOrder(order)) && lex.contradictoryCancel(text)
    ensures Compile(d, c, Grounded, text, false, None, lex) == Ask(d, ContradictoryCancel)
  {
  }

  lemma AskingBackIsCalm(s: State, d: Decision, lex: Lexicon)
    requires s.plan.semantic == Some(d) && s.plan.restored && s.plan.grounding == Grounded && s.progress.error == None
    requires Compile(d, s.request.context, Grounded, s.request.text, false, None, lex) == Ask(d, ContradictoryCancel)
    requires d.intent == OrderCancel
    ensures Alongside(s, SelectTool(CompileDecision(s, None, lex)))
            && !SelectTool(CompileDecision(s, None, lex)).work.active
  {
  }

  /** The captured cancellation stalls at the compiler: its turn ends, and it stays as it was. */
  ghost predicate Stalling(s: State) {
    && StalledState(s, WAVERED)
    && CapturedCall(s.slots.pending.value) && s.slots.pending.value.grounding == Grounded
  }

  lemma StalledPlan(s: State, lex: Lexicon)
    requires Stalling(s) && lex.contradictoryCancel(WAVERED)
    ensures Alongside(s, PlannedAgain(s, None, lex)) && !PlannedAgain(s, None, lex).work.active
  {
    var a, r := s.slots.pending.value, RestorePending(s);
    RestoredExact(s);
    RestoredArguments(a);
    RestorationAlongside(s);
    ContradictionAsks(r.plan.semantic.value, r.request.context, WAVERED, IntOf(Lookup(a.arguments, OrderId)), lex);
    AskingBackIsCalm(r, r.plan.semantic.value, lex);
  }

  /** The compiler asks back. */
  lemma Stalls(cfg: Config, worlds: iset<World>, w: World) returns (w': World)
    requires Closed(cfg, worlds) && w in worlds && w.node == AtRestorePending && ID3 !in w.usedIds && Heeds(cfg)
    requires Stalling(w.state)
    ensures w' in worlds && w'.node == Idle && SameRest(w, w') && w'.usedIds == w.usedIds
            && StalledState(w'.state, WAVERED)
  {
    WaveringStallsTheAction(w.state, None, cfg.lex);
    WaveredWavers();
    CompiledAgainExact(w.state, None, cfg.lex);
    RestorationLeads(w.state);
    StalledPlan(w.state, cfg.lex);
    var w1 := WalksToSelection(cfg, worlds, w, ID3);
    var w2 := GoesSelect(cfg, worlds, w1, Calm(NoAnswer, ID3));
    w' := EndTurn(cfg, worlds, w2, Calm(NoAnswer, ID3));
  }

  lemma YesIsInTime(s: State, slots: Slots, t: State, ttl: int)
    requires WaitingState(t, ASKED + " maybe") && slots == t.slots
             && OnTheWay(s, AliceRequest(YES, ASKED + " maybe"), slots) && ttl > 0
    ensures slots.pending.Some? && SaysYesInTime(s, 0, ttl) && CapturedCall(slots.pending.value)
  {
    CancelIsCaptured(slots.pending.value, t.request, 7, ID1, 0);
  }

  lemma YesMakesStalling(s: State, t: State)
    requires WaitingState(t, ASKED + " maybe") && CapturedCall(t.slots.pending.value)
    requires s.slots == t.slots.(pending := Some(t.slots.pending.value.(status := Confirmed)))
    requires s.request == AliceRequest(YES, ASKED + " maybe") && s.owner == Some(OwnerOf(ALICE)) && !s.work.active
    ensures Stalling(s)
  {
    assert ASKED + " maybe" + " " + "yes" == WAVERED;
  }

  /** Alice's yes has confirmed her cancellation. */
  lemma YesIsHeard(cfg: Config, worlds: iset<World>, from: World) returns (w: World)
    requires Closed(cfg, worlds) && TakesTurns(worlds) && from in worlds && WaitsAfter(from, ASKED + " maybe")
             && cfg.ttl > 0
    ensures w in worlds && w.node == AtRestorePending && Stalling(w.state) && SameRest(from, w)
            && w.usedIds == from.usedIds
  {
    NewIdIsFree(from);
    var slots := from.state.slots;
    var w1 := AliceOpens(cfg, worlds, from, YES);
    YesIsInTime(w1.state, slots, from.state, cfg.ttl);
    w := YesStep(cfg, worlds, w1, AliceRequest(YES, ASKED + " maybe"), slots, ID3);
    YesMakesStalling(w.state, from.state);
  }

  /** "yes". */
  lemma YesStalls(cfg: Config, worlds: iset<World>, from: World) returns (w: World)
    requires Closed(cfg, worlds) && TakesTurns(worlds) && from in worlds && WaitsAfter(from, ASKED + " maybe")
             && Heeds(cfg)
    ensures w in worlds && StalledAfter(w, WAVERED)
  {
    NewIdIsFree(from);
    var w1 := YesIsHeard(cfg, worlds, from);
    w := Stalls(cfg, worlds, w1);
  }

  lemma NothingWaits(s: State, slots: Slots, t: State, before: string, ttl: int)
    requires StalledState(t, before) && slots == t.slots && OnTheWay(s, AliceRequest(YES, before), slots)
    ensures After(AtCheckPending, CheckPending(s, 0, ttl)) == AtRespond
            && StalledState(CheckPending(s, 0, ttl), before + " yes")
  {
    assert before + " " + "yes" == before + " yes";
  }

  /** A further yes finds nothing that waits for it. */
  lemma YesIsIgnored(cfg: Config, worlds: iset<World>, from: World, before: string) returns (w: World)
    requires Closed(cfg, worlds) && TakesTurns(worlds) && from in worlds && StalledAfter(from, before)
    ensures w in worlds && StalledAfter(w, before + " yes")
  {
    forall s | OnTheWay(s, AliceRequest(YES, before), from.state.slots)
      ensures After(AtCheckPending, CheckPending(s, 0, cfg.ttl)) == AtRespond
    {
      NothingWaits(s, from.state.slots, from.state, before, cfg.ttl);
    }
    var s;
    w, s := ShortTurn(cfg, worlds, from, YES);
    NothingWaits(s, from.state.slots, from.state, before, cfg.ttl);
  }

  lemma ThreadIsReachable(cfg: Config)
    ensures Reachable(cfg, THREAD)
  {
    ThreadIsNew();
    assert Run(cfg, [THREAD], []) && [THREAD][|[THREAD]| - 1] == THREAD;
  }

  lemma WaveringTurns(cfg: Config, worlds: iset<World>) returns (w: World)
    requires Closed(cfg, worlds) && TakesTurns(worlds) && THREAD in worlds && Heeds(cfg)
    ensures w in worlds && StalledAfter(w, WAVERED)
  {
    var w1 := OrderIsAsked(cfg, worlds);
    var w2 := MaybeIsSaid(cfg, worlds, w1);
    w := YesStalls(cfg, worlds, w2);
  }

  function Yeses(n: nat): string {
    if n == 0 then "" else Yeses(n - 1) + " yes"
  }

  lemma OneMoreYes(n: nat)
    requires n > 0
    ensures WAVERED + Yeses(n) == WAVERED + Yeses(n - 1) + " yes"
  {
  }

  /** A run from a new thread in which nothing fails: "cancel order 7", "maybe", "yes", and any number of
      further times "yes". The action is confirmed and nothing is ever called. */
  lemma {:induction false} WaveringRunStalls(cfg: Config, further: nat) returns (w: World)
    requires Heeds(cfg)
    ensures Reachable(cfg, w) && StalledAfter(w, WAVERED + Yeses(further))
  {
    var worlds := ReachableWorlds(cfg);
    ReachableIsClosed(cfg);
    if further == 0 {
      ThreadIsReachable(cfg);
      w := WaveringTurns(cfg, worlds);
      assert WAVERED + Yeses(0) == WAVERED;
    } else {
      var w1 := WaveringRunStalls(cfg, further - 1);
      w := YesIsIgnored(cfg, worlds, w1, WAVERED + Yeses(further - 1));
      OneMoreYes(further);
    }
  }
}
