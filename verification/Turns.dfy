/** Turns from end to end: what a turn that asks for a cancellation, and a turn that confirms one, do to
    any conversation in which nothing fails. */
module Turns {
  import opened Domain
  import opened PendingPayload
  import opened Compiler
  import opened Agent
  import opened Graph
  import opened Safety
  import opened Completion
  import Conversations
  import DB = Database

  // ------------------------------------------------------------------------------- one node

  /** A set of worlds that no node leaves. */
  ghost predicate Closed(cfg: Config, worlds: iset<World>) {
    forall w: World, ch: Choice | w in worlds && w.node != Idle && ch.newId !in w.usedIds ::
      RunNode(cfg, w, ch) in worlds
  }

  /** A set of worlds that no new turn leaves. */
  ghost predicate TakesTurns(worlds: iset<World>) {
    forall w: World, c, id, m | w in worlds && w.node == Idle :: Turned(w, c, id, m) in worlds
  }

  /** Nothing outside the conversation's state has changed, but for ids used up. */
  predicate SameRest(w: World, w': World) {
    w'.db == w.db && w'.calls == w.calls && w'.now == w.now
  }

  /** The state is the last checkpoint. */
  predicate Saved(w: World) {
    |w.checkpoints| > 0 && w.checkpoints[|w.checkpoints| - 1] == w.state
  }

  /** One node that executes nothing. */
  lemma Goes(cfg: Config, worlds: iset<World>, w: World, ch: Choice, s: State, n: Node) returns (w': World)
    requires Closed(cfg, worlds) && w in worlds && w.node != Idle && !Executing(w.node) && ch.newId !in w.usedIds
    requires s == Returned(cfg, w, ch) && n == After(w.node, s)
    ensures w' in worlds && w'.state == s && w'.node == n && SameRest(w, w')
    ensures w'.turn == w.turn && w'.checkpoints == w.checkpoints + [s]
    ensures w'.usedIds == w.usedIds + (if w.node in {AtEvaluatePolicy, AtCreatePending} then {ch.newId} else {})
  {
    w' := RunNode(cfg, w, ch);
  }

  /** One node has run: its state is the next one. */
  ghost predicate Gone(worlds: iset<World>, w: World, ch: Choice, s: State, w': World) {
    && w' in worlds && w'.state == s && w'.node == After(w.node, s) && SameRest(w, w') && Saved(w')
    && w'.usedIds == (if w.node in {AtEvaluatePolicy, AtCreatePending} then w.usedIds + {ch.newId} else w.usedIds)
  }

  ghost predicate CanGo(cfg: Config, worlds: iset<World>, w: World, ch: Choice, n: Node) {
    Closed(cfg, worlds) && w in worlds && w.node == n && ch.newId !in w.usedIds
  }

  lemma GoesLoadContext(cfg: Config, worlds: iset<World>, w: World, ch: Choice) returns (w': World)
    requires CanGo(cfg, worlds, w, ch, AtLoadContext)
    ensures Gone(worlds, w, ch, LoadContext(w.state), w')
  {
    w' := Goes(cfg, worlds, w, ch, LoadContext(w.state), After(AtLoadContext, LoadContext(w.state)));
  }

  lemma GoesSecurity(cfg: Config, worlds: iset<World>, w: World, ch: Choice) returns (w': World)
    requires CanGo(cfg, worlds, w, ch, AtSecurityBoundary)
    ensures Gone(worlds, w, ch, SecurityBoundary(w.state), w')
  {
    w' := Goes(cfg, worlds, w, ch, SecurityBoundary(w.state), After(AtSecurityBoundary, SecurityBoundary(w.state)));
  }

  lemma GoesCheck(cfg: Config, worlds: iset<World>, w: World, ch: Choice) returns (w': World)
    requires CanGo(cfg, worlds, w, ch, AtCheckPending)
    ensures Gone(worlds, w, ch, CheckPending(w.state, w.now, cfg.ttl), w')
  {
    w' := Goes(cfg, worlds, w, ch, CheckPending(w.state, w.now, cfg.ttl),
               After(AtCheckPending, CheckPending(w.state, w.now, cfg.ttl)));
  }

  lemma GoesRestore(cfg: Config, worlds: iset<World>, w: World, ch: Choice) returns (w': World)
    requires CanGo(cfg, worlds, w, ch, AtRestorePending)
    ensures Gone(worlds, w, ch, RestorePending(w.state), w')
  {
    w' := Goes(cfg, worlds, w, ch, RestorePending(w.state), After(AtRestorePending, RestorePending(w.state)));
  }

  lemma GoesUnderstand(cfg: Config, worlds: iset<World>, w: World, ch: Choice) returns (w': World)
    requires CanGo(cfg, worlds, w, ch, AtUnderstand)
    ensures Gone(worlds, w, ch, UnderstandRequest(w.state, cfg.contract, ch.proposal), w')
  {
    w' := Goes(cfg, worlds, w, ch, UnderstandRequest(w.state, cfg.contract, ch.proposal),
               After(AtUnderstand, UnderstandRequest(w.state, cfg.contract, ch.proposal)));
  }

  lemma GoesCompile(cfg: Config, worlds: iset<World>, w: World, ch: Choice) returns (w': World)
    requires CanGo(cfg, worlds, w, ch, AtCompile)
    ensures Gone(worlds, w, ch, CompileDecision(w.state, ch.latestOrder, cfg.lex), w')
  {
    w' := Goes(cfg, worlds, w, ch, CompileDecision(w.state, ch.latestOrder, cfg.lex),
               After(AtCompile, CompileDecision(w.state, ch.latestOrder, cfg.lex)));
  }

  lemma GoesSelect(cfg: Config, worlds: iset<World>, w: World, ch: Choice) returns (w': World)
    requires CanGo(cfg, worlds, w, ch, AtSelect)
    ensures Gone(worlds, w, ch, SelectTool(w.state), w')
  {
    w' := Goes(cfg, worlds, w, ch, SelectTool(w.state), After(AtSelect, SelectTool(w.state)));
  }

  lemma GoesValidate(cfg: Config, worlds: iset<World>, w: World, ch: Choice) returns (w': World)
    requires CanGo(cfg, worlds, w, ch, AtValidate)
    ensures Gone(worlds, w, ch, ValidateTool(w.state), w')
  {
    w' := Goes(cfg, worlds, w, ch, ValidateTool(w.state), After(AtValidate, ValidateTool(w.state)));
  }

  lemma GoesEvaluate(cfg: Config, worlds: iset<World>, w: World, ch: Choice) returns (w': World)
    requires CanGo(cfg, worlds, w, ch, AtEvaluatePolicy)
    ensures Gone(worlds, w, ch, EvaluatePolicy(w.state, ch.newId, ch.policyFails), w')
  {
    w' := Goes(cfg, worlds, w, ch, EvaluatePolicy(w.state, ch.newId, ch.policyFails),
               After(AtEvaluatePolicy, EvaluatePolicy(w.state, ch.newId, ch.policyFails)));
  }

  lemma GoesCreate(cfg: Config, worlds: iset<World>, w: World, ch: Choice) returns (w': World)
    requires CanGo(cfg, worlds, w, ch, AtCreatePending)
    ensures Gone(worlds, w, ch, CreatePending(w.state, |w.created|, ch.newId, w.now), w')
  {
    w' := Goes(cfg, worlds, w, ch, CreatePending(w.state, |w.created|, ch.newId, w.now),
               After(AtCreatePending, CreatePending(w.state, |w.created|, ch.newId, w.now)));
  }

  lemma GoesRevalidate(cfg: Config, worlds: iset<World>, w: World, ch: Choice) returns (w': World)
    requires CanGo(cfg, worlds, w, ch, AtRevalidation)
    ensures Gone(worlds, w, ch, Revalidate(w.state, w.db), w')
  {
    w' := Goes(cfg, worlds, w, ch, Revalidate(w.state, w.db), After(AtRevalidation, Revalidate(w.state, w.db)));
  }

  lemma GoesOn(cfg: Config, worlds: iset<World>, w: World, ch: Choice) returns (w': World)
    requires CanGo(cfg, worlds, w, ch, w.node) && w.node in {AtRetrieveMemory, AtInspectRisk, AtRespond}
    ensures Gone(worlds, w, ch, w.state, w')
  {
    w' := Goes(cfg, worlds, w, ch, w.state, After(w.node, w.state));
  }

  /** The response, and the end of the turn. */
  lemma EndTurn(cfg: Config, worlds: iset<World>, w: World, ch: Choice) returns (w': World)
    requires Closed(cfg, worlds) && w in worlds && w.node == AtRespond && ch.newId !in w.usedIds
    ensures w' in worlds && w'.state == w.state && w'.node == Idle && SameRest(w, w') && w'.usedIds == w.usedIds
    ensures Saved(w')
  {
    w' := GoesOn(cfg, worlds, w, ch);
  }

  // ------------------------------------------------------------------- a turn that asks, by state

  /** The message is neither a question about memories nor two requests at once. */
  predicate Plain(m: Message) {
    !m.memorySummary && !m.conflicting
  }

  /** The message is a request of its own: no reply, and no wish to resume what is set aside. */
  predicate Asks(m: Message, slots: Slots) {
    Plain(m) && m.parsed == SaysOther && (m.resume ==> slots.pending.Some?)
  }

  function OwnerOf(c: Context): Owner {
    Owner(c.customerId, c.tenantId, c.actorId, c.actorType)
  }

  /** A state a turn can start from: the request is its owner's and sets off no alarm, and nothing is
      half asked. */
  predicate Opens(s: State) {
    && s.request.message.signal == NoSignal && s.request.conversationId == s.request.context.conversationId
    && s.owner in {None, Some(OwnerOf(s.request.context))} && !s.work.active
  }

  /** On the way, with these slots and nothing wrong. */
  predicate OnTheWay(s: State, q: Request, slots: Slots) {
    && s.request == q && s.slots == slots && s.owner == Some(OwnerOf(q.context))
    && !s.work.active && !s.work.interruptionPending && !s.plan.restored && s.progress.error == None
  }

  lemma Opened(s: State)
    requires Opens(s)
    ensures var t := SecurityBoundary(LoadContext(s));
            && After(AtLoadContext, LoadContext(s)) == AtSecurityBoundary
            && After(AtSecurityBoundary, t) == AtRetrieveMemory
            && OnTheWay(t, s.request, s.slots) && t.progress.confirmation == Unset
  {
  }

  /** The order to be cancelled, as the provider proposes it. */
  function CancelDecision(order: int): Decision {
    Decision(OrderCancel, WriteAction, Some(ExplicitOrder(order)), "", "", "", "", "", false, "", false, "", false)
  }

  /** What the last action came to is settled, or there was none. */
  predicate Settled(s: State) {
    s.slots.pending.Some? ==>
      s.slots.pending.value.status !in {Waiting, Confirmed} && BelongsTo(s.slots.pending.value, s.request.context)
  }

  lemma AskHeard(s: State, q: Request, slots: Slots, now: int, ttl: int)
    requires OnTheWay(s, q, slots) && s.progress.confirmation == Unset && Settled(s)
    requires q.message.parsed == SaysOther && (q.message.resume ==> slots.pending.Some?)
    ensures var t := CheckPending(s, now, ttl);
            && After(AtCheckPending, t) == AtUnderstand && OnTheWay(t, q, slots.(pending := None))
            && t.progress.confirmation == Normal
  {
  }

  lemma AskUnderstood(s: State, q: Request, slots: Slots, d: Decision)
    requires OnTheWay(s, q, slots) && slots.pending == None && s.progress.confirmation == Normal && Plain(q.message)
    ensures var t := UnderstandRequest(s, SemanticContract, SemanticProposal(d));
            && After(AtUnderstand, t) == AtCompile && OnTheWay(t, q, slots) && t.progress.confirmation == Normal
            && t.plan.semantic == Some(d)
  {
  }

  /** What the state plans after compilation. */
  predicate PlansCancel(s: State, order: int) {
    && s.plan.tool == Some(CancelOrder) && s.plan.intent == OrderCancel && s.plan.requestType == WriteAction
    && !s.plan.clarify
    && s.plan.grounding == Grounded
    && Lookup(s.plan.arguments, CustomerId) == JInt(s.request.context.customerId)
    && Lookup(s.plan.arguments, OrderId) == JInt(order)
  }

  lemma GroundedWhenWritten(order: int, text: string)
    requires WrittenIn(order, text)
    ensures Ground(Some(ExplicitOrder(order)), text) == Grounded
  {
    UserDomainIdsExact(text, DecimalText(order));
  }

  lemma CompiledFresh(s: State, d: Decision, r: Compiled, latest: Option<int>, lex: Lexicon)
    requires s.plan.semantic == Some(d) && !s.plan.restored
    requires r == Compile(d, s.request.context, Ground(d.target, s.request.text), s.request.text, false, latest, lex)
    requires r.status == CompiledAction
    ensures var t := CompileDecision(s, latest, lex);
            && t.slots == s.slots && t.request == s.request && t.owner == s.owner
            && t.progress == s.progress.(error := None)
            && t.plan.tool == r.tool && t.plan.arguments == r.arguments && t.plan.intent == r.intent
            && t.plan.requestType == r.requestType
            && !t.plan.clarify && !t.plan.restored && t.plan.grounding == Ground(d.target, s.request.text)
            && !t.work.active && t.work.interruptionPending == s.work.interruptionPending
  {
  }

  lemma AskCompiled(s: State, q: Request, slots: Slots, order: int, lex: Lexicon)
    requires OnTheWay(s, q, slots) && s.plan.semantic == Some(CancelDecision(order))
             && s.progress.confirmation == Normal
    requires WrittenIn(order, q.text) && !lex.contradictoryCancel(q.text)
    ensures var t := CompileDecision(s, None, lex);
            && OnTheWay(t, q, slots) && PlansCancel(t, order) && t.progress.confirmation == Normal
            && SelectTool(t) == t && After(AtSelect, t) == AtValidate
  {
    var d := CancelDecision(order);
    GroundedWhenWritten(order, q.text);
    CompileAnswers(d, q.context, Grounded, q.text, false, None, lex, order);
    var r := Compile(d, q.context, Grounded, q.text, false, None, lex);
    CompiledFresh(s, d, r, None, lex);
    SelectionGoesOn(CompileDecision(s, None, lex));
  }

  function CancelArguments(customer: int, order: int): Arguments {
    map[CustomerId := JInt(customer), OrderId := JInt(order)]
  }

  lemma NormalisedCancel(raw: Arguments, customer: int, order: int)
    requires Lookup(raw, CustomerId) == JInt(customer) && Lookup(raw, OrderId) == JInt(order) && customer > 0
             && order > 0
    ensures Normalise(CancelOrder, raw) == Some(CancelArguments(customer, order))
  {
    var model := InputModel(CancelOrder);
    assert forall f | f in model :: f in {CustomerId, OrderId};
    assert (map f | f in model :: Lookup(raw, f)) == CancelArguments(customer, order);
  }

  lemma AskValidated(s: State, q: Request, slots: Slots, order: int)
    requires OnTheWay(s, q, slots) && PlansCancel(s, order) && s.progress.confirmation == Normal
    requires q.context.customerId > 0 && order > 0
    ensures var t := ValidateTool(s);
            && OnTheWay(t, q, slots) && t.progress.confirmation == Normal && After(AtValidate, t) == AtEvaluatePolicy
            && t.plan.tool == Some(CancelOrder) && t.plan.grounding == Grounded
            && t.plan.arguments == CancelArguments(q.context.customerId, order)
  {
    NormalisedCancel(s.plan.arguments[CustomerId := JInt(q.context.customerId)], q.context.customerId, order);
  }

  lemma AskJudged(s: State, q: Request, slots: Slots, order: int, id: string)
    requires OnTheWay(s, q, slots) && s.plan.tool == Some(CancelOrder) && q.context.customerId > 0
    requires s.plan.arguments == CancelArguments(q.context.customerId, order) && s.plan.grounding == Grounded
    ensures var t := EvaluatePolicy(s, id, false);
            && OnTheWay(t, q, slots.(actionId := Some(if slots.actionId.Some? then slots.actionId.value else id)))
            && t.plan == s.plan.(policy := t.plan.policy) && t.plan.policy.Some?
            && t.plan.policy.value.outcome == RequireConfirmation && After(AtInspectRisk, t) == AtCreatePending
  {
    PolicyExact(CancelOrder, q.context, s.plan.arguments);
  }

  /** The action that a request to cancel an order becomes. */
  predicate CancelsOrder(a: Action, q: Request, order: int, id: string, now: int) {
    && a.tool == CancelOrder && a.arguments == CancelArguments(q.context.customerId, order) && a.id == id
    && a.createdAt == now && a.status == Waiting && a.grounding == Grounded
    && BelongsTo(a, q.context) && a.inputs.context == q.context && a.inputs.tool == a.tool
    && a.inputs.arguments == a.arguments
  }

  lemma CancelIsCaptured(a: Action, q: Request, order: int, id: string, now: int)
    requires CancelsOrder(a, q, order, id, now) && q.context.customerId > 0 && order > 0
    ensures CapturedCall(a)
  {
    NormalisedCancel(a.arguments, q.context.customerId, order);
  }

  /** The cancellation is waiting. */
  predicate AskedState(s: State, q: Request, order: int, id: string, now: int) {
    && s.request == q && s.owner == Some(OwnerOf(q.context)) && !s.work.active
    && s.slots.pending.Some? && s.slots.actionId == Some(id) && CancelsOrder(s.slots.pending.value, q, order, id, now)
  }

  lemma AskCaptured(s: State, q: Request, slots: Slots, order: int, serial: nat, newId: string, now: int)
    requires OnTheWay(s, q, slots) && slots.actionId.Some? && PlansThis(s, q, order) && CreatesPending(s)
    ensures AskedState(CreatePending(s, serial, newId, now), q, order, slots.actionId.value, now)
  {
  }

  // ------------------------------------------------------------------- a turn that asks, in a run

  /** A choice of the environment in which nothing fails. */
  function Calm(p: Proposal, id: string): Choice {
    Choice(p, None, id, false, false, NOTHING_BREAKS)
  }

  lemma Begins(worlds: iset<World>, w: World, c: Context, m: Message) returns (w': World)
    requires TakesTurns(worlds) && w in worlds && w.node == Idle
    ensures w' in worlds && w'.node == AtLoadContext && w'.state == WithRequest(w.state, c, c.conversationId, m)
    ensures SameRest(w, w') && w'.usedIds == w.usedIds
  {
    w' := Turned(w, c, c.conversationId, m);
  }

  /** From the start of a turn to the check of the pending action. */
  lemma Opening(cfg: Config, worlds: iset<World>, w: World, id: string) returns (w': World)
    requires CanGo(cfg, worlds, w, Calm(NoAnswer, id), AtLoadContext) && Opens(w.state)
    ensures w' in worlds && w'.node == AtCheckPending && SameRest(w, w') && w'.usedIds == w.usedIds
    ensures OnTheWay(w'.state, w.state.request, w.state.slots) && w'.state.progress.confirmation == Unset
  {
    var ch := Calm(NoAnswer, id);
    Opened(w.state);
    var w1 := GoesLoadContext(cfg, worlds, w, ch);
    var w2 := GoesSecurity(cfg, worlds, w1, ch);
    w' := GoesOn(cfg, worlds, w2, ch);
  }

  /** A world on the way through a turn, `from` being where it comes from. */
  ghost predicate Turning(worlds: iset<World>, from: World, w: World, n: Node, q: Request, slots: Slots) {
    w in worlds && w.node == n && SameRest(from, w) && OnTheWay(w.state, q, slots)
  }

  lemma HeardStep(cfg: Config, worlds: iset<World>, from: World, w: World, q: Request, slots: Slots, ch: Choice)
    returns (w': World)
    requires Closed(cfg, worlds) && Turning(worlds, from, w, AtCheckPending, q, slots) && ch.newId !in w.usedIds
    requires w.state.progress.confirmation == Unset && Settled(w.state)
    requires q.message.parsed == SaysOther && (q.message.resume ==> slots.pending.Some?)
    ensures Turning(worlds, from, w', AtUnderstand, q, slots.(pending := None)) && w'.usedIds == w.usedIds
    ensures w'.state.progress.confirmation == Normal
  {
    AskHeard(w.state, q, slots, w.now, cfg.ttl);
    w' := GoesCheck(cfg, worlds, w, ch);
  }

  lemma UnderstoodStep(cfg: Config, worlds: iset<World>, from: World, w: World, q: Request, slots: Slots, ch: Choice)
    returns (w': World)
    requires Closed(cfg, worlds) && Turning(worlds, from, w, AtUnderstand, q, slots) && ch.newId !in w.usedIds
             && cfg.contract == SemanticContract
    requires slots.pending == None && w.state.progress.confirmation == Normal && Plain(q.message)
             && ch.proposal.SemanticProposal?
    ensures Turning(worlds, from, w', AtCompile, q, slots) && w'.usedIds == w.usedIds
    ensures w'.state.progress.confirmation == Normal && w'.state.plan.semantic == Some(ch.proposal.decision)
  {
    AskUnderstood(w.state, q, slots, ch.proposal.decision);
    w' := GoesUnderstand(cfg, worlds, w, ch);
  }

  lemma CompiledStep(cfg: Config, worlds: iset<World>, from: World, w: World, q: Request, slots: Slots, order: int,
                     ch: Choice)
    returns (w': World)
    requires Closed(cfg, worlds) && Turning(worlds, from, w, AtCompile, q, slots) && ch.newId !in w.usedIds
             && ch.latestOrder == None
    requires w.state.plan.semantic == Some(CancelDecision(order)) && w.state.progress.confirmation == Normal
    requires WrittenIn(order, q.text) && !cfg.lex.contradictoryCancel(q.text)
    ensures Turning(worlds, from, w', AtSelect, q, slots) && w'.usedIds == w.usedIds
    ensures PlansCancel(w'.state, order) && w'.state.progress.confirmation == Normal
    ensures SelectTool(w'.state) == w'.state && After(AtSelect, w'.state) == AtValidate
  {
    AskCompiled(w.state, q, slots, order, cfg.lex);
    w' := GoesCompile(cfg, worlds, w, ch);
  }

  lemma SelectedStep(cfg: Config, worlds: iset<World>, from: World, w: World, q: Request, slots: Slots, ch: Choice)
    returns (w': World)
    requires Closed(cfg, worlds) && Turning(worlds, from, w, AtSelect, q, slots) && ch.newId !in w.usedIds
    requires SelectTool(w.state) == w.state && After(AtSelect, w.state) == AtValidate
    ensures Turning(worlds, from, w', AtValidate, q, slots) && w'.usedIds == w.usedIds && w'.state == w.state
  {
    w' := GoesSelect(cfg, worlds, w, ch);
  }

  lemma ValidatedStep(cfg: Config, worlds: iset<World>, from: World, w: World, q: Request, slots: Slots, order: int,
                      ch: Choice)
    returns (w': World)
    requires Closed(cfg, worlds) && Turning(worlds, from, w, AtValidate, q, slots) && ch.newId !in w.usedIds
    requires PlansCancel(w.state, order) && w.state.progress.confirmation == Normal && q.context.customerId > 0
             && order > 0
    ensures Turning(worlds, from, w', AtEvaluatePolicy, q, slots) && w'.usedIds == w.usedIds
    ensures PlansThis(w'.state, q, order)
  {
    AskValidated(w.state, q, slots, order);
    w' := GoesValidate(cfg, worlds, w, ch);
  }

  /** The validated cancellation. */
  predicate PlansThis(s: State, q: Request, order: int) {
    && s.plan.tool == Some(CancelOrder) && s.plan.arguments == CancelArguments(q.context.customerId, order)
    && s.plan.grounding == Grounded
  }

  function Named(slots: Slots, id: string): Slots {
    slots.(actionId := Some(if slots.actionId.Some? then slots.actionId.value else id))
  }

  lemma JudgedStep(cfg: Config, worlds: iset<World>, from: World, w: World, q: Request, slots: Slots, order: int,
                   ch: Choice)
    returns (w': World)
    requires Closed(cfg, worlds) && Turning(worlds, from, w, AtEvaluatePolicy, q, slots) && ch.newId !in w.usedIds
             && !ch.policyFails
    requires PlansThis(w.state, q, order) && q.context.customerId > 0
    ensures Turning(worlds, from, w', AtInspectRisk, q, Named(slots, ch.newId)) && w'.usedIds == w.usedIds + {ch.newId}
    ensures PlansThis(w'.state, q, order) && CreatesPending(w'.state)
            && After(AtInspectRisk, w'.state) == AtCreatePending
  {
    AskJudged(w.state, q, slots, order, ch.newId);
    w' := GoesEvaluate(cfg, worlds, w, ch);
  }

  lemma InspectedStep(cfg: Config, worlds: iset<World>, from: World, w: World, q: Request, slots: Slots, ch: Choice)
    returns (w': World)
    requires Closed(cfg, worlds) && Turning(worlds, from, w, AtInspectRisk, q, slots) && ch.newId !in w.usedIds
    requires After(AtInspectRisk, w.state) == AtCreatePending
    ensures Turning(worlds, from, w', AtCreatePending, q, slots) && w'.usedIds == w.usedIds && w'.state == w.state
  {
    w' := GoesOn(cfg, worlds, w, ch);
  }

  ghost predicate Asked(worlds: iset<World>, from: World, w: World, n: Node, q: Request, order: int, id: string) {
    w in worlds && w.node == n && SameRest(from, w) && AskedState(w.state, q, order, id, w.now)
  }

  lemma CapturedStep(cfg: Config, worlds: iset<World>, from: World, w: World, q: Request, slots: Slots, order: int,
                     ch: Choice)
    returns (w': World)
    requires Closed(cfg, worlds) && Turning(worlds, from, w, AtCreatePending, q, slots) && ch.newId !in w.usedIds
             && slots.actionId.Some?
    requires PlansThis(w.state, q, order) && CreatesPending(w.state) && q.context.customerId > 0 && order > 0
    ensures Asked(worlds, from, w', AtRespond, q, order, slots.actionId.value) && w'.usedIds == w.usedIds + {ch.newId}
  {
    w' := GoesCreate(cfg, worlds, w, ch);
    AskCaptured(w.state, q, slots, order, |w.created|, ch.newId, w.now);
  }

  lemma AskPlanned(cfg: Config, worlds: iset<World>, from: World, w: World, q: Request, slots: Slots, order: int,
                   id: string)
    returns (w': World)
    requires Closed(cfg, worlds) && Turning(worlds, from, w, AtCheckPending, q, slots) && id !in w.usedIds
    requires w.state.progress.confirmation == Unset && Settled(w.state) && cfg.contract == SemanticContract
    requires Asks(q.message, slots) && WrittenIn(order, q.text) && !cfg.lex.contradictoryCancel(q.text)
    ensures Turning(worlds, from, w', AtValidate, q, slots.(pending := None)) && w'.usedIds == w.usedIds
    ensures PlansCancel(w'.state, order) && w'.state.progress.confirmation == Normal
  {
    var ch := Calm(SemanticProposal(CancelDecision(order)), id);
    var w1 := HeardStep(cfg, worlds, from, w, q, slots, ch);
    var w2 := UnderstoodStep(cfg, worlds, from, w1, q, slots.(pending := None), ch);
    var w3 := CompiledStep(cfg, worlds, from, w2, q, slots.(pending := None), order, ch);
    w' := SelectedStep(cfg, worlds, from, w3, q, slots.(pending := None), ch);
  }

  lemma AskJudgedInTurn(cfg: Config, worlds: iset<World>, from: World, w: World, q: Request, slots: Slots, order: int,
                        id1: string, id2: string)
    returns (w': World)
    requires Closed(cfg, worlds) && Turning(worlds, from, w, AtValidate, q, slots)
    requires id1 !in w.usedIds && id2 !in w.usedIds && id1 != id2
    requires PlansCancel(w.state, order) && w.state.progress.confirmation == Normal && q.context.customerId > 0
             && order > 0
    ensures Turning(worlds, from, w', AtCreatePending, q, Named(slots, id1)) && w'.usedIds == w.usedIds + {id1}
    ensures PlansThis(w'.state, q, order) && CreatesPending(w'.state)
  {
    var w1 := ValidatedStep(cfg, worlds, from, w, q, slots, order, Calm(NoAnswer, id1));
    var w2 := JudgedStep(cfg, worlds, from, w1, q, slots, order, Calm(NoAnswer, id1));
    w' := InspectedStep(cfg, worlds, from, w2, q, Named(slots, id1), Calm(NoAnswer, id2));
  }

  lemma AskEnds(cfg: Config, worlds: iset<World>, from: World, w: World, q: Request, slots: Slots, order: int,
                id2: string, id3: string)
    returns (w': World)
    requires Closed(cfg, worlds) && Turning(worlds, from, w, AtCreatePending, q, slots) && slots.actionId.Some?
    requires id2 !in w.usedIds && id3 !in w.usedIds && id2 != id3
    requires PlansThis(w.state, q, order) && CreatesPending(w.state) && q.context.customerId > 0 && order > 0
    ensures Asked(worlds, from, w', Idle, q, order, slots.actionId.value) && w'.usedIds == w.usedIds + {id2}
            && Saved(w')
  {
    var w1 := CapturedStep(cfg, worlds, from, w, q, slots, order, Calm(NoAnswer, id2));
    w' := EndTurn(cfg, worlds, w1, Calm(NoAnswer, id3));
  }

  lemma AskToGate(cfg: Config, worlds: iset<World>, from: World, w: World, q: Request, slots: Slots, order: int,
                  id1: string, id2: string)
    returns (w': World)
    requires Closed(cfg, worlds) && Turning(worlds, from, w, AtCheckPending, q, slots)
             && cfg.contract == SemanticContract
    requires id1 !in w.usedIds && id2 !in w.usedIds && id1 != id2
    requires w.state.progress.confirmation == Unset && Settled(w.state) && Asks(q.message, slots)
    requires WrittenIn(order, q.text) && !cfg.lex.contradictoryCancel(q.text) && q.context.customerId > 0 && order > 0
    ensures Turning(worlds, from, w', AtCreatePending, q, Named(slots.(pending := None), id1))
            && w'.usedIds == w.usedIds + {id1}
    ensures PlansThis(w'.state, q, order) && CreatesPending(w'.state)
  {
    var w1 := AskPlanned(cfg, worlds, from, w, q, slots, order, id1);
    w' := AskJudgedInTurn(cfg, worlds, from, w1, q, slots.(pending := None), order, id1, id2);
  }

  lemma AskTurn(cfg: Config, worlds: iset<World>, from: World, w: World, q: Request, slots: Slots, order: int,
                id1: string, id2: string, id3: string)
    returns (w': World)
    requires Closed(cfg, worlds) && Turning(worlds, from, w, AtCheckPending, q, slots)
             && cfg.contract == SemanticContract
    requires id1 !in w.usedIds && id2 !in w.usedIds && id3 !in w.usedIds && id1 != id2 && id1 != id3 && id2 != id3
    requires w.state.progress.confirmation == Unset && Settled(w.state) && Asks(q.message, slots)
    requires WrittenIn(order, q.text) && !cfg.lex.contradictoryCancel(q.text) && q.context.customerId > 0 && order > 0
    ensures Asked(worlds, from, w', Idle, q, order, Named(slots, id1).actionId.value)
    ensures w'.usedIds == w.usedIds + {id1, id2} && Saved(w')
  {
    var w1 := AskToGate(cfg, worlds, from, w, q, slots, order, id1, id2);
    w' := AskEnds(cfg, worlds, from, w1, q, Named(slots.(pending := None), id1), order, id2, id3);
  }

  /** A well-formed request always becomes a pending action: a message of the owner that names an order
      in digits, and a proposal to cancel it, lead in one turn to the captured cancellation, under the
      id that is there, or a new one. */
  lemma RequestIsCaptured(cfg: Config, worlds: iset<World>, w: World, order: int,
                          id1: string, id2: string, id3: string)
    returns (w': World)
    requires CanGo(cfg, worlds, w, Calm(NoAnswer, id1), AtLoadContext) && cfg.contract == SemanticContract
    requires id2 !in w.usedIds && id3 !in w.usedIds && id1 != id2 && id1 != id3 && id2 != id3
    requires Opens(w.state) && Settled(w.state) && Asks(w.state.request.message, w.state.slots)
    requires w.state.request.context.customerId > 0 && order > 0
    requires WrittenIn(order, w.state.request.text) && !cfg.lex.contradictoryCancel(w.state.request.text)
    ensures Asked(worlds, w, w', Idle, w.state.request, order, Named(w.state.slots, id1).actionId.value)
    ensures w'.usedIds == w.usedIds + {id1, id2} && Saved(w')
  {
    var w1 := Opening(cfg, worlds, w, id1);
    w' := AskTurn(cfg, worlds, w, w1, w.state.request, w.state.slots, order, id1, id2, id3);
  }

  // ------------------------------------------------------------------------ a turn that confirms

  /** What the nodes between the yes and the call leave alone, or settle. */
  predicate Alongside(s: State, t: State) {
    t.owner == s.owner && (!s.work.active ==> !t.work.active)
  }

  lemma CompilationSettles(s: State, d: Decision, latest: Option<int>, lex: Lexicon)
    requires s.plan.semantic == Some(d)
    requires var g := if s.plan.restored then s.plan.grounding else Ground(d.target, s.request.text);
             var restored := s.plan.restored && s.plan.grounding == NotApplicable;
             Compile(d, s.request.context, g, s.request.text, restored, latest, lex).status == CompiledAction
    ensures Alongside(s, CompileDecision(s, latest, lex))
  {
  }

  lemma RestorationAlongside(s: State)
    ensures Alongside(s, RestorePending(s))
  {
  }

  lemma ValidationAlongside(s: State)
    ensures Alongside(s, SelectTool(s)) && Alongside(s, ValidateTool(s))
  {
  }

  lemma RevalidationAlongside(s: State, db: DB.Db)
    ensures Alongside(s, Revalidate(s, db))
  {
  }

  /** The state in which a confirmed action reaches its execution. */
  ghost function Ready(s: State, lex: Lexicon, db: DB.Db): State {
    Revalidate(ValidateTool(PlannedAgain(s, None, lex)), db)
  }

  lemma PlanningAlongside(s: State, lex: Lexicon)
    requires s.slots.pending.Some? && s.slots.pending.value.status == Confirmed && CapturedCall(s.slots.pending.value)
    requires CompilesAgain(s.slots.pending.value, s.request.text, lex)
    ensures Alongside(s, PlannedAgain(s, None, lex))
  {
    var a, r := s.slots.pending.value, RestorePending(s);
    RestoredExact(s);
    RestoredArguments(a);
    RestorationAlongside(s);
    var d := r.plan.semantic.value;
    CompileAnswers(d, r.request.context, r.plan.grounding, r.request.text, r.plan.grounding == NotApplicable, None, lex,
                   IntOf(Lookup(a.arguments, OrderId)));
    CompilationSettles(r, d, None, lex);
    ValidationAlongside(CompileDecision(r, None, lex));
  }

  lemma ReadyExact(s: State, lex: Lexicon, db: DB.Db)
    requires s.slots.pending.Some? && s.slots.pending.value.status == Confirmed && CapturedCall(s.slots.pending.value)
    requires s.progress.confirmation == ConfirmedReply && GetsThrough(s, None, lex, db)
    ensures var t, a := Ready(s, lex, db), s.slots.pending.value;
            && t.slots == s.slots && t.request == s.request && Alongside(s, t)
            && t.plan.tool == Some(a.tool) && t.plan.arguments == a.arguments
            && Lookup(a.arguments, CustomerId) == JInt(t.request.context.customerId)
  {
    var t := PlannedAgain(s, None, lex);
    GetsThroughExact(s, None, lex, db);
    ReachesRevalidationExact(s, None, lex);
    PlanningAlongside(s, lex);
    ValidationAlongside(t);
    RevalidationAlongside(ValidateTool(t), db);
    RevalidatedCall(ValidateTool(t), db);
  }

  lemma WalksToSelection(cfg: Config, worlds: iset<World>, w: World, id: string) returns (w': World)
    requires Closed(cfg, worlds) && w in worlds && w.node == AtRestorePending && id !in w.usedIds
    requires After(AtRestorePending, RestorePending(w.state)) == AtCompile
    ensures w' in worlds && w'.node == AtSelect && SameRest(w, w') && w'.usedIds == w.usedIds
    ensures w'.state == CompileDecision(RestorePending(w.state), None, cfg.lex)
  {
    var w1 := GoesRestore(cfg, worlds, w, Calm(NoAnswer, id));
    w' := GoesCompile(cfg, worlds, w1, Calm(NoAnswer, id));
  }

  lemma WalksToRevalidation(cfg: Config, worlds: iset<World>, w: World, id: string) returns (w': World)
    requires Closed(cfg, worlds) && w in worlds && w.node == AtSelect && id !in w.usedIds
    requires After(AtSelect, SelectTool(w.state)) == AtValidate
    requires After(AtValidate, ValidateTool(SelectTool(w.state))) == AtRevalidation
    ensures w' in worlds && w'.node == AtRevalidation && SameRest(w, w') && w'.usedIds == w.usedIds
    ensures w'.state == ValidateTool(SelectTool(w.state))
  {
    var w1 := GoesSelect(cfg, worlds, w, Calm(NoAnswer, id));
    w' := GoesValidate(cfg, worlds, w1, Calm(NoAnswer, id));
  }

  lemma WalksThroughRevalidation(cfg: Config, worlds: iset<World>, w: World, id: string) returns (w': World)
    requires Closed(cfg, worlds) && w in worlds && w.node == AtRevalidation && id !in w.usedIds && Leads(w.state, w.db)
    ensures w' in worlds && w'.node == AtExecuteConfirmed && SameRest(w, w') && w'.usedIds == w.usedIds
    ensures w'.state == Revalidate(w.state, w.db)
  {
    w' := GoesRevalidate(cfg, worlds, w, Calm(NoAnswer, id));
  }

  lemma WalksToExecution(cfg: Config, worlds: iset<World>, w: World, id: string) returns (w': World)
    requires Closed(cfg, worlds) && w in worlds && w.node == AtRestorePending && id !in w.usedIds
    requires GetsThrough(w.state, None, cfg.lex, w.db)
    ensures w' in worlds && w'.node == AtExecuteConfirmed && SameRest(w, w') && w'.usedIds == w.usedIds
    ensures w'.state == Ready(w.state, cfg.lex, w.db)
  {
    var w1 := WalksToSelection(cfg, worlds, w, id);
    var w2 := WalksToRevalidation(cfg, worlds, w1, id);
    w' := WalksThroughRevalidation(cfg, worlds, w2, id);
  }

  /** The state of a turn whose message says yes to a waiting action, and that nothing speaks against. */
  ghost predicate Agrees(cfg: Config, w: World) {
    var s := w.state;
    && Opens(s) && s.slots.pending.Some? && CapturedCall(s.slots.pending.value) && SaysYesInTime(s, w.now, cfg.ttl)
    && CompilesAgain(s.slots.pending.value, s.request.text, cfg.lex)
    && StillValid(s.slots.pending.value, s.request.context, w.db)
  }

  /** The action is confirmed, and its call is next. */
  ghost predicate AtExecution(from: World, w: World) {
    && from.state.slots.pending.Some? && w.node == AtExecuteConfirmed
    && var a := from.state.slots.pending.value;
       && w.state.slots == from.state.slots.(pending := Some(a.(status := Confirmed)))
       && w.state.request == from.state.request && w.state.owner == Some(OwnerOf(from.state.request.context))
       && !w.state.work.active && w.state.plan.tool == Some(a.tool) && w.state.plan.arguments == a.arguments
       && Lookup(a.arguments, CustomerId) == JInt(from.state.request.context.customerId)
  }

  /** From the yes to the execution of the action. */
  lemma YesReachesExecution(cfg: Config, worlds: iset<World>, w: World, id: string) returns (w': World)
    requires CanGo(cfg, worlds, w, Calm(NoAnswer, id), AtLoadContext) && Agrees(cfg, w)
    ensures w' in worlds && AtExecution(w, w') && SameRest(w, w') && w'.usedIds == w.usedIds
  {
    var w1 := Opening(cfg, worlds, w, id);
    var w2 := YesStep(cfg, worlds, w1, w.state.request, w.state.slots, id);
    ConfirmedGetsThrough(w2.state, w.state.slots.pending.value, cfg.lex, w.db);
    ReadyExact(w2.state, cfg.lex, w2.db);
    w' := WalksToExecution(cfg, worlds, w2, id);
  }

  lemma YesStep(cfg: Config, worlds: iset<World>, w: World, q: Request, slots: Slots, id: string) returns (w': World)
    requires Closed(cfg, worlds) && w in worlds && w.node == AtCheckPending && id !in w.usedIds
    requires OnTheWay(w.state, q, slots) && slots.pending.Some? && w.state.progress.confirmation == Unset
    requires SaysYesInTime(w.state, w.now, cfg.ttl)
    ensures w' in worlds && w'.node == AtRestorePending && SameRest(w, w') && w'.usedIds == w.usedIds
    ensures w'.state.slots == slots.(pending := Some(slots.pending.value.(status := Confirmed)))
            && w'.state.request == q
    ensures w'.state.owner == Some(OwnerOf(q.context)) && !w'.state.work.active
            && w'.state.progress.confirmation == ConfirmedReply
  {
    CheckLeads(w.state, w.now, cfg.ttl);
    w' := GoesCheck(cfg, worlds, w, Calm(NoAnswer, id));
  }

  lemma ConfirmedGetsThrough(s: State, a: Action, lex: Lexicon, db: DB.Db)
    requires s.slots.pending == Some(a.(status := Confirmed)) && CapturedCall(a)
             && s.progress.confirmation == ConfirmedReply
    requires CompilesAgain(a, s.request.text, lex) && StillValid(a, s.request.context, db)
    ensures GetsThrough(s, None, lex, db) && CapturedCall(a.(status := Confirmed))
  {
    StatusIsIrrelevant(a, Confirmed, s.request.context, s.request.text, lex, db);
    GetsThroughExact(s, None, lex, db);
  }

  // ------------------------------------------------------------------------ the execution

  /** The request that the call of this action sends. */
  function Sent(w: World, a: Action): DB.Request {
    RequestOf(a.tool, w.state.request.context, a.id, a.arguments)
  }

  /** A world in which this action is about to be called, and will not be refused. */
  ghost predicate AboutToCall(w: World, a: Action) {
    && w.node == AtExecuteConfirmed
    && w.state.slots.pending == Some(a) && w.state.plan.tool == Some(a.tool) && w.state.plan.arguments == a.arguments
    && w.state.slots.actionId == Some(a.id)
    && DestructiveTool(Some(a.tool)) && Normalise(a.tool, a.arguments) == Some(a.arguments)
    && Lookup(a.arguments, CustomerId) == JInt(w.state.request.context.customerId)
    && !DB.Execute(w.db, Sent(w, a)).1.Refused?
  }

  /** The rows differ. */
  predicate RowsDiffer(db: DB.Db, db': DB.Db) {
    db'.orders != db.orders || db'.refunds != db.refunds
  }

  lemma CallsNow(w: World, a: Action)
    requires AboutToCall(w, a)
    ensures var r := ExecuteConfirmed(w.state, w.db, NOTHING_BREAKS);
            && r.call == Some(Agent.Call(a.tool, a.arguments, w.state.request.context, a.id))
            && r.db == DB.Execute(w.db, Sent(w, a)).0 && r.wrote == RowsDiffer(w.db, r.db)
            && r.state.Some? && r.state.value.slots == w.state.slots.(pending := Some(a.(status := Executed)))
            && r.state.value.request == w.state.request && Alongside(w.state, r.state.value)
  {
  }

  /** The call is made and recorded, and the action executed. */
  ghost predicate HasCalled(w: World, a: Action, w': World) {
    && w'.usedIds == w.usedIds && w'.now == w.now && w'.db == DB.Execute(w.db, Sent(w, a)).0
    && w'.state.slots == w.state.slots.(pending := Some(a.(status := Executed))) && w'.state.request == w.state.request
    && Alongside(w.state, w'.state)
    && w'.calls == w.calls + [Called(Some(a.serial), w.turn,
                                     Agent.Call(a.tool, a.arguments, w.state.request.context, a.id),
                                     RowsDiffer(w.db, w'.db))]
  }

  lemma CallRecorded(w: World, r: ToolRun)
    requires w.node == AtExecuteConfirmed && IsWrite(r) && r.state.Some?
    ensures var w' := Executes(w, r);
            && w'.node == AtRespond && w'.state == r.state.value && w'.db == r.db
            && w'.usedIds == w.usedIds && w'.now == w.now && w'.calls == w.calls + [CalledFrom(w, r)]
  {
  }

  lemma ExecutedStep(cfg: Config, worlds: iset<World>, w: World, a: Action, ch: Choice) returns (w': World)
    requires CanGo(cfg, worlds, w, ch, AtExecuteConfirmed) && AboutToCall(w, a) && ch.fate == NOTHING_BREAKS
    ensures w' in worlds && w'.node == AtRespond && HasCalled(w, a, w')
  {
    CallsNow(w, a);
    var r := ExecuteConfirmed(w.state, w.db, NOTHING_BREAKS);
    w' := Executes(w, r);
    assert w' == RunNode(cfg, w, ch) by {
      Conversations.ExecutingIs(cfg, w, ch);
    }
    CallRecorded(w, r);
  }

  lemma ExecutionStep(cfg: Config, worlds: iset<World>, w: World, a: Action, id: string) returns (w': World)
    requires CanGo(cfg, worlds, w, Calm(NoAnswer, id), AtExecuteConfirmed) && AboutToCall(w, a)
    ensures w' in worlds && w'.node == Idle && HasCalled(w, a, w')
  {
    var w1 := ExecutedStep(cfg, worlds, w, a, Calm(NoAnswer, id));
    w' := EndTurn(cfg, worlds, w1, Calm(NoAnswer, id));
  }
}
