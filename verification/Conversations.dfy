/** The main results about conversations: what holds in every state of every run, with crashes, lost
    commits, returns to earlier checkpoints and everything else that may happen to the database. */
module Conversations {
  import opened Domain
  import opened PendingPayload
  import opened Compiler
  import opened Agent
  import opened Graph
  import opened Safety
  import DB = Database
  import Sessions
  import TX = Transactions

  /** The nodes that do nothing but return a state. */
  predicate Plain(n: Node) {
    !Executing(n) && n !in {Idle, AtCheckPending, AtEvaluatePolicy, AtCreatePending}
  }

  lemma PlanningReturns(cfg: Config, w: World, ch: Choice)
    requires Here(cfg, w, w.node) && w.node in {AtUnderstand, AtCompile, AtSelect, AtValidate, AtResumeWorkflow}
    ensures GoodMove(cfg, w, Returned(cfg, w, ch))
  {
    var t := Returned(cfg, w, ch);
    match w.node
    case AtUnderstand =>
      UnderstandPlans(w.state, cfg.contract, ch.proposal);
      UnderstandGood(cfg, w, t);
    case AtCompile =>
      CompilePlans(cfg, w.state, ch.latestOrder);
      CompileGood(cfg, w, t);
    case AtSelect =>
      SelectPlans(cfg, w.state);
      SelectGood(cfg, w, t);
    case AtValidate =>
      ValidatePlans(cfg, w.state);
      ValidateGood(cfg, w, t);
    case _ =>
      ResumeWorkflowPlans(w.state);
      ResumeWorkflowGood(cfg, w, t);
  }

  lemma RevalidationReturns(cfg: Config, w: World, ch: Choice)
    requires Here(cfg, w, AtRevalidation) && Records(cfg, w)
    ensures GoodMove(cfg, w, Returned(cfg, w, ch))
  {
    assert CreationOk(cfg, w, w.state.slots.pending.value.serial);
    RevalidatePlans(w.state, w.db);
    RevalidateGood(cfg, w, Revalidate(w.state, w.db));
  }

  lemma SlotReturns(cfg: Config, w: World, ch: Choice)
    requires Here(cfg, w, w.node)
    requires w.node in {AtLoadContext, AtSecurityBoundary, AtRestorePending, AtRestoreSuspended, AtInterruption}
    ensures GoodMove(cfg, w, Returned(cfg, w, ch))
  {
    match w.node
    case AtLoadContext => LoadContextGood(cfg, w);
    case AtSecurityBoundary => SecurityGood(cfg, w);
    case AtRestorePending => RestorePendingGood(cfg, w);
    case AtRestoreSuspended => RestoreSuspendedGood(cfg, w);
    case _ => InterruptionGood(cfg, w);
  }

  lemma QuietIs(cfg: Config, w: World, ch: Choice)
    requires w.node in {AtRetrieveMemory, AtMemoryAction, AtRetrieveKnowledge, AtRespond, AtInspectRisk}
    ensures Returned(cfg, w, ch) == w.state || (w.node == AtMemoryAction && Returned(cfg, w, ch) == Fail(w.state, ToolFailure))
  {
  }

  lemma QuietGood(cfg: Config, w: World, t: State)
    requires Here(cfg, w, w.node) && w.node in {AtRetrieveMemory, AtMemoryAction, AtRetrieveKnowledge, AtRespond}
    requires t == w.state || (w.node == AtMemoryAction && t == Fail(w.state, ToolFailure))
    ensures GoodMove(cfg, w, t)
  {
  }

  lemma QuietReturns(cfg: Config, w: World, ch: Choice)
    requires Here(cfg, w, w.node) && w.node in {AtRetrieveMemory, AtMemoryAction, AtRetrieveKnowledge, AtRespond, AtInspectRisk}
    ensures GoodMove(cfg, w, Returned(cfg, w, ch))
  {
    QuietIs(cfg, w, ch);
    if w.node == AtInspectRisk {
      InspectRiskGood(cfg, w);
    } else {
      QuietGood(cfg, w, Returned(cfg, w, ch));
    }
  }

  lemma PlainReturns(cfg: Config, w: World, ch: Choice)
    requires Here(cfg, w, w.node) && Records(cfg, w) && Plain(w.node)
    ensures GoodMove(cfg, w, Returned(cfg, w, ch))
  {
    match w.node
    case AtUnderstand | AtCompile | AtSelect | AtValidate | AtResumeWorkflow => PlanningReturns(cfg, w, ch);
    case AtLoadContext | AtSecurityBoundary | AtRestorePending | AtRestoreSuspended | AtInterruption =>
      SlotReturns(cfg, w, ch);
    case AtRevalidation => RevalidationReturns(cfg, w, ch);
    case _ => QuietReturns(cfg, w, ch);
  }

  lemma PlainKeeps(cfg: Config, w: World, ch: Choice)
    requires Inv(cfg, w) && Plain(w.node)
    ensures Inv(cfg, RunNode(cfg, w, ch))
  {
    PlainReturns(cfg, w, ch);
    MoveKeeps(cfg, w, Returned(cfg, w, ch));
    PlainIsMove(cfg, w, ch);
  }

  lemma ExecutionKeeps(cfg: Config, w: World, fate: Fate)
    requires Inv(cfg, w) && Executing(w.node)
    ensures Inv(cfg, Executes(w, Result(w, fate)))
  {
    if w.node == AtExecuteHuman {
      ExecuteHumanRan(w.state, w.db, fate);
    } else {
      ExecuteConfirmedRan(w.state, w.db, fate);
    }
    ExecutesKeeps(cfg, w, Result(w, fate));
  }

  lemma PlainIsMove(cfg: Config, w: World, ch: Choice)
    requires Plain(w.node)
    ensures RunNode(cfg, w, ch) == Move(w, Returned(cfg, w, ch))
  {
  }

  lemma ExecutingIs(cfg: Config, w: World, ch: Choice)
    requires Executing(w.node)
    ensures RunNode(cfg, w, ch) == Executes(w, Result(w, ch.fate))
  {
  }

  lemma ExecutingKeeps(cfg: Config, w: World, ch: Choice)
    requires Inv(cfg, w) && Executing(w.node)
    ensures Inv(cfg, RunNode(cfg, w, ch))
  {
    ExecutingIs(cfg, w, ch);
    ExecutionKeeps(cfg, w, ch.fate);
  }

  /** Every node of the graph keeps the invariant. */
  lemma NodeKeeps(cfg: Config, w: World, ch: Choice)
    requires Inv(cfg, w) && w.node != Idle && ch.newId !in w.usedIds
    ensures Inv(cfg, RunNode(cfg, w, ch))
  {
    if Plain(w.node) {
      PlainKeeps(cfg, w, ch);
    } else if Executing(w.node) {
      ExecutingKeeps(cfg, w, ch);
    } else if w.node == AtCheckPending {
      CheckPendingKeeps(cfg, w, ch);
    } else if w.node == AtEvaluatePolicy {
      EvaluatePolicyKeeps(cfg, w, ch);
    } else {
      CreatePendingKeeps(cfg, w, ch);
    }
  }

  lemma TurnKeeps(cfg: Config, w: World, e: Event, w': World)
    requires Inv(cfg, w) && e.Turn? && Next(cfg, w, e, w')
    ensures Inv(cfg, w')
  {
    RecordsKept(cfg, w, w');
    StatesKept(w, w');
    TurnStarts(cfg, w, e, w');
  }

  lemma TurnStarts(cfg: Config, w: World, e: Event, w': World)
    requires Records(cfg, w) && StateOk(w, w.state) && e.Turn? && Next(cfg, w, e, w')
    ensures StateOk(w', w'.state) && Older(w', w'.node, w'.state) && Armed(w'.node, w'.state) == Armed(w.node, w.state)
  {
    forall i | 0 <= i < |w.created| ensures w.created[i].turn < w'.turn {
      assert CreationOk(cfg, w, i);
    }
  }

  lemma FallBackKeeps(cfg: Config, w: World, e: Event, w': World)
    requires Inv(cfg, w) && e.FallBack? && Next(cfg, w, e, w')
    ensures Inv(cfg, w')
  {
    FallBackRecords(cfg, w, w');
    StatesKept(w, w');
    assert StateOk(w, w.checkpoints[e.k]);
  }

  lemma NodeKept(cfg: Config, w: World, w': World)
    requires NodeOk(cfg, w, w.node, w.state) && Older(w, w.node, w.state)
    requires w' == w.(node := w'.node, now := w'.now, db := w'.db) && w'.node in {Idle, w.node}
    ensures NodeOk(cfg, w', w'.node, w'.state) && Older(w', w'.node, w'.state)
    ensures Armed(w'.node, w'.state) <= Armed(w.node, w.state)
  {
  }

  /** A crash, a tick of the clock and a change elsewhere leave the state as it is. */
  lemma OutsideKeeps(cfg: Config, w: World, w': World)
    requires Inv(cfg, w) && w' == w.(node := w'.node, now := w'.now, db := w'.db) && w'.node in {Idle, w.node}
    requires DB.Consistent(w'.db) && TX.Grows(w.db, w'.db)
    ensures Inv(cfg, w')
  {
    assert Records(cfg, w') by {
      RecordsKept(cfg, w, w');
    }
    StatesKept(w, w');
    NodeKept(cfg, w, w');
  }

  lemma FallBackRecords(cfg: Config, w: World, w': World)
    requires Records(cfg, w) && w' == w.(state := w'.state, node := Idle, fellBack := true)
    ensures Records(cfg, w')
  {
    forall i | 0 <= i < |w'.created| ensures CreationOk(cfg, w', i) {
      assert CreationOk(cfg, w, i);
    }
    forall k | 0 <= k < |w'.calls| ensures CallOk(cfg, w', w'.calls[k]) {
      CallStays(cfg, w, w', w.calls[k]);
    }
  }

  lemma NextKeeps(cfg: Config, w: World, e: Event, w': World)
    requires Inv(cfg, w) && Next(cfg, w, e, w')
    ensures Inv(cfg, w')
  {
    match e
    case Turn(_, _, _) => TurnKeeps(cfg, w, e, w');
    case Node(ch) => NodeKeeps(cfg, w, ch);
    case FallBack(_) => FallBackKeeps(cfg, w, e, w');
    case _ => OutsideKeeps(cfg, w, w');
  }

  /** The invariant holds in every state of every run. */
  lemma {:induction false} RunKeeps(cfg: Config, run: seq<World>, events: seq<Event>, i: nat)
    requires Run(cfg, run, events) && i < |run|
    ensures Inv(cfg, run[i])
  {
    if i > 0 {
      RunKeeps(cfg, run, events, i - 1);
      NextKeeps(cfg, run[i - 1], events[i - 1], run[i]);
    }
  }

  // ----------------------------------------------------------------------------- main results

  /** The call was confirmed, or needs no confirmation: a cancellation or a refund is of an action
      captured in an earlier turn, with its tool, its arguments and its id as idempotency key, by the
      same tenant, actor, customer and conversation in a context the policy cannot tell from the
      captured one, after a yes given in the very turn of the call, before the action expired. Under
      the semantic contract, its order number, and its reason for a refund, are the user's own words. */
  ghost predicate WasConfirmed(cfg: Config, w: World, c: Called) {
    if c.call.tool in {CancelOrder, Tool.RequestRefund} then
      && c.serial.Some? && c.serial.value < |w.created|
      && var m := w.created[c.serial.value];
         && m.turn < c.turn && m.action.status == Waiting
         && c.call.tool == m.action.tool && c.call.arguments == m.action.arguments && c.call.key == m.action.id
         && BelongsTo(m.action, c.call.context) && SamePolicyContext(m.action.inputs.context, c.call.context)
         && (exists y :: 0 <= y < |w.confirms| && YesTo(cfg, m.action, w.confirms[y], c))
         && (cfg.contract == SemanticContract ==> UserSaid(c.call.tool, c.call.arguments, m.text, cfg.lex))
    else c.call.tool in {CreateSupportTicket, EscalateToHuman}
  }

  lemma RecordedWasConfirmed(cfg: Config, w: World, k: nat)
    requires Records(cfg, w) && k < |w.calls|
    ensures WasConfirmed(cfg, w, w.calls[k])
  {
    assert CallOk(cfg, w, w.calls[k]);
    if DestructiveTool(Some(w.calls[k].call.tool)) {
      assert CreationOk(cfg, w, w.calls[k].serial.value);
    }
  }

  /** What runs is what was confirmed. */
  lemma WhatRunsWasConfirmed(cfg: Config, run: seq<World>, events: seq<Event>, i: nat, k: nat)
    requires Run(cfg, run, events) && i < |run| && k < |run[i].calls|
    ensures WasConfirmed(cfg, run[i], run[i].calls[k])
  {
    RunKeeps(cfg, run, events, i);
    RecordedWasConfirmed(cfg, run[i], k);
  }

  /** One captured action is one scope of the idempotency table. */
  lemma SameActionSameScope(cfg: Config, w: World, j: nat, k: nat)
    requires Inv(cfg, w) && j < |w.calls| && k < |w.calls|
    requires w.calls[j].serial.Some? && w.calls[j].serial == w.calls[k].serial
    ensures ScopeOfCall(w.calls[j]) == ScopeOfCall(w.calls[k])
  {
    assert CallOk(cfg, w, w.calls[j]) && CallOk(cfg, w, w.calls[k]);
  }

  /** Each captured action changes business rows at most once, whatever crashes, lost commits and
      returns to earlier checkpoints the run has; and so does each idempotency key of a tool. */
  lemma AtMostOneEffect(cfg: Config, run: seq<World>, events: seq<Event>, i: nat, j: nat, k: nat)
    requires Run(cfg, run, events) && i < |run| && j < |run[i].calls| && k < |run[i].calls|
    requires run[i].calls[j].wrote && run[i].calls[k].wrote
    requires run[i].calls[j].serial == run[i].calls[k].serial || ScopeOfCall(run[i].calls[j]) == ScopeOfCall(run[i].calls[k])
    ensures j == k
  {
    RunKeeps(cfg, run, events, i);
    var w := run[i];
    assert CallOk(cfg, w, w.calls[j]) && CallOk(cfg, w, w.calls[k]);
    if w.calls[j].serial == w.calls[k].serial {
      SameActionSameScope(cfg, w, j, k);
    }
  }

  /** Without a return to an earlier checkpoint, and while turns come one after another, each captured
      action is even called at most once: once confirmed, it can never be confirmed again. */
  lemma AtMostOneCall(cfg: Config, run: seq<World>, events: seq<Event>, i: nat, j: nat, k: nat)
    requires Run(cfg, run, events) && i < |run| && j < |run[i].calls| && k < |run[i].calls|
    requires !run[i].fellBack && run[i].calls[j].serial.Some? && run[i].calls[j].serial == run[i].calls[k].serial
    ensures j == k
  {
    RunKeeps(cfg, run, events, i);
  }

  /** The slots: an action is never both pending and suspended, not even under the same id; what is
      suspended is waiting, exactly as it was captured. */
  lemma SlotsExclusive(cfg: Config, run: seq<World>, events: seq<Event>, i: nat)
    requires Run(cfg, run, events) && i < |run|
    ensures var w := run[i];
            && (Suspension(w.state).Some? ==>
                  var a := Suspension(w.state).value;
                  && a.serial < |w.created| && a == w.created[a.serial].action && a.status == Waiting
                  && (w.state.slots.pending.Some? ==>
                        w.state.slots.pending.value.serial != a.serial && w.state.slots.pending.value.id != a.id))
            && (w.state.slots.pending.Some? ==>
                  var a := w.state.slots.pending.value;
                  && a.serial < |w.created| && a == w.created[a.serial].action.(status := a.status)
                  && w.state.slots.actionId == Some(a.id))
  {
    RunKeeps(cfg, run, events, i);
    if Suspension(run[i].state).Some? {
      assert CreationOk(cfg, run[i], Suspension(run[i].state).value.serial);
    }
  }

  // ------------------------------------------------------------------------- nothing comes back

  /** Only the execution nodes call tools; the others return a state and add to the records. */
  lemma NodeIsMove(cfg: Config, w: World, ch: Choice)
    requires !Executing(w.node)
    ensures var w' := RunNode(cfg, w, ch);
            && w' == Move(w, w'.state).(usedIds := w'.usedIds, created := w'.created, confirms := w'.confirms)
            && w.created <= w'.created
  {
  }

  lemma NodeGrows(cfg: Config, w: World, ch: Choice)
    ensures var w' := RunNode(cfg, w, ch);
            && w.created <= w'.created && w.calls <= w'.calls && w.spent <= w'.spent && w'.fellBack == w.fellBack
            && Live(w.state) - Live(w'.state) <= w'.spent
  {
    if Executing(w.node) {
    } else {
      NodeIsMove(cfg, w, ch);
    }
  }

  /** Without a fall back, what leaves the slots is spent: rejected, expired, failed, executed,
      superseded, dropped or overwritten. */
  lemma StepGrows(cfg: Config, w: World, e: Event, w': World)
    requires Next(cfg, w, e, w')
    ensures Precedes(w, w')
    ensures !w'.fellBack ==> Live(w.state) - Live(w'.state) <= w'.spent
  {
    if e.Node? {
      NodeGrows(cfg, w, e.choice);
    }
  }

  /** The records of `w` are a part of those of `w'`. */
  predicate Precedes(w: World, w': World) {
    w.created <= w'.created && w.calls <= w'.calls && w.spent <= w'.spent && (w.fellBack ==> w'.fellBack)
  }

  lemma RunStepGrows(cfg: Config, run: seq<World>, events: seq<Event>, i: nat)
    requires Run(cfg, run, events) && i + 1 < |run|
    ensures Precedes(run[i], run[i + 1])
    ensures !run[i + 1].fellBack ==> Live(run[i].state) - Live(run[i + 1].state) <= run[i + 1].spent
  {
    StepGrows(cfg, run[i], events[i], run[i + 1]);
  }

  lemma {:induction false} PrecedesAlong(run: seq<World>, i: nat, j: nat)
    requires i <= j < |run| && forall n: nat | n < j :: Precedes(run[n], run[n + 1])
    ensures Precedes(run[i], run[j])
  {
    if i < j {
      PrecedesAlong(run, i, j - 1);
      assert Precedes(run[j - 1], run[j - 1 + 1]);
    }
  }

  /** Nothing is ever taken out of the records. */
  lemma RunGrows(cfg: Config, run: seq<World>, events: seq<Event>, i: nat, j: nat)
    requires Run(cfg, run, events) && i <= j < |run|
    ensures Precedes(run[i], run[j])
  {
    forall n: nat | n < j ensures Precedes(run[n], run[n + 1]) {
      RunStepGrows(cfg, run, events, n);
    }
    PrecedesAlong(run, i, j);
  }

  /** Only an armed action is called. */
  lemma CallsAreArmed(cfg: Config, w: World, e: Event, w': World)
    requires Here(cfg, w, w.node) && Next(cfg, w, e, w')
    ensures w.calls <= w'.calls
    ensures forall k, x | |w.calls| <= k < |w'.calls| && w'.calls[k].serial == Some(x) :: x in Armed(w.node, w.state)
  {
    if e.Node? {
      if Executing(w.node) {
        ExecutedIsArmed(cfg, w);
        ExecutesCalls(w, Result(w, e.choice.fate));
      } else {
        NodeIsMove(cfg, w, e.choice);
      }
    }
  }

  lemma ExecutesCalls(w: World, r: ToolRun)
    ensures Executes(w, r).calls == w.calls + if IsWrite(r) then [CalledFrom(w, r)] else []
  {
  }

  lemma ExecutedIsArmed(cfg: Config, w: World)
    requires Here(cfg, w, w.node) && Executing(w.node)
    ensures w.state.slots.pending.Some? ==> w.state.slots.pending.value.serial in Armed(w.node, w.state)
  {
  }

  /** No call of the action was recorded from position `start` on. */
  predicate NoCallsOf(w: World, start: nat, x: nat) {
    forall k | start <= k < |w.calls| :: w.calls[k].serial != Some(x)
  }

  /** One step as far as a spent action can tell. */
  predicate Spares(w: World, w': World, x: nat) {
    Precedes(w, w') && (!w'.fellBack && x in w.spent ==> NoCallsOf(w', |w.calls|, x))
  }

  lemma RunStepSpares(cfg: Config, run: seq<World>, events: seq<Event>, i: nat, x: nat)
    requires Run(cfg, run, events) && i + 1 < |run|
    ensures Spares(run[i], run[i + 1], x)
  {
    RunKeeps(cfg, run, events, i);
    RunStepGrows(cfg, run, events, i);
    CallsAreArmed(cfg, run[i], events[i], run[i + 1]);
  }

  lemma {:induction false} SparedAlong(run: seq<World>, i: nat, j: nat, x: nat)
    requires i <= j < |run| && forall n: nat | n < j :: Spares(run[n], run[n + 1], x)
    ensures Precedes(run[i], run[j])
    ensures !run[j].fellBack && x in run[i].spent ==> NoCallsOf(run[j], |run[i].calls|, x)
  {
    if i < j {
      SparedAlong(run, i, j - 1, x);
      assert Spares(run[j - 1], run[j - 1 + 1], x);
    }
  }

  /** A spent action is never called again. */
  lemma SpentNeverCalled(cfg: Config, run: seq<World>, events: seq<Event>, i: nat, j: nat, x: nat)
    requires Run(cfg, run, events) && i <= j < |run| && !run[j].fellBack && x in run[i].spent
    ensures NoCallsOf(run[j], |run[i].calls|, x)
  {
    forall n: nat | n < j ensures Spares(run[n], run[n + 1], x) {
      RunStepSpares(cfg, run, events, n, x);
    }
    SparedAlong(run, i, j, x);
  }

  /** An action that was waiting, confirmed or suspended and no longer is, because it was rejected,
      expired, failed, superseded, dropped or executed, is never called afterwards. */
  lemma DeadStaysDead(cfg: Config, run: seq<World>, events: seq<Event>, i: nat, j: nat, x: nat)
    requires Run(cfg, run, events) && i < j < |run| && !run[j].fellBack
    requires x in Live(run[i].state) && x !in Live(run[i + 1].state)
    ensures NoCallsOf(run[j], |run[i + 1].calls|, x)
  {
    RunGrows(cfg, run, events, i + 1, j);
    RunStepGrows(cfg, run, events, i);
    SpentNeverCalled(cfg, run, events, i + 1, j, x);
  }

  // --------------------------------------------------------------------------- suspend and resume

  /** Resuming gives back the suspended action exactly when it belongs to the context; then it is the
      captured action itself, waiting, under its own id, and the turn ends without executing it. */
  lemma ResumeExact(cfg: Config, run: seq<World>, events: seq<Event>, j: nat)
    requires Run(cfg, run, events) && j < |events| && events[j].Node? && run[j].node == AtRestoreSuspended
    requires Suspension(run[j].state).Some?
    ensures var a := Suspension(run[j].state).value;
            var t := run[j + 1].state;
            && run[j + 1].node == AtRespond
            && a.serial < |run[j].created| && a == run[j].created[a.serial].action && a.status == Waiting
            && (if BelongsTo(a, t.request.context) then
                  t.slots == Slots(Some(a), None, Some(a.id)) && t.progress.confirmation == Resumed
                else t.slots == run[j].state.slots)
  {
    RunKeeps(cfg, run, events, j);
    assert CreationOk(cfg, run[j], Suspension(run[j].state).value.serial);
    RestoreSuspendedExact(run[j].state);
  }

  lemma RestoreSuspendedExact(s: State)
    requires Suspension(s).Some?
    ensures var t := RestoreSuspended(s);
            t.request == s.request &&
            if BelongsTo(Suspension(s).value, s.request.context) then
              t.slots == Slots(Some(Suspension(s).value), None, Some(Suspension(s).value.id)) && t.progress.confirmation == Resumed
            else t.slots == s.slots
  {
  }

  /** Suspending and resuming is the identity on the action, whatever happened in between. */
  lemma SuspendResumeRoundTrip(cfg: Config, run: seq<World>, events: seq<Event>, i: nat, j: nat, a: Action)
    requires Run(cfg, run, events) && i < j < |run| && events[i].Node? && run[i].node == AtInterruption
    requires run[i].state.slots.pending == Some(a) && Suspension(run[i + 1].state) == Some(a)
    requires run[j].state.slots.pending.Some? && run[j].state.slots.pending.value.serial == a.serial
    requires run[j].state.slots.pending.value.status == Waiting
    ensures run[j].state.slots.pending == Some(a) && run[j].state.slots.actionId == Some(a.id)
  {
    RoundTripFacts(cfg, run, events, i + 1, a);
    RunGrows(cfg, run, events, i + 1, j);
    PendingFacts(cfg, run, events, j);
  }

  /** A suspended action is the captured one, waiting. */
  lemma RoundTripFacts(cfg: Config, run: seq<World>, events: seq<Event>, i: nat, a: Action)
    requires Run(cfg, run, events) && i < |run| && Suspension(run[i].state) == Some(a)
    ensures a.serial < |run[i].created| && a == run[i].created[a.serial].action.(status := Waiting)
  {
    RunKeeps(cfg, run, events, i);
  }

  lemma PendingFacts(cfg: Config, run: seq<World>, events: seq<Event>, j: nat)
    requires Run(cfg, run, events) && j < |run| && run[j].state.slots.pending.Some?
    ensures Known(run[j], run[j].state.slots.pending.value)
    ensures run[j].state.slots.actionId == Some(run[j].state.slots.pending.value.id)
  {
    RunKeeps(cfg, run, events, j);
  }

  // --------------------------------------------------------------- the reuse of an idempotency key

  predicate ReusesId(w: World, w': World) {
    && w'.state.slots.actionId == w.state.slots.actionId
    && (|w'.created| > |w.created| ==> Some(w'.created[|w.created|].action.id) == w.state.slots.actionId)
  }

  /** The action id outlives its action: only suspending, superseding and resuming change one that is
      there. A new turn does not reset it, and judging a new request uses it again. */
  lemma ActionIdIsReused(cfg: Config, w: World, e: Event, w': World)
    requires Here(cfg, w, w.node) && Next(cfg, w, e, w') && !e.FallBack? && w.state.slots.actionId.Some?
    requires !(e.Node? && w.node in {AtInterruption, AtRestoreSuspended})
    ensures ReusesId(w, w')
  {
    if e.Node? {
      NodeReusesId(cfg, w, e.choice);
    }
  }

  lemma NodeReusesId(cfg: Config, w: World, ch: Choice)
    requires Here(cfg, w, w.node) && w.node !in {AtInterruption, AtRestoreSuspended} && w.state.slots.actionId.Some?
    ensures ReusesId(w, RunNode(cfg, w, ch))
  {
    if Executing(w.node) {
      ExecutionRan(w, ch.fate);
      ExecutesReuses(w, Result(w, ch.fate));
    } else {
      NodeKeepsId(cfg, w, ch);
    }
  }

  lemma ExecutesReuses(w: World, r: ToolRun)
    requires RanState(w.state, r)
    ensures ReusesId(w, Executes(w, r))
  {
  }

  lemma ExecutionRan(w: World, fate: Fate)
    requires Executing(w.node) && (w.node == AtExecuteHuman ==> w.state.slots.pending == None)
    ensures RanCall(w.state, w.db, Result(w, fate)) && RanState(w.state, Result(w, fate))
  {
    if w.node == AtExecuteHuman {
      ExecuteHumanRan(w.state, w.db, fate);
    } else {
      ExecuteConfirmedRan(w.state, w.db, fate);
    }
  }

  lemma NodeKeepsId(cfg: Config, w: World, ch: Choice)
    requires !Executing(w.node) && w.node !in {AtInterruption, AtRestoreSuspended} && w.state.slots.actionId.Some?
    ensures Returned(cfg, w, ch).slots.actionId == w.state.slots.actionId
    ensures NewCreations(w, Returned(cfg, w, ch)) != [] ==>
              Some(NewCreations(w, Returned(cfg, w, ch))[0].action.id) == w.state.slots.actionId
  {
    var s := w.state;
    match w.node
    case AtUnderstand => UnderstandPlans(s, cfg.contract, ch.proposal);
    case AtCompile => CompilePlans(cfg, s, ch.latestOrder);
    case AtSelect => SelectPlans(cfg, s);
    case AtValidate => ValidatePlans(cfg, s);
    case AtResumeWorkflow => ResumeWorkflowPlans(s);
    case AtEvaluatePolicy => EvaluatePolicyExact(s, ch.newId, ch.policyFails);
    case _ =>
  }

  /** The outcome of calling a confirmed action, when nothing breaks: it is executed exactly when its
      key has no receipt and the tool's own check passes, or has the receipt of the same payload.
      Whether a receipt is there can be looked up before the call. */
  lemma ConfirmedOutcomeExact(cfg: Config, w: World, ch: Choice)
    requires Inv(cfg, w) && w.node == AtExecuteConfirmed && ch.fate == Fate(Runs, Sessions.Confirmed, false)
    ensures w.state.slots.pending.Some?
    ensures var t := RunNode(cfg, w, ch).state;
            var a := w.state.slots.pending.value;
            var q := RequestOf(a.tool, w.state.request.context, a.id, a.arguments);
            t.slots.pending.Some? &&
            (t.slots.pending.value.status == Executed <==>
               if DB.HasScope(w.db, DB.ScopeOf(q)) then DB.ReceiptFor(w.db, DB.ScopeOf(q)).payload == q.payload
               else if a.tool == CancelOrder then DB.ValidateCancel(w.db, q) == None else DB.ValidateRefund(w.db, q) == None)
  {
    var a := w.state.slots.pending.value;
    ConfirmedHere(cfg, w);
    ExecutesCaptured(w.state, w.db, ch.fate, a);
    ExecuteOutcome(w.db, RequestOf(a.tool, w.state.request.context, a.id, a.arguments));
    ResultShows(cfg, w, ch);
    assert Result(w, ch.fate) == ExecuteConfirmed(w.state, w.db, ch.fate);
  }

  /** What the invariant says where a confirmed action is about to be called. */
  lemma ConfirmedHere(cfg: Config, w: World)
    requires Inv(cfg, w) && w.node == AtExecuteConfirmed
    ensures w.state.slots.pending.Some? && DB.Consistent(w.db)
    ensures var a := w.state.slots.pending.value;
            && w.state.plan.tool == Some(a.tool) && w.state.plan.arguments == a.arguments && w.state.slots.actionId == Some(a.id)
            && DestructiveTool(Some(a.tool)) && Normalise(a.tool, a.arguments) == Some(a.arguments)
            && Lookup(a.arguments, CustomerId) == JInt(w.state.request.context.customerId)
  {
    assert CreationOk(cfg, w, w.state.slots.pending.value.serial);
  }

  /** At a confirmed action the execution node reaches the tool, and its status tells the outcome. */
  lemma ExecutesCaptured(s: State, db: DB.Db, fate: Fate, a: Action)
    requires s.slots.pending == Some(a) && s.plan.tool == Some(a.tool) && s.plan.arguments == a.arguments
    requires s.slots.actionId == Some(a.id) && DestructiveTool(Some(a.tool)) && Normalise(a.tool, a.arguments) == Some(a.arguments)
    requires Lookup(a.arguments, CustomerId) == JInt(s.request.context.customerId)
    requires fate == Fate(Runs, Sessions.Confirmed, false)
    ensures var r := ExecuteConfirmed(s, db, fate);
            r.state.Some? && r.state.value.slots.pending.Some?
            && (r.state.value.slots.pending.value.status == Executed <==>
                  !DB.Execute(db, RequestOf(a.tool, s.request.context, a.id, a.arguments)).1.Refused?)
  {
  }

  lemma ExecuteOutcome(db: DB.Db, q: DB.Request)
    requires DB.Consistent(db) && q.tool in {CancelOrder, Tool.RequestRefund}
    ensures !DB.Execute(db, q).1.Refused? <==>
            if DB.HasScope(db, DB.ScopeOf(q)) then DB.ReceiptFor(db, DB.ScopeOf(q)).payload == q.payload
            else if q.tool == CancelOrder then DB.ValidateCancel(db, q) == None else DB.ValidateRefund(db, q) == None
  {
  }

  /** A second cancellation, or a second refund, with another payload, confirmed under a key that an
      earlier one of the same conversation already used, is refused as a duplicate: no row changes,
      and the action ends failed. */
  lemma ReusedKeyIsRefused(cfg: Config, w: World, ch: Choice, k: nat)
    requires Inv(cfg, w) && w.node == AtExecuteConfirmed && k < |w.calls| && w.calls[k].wrote
    requires var a := w.state.slots.pending.value; var q := RequestOf(a.tool, w.state.request.context, a.id, a.arguments);
             DB.ScopeOf(q) == ScopeOfCall(w.calls[k]) && q.payload != RequestOfCall(w.calls[k]).payload
    ensures RunNode(cfg, w, ch).db == w.db
    ensures ch.fate == Fate(Runs, Sessions.Confirmed, false) ==>
              RunNode(cfg, w, ch).state.slots.pending == Some(w.state.slots.pending.value.(status := Failed))
              && RunNode(cfg, w, ch).state.progress.error == Some(DuplicateError)
  {
    var a := w.state.slots.pending.value;
    ConfirmedHere(cfg, w);
    assert DB.Execute(w.db, RequestOf(a.tool, w.state.request.context, a.id, a.arguments)) == (w.db, DB.Refused(DB.Duplicate)) by {
      assert CallOk(cfg, w, w.calls[k]);
      OtherPayloadRefused(w.db, RequestOfCall(w.calls[k]), RequestOf(a.tool, w.state.request.context, a.id, a.arguments));
    }
    RefusedLeavesRows(w.state, w.db, ch.fate, a);
    ResultShows(cfg, w, ch);
  }

  /** What an execution node's result does to the world. */
  lemma ResultShows(cfg: Config, w: World, ch: Choice)
    requires Executing(w.node)
    ensures var r := Result(w, ch.fate);
            RunNode(cfg, w, ch).db == r.db && (r.state.Some? ==> RunNode(cfg, w, ch).state == r.state.value)
  {
    ExecutesShows(w, Result(w, ch.fate));
  }

  lemma ExecutesShows(w: World, r: ToolRun)
    requires Executing(w.node)
    ensures Executes(w, r).db == r.db && (r.state.Some? ==> Executes(w, r).state == r.state.value)
  {
  }

  lemma RefusedLeavesRows(s: State, db: DB.Db, fate: Fate, a: Action)
    requires s.slots.pending == Some(a) && s.plan.tool == Some(a.tool) && s.plan.arguments == a.arguments
    requires s.slots.actionId == Some(a.id) && DestructiveTool(Some(a.tool)) && Normalise(a.tool, a.arguments) == Some(a.arguments)
    requires Lookup(a.arguments, CustomerId) == JInt(s.request.context.customerId)
    requires DB.Execute(db, RequestOf(a.tool, s.request.context, a.id, a.arguments)) == (db, DB.Refused(DB.Duplicate))
    ensures ExecuteConfirmed(s, db, fate).db == db
    ensures fate == Fate(Runs, Sessions.Confirmed, false) ==>
              && ExecuteConfirmed(s, db, fate).state.Some?
              && ExecuteConfirmed(s, db, fate).state.value.slots.pending == Some(a.(status := Failed))
              && ExecuteConfirmed(s, db, fate).state.value.progress.error == Some(DuplicateError)
  {
    ExecuteConfirmedRan(s, db, fate);
    if fate == Fate(Runs, Sessions.Confirmed, false) {
      ExecutesCaptured(s, db, fate, a);
    }
  }

  lemma OtherPayloadRefused(db: DB.Db, done: DB.Request, q: DB.Request)
    requires DB.Consistent(db) && Receipted(db, done) && DB.ScopeOf(done) == DB.ScopeOf(q) && done.payload != q.payload
    ensures DB.Execute(db, q) == (db, DB.Refused(DB.Duplicate))
  {
  }
}
