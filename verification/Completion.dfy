/** From the yes to the call: the way a confirmed action takes through restoration, compilation,
    selection, validation and revalidation, and exactly when it gets through. */
module Completion {
  import opened Domain
  import opened PendingPayload
  import opened Compiler
  import opened Agent
  import opened Graph
  import opened Safety
  import DB = Database
  import Sessions
  import Conversations

  /** A captured cancellation or refund, as `CaptureExact` leaves it. */
  predicate CapturedCall(a: Action) {
    && DestructiveTool(Some(a.tool)) && Normalise(a.tool, a.arguments) == Some(a.arguments)
    && a.inputs.tool == a.tool && a.inputs.arguments == a.arguments
  }

  function IntentOf(tool: Tool): Intent {
    if tool == CancelOrder then OrderCancel else Intent.RefundRequest
  }

  /** The compiler accepts the captured action again, on all that the user has said by now. */
  predicate CompilesAgain(a: Action, text: string, lex: Lexicon) {
    && a.grounding !in {Ungrounded, Invalid}
    && (if a.tool == CancelOrder then !lex.contradictoryCancel(text)
        else a.grounding == NotApplicable || ReasonSupported(lex, TextOf(Lookup(a.arguments, Reason)), text))
  }

  /** Nothing speaks against the action any more: it is the user's own, nothing the policy reads has
      changed, and the tool's check passes. */
  ghost predicate StillValid(a: Action, c: Context, db: DB.Db) {
    && BelongsTo(a, c) && SamePolicyContext(a.inputs.context, c)
    && Lookup(a.arguments, CustomerId) == JInt(c.customerId) && c.customerId > 0
    && CheckPasses(a, c, db)
  }

  ghost predicate CheckPasses(a: Action, c: Context, db: DB.Db) {
    var q := RequestOf(a.tool, c, a.id, a.arguments);
    if a.tool == CancelOrder then DB.ValidateCancel(db, q) == None else DB.ValidateRefund(db, q) == None
  }

  /** The nodes between the yes and the call, as long as the graph leads to the next one. */
  function PlannedAgain(s: State, latest: Option<int>, lex: Lexicon): State {
    SelectTool(CompileDecision(RestorePending(s), latest, lex))
  }

  predicate ReachesRevalidation(s: State, latest: Option<int>, lex: Lexicon) {
    var t := PlannedAgain(s, latest, lex);
    && After(AtRestorePending, RestorePending(s)) == AtCompile
    && After(AtSelect, t) == AtValidate
    && After(AtValidate, ValidateTool(t)) == AtRevalidation
  }

  ghost predicate Leads(v: State, db: DB.Db) {
    After(AtRevalidation, Revalidate(v, db)) == AtExecuteConfirmed
  }

  ghost predicate GetsThrough(s: State, latest: Option<int>, lex: Lexicon, db: DB.Db) {
    ReachesRevalidation(s, latest, lex) && Leads(ValidateTool(PlannedAgain(s, latest, lex)), db)
  }

  /** Restoration offers the compiler the captured call. */
  lemma RestoredExact(s: State)
    requires s.slots.pending.Some? && s.slots.pending.value.status == Confirmed && CapturedCall(s.slots.pending.value)
    ensures var a, t := s.slots.pending.value, RestorePending(s);
            && t.request == s.request && t.slots == s.slots && t.progress == s.progress.(error := None)
            && t.plan.restored && t.plan.compilationResumed && t.plan.grounding == a.grounding && t.plan.semantic.Some?
            && t.plan.semantic.value.intent == IntentOf(a.tool)
            && t.plan.semantic.value.target == Some(ExplicitOrder(IntOf(Lookup(a.arguments, OrderId))))
            && (a.tool == Tool.RequestRefund ==> t.plan.semantic.value.reason == TextOf(Lookup(a.arguments, Reason)) != "")
  {
    var a := s.slots.pending.value;
    RestoredArguments(a);
  }

  /** What collected entities fill in is outside the input model, or absent. */
  lemma RestoredArguments(a: Action)
    requires CapturedCall(a)
    ensures var r := RestoreArguments(a.inputs.arguments, a.entities);
            && Lookup(r, OrderId) == Lookup(a.arguments, OrderId) && Lookup(a.arguments, OrderId).JInt? && Lookup(a.arguments, OrderId).n > 0
            && (a.tool == Tool.RequestRefund ==>
                  Lookup(r, Reason) == Lookup(a.arguments, Reason) && TextOf(Lookup(a.arguments, Reason)) != "")
  {
    NormaliseIdempotent(a.tool, a.arguments, map[]);
    assert FieldAccepts(InputModel(a.tool)[OrderId], Lookup(a.arguments, OrderId));
    if a.tool == Tool.RequestRefund {
      assert FieldAccepts(InputModel(a.tool)[Reason], Lookup(a.arguments, Reason));
    }
  }

  /** The compiler's answer to a decision that names its order, and its reason if it needs one. */
  predicate Accepts(d: Decision, g: GroundingStatus, text: string, restored: bool, lex: Lexicon) {
    && g !in {Ungrounded, Invalid}
    && (if d.intent == OrderCancel then !lex.contradictoryCancel(text) else restored || ReasonSupported(lex, d.reason, text))
  }

  lemma CompileAnswers(d: Decision, c: Context, g: GroundingStatus, text: string, restored: bool, latest: Option<int>, lex: Lexicon, id: int)
    requires Destructive(d.intent) && d.target == Some(ExplicitOrder(id)) && (d.intent == Intent.RefundRequest ==> d.reason != "")
    ensures var r := Compile(d, c, g, text, restored, latest, lex);
            if Accepts(d, g, text, restored, lex) then
              && r.status == CompiledAction && r.requestType == WriteAction && r.intent == d.intent
              && r.tool == Some(if d.intent == OrderCancel then CancelOrder else Tool.RequestRefund)
              && Lookup(r.arguments, CustomerId) == JInt(c.customerId) && Lookup(r.arguments, OrderId) == JInt(id)
              && (d.intent == Intent.RefundRequest ==> Lookup(r.arguments, Reason) == JStr(d.reason))
            else r.status == ClarificationRequired && r.tool == None && r.intent == d.intent
  {
  }

  lemma DecisionCompiled(s: State, d: Decision, r: Compiled, latest: Option<int>, lex: Lexicon)
    requires s.plan.semantic == Some(d) && s.plan.restored
    requires r == Compile(d, s.request.context, s.plan.grounding, s.request.text, s.plan.grounding == NotApplicable, latest, lex)
    requires r.status in {CompiledAction, ClarificationRequired}
    ensures var t := CompileDecision(s, latest, lex);
            && t.slots == s.slots && t.request == s.request && t.progress == s.progress.(error := None)
            && t.plan.tool == r.tool && t.plan.arguments == r.arguments && t.plan.intent == r.intent
            && t.plan.requestType == r.requestType && t.plan.clarify == (r.status == ClarificationRequired)
  {
  }

  lemma SelectionGoesOn(t: State)
    requires t.progress.error == None
    requires t.plan.clarify || (t.plan.requestType == WriteAction && t.plan.tool.Some? && Destructive(t.plan.intent))
    ensures var u := SelectTool(t);
            && u.slots == t.slots && u.request == t.request && u.progress.confirmation == t.progress.confirmation
            && After(AtSelect, u) == (if t.plan.clarify then AtRespond else AtValidate)
            && (!t.plan.clarify ==> u == t)
  {
  }

  /** Compilation and selection go on to the validation of the same tool exactly when the action
      compiles again; otherwise the turn ends with a question, and the action stays confirmed. */
  lemma CompiledAgainExact(s: State, latest: Option<int>, lex: Lexicon)
    requires s.slots.pending.Some? && s.slots.pending.value.status == Confirmed && CapturedCall(s.slots.pending.value)
    ensures var a, t := s.slots.pending.value, PlannedAgain(s, latest, lex);
            && t.slots == s.slots && t.request == s.request && t.progress.confirmation == s.progress.confirmation
            && After(AtSelect, t) == (if CompilesAgain(a, s.request.text, lex) then AtValidate else AtRespond)
            && (CompilesAgain(a, s.request.text, lex) ==> SameCall(a, t))
  {
    var a, r := s.slots.pending.value, RestorePending(s);
    RestoredExact(s);
    RestoredArguments(a);
    var d, again := r.plan.semantic.value, r.plan.grounding == NotApplicable;
    var compiled := Compile(d, r.request.context, r.plan.grounding, r.request.text, again, latest, lex);
    CompileAnswers(d, r.request.context, r.plan.grounding, r.request.text, again, latest, lex, IntOf(Lookup(a.arguments, OrderId)));
    assert Accepts(d, r.plan.grounding, r.request.text, again, lex) == CompilesAgain(a, s.request.text, lex);
    DecisionCompiled(r, d, compiled, latest, lex);
    SelectionGoesOn(CompileDecision(r, latest, lex));
  }

  /** The state plans the captured call, for the customer of its own context. */
  predicate SameCall(a: Action, t: State) {
    && t.plan.tool == Some(a.tool) && t.progress.error == None
    && Lookup(t.plan.arguments, CustomerId) == JInt(t.request.context.customerId)
    && Lookup(t.plan.arguments, OrderId) == Lookup(a.arguments, OrderId)
    && (a.tool == Tool.RequestRefund ==> Lookup(t.plan.arguments, Reason) == Lookup(a.arguments, Reason))
  }

  lemma NormalisedAgain(a: Action, raw: Arguments, customer: int)
    requires CapturedCall(a) && Lookup(raw, CustomerId) == JInt(customer) && Lookup(raw, OrderId) == Lookup(a.arguments, OrderId)
    requires a.tool == Tool.RequestRefund ==> Lookup(raw, Reason) == Lookup(a.arguments, Reason)
    ensures Normalise(a.tool, raw).Some? <==> customer > 0
  {
    var model := InputModel(a.tool);
    assert forall f | f in model :: FieldAccepts(model[f], Lookup(a.arguments, f));
    assert forall f | f in model :: f in {CustomerId, OrderId, Reason};
    assert FieldAccepts(model[CustomerId], Lookup(raw, CustomerId)) <==> customer > 0;
  }

  /** What the compiler produced for the captured action passes validation in its own context. */
  lemma ValidatedAgain(a: Action, t: State)
    requires CapturedCall(a) && SameCall(a, t)
    ensures ValidateTool(t).slots == t.slots && ValidateTool(t).request == t.request
    ensures ValidateTool(t).progress.confirmation == t.progress.confirmation
    ensures ValidateTool(t).progress.error == None <==> t.request.context.customerId > 0
  {
    NormalisedAgain(a, t.plan.arguments[CustomerId := JInt(t.request.context.customerId)], t.request.context.customerId);
  }

  lemma RevalidationLeads(v: State, db: DB.Db)
    requires v.slots.pending.Some? && v.slots.pending.value.status == Confirmed && CapturedCall(v.slots.pending.value)
    requires v.progress.error == None
    ensures Leads(v, db) <==> StillValid(v.slots.pending.value, v.request.context, db)
  {
    var a, c := v.slots.pending.value, v.request.context;
    RevalidateExact(a, c, db);
    if RevalidationError(a, c, db) == None {
    } else {
    }
  }

  lemma RestorationLeads(s: State)
    requires s.slots.pending.Some? && s.slots.pending.value.status == Confirmed && CapturedCall(s.slots.pending.value)
    ensures After(AtRestorePending, RestorePending(s)) == AtCompile
  {
    assert RestorePending(s).plan.compilationResumed by {
      RestoredExact(s);
    }
    AfterRestoration(RestorePending(s));
  }

  lemma AfterRestoration(t: State)
    requires t.plan.compilationResumed
    ensures After(AtRestorePending, t) == AtCompile
  {
  }

  lemma ValidationLeads(a: Action, t: State)
    requires CapturedCall(a) && SameCall(a, t) && t.progress.confirmation == ConfirmedReply
    ensures After(AtValidate, ValidateTool(t)) == AtRevalidation <==> t.request.context.customerId > 0
    ensures t.request.context.customerId > 0 ==> ValidateTool(t).progress.error == None
    ensures ValidateTool(t).slots == t.slots && ValidateTool(t).request == t.request
  {
    ValidatedAgain(a, t);
    var v := ValidateTool(t);
    assert v.progress.confirmation == ConfirmedReply;
  }

  lemma ReachesRevalidationExact(s: State, latest: Option<int>, lex: Lexicon)
    requires s.slots.pending.Some? && s.slots.pending.value.status == Confirmed && CapturedCall(s.slots.pending.value)
    requires s.progress.confirmation == ConfirmedReply
    ensures ReachesRevalidation(s, latest, lex) <==>
            CompilesAgain(s.slots.pending.value, s.request.text, lex) && s.request.context.customerId > 0
    ensures ReachesRevalidation(s, latest, lex) ==>
              var v := ValidateTool(PlannedAgain(s, latest, lex));
              v.slots == s.slots && v.request == s.request && v.progress.error == None
  {
    RestorationLeads(s);
    CompiledAgainExact(s, latest, lex);
    if CompilesAgain(s.slots.pending.value, s.request.text, lex) {
      ValidationLeads(s.slots.pending.value, PlannedAgain(s, latest, lex));
    }
  }

  /** A confirmed action is called in the turn of its confirmation exactly when the compiler accepts it
      again on all that was said, and revalidation finds nothing against it. The first half can fail
      although it held at the capture, since what was said meanwhile counts too. */
  lemma GetsThroughExact(s: State, latest: Option<int>, lex: Lexicon, db: DB.Db)
    requires s.slots.pending.Some? && s.slots.pending.value.status == Confirmed && CapturedCall(s.slots.pending.value)
    requires s.progress.confirmation == ConfirmedReply
    ensures GetsThrough(s, latest, lex, db) <==>
            CompilesAgain(s.slots.pending.value, s.request.text, lex) && StillValid(s.slots.pending.value, s.request.context, db)
  {
    ReachesRevalidationExact(s, latest, lex);
    if ReachesRevalidation(s, latest, lex) {
      RevalidationLeads(ValidateTool(PlannedAgain(s, latest, lex)), db);
    }
  }

  // ------------------------------------------------------------- what becomes of a pending action

  /** What a reply makes of an action: expiry comes first; then a yes confirms, a no rejects, and
      anything else leaves it waiting. An action of somebody else stays untouched, and one that is
      done with is forgotten unless the reply is a yes, which is recognised as a replay. */
  lemma ReplyExact(s: State, now: int, ttl: int)
    requires s.slots.pending.Some? && s.progress.confirmation == Unset
    ensures var a, t := s.slots.pending.value, CheckPending(s, now, ttl);
            var yes, no := s.request.message.parsed == SaysYes, s.request.message.parsed == SaysNo;
            if !BelongsTo(a, s.request.context) then t.slots == s.slots && t.progress.error == Some(OwnershipViolation)
            else if a.status == Waiting then
              && t.slots.pending.Some?
              && var status := t.slots.pending.value.status;
                 && (status == Expired <==> IsExpired(a, now, ttl))
                 && (status == Confirmed <==> yes && !IsExpired(a, now, ttl))
                 && (status == Rejected <==> no && !IsExpired(a, now, ttl))
                 && (status == Waiting <==> !yes && !no && !IsExpired(a, now, ttl))
            else
              && t.slots.pending == (if yes then Some(a) else None)
              && (t.progress.replayDetected <==> s.progress.replayDetected || (yes && a.status == Executed))
  {
  }

  /** What a new request makes of a waiting action: the same intent, or none, leaves it where it is; a
      request that replaces it drops it; any other keeps it aside, unchanged. */
  lemma InterruptionExact(s: State)
    requires s.slots.pending.Some? && s.slots.pending.value.status == Waiting
    ensures var a, t, current := s.slots.pending.value, HandleInterruption(s), CurrentIntent(s);
            var replacing := s.plan.semantic.Some? && Supersedes(s.plan.semantic.value);
            if current in {UnknownIntent, a.intent} then t.slots == s.slots
            else
              && t.slots.pending == None && t.slots.actionId == None
              && (if replacing then t.slots.suspended == None else Suspension(t) == Some(a))
  {
  }

  // ------------------------------------------------------------------------- what is said meanwhile

  predicate MarkerAt(text: string, marker: string, i: int) {
    0 <= i <= |text| - |marker| && text[i..i + |marker|] == marker
  }

  ghost predicate Contains(text: string, marker: string) {
    exists i :: MarkerAt(text, marker, i)
  }

  /** One of the phrases that make a cancellation contradictory. */
  ghost predicate Wavers(text: string) {
    Contains(text, "cancel") && Contains(text, "maybe")
  }

  const ASKED := " cancel order 7"
  const WAVERED := ASKED + " maybe" + " yes"

  lemma AskedDoesNotWaver()
    ensures !Wavers(ASKED)
  {
    forall i | 0 <= i < |ASKED| ensures ASKED[i] != 'm' {
      assert ASKED == [' ', 'c', 'a', 'n', 'c', 'e', 'l', ' ', 'o', 'r', 'd', 'e', 'r', ' ', '7'];
    }
    forall i ensures !MarkerAt(ASKED, "maybe", i) {
      assert 0 <= i < |ASKED| ==> ASKED[i] != 'm' == "maybe"[0];
    }
  }

  lemma WaveredWavers()
    ensures Wavers(WAVERED)
  {
    assert WAVERED[1..7] == ASKED[1..7] == "cancel";
    assert MarkerAt(WAVERED, "cancel", 1);
    assert WAVERED[16..21] == " maybe"[1..6] == "maybe";
    assert MarkerAt(WAVERED, "maybe", 16);
  }

  /** "cancel order 7", then "maybe", then "yes": the compiler that accepted the cancellation at its
      capture asks back after the confirmation, since it reads the whole conversation. The turn ends,
      and the action, no longer waiting, stays confirmed and uncalled. */
  lemma WaveringStallsTheAction(s: State, latest: Option<int>, lex: Lexicon)
    requires s.slots.pending.Some? && s.slots.pending.value.status == Confirmed && CapturedCall(s.slots.pending.value)
    requires s.slots.pending.value.tool == CancelOrder && s.slots.pending.value.grounding == Grounded
    requires lex.contradictoryCancel(ASKED) == Wavers(ASKED) && lex.contradictoryCancel(WAVERED) == Wavers(WAVERED)
    requires s.request.text == WAVERED
    ensures CompilesAgain(s.slots.pending.value, ASKED, lex) && !CompilesAgain(s.slots.pending.value, WAVERED, lex)
    ensures After(AtSelect, PlannedAgain(s, latest, lex)) == AtRespond && PlannedAgain(s, latest, lex).slots == s.slots
  {
    AskedDoesNotWaver();
    WaveredWavers();
    CompiledAgainExact(s, latest, lex);
  }

  // -------------------------------------------------------------------------------- the whole turn

  const NOTHING_BREAKS := Fate(Runs, Sessions.Confirmed, false)

  /** From the reply to an executed action, when nothing breaks on the way. */
  ghost predicate YesIsCarriedOut(s: State, now: int, ttl: int, latest: Option<int>, lex: Lexicon, db: DB.Db) {
    var c := CheckPending(s, now, ttl);
    && After(AtCheckPending, c) == AtRestorePending && GetsThrough(c, latest, lex, db)
    && EndsExecuted(Revalidate(ValidateTool(PlannedAgain(c, latest, lex)), db), db)
  }

  ghost predicate EndsExecuted(s: State, db: DB.Db) {
    var r := ExecuteConfirmed(s, db, NOTHING_BREAKS);
    r.state.Some? && r.state.value.slots.pending.Some? && r.state.value.slots.pending.value.status == Executed
  }

  /** The key is free, or has the receipt of this very request. */
  ghost predicate KeyIsFree(a: Action, c: Context, db: DB.Db) {
    var q := RequestOf(a.tool, c, a.id, a.arguments);
    DB.HasScope(db, DB.ScopeOf(q)) ==> DB.ReceiptFor(db, DB.ScopeOf(q)).payload == q.payload
  }

  predicate SaysYesInTime(s: State, now: int, ttl: int)
    requires s.slots.pending.Some?
  {
    var a := s.slots.pending.value;
    a.status == Waiting && s.request.message.parsed == SaysYes && !IsExpired(a, now, ttl) && BelongsTo(a, s.request.context)
  }

  lemma CheckLeads(s: State, now: int, ttl: int)
    requires s.slots.pending.Some? && s.progress.confirmation == Unset
    ensures var c := CheckPending(s, now, ttl);
            && (After(AtCheckPending, c) == AtRestorePending <==> SaysYesInTime(s, now, ttl))
            && (SaysYesInTime(s, now, ttl) ==>
                  && c.slots == s.slots.(pending := Some(s.slots.pending.value.(status := Confirmed))) && c.request == s.request
                  && c.progress.confirmation == ConfirmedReply)
  {
  }

  lemma RevalidatedCall(v: State, db: DB.Db)
    requires v.slots.pending.Some? && v.slots.pending.value.status == Confirmed && CapturedCall(v.slots.pending.value)
    requires v.progress.error == None && Leads(v, db)
    ensures var a, t := v.slots.pending.value, Revalidate(v, db);
            && t.slots == v.slots && t.request == v.request && t.plan.tool == Some(a.tool) && t.plan.arguments == a.arguments
            && Lookup(a.arguments, CustomerId) == JInt(t.request.context.customerId)
  {
    RevalidatePlans(v, db);
  }

  lemma EndsExecutedExact(s: State, db: DB.Db, a: Action)
    requires s.slots.pending == Some(a) && s.slots.actionId == Some(a.id) && CapturedCall(a) && DB.Consistent(db)
    requires s.plan.tool == Some(a.tool) && s.plan.arguments == a.arguments
    requires Lookup(a.arguments, CustomerId) == JInt(s.request.context.customerId)
    requires CheckPasses(a, s.request.context, db)
    ensures EndsExecuted(s, db) <==> KeyIsFree(a, s.request.context, db)
  {
    Conversations.ExecutesCaptured(s, db, NOTHING_BREAKS, a);
    Conversations.ExecuteOutcome(db, RequestOf(a.tool, s.request.context, a.id, a.arguments));
  }

  /** When nothing breaks, a reply to a pending action ends with that action executed exactly when it
      is a yes, in time, from its owner, to an action still waiting; the compiler accepts the action
      again on all that was said by then; nothing the policy reads has changed and the tool's check
      passes; and its key is free or has the receipt of this very request. */
  lemma YesIsCarriedOutExact(s: State, now: int, ttl: int, latest: Option<int>, lex: Lexicon, db: DB.Db)
    requires s.progress.confirmation == Unset && s.slots.pending.Some? && CapturedCall(s.slots.pending.value)
    requires s.slots.actionId == Some(s.slots.pending.value.id) && DB.Consistent(db)
    ensures var a, c := s.slots.pending.value, s.request.context;
            YesIsCarriedOut(s, now, ttl, latest, lex, db) <==>
              && SaysYesInTime(s, now, ttl) && CompilesAgain(a, s.request.text, lex)
              && StillValid(a, c, db) && KeyIsFree(a, c, db)
  {
    CheckLeads(s, now, ttl);
    if SaysYesInTime(s, now, ttl) {
      ConfirmedIsCarriedOut(CheckPending(s, now, ttl), latest, lex, db);
      StatusIsIrrelevant(s.slots.pending.value, Confirmed, s.request.context, s.request.text, lex, db);
    }
  }

  lemma StatusIsIrrelevant(a: Action, status: Status, c: Context, text: string, lex: Lexicon, db: DB.Db)
    ensures CapturedCall(a.(status := status)) == CapturedCall(a)
    ensures CompilesAgain(a.(status := status), text, lex) == CompilesAgain(a, text, lex)
    ensures StillValid(a.(status := status), c, db) == StillValid(a, c, db)
    ensures KeyIsFree(a.(status := status), c, db) == KeyIsFree(a, c, db)
  {
  }

  lemma RevalidatedIsCarriedOut(v: State, db: DB.Db)
    requires v.slots.pending.Some? && v.slots.pending.value.status == Confirmed && CapturedCall(v.slots.pending.value)
    requires v.slots.actionId == Some(v.slots.pending.value.id) && DB.Consistent(db)
    requires v.progress.error == None && Leads(v, db)
    ensures EndsExecuted(Revalidate(v, db), db) <==> KeyIsFree(v.slots.pending.value, v.request.context, db)
  {
    RevalidatedCall(v, db);
    RevalidationLeads(v, db);
    EndsExecutedExact(Revalidate(v, db), db, v.slots.pending.value);
  }

  lemma ConfirmedIsCarriedOut(c: State, latest: Option<int>, lex: Lexicon, db: DB.Db)
    requires c.slots.pending.Some? && c.slots.pending.value.status == Confirmed && CapturedCall(c.slots.pending.value)
    requires c.slots.actionId == Some(c.slots.pending.value.id) && DB.Consistent(db)
    requires c.progress.confirmation == ConfirmedReply
    ensures GetsThrough(c, latest, lex, db) && EndsExecuted(Revalidate(ValidateTool(PlannedAgain(c, latest, lex)), db), db) <==>
            && CompilesAgain(c.slots.pending.value, c.request.text, lex)
            && StillValid(c.slots.pending.value, c.request.context, db) && KeyIsFree(c.slots.pending.value, c.request.context, db)
  {
    GetsThroughExact(c, latest, lex, db);
    if GetsThrough(c, latest, lex, db) {
      ReachesRevalidationExact(c, latest, lex);
      RevalidatedIsCarriedOut(ValidateTool(PlannedAgain(c, latest, lex)), db);
    }
  }
}
