/** The agent's conversation state and the nodes of its graph, as functions from state to state. A
    node that the graph does not enter with a given field set still has a total definition
    (agent/state.py, agent/nodes/, policies/). */
module Agent {
  import opened Domain
  import opened PendingPayload
  import opened Compiler
  import DB = Database
  import Sessions

  // ------------------------------------------------------------------------------------- values

  datatype Status = Waiting | Confirmed | Rejected | Expired | Executed | Failed

  /** A captured action; `serial` is the model's name for the moment of its creation, which no code
      reads, because ids are reused between actions of one conversation. */
  datatype Action = Action(
    serial: nat,
    id: string,
    conversationId: string,
    tenantId: string,
    customerId: int,
    actorId: string,
    actorType: ActorType,
    tool: Tool,
    arguments: Arguments,
    intent: Intent,
    entities: Arguments,
    grounding: GroundingStatus,
    inputs: Captured,
    createdAt: int,
    status: Status)

  datatype Outcome = Allow | RequireConfirmation | RequireHuman | Deny

  datatype PolicyDecision = PolicyDecision(
    outcome: Outcome, riskLevel: int, reasons: seq<string>, conditions: seq<string>)

  datatype Parsed = SaysYes | SaysNo | SaysOther

  datatype Signal = NoSignal | OverrideAttempt | CrossCustomer

  /** One user message, with what the phrase lists recognise in it. */
  datatype Message = Message(
    text: string,
    parsed: Parsed,
    resume: bool,
    interruption: bool,
    signal: Signal,
    replyOrder: Option<int>,     // the whole message is an order number
    insteadRefund: bool,
    insteadCancel: bool,
    memorySummary: bool,
    conflicting: bool)

  datatype Confirmation =
    | Unset | Normal | NoPending | ResumeUnavailable | ResumeSuspended | OwnershipError | ExpiredReply
    | ConfirmedReply | RejectedReply | InspectInterruption | Ambiguous | Interrupted | Resumed | Blocked

  datatype Interruption = NoInterruption | Continued | Suspended | Superseded | SecurityBlocked | ResumedWork | ResumeDenied | NothingToResume

  datatype Resumption = NoResumption | ResumedAll | InspectReply | WaitingForFields | ResetWork

  datatype ErrorCategory =
    | PolicyDenied | OwnershipViolation | InvalidArguments | UnknownTool | LlmError
    | NotFoundError | InvalidStateError | DuplicateError | UnknownWriteOutcome | ToolFailure

  datatype Execution = NotExecuted | AwaitingConfirmation | ExecutedOk | ExecutionFailed

  datatype Owner = Owner(customerId: int, tenantId: string, actorId: string, actorType: ActorType)

  /** A suspended workflow. */
  datatype Snapshot = Snapshot(
    intent: Intent,
    action: Option<Action>,
    decision: Option<Decision>,
    entities: Arguments,
    arguments: Arguments,
    missing: seq<Field>)

  /** What a turn is given. */
  datatype Request = Request(
    context: Context,
    conversationId: string,
    message: Message,
    text: string)                      // all user messages so far, joined by spaces

  /** What survives between turns of an action. */
  datatype Slots = Slots(
    pending: Option<Action>,
    suspended: Option<Snapshot>,
    actionId: Option<string>)

  /** What this turn is about to do. */
  datatype Plan = Plan(
    tool: Option<Tool>,
    arguments: Arguments,
    semantic: Option<Decision>,
    intent: Intent,
    requestType: RequestType,
    clarify: bool,                     // the compiler asked back
    requiresRetrieval: bool,
    grounding: GroundingStatus,
    policy: Option<PolicyDecision>,
    restored: bool,
    compilationResumed: bool)

  /** A request that is still being put together over several turns. */
  datatype Work = Work(
    active: bool,
    decision: Option<Decision>,
    arguments: Arguments,
    entities: Arguments,
    previousIntent: Option<Intent>,
    missing: seq<Field>,
    interruptionPending: bool,
    interruption: Interruption,
    resumption: Resumption)

  datatype Progress = Progress(
    confirmation: Confirmation,
    error: Option<ErrorCategory>,
    security: bool,
    replayDetected: bool,
    execution: Execution)

  /** The agent's state, its flat fields grouped by what they are for. */
  datatype State = State(
    request: Request,
    owner: Option<Owner>,
    slots: Slots,
    plan: Plan,
    work: Work,
    progress: Progress)

  function Fail(s: State, e: ErrorCategory): State {
    s.(progress := s.progress.(error := Some(e)))
  }

  function FailExecution(s: State, e: ErrorCategory): State {
    s.(progress := s.progress.(error := Some(e), execution := ExecutionFailed))
  }

  // ----------------------------------------------------------------------- confirmation and policy

  /** `belongs_to_context`. */
  predicate BelongsTo(a: Action, c: Context) {
    && a.conversationId == c.conversationId && a.tenantId == c.tenantId && a.actorId == c.actorId
    && a.actorType == c.actorType && a.customerId == c.customerId
  }

  /** The confirmation window closes exactly at the time to live. */
  predicate IsExpired(a: Action, now: int, ttl: int) {
    now - a.createdAt >= ttl
  }

  /** `evaluate_default_policy`. */
  function EvaluateDefaultPolicy(tool: Tool, c: Context, arguments: Arguments): PolicyDecision {
    if tool.Unregistered? then PolicyDecision(Deny, -1, ["unknown_tool"], [])
    else if c.customerId <= 0 then
      PolicyDecision(Deny, Domain.RiskLevel(tool), ["known_customer_required"], ["authenticated_customer"])
    else if Lookup(arguments, CustomerId) !in {JNull, JInt(c.customerId)} then
      PolicyDecision(Deny, Domain.RiskLevel(tool), ["ownership_required"], ["customer_ownership"])
    else if Domain.RiskLevel(tool) <= 1 then
      PolicyDecision(Allow, Domain.RiskLevel(tool), ["risk_policy_allows_automatic_execution"], [])
    else if Domain.RiskLevel(tool) == 2 then
      PolicyDecision(RequireConfirmation, 2, ["customer_impacting_write"],
                     ["explicit_confirmation", "pre_execution_revalidation"])
    else PolicyDecision(RequireHuman, Domain.RiskLevel(tool), ["human_controlled_action"], ["dedicated_human_path"])
  }

  // ------------------------------------------------------------------------ start of a turn

  /** `_load_context`: bind or check the conversation's owner, and reset what belongs to one turn.
      The pending action, the suspended workflow and the action id are kept. */
  function LoadContext(s: State): State {
    var owner := Owner(s.request.context.customerId, s.request.context.tenantId, s.request.context.actorId, s.request.context.actorType);
    if s.request.conversationId != s.request.context.conversationId || (s.owner.Some? && s.owner.value != owner) then
      s.(
        plan := s.plan.(intent := UnknownIntent, requestType := Unclear, tool := None),
        progress := s.progress.(error := Some(OwnershipViolation)))
    else
      s.(
        owner := Some(owner),
        progress := s.progress.(error := None, confirmation := Unset, execution := NotExecuted,
          replayDetected := false),
        plan := s.plan.(tool := None, arguments := map[], semantic := None, clarify := false,
          grounding := NotApplicable, requiresRetrieval := false, policy := None, restored := false,
          compilationResumed := false),
        work := s.work.(interruptionPending := false, interruption := NoInterruption))
  }

  /** The security boundary: an override attempt rejects a waiting action and drops the suspended
      workflow; a request for another customer's data drops the pending action. */
  function SecurityBoundary(s: State): State {
    match s.request.message.signal
    case NoSignal => s.(progress := s.progress.(security := false))
    case OverrideAttempt =>
      var pending := match s.slots.pending
        case Some(a) => Some(if a.status == Waiting then a.(status := Rejected) else a)
        case None => None;
      s.(
        plan := s.plan.(intent := UnknownIntent, requestType := Unclear, tool := None, arguments := map[]),
        slots := s.slots.(pending := pending, suspended := None),
        work := s.work.(decision := None, missing := [], active := false, interruptionPending := false,
          interruption := SecurityBlocked),
        progress := s.progress.(confirmation := if pending.Some? then RejectedReply else Blocked, security := true,
          error := Some(PolicyDenied)))
    case CrossCustomer =>
      s.(
        plan := s.plan.(intent := UnknownIntent, requestType := Unclear, tool := None, arguments := map[]),
        slots := s.slots.(pending := None),
        progress := s.progress.(security := true, error := Some(OwnershipViolation), confirmation := Blocked),
        work := s.work.(active := false))
  }

  /** `_check_pending`: only a waiting, unexpired action of this very context can be confirmed. */
  function CheckPending(s: State, now: int, ttl: int): State {
    match s.slots.pending
    case None =>
      if s.request.message.resume then
        s.(progress := s.progress.(confirmation := if s.slots.suspended == None then ResumeUnavailable else ResumeSuspended))
      else s.(progress := s.progress.(confirmation := if s.request.message.parsed != SaysOther then NoPending else Normal))
    case Some(a) =>
      if !BelongsTo(a, s.request.context) then Fail(s.(progress := s.progress.(confirmation := OwnershipError)), OwnershipViolation)
      else if a.status == Waiting then
        if IsExpired(a, now, ttl) then
          s.(
            slots := s.slots.(pending := Some(a.(status := Expired))),
            progress := s.progress.(confirmation := ExpiredReply))
        else if s.request.message.parsed == SaysYes then
          s.(
            slots := s.slots.(pending := Some(a.(status := Confirmed))),
            progress := s.progress.(confirmation := ConfirmedReply))
        else if s.request.message.parsed == SaysNo then
          s.(
            slots := s.slots.(pending := Some(a.(status := Rejected))),
            progress := s.progress.(confirmation := RejectedReply))
        else if s.request.message.interruption then
          s.(
            progress := s.progress.(confirmation := InspectInterruption),
            work := s.work.(interruptionPending := true))
        else s.(progress := s.progress.(confirmation := Ambiguous))
      else if s.request.message.parsed == SaysYes then
        s.(progress := s.progress.(confirmation := NoPending, replayDetected := s.progress.replayDetected || a.status == Executed))
      else
        s.(
          progress := s.progress.(confirmation := Normal),
          slots := s.slots.(pending := None))
  }

  // ------------------------------------------------------------------------------ restoring

  function TextOf(v: Value): string {
    if v.JStr? then v.s else ""
  }

  function IntOf(v: Value): int {
    if v.JInt? then v.n else 0
  }

  /** `restore_pending_decision`: the tool decides the intent. */
  function RestoredDecision(a: Action, arguments: Arguments): Decision {
    var intent :=
      match a.tool
      case CancelOrder => OrderCancel
      case RequestRefund => Intent.RefundRequest
      case CreateSupportTicket => TicketCreate
      case EscalateToHuman => HumanEscalation
      case _ => a.intent;
    var order, ticket := IntOf(Lookup(arguments, OrderId)), IntOf(Lookup(arguments, TicketId));
    var target :=
      if order > 0 then Some(ExplicitOrder(order))
      else if ticket > 0 then Some(ExplicitTicket(ticket)) else None;
    Decision(intent, WriteAction, target, TextOf(Lookup(arguments, Reason)), TextOf(Lookup(arguments, Category)),
             TextOf(Lookup(arguments, Description)), TextOf(Lookup(arguments, PriorityField)),
             TextOf(Lookup(arguments, Summary)), false, "", false, "", false)
  }

  /** `restore_pending`. */
  function RestorePending(s: State): State {
    if s.slots.pending == None || s.slots.pending.value.status != Confirmed then
      Fail(s.(plan := s.plan.(restored := false, compilationResumed := false)), PolicyDenied)
    else
      var a := s.slots.pending.value;
      var arguments := RestoreArguments(a.inputs.arguments, a.entities);
      var d := RestoredDecision(a, arguments);
      s.(
        plan := s.plan.(semantic := Some(d), intent := d.intent, requestType := d.requestType, tool := Some(a.tool),
          arguments := arguments, grounding := a.grounding, restored := true, compilationResumed := true),
        work := s.work.(entities := a.entities),
        progress := s.progress.(error := None))
  }

  /** `restore_suspended_workflow`: the suspended action comes back as it was, waiting. */
  function RestoreSuspended(s: State): State {
    match s.slots.suspended
    case None => s.(work := s.work.(interruption := NothingToResume, resumption := ResetWork))
    case Some(w) =>
      match w.action
      case Some(a) =>
        if !BelongsTo(a, s.request.context) then s.(work := s.work.(interruption := ResumeDenied, resumption := ResetWork))
        else
          s.(
            plan := s.plan.(intent := w.intent, arguments := w.arguments, tool := Some(a.tool),
              grounding := a.grounding),
            work := s.work.(entities := w.entities, interruptionPending := false, interruption := ResumedWork,
              resumption := ResumedAll, decision := None, missing := [], active := false),
            slots := s.slots.(suspended := None, pending := Some(a), actionId := Some(a.id)),
            progress := s.progress.(error := None, confirmation := Resumed))
      case None =>
        s.(
          plan := s.plan.(intent := w.intent, arguments := w.arguments, tool := None),
          work := s.work.(entities := w.entities, interruptionPending := false, interruption := ResumedWork,
            resumption := ResumedAll, decision := w.decision, missing := w.missing, active := true),
          slots := s.slots.(suspended := None, pending := None),
          progress := s.progress.(error := None, confirmation := Unset))
  }

  function Without(fields: seq<Field>, f: Field): seq<Field> {
    if fields == [] then [] else if fields[0] == f then fields[1..] else [fields[0]] + Without(fields[1..], f)
  }

  function InterruptionOrWait(s: State): State {
    if s.request.message.interruption then s.(work := s.work.(resumption := InspectReply, interruptionPending := true))
    else s.(work := s.work.(resumption := WaitingForFields, interruptionPending := false))
  }

  function PartialResume(s: State, d: Decision, entities: Arguments, missing: seq<Field>): State {
    s.(
      plan := s.plan.(semantic := Some(d)),
      work := s.work.(decision := Some(d), previousIntent := Some(d.intent), entities := entities,
        missing := missing, active := true, resumption := WaitingForFields, interruptionPending := false))
  }

  /** `resume_workflow`: the reply fills the missing order number, or the missing reason. */
  function ResumeWorkflow(s: State): State {
    if !s.work.active || s.work.decision == None || s.work.missing == [] then
      s.(work := s.work.(previousIntent := None, decision := None, missing := [], entities := map[], active := false, resumption := ResetWork))
    else
      var d := s.work.decision.value;
      if OrderId in s.work.missing && s.request.message.replyOrder == None then InterruptionOrWait(s)
      else
        var order := OrderId in s.work.missing;
        var d1 := if order then d.(target := Some(ExplicitOrder(s.request.message.replyOrder.value))) else d;
        var entities1 := if order then s.work.entities[OrderId := JInt(s.request.message.replyOrder.value)] else s.work.entities;
        var left1 := if order then Without(s.work.missing, OrderId) else s.work.missing;
        if Reason in left1 && (s.request.message.text == "" || s.request.message.replyOrder.Some?) then
          if s.request.message.interruption then InterruptionOrWait(s) else PartialResume(s, d1, entities1, left1)
        else
          var reason := Reason in left1;
          var d2 := if reason then d1.(reason := s.request.message.text) else d1;
          var entities2 := if reason then entities1[Reason := JStr(s.request.message.text)] else entities1;
          var left2 := if reason then Without(left1, Reason) else left1;
          if left2 != [] then PartialResume(s, d2, entities2, left2)
          else
            s.(
              plan := s.plan.(semantic := Some(d2)),
              work := s.work.(previousIntent := Some(d2.intent), entities := entities2, missing := [],
                active := false, resumption := ResumedAll, interruptionPending := false))
  }

  // -------------------------------------------------------------------------- understanding

  datatype Contract = DirectContract | SemanticContract

  /** What the provider answered, if the retry loop got an answer. */
  datatype Proposal =
    | NoAnswer
    | SemanticProposal(decision: Decision)
    | DirectProposal(intent: Intent, requestType: RequestType, tool: Option<Tool>, arguments: Arguments, requiresRetrieval: bool)

  /** A decision with only an intent, a type and a target. */
  function BareDecision(intent: Intent, requestType: RequestType, target: Option<Target>): Decision {
    Decision(intent, requestType, target, "", "", "", "", "", false, "", false, "", false)
  }

  /** `explicit_replacement_intent`. */
  function Replacement(s: State): Option<Intent> {
    if s.slots.pending == None then None
    else if s.slots.pending.value.intent == OrderCancel && s.request.message.insteadRefund then Some(Intent.RefundRequest)
    else if s.slots.pending.value.intent == Intent.RefundRequest && s.request.message.insteadCancel then Some(OrderCancel)
    else None
  }

  function Understood(s: State, d: Decision): State {
    s.(
      plan := s.plan.(semantic := Some(d), intent := d.intent, requestType := d.requestType, tool := None,
        arguments := map[], requiresRetrieval := false),
      progress := s.progress.(error := None, security := false))
  }

  /** `understand_request`. */
  function UnderstandRequest(s: State, contract: Contract, p: Proposal): State {
    if Replacement(s).Some? then
      var order := IntOf(Lookup(s.slots.pending.value.arguments, OrderId));
      Understood(s, BareDecision(Replacement(s).value, WriteAction, if order > 0 then Some(ExplicitOrder(order)) else None)
                      .(reason := "explicit_workflow_replacement"))
    else if s.request.message.memorySummary then Understood(s, BareDecision(SupportFaq, KnowledgeOnly, None))
    else if s.request.message.conflicting then
      Understood(s, BareDecision(UnknownIntent, Unclear, None).(clarificationRequired := true))
    else if p.SemanticProposal? && contract == SemanticContract then
      s.(
        plan := s.plan.(semantic := Some(p.decision)),
        progress := s.progress.(error := None))
    else if p.DirectProposal? && contract == DirectContract then
      s.(
        plan := s.plan.(intent := p.intent, requestType := p.requestType, tool := p.tool, arguments := p.arguments,
          requiresRetrieval := p.requiresRetrieval),
        progress := s.progress.(error := None, security := false))
    else Fail(
      s.(
        plan := s.plan.(intent := UnknownIntent, requestType := Unclear),
        progress := s.progress.(security := false)), LlmError)
  }

  function WorkflowIntent(s: State): Option<Intent> {
    if s.slots.pending.Some? && s.slots.pending.value.status == Waiting then Some(s.slots.pending.value.intent)
    else if s.work.decision.Some? then Some(s.work.decision.value.intent)
    else s.work.previousIntent
  }

  function CurrentIntent(s: State): Intent {
    if s.plan.semantic.Some? then s.plan.semantic.value.intent else s.plan.intent
  }

  predicate Supersedes(d: Decision) {
    && d.intent !in {RefundPolicy, CancellationPolicy, ShippingPolicy, SupportFaq, RefundEligibility,
                     CancellationExplanation, CapabilityQuestion}
    && d.requestType in {WriteAction, ActionOnly, KnowledgeAndAction, EscalationRequest}
  }

  /** `_capture_workflow`. */
  function CaptureWorkflow(s: State, intent: Intent): Snapshot {
    match s.slots.pending
    case Some(a) => Snapshot(intent, Some(a), None, a.entities, a.arguments, [])
    case None => Snapshot(intent, None, s.work.decision, s.work.entities, s.work.arguments, s.work.missing)
  }

  /** `handle_workflow_interruption`: the pending slot and the action id are freed; the work is kept
      aside, or dropped when the new request replaces it. */
  function HandleInterruption(s: State): State {
    var previous, current := WorkflowIntent(s), CurrentIntent(s);
    if previous == None || current == UnknownIntent || previous == Some(current) then
      s.(
        plan := s.plan.(intent := if previous.Some? then previous.value else UnknownIntent, semantic := None,
          tool := None, arguments := map[]),
        progress := s.progress.(confirmation := if s.slots.pending.Some? then Ambiguous else Unset),
        work := s.work.(interruptionPending := false, interruption := Continued))
    else
      var superseded := s.plan.semantic.Some? && Supersedes(s.plan.semantic.value);
      s.(
        slots := s.slots.(pending := None, actionId := None,
          suspended := if superseded then None else Some(CaptureWorkflow(s, previous.value))),
        work := s.work.(decision := None, missing := [], entities := map[], active := false,
          interruptionPending := false, interruption := if superseded then Superseded else Suspended),
        progress := s.progress.(confirmation := Interrupted))
  }

  // ------------------------------------------------------------------------ compiling a decision

  /** `_collected_entities`. */
  function CollectedEntities(d: Decision): Arguments {
    (match d.target
     case Some(ExplicitOrder(id)) => map[OrderId := JInt(id)]
     case Some(ExplicitTicket(id)) => map[TicketId := JInt(id)]
     case _ => map[])
    + (if d.reason != "" then map[Reason := JStr(d.reason)] else map[])
  }

  /** `compile_decision`. A restored action keeps its recorded grounding; any other target must be
      found in the user's own words. */
  function CompileDecision(s: State, latest: Option<int>, lex: Lexicon): State {
    match s.plan.semantic
    case None => s
    case Some(d) =>
      var g := if s.plan.restored then s.plan.grounding else Ground(d.target, s.request.text);
      var r := Compile(d, s.request.context, g, s.request.text, s.plan.restored && s.plan.grounding == NotApplicable, latest, lex);
      var s1 :=
        s.(
          plan := s.plan.(intent := r.intent, requestType := r.requestType, tool := r.tool, arguments := r.arguments,
            grounding := g, clarify := r.status == ClarificationRequired),
          work := s.work.(previousIntent := Some(d.intent), entities := CollectedEntities(d),
            resumption := NoResumption));
      if r.status == CompileRejected then
        Fail(s1.(work := s1.work.(decision := None, missing := [], active := false)), InvalidArguments)
      else
        s1.(
          plan := s1.plan.(requiresRetrieval := r.requiresRetrieval),
          work := s1.work.(decision := if r.status == ClarificationRequired then Some(d) else None,
            missing := r.missing, active := r.status == ClarificationRequired && r.missing != [],
            arguments := r.arguments),
          progress := s1.progress.(error := None))
  }

  /** `select_tool`. */
  function SelectTool(s: State): State {
    if s.progress.error.Some? then s
    else if s.plan.requestType in {Informational, Unclear, KnowledgeOnly} || s.plan.intent in {MemoryRemember, MemoryForget} then
      s.(plan := s.plan.(tool := None, arguments := map[]))
    else if s.plan.tool == None then Fail(s, InvalidArguments)
    else s
  }

  /** `validate_tool`: the customer is always the authenticated one. */
  function ValidateTool(s: State): State {
    if s.plan.tool == None || s.progress.error.Some? then s
    else
      var tool := s.plan.tool.value;
      if tool.Unregistered? then Fail(s, UnknownTool)
      else if Lookup(s.plan.arguments, CustomerId) !in {JNull, JInt(s.request.context.customerId)} then Fail(s, OwnershipViolation)
      else match Normalise(tool, s.plan.arguments[CustomerId := JInt(s.request.context.customerId)])
        case None => Fail(s, InvalidArguments)
        case Some(normalised) => s.(plan := s.plan.(arguments := normalised))
  }

  /** `evaluate_policy`: an action id that is already there is used again. */
  function EvaluatePolicy(s: State, newId: string, fails: bool): State {
    if s.plan.tool == None || fails then Fail(s, PolicyDenied)
    else
      var d := EvaluateDefaultPolicy(s.plan.tool.value, s.request.context, s.plan.arguments);
      var s1 :=
        s.(
          plan := s.plan.(policy := Some(d)),
          slots := s.slots.(actionId := Some(if s.slots.actionId.Some? then s.slots.actionId.value else newId)));
      if d.outcome == Deny then Fail(s1, PolicyDenied) else s1
  }

  // ---------------------------------------------------------------------------- the pending action

  const CAPTURED_ENTITIES := [OrderId, TicketId, Reason, Category, Description]

  /** The entities kept with the action: those collected, filled up from the arguments. */
  function CapturedEntities(arguments: Arguments, collected: Arguments): Arguments {
    (map k | k in CAPTURED_ENTITIES && Lookup(arguments, k) != JNull && !Lookup(arguments, k).JArr? && !Lookup(arguments, k).JObj?
           :: Lookup(arguments, k)) + collected
  }

  function NewAction(s: State, serial: nat, now: int): Action
    requires s.plan.policy.Some? && s.plan.tool.Some? && s.slots.actionId.Some?
  {
    var c, d, tool := s.request.context, s.plan.policy.value, s.plan.tool.value;
    Action(serial, s.slots.actionId.value, c.conversationId, c.tenantId, c.customerId, c.actorId, c.actorType, tool, s.plan.arguments,
           s.plan.intent, CapturedEntities(s.plan.arguments, s.work.entities), s.plan.grounding,
           Captured(tool, s.plan.arguments, c, "require_confirmation", d.riskLevel, d.reasons, d.conditions), now, Waiting)
  }

  predicate CreatesPending(s: State) {
    s.plan.policy.Some? && s.plan.tool.Some? && s.plan.policy.value.outcome == RequireConfirmation
  }

  /** `create_pending`. */
  function CreatePending(s: State, serial: nat, newId: string, now: int): State {
    if !CreatesPending(s) then s
    else
      var s1 := s.(slots := s.slots.(actionId := Some(if s.slots.actionId.Some? then s.slots.actionId.value else newId)));
      s1.(
        slots := s1.slots.(pending := Some(NewAction(s1, serial, now))),
        progress := s1.progress.(execution := AwaitingConfirmation))
  }

  function ToolErrorCategory(e: DB.ToolError): ErrorCategory {
    match e
    case NotFound => NotFoundError
    case Ownership => OwnershipViolation
    case InvalidState => InvalidStateError
    case Duplicate => DuplicateError
  }

  function RequestOf(tool: Tool, c: Context, key: string, arguments: Arguments): DB.Request {
    DB.Request(tool, c.tenantId, c.actorId, key,
               DB.Payload(IntOf(Lookup(arguments, CustomerId)), IntOf(Lookup(arguments, OrderId)), TextOf(Lookup(arguments, Reason))))
  }

  function FailAction(s: State, e: ErrorCategory): State {
    Fail(s.(slots := s.slots.(pending := if s.slots.pending.Some? then Some(s.slots.pending.value.(status := Failed)) else None)), e)
  }

  /** The checks of `_revalidate_action`, in order; None when all pass, with the arguments to run. */
  ghost function RevalidationError(a: Action, c: Context, db: DB.Db): Option<ErrorCategory> {
    if !BelongsTo(a, c) then Some(OwnershipViolation)
    else if a.tool.Unregistered? then Some(UnknownTool)
    else match Normalise(a.tool, RestoreArguments(a.inputs.arguments, a.entities))
      case None => Some(InvalidArguments)
      case Some(arguments) =>
        if !NoDrift(FieldText, PolicyTree(a.inputs), PolicyTree(PendingPayload.Restored(a.inputs, a.tool, c, arguments))) then
          Some(PolicyDenied)
        else if Lookup(arguments, CustomerId) != JInt(c.customerId) then Some(OwnershipViolation)
        else if EvaluateDefaultPolicy(a.tool, c, arguments).outcome !in {Allow, RequireConfirmation} then Some(PolicyDenied)
        else
          var q := RequestOf(a.tool, c, a.id, arguments);
          var e := if a.tool == CancelOrder then DB.ValidateCancel(db, q)
                   else if a.tool == Tool.RequestRefund then DB.ValidateRefund(db, q) else None;
          if e.Some? then Some(ToolErrorCategory(e.value))
          else if a.tool !in {CancelOrder, Tool.RequestRefund} then Some(PolicyDenied)
          else None
  }

  /** `revalidate`: what runs is what was captured, validated again. */
  ghost function Revalidate(s: State, db: DB.Db): State {
    if s.slots.pending == None || s.slots.pending.value.status != Confirmed then FailAction(s, PolicyDenied)
    else
      var a := s.slots.pending.value;
      match RevalidationError(a, s.request.context, db)
      case Some(e) => FailAction(s, e)
      case None =>
        s.(
          plan := s.plan.(tool := Some(a.tool), intent := a.intent, grounding := a.grounding,
            arguments := Normalise(a.tool, RestoreArguments(a.inputs.arguments, a.entities)).value),
          progress := s.progress.(error := None))
  }

  // ---------------------------------------------------------------------------------- execution

  /** How far an execution gets. */
  datatype Reach =
    | AuditRefuses    // recording the attempt fails, which stops the node
    | NotCalled       // an open circuit or a full bulkhead
    | Breaks          // the tool fails unexpectedly and is rolled back
    | Runs

  /** What the environment decides about one execution. */
  datatype Fate = Fate(reach: Reach, commit: Sessions.CommitFate, auditFails: bool)

  datatype Call = Call(tool: Tool, arguments: Arguments, context: Context, key: string)

  /** What one execution node did: the state it returned, None when it raised, the database, the
      write call it made, and whether rows changed. */
  datatype ToolRun = ToolRun(state: Option<State>, db: DB.Db, call: Option<Call>, wrote: bool)

  function Stop(s: State, db: DB.Db, e: ErrorCategory): ToolRun {
    ToolRun(Some(FailExecution(s, e)), db, None, false)
  }

  /** One call of a tool and its commit; of the write tools, the two that need a confirmation change
      rows this model keeps. */
  ghost function Attempt(call: Call, db: DB.Db, fate: Fate): (DB.Db, Option<ErrorCategory>) {
    if fate.reach == Breaks then (db, Some(ToolFailure))
    else if OperationOf(call.tool) == Read then (db, None)
    else
      var (db1, out) := if call.tool in {CancelOrder, Tool.RequestRefund}
        then DB.Execute(db, RequestOf(call.tool, call.context, call.key, call.arguments)) else (db, DB.Unchanged(0));
      if out.Refused? then (db, Some(ToolErrorCategory(out.error)))
      else match fate.commit
        case Confirmed => (db1, None)
        case LostAfter => (db1, Some(UnknownWriteOutcome))
        case LostBefore => (db, Some(UnknownWriteOutcome))
        case RefusedByDatabase => (db, Some(ToolFailure))
  }

  /** `execute_tool`. */
  ghost function ExecuteTool(s: State, db: DB.Db, fate: Fate): ToolRun {
    if s.plan.tool == None then Stop(s, db, InvalidArguments)
    else
      var tool := s.plan.tool.value;
      if tool.Unregistered? then Stop(s, db, UnknownTool)
      else match Normalise(tool, s.plan.arguments)
        case None => ToolRun(None, db, None, false)
        case Some(arguments) =>
          if Lookup(arguments, CustomerId) != JInt(s.request.context.customerId) then Stop(s, db, OwnershipViolation)
          else if OperationOf(tool) == Write && s.slots.actionId == None then Stop(s, db, PolicyDenied)
          else if OperationOf(tool) == Write && fate.reach == AuditRefuses then ToolRun(None, db, None, false)
          else if fate.reach == NotCalled || fate.reach == AuditRefuses then
            (var stopped := Stop(s, db, ToolFailure);
             if fate.auditFails && OperationOf(tool) == Write then stopped.(state := None) else stopped)
          else
            var call := Call(tool, arguments, s.request.context, if s.slots.actionId.Some? then s.slots.actionId.value else "");
            var (db1, error) := Attempt(call, db, fate);
            var s1 := match error
              case Some(e) => FailExecution(s, e)
              case None => s.(progress := s.progress.(execution := ExecutedOk, error := None));
            ToolRun(if fate.auditFails && OperationOf(tool) == Write then None else Some(s1), db1, Some(call),
                       db1.orders != db.orders || db1.refunds != db.refunds)
  }

  /** `execute_confirmed`, which both execution nodes run: the action ends executed or failed, unless
      the node raised, which leaves it as it was. */
  ghost function ExecuteConfirmed(s: State, db: DB.Db, fate: Fate): ToolRun {
    var r := ExecuteTool(s, db, fate);
    if r.state.Some? && s.slots.pending.Some? then
      r.(state := Some(r.state.value.(slots := r.state.value.slots.(pending := Some(s.slots.pending.value.(
        status := if r.state.value.progress.execution == ExecutedOk then Executed else Failed))))))
    else r
  }

  /** `execute_human_escalation`. */
  ghost function ExecuteHuman(s: State, db: DB.Db, fate: Fate): ToolRun {
    if s.plan.tool != Some(EscalateToHuman) then Stop(s, db, PolicyDenied)
    else ExecuteTool(s, db, fate)
  }
}
