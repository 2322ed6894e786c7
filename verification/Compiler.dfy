/** From a proposed decision to a tool call: where a target may come from, which targets an intent
    may use, and what compiles (semantic_grounding.py, target_admissibility.py,
    decision_compiler.py). */
module Compiler {
  import opened Domain

  datatype Intent =
    | CustomerLookup | OrderLookup | OrderList | TicketLookup | TicketList
    | TicketCreate | OrderCancel | RefundRequest | HumanEscalation
    | CapabilityQuestion | RefundPolicy | CancellationPolicy | ShippingPolicy | SupportFaq
    | RefundEligibility | CancellationExplanation
    | MemoryRemember | MemoryForget | UnknownIntent

  datatype RequestType =
    | Informational | ReadAction | WriteAction | EscalationRequest | Unclear
    | KnowledgeOnly | ActionOnly | KnowledgeAndAction | MemoryAction

  datatype Target = ExplicitOrder(orderId: int) | LatestOrder | ExplicitTicket(ticketId: int)

  /** The provider's proposal; the empty string stands for an absent text. */
  datatype Decision = Decision(
    intent: Intent,
    requestType: RequestType,
    target: Option<Target>,
    reason: string,
    category: string,
    description: string,
    priority: string,
    summary: string,
    requiresRetrieval: bool,
    knowledgeQuery: string,
    hasMemory: bool,
    memoryKey: string,
    clarificationRequired: bool)

  /** The phrase and word lists, as tests on a text; `generic` holds the words that give no reason. */
  datatype Lexicon = Lexicon(
    words: string -> set<string>,
    generic: set<string>,
    contradictoryCancel: string -> bool,
    inventedReason: string -> bool,
    ticketRequest: string -> bool,
    latestOrder: string -> bool)

  // ------------------------------------------------------------------------------------ grounding

  predicate IsDigit(c: char) { '0' <= c <= '9' }

  /** The characters that must not touch an id: letters, digits, underscore and hyphen. */
  predicate IsIdChar(c: char) {
    IsDigit(c) || 'a' <= c <= 'z' || 'A' <= c <= 'Z' || c == '_' || c == '-'
  }

  /** `text[i..j]` is a decimal integer that stands alone. */
  predicate StandsAlone(text: string, i: nat, j: nat) {
    && i < j <= |text|
    && text[i] != '0'
    && (forall k | i <= k < j :: IsDigit(text[k]))
    && (i == 0 || !IsIdChar(text[i - 1]))
    && (j == |text| || !IsIdChar(text[j]))
  }

  /** The end of the run of digits from `i` on. */
  function DigitsEnd(text: string, i: nat): (j: nat)
    requires i <= |text|
    ensures i <= j <= |text|
    ensures forall k | i <= k < j :: IsDigit(text[k])
    ensures j < |text| ==> !IsDigit(text[j])
    decreases |text| - i
  {
    if i < |text| && IsDigit(text[i]) then DigitsEnd(text, i + 1) else i
  }

  /** The regular expression's matches from `i` on, left to right and not overlapping. */
  function FindIds(text: string, i: nat): (ids: seq<string>)
    requires i <= |text|
    decreases |text| - i
  {
    if i == |text| then []
    else
      var j := DigitsEnd(text, i);
      if StandsAlone(text, i, j) then [text[i..j]] + FindIds(text, j) else FindIds(text, i + 1)
  }

  /** `_user_domain_ids`; `str(int(value))` changes nothing, as no match starts with a zero. */
  function UserDomainIds(text: string): set<string> {
    set id | id in FindIds(text, 0)
  }

  /** A standalone integer that starts inside the digits from `i` on is all of them. */
  lemma OneRun(text: string, i: nat, j: nat, k: nat, m: nat)
    requires i <= |text| && j == DigitsEnd(text, i) && StandsAlone(text, k, m) && i <= k
    ensures k < j || k == i ==> k == i && m == j
  {
    assert k > 0 ==> !IsDigit(text[k - 1]);
  }

  /** The scan finds exactly the integers that stand alone at or after `i`. */
  lemma {:induction false} FindIdsExact(text: string, i: nat, id: string)
    requires i <= |text|
    ensures id in FindIds(text, i) <==>
            exists k: nat, j: nat :: i <= k && StandsAlone(text, k, j) && id == text[k..j]
    decreases |text| - i
  {
    if i < |text| {
      var j := DigitsEnd(text, i);
      if StandsAlone(text, i, j) {
        FindIdsExact(text, j, id);
        forall k: nat, m: nat | i <= k && StandsAlone(text, k, m) && id == text[k..m]
          ensures id in FindIds(text, i)
        {
          OneRun(text, i, j, k, m);
        }
      } else {
        FindIdsExact(text, i + 1, id);
        forall k: nat, m: nat | i <= k && StandsAlone(text, k, m) && id == text[k..m]
          ensures i + 1 <= k
        {
          OneRun(text, i, j, k, m);
        }
      }
    }
  }

  /** An id is recognised exactly when it stands alone somewhere in the user's text. */
  lemma UserDomainIdsExact(text: string, id: string)
    ensures id in UserDomainIds(text) <==> exists i: nat, j: nat :: StandsAlone(text, i, j) && id == text[i..j]
  {
    FindIdsExact(text, 0, id);
  }

  function DigitText(d: nat): string
    requires d < 10
  {
    [(d as char) + '0']
  }

  /** `str(n)`. */
  function DecimalText(n: int): string {
    if n < 0 then "-" + NatText(-n) else NatText(n)
  }

  function NatText(n: nat): string {
    if n < 10 then DigitText(n) else NatText(n / 10) + DigitText(n % 10)
  }

  datatype GroundingStatus = Grounded | Symbolic | Ungrounded | NotApplicable | Invalid

  /** `validate_semantic_grounding`. */
  function Ground(target: Option<Target>, text: string): GroundingStatus {
    match target
    case None => NotApplicable
    case Some(LatestOrder) => Symbolic
    case Some(ExplicitOrder(id)) => if DecimalText(id) in UserDomainIds(text) then Grounded else Ungrounded
    case Some(ExplicitTicket(id)) => if DecimalText(id) in UserDomainIds(text) then Grounded else Ungrounded
  }

  // -------------------------------------------------------------------------------- admissibility

  datatype Admissibility = Admissible | AdmissibleSymbolicRead | RequiresClarification | Inadmissible

  predicate Destructive(intent: Intent) {
    intent in {OrderCancel, RefundRequest}
  }

  /** `assess_target_admissibility`. */
  function Assess(intent: Intent, target: Option<Target>, grounding: GroundingStatus): Admissibility {
    match target
    case None => if Destructive(intent) then RequiresClarification else Admissible
    case Some(LatestOrder) => if Destructive(intent) then RequiresClarification else AdmissibleSymbolicRead
    case Some(_) => if grounding in {Ungrounded, Invalid} then RequiresClarification else Admissible
  }

  // ------------------------------------------------------------------------------------- compiling

  datatype CompileStatus = CompiledAction | ClarificationRequired | NoAction | CompileRejected

  /** Why the compiler asks back. */
  datatype Question =
    | NeedsTarget | ContradictoryCancel | NeedsOrder | NeedsReason | UnsupportedReason
    | NeedsTicketDetails | NeedsTicketRequest | UnresolvedOrder | NeedsEscalationDetails
    | LatestNotRequested | NeedsTicket | NeedsMemory | NeedsMemoryKey | KnowledgeUnclear | Unspecified

  datatype Compiled = Compiled(
    status: CompileStatus,
    intent: Intent,
    requestType: RequestType,
    tool: Option<Tool>,
    arguments: Arguments,
    requiresRetrieval: bool,
    missing: seq<Field>)

  /** `_missing_required_fields`. */
  function Missing(intent: Intent, q: Question): seq<Field> {
    if intent in {OrderCancel, RefundRequest, OrderLookup} && q in {NeedsTarget, NeedsOrder} then [OrderId]
    else if intent == RefundRequest && q in {NeedsReason, UnsupportedReason} then [Reason]
    else if intent == HumanEscalation && q == NeedsEscalationDetails then [Reason, PriorityField, Summary]
    else if intent == TicketCreate && q == NeedsTicketDetails then [Category, Description]
    else if intent == TicketLookup && q == NeedsTicket then [TicketId]
    else []
  }

  function Ask(d: Decision, q: Question): Compiled {
    Compiled(ClarificationRequired, d.intent, Unclear, None, map[], false, Missing(d.intent, q))
  }

  function Reject(d: Decision): Compiled {
    Compiled(CompileRejected, d.intent, Unclear, None, map[], false, [])
  }

  /** A compiled call: the customer always comes from the context. */
  function Act(d: Decision, c: Context, tool: Tool, arguments: Arguments): Compiled {
    Compiled(CompiledAction, d.intent,
             if OperationOf(tool) == Write then WriteAction else ReadAction,
             Some(tool), arguments[CustomerId := JInt(c.customerId)], false, [])
  }

  /** Every meaningful word of the reason is the user's, and there is at least one. */
  predicate ReasonSupported(lex: Lexicon, reason: string, text: string) {
    && !lex.inventedReason(text)
    && lex.words(reason) - lex.generic != {}
    && lex.words(reason) - lex.generic <= lex.words(text) - lex.generic
  }

  /** `_order_target`: an explicit order as given, the latest one as the database has it. */
  function OrderTarget(target: Option<Target>, latest: Option<int>): Option<int> {
    match target
    case Some(ExplicitOrder(id)) => Some(id)
    case Some(LatestOrder) => latest
    case _ => None
  }

  predicate IsTicketTarget(target: Option<Target>) {
    target.Some? && target.value.ExplicitTicket?
  }

  function OptionalInt(id: Option<int>): Value {
    if id.Some? then JInt(id.value) else JNull
  }

  function CompileOrderAction(d: Decision, c: Context, text: string, restored: bool, latest: Option<int>, lex: Lexicon): Compiled
  {
    if IsTicketTarget(d.target) then Reject(d)
    else match OrderTarget(d.target, latest)
      case None => Ask(d, NeedsOrder)
      case Some(id) =>
        if d.intent == OrderCancel then Act(d, c, CancelOrder, map[OrderId := JInt(id)])
        else if d.reason == "" then Ask(d, NeedsReason)
        else if !restored && !ReasonSupported(lex, d.reason, text) then Ask(d, UnsupportedReason)
        else Act(d, c, Tool.RequestRefund, map[OrderId := JInt(id), Reason := JStr(d.reason)])
  }

  function CompileTicket(d: Decision, c: Context, text: string, latest: Option<int>, lex: Lexicon): Compiled {
    if d.category == "" || d.description == "" then Ask(d, NeedsTicketDetails)
    else if text != "" && !lex.ticketRequest(text) then Ask(d, NeedsTicketRequest)
    else if IsTicketTarget(d.target) then Reject(d)
    else if d.target.Some? && OrderTarget(d.target, latest) == None then Ask(d, UnresolvedOrder)
    else Act(d, c, CreateSupportTicket,
             map[OrderId := OptionalInt(OrderTarget(d.target, latest)),
                 Category := JStr(d.category), Description := JStr(d.description)])
  }

  function CompileEscalation(d: Decision, c: Context, latest: Option<int>): Compiled {
    if d.reason == "" || d.priority == "" || d.summary == "" then Ask(d, NeedsEscalationDetails)
    else if !FieldAccepts(Priority, JStr(d.priority)) then Reject(d)
    else if d.target.Some? && !IsTicketTarget(d.target) && OrderTarget(d.target, latest) == None then
      Ask(d, UnresolvedOrder)
    else Act(d, c, EscalateToHuman,
             map[TicketId := if IsTicketTarget(d.target) then JInt(d.target.value.ticketId) else JNull,
                 OrderId := OptionalInt(OrderTarget(d.target, latest)),
                 Reason := JStr(d.reason), PriorityField := JStr(d.priority), Summary := JStr(d.summary)])
  }

  function CompileRead(d: Decision, c: Context, text: string, latest: Option<int>, lex: Lexicon): Compiled {
    match d.intent
    case CustomerLookup => if d.target.Some? then Reject(d) else Act(d, c, GetCustomer, map[])
    case OrderList => if d.target.Some? then Reject(d) else Act(d, c, GetCustomerOrders, map[])
    case TicketList => if d.target.Some? then Reject(d) else Act(d, c, GetCustomerTickets, map[])
    case OrderLookup =>
      if IsTicketTarget(d.target) then Reject(d)
      else if d.target == Some(LatestOrder) && !lex.latestOrder(text) then Ask(d, LatestNotRequested)
      else (match OrderTarget(d.target, latest)
            case None => Ask(d, NeedsOrder)
            case Some(id) => Act(d, c, GetOrder, map[OrderId := JInt(id)]))
    case _ =>
      if d.target == None then Ask(d, NeedsTicket)
      else if IsTicketTarget(d.target) then Act(d, c, GetTicket, map[TicketId := JInt(d.target.value.ticketId)])
      else Reject(d)
  }

  function CompileKnowledgeAndAction(d: Decision, c: Context, latest: Option<int>): Compiled {
    if IsTicketTarget(d.target) then Reject(d)
    else match OrderTarget(d.target, latest)
      case None => Ask(d, NeedsOrder)
      case Some(id) =>
        Compiled(CompiledAction, d.intent, KnowledgeAndAction, Some(GetOrder),
                 map[CustomerId := JInt(c.customerId), OrderId := JInt(id)], true, [])
  }

  predicate Knowledge(intent: Intent) {
    intent in {CapabilityQuestion, RefundPolicy, CancellationPolicy, ShippingPolicy, SupportFaq}
  }

  /** Knowledge and memory intents compile to no tool. */
  function CompileToolless(d: Decision): Compiled {
    if Knowledge(d.intent) then
      if d.clarificationRequired && d.knowledgeQuery == "" then Ask(d, KnowledgeUnclear)
      else Compiled(NoAction, d.intent, KnowledgeOnly, None, map[], d.requiresRetrieval, [])
    else if d.intent == MemoryRemember && !d.hasMemory then Ask(d, NeedsMemory)
    else if d.intent == MemoryForget && d.memoryKey == "" then Ask(d, NeedsMemoryKey)
    else if d.intent in {MemoryRemember, MemoryForget} then
      Compiled(NoAction, d.intent, MemoryAction, None, map[], false, [])
    else Ask(d, Unspecified)
  }

  /** `DecisionCompiler.compile`; `latest` is the resolver's answer for the latest order. */
  function Compile(d: Decision, c: Context, grounding: GroundingStatus, text: string, restored: bool,
                   latest: Option<int>, lex: Lexicon): Compiled
  {
    if Knowledge(d.intent) then CompileToolless(d)
    else if Assess(d.intent, d.target, grounding) in {RequiresClarification, Inadmissible} then Ask(d, NeedsTarget)
    else match d.intent
      case OrderCancel =>
        if lex.contradictoryCancel(text) then Ask(d, ContradictoryCancel)
        else CompileOrderAction(d, c, text, restored, latest, lex)
      case RefundRequest => CompileOrderAction(d, c, text, restored, latest, lex)
      case TicketCreate => CompileTicket(d, c, text, latest, lex)
      case HumanEscalation => CompileEscalation(d, c, latest)
      case CustomerLookup | OrderLookup | OrderList | TicketLookup | TicketList => CompileRead(d, c, text, latest, lex)
      case RefundEligibility | CancellationExplanation => CompileKnowledgeAndAction(d, c, latest)
      case _ => CompileToolless(d)
  }

  // ------------------------------------------------------------------------- no invented order

  /** The id is written out in the text, standing alone. */
  ghost predicate WrittenIn(id: int, text: string) {
    exists i: nat, j: nat :: StandsAlone(text, i, j) && text[i..j] == DecimalText(id)
  }

  /** What the user must have said for a destructive call with these arguments. */
  ghost predicate UserSaid(tool: Tool, arguments: Arguments, text: string, lex: Lexicon) {
    && Lookup(arguments, OrderId).JInt?
    && WrittenIn(Lookup(arguments, OrderId).n, text)
    && (tool == Tool.RequestRefund ==>
          Lookup(arguments, Reason).JStr? && ReasonSupported(lex, Lookup(arguments, Reason).s, text))
  }

  predicate DestructiveTool(tool: Option<Tool>) {
    tool == Some(CancelOrder) || tool == Some(Tool.RequestRefund)
  }

  predicate NotDestructive(r: Compiled) {
    && !DestructiveTool(r.tool)
    && (r.tool.Some? <==> r.status == CompiledAction)
    && (r.status in {ClarificationRequired, CompileRejected} ==> r.requestType == Unclear)
  }

  lemma TicketNotDestructive(d: Decision, c: Context, text: string, latest: Option<int>, lex: Lexicon)
    ensures NotDestructive(CompileTicket(d, c, text, latest, lex))
  {
  }

  lemma EscalationNotDestructive(d: Decision, c: Context, latest: Option<int>)
    ensures NotDestructive(CompileEscalation(d, c, latest))
  {
  }

  lemma ReadNotDestructive(d: Decision, c: Context, text: string, latest: Option<int>, lex: Lexicon)
    ensures NotDestructive(CompileRead(d, c, text, latest, lex))
  {
  }

  lemma KnowledgeNotDestructive(d: Decision, c: Context, latest: Option<int>)
    ensures NotDestructive(CompileKnowledgeAndAction(d, c, latest))
  {
  }

  lemma ToollessNotDestructive(d: Decision)
    ensures NotDestructive(CompileToolless(d))
  {
  }

  lemma AskNotDestructive(d: Decision, q: Question)
    ensures NotDestructive(Ask(d, q))
  {
  }

  /** Whatever the grounding and the restoration, only the intents to cancel and to refund compile to
      the destructive tools: reading and asking never authorise a write. */
  lemma OnlyDestructiveIntents(d: Decision, c: Context, g: GroundingStatus, text: string, restored: bool,
                               latest: Option<int>, lex: Lexicon)
    ensures !Destructive(d.intent) ==> NotDestructive(Compile(d, c, g, text, restored, latest, lex))
  {
    var r := Compile(d, c, g, text, restored, latest, lex);
    if !Destructive(d.intent) {
      assert r in {CompileToolless(d), Ask(d, NeedsTarget), CompileTicket(d, c, text, latest, lex), CompileEscalation(d, c, latest),
                   CompileRead(d, c, text, latest, lex), CompileKnowledgeAndAction(d, c, latest)};
      assert NotDestructive(r) by {
        NoRouteIsDestructive(d, c, text, latest, lex, r);
      }
    }
  }

  lemma NoRouteIsDestructive(d: Decision, c: Context, text: string, latest: Option<int>, lex: Lexicon, r: Compiled)
    requires r in {CompileToolless(d), Ask(d, NeedsTarget), CompileTicket(d, c, text, latest, lex), CompileEscalation(d, c, latest),
                   CompileRead(d, c, text, latest, lex), CompileKnowledgeAndAction(d, c, latest)}
    ensures NotDestructive(r)
  {
    if r == CompileToolless(d) {
      ToollessNotDestructive(d);
    } else if r == Ask(d, NeedsTarget) {
      AskNotDestructive(d, NeedsTarget);
    } else if r == CompileTicket(d, c, text, latest, lex) {
      TicketNotDestructive(d, c, text, latest, lex);
    } else if r == CompileEscalation(d, c, latest) {
      EscalationNotDestructive(d, c, latest);
    } else if r == CompileRead(d, c, text, latest, lex) {
      ReadNotDestructive(d, c, text, latest, lex);
    } else {
      KnowledgeNotDestructive(d, c, latest);
    }
  }

  /** When an order action compiles, and with which arguments. */
  lemma OrderActionExact(d: Decision, c: Context, text: string, restored: bool, latest: Option<int>, lex: Lexicon)
    requires Destructive(d.intent)
    ensures var r := CompileOrderAction(d, c, text, restored, latest, lex);
            var order := OrderTarget(d.target, latest);
            && (DestructiveTool(r.tool) <==>
                  order.Some? && (d.intent == OrderCancel || (d.reason != "" && (restored || ReasonSupported(lex, d.reason, text)))))
            && (DestructiveTool(r.tool) ==>
                  && r.tool == Some(if d.intent == OrderCancel then CancelOrder else Tool.RequestRefund)
                  && r.status == CompiledAction && r.arguments.Keys >= {CustomerId, OrderId}
                  && r.arguments[OrderId] == JInt(order.value) && r.arguments[CustomerId] == JInt(c.customerId)
                  && (d.intent == Intent.RefundRequest ==> Lookup(r.arguments, Reason) == JStr(d.reason)))
            && (!DestructiveTool(r.tool) ==> NotDestructive(r))
  {
  }

  /** A fresh decision compiles to a cancellation or a refund exactly when it names an explicit order
      whose number the user wrote, and, for a refund, gives a reason in the user's own words, or, for
      a cancellation, the user does not contradict it. Never for "the latest order". */
  lemma NoInventedOrder(d: Decision, c: Context, text: string, latest: Option<int>, lex: Lexicon)
    ensures var r := Compile(d, c, Ground(d.target, text), text, false, latest, lex);
            && (DestructiveTool(r.tool) <==>
                  && Destructive(d.intent) && d.target.Some? && d.target.value.ExplicitOrder?
                  && WrittenIn(d.target.value.orderId, text)
                  && (if d.intent == OrderCancel then !lex.contradictoryCancel(text)
                      else d.reason != "" && ReasonSupported(lex, d.reason, text)))
            && (DestructiveTool(r.tool) ==>
                  && r.tool == Some(if d.intent == OrderCancel then CancelOrder else Tool.RequestRefund)
                  && UserSaid(r.tool.value, r.arguments, text, lex)
                  && Lookup(r.arguments, OrderId) == JInt(d.target.value.orderId)
                  && Lookup(r.arguments, CustomerId) == JInt(c.customerId))
  {
    if Destructive(d.intent) {
      OrderActionExact(d, c, text, false, latest, lex);
      if d.target.Some? && d.target.value.ExplicitOrder? {
        UserDomainIdsExact(text, DecimalText(d.target.value.orderId));
      }
    } else {
      OnlyDestructiveIntents(d, c, Ground(d.target, text), text, false, latest, lex);
    }
  }
}
