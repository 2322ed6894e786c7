/** The values that pass between the parts of the agent: JSON trees, the trusted execution
    context, and the tool registry with its input models. */
module Domain {

  datatype Option<+T> = None | Some(value: T)

  /** A JSON value whose objects are keyed by `K`. Objects are unordered, as Python compares
      dictionaries. */
  datatype Json<K> =
    | JNull
    | JBool(b: bool)
    | JInt(n: int)
    | JStr(s: string)
    | JArr(items: seq<Json<K>>)
    | JObj(fields: map<K, Json<K>>)

  /** The keys the system writes; `FieldText` in PendingPayload gives their spelling. */
  datatype Field =
    | SchemaVersion | ToolNameField | ArgumentsField | ContextField | Outcome | RiskLevelField
    | Reasons | RequiredConditions
    | ConversationId | TenantId | EffectiveCustomerId | ActorId | ActorTypeField | PrincipalTypeField
    | Roles | Groups
    | CustomerId | OrderId | TicketId | Reason | Category | Description | PriorityField | Summary

  type Value = Json<Field>

  type Arguments = map<Field, Value>

  datatype ActorType = Customer | SupportOperator | Service

  datatype PrincipalType = LocalDemo | Static | Oidc | Internal

  function ActorTypeText(t: ActorType): string {
    match t
    case Customer => "customer"
    case SupportOperator => "support_operator"
    case Service => "service"
  }

  function PrincipalTypeText(t: PrincipalType): string {
    match t
    case LocalDemo => "local_demo"
    case Static => "static"
    case Oidc => "oidc"
    case Internal => "internal"
  }

  lemma ActorTypeTextInjective(a: ActorType, b: ActorType)
    ensures ActorTypeText(a) == ActorTypeText(b) <==> a == b
  {
    assert ActorTypeText(Customer)[1] == 'u' && ActorTypeText(SupportOperator)[2] == 'p' && ActorTypeText(Service)[1] == 'e';
    assert ActorTypeText(SupportOperator)[1] == 'u' && ActorTypeText(Customer)[2] == 's';
  }

  lemma PrincipalTypeTextInjective(a: PrincipalType, b: PrincipalType)
    ensures PrincipalTypeText(a) == PrincipalTypeText(b) <==> a == b
  {
    assert PrincipalTypeText(LocalDemo)[0] == 'l' && PrincipalTypeText(Static)[0] == 's';
    assert PrincipalTypeText(Oidc)[0] == 'o' && PrincipalTypeText(Internal)[0] == 'i';
  }

  /** The server-owned identity and scope of one request; the transport ids are left out. */
  datatype Context = Context(
    conversationId: string,
    tenantId: string,
    customerId: int,
    actorId: string,
    actorType: ActorType,
    principalType: PrincipalType,
    roles: seq<string>,
    groups: seq<string>)

  datatype Operation = Read | Write

  datatype Tool =
    | GetCustomer
    | GetCustomerOrders
    | GetOrder
    | GetCustomerTickets
    | GetTicket
    | CreateSupportTicket
    | CancelOrder
    | RequestRefund
    | EscalateToHuman
    | Unregistered(name: string)

  function ToolName(t: Tool): string {
    match t
    case GetCustomer => "get_customer"
    case GetCustomerOrders => "get_customer_orders"
    case GetOrder => "get_order"
    case GetCustomerTickets => "get_customer_tickets"
    case GetTicket => "get_ticket"
    case CreateSupportTicket => "create_support_ticket"
    case CancelOrder => "cancel_order"
    case RequestRefund => "request_refund"
    case EscalateToHuman => "escalate_to_human"
    case Unregistered(name) => name
  }

  function OperationOf(t: Tool): Operation {
    match t
    case CreateSupportTicket | CancelOrder | RequestRefund | EscalateToHuman => Write
    case _ => Read
  }

  /** The registry's risk level; -1 stands for a tool that is not registered. */
  function RiskLevel(t: Tool): int {
    match t
    case CreateSupportTicket => 1
    case CancelOrder | RequestRefund => 2
    case EscalateToHuman => 3
    case Unregistered(_) => -1
    case _ => 0
  }

  /** One declared field of a tool's input model. */
  datatype FieldSpec =
    | PositiveInt
    | OptionalPositiveInt
    | Text(max: nat)
    | Priority

  function InputModel(t: Tool): map<Field, FieldSpec> {
    match t
    case GetCustomer | GetCustomerOrders | GetCustomerTickets => map[CustomerId := PositiveInt]
    case GetOrder | CancelOrder => map[CustomerId := PositiveInt, OrderId := PositiveInt]
    case GetTicket => map[CustomerId := PositiveInt, TicketId := PositiveInt]
    case CreateSupportTicket => map[
      CustomerId := PositiveInt, OrderId := OptionalPositiveInt,
      Category := Text(100), Description := Text(5000)]
    case RequestRefund => map[
      CustomerId := PositiveInt, OrderId := PositiveInt, Reason := Text(2000)]
    case EscalateToHuman => map[
      CustomerId := PositiveInt, TicketId := OptionalPositiveInt,
      OrderId := OptionalPositiveInt, Reason := Text(2000),
      PriorityField := Priority, Summary := Text(5000)]
    case Unregistered(_) => map[]
  }

  function Lookup(arguments: Arguments, key: Field): Value {
    if key in arguments then arguments[key] else JNull
  }

  predicate FieldAccepts(spec: FieldSpec, value: Value) {
    match spec
    case PositiveInt => value.JInt? && value.n > 0
    case OptionalPositiveInt => value.JNull? || (value.JInt? && value.n > 0)
    case Text(max) => value.JStr? && 1 <= |value.s| <= max
    case Priority => value.JStr? && value.s in {"low", "medium", "high", "urgent"}
  }

  /** `input_model.model_validate(raw).model_dump(mode="json")`: a check of every declared field,
      then a projection onto exactly those fields; None is the validation error. */
  function Normalise(tool: Tool, raw: Arguments): (r: Option<Arguments>)
  {
    var model := InputModel(tool);
    if forall f | f in model :: FieldAccepts(model[f], Lookup(raw, f))
    then Some(map f | f in model :: Lookup(raw, f))
    else None
  }

  /** Validating what validation produced changes nothing, whatever extra keys are added: the later
      validations of one call's arguments cannot alter them, and no extra key reaches the tool. */
  lemma NormaliseIdempotent(tool: Tool, raw: Arguments, extra: Arguments)
    requires Normalise(tool, raw).Some?
    requires extra.Keys !! Normalise(tool, raw).value.Keys
    ensures Normalise(tool, raw).value.Keys == InputModel(tool).Keys
    ensures Normalise(tool, Normalise(tool, raw).value + extra) == Normalise(tool, raw)
    ensures Normalise(tool, Normalise(tool, raw).value) == Normalise(tool, raw)
  {
    var model := InputModel(tool);
    var out := Normalise(tool, raw).value;
    assert forall f | f in model :: Lookup(out + extra, f) == Lookup(raw, f);
    assert out == map f | f in model :: Lookup(out + extra, f);
    assert out == map f | f in model :: Lookup(out, f);
  }
}
