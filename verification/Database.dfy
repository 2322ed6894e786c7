/** The business rows the two confirmed tools write, with the uniqueness constraints the schema
    declares (entities.py) and the checks the tools make before writing (orders.py, refunds.py). */
module Database {
  import opened Domain

  datatype OrderStatus = Pending | Processing | Shipped | Delivered | Cancelled

  datatype Order = Order(tenantId: string, customerId: int, status: OrderStatus)

  datatype RefundStatus = Requested | Approved | Rejected | InProcess | Completed

  datatype Refund = Refund(tenantId: string, customerId: int, orderId: int, reason: string, status: RefundStatus)

  predicate Active(r: Refund) {
    r.status in {Requested, Approved, InProcess}
  }

  /** A write request as the tool receives it; `key` is the action id. */
  datatype Request = Request(
    tool: Tool,
    tenantId: string,
    actorId: string,
    key: string,
    payload: Payload)

  datatype Payload = Payload(customerId: int, orderId: int, reason: string)

  /** The columns of `uq_business_action_receipt_scope`. */
  datatype Scope = Scope(tenantId: string, actorId: string, tool: Tool, key: string)

  function ScopeOf(q: Request): Scope {
    Scope(q.tenantId, q.actorId, q.tool, q.key)
  }

  /** A receipt; the fingerprint is injective, so the payload itself stands for it, and it contains
      the customer. */
  datatype Receipt = Receipt(scope: Scope, payload: Payload, resultId: int)

  datatype Db = Db(
    orders: map<int, Order>,
    refunds: map<int, Refund>,
    receipts: map<int, Receipt>,
    nextRefund: int,
    nextReceipt: int)

  datatype ToolError = NotFound | Ownership | InvalidState | Duplicate

  // ------------------------------------------------------------------------ schema constraints

  ghost predicate UniqueReceipts(receipts: map<int, Receipt>) {
    forall i, j | i in receipts && j in receipts && receipts[i].scope == receipts[j].scope :: i == j
  }

  predicate SameActiveIndex(r: Refund, q: Refund) {
    Active(r) && Active(q) && r.tenantId == q.tenantId && r.orderId == q.orderId
  }

  /** The partial unique index `uq_refund_requests_active_order`. */
  ghost predicate UniqueActiveRefunds(refunds: map<int, Refund>) {
    forall i, j | i in refunds && j in refunds && SameActiveIndex(refunds[i], refunds[j]) :: i == j
  }

  predicate HasScope(db: Db, scope: Scope) {
    exists i :: i in db.receipts && db.receipts[i].scope == scope
  }

  predicate HasActiveRefund(db: Db, tenantId: string, orderId: int) {
    exists i :: i in db.refunds && Active(db.refunds[i]) &&
      db.refunds[i].tenantId == tenantId && db.refunds[i].orderId == orderId
  }

  /** The receipt of a scope; with unique receipts there is no choice. */
  ghost function ReceiptFor(db: Db, scope: Scope): Receipt
    requires HasScope(db, scope)
  {
    var i :| i in db.receipts && db.receipts[i].scope == scope; db.receipts[i]
  }

  /** Which receipt belongs to a refund row: same tenant and payload, and the row's id as result. */
  predicate Records(receipt: Receipt, id: int, r: Refund) {
    && receipt.scope.tool == RequestRefund
    && receipt.resultId == id
    && receipt.scope.tenantId == r.tenantId
    && receipt.payload == Payload(r.customerId, r.orderId, r.reason)
  }

  /** Refund rows and refund receipts correspond one to one. */
  ghost predicate Paired(db: Db) {
    && (forall i | i in db.refunds :: exists k :: k in db.receipts && Records(db.receipts[k], i, db.refunds[i]))
    && (forall k | k in db.receipts && db.receipts[k].scope.tool == RequestRefund ::
          db.receipts[k].resultId in db.refunds &&
          Records(db.receipts[k], db.receipts[k].resultId, db.refunds[db.receipts[k].resultId]))
    && (forall k, l | k in db.receipts && l in db.receipts
          && db.receipts[k].scope.tool == RequestRefund && db.receipts[l].scope.tool == RequestRefund
          && db.receipts[k].resultId == db.receipts[l].resultId :: k == l)
  }

  /** The order a cancellation receipt names is still there. */
  ghost predicate OrdersKept(db: Db) {
    forall k | k in db.receipts && db.receipts[k].scope.tool == CancelOrder ::
      LoadResult(db, CancelOrder, db.receipts[k].scope.tenantId, db.receipts[k].resultId) == None
  }

  ghost predicate FreshIds(db: Db) {
    && (forall i | i in db.refunds :: i < db.nextRefund)
    && (forall i | i in db.receipts :: i < db.nextReceipt)
  }

  ghost predicate Consistent(db: Db) {
    UniqueReceipts(db.receipts) && UniqueActiveRefunds(db.refunds) && Paired(db) && OrdersKept(db) && FreshIds(db)
  }

  // ------------------------------------------------------------------------ the tools' own checks

  /** `validate_cancel_order`. */
  function ValidateCancel(db: Db, q: Request): Option<ToolError> {
    var id := q.payload.orderId;
    if id !in db.orders || db.orders[id].tenantId != q.tenantId then Some(NotFound)
    else if db.orders[id].customerId != q.payload.customerId then Some(Ownership)
    else if db.orders[id].status !in {Pending, Processing, Cancelled} then Some(InvalidState)
    else None
  }

  /** `validate_refund_request`. */
  function ValidateRefund(db: Db, q: Request): Option<ToolError> {
    var id := q.payload.orderId;
    if id !in db.orders || db.orders[id].tenantId != q.tenantId then Some(NotFound)
    else if db.orders[id].customerId != q.payload.customerId then Some(Ownership)
    else if db.orders[id].status != Delivered then Some(InvalidState)
    else if HasActiveRefund(db, q.tenantId, id) then Some(Duplicate)
    else None
  }

  /** The row a replay reads back: the order or refund the receipt recorded. */
  function LoadResult(db: Db, tool: Tool, tenantId: string, id: int): Option<ToolError> {
    if tool == CancelOrder then
      if id in db.orders && db.orders[id].tenantId == tenantId then None else Some(NotFound)
    else
      if id in db.refunds && db.refunds[id].tenantId == tenantId then None else Some(NotFound)
  }

  /** Answering from a receipt that is already there. */
  function Replay(db: Db, q: Request, receipt: Receipt): (r: Outcome)
    ensures r.Replayed? || r.Refused?
  {
    if receipt.payload != q.payload then Refused(Duplicate)
    else match LoadResult(db, q.tool, q.tenantId, receipt.resultId)
      case Some(e) => Refused(e)
      case None => Replayed(receipt.resultId)
  }

  function NewRefund(q: Request): Refund {
    Refund(q.tenantId, q.payload.customerId, q.payload.orderId, q.payload.reason, Requested)
  }

  // ------------------------------------------------------------------- one write, run on its own

  datatype Outcome =
    | Written(resultId: int)     // the business rows changed
    | Unchanged(resultId: int)   // a receipt was added, the order was already cancelled
    | Replayed(resultId: int)    // the receipt was found: the prior result
    | Refused(error: ToolError)

  function AddReceipt(db: Db, q: Request, resultId: int): Db {
    db.(receipts := db.receipts[db.nextReceipt := Receipt(ScopeOf(q), q.payload, resultId)],
        nextReceipt := db.nextReceipt + 1)
  }

  /** `execute_idempotent` around the tool's own write, committed, when no other transaction runs
      beside it. */
  ghost function Execute(db: Db, q: Request): (Db, Outcome) {
    if HasScope(db, ScopeOf(q)) then
      (db, Replay(db, q, ReceiptFor(db, ScopeOf(q))))
    else if q.tool == CancelOrder then
      var id := q.payload.orderId;
      match ValidateCancel(db, q)
      case Some(e) => (db, Refused(e))
      case None =>
        if db.orders[id].status == Cancelled then (AddReceipt(db, q, id), Unchanged(id))
        else (AddReceipt(db.(orders := db.orders[id := db.orders[id].(status := Cancelled)]), q, id), Written(id))
    else
      match ValidateRefund(db, q)
      case Some(e) => (db, Refused(e))
      case None =>
        var id := db.nextRefund;
        (AddReceipt(db.(refunds := db.refunds[id := NewRefund(q)], nextRefund := id + 1), q, id), Written(id))
  }

  /** A write keeps every constraint, never removes or changes a receipt, and changes business rows
      only when no receipt of its scope existed; then the receipt is there from then on. */
  lemma ExecuteKeeps(db: Db, q: Request)
    requires Consistent(db) && q.tool in {CancelOrder, RequestRefund}
    ensures var (db', out) := Execute(db, q);
            && Consistent(db')
            && (forall k | k in db.receipts :: k in db'.receipts && db'.receipts[k] == db.receipts[k])
            && (out.Written? ==> !HasScope(db, ScopeOf(q)))
            && (!out.Written? ==> db'.orders == db.orders && db'.refunds == db.refunds)
            && (!out.Refused? ==> HasScope(db', ScopeOf(q)))
  {
    var (db', out) := Execute(db, q);
    if out.Written? || out.Unchanged? {
      assert db'.receipts[db.nextReceipt].scope == ScopeOf(q);
      if q.tool == RequestRefund {
        RefundKept(db, q, db.nextRefund, db.nextReceipt, db');
      } else {
        CancelKept(db, q, db.nextReceipt, db');
      }
    }
  }

  /** A refund row and its receipt, both under unused ids, neither in conflict with an index. */
  lemma RefundKept(db: Db, q: Request, id: int, k: int, db': Db)
    requires Consistent(db) && q.tool == RequestRefund
    requires !HasScope(db, ScopeOf(q)) && !HasActiveRefund(db, q.tenantId, q.payload.orderId)
    requires id !in db.refunds && k !in db.receipts
    requires db'.refunds == db.refunds[id := NewRefund(q)] && db'.orders == db.orders
    requires db'.receipts == db.receipts[k := Receipt(ScopeOf(q), q.payload, id)]
    ensures UniqueReceipts(db'.receipts) && UniqueActiveRefunds(db'.refunds) && Paired(db') && OrdersKept(db')
  {
    assert Records(db'.receipts[k], id, NewRefund(q));
    forall i | i in db'.refunds
      ensures exists l :: l in db'.receipts && Records(db'.receipts[l], i, db'.refunds[i])
    {
      if i == id {
        assert k in db'.receipts;
      } else {
        var l :| l in db.receipts && Records(db.receipts[l], i, db.refunds[i]);
        assert l in db'.receipts && Records(db'.receipts[l], i, db'.refunds[i]);
      }
    }
  }

  lemma CancelKept(db: Db, q: Request, k: int, db': Db)
    requires Consistent(db) && q.tool == CancelOrder
    requires !HasScope(db, ScopeOf(q)) && ValidateCancel(db, q) == None && k !in db.receipts
    requires db'.refunds == db.refunds
    requires db'.receipts == db.receipts[k := Receipt(ScopeOf(q), q.payload, q.payload.orderId)]
    requires forall i | i in db.orders :: i in db'.orders && db'.orders[i].tenantId == db.orders[i].tenantId
    ensures UniqueReceipts(db'.receipts) && UniqueActiveRefunds(db'.refunds) && Paired(db') && OrdersKept(db')
  {
    forall i | i in db'.refunds
      ensures exists l :: l in db'.receipts && Records(db'.receipts[l], i, db'.refunds[i])
    {
      var l :| l in db.receipts && Records(db.receipts[l], i, db.refunds[i]);
      assert l in db'.receipts && Records(db'.receipts[l], i, db'.refunds[i]);
    }
  }

  /** A retry of the same request, at any later time and whatever other writes ran in between,
      changes no row: it returns the recorded result, and with another payload it is refused. */
  lemma RetryIsReplay(db: Db, q: Request, again: Request)
    requires Consistent(db) && HasScope(db, ScopeOf(q)) && ScopeOf(again) == ScopeOf(q)
    requires q.tool in {CancelOrder, RequestRefund}
    ensures Execute(db, again).0 == db
    ensures Execute(db, again).1 ==
            if again.payload == ReceiptFor(db, ScopeOf(q)).payload
            then Replayed(ReceiptFor(db, ScopeOf(q)).resultId) else Refused(Duplicate)
  {
  }
}
