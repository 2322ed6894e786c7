/** Many sessions running `execute_idempotent` at once over one database: an interleaving of their
    statements, commits, rollbacks and losses, with the schema's unique indexes and the row lock as
    the only coordination (services/idempotency.py, tools/orders.py, tools/refunds.py). */
module Transactions {
  import opened Domain
  import opened Database

  datatype Pc =
    | Looking           // the receipt lookup before the savepoint
    | Performing        // the tool's own check, under the row lock for a cancellation
    | InsertingRefund   // the flush that inserts the refund row
    | InsertingReceipt  // the flush that inserts the receipt
    | Rechecking        // the handler of the integrity error
    | Committing
    | Finished

  /** What the caller was told. */
  datatype Reply =
    | Silent
    | Succeeded(resultId: int)
    | Failed(error: ToolError)
    | Errored
    | Unknown

  /** One session's transaction: what it holds is seen by nobody until the commit. */
  datatype Tx = Tx(
    req: Request,
    pc: Pc,
    locked: bool,             // holds the row lock on the order
    cancels: bool,            // has set the order's status
    refundId: Option<int>,    // the id of the refund row it inserted
    receiptId: Option<int>,   // the id of the receipt it inserted
    result: int,
    reply: Reply)

  function Start(q: Request): Tx {
    Tx(q, Looking, false, false, None, None, 0, Silent)
  }

  /** The savepoint, or the whole transaction, is undone. */
  function Dropped(tx: Tx, pc: Pc): Tx {
    tx.(pc := pc, locked := false, cancels := false, refundId := None, receiptId := None)
  }

  function End(tx: Tx, reply: Reply): Tx {
    Dropped(tx, Finished).(reply := reply)
  }

  /** Validate a receipt that exists and load its result. */
  function Answer(db: Db, tx: Tx, receipt: Receipt): Tx {
    var outcome := Replay(db, tx.req, receipt);
    if outcome.Replayed? then Dropped(tx, Committing).(result := outcome.resultId)
    else End(tx, Failed(outcome.error))
  }

  /** The next statement of a session, on the database committed so far. An insert takes its id from
      the table's sequence at once, as sequences do not roll back. */
  ghost function Advance(db: Db, tx: Tx): (Db, Tx) {
    match tx.pc
    case Looking =>
      (db, if HasScope(db, ScopeOf(tx.req)) then Answer(db, tx, ReceiptFor(db, ScopeOf(tx.req)))
           else tx.(pc := Performing))
    case Performing =>
      (db, if tx.req.tool == CancelOrder then
             match ValidateCancel(db, tx.req)
             case Some(e) => End(tx, Failed(e))
             case None =>
               tx.(pc := InsertingReceipt, locked := true, result := tx.req.payload.orderId,
                   cancels := db.orders[tx.req.payload.orderId].status != Cancelled)
           else
             match ValidateRefund(db, tx.req)
             case Some(e) => End(tx, Failed(e))
             case None => tx.(pc := InsertingRefund))
    case InsertingRefund =>
      if HasActiveRefund(db, tx.req.tenantId, tx.req.payload.orderId) then (db, Dropped(tx, Rechecking))
      else (db.(nextRefund := db.nextRefund + 1),
            tx.(pc := InsertingReceipt, refundId := Some(db.nextRefund), result := db.nextRefund))
    case InsertingReceipt =>
      if HasScope(db, ScopeOf(tx.req)) then (db, Dropped(tx, Rechecking))
      else (db.(nextReceipt := db.nextReceipt + 1), tx.(pc := Committing, receiptId := Some(db.nextReceipt)))
    case Rechecking =>
      (db, if HasScope(db, ScopeOf(tx.req)) then Answer(db, tx, ReceiptFor(db, ScopeOf(tx.req)))
           else End(tx, Failed(Duplicate)))
    case _ => (db, tx)
  }

  /** The rows a commit makes visible. */
  function Apply(db: Db, tx: Tx): Db {
    var id := tx.req.payload.orderId;
    db.(orders := if tx.cancels && id in db.orders then db.orders[id := db.orders[id].(status := Cancelled)] else db.orders,
        refunds := match tx.refundId
                   case Some(i) => db.refunds[i := NewRefund(tx.req)]
                   case None => db.refunds,
        receipts := match tx.receiptId
                    case Some(i) => db.receipts[i := Receipt(ScopeOf(tx.req), tx.req.payload, tx.result)]
                    case None => db.receipts)
  }

  datatype Sys = Sys(db: Db, txs: map<nat, Tx>)

  /** A statement waits while another transaction holds the lock it needs, or an uncommitted row
      with the same key in a unique index. */
  predicate Blocked(tx: Tx, other: Tx) {
    match tx.pc
    case Performing => tx.req.tool == CancelOrder && other.locked && other.req.payload.orderId == tx.req.payload.orderId
    case InsertingRefund =>
      other.refundId.Some? && other.req.tenantId == tx.req.tenantId && other.req.payload.orderId == tx.req.payload.orderId
    case InsertingReceipt => other.receiptId.Some? && ScopeOf(other.req) == ScopeOf(tx.req)
    case _ => false
  }

  datatype Event =
    | Begin(t: nat, q: Request)
    | Statement(t: nat)
    | Commit(t: nat, told: bool)       // told is false when the connection is lost after the commit
    | Rollback(t: nat, reply: Reply)   // an error, a lost connection or a crash before the commit
    | Elsewhere                        // fulfilment and refund handling, outside this code

  /** What the rest of the business may do: move unlocked orders and refunds along, add orders. It
      goes through the same unique index, and it never writes receipts. */
  ghost predicate ElsewhereMay(s: Sys, db': Db) {
    var db := s.db;
    && db'.receipts == db.receipts && db'.nextReceipt >= db.nextReceipt && db'.nextRefund >= db.nextRefund
    && (forall i | i in db.orders :: i in db'.orders && db'.orders[i].tenantId == db.orders[i].tenantId
          && db'.orders[i].customerId == db.orders[i].customerId)
    && (forall t, i | t in s.txs && s.txs[t].locked && i == s.txs[t].req.payload.orderId && i in db.orders ::
          db'.orders[i] == db.orders[i])
    && db'.refunds.Keys == db.refunds.Keys
    && (forall i | i in db.refunds :: db'.refunds[i] == db.refunds[i].(status := db'.refunds[i].status))
    && UniqueActiveRefunds(db'.refunds)
    && (forall t | t in s.txs && s.txs[t].refundId.Some? ::
          !HasActiveRefund(db', s.txs[t].req.tenantId, s.txs[t].req.payload.orderId))
  }

  ghost predicate Next(s: Sys, e: Event, s': Sys) {
    match e
    case Begin(t, q) =>
      t !in s.txs && q.tool in {CancelOrder, RequestRefund} && s' == s.(txs := s.txs[t := Start(q)])
    case Statement(t) =>
      && t in s.txs && s.txs[t].pc !in {Committing, Finished}
      && (forall u | u in s.txs && u != t :: !Blocked(s.txs[t], s.txs[u]))
      && s' == Sys(Advance(s.db, s.txs[t]).0, s.txs[t := Advance(s.db, s.txs[t]).1])
    case Commit(t, told) =>
      && t in s.txs && s.txs[t].pc == Committing
      && s' == Sys(Apply(s.db, s.txs[t]),
                   s.txs[t := End(s.txs[t], if told then Succeeded(s.txs[t].result) else Unknown)])
    case Rollback(t, reply) =>
      && t in s.txs && s.txs[t].pc != Finished && !reply.Succeeded?
      && s' == s.(txs := s.txs[t := End(s.txs[t], reply)])
    case Elsewhere =>
      ElsewhereMay(s, s'.db) && s'.txs == s.txs
  }

  // ---------------------------------------------------------------------------------- invariant

  /** A committed receipt says that this request's effect is recorded as `id`. */
  ghost predicate Recorded(db: Db, q: Request, id: int) {
    exists k :: k in db.receipts && db.receipts[k] == Receipt(ScopeOf(q), q.payload, id)
  }

  predicate HoldsNothing(tx: Tx) {
    !tx.locked && !tx.cancels && tx.refundId == None && tx.receiptId == None
  }

  /** What a transaction has done to business rows so far still passes the tool's own check. */
  ghost predicate Performed(db: Db, tx: Tx) {
    var id := tx.req.payload.orderId;
    if tx.req.tool == CancelOrder then
      && tx.locked && tx.refundId == None && tx.result == id
      && ValidateCancel(db, tx.req) == None && tx.cancels == (db.orders[id].status != Cancelled)
    else
      && !tx.locked && !tx.cancels && tx.refundId == Some(tx.result)
      && tx.result < db.nextRefund && tx.result !in db.refunds
      && !HasActiveRefund(db, tx.req.tenantId, id)
  }

  ghost predicate TxOk(db: Db, tx: Tx) {
    && tx.req.tool in {CancelOrder, RequestRefund}
    && (match tx.pc
        case InsertingRefund => HoldsNothing(tx) && tx.req.tool == RequestRefund
        case InsertingReceipt => tx.receiptId == None && Performed(db, tx)
        case Committing =>
          if tx.receiptId == None then HoldsNothing(tx) && Recorded(db, tx.req, tx.result)
          else && Performed(db, tx) && !HasScope(db, ScopeOf(tx.req))
               && tx.receiptId.value < db.nextReceipt && tx.receiptId.value !in db.receipts
        case Finished => HoldsNothing(tx) && (tx.reply.Succeeded? ==> Recorded(db, tx.req, tx.reply.resultId))
        case _ => HoldsNothing(tx))
  }

  /** Two transactions hold no common lock and no common key. */
  predicate Apart(a: Tx, b: Tx) {
    && (a.locked && b.locked ==> a.req.payload.orderId != b.req.payload.orderId)
    && (a.refundId.Some? && b.refundId.Some? ==>
          a.refundId != b.refundId && !(a.req.tenantId == b.req.tenantId && a.req.payload.orderId == b.req.payload.orderId))
    && (a.receiptId.Some? && b.receiptId.Some? ==> a.receiptId != b.receiptId && ScopeOf(a.req) != ScopeOf(b.req))
  }

  ghost predicate Inv(s: Sys) {
    && Consistent(s.db)
    && (forall t | t in s.txs :: TxOk(s.db, s.txs[t]))
    && (forall t, u | t in s.txs && u in s.txs && t != u :: Apart(s.txs[t], s.txs[u]))
  }

  /** The committed receipts only grow. */
  predicate Grows(db: Db, db': Db) {
    forall k | k in db.receipts :: k in db'.receipts && db'.receipts[k] == db.receipts[k]
  }

  lemma RecordedStays(db: Db, db': Db, q: Request, id: int)
    requires Grows(db, db') && Recorded(db, q, id)
    ensures Recorded(db', q, id)
  {
    var k :| k in db.receipts && db.receipts[k] == Receipt(ScopeOf(q), q.payload, id);
    assert db'.receipts[k] == Receipt(ScopeOf(q), q.payload, id);
  }

  /** The receipt the lookup finds is the one that records the answer. */
  lemma AnswerRecorded(db: Db, tx: Tx)
    requires HasScope(db, ScopeOf(tx.req))
    ensures var a := Answer(db, tx, ReceiptFor(db, ScopeOf(tx.req)));
            a.pc == Committing ==> Recorded(db, tx.req, a.result)
  {
    var r := ReceiptFor(db, ScopeOf(tx.req));
    var k :| k in db.receipts && db.receipts[k].scope == ScopeOf(tx.req) && db.receipts[k] == r;
    if r.payload == tx.req.payload {
      assert db.receipts[k] == Receipt(ScopeOf(tx.req), tx.req.payload, r.resultId);
    }
  }

  lemma StatementConsistent(db: Db, tx: Tx)
    requires Consistent(db)
    ensures Consistent(Advance(db, tx).0)
    ensures var db' := Advance(db, tx).0; db' == db.(nextRefund := db'.nextRefund, nextReceipt := db'.nextReceipt)
  {
    PairedCopy(db, Advance(db, tx).0);
  }

  /** A lookup finds a recorded answer, or nothing and goes on. */
  lemma LookupTxOk(db: Db, tx: Tx)
    requires TxOk(db, tx) && tx.pc in {Looking, Rechecking}
    ensures TxOk(db, Advance(db, tx).1)
  {
    if HasScope(db, ScopeOf(tx.req)) {
      AnswerRecorded(db, tx);
    }
  }

  lemma WriteTxOk(db: Db, tx: Tx)
    requires FreshIds(db) && TxOk(db, tx) && tx.pc in {Performing, InsertingRefund, InsertingReceipt}
    ensures TxOk(Advance(db, tx).0, Advance(db, tx).1)
  {
  }

  lemma StatementTxOk(db: Db, tx: Tx)
    requires Consistent(db) && TxOk(db, tx) && tx.pc !in {Committing, Finished}
    ensures Consistent(Advance(db, tx).0) && TxOk(Advance(db, tx).0, Advance(db, tx).1)
  {
    StatementConsistent(db, tx);
    if tx.pc in {Looking, Rechecking} {
      LookupTxOk(db, tx);
    } else {
      WriteTxOk(db, tx);
    }
  }

  lemma PairedCopy(db: Db, db': Db)
    requires Paired(db) && db'.receipts == db.receipts && db'.refunds == db.refunds
    ensures Paired(db')
  {
    forall i | i in db'.refunds
      ensures exists k :: k in db'.receipts && Records(db'.receipts[k], i, db'.refunds[i])
    {
      var k :| k in db.receipts && Records(db.receipts[k], i, db.refunds[i]);
      assert k in db'.receipts && Records(db'.receipts[k], i, db'.refunds[i]);
    }
  }

  /** What a transaction relies on survives any change of the database that respects the locks and
      keys it holds. */
  lemma Framed(db: Db, db': Db, tx: Tx)
    requires TxOk(db, tx) && Grows(db, db')
    requires db'.nextRefund >= db.nextRefund && db'.nextReceipt >= db.nextReceipt
    requires tx.locked && tx.req.payload.orderId in db.orders ==>
      tx.req.payload.orderId in db'.orders && db'.orders[tx.req.payload.orderId] == db.orders[tx.req.payload.orderId]
    requires tx.refundId.Some? ==>
      tx.refundId.value !in db'.refunds && !HasActiveRefund(db', tx.req.tenantId, tx.req.payload.orderId)
    requires tx.receiptId.Some? ==> tx.receiptId.value !in db'.receipts && !HasScope(db', ScopeOf(tx.req))
    ensures TxOk(db', tx)
  {
    if tx.pc == Committing && tx.receiptId == None {
      RecordedStays(db, db', tx.req, tx.result);
    }
    if tx.reply.Succeeded? && tx.pc == Finished {
      RecordedStays(db, db', tx.req, tx.reply.resultId);
    }
  }

  lemma SequencesFramed(db: Db, db': Db, tx: Tx)
    requires Consistent(db) && TxOk(db, tx)
    requires db' == db.(nextRefund := db'.nextRefund, nextReceipt := db'.nextReceipt)
    requires db'.nextRefund >= db.nextRefund && db'.nextReceipt >= db.nextReceipt
    ensures TxOk(db', tx)
  {
    Framed(db, db', tx);
  }

  /** A statement that was not blocked takes no key another transaction holds. */
  lemma StatementApart(db: Db, tx: Tx, other: Tx)
    requires Consistent(db) && TxOk(db, tx) && tx.pc !in {Committing, Finished}
    requires TxOk(db, other) && Apart(tx, other) && !Blocked(tx, other)
    ensures Apart(Advance(db, tx).1, other) && Apart(other, Advance(db, tx).1)
  {
  }

  lemma StatementKeeps(s: Sys, t: nat, s': Sys)
    requires Inv(s) && Next(s, Statement(t), s')
    ensures Inv(s') && Grows(s.db, s'.db)
  {
    var tx := s.txs[t];
    StatementTxOk(s.db, tx);
    forall u | u in s.txs && u != t
      ensures TxOk(s'.db, s.txs[u]) && Apart(s'.txs[t], s.txs[u]) && Apart(s.txs[u], s'.txs[t])
    {
      StatementApart(s.db, tx, s.txs[u]);
      SequencesFramed(s.db, s'.db, s.txs[u]);
    }
  }

  lemma ElsewhereKeeps(s: Sys, s': Sys)
    requires Inv(s) && Next(s, Elsewhere, s')
    ensures Inv(s') && Grows(s.db, s'.db)
  {
    ElsewherePaired(s, s');
    forall t | t in s.txs ensures TxOk(s'.db, s.txs[t]) {
      Framed(s.db, s'.db, s.txs[t]);
    }
  }

  lemma ElsewherePaired(s: Sys, s': Sys)
    requires Consistent(s.db) && ElsewhereMay(s, s'.db)
    ensures Consistent(s'.db)
  {
    forall i | i in s'.db.refunds
      ensures exists k :: k in s'.db.receipts && Records(s'.db.receipts[k], i, s'.db.refunds[i])
    {
      var k :| k in s.db.receipts && Records(s.db.receipts[k], i, s.db.refunds[i]);
      assert s'.db.refunds[i] == s.db.refunds[i].(status := s'.db.refunds[i].status);
      assert k in s'.db.receipts && Records(s'.db.receipts[k], i, s'.db.refunds[i]);
    }
  }

  lemma CommitConsistent(db: Db, tx: Tx)
    requires Consistent(db) && TxOk(db, tx) && tx.pc == Committing
    ensures Consistent(Apply(db, tx)) && Grows(db, Apply(db, tx))
    ensures Recorded(Apply(db, tx), tx.req, tx.result)
  {
    var db' := Apply(db, tx);
    if tx.receiptId == None {
      assert db' == db;
    } else {
      assert db'.receipts[tx.receiptId.value] == Receipt(ScopeOf(tx.req), tx.req.payload, tx.result);
      if tx.req.tool == CancelOrder {
        CancelKept(db, tx.req, tx.receiptId.value, db');
      } else {
        RefundKept(db, tx.req, tx.result, tx.receiptId.value, db');
      }
    }
  }

  /** A commit leaves alone whatever another transaction relies on. */
  lemma CommitFramed(db: Db, tx: Tx, other: Tx)
    requires Consistent(db) && TxOk(db, tx) && tx.pc == Committing && Grows(db, Apply(db, tx))
    requires TxOk(db, other) && Apart(tx, other)
    ensures TxOk(Apply(db, tx), other)
  {
    Framed(db, Apply(db, tx), other);
  }

  lemma CommitKeeps(s: Sys, t: nat, told: bool, s': Sys)
    requires Inv(s) && Next(s, Commit(t, told), s')
    ensures Inv(s') && Grows(s.db, s'.db)
  {
    CommitConsistent(s.db, s.txs[t]);
    forall u | u in s.txs && u != t
      ensures TxOk(s'.db, s.txs[u]) && Apart(s'.txs[t], s.txs[u]) && Apart(s.txs[u], s'.txs[t])
    {
      CommitFramed(s.db, s.txs[t], s.txs[u]);
    }
  }

  /** Every event keeps the invariant, and no event removes or changes a receipt. */
  lemma NextKeeps(s: Sys, e: Event, s': Sys)
    requires Inv(s) && Next(s, e, s')
    ensures Inv(s') && Grows(s.db, s'.db)
  {
    match e
    case Begin(t, q) =>
    case Statement(t) => StatementKeeps(s, t, s');
    case Commit(t, told) => CommitKeeps(s, t, told, s');
    case Rollback(t, reply) =>
      forall u | u in s.txs && u != t
        ensures Apart(s'.txs[t], s.txs[u]) && Apart(s.txs[u], s'.txs[t])
      {
      }
    case Elsewhere => ElsewhereKeeps(s, s');
  }

  // ------------------------------------------------------------------------------- whole runs

  /** A run from a consistent database before any of these sessions began. */
  ghost predicate Run(states: seq<Sys>, events: seq<Event>) {
    && |states| == |events| + 1
    && Consistent(states[0].db) && states[0].txs == map[]
    && forall i | 0 <= i < |events| :: Next(states[i], events[i], states[i + 1])
  }

  /** In every state of every run: each scope has at most one receipt, refund rows and refund receipts
      correspond one to one, no order has two active refunds; and receipts are never lost. */
  lemma {:induction false} RunKeeps(states: seq<Sys>, events: seq<Event>, i: nat, j: nat)
    requires Run(states, events) && i <= j < |states|
    ensures Inv(states[i]) && Inv(states[j]) && Grows(states[i].db, states[j].db)
  {
    if i < j {
      RunKeeps(states, events, i, j - 1);
      NextKeeps(states[j - 1], events[j - 1], states[j]);
    } else if 0 < i {
      RunKeeps(states, events, i - 1, i - 1);
      NextKeeps(states[i - 1], events[i - 1], states[i]);
    }
  }

  /** This event is a commit that makes business rows visible for the scope. */
  predicate Writes(s: Sys, e: Event, scope: Scope) {
    e.Commit? && e.t in s.txs && ScopeOf(s.txs[e.t].req) == scope && s.txs[e.t].receiptId.Some?
  }

  /** However many sessions send a request, fail, are lost or retry, its rows are written by at most
      one commit of the whole run. */
  lemma AtMostOneWrite(states: seq<Sys>, events: seq<Event>, i: nat, j: nat, scope: Scope)
    requires Run(states, events) && i < |events| && j < |events|
    requires Writes(states[i], events[i], scope) && Writes(states[j], events[j], scope)
    ensures i == j
  {
    if i < j {
      WrittenScopeStays(states, events, i, j, scope);
    } else if j < i {
      WrittenScopeStays(states, events, j, i, scope);
    }
  }

  lemma WriteIsFirst(s: Sys, e: Event, s': Sys, scope: Scope)
    requires Inv(s) && Next(s, e, s')
    ensures Writes(s, e, scope) ==> !HasScope(s.db, scope)
  {
    if Writes(s, e, scope) {
      assert TxOk(s.db, s.txs[e.t]);
    }
  }

  lemma WrittenScopeStays(states: seq<Sys>, events: seq<Event>, i: nat, j: nat, scope: Scope)
    requires Run(states, events) && i < j < |events|
    requires Writes(states[i], events[i], scope)
    ensures !Writes(states[j], events[j], scope)
  {
    RunKeeps(states, events, i, i);
    RunKeeps(states, events, i + 1, j);
    var tx := states[i].txs[events[i].t];
    CommitConsistent(states[i].db, tx);
    RecordedStays(states[i + 1].db, states[j].db, tx.req, tx.result);
    WriteIsFirst(states[j], events[j], states[j + 1], scope);
  }

  /** Only a writing commit changes rows: not a statement, a replay, a refusal, a rollback. */
  lemma OnlyWritesChangeRows(s: Sys, e: Event, s': Sys)
    requires Inv(s) && Next(s, e, s') && e != Elsewhere
    requires s'.db.orders != s.db.orders || s'.db.refunds != s.db.refunds || s'.db.receipts != s.db.receipts
    ensures e.Commit? && Writes(s, e, ScopeOf(s.txs[e.t].req)) && !HasScope(s.db, ScopeOf(s.txs[e.t].req))
  {
    if e.Commit? {
      assert TxOk(s.db, s.txs[e.t]);
    }
  }

  /** Two sessions told of success for the same scope sent the same payload and were told the same
      result: a replay returns the recorded one, another payload under the key never succeeds. */
  lemma SameAnswer(states: seq<Sys>, events: seq<Event>, i: nat, j: nat, t: nat, u: nat)
    requires Run(states, events) && i <= j < |states| && t in states[i].txs && u in states[j].txs
    requires states[i].txs[t].reply.Succeeded? && states[i].txs[t].pc == Finished
    requires states[j].txs[u].reply.Succeeded? && states[j].txs[u].pc == Finished
    requires ScopeOf(states[i].txs[t].req) == ScopeOf(states[j].txs[u].req)
    ensures states[i].txs[t].req == states[j].txs[u].req
    ensures states[i].txs[t].reply == states[j].txs[u].reply
  {
    RunKeeps(states, events, i, j);
    var a, b, db := states[i].txs[t], states[j].txs[u], states[j].db;
    assert TxOk(states[i].db, a) && TxOk(db, b);
    RecordedStays(states[i].db, db, a.req, a.reply.resultId);
    var k :| k in db.receipts && db.receipts[k] == Receipt(ScopeOf(a.req), a.req.payload, a.reply.resultId);
    var l :| l in db.receipts && db.receipts[l] == Receipt(ScopeOf(b.req), b.req.payload, b.reply.resultId);
    assert k == l;
  }

  // --------------------------------------------------------------------- commits as atomic writes

  /** The refund has passed its check and not ended. */
  predicate PastCheck(tx: Tx) {
    tx.req.tool == RequestRefund
    && (tx.pc in {InsertingRefund, InsertingReceipt} || (tx.pc == Committing && tx.receiptId.Some?))
  }

  predicate OwnOrder(db: Db, q: Request) {
    && q.payload.orderId in db.orders
    && db.orders[q.payload.orderId].tenantId == q.tenantId && db.orders[q.payload.orderId].customerId == q.payload.customerId
  }

  /** Orders are not removed, nor do they change tenant or customer. */
  predicate OrdersStay(db: Db, db': Db) {
    forall i | i in db.orders ::
      i in db'.orders && db'.orders[i].tenantId == db.orders[i].tenantId && db'.orders[i].customerId == db.orders[i].customerId
  }

  ghost predicate Owned(s: Sys) {
    forall t | t in s.txs && PastCheck(s.txs[t]) :: OwnOrder(s.db, s.txs[t].req)
  }

  lemma StatementOwned(db: Db, tx: Tx)
    requires PastCheck(tx) ==> OwnOrder(db, tx.req)
    ensures PastCheck(Advance(db, tx).1) ==> OwnOrder(db, tx.req)
    ensures Advance(db, tx).1.req == tx.req && Advance(db, tx).0.orders == db.orders
  {
  }

  lemma OwnedKeeps(s: Sys, e: Event, s': Sys)
    requires Owned(s) && Next(s, e, s')
    ensures OrdersStay(s.db, s'.db) && Owned(s')
  {
    if e.Statement? {
      StatementOwned(s.db, s.txs[e.t]);
    }
    assert OrdersStay(s.db, s'.db);
    forall t | t in s'.txs && PastCheck(s'.txs[t]) ensures OwnOrder(s'.db, s'.txs[t].req) {
      assert OwnOrder(s.db, s'.txs[t].req);
    }
  }

  lemma {:induction false} RunOwned(states: seq<Sys>, events: seq<Event>, i: nat)
    requires Run(states, events) && i < |states|
    ensures Owned(states[i])
  {
    if i > 0 {
      RunOwned(states, events, i - 1);
      OwnedKeeps(states[i - 1], events[i - 1], states[i]);
    }
  }

  /** The commit is the atomic write of the request on the database it commits to, under the ids the
      transaction had drawn. */
  ghost predicate Atomic(s: Sys, t: nat, s': Sys)
    requires t in s.txs && s.txs[t].receiptId.Some?
  {
    var (db', out) := Execute(AsDrawn(s.db, s.txs[t]), s.txs[t].req);
    && s'.db.(nextRefund := db'.nextRefund, nextReceipt := db'.nextReceipt) == db'
    && (out == Written(s.txs[t].result) || out == Unchanged(s.txs[t].result))
  }

  function AsDrawn(db: Db, tx: Tx): Db
    requires tx.receiptId.Some?
  {
    db.(nextRefund := tx.result, nextReceipt := tx.receiptId.value)
  }

  /** What a refund that has passed its check still depends on is the order's status alone. */
  lemma RefundStillValid(db: Db, tx: Tx)
    requires TxOk(db, tx) && tx.pc == Committing && tx.receiptId.Some? && tx.req.tool == RequestRefund && OwnOrder(db, tx.req)
    ensures ValidateRefund(db, tx.req)
         == if db.orders[tx.req.payload.orderId].status == Delivered then None else Some(InvalidState)
  {
  }

  lemma DrawnIsSame(db: Db, tx: Tx)
    requires TxOk(db, tx) && tx.pc == Committing && tx.receiptId.Some?
    ensures !HasScope(AsDrawn(db, tx), ScopeOf(tx.req))
    ensures ValidateRefund(AsDrawn(db, tx), tx.req) == ValidateRefund(db, tx.req)
    ensures ValidateCancel(AsDrawn(db, tx), tx.req) == ValidateCancel(db, tx.req)
  {
    var drawn, id := AsDrawn(db, tx), tx.req.payload.orderId;
    assert HasScope(drawn, ScopeOf(tx.req)) == HasScope(db, ScopeOf(tx.req));
    assert HasActiveRefund(drawn, tx.req.tenantId, id) == HasActiveRefund(db, tx.req.tenantId, id);
  }

  /** In every run, a commit that writes is one atomic write exactly when it cancels, or the refunded
      order is still delivered. A refund holds no lock on the order; when its status has changed since
      the check, the atomic write would have been refused, and the commit makes the refund all the
      same. */
  lemma CommitIsAtomic(states: seq<Sys>, events: seq<Event>, i: nat, t: nat, told: bool)
    requires Run(states, events) && i < |events| && events[i] == Commit(t, told)
    requires t in states[i].txs && states[i].txs[t].receiptId.Some?
    ensures var s, q := states[i], states[i].txs[t].req;
            && (q.tool == RequestRefund ==> OwnOrder(s.db, q))
            && (Atomic(s, t, states[i + 1]) <==>
                  (q.tool == RequestRefund ==> s.db.orders[q.payload.orderId].status == Delivered))
            && (!Atomic(s, t, states[i + 1]) ==>
                  Execute(AsDrawn(s.db, s.txs[t]), q).1 == Refused(InvalidState)
                  && s.txs[t].refundId.Some? && s.txs[t].refundId.value in states[i + 1].db.refunds)
  {
    RunKeeps(states, events, i, i);
    RunOwned(states, events, i);
    var s, tx := states[i], states[i].txs[t];
    assert Next(s, events[i], states[i + 1]) && TxOk(s.db, tx);
    DrawnIsSame(s.db, tx);
    if tx.req.tool == RequestRefund {
      RefundStillValid(s.db, tx);
    }
    AtomicCommit(s, t, told, states[i + 1]);
  }

  lemma AtomicCommit(s: Sys, t: nat, told: bool, s': Sys)
    requires Next(s, Commit(t, told), s') && TxOk(s.db, s.txs[t]) && s.txs[t].receiptId.Some?
    requires !HasScope(AsDrawn(s.db, s.txs[t]), ScopeOf(s.txs[t].req))
    requires ValidateRefund(AsDrawn(s.db, s.txs[t]), s.txs[t].req) == ValidateRefund(s.db, s.txs[t].req)
    requires ValidateCancel(AsDrawn(s.db, s.txs[t]), s.txs[t].req) == ValidateCancel(s.db, s.txs[t].req)
    ensures Atomic(s, t, s') <==> (s.txs[t].req.tool == RequestRefund ==> ValidateRefund(s.db, s.txs[t].req) == None)
    ensures s.txs[t].req.tool == RequestRefund ==>
              s.txs[t].refundId.Some? && s.txs[t].refundId.value in s'.db.refunds
              && (ValidateRefund(s.db, s.txs[t].req).Some? ==>
                    Execute(AsDrawn(s.db, s.txs[t]), s.txs[t].req).1 == Refused(ValidateRefund(s.db, s.txs[t].req).value))
  {
  }

  // --------------------------------------------------------------- a refund that came too late

  const LATE := Request(RequestRefund, "acme", "alice", "act_0001", Payload(1, 7, "broken"))

  /** Order 7, of customer 1, with this status, and nothing else. */
  function Shop(status: OrderStatus, nextRefund: int, nextReceipt: int): Db {
    Db(map[7 := Order("acme", 1, status)], map[], map[], nextRefund, nextReceipt)
  }

  const LATE_EVENTS := [Begin(0, LATE), Statement(0), Statement(0), Statement(0), Elsewhere, Statement(0), Commit(0, true)]

  const LATE_RUN :=
    var looking := Start(LATE);
    var inserted := looking.(pc := InsertingReceipt, refundId := Some(1), result := 1);
    var ready := inserted.(pc := Committing, receiptId := Some(1));
    [Sys(Shop(Delivered, 1, 1), map[]),
     Sys(Shop(Delivered, 1, 1), map[0 := looking]),
     Sys(Shop(Delivered, 1, 1), map[0 := looking.(pc := Performing)]),
     Sys(Shop(Delivered, 1, 1), map[0 := looking.(pc := InsertingRefund)]),
     Sys(Shop(Delivered, 2, 1), map[0 := inserted]),
     Sys(Shop(OrderStatus.Cancelled, 2, 1), map[0 := inserted]),
     Sys(Shop(OrderStatus.Cancelled, 2, 2), map[0 := ready]),
     Sys(Apply(Shop(OrderStatus.Cancelled, 2, 2), ready), map[0 := End(ready, Succeeded(1))])]

  lemma LateChecks()
    ensures forall s: OrderStatus, i, j :: !HasScope(Shop(s, i, j), ScopeOf(LATE)) && !HasActiveRefund(Shop(s, i, j), "acme", 7)
    ensures forall i, j :: ValidateRefund(Shop(Delivered, i, j), LATE) == None
    ensures Consistent(Shop(Delivered, 1, 1))
  {
  }

  lemma EarlySteps(i: nat)
    requires i < 4
    ensures Next(LATE_RUN[i], LATE_EVENTS[i], LATE_RUN[i + 1])
  {
    LateChecks();
    assert LATE_RUN[i + 1].txs == map[0 := LATE_RUN[i + 1].txs[0]];
  }

  lemma LateSteps(i: nat)
    requires 4 <= i < 7
    ensures Next(LATE_RUN[i], LATE_EVENTS[i], LATE_RUN[i + 1])
  {
    LateChecks();
    assert LATE_RUN[i + 1].txs == map[0 := LATE_RUN[i + 1].txs[0]];
  }

  /** A run in which somebody else cancels the order between the check of a refund and its commit: the
      customer is told of success, and the refund of an order that is no longer delivered is there. */
  lemma LateRefundCommits()
    ensures Run(LATE_RUN, LATE_EVENTS)
    ensures LATE_RUN[6].txs[0].receiptId.Some? && !Atomic(LATE_RUN[6], 0, LATE_RUN[7])
    ensures LATE_RUN[7].txs[0].reply == Succeeded(1) && 1 in LATE_RUN[7].db.refunds
    ensures LATE_RUN[7].db.orders[7].status != Delivered && LATE_RUN[7].db.refunds[1].orderId == 7
  {
    LateChecks();
    forall i: nat | i < 7 ensures Next(LATE_RUN[i], LATE_EVENTS[i], LATE_RUN[i + 1]) {
      if i < 4 {
        EarlySteps(i);
      } else {
        LateSteps(i);
      }
    }
    CommitIsAtomic(LATE_RUN, LATE_EVENTS, 6, 0, true);
  }
}
