/** One session's write in the form the code gives it: a lookup, a savepoint around the tool's write
    and the receipt, a second lookup when an index refuses, then one commit (idempotency.py,
    orders.py, refunds.py, the `attempt` closure of execute_tool.py). */
module Sessions {
  import opened Domain
  import opened Database
  import opened Transactions

  datatype Attempt =
    | Returned(resultId: int)
    | Raised(error: ToolError)
    | IntegrityError

  /** How a commit ends. A lost connection or a timeout does not say whether it took effect. */
  datatype CommitFate = Confirmed | LostAfter | LostBefore | RefusedByDatabase

  function StatementsLeft(pc: Pc): nat {
    match pc
    case Looking => 5
    case Performing => 4
    case InsertingRefund => 3
    case InsertingReceipt => 2
    case Rechecking => 1
    case _ => 0
  }

  /** Running the statements of a session until it commits or ends; `seen(pc)` is the database that
      the other transactions have committed by the time of that statement. */
  ghost function Ran(tx: Tx, seen: Pc -> Db): Tx
    decreases StatementsLeft(tx.pc)
  {
    if tx.pc in {Committing, Finished} then tx else Ran(Advance(seen(tx.pc), tx).1, seen)
  }

  class Session {
    var db: Db
    var locked: bool
    var cancels: bool
    var refundId: Option<int>
    var receiptId: Option<int>

    /** The transaction this session is in. */
    function Holding(q: Request, pc: Pc, result: int, reply: Reply): Tx
      reads this
    {
      Tx(q, pc, locked, cancels, refundId, receiptId, result, reply)
    }

    constructor (db: Db)
      ensures this.db == db && forall q :: Holding(q, Looking, 0, Silent) == Start(q)
    {
      this.db, locked, cancels, refundId, receiptId := db, false, false, None, None;
    }

    method GetReceipt(scope: Scope) returns (receipt: Option<Receipt>)
      requires UniqueReceipts(db.receipts)
      ensures receipt == if HasScope(db, scope) then Some(ReceiptFor(db, scope)) else None
    {
      if i :| i in db.receipts && db.receipts[i].scope == scope {
        receipt := Some(db.receipts[i]);
      } else {
        receipt := None;
      }
    }

    /** Back to the savepoint; all this session wrote lies inside it. */
    method RollbackWrites()
      modifies this
      ensures db == old(db) && !locked && !cancels && refundId == None && receiptId == None
    {
      locked, cancels, refundId, receiptId := false, false, None, None;
    }

    /** `perform` of cancel_order: one statement under the row lock. */
    method CancelPerform(q: Request) returns (attempt: Attempt)
      requires q.tool == CancelOrder && Holding(q, Looking, 0, Silent) == Start(q)
      modifies this
      ensures db == old(db) && !attempt.IntegrityError?
      ensures var tx := Advance(db, Start(q).(pc := Performing)).1;
              match attempt
              case Returned(id) => tx == Holding(q, InsertingReceipt, id, Silent)
              case Raised(e) => tx == End(Start(q), Failed(e))
              case IntegrityError => true
    {
      var id := q.payload.orderId;
      match ValidateCancel(db, q)
      case Some(e) => attempt := Raised(e);
      case None =>
        locked := true;
        if db.orders[id].status != Cancelled {
          cancels := true;
        }
        attempt := Returned(id);
    }

    /** `perform` of request_refund: the check, then the insert on the database as it is by then. */
    method RefundPerform(q: Request, inserted: Db) returns (attempt: Attempt)
      requires q.tool == RequestRefund && Holding(q, Looking, 0, Silent) == Start(q)
      modifies this
      ensures var tx := Advance(old(db), Start(q).(pc := Performing)).1;
              match attempt
              case Returned(id) => tx.pc == InsertingRefund && Advance(inserted, tx).1 == Holding(q, InsertingReceipt, id, Silent)
              case Raised(e) => tx == End(Start(q), Failed(e))
              case IntegrityError => tx.pc == InsertingRefund && Advance(inserted, tx).1 == Start(q).(pc := Rechecking)
    {
      match ValidateRefund(db, q)
      case Some(e) => attempt := Raised(e);
      case None =>
        db := inserted;
        if HasActiveRefund(db, q.tenantId, q.payload.orderId) {
          attempt := IntegrityError;
        } else {
          refundId := Some(db.nextRefund);
          attempt := Returned(db.nextRefund);
        }
    }

    /** `execute_idempotent` around the tool's `perform`: exactly the statements of the interleaving
        model, whatever the other sessions commit between them. */
    method ExecuteIdempotent(q: Request, seen: Pc -> Db) returns (outcome: Outcome)
      requires forall pc :: UniqueReceipts(seen(pc).receipts)
      requires q.tool in {CancelOrder, RequestRefund} && Holding(q, Looking, 0, Silent) == Start(q)
      modifies this
      ensures var tx := Ran(Start(q), seen);
              match outcome
              case Refused(e) => tx == End(tx, Failed(e))
              case Replayed(id) => tx == Holding(q, Committing, id, Silent) && HoldsNothing(tx)
              case Written(id) => tx == Holding(q, Committing, id, Silent) && receiptId.Some?
              case Unchanged(_) => false
    {
      ghost var tx := Start(q);
      db := seen(Looking);
      var existing := GetReceipt(ScopeOf(q));
      tx := Advance(db, tx).1;
      assert Ran(Start(q), seen) == Ran(tx, seen);
      if existing.Some? {
        outcome := Replay(db, q, existing.value);
        return;
      }
      db := seen(Performing);
      var attempt;
      if q.tool == CancelOrder {
        attempt := CancelPerform(q);
      } else {
        attempt := RefundPerform(q, seen(InsertingRefund));
      }
      tx := Advance(seen(Performing), tx).1;
      assert Ran(Start(q), seen) == Ran(tx, seen);
      if attempt.Raised? {
        RollbackWrites();
        assert tx == End(Start(q), Failed(attempt.error));
        return Refused(attempt.error);
      }
      if q.tool == RequestRefund {
        tx := Advance(seen(InsertingRefund), tx).1;
      }
      assert Ran(Start(q), seen) == Ran(tx, seen);
      if attempt.Returned? {
        db := seen(InsertingReceipt);
        existing := GetReceipt(ScopeOf(q));   // the unique constraint, met by the flush
        tx := Advance(db, tx).1;
        if existing.None? {
          receiptId := Some(db.nextReceipt);
          assert tx == Holding(q, Committing, attempt.resultId, Silent);
          assert Ran(Start(q), seen) == Ran(tx, seen);
          return Written(attempt.resultId);
        }
      }
      assert tx.pc == Rechecking && Ran(Start(q), seen) == Ran(tx, seen);
      RollbackWrites();
      db := seen(Rechecking);
      existing := GetReceipt(ScopeOf(q));
      tx := Advance(db, tx).1;
      assert Ran(Start(q), seen) == Ran(tx, seen);
      outcome := if existing.Some? then Replay(db, q, existing.value) else Refused(Duplicate);
    }

    /** `commit_business_write`: unless the database never got it, the rows become visible; an
        answer that did not arrive is an unknown outcome, never a failure to retry. */
    method CommitBusinessWrite(q: Request, result: int, latest: Db, fate: CommitFate) returns (reply: Reply)
      requires cancels ==> q.payload.orderId in latest.orders
      modifies this
      ensures db == if fate in {Confirmed, LostAfter} then Apply(latest, old(Holding(q, Committing, result, Silent))) else latest
      ensures reply == (match fate
                        case Confirmed => Succeeded(result)
                        case RefusedByDatabase => Errored
                        case _ => Unknown)
      ensures Holding(q, Looking, 0, Silent) == Start(q)
    {
      db := latest;
      if fate in {Confirmed, LostAfter} {
        if cancels {
          db := db.(orders := db.orders[q.payload.orderId := db.orders[q.payload.orderId].(status := Cancelled)]);
        }
        if refundId.Some? {
          db := db.(refunds := db.refunds[refundId.value := NewRefund(q)]);
        }
        if receiptId.Some? {
          db := db.(receipts := db.receipts[receiptId.value := Receipt(ScopeOf(q), q.payload, result)]);
        }
      }
      RollbackWrites();
      reply := match fate
        case Confirmed => Succeeded(result)
        case RefusedByDatabase => Errored
        case _ => Unknown;
    }
  }
}
