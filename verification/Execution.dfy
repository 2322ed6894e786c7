/** The execution node in the form the code gives it: the audit trail, one session, one call, one
    commit, in this order (nodes/execute_tool.py, nodes/confirmed.py). `Agent.ExecuteTool` is what
    it amounts to. */
module Execution {
  import opened Domain
  import opened Agent
  import DB = Database
  import TX = Transactions
  import Sessions
  import Safety

  datatype AuditStatus = Attempted | Success | OutcomeUnknown | Failure

  datatype AuditEvent = AuditEvent(status: AuditStatus, actionId: string)

  const MUTATORS := {CancelOrder, Tool.RequestRefund}

  // ------------------------------------------------------------------------------- one session alone

  /** The rows a finished session leaves, with the ids it drew. */
  function AfterCommit(db: DB.Db, tx: TX.Tx): DB.Db {
    TX.Apply(db, tx).(nextRefund := if tx.refundId.Some? then db.nextRefund + 1 else db.nextRefund,
                      nextReceipt := if tx.receiptId.Some? then db.nextReceipt + 1 else db.nextReceipt)
  }

  /** The statements of a session that nobody disturbs amount to one atomic write. */
  lemma RanAlone(db: DB.Db, q: DB.Request, seen: TX.Pc -> DB.Db)
    requires DB.UniqueReceipts(db.receipts) && q.tool in MUTATORS && forall pc :: seen(pc) == db
    ensures var (tx, (db', out)) := (Sessions.Ran(TX.Start(q), seen), DB.Execute(db, q));
            && tx.req == q && tx.pc in {TX.Committing, TX.Finished}
            && (tx.pc == TX.Committing <==> !out.Refused?)
            && (out.Refused? ==> tx == TX.End(tx, TX.Failed(out.error)) && db' == db)
            && (!out.Refused? ==> out.resultId == tx.result && db' == AfterCommit(db, tx))
            && (tx.cancels ==> q.payload.orderId in db.orders)
  {
    var looked := TX.Advance(db, TX.Start(q)).1;
    assert Sessions.Ran(TX.Start(q), seen) == Sessions.Ran(looked, seen);
    if looked.pc == TX.Performing {
      var performed := TX.Advance(db, looked).1;
      assert Sessions.Ran(looked, seen) == Sessions.Ran(performed, seen);
      if performed.pc == TX.InsertingRefund {
        var inserted := TX.Advance(db, performed).1;
        assert Sessions.Ran(performed, seen) == Sessions.Ran(inserted, seen);
        assert Sessions.Ran(inserted, seen) == TX.Advance(db, inserted).1;
      } else if performed.pc == TX.InsertingReceipt {
        assert Sessions.Ran(performed, seen) == TX.Advance(db, performed).1;
      }
    }
  }

  // ------------------------------------------------------------------------------- the audit trail

  function KeyOf(s: State): string {
    if s.slots.actionId.Some? then s.slots.actionId.value else ""
  }

  predicate SelectsWrite(s: State) {
    s.plan.tool.Some? && !s.plan.tool.value.Unregistered? && OperationOf(s.plan.tool.value) == Write
  }

  /** What an execution writes to the trail: nothing for a read; for a write the attempt, before
      anything else happens, and then, unless recording it fails, what the caller is told. */
  ghost predicate TrailTells(before: seq<AuditEvent>, after: seq<AuditEvent>, s: State, r: ToolRun) {
    var attempted := before + [AuditEvent(Attempted, KeyOf(s))];
    && (after == before || after == attempted
        || (r.state.Some? && after == attempted + [AuditEvent(Told(r.state.value), KeyOf(s))]))
    && (!SelectsWrite(s) ==> after == before)
    && (r.call.Some? && SelectsWrite(s) ==> after != before)
    && (r.call.Some? && SelectsWrite(s) && r.state.Some? ==> after == attempted + [AuditEvent(Told(r.state.value), KeyOf(s))])
    && (r.state == None ==> after == before || after == attempted)
    && (r.wrote ==> after != before)
  }

  function Told(s: State): AuditStatus {
    if s.progress.execution == ExecutedOk then Success
    else if s.progress.error == Some(UnknownWriteOutcome) then OutcomeUnknown
    else Failure
  }

  // ------------------------------------------------------------------------------- the node

  class ToolExecutor {
    var db: DB.Db
    var audit: seq<AuditEvent>

    constructor (db: DB.Db)
      ensures this.db == db && audit == []
    {
      this.db, audit := db, [];
    }

    /** The `attempt` closure: the tool, then one commit; a failure rolls back. */
    method AttemptOnce(call: Call, fate: Fate) returns (error: Option<ErrorCategory>)
      requires DB.UniqueReceipts(db.receipts)
      modifies this`db
      ensures (db, error) == Agent.Attempt(call, old(db), fate)
    {
      if fate.reach == Breaks {
        return Some(ToolFailure);
      }
      if OperationOf(call.tool) == Read {
        return None;
      }
      if call.tool in MUTATORS {
        var latest := db;
        var q := RequestOf(call.tool, call.context, call.key, call.arguments);
        var seen := (pc: TX.Pc) => latest;
        RanAlone(db, q, seen);
        var session := new Sessions.Session(latest);
        var outcome := session.ExecuteIdempotent(q, seen);
        if outcome.Refused? {
          return Some(ToolErrorCategory(outcome.error));
        }
        ghost var tx := Sessions.Ran(TX.Start(q), seen);
        var drewRefund, drewReceipt := session.refundId.Some?, session.receiptId.Some?;
        var reply := session.CommitBusinessWrite(q, outcome.resultId, latest, fate.commit);
        if fate.commit in {Sessions.Confirmed, Sessions.LostAfter} {
          db := session.db;
          if drewRefund {
            db := db.(nextRefund := db.nextRefund + 1);
          }
          if drewReceipt {
            db := db.(nextReceipt := db.nextReceipt + 1);
          }
          assert db == AfterCommit(latest, tx);
        }
      }
      match fate.commit
      case Confirmed => error := None;
      case RefusedByDatabase => error := Some(ToolFailure);
      case _ => error := Some(UnknownWriteOutcome);
    }

    /** `execute_tool`. */
    method ExecuteTool(s: State, fate: Fate) returns (result: Option<State>, ghost r: ToolRun)
      requires DB.UniqueReceipts(db.receipts)
      modifies this
      ensures r == Agent.ExecuteTool(s, old(db), fate) && result == r.state && db == r.db
      ensures TrailTells(old(audit), audit, s, r)
    {
      r := Agent.ExecuteTool(s, db, fate);
      if s.plan.tool == None {
        return Some(FailExecution(s, InvalidArguments)), r;
      }
      var tool := s.plan.tool.value;
      if tool.Unregistered? {
        return Some(FailExecution(s, UnknownTool)), r;
      }
      var normalised := Normalise(tool, s.plan.arguments);
      if normalised == None {
        return None, r;
      }
      var arguments := normalised.value;
      if Lookup(arguments, CustomerId) != JInt(s.request.context.customerId) {
        return Some(FailExecution(s, OwnershipViolation)), r;
      }
      var write := OperationOf(tool) == Write;
      if write {
        if s.slots.actionId == None {
          return Some(FailExecution(s, PolicyDenied)), r;
        }
        if fate.reach == AuditRefuses {
          return None, r;
        }
        audit := audit + [AuditEvent(Attempted, KeyOf(s))];
      }
      var called := fate.reach in {Breaks, Runs};
      var error := Some(ToolFailure);
      if called {
        error := AttemptOnce(Call(tool, arguments, s.request.context, KeyOf(s)), fate);
      }
      var s1 := if error.Some? then FailExecution(s, error.value) else s.(progress := s.progress.(execution := ExecutedOk, error := None));
      if write {
        var status := if error == None then Success else if error == Some(UnknownWriteOutcome) then OutcomeUnknown else Failure;
        if fate.auditFails {
          return None, r;
        }
        audit := audit + [AuditEvent(status, KeyOf(s))];
      }
      result := Some(s1);
    }

    /** `execute_confirmed`: the action takes the outcome. */
    method ExecuteConfirmed(s: State, fate: Fate) returns (result: Option<State>, ghost r: ToolRun)
      requires DB.UniqueReceipts(db.receipts)
      modifies this
      ensures r == Agent.ExecuteConfirmed(s, old(db), fate) && result == r.state && db == r.db
      ensures TrailTells(old(audit), audit, s, r)
    {
      ghost var inner;
      result, inner := ExecuteTool(s, fate);
      r := Agent.ExecuteConfirmed(s, old(db), fate);
      if result.Some? && s.slots.pending.Some? {
        var final := if result.value.progress.execution == ExecutedOk then Executed else Failed;
        result := Some(result.value.(slots := result.value.slots.(pending := Some(s.slots.pending.value.(status := final)))));
      }
    }
  }

  // ------------------------------------------------------------------------------- many executions

  /** Every outcome in the trail stands right behind the attempt of its own action. */
  ghost predicate OutcomesFollowAttempts(trail: seq<AuditEvent>) {
    forall i | 0 <= i < |trail| && trail[i].status != Attempted ::
      i > 0 && trail[i - 1] == AuditEvent(Attempted, trail[i].actionId)
  }

  /** How often actions were attempted. */
  function Attempts(trail: seq<AuditEvent>): nat {
    if trail == [] then 0
    else
      var before := Attempts(trail[..|trail| - 1]);
      if trail[|trail| - 1].status == Attempted then before + 1 else before
  }

  function Effects(runs: seq<ToolRun>): nat {
    if runs == [] then 0
    else
      var before := Effects(runs[..|runs| - 1]);
      if runs[|runs| - 1].wrote then before + 1 else before
  }

  lemma AttemptsMore(trail: seq<AuditEvent>, e: AuditEvent)
    ensures Attempts(trail + [e]) == Attempts(trail) + if e.status == Attempted then 1 else 0
  {
    assert (trail + [e])[..|trail|] == trail;
  }

  /** One execution keeps the trail in order, and attempts at least what it effects. */
  lemma TrailKept(before: seq<AuditEvent>, after: seq<AuditEvent>, s: State, r: ToolRun)
    requires OutcomesFollowAttempts(before) && TrailTells(before, after, s, r)
    ensures before <= after && OutcomesFollowAttempts(after)
    ensures Attempts(after) >= Attempts(before) + if r.wrote then 1 else 0
    ensures r.wrote ==> |after| > |before| && after[|before|] == AuditEvent(Attempted, KeyOf(s))
  {
    var attempt := AuditEvent(Attempted, KeyOf(s));
    AttemptsMore(before, attempt);
    if r.state.Some? {
      AttemptsMore(before + [attempt], AuditEvent(Told(r.state.value), KeyOf(s)));
    }
  }

  ghost predicate HasAttempt(trail: seq<AuditEvent>, actionId: string) {
    AuditEvent(Attempted, actionId) in trail
  }

  lemma AttemptStays(trail: seq<AuditEvent>, later: seq<AuditEvent>, actionId: string)
    requires trail <= later && HasAttempt(trail, actionId)
    ensures HasAttempt(later, actionId)
  {
    var i :| 0 <= i < |trail| && trail[i] == AuditEvent(Attempted, actionId);
    assert later[i] == trail[i];
  }

  /** Whatever is executed, one after the other, and however it ends: every change of business rows is
      in the trail as an attempt of its own action, with no more changes than attempts; every recorded
      outcome follows the attempt it belongs to; and the schema's constraints still hold. */
  method ExecuteAll(e: ToolExecutor, states: seq<State>, fates: seq<Fate>) returns (ghost runs: seq<ToolRun>)
    requires |states| == |fates| && DB.Consistent(e.db) && e.audit == []
    modifies e
    ensures |runs| == |states| && DB.Consistent(e.db)
    ensures OutcomesFollowAttempts(e.audit) && Effects(runs) <= Attempts(e.audit)
    ensures forall i | 0 <= i < |runs| && runs[i].wrote :: HasAttempt(e.audit, KeyOf(states[i]))
  {
    runs := [];
    for n := 0 to |states|
      invariant |runs| == n && DB.Consistent(e.db)
      invariant OutcomesFollowAttempts(e.audit) && Effects(runs) <= Attempts(e.audit)
      invariant forall i | 0 <= i < n && runs[i].wrote :: HasAttempt(e.audit, KeyOf(states[i]))
    {
      ghost var db, trail := e.db, e.audit;
      ghost var r;
      var result;
      result, r := e.ExecuteConfirmed(states[n], fates[n]);
      Safety.ExecuteConfirmedRan(states[n], db, fates[n]);
      Safety.WroteExact(states[n], db, r);
      TrailKept(trail, e.audit, states[n], r);
      forall i | 0 <= i < n && runs[i].wrote ensures HasAttempt(e.audit, KeyOf(states[i])) {
        AttemptStays(trail, e.audit, KeyOf(states[i]));
      }
      assert (runs + [r])[..n] == runs;
      runs := runs + [r];
    }
  }
}
