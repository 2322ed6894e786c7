/** What every reachable conversation keeps: where a confirmed action may be, what was captured, what
    was called, and which actions can never run again. */
module Safety {
  import opened Domain
  import opened PendingPayload
  import opened Compiler
  import opened Agent
  import opened Graph
  import DB = Database
  import TX = Transactions

  // --------------------------------------------------------------------- invariant of one state

  /** The action is the one created under its serial, but for its status. */
  ghost predicate Known(w: World, a: Action) {
    a.serial < |w.created| && a == w.created[a.serial].action.(status := a.status)
  }

  function Suspension(s: State): Option<Action> {
    if s.slots.suspended.Some? then s.slots.suspended.value.action else None
  }

  /** The slots: the pending action carries the state's action id, a suspended one is waiting and is
      another action under another id. */
  ghost predicate StateOk(w: World, s: State) {
    && (s.slots.pending.Some? ==> Known(w, s.slots.pending.value) && s.slots.actionId == Some(s.slots.pending.value.id))
    && (Suspension(s).Some? ==>
          var a := Suspension(s).value;
          Known(w, a) && a.status == Waiting && a.id in w.usedIds && s.slots.actionId != Some(a.id)
          && (s.slots.pending.Some? ==> s.slots.pending.value.serial != a.serial))
    && (s.slots.actionId.Some? ==> s.slots.actionId.value in w.usedIds)
  }

  // ----------------------------------------------------------------- invariant of the node reached

  /** The user said yes to this action in this turn, in time, and it is theirs. */
  ghost predicate ConfirmedNow(cfg: Config, w: World, a: Action, s: State) {
    exists k :: 0 <= k < |w.confirms| && ConfirmsNow(cfg, w.turn, a, s, w.confirms[k])
  }

  predicate ConfirmsNow(cfg: Config, turn: nat, a: Action, s: State, y: Confirm) {
    && y == Confirm(a.serial, turn, y.at, s.request.context, SaysYes)
    && !IsExpired(a, y.at, cfg.ttl) && BelongsTo(a, s.request.context)
  }

  ghost predicate ConfirmedPath(cfg: Config, w: World, s: State) {
    && s.slots.pending.Some? && s.slots.pending.value.status == Confirmed && s.progress.confirmation == ConfirmedReply
    && ConfirmedNow(cfg, w, s.slots.pending.value, s)
  }

  /** A request of this turn, with no action pending. */
  predicate FreshPath(s: State) {
    s.slots.pending == None && s.progress.confirmation != ConfirmedReply && !s.plan.restored
  }

  /** Under the semantic contract, a cancellation or refund selected in this turn is in the user's
      own words. */
  ghost predicate Said(cfg: Config, s: State) {
    cfg.contract == SemanticContract && s.progress.error == None && DestructiveTool(s.plan.tool) ==>
      UserSaid(s.plan.tool.value, s.plan.arguments, s.request.text, cfg.lex)
  }

  predicate ValidCall(s: State) {
    s.progress.error == None && s.plan.tool.Some? ==> Normalise(s.plan.tool.value, s.plan.arguments) == Some(s.plan.arguments)
  }

  predicate Judged(s: State) {
    s.progress.error == None ==>
      s.plan.tool.Some? && s.slots.actionId.Some? && s.plan.policy == Some(EvaluateDefaultPolicy(s.plan.tool.value, s.request.context, s.plan.arguments))
  }

  predicate Undecided(s: State) {
    (s.slots.pending == None || s.slots.pending.value.status == Waiting) && s.progress.confirmation != ConfirmedReply && !s.plan.restored
  }

  ghost predicate NodeOk(cfg: Config, w: World, n: Node, s: State) {
    match n
    case AtSecurityBoundary | AtRetrieveMemory | AtCheckPending =>
      s.progress.confirmation == Unset && !s.plan.restored && !s.work.interruptionPending && s.progress.error == None
    case AtRestorePending | AtRevalidation => ConfirmedPath(cfg, w, s)
    case AtRestoreSuspended => s.slots.pending == None
    case AtResumeWorkflow => FreshPath(s)
    case AtUnderstand => Undecided(s) && (s.slots.pending.Some? ==> s.work.interruptionPending)
    case AtInterruption => Undecided(s) && (cfg.contract == SemanticContract ==> s.plan.semantic.Some?)
    case AtCompile => ConfirmedPath(cfg, w, s) || (FreshPath(s) && (cfg.contract == SemanticContract ==> s.plan.semantic.Some?))
    case AtSelect | AtValidate => ConfirmedPath(cfg, w, s) || (FreshPath(s) && Said(cfg, s))
    case AtEvaluatePolicy => FreshPath(s) && Said(cfg, s) && ValidCall(s)
    case AtInspectRisk => FreshPath(s) && Said(cfg, s) && ValidCall(s) && Judged(s)
    case AtCreatePending | AtExecuteTool | AtExecuteHuman =>
      && FreshPath(s) && Said(cfg, s) && ValidCall(s) && Judged(s) && s.progress.error == None
      && s.plan.policy.value.outcome == (match n case AtCreatePending => RequireConfirmation case AtExecuteTool => Allow case _ => RequireHuman)
    case AtExecuteConfirmed =>
      && ConfirmedPath(cfg, w, s)
      && var a := s.slots.pending.value;
         && s.plan.tool == Some(a.tool) && s.plan.arguments == a.arguments
         && SamePolicyContext(a.inputs.context, s.request.context)
         && Lookup(a.arguments, CustomerId) == JInt(s.request.context.customerId)
    case _ => true
  }

  /** Past the start of a turn, what is pending or suspended was created in an earlier one. */
  ghost predicate Older(w: World, n: Node, s: State) {
    n !in {Idle, AtRespond} ==>
      && (s.slots.pending.Some? && s.slots.pending.value.serial < |w.created| ==> w.created[s.slots.pending.value.serial].turn < w.turn)
      && (Suspension(s).Some? && Suspension(s).value.serial < |w.created| ==> w.created[Suspension(s).value.serial].turn < w.turn)
  }

  /** The actions that can still come to be called from here, without a fall back. */
  function Armed(n: Node, s: State): set<nat> {
    (if s.slots.pending.Some? && (s.slots.pending.value.status == Waiting
        || (s.slots.pending.value.status == Confirmed && s.progress.confirmation == ConfirmedReply
            && n in {AtRestorePending, AtCompile, AtSelect, AtValidate, AtRevalidation, AtExecuteConfirmed}))
     then {s.slots.pending.value.serial} else {})
    + SnapshotSerials(s.slots.suspended)
  }

  // ------------------------------------------------------------------------ invariant of the record

  ghost predicate CreationOk(cfg: Config, w: World, i: nat)
    requires i < |w.created|
  {
    var a := w.created[i].action;
    && a.serial == i && a.status == Waiting && a.tool in {CancelOrder, Tool.RequestRefund}
    && Normalise(a.tool, a.arguments) == Some(a.arguments)
    && a.inputs.tool == a.tool && a.inputs.arguments == a.arguments && BelongsTo(a, a.inputs.context)
    && a.id in w.usedIds && w.created[i].turn <= w.latest
    && (cfg.contract == SemanticContract ==> UserSaid(a.tool, a.arguments, w.created[i].text, cfg.lex))
  }

  /** This call ran a captured action, as captured, on a confirmation given in its own turn. */
  ghost predicate Authorised(cfg: Config, w: World, c: Called) {
    && c.serial.Some? && c.serial.value < |w.created|
    && var m := w.created[c.serial.value];
       && m.turn < c.turn
       && c.call.tool == m.action.tool && c.call.arguments == m.action.arguments && c.call.key == m.action.id
       && SamePolicyContext(m.action.inputs.context, c.call.context) && BelongsTo(m.action, c.call.context)
       && exists k :: 0 <= k < |w.confirms| && YesTo(cfg, m.action, w.confirms[k], c)
  }

  predicate YesTo(cfg: Config, a: Action, y: Confirm, c: Called) {
    y == Confirm(a.serial, c.turn, y.at, c.call.context, SaysYes) && y.at - a.createdAt < cfg.ttl
  }

  function ScopeOfCall(c: Called): DB.Scope {
    DB.Scope(c.call.context.tenantId, c.call.context.actorId, c.call.tool, c.call.key)
  }

  function RequestOfCall(c: Called): DB.Request {
    RequestOf(c.call.tool, c.call.context, c.call.key, c.call.arguments)
  }

  /** The receipt that says this very request has been carried out. */
  ghost predicate Receipted(db: DB.Db, q: DB.Request) {
    exists k :: k in db.receipts && db.receipts[k].scope == DB.ScopeOf(q) && db.receipts[k].payload == q.payload
  }

  ghost predicate CallOk(cfg: Config, w: World, c: Called) {
    && (if DestructiveTool(Some(c.call.tool)) then Authorised(cfg, w, c)
        else c.call.tool in {CreateSupportTicket, EscalateToHuman} && c.serial == None)
    && (c.wrote ==> DestructiveTool(Some(c.call.tool)) && Receipted(w.db, RequestOfCall(c)))
    && (!w.fellBack && c.serial.Some? ==> c.serial.value in w.spent)
  }

  ghost predicate Records(cfg: Config, w: World) {
    && DB.Consistent(w.db)
    && (forall i | 0 <= i < |w.created| :: CreationOk(cfg, w, i))
    && (forall k | 0 <= k < |w.calls| :: CallOk(cfg, w, w.calls[k]))
    && (forall j, k | 0 <= j < k < |w.calls| && w.calls[j].wrote && w.calls[k].wrote :: ScopeOfCall(w.calls[j]) != ScopeOfCall(w.calls[k]))
    && (!w.fellBack ==> forall j, k | 0 <= j < k < |w.calls| && w.calls[j].serial.Some? :: w.calls[j].serial != w.calls[k].serial)
    && (forall i | i in w.spent :: i < |w.created|)
  }

  ghost predicate Inv(cfg: Config, w: World) {
    && Records(cfg, w) && w.turn <= w.latest
    && StateOk(w, w.state) && (forall k | 0 <= k < |w.checkpoints| :: StateOk(w, w.checkpoints[k]))
    && NodeOk(cfg, w, w.node, w.state) && Older(w, w.node, w.state)
    && (!w.fellBack ==> Armed(w.node, w.state) !! w.spent)
  }

  // ---------------------------------------------------------------------------- moves of the graph

  ghost predicate Here(cfg: Config, w: World, n: Node) {
    w.node == n && w.turn <= w.latest && StateOk(w, w.state) && NodeOk(cfg, w, n, w.state) && Older(w, n, w.state)
  }

  /** What a node that touches no record has to give. */
  ghost predicate GoodMove(cfg: Config, w: World, s: State) {
    var n := After(w.node, s);
    StateOk(w, s) && NodeOk(cfg, w, n, s) && Older(w, n, s) && Armed(n, s) <= Armed(w.node, w.state)
  }

  lemma ArmedIsLive(n: Node, s: State)
    ensures Armed(n, s) <= Live(s)
  {
  }

  lemma LiveIsKnown(w: World, s: State)
    requires StateOk(w, s)
    ensures forall i | i in Live(s) :: i < |w.created|
  {
  }

  /** `w'` is `w` after a step that made no call: the records may only have grown. */
  ghost predicate Extends(cfg: Config, w: World, w': World) {
    && w.created <= w'.created && w.confirms <= w'.confirms && w'.calls == w.calls
    && w'.latest >= w.latest && w.usedIds <= w'.usedIds && w.fellBack == w'.fellBack && w.spent <= w'.spent
    && DB.Consistent(w'.db) && TX.Grows(w.db, w'.db)
    && (forall i | |w.created| <= i < |w'.created| :: CreationOk(cfg, w', i))
    && (forall i | i in w'.spent :: i < |w'.created|)
  }

  lemma ReceiptStays(db: DB.Db, db': DB.Db, q: DB.Request)
    requires TX.Grows(db, db') && Receipted(db, q)
    ensures Receipted(db', q)
  {
    var k :| k in db.receipts && db.receipts[k].scope == DB.ScopeOf(q) && db.receipts[k].payload == q.payload;
    assert db'.receipts[k] == db.receipts[k];
  }

  lemma CallStays(cfg: Config, w: World, w': World, c: Called)
    requires CallOk(cfg, w, c) && w.created <= w'.created && w.confirms <= w'.confirms && w.spent <= w'.spent
    requires TX.Grows(w.db, w'.db) && (w.fellBack ==> w'.fellBack)
    ensures CallOk(cfg, w', c)
  {
    if DestructiveTool(Some(c.call.tool)) {
      var k :| 0 <= k < |w.confirms| && YesTo(cfg, w.created[c.serial.value].action, w.confirms[k], c);
      assert w'.confirms[k] == w.confirms[k];
    }
    if c.wrote {
      ReceiptStays(w.db, w'.db, RequestOfCall(c));
    }
  }

  lemma RecordsKept(cfg: Config, w: World, w': World)
    requires Records(cfg, w) && Extends(cfg, w, w')
    ensures Records(cfg, w')
  {
    forall i | 0 <= i < |w'.created| ensures CreationOk(cfg, w', i) {
      if i < |w.created| {
        assert CreationOk(cfg, w, i);
      }
    }
    forall k | 0 <= k < |w'.calls| ensures CallOk(cfg, w', w'.calls[k]) {
      CallStays(cfg, w, w', w.calls[k]);
    }
  }

  lemma StatesKept(w: World, w': World)
    requires forall k | 0 <= k < |w.checkpoints| :: StateOk(w, w.checkpoints[k])
    requires w.created <= w'.created && w.usedIds <= w'.usedIds
    ensures forall k | 0 <= k < |w.checkpoints| :: StateOk(w', w.checkpoints[k])
  {
    forall k | 0 <= k < |w.checkpoints| ensures StateOk(w', w.checkpoints[k]) {
      assert StateOk(w, w.checkpoints[k]);
    }
  }

  /** A node that returned a good state keeps the invariant. */
  lemma ReturnKeeps(cfg: Config, w: World, w': World)
    requires Inv(cfg, w) && Extends(cfg, w, w')
    requires w'.checkpoints == w.checkpoints + [w'.state] && w'.turn <= w'.latest
    requires w'.spent == w.spent + (Live(w.state) - Live(w'.state))
    requires StateOk(w', w'.state) && NodeOk(cfg, w', w'.node, w'.state) && Older(w', w'.node, w'.state)
    requires forall i | i in Armed(w'.node, w'.state) :: i in Armed(w.node, w.state) || i >= |w.created|
    ensures Inv(cfg, w')
  {
    RecordsKept(cfg, w, w');
    StatesKept(w, w');
    ArmedIsLive(w'.node, w'.state);
  }

  lemma MoveExtends(cfg: Config, w: World, s: State)
    requires Records(cfg, w) && StateOk(w, w.state)
    ensures Extends(cfg, w, Move(w, s))
  {
    LiveIsKnown(w, w.state);
  }

  lemma MoveKeeps(cfg: Config, w: World, s: State)
    requires Inv(cfg, w) && GoodMove(cfg, w, s)
    ensures Inv(cfg, Move(w, s))
  {
    MoveExtends(cfg, w, s);
    ReturnKeeps(cfg, w, Move(w, s));
  }

  lemma LoadContextGood(cfg: Config, w: World)
    requires Here(cfg, w, AtLoadContext)
    ensures GoodMove(cfg, w, LoadContext(w.state))
  {
  }

  lemma SecurityGood(cfg: Config, w: World)
    requires Here(cfg, w, AtSecurityBoundary)
    ensures GoodMove(cfg, w, SecurityBoundary(w.state))
  {
    var s := w.state;
    match s.request.message.signal
    case NoSignal =>
    case OverrideAttempt =>
      if s.slots.pending.Some? && s.slots.pending.value.status == Waiting {
      }
    case CrossCustomer =>
  }

  lemma RestorePendingGood(cfg: Config, w: World)
    requires Here(cfg, w, AtRestorePending)
    ensures GoodMove(cfg, w, RestorePending(w.state))
  {
  }

  lemma RestoreSuspendedGood(cfg: Config, w: World)
    requires Here(cfg, w, AtRestoreSuspended)
    ensures GoodMove(cfg, w, RestoreSuspended(w.state))
  {
    var s := w.state;
    if s.slots.suspended.Some? {
      if s.slots.suspended.value.action.Some? {
        if BelongsTo(s.slots.suspended.value.action.value, s.request.context) {
        }
      }
    }
  }

  lemma ResumeWorkflowPlans(s: State)
    ensures var t := ResumeWorkflow(s);
            && t.slots == s.slots && t.request == s.request && t.progress == s.progress && t.plan.restored == s.plan.restored
            && (t.work.resumption == ResumedAll ==> t.plan.semantic.Some?)
  {
    if !s.work.active || s.work.decision == None || s.work.missing == [] {
    } else if OrderId in s.work.missing && s.request.message.replyOrder == None {
    } else {
    }
  }

  lemma ResumeWorkflowGood(cfg: Config, w: World, t: State)
    requires Here(cfg, w, AtResumeWorkflow)
    requires t.slots == w.state.slots && t.request == w.state.request && t.progress == w.state.progress
    requires t.plan.restored == w.state.plan.restored && (t.work.resumption == ResumedAll ==> t.plan.semantic.Some?)
    ensures GoodMove(cfg, w, t)
  {
  }

  /** The nodes that only plan: slots, request and the standing of the turn are kept. */
  predicate OnlyPlans(s: State, t: State) {
    && t.slots == s.slots && t.request == s.request && t.progress.confirmation == s.progress.confirmation
    && t.plan.restored == s.plan.restored && t.work.interruptionPending == s.work.interruptionPending
  }

  lemma PathKept(cfg: Config, w: World, t: State)
    requires OnlyPlans(w.state, t) && StateOk(w, w.state)
    ensures StateOk(w, t)
    ensures ConfirmedPath(cfg, w, t) <==> ConfirmedPath(cfg, w, w.state)
    ensures FreshPath(t) <==> FreshPath(w.state)
    ensures Undecided(t) <==> Undecided(w.state)
  {
  }

  lemma UnderstandPlans(s: State, contract: Contract, p: Proposal)
    ensures var t := UnderstandRequest(s, contract, p);
            OnlyPlans(s, t) && (t.progress.error == None && contract == SemanticContract ==> t.plan.semantic.Some?)
  {
    if Replacement(s).Some? {
    } else if s.request.message.memorySummary {
    } else if s.request.message.conflicting {
    } else if p.SemanticProposal? && contract == SemanticContract {
    } else if p.DirectProposal? && contract == DirectContract {
    }
  }

  lemma UnderstandGood(cfg: Config, w: World, t: State)
    requires Here(cfg, w, AtUnderstand) && OnlyPlans(w.state, t)
    requires t.progress.error == None && cfg.contract == SemanticContract ==> t.plan.semantic.Some?
    ensures GoodMove(cfg, w, t)
  {
    PathKept(cfg, w, t);
  }

  lemma InterruptionGood(cfg: Config, w: World)
    requires Here(cfg, w, AtInterruption)
    ensures GoodMove(cfg, w, HandleInterruption(w.state))
  {
  }

  lemma CompilePlans(cfg: Config, s: State, latest: Option<int>)
    ensures var t := CompileDecision(s, latest, cfg.lex);
            OnlyPlans(s, t) && (!s.plan.restored && s.plan.semantic.Some? ==> Said(cfg, t))
  {
    if s.plan.semantic.Some? {
      NoInventedOrder(s.plan.semantic.value, s.request.context, s.request.text, latest, cfg.lex);
    }
  }

  lemma CompileGood(cfg: Config, w: World, t: State)
    requires Here(cfg, w, AtCompile) && OnlyPlans(w.state, t)
    requires !w.state.plan.restored && w.state.plan.semantic.Some? ==> Said(cfg, t)
    ensures GoodMove(cfg, w, t)
  {
    PathKept(cfg, w, t);
  }

  lemma SelectPlans(cfg: Config, s: State)
    ensures var t := SelectTool(s); OnlyPlans(s, t) && (Said(cfg, s) ==> Said(cfg, t))
  {
    if s.progress.error.Some? {
    } else if s.plan.requestType in {Informational, Unclear, KnowledgeOnly} || s.plan.intent in {MemoryRemember, MemoryForget} {
    } else if s.plan.tool == None {
    }
  }

  lemma SelectGood(cfg: Config, w: World, t: State)
    requires Here(cfg, w, AtSelect) && OnlyPlans(w.state, t)
    requires Said(cfg, w.state) ==> Said(cfg, t)
    ensures GoodMove(cfg, w, t)
  {
    PathKept(cfg, w, t);
  }

  /** Validation puts in the authenticated customer and changes nothing the user said. */
  lemma ValidatePlans(cfg: Config, s: State)
    ensures var t := ValidateTool(s); OnlyPlans(s, t) && (Said(cfg, s) ==> Said(cfg, t)) && ValidCall(t)
  {
    ValidateExact(s);
    var t := ValidateTool(s);
    if t.progress.error == None && t.plan.tool.Some? && DestructiveTool(t.plan.tool) {
      NormaliseKeepsOrder(t.plan.tool.value, s.plan.arguments, s.request.context.customerId);
    }
  }

  /** Without an error, the arguments are the validated ones, and validating them again changes
      nothing. */
  lemma ValidateExact(s: State)
    ensures var t := ValidateTool(s);
            && OnlyPlans(s, t) && t.plan.tool == s.plan.tool
            && (t.progress.error == None ==> s.progress.error == None)
            && (t.progress.error == None && t.plan.tool.Some? ==>
                  && Normalise(t.plan.tool.value, s.plan.arguments[CustomerId := JInt(s.request.context.customerId)]) == Some(t.plan.arguments)
                  && Normalise(t.plan.tool.value, t.plan.arguments) == Some(t.plan.arguments))
  {
    if s.plan.tool.Some? && s.progress.error == None {
      var tool := s.plan.tool.value;
      var raw := s.plan.arguments[CustomerId := JInt(s.request.context.customerId)];
      if Normalise(tool, raw).Some? {
        NormaliseIdempotent(tool, raw, map[]);
      }
    }
  }

  lemma NormaliseKeepsOrder(tool: Tool, arguments: Arguments, customer: int)
    requires DestructiveTool(Some(tool)) && Normalise(tool, arguments[CustomerId := JInt(customer)]).Some?
    ensures var n := Normalise(tool, arguments[CustomerId := JInt(customer)]).value;
            Lookup(n, OrderId) == Lookup(arguments, OrderId) && (tool == Tool.RequestRefund ==> Lookup(n, Reason) == Lookup(arguments, Reason))
  {
    assert OrderId in InputModel(tool);
  }

  lemma ValidateGood(cfg: Config, w: World, t: State)
    requires Here(cfg, w, AtValidate) && OnlyPlans(w.state, t)
    requires Said(cfg, w.state) ==> Said(cfg, t)
    requires ValidCall(t)
    ensures GoodMove(cfg, w, t)
  {
    PathKept(cfg, w, t);
  }

  // --------------------------------------------------------------- nodes that write in the records

  /** What checking the pending action does. */
  predicate Checked(s: State, t: State, now: int, ttl: int) {
    var a := s.slots.pending;
    && t.request == s.request && t.plan == s.plan
    && t.slots == s.slots.(pending := t.slots.pending)
    && t.progress.confirmation != Unset
    && (t.progress.confirmation == ConfirmedReply <==>
          a.Some? && a.value.status == Waiting && s.request.message.parsed == SaysYes
          && !IsExpired(a.value, now, ttl) && BelongsTo(a.value, s.request.context))
    && (t.progress.confirmation == ConfirmedReply ==> t.slots.pending == Some(a.value.(status := Confirmed)))
    && (t.slots.pending.Some? ==>
          a.Some? && t.slots.pending.value == a.value.(status := t.slots.pending.value.status)
          && (t.slots.pending.value.status == Waiting ==> a.value.status == Waiting))
    && (t.progress.confirmation in {Normal, ResumeSuspended} ==> t.slots.pending == None)
    && (t.progress.confirmation == InspectInterruption ==>
          t.work.interruptionPending && t.slots.pending.Some? && t.slots.pending.value.status == Waiting)
  }

  /** Only a waiting action, not expired, of this very context, is confirmed, and only by a yes. */
  lemma CheckPendingExact(s: State, now: int, ttl: int)
    requires s.progress.confirmation == Unset
    ensures Checked(s, CheckPending(s, now, ttl), now, ttl)
  {
  }

  lemma CheckPendingKeeps(cfg: Config, w: World, ch: Choice)
    requires Inv(cfg, w) && w.node == AtCheckPending
    ensures Inv(cfg, RunNode(cfg, w, ch))
  {
    var t := CheckPending(w.state, w.now, cfg.ttl);
    CheckPendingExact(w.state, w.now, cfg.ttl);
    MoveExtends(cfg, w, t);
    CheckPendingIs(cfg, w, ch);
    CheckPendingStep(cfg, w, Move(w, t).(confirms := w.confirms + NewConfirms(w, t)), t);
  }

  lemma CheckPendingIs(cfg: Config, w: World, ch: Choice)
    requires w.node == AtCheckPending
    ensures var t := CheckPending(w.state, w.now, cfg.ttl);
            RunNode(cfg, w, ch) == Move(w, t).(confirms := w.confirms + NewConfirms(w, t))
  {
  }

  lemma CheckPendingStep(cfg: Config, w: World, w': World, t: State)
    requires Inv(cfg, w) && w.node == AtCheckPending && Checked(w.state, t, w.now, cfg.ttl)
    requires Extends(cfg, w, Move(w, t))
    requires w' == Move(w, t).(confirms := w'.confirms)
    requires w'.confirms == if t.progress.confirmation == ConfirmedReply && t.slots.pending.Some?
      then w.confirms + [Confirm(t.slots.pending.value.serial, w.turn, w.now, w.state.request.context, w.state.request.message.parsed)]
      else w.confirms
    ensures Inv(cfg, w')
  {
    assert StateOk(w', t);
    CheckPendingNode(cfg, w, w', t);
    ReturnKeeps(cfg, w, w');
  }

  lemma CheckPendingNode(cfg: Config, w: World, w': World, t: State)
    requires Here(cfg, w, AtCheckPending) && Checked(w.state, t, w.now, cfg.ttl)
    requires w' == Move(w, t).(confirms := w'.confirms)
    requires w'.confirms == if t.progress.confirmation == ConfirmedReply && t.slots.pending.Some?
      then w.confirms + [Confirm(t.slots.pending.value.serial, w.turn, w.now, w.state.request.context, w.state.request.message.parsed)]
      else w.confirms
    ensures NodeOk(cfg, w', w'.node, t) && Older(w', w'.node, t) && Armed(w'.node, t) <= Armed(w.node, w.state)
  {
    if t.progress.confirmation == ConfirmedReply {
      assert ConfirmsNow(cfg, w'.turn, t.slots.pending.value, t, w'.confirms[|w.confirms|]);
    }
  }

  /** The default policy, outcome by outcome. */
  lemma PolicyExact(tool: Tool, c: Context, arguments: Arguments)
    ensures var d := EvaluateDefaultPolicy(tool, c, arguments);
            var scoped := !tool.Unregistered? && c.customerId > 0 && Lookup(arguments, CustomerId) in {JNull, JInt(c.customerId)};
            && (d.outcome == Allow <==> scoped && Domain.RiskLevel(tool) <= 1)
            && (d.outcome == RequireConfirmation <==> scoped && DestructiveTool(Some(tool)))
            && (d.outcome == RequireHuman <==> scoped && tool == EscalateToHuman)
  {
  }

  predicate Evaluated(s: State, t: State, newId: string) {
    && t.request == s.request && t.progress.confirmation == s.progress.confirmation
    && t.plan.tool == s.plan.tool && t.plan.arguments == s.plan.arguments && t.plan.restored == s.plan.restored
    && t.slots == s.slots.(actionId := t.slots.actionId)
    && (s.slots.actionId.Some? ==> t.slots.actionId == s.slots.actionId)
    && (s.slots.actionId == None ==> t.slots.actionId in {None, Some(newId)})
    && (t.progress.error == None ==> s.progress.error == None && Judged(t))
  }

  /** The action id is kept when there is one; without an error the decision is the policy's, and a
      denial or a failing engine is an error. */
  lemma EvaluatePolicyExact(s: State, newId: string, fails: bool)
    ensures Evaluated(s, EvaluatePolicy(s, newId, fails), newId)
    ensures EvaluatePolicy(s, newId, fails).progress.error == None <==>
            s.progress.error == None && s.plan.tool.Some? && !fails
            && EvaluateDefaultPolicy(s.plan.tool.value, s.request.context, s.plan.arguments).outcome != Deny
  {
    if s.plan.tool == None || fails {
    } else if EvaluateDefaultPolicy(s.plan.tool.value, s.request.context, s.plan.arguments).outcome == Deny {
    }
  }

  lemma EvaluatePolicyKeeps(cfg: Config, w: World, ch: Choice)
    requires Inv(cfg, w) && w.node == AtEvaluatePolicy && ch.newId !in w.usedIds
    ensures Inv(cfg, RunNode(cfg, w, ch))
  {
    var t := EvaluatePolicy(w.state, ch.newId, ch.policyFails);
    EvaluatePolicyExact(w.state, ch.newId, ch.policyFails);
    MoveExtends(cfg, w, t);
    EvaluatePolicyIs(cfg, w, ch);
    EvaluatePolicyStep(cfg, w, Move(w, t).(usedIds := w.usedIds + {ch.newId}), t, ch.newId);
  }

  lemma EvaluatePolicyIs(cfg: Config, w: World, ch: Choice)
    requires w.node == AtEvaluatePolicy
    ensures RunNode(cfg, w, ch) == Move(w, EvaluatePolicy(w.state, ch.newId, ch.policyFails)).(usedIds := w.usedIds + {ch.newId})
  {
  }

  lemma EvaluatePolicyStep(cfg: Config, w: World, w': World, t: State, newId: string)
    requires Inv(cfg, w) && w.node == AtEvaluatePolicy && newId !in w.usedIds && Evaluated(w.state, t, newId)
    requires Extends(cfg, w, Move(w, t)) && w' == Move(w, t).(usedIds := w.usedIds + {newId})
    ensures Inv(cfg, w')
  {
    assert Extends(cfg, w, w');
    ReturnKeeps(cfg, w, w');
  }

  lemma InspectRiskGood(cfg: Config, w: World)
    requires Here(cfg, w, AtInspectRisk)
    ensures GoodMove(cfg, w, w.state)
  {
  }

  /** The action captured is the call that was validated and judged, in the current context. */
  lemma CaptureExact(cfg: Config, w: World, w': World, ch: Choice)
    requires Here(cfg, w, AtCreatePending) && w' == RunNode(cfg, w, ch)
    ensures CreatesPending(w.state)
    ensures w'.created == w.created + [Creation(w'.state.slots.pending.value, w.turn, w.state.request.text)]
    ensures CreationOk(cfg, w', |w.created|)
    ensures w'.state == w.state.(slots := w.state.slots.(pending := w'.state.slots.pending),
                                 progress := w.state.progress.(execution := AwaitingConfirmation))
    ensures w'.state.slots.pending.value.id == w.state.slots.actionId.value
    ensures w'.state.slots.pending.value.createdAt == w.now
    ensures w'.state.slots.pending.value.arguments == w.state.plan.arguments && Some(w'.state.slots.pending.value.tool) == w.state.plan.tool
  {
    PolicyExact(w.state.plan.tool.value, w.state.request.context, w.state.plan.arguments);
  }

  lemma CreatePendingKeeps(cfg: Config, w: World, ch: Choice)
    requires Inv(cfg, w) && w.node == AtCreatePending
    ensures Inv(cfg, RunNode(cfg, w, ch))
  {
    var w' := RunNode(cfg, w, ch);
    CaptureExact(cfg, w, w', ch);
    CreatePendingStep(cfg, w, w');
  }

  lemma CreatePendingStep(cfg: Config, w: World, w': World)
    requires Inv(cfg, w) && w.node == AtCreatePending && w'.state.slots.pending.Some?
    requires w'.state == w.state.(slots := w.state.slots.(pending := w'.state.slots.pending), progress := w'.state.progress)
    requires w'.created == w.created + [Creation(w'.state.slots.pending.value, w.turn, w.state.request.text)]
    requires CreationOk(cfg, w', |w.created|)
    requires w'.state.slots.actionId == Some(w'.state.slots.pending.value.id)
    requires w.usedIds <= w'.usedIds && w' == Move(w, w'.state).(usedIds := w'.usedIds, created := w'.created)
    ensures Inv(cfg, w')
  {
    assert w.created <= w'.created && |w'.created| == |w.created| + 1;
    assert Extends(cfg, w, w') by {
      CreatePendingExtends(cfg, w, w');
    }
    CreatedHere(cfg, w, w');
    ReturnKeeps(cfg, w, w');
  }

  lemma CreatedHere(cfg: Config, w: World, w': World)
    requires StateOk(w, w.state) && w.node == AtCreatePending && w'.state.slots.pending.Some?
    requires w'.state == w.state.(slots := w.state.slots.(pending := w'.state.slots.pending), progress := w'.state.progress)
    requires w'.created == w.created + [Creation(w'.state.slots.pending.value, w.turn, w.state.request.text)]
    requires CreationOk(cfg, w', |w.created|) && w'.state.slots.actionId == Some(w'.state.slots.pending.value.id)
    requires w.usedIds <= w'.usedIds && w'.node == After(AtCreatePending, w'.state)
    ensures StateOk(w', w'.state) && NodeOk(cfg, w', w'.node, w'.state) && Older(w', w'.node, w'.state)
    ensures forall i | i in Armed(w'.node, w'.state) :: i in Armed(w.node, w.state) || i >= |w.created|
  {
  }

  lemma CreatePendingExtends(cfg: Config, w: World, w': World)
    requires Records(cfg, w) && StateOk(w, w.state) && |w'.created| == |w.created| + 1 && w.created <= w'.created
    requires CreationOk(cfg, w', |w.created|)
    requires w.usedIds <= w'.usedIds && w' == Move(w, w'.state).(usedIds := w'.usedIds, created := w'.created)
    ensures Extends(cfg, w, w')
  {
    LiveIsKnown(w, w.state);
  }

  // ------------------------------------------------------------------- revalidation and execution

  /** Revalidation lets through exactly the captured tool and arguments, in a context the policy
      cannot tell from the captured one, with the customer and the business state checked again. */
  lemma RevalidateExact(a: Action, c: Context, db: DB.Db)
    requires !a.tool.Unregistered? && Normalise(a.tool, a.arguments) == Some(a.arguments)
    requires a.inputs.tool == a.tool && a.inputs.arguments == a.arguments
    ensures RevalidationError(a, c, db) == None <==>
            && BelongsTo(a, c) && SamePolicyContext(a.inputs.context, c)
            && Lookup(a.arguments, CustomerId) == JInt(c.customerId) && c.customerId > 0
            && DestructiveTool(Some(a.tool))
            && (if a.tool == CancelOrder then DB.ValidateCancel(db, RequestOf(a.tool, c, a.id, a.arguments)) == None
                else DB.ValidateRefund(db, RequestOf(a.tool, c, a.id, a.arguments)) == None)
    ensures Normalise(a.tool, RestoreArguments(a.inputs.arguments, a.entities)) == Some(a.arguments)
  {
    CaptureRestoreRoundTrip(a.inputs, a.arguments, a.entities);
    assert NoDrift(FieldText, PolicyTree(a.inputs), PolicyTree(PendingPayload.Restored(a.inputs, a.tool, c, a.arguments))) <==>
           SamePolicyContext(a.inputs.context, c) by {
      NormalisedShape(a.tool, a.arguments);
      DriftExact(a.inputs, a.tool, c, a.arguments);
    }
    RevalidationBranches(a, c, db);
  }

  /** The checks of revalidation, given what the drift check amounts to. */
  lemma RevalidationBranches(a: Action, c: Context, db: DB.Db)
    requires !a.tool.Unregistered? && Normalise(a.tool, RestoreArguments(a.inputs.arguments, a.entities)) == Some(a.arguments)
    requires NoDrift(FieldText, PolicyTree(a.inputs), PolicyTree(PendingPayload.Restored(a.inputs, a.tool, c, a.arguments))) <==>
             SamePolicyContext(a.inputs.context, c)
    ensures RevalidationError(a, c, db) == None <==>
            && BelongsTo(a, c) && SamePolicyContext(a.inputs.context, c)
            && Lookup(a.arguments, CustomerId) == JInt(c.customerId) && c.customerId > 0
            && DestructiveTool(Some(a.tool))
            && (if a.tool == CancelOrder then DB.ValidateCancel(db, RequestOf(a.tool, c, a.id, a.arguments)) == None
                else DB.ValidateRefund(db, RequestOf(a.tool, c, a.id, a.arguments)) == None)
  {
    PolicyExact(a.tool, c, a.arguments);
  }

  predicate Revalidated(s: State, t: State) {
    && s.slots.pending.Some? && t.request == s.request && t.progress.confirmation == s.progress.confirmation
    && var a := s.slots.pending.value;
       (if t.progress.error == None then
          && t.slots == s.slots && t.plan.tool == Some(a.tool) && t.plan.arguments == a.arguments
          && SamePolicyContext(a.inputs.context, s.request.context)
          && Lookup(a.arguments, CustomerId) == JInt(s.request.context.customerId)
        else t.slots == s.slots.(pending := Some(a.(status := Failed))))
  }

  lemma RevalidatePlans(s: State, db: DB.Db)
    requires s.slots.pending.Some? && s.slots.pending.value.status == Confirmed
    requires var a := s.slots.pending.value;
             !a.tool.Unregistered? && Normalise(a.tool, a.arguments) == Some(a.arguments)
             && a.inputs.tool == a.tool && a.inputs.arguments == a.arguments
    ensures Revalidated(s, Revalidate(s, db))
  {
    var a, c := s.slots.pending.value, s.request.context;
    RevalidateExact(a, c, db);
    if RevalidationError(a, c, db) == None {
    } else {
    }
  }

  lemma RevalidateGood(cfg: Config, w: World, t: State)
    requires Here(cfg, w, AtRevalidation) && Revalidated(w.state, t)
    ensures GoodMove(cfg, w, t)
  {
  }

  /** What an execution node may do: at most one call, of the selected tool with its validated
      arguments under the action id, which touches rows only as the tool's own write does. */
  ghost predicate RanCall(s: State, db: DB.Db, r: ToolRun) {
    && (r.call == None ==> r.db == db && !r.wrote)
    && (r.call.Some? ==>
          var c := r.call.value;
          && s.plan.tool == Some(c.tool) && Normalise(c.tool, s.plan.arguments) == Some(c.arguments)
          && c.context == s.request.context && !c.tool.Unregistered?
          && (OperationOf(c.tool) == Write ==> s.slots.actionId == Some(c.key))
          && (if DestructiveTool(Some(c.tool)) then r.db in {db, DB.Execute(db, RequestOf(c.tool, c.context, c.key, c.arguments)).0}
              else r.db == db)
          && r.wrote == (r.db.orders != db.orders || r.db.refunds != db.refunds))
  }

  /** The action, when there is one, ends executed or failed. */
  predicate RanState(s: State, r: ToolRun) {
    r.state.Some? ==>
      var t := r.state.value;
      && t.request == s.request && t.slots == s.slots.(pending := t.slots.pending)
      && (if s.slots.pending == None then t.slots.pending == None
          else t.slots.pending in {Some(s.slots.pending.value.(status := Executed)), Some(s.slots.pending.value.(status := Failed))})
  }

  lemma AttemptRan(call: Call, db: DB.Db, fate: Fate)
    ensures var db1 := Attempt(call, db, fate).0;
            if DestructiveTool(Some(call.tool)) then db1 in {db, DB.Execute(db, RequestOf(call.tool, call.context, call.key, call.arguments)).0}
            else db1 == db
  {
  }

  lemma ExecuteToolRan(s: State, db: DB.Db, fate: Fate)
    ensures var r := ExecuteTool(s, db, fate);
            RanCall(s, db, r) && (r.state.Some? ==> r.state.value.request == s.request && r.state.value.slots == s.slots)
  {
    if s.plan.tool == None {
    } else {
      var tool := s.plan.tool.value;
      if tool.Unregistered? {
      } else if Normalise(tool, s.plan.arguments) == None {
      } else {
        var arguments := Normalise(tool, s.plan.arguments).value;
        if Lookup(arguments, CustomerId) != JInt(s.request.context.customerId) {
        } else if OperationOf(tool) == Write && s.slots.actionId == None {
        } else {
          var call := Call(tool, arguments, s.request.context, if s.slots.actionId.Some? then s.slots.actionId.value else "");
          AttemptRan(call, db, fate);
        }
      }
    }
  }

  lemma ExecuteConfirmedRan(s: State, db: DB.Db, fate: Fate)
    ensures RanCall(s, db, ExecuteConfirmed(s, db, fate)) && RanState(s, ExecuteConfirmed(s, db, fate))
  {
    ExecuteToolRan(s, db, fate);
  }

  lemma ExecuteHumanRan(s: State, db: DB.Db, fate: Fate)
    requires s.slots.pending == None
    ensures RanCall(s, db, ExecuteHuman(s, db, fate)) && RanState(s, ExecuteHuman(s, db, fate))
  {
    ExecuteToolRan(s, db, fate);
  }

  lemma CallOfAction(s: State, db: DB.Db, r: ToolRun, a: Action)
    requires RanCall(s, db, r) && IsWrite(r) && s.plan.tool == Some(a.tool) && s.plan.arguments == a.arguments
    requires s.slots.actionId == Some(a.id) && Normalise(a.tool, a.arguments) == Some(a.arguments)
    ensures r.call == Some(Agent.Call(a.tool, a.arguments, s.request.context, a.id))
  {
  }

  lemma ConfirmedIsAuthorised(cfg: Config, w: World, r: ToolRun)
    requires Records(cfg, w) && Here(cfg, w, AtExecuteConfirmed)
    requires RanCall(w.state, w.db, r) && IsWrite(r)
    ensures DestructiveTool(Some(r.call.value.tool)) && Authorised(cfg, w, CalledFrom(w, r))
  {
    var a := w.state.slots.pending.value;
    assert CreationOk(cfg, w, a.serial);
    CallOfAction(w.state, w.db, r, a);
    var k :| 0 <= k < |w.confirms| && ConfirmsNow(cfg, w.turn, a, w.state, w.confirms[k]);
    assert YesTo(cfg, w.created[a.serial].action, w.confirms[k], CalledFrom(w, r));
  }

  /** Who may call what: the confirmed path calls the captured action, the other two nodes only the
      tools that need no confirmation. */
  lemma CallIsAuthorised(cfg: Config, w: World, r: ToolRun)
    requires Records(cfg, w) && Here(cfg, w, w.node) && Executing(w.node)
    requires RanCall(w.state, w.db, r) && IsWrite(r)
    ensures if w.node == AtExecuteConfirmed then DestructiveTool(Some(r.call.value.tool)) && Authorised(cfg, w, CalledFrom(w, r))
            else r.call.value.tool in {CreateSupportTicket, EscalateToHuman} && w.state.slots.pending == None
  {
    if w.node == AtExecuteConfirmed {
      ConfirmedIsAuthorised(cfg, w, r);
    } else {
      PolicyExact(w.state.plan.tool.value, w.state.request.context, w.state.plan.arguments);
    }
  }

  /** The only rows a write call changes are its own, and then its receipt is there, for the first
      time. */
  lemma WroteExact(s: State, db: DB.Db, r: ToolRun)
    requires DB.Consistent(db) && RanCall(s, db, r)
    ensures DB.Consistent(r.db) && TX.Grows(db, r.db)
    ensures r.wrote ==>
              var c := r.call.value;
              && r.call.Some? && DestructiveTool(Some(c.tool))
              && !DB.HasScope(db, DB.ScopeOf(RequestOf(c.tool, c.context, c.key, c.arguments)))
              && Receipted(r.db, RequestOf(c.tool, c.context, c.key, c.arguments))
  {
    if r.call.Some? && DestructiveTool(Some(r.call.value.tool)) {
      var c := r.call.value;
      var q := RequestOf(c.tool, c.context, c.key, c.arguments);
      DB.ExecuteKeeps(db, q);
      if r.wrote {
        assert r.db.receipts[db.nextReceipt].scope == DB.ScopeOf(q);
      }
    }
  }

  lemma RecordsAfterCall(cfg: Config, w: World, r: ToolRun)
    requires Records(cfg, w) && IsWrite(r) && DB.Consistent(r.db) && TX.Grows(w.db, r.db)
    requires var c := CalledFrom(w, r);
             && (if DestructiveTool(Some(c.call.tool)) then Authorised(cfg, w, c)
                 else c.call.tool in {CreateSupportTicket, EscalateToHuman} && c.serial == None)
             && (c.wrote ==> DestructiveTool(Some(c.call.tool)) && !DB.HasScope(w.db, ScopeOfCall(c)) && Receipted(r.db, RequestOfCall(c)))
             && (!w.fellBack && c.serial.Some? ==> c.serial.value !in w.spent)
             && (c.serial.Some? ==> c.serial.value < |w.created|)
    ensures Records(cfg, RecordCall(w, r))
  {
    var w' := RecordCall(w, r);
    forall i | 0 <= i < |w'.created| ensures CreationOk(cfg, w', i) {
      assert CreationOk(cfg, w, i);
    }
    forall k | 0 <= k < |w.calls| ensures CallOk(cfg, w', w'.calls[k]) {
      CallStays(cfg, w, w', w.calls[k]);
    }
    CallStaysAuthorised(cfg, w, r, w');
  }

  lemma CallStaysAuthorised(cfg: Config, w: World, r: ToolRun, w': World)
    requires IsWrite(r) && w' == RecordCall(w, r)
    requires var c := CalledFrom(w, r);
             && (if DestructiveTool(Some(c.call.tool)) then Authorised(cfg, w, c)
                 else c.call.tool in {CreateSupportTicket, EscalateToHuman} && c.serial == None)
             && (c.wrote ==> DestructiveTool(Some(c.call.tool)) && Receipted(r.db, RequestOfCall(c)))
    ensures CallOk(cfg, w', CalledFrom(w, r))
  {
  }

  lemma DbGrows(cfg: Config, w: World, db: DB.Db)
    requires Records(cfg, w) && DB.Consistent(db) && TX.Grows(w.db, db)
    ensures Records(cfg, w.(db := db))
  {
    RecordsKept(cfg, w, w.(db := db));
  }

  /** The action about to be called is known, and armed. */
  lemma SerialIsUnspent(cfg: Config, w: World)
    requires Here(cfg, w, w.node) && Executing(w.node) && (!w.fellBack ==> Armed(w.node, w.state) !! w.spent)
    ensures w.state.slots.pending.Some? ==>
              var i := w.state.slots.pending.value.serial; i < |w.created| && (!w.fellBack ==> i !in w.spent)
  {
    if w.state.slots.pending.Some? {
      assert w.node == AtExecuteConfirmed && w.state.slots.pending.value.serial in Armed(w.node, w.state);
    }
  }

  lemma ExecutesRecords(cfg: Config, w: World, r: ToolRun)
    requires Records(cfg, w) && Here(cfg, w, w.node) && (!w.fellBack ==> Armed(w.node, w.state) !! w.spent)
    requires Executing(w.node) && RanCall(w.state, w.db, r)
    ensures Records(cfg, RecordCall(w, r))
  {
    WroteExact(w.state, w.db, r);
    if IsWrite(r) {
      CallIsAuthorised(cfg, w, r);
      SerialIsUnspent(cfg, w);
      RecordsAfterCall(cfg, w, r);
    } else {
      DbGrows(cfg, w, r.db);
    }
  }

  /** Between the call and the end of its node. */
  ghost predicate CallMade(cfg: Config, w1: World) {
    && Records(cfg, w1) && StateOk(w1, w1.state) && Older(w1, w1.node, w1.state)
    && (forall k | 0 <= k < |w1.checkpoints| :: StateOk(w1, w1.checkpoints[k]))
    && Executing(w1.node) && w1.turn <= w1.latest
  }

  lemma CallIsMade(cfg: Config, w: World, r: ToolRun)
    requires Inv(cfg, w) && Executing(w.node) && RanCall(w.state, w.db, r)
    ensures CallMade(cfg, RecordCall(w, r))
  {
    assert Records(cfg, RecordCall(w, r)) by {
      ExecutesRecords(cfg, w, r);
    }
    StatesKept(w, RecordCall(w, r));
  }

  lemma ExecutesKeeps(cfg: Config, w: World, r: ToolRun)
    requires Inv(cfg, w) && Executing(w.node)
    requires RanCall(w.state, w.db, r) && RanState(w.state, r)
    ensures Inv(cfg, Executes(w, r))
  {
    CallIsMade(cfg, w, r);
    ExecutesDisarms(cfg, w, r);
    assert RecordCall(w, r).state == w.state && RecordCall(w, r).node == w.node;
    match r.state
    case Some(t) => ReturnsFromCall(cfg, RecordCall(w, r), t);
    case None => StopsAfterCall(cfg, RecordCall(w, r));
  }

  lemma StopsAfterCall(cfg: Config, w1: World)
    requires CallMade(cfg, w1) && (!w1.fellBack ==> Armed(Idle, w1.state) !! w1.spent)
    ensures Inv(cfg, w1.(node := Idle))
  {
    RecordsKept(cfg, w1, w1.(node := Idle));
  }

  lemma ReturnsFromCall(cfg: Config, w1: World, t: State)
    requires CallMade(cfg, w1)
    requires t.slots == w1.state.slots.(pending := t.slots.pending)
    requires t.slots.pending.Some? ==>
      w1.state.slots.pending.Some? && t.slots.pending.value == w1.state.slots.pending.value.(status := t.slots.pending.value.status)
    requires !w1.fellBack ==> Armed(Move(w1, t).node, t) !! Move(w1, t).spent
    ensures Inv(cfg, Move(w1, t))
  {
    assert StateOk(w1, t);
    MoveExtends(cfg, w1, t);
    RecordsKept(cfg, w1, Move(w1, t));
    EndsGood(cfg, w1, t);
  }

  /** After an execution only the suspended action is armed, and it is not the one called. */
  lemma ExecutesDisarms(cfg: Config, w: World, r: ToolRun)
    requires Inv(cfg, w) && Executing(w.node) && RanState(w.state, r)
    ensures !w.fellBack ==> Armed(Executes(w, r).node, Executes(w, r).state) !! Executes(w, r).spent
  {
    assert Here(cfg, w, w.node);
    Disarms(w, r);
  }

  lemma Disarms(w: World, r: ToolRun)
    requires StateOk(w, w.state) && Executing(w.node) && RanState(w.state, r)
    requires w.state.slots.pending.Some? ==> w.state.slots.pending.value.status == Confirmed
    requires !w.fellBack ==> Armed(w.node, w.state) !! w.spent
    ensures !w.fellBack ==> Armed(Executes(w, r).node, Executes(w, r).state) !! Executes(w, r).spent
  {
    var suspended := SnapshotSerials(w.state.slots.suspended);
    assert suspended <= Armed(w.node, w.state);
    match r.state
    case None => assert Armed(Idle, w.state) == suspended;
    case Some(t) =>
      assert Armed(Executes(w, r).node, t) == suspended;
      ArmedIsLive(Executes(w, r).node, t);
  }

  lemma EndsGood(cfg: Config, w1: World, t: State)
    requires Executing(w1.node) && StateOk(w1, t)
    requires forall k | 0 <= k < |w1.checkpoints| :: StateOk(w1, w1.checkpoints[k])
    requires t.slots.suspended == w1.state.slots.suspended && Older(w1, w1.node, w1.state)
    requires t.slots.pending.Some? ==> w1.state.slots.pending.Some? && t.slots.pending.value.serial == w1.state.slots.pending.value.serial
    ensures var w' := Move(w1, t);
            && (forall k | 0 <= k < |w'.checkpoints| :: StateOk(w', w'.checkpoints[k]))
            && NodeOk(cfg, w', w'.node, t) && Older(w', w'.node, t) && StateOk(w', t)
  {
  }
}
