/** The graph that drives a turn (agent/graph.py), and the conversations it makes possible: turns,
    nodes, crashes after any node, returns to any earlier checkpoint of the thread, and everything
    else that happens to the database meanwhile. */
module Graph {
  import opened Domain
  import opened Compiler
  import opened Agent
  import DB = Database
  import TX = Transactions

  datatype Node =
    | Idle                     // between turns
    | AtLoadContext | AtSecurityBoundary | AtRetrieveMemory | AtCheckPending
    | AtRestorePending | AtRestoreSuspended | AtResumeWorkflow
    | AtUnderstand | AtInterruption | AtCompile | AtSelect
    | AtMemoryAction | AtValidate | AtRevalidation | AtEvaluatePolicy | AtInspectRisk
    | AtCreatePending | AtExecuteTool | AtExecuteConfirmed | AtExecuteHuman
    | AtRetrieveKnowledge | AtRespond

  // ------------------------------------------------------------------------------------- routers

  function AfterPending(s: State): Node {
    match s.progress.confirmation
    case ResumeSuspended => AtRestoreSuspended
    case InspectInterruption => AtUnderstand
    case Normal | Unset => if s.work.active then AtResumeWorkflow else AtUnderstand
    case ConfirmedReply => AtRestorePending
    case _ => AtRespond
  }

  function AfterWorkflowResume(s: State): Node {
    match s.work.resumption
    case ResumedAll => AtCompile
    case InspectReply => AtUnderstand
    case WaitingForFields => AtRespond
    case _ => AtUnderstand
  }

  function AfterUnderstanding(s: State): Node {
    if s.progress.error.Some? then AtRespond else if s.work.interruptionPending then AtInterruption else AtCompile
  }

  function AfterSelection(s: State): Node {
    if s.progress.error.Some? then AtRespond
    else if s.plan.clarify then AtRespond
    else if s.plan.intent in {MemoryRemember, MemoryForget} then AtMemoryAction
    else if s.plan.requestType in {Informational, Unclear, KnowledgeOnly} then
      if s.plan.requiresRetrieval then AtRetrieveKnowledge else AtRespond
    else AtValidate
  }

  function AfterValidation(s: State): Node {
    if s.progress.error.Some? then AtRespond
    else if s.progress.confirmation == ConfirmedReply then AtRevalidation
    else AtEvaluatePolicy
  }

  function AfterPolicy(s: State): Node {
    if s.progress.error.Some? || s.plan.policy == None || s.plan.policy.value.outcome == Deny then AtRespond
    else match s.plan.policy.value.outcome
      case Allow => AtExecuteTool
      case RequireConfirmation => AtCreatePending
      case _ => AtExecuteHuman
  }

  /** The edges of the graph: where the state a node returned leads. */
  function After(n: Node, s: State): Node {
    match n
    case AtLoadContext => if s.progress.error.Some? then AtRespond else AtSecurityBoundary
    case AtSecurityBoundary => if s.progress.security then AtRespond else AtRetrieveMemory
    case AtRetrieveMemory => AtCheckPending
    case AtCheckPending => AfterPending(s)
    case AtRestorePending => if s.plan.compilationResumed then AtCompile else AtRespond
    case AtRestoreSuspended => AtRespond
    case AtResumeWorkflow => AfterWorkflowResume(s)
    case AtUnderstand => AfterUnderstanding(s)
    case AtInterruption => if s.work.interruption in {Suspended, Superseded} then AtCompile else AtRespond
    case AtCompile => AtSelect
    case AtSelect => AfterSelection(s)
    case AtValidate => AfterValidation(s)
    case AtRevalidation => if s.progress.error.Some? then AtRespond else AtExecuteConfirmed
    case AtEvaluatePolicy => AtInspectRisk
    case AtInspectRisk => AfterPolicy(s)
    case AtExecuteTool => if s.progress.error.Some? || !s.plan.requiresRetrieval then AtRespond else AtRetrieveKnowledge
    case AtMemoryAction | AtCreatePending | AtExecuteConfirmed | AtExecuteHuman | AtRetrieveKnowledge => AtRespond
    case AtRespond | Idle => Idle
  }

  // -------------------------------------------------------------------------------------- runs

  /** What is fixed for a deployment. */
  datatype Config = Config(contract: Contract, ttl: int, lex: Lexicon)

  /** Everything a node takes from outside. */
  datatype Choice = Choice(
    proposal: Proposal, latestOrder: Option<int>, newId: string, policyFails: bool, memoryError: bool, fate: Fate)

  /** Records for the properties only; no node reads them. */
  datatype Creation = Creation(action: Action, turn: nat, text: string)
  datatype Confirm = Confirm(serial: nat, turn: nat, at: int, context: Context, parsed: Parsed)
  datatype Called = Called(serial: Option<nat>, turn: nat, call: Call, wrote: bool)

  datatype World = World(
    state: State,
    node: Node,
    turn: nat,                     // the number of this turn
    latest: nat,                   // how many turns have begun
    now: int,
    db: DB.Db,
    usedIds: set<string>,
    checkpoints: seq<State>,
    created: seq<Creation>,        // the i-th creation has serial i
    confirms: seq<Confirm>,
    calls: seq<Called>,            // every call of a write tool, with whether rows changed
    spent: set<nat>,               // actions called, or no longer waiting, confirmed or suspended
    fellBack: bool)

  function SnapshotSerials(w: Option<Snapshot>): set<nat> {
    if w.Some? && w.value.action.Some? then {w.value.action.value.serial} else {}
  }

  /** The actions a state keeps alive: waiting or confirmed, or suspended. */
  function Live(s: State): set<nat> {
    (if s.slots.pending.Some? && s.slots.pending.value.status in {Waiting, Confirmed} then {s.slots.pending.value.serial} else {})
    + SnapshotSerials(s.slots.suspended)
  }

  /** The node returned `s`: it is checkpointed, and the graph goes on. */
  function Move(w: World, s: State): World {
    w.(state := s, node := After(w.node, s), checkpoints := w.checkpoints + [s], spent := w.spent + (Live(w.state) - Live(s)))
  }

  predicate IsWrite(r: ToolRun) {
    r.call.Some? && OperationOf(r.call.value.tool) == Write
  }

  /** The record of a call made from here. */
  function CalledFrom(w: World, r: ToolRun): Called
    requires r.call.Some?
  {
    Called(if w.state.slots.pending.Some? then Some(w.state.slots.pending.value.serial) else None, w.turn, r.call.value, r.wrote)
  }

  /** What an execution node did outside the state. */
  function RecordCall(w: World, r: ToolRun): World {
    if IsWrite(r) then
      w.(db := r.db, calls := w.calls + [CalledFrom(w, r)],
         spent := w.spent + (if w.state.slots.pending.Some? then {w.state.slots.pending.value.serial} else {}))
    else w.(db := r.db)
  }

  /** An execution node ended: it may have raised after its call, and then nothing is checkpointed. */
  function Executes(w: World, r: ToolRun): World {
    match r.state
    case None => RecordCall(w, r).(node := Idle)
    case Some(s) => Move(RecordCall(w, r), s)
  }

  predicate Executing(n: Node) {
    n in {AtExecuteTool, AtExecuteConfirmed, AtExecuteHuman}
  }

  /** The state that a node other than an execution node returns. */
  ghost function Returned(cfg: Config, w: World, ch: Choice): State {
    var s := w.state;
    match w.node
    case AtLoadContext => LoadContext(s)
    case AtSecurityBoundary => SecurityBoundary(s)
    case AtCheckPending => CheckPending(s, w.now, cfg.ttl)
    case AtRestorePending => RestorePending(s)
    case AtRestoreSuspended => RestoreSuspended(s)
    case AtResumeWorkflow => ResumeWorkflow(s)
    case AtUnderstand => UnderstandRequest(s, cfg.contract, ch.proposal)
    case AtInterruption => HandleInterruption(s)
    case AtCompile => CompileDecision(s, ch.latestOrder, cfg.lex)
    case AtSelect => SelectTool(s)
    case AtValidate => ValidateTool(s)
    case AtEvaluatePolicy => EvaluatePolicy(s, ch.newId, ch.policyFails)
    case AtCreatePending => CreatePending(s, |w.created|, ch.newId, w.now)
    case AtRevalidation => Revalidate(s, w.db)
    case AtMemoryAction => if ch.memoryError then Fail(s, ToolFailure) else s
    case _ => s
  }

  ghost function Result(w: World, fate: Fate): ToolRun {
    if w.node == AtExecuteHuman then ExecuteHuman(w.state, w.db, fate) else ExecuteConfirmed(w.state, w.db, fate)
  }

  /** What the records gain when a node returns `s`. */
  function NewConfirms(w: World, s: State): seq<Confirm> {
    if w.node == AtCheckPending && s.progress.confirmation == ConfirmedReply && s.slots.pending.Some? then
      [Confirm(s.slots.pending.value.serial, w.turn, w.now, w.state.request.context, w.state.request.message.parsed)]
    else []
  }

  function NewCreations(w: World, s: State): seq<Creation> {
    if w.node == AtCreatePending && CreatesPending(w.state) && s.slots.pending.Some? then
      [Creation(s.slots.pending.value, w.turn, w.state.request.text)]
    else []
  }

  /** One node of the graph runs to its end. */
  ghost function RunNode(cfg: Config, w: World, ch: Choice): World {
    if Executing(w.node) then Executes(w, Result(w, ch.fate))
    else
      var s := Returned(cfg, w, ch);
      Move(w, s).(confirms := w.confirms + NewConfirms(w, s), created := w.created + NewCreations(w, s),
                  usedIds := w.usedIds + (if w.node in {AtEvaluatePolicy, AtCreatePending} then {ch.newId} else {}))
  }

  datatype Event =
    | Turn(context: Context, conversationId: string, message: Message)
    | Node(choice: Choice)
    | Crash                      // the process dies, or the node raises before it did anything
    | FallBack(k: nat)           // the thread resumes from an earlier checkpoint
    | Clock(now: int)
    | Elsewhere(db: DB.Db)       // other sessions and the rest of the business

  /** The state a turn starts with: the thread's latest, with the new request merged in. */
  function WithRequest(s: State, context: Context, conversationId: string, m: Message): State {
    s.(request := Request(context, conversationId, m, s.request.text + " " + m.text))
  }

  function Turned(w: World, c: Context, conversationId: string, m: Message): World {
    w.(state := WithRequest(w.state, c, conversationId, m), node := AtLoadContext,
       turn := w.latest + 1, latest := w.latest + 1)
  }

  ghost predicate Next(cfg: Config, w: World, e: Event, w': World) {
    match e
    case Turn(c, id, m) =>
      w.node == Idle && w' == Turned(w, c, id, m)
    case Node(ch) => w.node != Idle && ch.newId !in w.usedIds && w' == RunNode(cfg, w, ch)
    case Crash => w' == w.(node := Idle)
    case FallBack(k) => k < |w.checkpoints| && w' == w.(state := w.checkpoints[k], node := Idle, fellBack := true)
    case Clock(now) => w' == w.(now := now)
    case Elsewhere(db) => DB.Consistent(db) && TX.Grows(w.db, db) && w' == w.(db := db)
  }

  /** A new thread. */
  ghost predicate Init(w: World) {
    && w.node == Idle && w.turn <= w.latest && w.state.slots.pending == None && w.state.slots.suspended == None
    && w.state.slots.actionId == None
    && w.state.owner == None && w.checkpoints == [w.state]
    && w.created == [] && w.confirms == [] && w.calls == [] && w.spent == {} && !w.fellBack && w.usedIds == {}
    && DB.Consistent(w.db)
  }

  ghost predicate Run(cfg: Config, run: seq<World>, events: seq<Event>) {
    && |run| == |events| + 1
    && Init(run[0])
    && forall i | 0 <= i < |events| :: Next(cfg, run[i], events[i], run[i + 1])
  }
}
