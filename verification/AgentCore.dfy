/**
 The agent runtime as functions: what each step of a run does to everything the stores
 know about that run.  Every store record carries a run id, so one run's share of the
 stores is a value of its own; an approval's uuid stands for its run and its place there.
 */
module AgentCore {
  import opened Wrappers
  import opened AgentProtocol

  type RunId = nat

  datatype Risk = Read | Write | Dangerous

  datatype ToolSpec = ToolSpec(risk: Risk, wantsContext: bool)

  datatype RunStatus = Running | WaitingForApproval | Completed | Failed | Cancelled

  datatype ApprovalStatus = Pending | Approved | Rejected

  datatype Approval = Approval(
    tool: string,
    arguments: Arguments,
    risk: Risk,
    toolCallId: string,
    status: ApprovalStatus)

  /** Entries of a run's step list and of its audit list. */
  datatype Event =
    | ModelResponded(text: Option<string>, calls: seq<ToolCall>)
    | ToolRequested(tool: string, arguments: Arguments)
    | ToolExecuted(tool: string, arguments: Arguments, result: Json)
    | ToolFailed(tool: string, given: Option<Arguments>, errorType: string, error: string)
    | ApprovalRequired(tool: string, arguments: Arguments)
    | ApprovalGranted(tool: string, arguments: Arguments)
    | ApprovalDenied(tool: string, arguments: Arguments)
    | RunReconciled
    | AgentFailed(tool: string, arguments: Arguments, errorType: string, error: string)
    | AgentMaxIterations(toolCalls: nat)
    | AuthorizationDenied(tool: string)

  /** One execution of a tool's callable, with the approval that released it. */
  datatype Invocation = Invocation(tool: string, arguments: Arguments, approval: Option<nat>)

  datatype TraceEntry = TraceEntry(tool: string, arguments: Arguments, result: Json)

  datatype Run = Run(
    status: RunStatus,
    answer: Option<string>,
    conversation: seq<Json>,
    steps: seq<Event>,
    audit: seq<Event>,
    approvals: seq<Approval>,
    // What an observer of the run has seen, in order.
    prompts: seq<seq<Message>>,
    saves: seq<seq<Message>>,
    invocations: seq<Invocation>,
    traces: seq<TraceEntry>,
    raised: bool)

  datatype ModelTurn = ModelRaised | Responded(text: Option<string>, calls: seq<ToolCall>)

  datatype ToolOutcome =
    | Returned(result: Json)
    | Refused(errorType: string, error: string)    // ValueError or TypeError
    | Crashed(errorType: string, error: string)    // any other exception

  /** The world a run meets: the model and the callables may answer anything, every time anew. */
  datatype World = World(
    registry: map<string, ToolSpec>,
    model: (RunId, nat, seq<Message>) -> ModelTurn,
    callable: (RunId, nat, string, Arguments) -> ToolOutcome,
    render: Json -> string,
    renderFailure: (string, string) -> string,
    maxIterations: nat)

  datatype Reply = Reply(status: RunStatus, answer: string, trace: seq<TraceEntry>, approval: Option<nat>)

  const MAX_ITERATIONS_ANSWER := "stopped after the maximum of reasoning iterations"
  const AGENT_FAILED_ANSWER := "the agent stopped because a tool failed unexpectedly"
  const APPROVAL_DENIED_ANSWER := "the requested action was not approved"
  const DIRECT_ACTION_ANSWER := "the approved action was executed"
  const DIRECT_ACTION_FAILED_ANSWER := "the approved action could not be executed"
  const RECONCILED_ANSWER := "run interrupted before completion"
  const INVALID_ARGUMENTS_ERROR := "InvalidToolArguments"

  const UNKNOWN_TOOL := "Unknown tool: "
  const CONTEXT_IS_NO_ARGUMENT := "'context' is execution context and cannot be supplied as a tool argument"

  const NEW_RUN := Run(Running, None, [], [], [], [], [], [], [], [], false)

  // -- store writes ------------------------------------------------------

  function Save(r: Run, conversation: seq<Message>): Run {
    r.(conversation := Serialise(conversation), saves := r.saves + [conversation])
  }

  /** An event written to the audit log and to the steps alike. */
  function Note(r: Run, e: Event): Run {
    r.(audit := r.audit + [e], steps := r.steps + [e])
  }

  function OrNone(arguments: Arguments): Option<Arguments> {
    if arguments == map[] then None else Some(arguments)
  }

  function FailTool(r: Run, tool: string, arguments: Arguments, errorType: string, error: string): Run {
    Note(r, ToolFailed(tool, OrNone(arguments), errorType, error))
  }

  function Finish(r: Run, status: RunStatus, answer: string): Run {
    r.(status := status, answer := Some(answer))
  }

  function Respond(r: Run, trace: seq<TraceEntry>): Run {
    r.(traces := r.traces + trace)
  }

  // -- ToolRegistry.execute ----------------------------------------------

  datatype Execution = Blocked(risk: Risk) | Ran(outcome: ToolOutcome)

  /** Whether `execute` gets as far as calling the tool's function. */
  predicate Invokes(w: World, tool: string, arguments: Arguments, approved: bool) {
    && tool in w.registry
    && (w.registry[tool].risk == Read || approved)
    && !(w.registry[tool].wantsContext && "context" in arguments)
  }

  function Execute(w: World, id: RunId, r: Run, tool: string, arguments: Arguments, approval: Option<nat>): Execution {
    if tool !in w.registry then Ran(Refused("ValueError", UNKNOWN_TOOL + tool))
    else if w.registry[tool].risk != Read && approval.None? then Blocked(w.registry[tool].risk)
    else if w.registry[tool].wantsContext && "context" in arguments then
      Ran(Refused("ValueError", CONTEXT_IS_NO_ARGUMENT))
    else Ran(w.callable(id, |r.invocations|, tool, arguments))
  }

  function Invoked(w: World, r: Run, tool: string, arguments: Arguments, approval: Option<nat>): Run {
    if Invokes(w, tool, arguments, approval.Some?)
    then r.(invocations := r.invocations + [Invocation(tool, arguments, approval)]) else r
  }

  // -- the outcomes ------------------------------------------------------

  function Park(r: Run, conversation: seq<Message>, call: ToolCall, risk: Risk): Run {
    var waiting := Save(r, conversation).(status := WaitingForApproval);
    Note(waiting.(approvals := waiting.approvals + [Approval(call.name, call.arguments, risk, call.id, Pending)]),
         ApprovalRequired(call.name, call.arguments))
  }

  function Abort(r: Run, tool: string, arguments: Arguments, errorType: string, error: string): Run {
    Finish(r.(audit := r.audit + [AgentFailed(tool, arguments, errorType, error)]), Failed, AGENT_FAILED_ANSWER)
  }

  // -- the loop ----------------------------------------------------------

  /** How one iteration of the loop leaves the run. */
  datatype Turn =
    | Continue(run: Run, conversation: seq<Message>, trace: seq<TraceEntry>)
    | Stop(run: Run, reply: Reply)
    | Raise(run: Run)

  function Iterate(w: World, id: RunId, r: Run, conversation: seq<Message>, trace: seq<TraceEntry>): Turn {
    var asked := r.(prompts := r.prompts + [conversation]);
    match w.model(id, |r.prompts|, conversation)
    case ModelRaised => Raise(asked.(raised := true))
    case Responded(text, calls) =>
      var answered := asked.(steps := asked.steps + [ModelResponded(text, calls)]);
      if calls == [] then
        var answer := if text.None? then "" else text.value;
        Stop(Respond(Finish(answered, Completed, answer), trace), Reply(Completed, answer, trace, None))
      else
        HandleCall(w, id, answered, conversation + [AssistantMessage(text, [calls[0]])], calls[0], trace)
  }

  /** The rest of an iteration, once the model has asked for `call`. */
  function HandleCall(w: World, id: RunId, r: Run, conversation: seq<Message>, call: ToolCall,
                      trace: seq<TraceEntry>): Turn
  {
    if call.argumentError.Some? then
      FeedBack(w, FailTool(r, call.name, call.arguments, INVALID_ARGUMENTS_ERROR, call.argumentError.value),
               conversation, call, w.renderFailure(INVALID_ARGUMENTS_ERROR, call.argumentError.value), trace)
    else
      var requested := Note(r, ToolRequested(call.name, call.arguments));
      match Execute(w, id, requested, call.name, call.arguments, None)
      case Blocked(risk) =>
        Stop(Respond(Park(requested, conversation, call, risk), trace),
             Reply(WaitingForApproval, "Approval required before executing " + call.name, trace,
                   Some(|requested.approvals|)))
      case Ran(outcome) =>
        HandleOutcome(w, Invoked(w, requested, call.name, call.arguments, None), conversation, call, outcome, trace)
  }

  /** What the loop makes of an execution that was not blocked. */
  function HandleOutcome(w: World, r: Run, conversation: seq<Message>, call: ToolCall, outcome: ToolOutcome,
                         trace: seq<TraceEntry>): Turn
  {
    match outcome
    case Refused(errorType, error) =>
      FeedBack(w, FailTool(r, call.name, call.arguments, errorType, error), conversation, call,
               w.renderFailure(errorType, error), trace)
    case Crashed(errorType, error) =>
      Stop(Respond(Abort(r, call.name, call.arguments, errorType, error), trace),
           Reply(Failed, AGENT_FAILED_ANSWER, trace, None))
    case Returned(result) =>
      FeedBack(w, Note(r, ToolExecuted(call.name, call.arguments, result)), conversation, call,
               w.render(result), trace + [TraceEntry(call.name, call.arguments, result)])
  }

  /** Hand the model the result of its call, and keep what was said. */
  function FeedBack(w: World, r: Run, conversation: seq<Message>, call: ToolCall, content: string,
                    trace: seq<TraceEntry>): Turn
  {
    var extended := conversation + [ToolResult(call.id, call.name, content)];
    Continue(Save(r, extended), extended, trace)
  }

  function Exhausted(r: Run, trace: seq<TraceEntry>): Run {
    Finish(r.(audit := r.audit + [AgentMaxIterations(|trace|)]), Failed, MAX_ITERATIONS_ANSWER)
  }

  /** `drive` with `n` iterations left; no reply when a model call raised. */
  function Drive(w: World, id: RunId, r: Run, conversation: seq<Message>, trace: seq<TraceEntry>, n: nat)
    : (Run, Option<Reply>)
    decreases n
  {
    if n == 0 then
      (Respond(Exhausted(r, trace), trace), Some(Reply(Failed, MAX_ITERATIONS_ANSWER, trace, None)))
    else
      match Iterate(w, id, r, conversation, trace)
      case Continue(run, extended, longer) => Drive(w, id, run, extended, longer, n - 1)
      case Stop(run, reply) => (run, Some(reply))
      case Raise(run) => (run, None)
  }

  // -- the entry points --------------------------------------------------

  function StartRun(w: World, id: RunId, message: string): (Run, Option<Reply>) {
    var conversation := [UserMessage(message)];
    Drive(w, id, Save(NEW_RUN, conversation), conversation, [], w.maxIterations)
  }

  /** `request_action`: one specific call, with no model in the loop. */
  function RequestAction(w: World, id: RunId, callId: string, tool: string, arguments: Arguments): (Run, Option<Reply>) {
    var call := ToolCall(callId, tool, arguments, None);
    var requested := Note(Save(NEW_RUN, []), ToolRequested(tool, arguments));
    var ran := Invoked(w, requested, tool, arguments, None);
    match Execute(w, id, requested, tool, arguments, None)
    case Blocked(risk) =>
      (Park(requested, [], call, risk),
       Some(Reply(WaitingForApproval, "Approval required before executing " + tool, [], Some(0))))
    case Ran(outcome) => DirectOutcome(ran, tool, arguments, outcome)
  }

  /** What a run without a model makes of the one execution it exists for. */
  function DirectOutcome(r: Run, tool: string, arguments: Arguments, outcome: ToolOutcome): (Run, Option<Reply>) {
    match outcome
    case Refused(errorType, error) =>
      (Finish(FailTool(r, tool, arguments, errorType, error), Failed, DIRECT_ACTION_FAILED_ANSWER),
       Some(Reply(Failed, DIRECT_ACTION_FAILED_ANSWER, [], None)))
    case Crashed(errorType, error) =>
      (Abort(r, tool, arguments, errorType, error), Some(Reply(Failed, AGENT_FAILED_ANSWER, [], None)))
    case Returned(result) =>
      var trace := [TraceEntry(tool, arguments, result)];
      (Respond(Finish(Note(r, ToolExecuted(tool, arguments, result)), Completed, DIRECT_ACTION_ANSWER), trace),
       Some(Reply(Completed, DIRECT_ACTION_ANSWER, trace, None)))
  }

  predicate IsPending(r: Run, k: nat) {
    k < |r.approvals| && r.approvals[k].status == Pending
  }

  function Decided(r: Run, k: nat, status: ApprovalStatus): Run
    requires k < |r.approvals|
  {
    r.(approvals := r.approvals[k := r.approvals[k].(status := status)])
  }

  /** `reject`, whose writes ask for no status. */
  function Reject(r: Run, k: nat): (Run, Option<Reply>)
    requires k < |r.approvals|
  {
    var a := r.approvals[k];
    (Finish(Note(Decided(r, k, Rejected), ApprovalDenied(a.tool, a.arguments)), Cancelled, APPROVAL_DENIED_ANSWER),
     Some(Reply(Cancelled, APPROVAL_DENIED_ANSWER, [], None)))
  }

  /** The run as `approve` leaves it just before the released tool is executed. */
  function Released(r: Run, k: nat): Run
    requires k < |r.approvals|
  {
    Note(Decided(r, k, Approved).(status := Running),
         ApprovalGranted(r.approvals[k].tool, r.approvals[k].arguments))
  }

  function Approve(w: World, id: RunId, r: Run, k: nat): (Run, Option<Reply>)
    requires k < |r.approvals|
  {
    ApproveWith(w, id, r, k, Deserialise(r.conversation))
  }

  /** `approve` with the conversation it copied before it wrote anything; None where reading it raised. */
  function ApproveWith(w: World, id: RunId, r: Run, k: nat, copied: Option<seq<Message>>): (Run, Option<Reply>)
    requires k < |r.approvals|
  {
    var a := r.approvals[k];
    var granted := Released(r, k);
    var ran := Invoked(w, granted, a.tool, a.arguments, Some(k));
    match (Execute(w, id, granted, a.tool, a.arguments, Some(k)), copied)
    case (Ran(outcome), Some(conversation)) =>
      Complete(w, id, ran, conversation, a, outcome)
    case _ => (r, None)
  }

  /** A run saved without a conversation is all its one execution; any other resumes its loop. */
  function Complete(w: World, id: RunId, r: Run, conversation: seq<Message>, a: Approval, outcome: ToolOutcome)
    : (Run, Option<Reply>)
  {
    if conversation == [] then DirectOutcome(r, a.tool, a.arguments, outcome)
    else Resume(w, id, r, conversation, a, outcome)
  }

  /** Append the real result to the restored conversation and re-enter the loop. */
  function Resume(w: World, id: RunId, r: Run, conversation: seq<Message>, a: Approval, outcome: ToolOutcome)
    : (Run, Option<Reply>)
  {
    match outcome
    case Refused(errorType, error) =>
      Drive(w, id, FailTool(r, a.tool, a.arguments, errorType, error),
            conversation + [ToolResult(a.toolCallId, a.tool, w.renderFailure(errorType, error))], [], w.maxIterations)
    case Crashed(errorType, error) =>
      (Abort(r, a.tool, a.arguments, errorType, error), Some(Reply(Failed, AGENT_FAILED_ANSWER, [], None)))
    case Returned(result) =>
      Drive(w, id, Note(r, ToolExecuted(a.tool, a.arguments, result)),
            conversation + [ToolResult(a.toolCallId, a.tool, w.render(result))],
            [TraceEntry(a.tool, a.arguments, result)], w.maxIterations)
  }

  /** `resolve_approval`: a decision on anything but a pending approval is refused, and changes nothing. */
  function ResolveApproval(w: World, id: RunId, r: Run, k: nat, approved: bool): (Run, Option<Reply>) {
    if !IsPending(r, k) then (r, None)
    else if approved then Approve(w, id, r, k)
    else Reject(r, k)
  }

  /** The refusal the route audits when a user may not decide an approval of this risk. */
  function DenyAuthorization(r: Run, tool: string): Run {
    r.(audit := r.audit + [AuthorizationDenied(tool)])
  }

  /** `ReconciliationService.reconcile` on a run found stale: only RUNNING runs are touched. */
  function ReconcileRun(r: Run): Run {
    if r.status == Running then Finish(Note(r, RunReconciled), Failed, RECONCILED_ANSWER) else r
  }
}
