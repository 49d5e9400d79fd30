/** What every run's three histories promise, after every entry point. */
module AgentInvariants {
  import opened Wrappers
  import opened AgentProtocol
  import opened AgentCore

  // -- the two event lists -----------------------------------------------

  /** Events the audit log alone carries. */
  predicate AuditOnly(e: Event) {
    e.AgentFailed? || e.AgentMaxIterations? || e.AuthorizationDenied?
  }

  function StepTrail(events: seq<Event>): seq<Event> {
    if events == [] then []
    else
      var init, last := events[..|events| - 1], events[|events| - 1];
      if last.ModelResponded? then StepTrail(init) else StepTrail(init) + [last]
  }

  function AuditTrail(events: seq<Event>): seq<Event> {
    if events == [] then []
    else
      var init, last := events[..|events| - 1], events[|events| - 1];
      if AuditOnly(last) then AuditTrail(init) else AuditTrail(init) + [last]
  }

  /** Where an audit log leaves its run: what has been asked for and not yet answered. */
  datatype Phase =
    | Idle
    | Asked(tool: string, arguments: Arguments)
    | Parked(tool: string, arguments: Arguments)
    | Granted(tool: string, arguments: Arguments)
    | Over
    | Broken

  /** A request is followed by exactly one outcome, through the approval branch if parked. */
  function Next(p: Phase, e: Event): Phase {
    if e.AuthorizationDenied? then p
    else
      match p
      case Idle =>
        (match e
         case ToolRequested(t, a) => Asked(t, a)
         case ToolFailed(_, _, _, _) => Idle
         case AgentMaxIterations(_) => Over
         case RunReconciled => Over
         case _ => Broken)
      case Asked(t, a) => if e == ApprovalRequired(t, a) then Parked(t, a) else Outcome(t, a, e)
      case Granted(t, a) => Outcome(t, a, e)
      case Parked(t, a) =>
        if e == ApprovalGranted(t, a) then Granted(t, a)
        else if e == ApprovalDenied(t, a) then Over
        else Broken
      case _ => Broken
  }

  function Outcome(tool: string, arguments: Arguments, e: Event): Phase {
    match e
    case ToolExecuted(t, a, _) => if t == tool && a == arguments then Idle else Broken
    case ToolFailed(t, given, _, _) => if t == tool && given == OrNone(arguments) then Idle else Broken
    case AgentFailed(t, a, _, _) => if t == tool && a == arguments then Over else Broken
    case _ => Broken
  }

  function PhaseOf(audit: seq<Event>): Phase {
    if audit == [] then Idle else Next(PhaseOf(audit[..|audit| - 1]), audit[|audit| - 1])
  }

  /** One more entry moves the phase on. */
  lemma PhaseGrows(audit: seq<Event>, e: Event)
    ensures PhaseOf(audit + [e]) == Next(PhaseOf(audit), e)
  {
    assert (audit + [e])[..|audit|] == audit;
  }

  /** The successful executions a step list records, as trace entries. */
  function Executions(steps: seq<Event>): seq<TraceEntry> {
    if steps == [] then []
    else
      var init, last := steps[..|steps| - 1], steps[|steps| - 1];
      if last.ToolExecuted? then Executions(init) + [TraceEntry(last.tool, last.arguments, last.result)]
      else Executions(init)
  }

  function Grants(approvals: seq<Approval>): nat {
    if approvals == [] then 0
    else Grants(approvals[..|approvals| - 1]) + if approvals[|approvals| - 1].status == Approved then 1 else 0
  }

  // -- the invariant -----------------------------------------------------

  /** Step list and audit log tell the same story. */
  ghost predicate HistoriesOk(steps: seq<Event>, audit: seq<Event>) {
    StepTrail(steps) == AuditTrail(audit)
  }

  ghost predicate PromptsOk(prompts: seq<seq<Message>>) {
    forall i :: 0 <= i < |prompts| ==> Balanced(prompts[i])
  }

  /** Each saved conversation extends the one before; the last is what is persisted. */
  ghost predicate SavesOk(conversation: seq<Json>, saves: seq<seq<Message>>) {
    && saves != []
    && conversation == Serialise(saves[|saves| - 1])
    && (forall i, j :: 0 <= i < j < |saves| ==> saves[i] <= saves[j])
  }

  predicate Gated(w: World, tool: string) {
    tool in w.registry && w.registry[tool].risk != Read
  }

  /** An execution of a gated tool has an approval of its own, which was granted for just that call. */
  ghost predicate InvocationOk(w: World, approvals: seq<Approval>, v: Invocation) {
    && (Gated(w, v.tool) ==> v.approval.Some?)
    && (v.approval.Some? ==>
          var k := v.approval.value;
          k < |approvals| && approvals[k].status == Approved &&
          approvals[k].tool == v.tool && approvals[k].arguments == v.arguments)
  }

  ghost predicate InvocationsOk(w: World, approvals: seq<Approval>, invocations: seq<Invocation>) {
    && (forall i :: 0 <= i < |invocations| ==> InvocationOk(w, approvals, invocations[i]))
    && (forall i, j :: 0 <= i < j < |invocations| && invocations[i].approval.Some? ==>
          invocations[i].approval != invocations[j].approval)
  }

  /** No approval but the last can be pending, and the last is pending exactly while the run waits. */
  ghost predicate ApprovalsOk(waiting: bool, approvals: seq<Approval>) {
    && (forall k :: 0 <= k < |approvals| - 1 ==> approvals[k].status != Pending)
    && (waiting <==> |approvals| > 0 && approvals[|approvals| - 1].status == Pending)
  }

  /** A waiting run is parked on the call its pending approval names. */
  ghost predicate ParkedOn(phase: Phase, a: Approval, saved: seq<Message>) {
    && phase == Parked(a.tool, a.arguments)
    && (saved != [] ==> OpenOn(saved, a.toolCallId, a.tool))
  }

  /** A conversation that ends in one unanswered call. */
  ghost predicate OpenOn(c: seq<Message>, callId: string, tool: string) {
    && c != [] && Balanced(c[..|c| - 1])
    && IsCall(c[|c| - 1])
    && c[|c| - 1].toolCalls[0].id == callId && c[|c| - 1].toolCalls[0].name == tool
  }

  ghost predicate PhaseOk(status: RunStatus, raised: bool, phase: Phase, approvals: seq<Approval>, saves: seq<seq<Message>>)
    requires saves != [] && (status == WaitingForApproval ==> approvals != [])
  {
    match status
    case Running => phase == Idle && raised
    case WaitingForApproval => ParkedOn(phase, approvals[|approvals| - 1], saves[|saves| - 1]) && !raised
    case Completed => phase == Idle
    case Failed => phase == Idle || phase == Over
    case Cancelled => phase == Over
  }

  ghost predicate BudgetOk(w: World, prompts: nat, approvals: seq<Approval>, left: nat) {
    prompts + left <= w.maxIterations * (1 + Grants(approvals))
  }

  /** The part of the invariant that no step of the runtime ever suspends. */
  ghost predicate Base(w: World, r: Run) {
    && HistoriesOk(r.steps, r.audit) && PromptsOk(r.prompts) && SavesOk(r.conversation, r.saves)
    && InvocationsOk(w, r.approvals, r.invocations)
    && ApprovalsOk(r.status == WaitingForApproval, r.approvals)
  }

  /** A run between entry points. */
  ghost predicate RunOk(w: World, r: Run) {
    && Base(w, r)
    && PhaseOk(r.status, r.raised, PhaseOf(r.audit), r.approvals, r.saves)
    && BudgetOk(w, |r.prompts|, r.approvals, 0)
    && (!r.raised ==> r.traces == Executions(r.steps))
  }

  /** A run inside an entry point, in the given phase, with `trace` not yet reported. */
  ghost predicate Active(w: World, r: Run, phase: Phase, trace: seq<TraceEntry>, left: nat) {
    && Base(w, r)
    && r.status == Running && !r.raised && PhaseOf(r.audit) == phase
    && BudgetOk(w, |r.prompts|, r.approvals, left)
    && r.traces + trace == Executions(r.steps)
  }

  /** A run inside the loop, about to call the model on `conversation`. */
  ghost predicate Driving(w: World, r: Run, conversation: seq<Message>, trace: seq<TraceEntry>, left: nat) {
    Active(w, r, Idle, trace, left) && Balanced(conversation) && r.saves[|r.saves| - 1] <= conversation
  }

  // -- single steps ------------------------------------------------------

  /** An event written to both lists keeps them equal and moves the phase on. */
  lemma NoteOk(w: World, r: Run, phase: Phase, trace: seq<TraceEntry>, left: nat, e: Event)
    requires Active(w, r, phase, trace, left) && !AuditOnly(e) && !e.ModelResponded?
    ensures Active(w, Note(r, e), Next(phase, e),
                   if e.ToolExecuted? then trace + [TraceEntry(e.tool, e.arguments, e.result)] else trace, left)
  {
    NoteKeepsTrails(r.steps, r.audit, e);
    if e.ToolExecuted? {
      assert r.traces + (trace + [TraceEntry(e.tool, e.arguments, e.result)]) ==
             r.traces + trace + [TraceEntry(e.tool, e.arguments, e.result)];
    }
  }

  lemma NoteKeepsTrails(steps: seq<Event>, audit: seq<Event>, e: Event)
    requires HistoriesOk(steps, audit) && !AuditOnly(e) && !e.ModelResponded?
    ensures HistoriesOk(steps + [e], audit + [e])
    ensures PhaseOf(audit + [e]) == Next(PhaseOf(audit), e)
    ensures Executions(steps + [e]) ==
            Executions(steps) + if e.ToolExecuted? then [TraceEntry(e.tool, e.arguments, e.result)] else []
  {
    assert (audit + [e])[..|audit|] == audit && (steps + [e])[..|steps|] == steps;
  }

  lemma AuditKeepsTrails(steps: seq<Event>, audit: seq<Event>, e: Event)
    requires HistoriesOk(steps, audit) && AuditOnly(e)
    ensures HistoriesOk(steps, audit + [e])
    ensures PhaseOf(audit + [e]) == Next(PhaseOf(audit), e)
  {
    assert (audit + [e])[..|audit|] == audit;
  }

  lemma ResponseKeepsTrails(steps: seq<Event>, audit: seq<Event>, e: Event)
    requires HistoriesOk(steps, audit) && e.ModelResponded?
    ensures HistoriesOk(steps + [e], audit)
    ensures Executions(steps + [e]) == Executions(steps)
  {
    assert (steps + [e])[..|steps|] == steps;
  }

  lemma SaveKeepsSaves(conversation: seq<Json>, saves: seq<seq<Message>>, longer: seq<Message>)
    requires SavesOk(conversation, saves) && saves[|saves| - 1] <= longer
    ensures SavesOk(Serialise(longer), saves + [longer])
  {
    var q := saves + [longer];
    forall i, j | 0 <= i < j < |q| ensures q[i] <= q[j] {
      assert saves[i] <= saves[|saves| - 1];
    }
  }

  /** An execution that `ToolRegistry.execute` lets through keeps the ledger of approvals. */
  lemma InvokedOk(w: World, r: Run, phase: Phase, trace: seq<TraceEntry>, left: nat, tool: string,
                  arguments: Arguments, approval: Option<nat>)
    requires Active(w, r, phase, trace, left)
    requires approval.Some? ==>
               approval.value < |r.approvals| && r.approvals[approval.value].status == Approved &&
               r.approvals[approval.value].tool == tool && r.approvals[approval.value].arguments == arguments
    requires approval.Some? ==> forall i :: 0 <= i < |r.invocations| ==> r.invocations[i].approval != approval
    ensures Active(w, Invoked(w, r, tool, arguments, approval), phase, trace, left)
  {
    var q := r.invocations + [Invocation(tool, arguments, approval)];
    if Invokes(w, tool, arguments, approval.Some?) {
      forall i | 0 <= i < |q| ensures InvocationOk(w, r.approvals, q[i]) {
        if i < |r.invocations| { assert InvocationOk(w, r.approvals, r.invocations[i]); }
      }
      assert InvocationsOk(w, r.approvals, q);
    }
  }

  // -- the loop ----------------------------------------------------------

  ghost predicate TurnOk(w: World, t: Turn, left: nat) {
    match t
    case Continue(run, conversation, trace) => Driving(w, run, conversation, trace, left)
    case Stop(run, reply) => RunOk(w, run) && reply.status == run.status && run.status != Running
    case Raise(run) => RunOk(w, run) && run.status == Running
  }

  /** A result takes the place its call left open, however late it comes. */
  lemma AnsweredOk(conversation: seq<Message>, callId: string, tool: string, content: string)
    requires OpenOn(conversation, callId, tool)
    ensures Balanced(conversation + [ToolResult(callId, tool, content)])
    ensures conversation <= conversation + [ToolResult(callId, tool, content)]
  {
    var n := |conversation| - 1;
    var result := ToolResult(callId, tool, content);
    BalancedGrows(conversation[..n], conversation[n], result);
    assert conversation + [result] == conversation[..n] + [conversation[n]] + [result];
  }

  lemma FeedBackOk(w: World, r: Run, conversation: seq<Message>, call: ToolCall, content: string,
                   trace: seq<TraceEntry>, left: nat)
    requires Active(w, r, Idle, trace, left)
    requires OpenOn(conversation, call.id, call.name) && r.saves[|r.saves| - 1] <= conversation
    ensures TurnOk(w, FeedBack(w, r, conversation, call, content, trace), left)
  {
    var result := ToolResult(call.id, call.name, content);
    AnsweredOk(conversation, call.id, call.name, content);
    hide Balanced, OpenOn, Serialise, HistoriesOk, InvocationsOk, ApprovalsOk, PromptsOk, BudgetOk;
    SaveKeepsSaves(r.conversation, r.saves, conversation + [result]);
  }

  lemma ParkOk(w: World, r: Run, conversation: seq<Message>, call: ToolCall, risk: Risk, trace: seq<TraceEntry>,
               left: nat)
    requires Active(w, r, Asked(call.name, call.arguments), trace, left)
    requires conversation == [] || OpenOn(conversation, call.id, call.name)
    requires r.saves[|r.saves| - 1] <= conversation
    ensures RunOk(w, Respond(Park(r, conversation, call, risk), trace))
  {
    SaveKeepsSaves(r.conversation, r.saves, conversation);
    var a := Approval(call.name, call.arguments, risk, call.id, Pending);
    NoteKeepsTrails(r.steps, r.audit, ApprovalRequired(call.name, call.arguments));
    PendingKeepsLedger(w, r.approvals, r.invocations, a);
  }

  lemma PendingKeepsLedger(w: World, approvals: seq<Approval>, invocations: seq<Invocation>, a: Approval)
    requires InvocationsOk(w, approvals, invocations) && ApprovalsOk(false, approvals) && a.status == Pending
    ensures InvocationsOk(w, approvals + [a], invocations) && ApprovalsOk(true, approvals + [a])
    ensures Grants(approvals + [a]) == Grants(approvals)
  {
    assert (approvals + [a])[..|approvals|] == approvals;
    forall i | 0 <= i < |invocations| ensures InvocationOk(w, approvals + [a], invocations[i]) {
      assert InvocationOk(w, approvals, invocations[i]);
    }
  }

  lemma AbortOk(w: World, r: Run, phase: Phase, tool: string, arguments: Arguments, errorType: string,
                error: string, trace: seq<TraceEntry>, left: nat)
    requires Active(w, r, phase, trace, left) && (phase == Asked(tool, arguments) || phase == Granted(tool, arguments))
    ensures RunOk(w, Respond(Abort(r, tool, arguments, errorType, error), trace))
  {
    AuditKeepsTrails(r.steps, r.audit, AgentFailed(tool, arguments, errorType, error));
  }

  lemma HandleCallOk(w: World, id: RunId, r: Run, conversation: seq<Message>, call: ToolCall,
                     trace: seq<TraceEntry>, left: nat)
    requires Active(w, r, Idle, trace, left)
    requires OpenOn(conversation, call.id, call.name) && r.saves[|r.saves| - 1] <= conversation
    ensures TurnOk(w, HandleCall(w, id, r, conversation, call, trace), left)
  {
    hide Active, RunOk;
    if call.argumentError.Some? {
      var e := call.argumentError.value;
      NoteOk(w, r, Idle, trace, left, ToolFailed(call.name, OrNone(call.arguments), INVALID_ARGUMENTS_ERROR, e));
      FeedBackOk(w, FailTool(r, call.name, call.arguments, INVALID_ARGUMENTS_ERROR, e), conversation, call,
                 w.renderFailure(INVALID_ARGUMENTS_ERROR, e), trace, left);
    } else {
      var asked := Asked(call.name, call.arguments);
      var requested := Note(r, ToolRequested(call.name, call.arguments));
      NoteOk(w, r, Idle, trace, left, ToolRequested(call.name, call.arguments));
      InvokedOk(w, requested, asked, trace, left, call.name, call.arguments, None);
      match Execute(w, id, requested, call.name, call.arguments, None) {
        case Blocked(risk) => ParkOk(w, requested, conversation, call, risk, trace, left);
        case Ran(outcome) =>
          HandleOutcomeOk(w, Invoked(w, requested, call.name, call.arguments, None), conversation, call, outcome, trace,
                          left);
      }
    }
  }

  lemma HandleOutcomeOk(w: World, r: Run, conversation: seq<Message>, call: ToolCall, outcome: ToolOutcome,
                        trace: seq<TraceEntry>, left: nat)
    requires Active(w, r, Asked(call.name, call.arguments), trace, left)
    requires OpenOn(conversation, call.id, call.name) && r.saves[|r.saves| - 1] <= conversation
    ensures TurnOk(w, HandleOutcome(w, r, conversation, call, outcome, trace), left)
  {
    hide Active, RunOk;
    var asked := Asked(call.name, call.arguments);
    match outcome
    case Refused(errorType, error) =>
      NoteOk(w, r, asked, trace, left, ToolFailed(call.name, OrNone(call.arguments), errorType, error));
      FeedBackOk(w, FailTool(r, call.name, call.arguments, errorType, error), conversation, call,
                 w.renderFailure(errorType, error), trace, left);
    case Crashed(errorType, error) =>
      AbortOk(w, r, asked, call.name, call.arguments, errorType, error, trace, left);
    case Returned(result) =>
      NoteOk(w, r, asked, trace, left, ToolExecuted(call.name, call.arguments, result));
      FeedBackOk(w, Note(r, ToolExecuted(call.name, call.arguments, result)), conversation, call,
                 w.render(result), trace + [TraceEntry(call.name, call.arguments, result)], left);
  }

  /** A prompt is on record: whatever the model does with it, the run may rest. */
  lemma PromptedOk(w: World, r: Run, conversation: seq<Message>, trace: seq<TraceEntry>, left: nat)
    requires Driving(w, r, conversation, trace, left + 1)
    ensures Driving(w, r.(prompts := r.prompts + [conversation]), conversation, trace, left)
  {
    hide HistoriesOk, InvocationsOk, ApprovalsOk, SavesOk, Balanced, PhaseOf, Grants;
    var prompts := r.prompts + [conversation];
    assert PromptsOk(prompts);
  }

  lemma RaisedOk(w: World, r: Run, trace: seq<TraceEntry>, left: nat)
    requires Active(w, r, Idle, trace, left)
    ensures RunOk(w, r.(raised := true))
  {
    hide HistoriesOk, InvocationsOk, ApprovalsOk, SavesOk, PromptsOk, PhaseOf, Grants;
  }

  /** What the model answered is on record, and it leaves the phase and the executions as they were. */
  lemma RespondedOk(w: World, r: Run, conversation: seq<Message>, trace: seq<TraceEntry>, left: nat, e: Event)
    requires Driving(w, r, conversation, trace, left) && e.ModelResponded?
    ensures Driving(w, r.(steps := r.steps + [e]), conversation, trace, left)
  {
    hide InvocationsOk, ApprovalsOk, SavesOk, PromptsOk, Balanced, Grants;
    ResponseKeepsTrails(r.steps, r.audit, e);
  }

  lemma FinalAnswerOk(w: World, r: Run, trace: seq<TraceEntry>, left: nat, answer: string)
    requires Active(w, r, Idle, trace, left)
    ensures RunOk(w, Respond(Finish(r, Completed, answer), trace))
  {
    hide HistoriesOk, InvocationsOk, SavesOk, PromptsOk, PhaseOf, Grants;
  }

  lemma IterateOk(w: World, id: RunId, r: Run, conversation: seq<Message>, trace: seq<TraceEntry>, left: nat)
    requires Driving(w, r, conversation, trace, left + 1)
    ensures TurnOk(w, Iterate(w, id, r, conversation, trace), left)
  {
    hide HandleCall, Base, RunOk, BudgetOk, Executions;
    var asked := r.(prompts := r.prompts + [conversation]);
    PromptedOk(w, r, conversation, trace, left);
    match w.model(id, |r.prompts|, conversation)
    case ModelRaised => RaisedOk(w, asked, trace, left);
    case Responded(text, calls) =>
      var e := ModelResponded(text, calls);
      var answered := asked.(steps := asked.steps + [e]);
      RespondedOk(w, asked, conversation, trace, left, e);
      if calls != [] {
        var open := conversation + [AssistantMessage(text, [calls[0]])];
        assert open[..|open| - 1] == conversation;
        HandleCallOk(w, id, answered, open, calls[0], trace, left);
      } else {
        FinalAnswerOk(w, answered, trace, left, if text.None? then "" else text.value);
      }
  }

  lemma ExhaustedOk(w: World, r: Run, conversation: seq<Message>, trace: seq<TraceEntry>)
    requires Driving(w, r, conversation, trace, 0)
    ensures RunOk(w, Respond(Exhausted(r, trace), trace))
  {
    hide InvocationsOk, SavesOk, PromptsOk, Grants;
    AuditKeepsTrails(r.steps, r.audit, AgentMaxIterations(|trace|));
  }

  lemma {:induction false} DriveOk(w: World, id: RunId, r: Run, conversation: seq<Message>,
                                   trace: seq<TraceEntry>, n: nat)
    requires Driving(w, r, conversation, trace, n)
    ensures Settles(w, Drive(w, id, r, conversation, trace, n))
    decreases n
  {
    hide RunOk, Driving;
    if n == 0 {
      ExhaustedOk(w, r, conversation, trace);
    } else {
      IterateOk(w, id, r, conversation, trace, n - 1);
      match Iterate(w, id, r, conversation, trace)
      case Continue(run, extended, longer) => DriveOk(w, id, run, extended, longer, n - 1);
      case _ =>
    }
  }

  /** What an entry point leaves: a sound run, and a reply unless a model call raised. */
  ghost predicate Settles(w: World, outcome: (Run, Option<Reply>)) {
    && RunOk(w, outcome.0)
    && (outcome.1.None? <==> outcome.0.status == Running)
    && (outcome.1.Some? ==> outcome.1.value.status == outcome.0.status)
  }


  // -- the entry points --------------------------------------------------

  lemma StartRunOk(w: World, id: RunId, message: string)
    ensures Settles(w, StartRun(w, id, message))
  {
    hide RunOk, Settles;
    var c := [UserMessage(message)];
    assert Driving(w, Save(NEW_RUN, c), c, [], w.maxIterations);
    DriveOk(w, id, Save(NEW_RUN, c), c, [], w.maxIterations);
  }

  lemma RequestActionOk(w: World, id: RunId, callId: string, tool: string, arguments: Arguments)
    ensures Settles(w, RequestAction(w, id, callId, tool, arguments))
  {
    hide Active, RunOk, Park, Invoked, DirectOutcome;
    var created := Save(NEW_RUN, []);
    var call := ToolCall(callId, tool, arguments, None);
    CreatedOk(w);
    var requested := Note(created, ToolRequested(tool, arguments));
    NoteOk(w, created, Idle, [], 0, ToolRequested(tool, arguments));
    InvokedOk(w, requested, Asked(tool, arguments), [], 0, tool, arguments, None);
    match Execute(w, id, requested, tool, arguments, None) {
      case Blocked(risk) =>
        ParkOk(w, requested, [], call, risk, [], 0);
        ParkedReply(requested, [], call, risk);
      case Ran(outcome) =>
        DirectOutcomeOk(w, Invoked(w, requested, tool, arguments, None), Asked(tool, arguments), tool, arguments,
                        outcome, 0);
    }
  }

  lemma CreatedOk(w: World)
    ensures Active(w, Save(NEW_RUN, []), Idle, [], 0)
  {
    BudgetAtStart(w, 0);
    hide BudgetOk, InvocationOk, Balanced;
  }

  lemma BudgetAtStart(w: World, left: nat)
    requires left <= w.maxIterations
    ensures BudgetOk(w, 0, [], left)
  {
    assert Grants([]) == 0;
    assert w.maxIterations * (1 + 0) == w.maxIterations;
  }

  lemma ParkedReply(r: Run, conversation: seq<Message>, call: ToolCall, risk: Risk)
    ensures Respond(Park(r, conversation, call, risk), []) == Park(r, conversation, call, risk)
    ensures Park(r, conversation, call, risk).status == WaitingForApproval
  {
    assert r.traces + [] == r.traces;
  }

  /** Finishing a run in a phase that allows it. */
  lemma FinishOk(w: World, r: Run, phase: Phase, trace: seq<TraceEntry>, left: nat, status: RunStatus, answer: string)
    requires Active(w, r, phase, trace, left)
    requires phase == Idle && (status == Completed || status == Failed)
    ensures RunOk(w, Respond(Finish(r, status, answer), trace))
  {
  }

  lemma DirectOutcomeOk(w: World, r: Run, phase: Phase, tool: string, arguments: Arguments, outcome: ToolOutcome,
                        left: nat)
    requires Active(w, r, phase, [], left) && (phase == Asked(tool, arguments) || phase == Granted(tool, arguments))
    ensures Settles(w, DirectOutcome(r, tool, arguments, outcome))
  {
    hide Active, RunOk;
    match outcome
    case Refused(errorType, error) =>
      NoteOk(w, r, phase, [], left, ToolFailed(tool, OrNone(arguments), errorType, error));
      FinishOk(w, FailTool(r, tool, arguments, errorType, error), Idle, [], left, Failed, DIRECT_ACTION_FAILED_ANSWER);
      assert r.traces + [] == r.traces;
    case Crashed(errorType, error) =>
      AbortOk(w, r, phase, tool, arguments, errorType, error, [], left);
      assert r.traces + [] == r.traces;
    case Returned(result) =>
      var trace := [TraceEntry(tool, arguments, result)];
      NoteOk(w, r, phase, [], left, ToolExecuted(tool, arguments, result));
      assert [] + trace == trace;
      FinishOk(w, Note(r, ToolExecuted(tool, arguments, result)), Idle, trace, left, Completed, DIRECT_ACTION_ANSWER);
  }

  /** A pending approval is the last one, and its run waits on it. */
  lemma PendingIsLast(w: World, r: Run, k: nat)
    requires RunOk(w, r) && IsPending(r, k)
    ensures k == |r.approvals| - 1 && r.status == WaitingForApproval && !r.raised
    ensures ParkedOn(PhaseOf(r.audit), r.approvals[k], r.saves[|r.saves| - 1])
    ensures forall i :: 0 <= i < |r.invocations| ==> r.invocations[i].approval != Some(k)
  {
    forall i | 0 <= i < |r.invocations| ensures r.invocations[i].approval != Some(k) {
      assert InvocationOk(w, r.approvals, r.invocations[i]);
    }
  }

  lemma DecisionKeepsLedger(w: World, approvals: seq<Approval>, invocations: seq<Invocation>, status: ApprovalStatus)
    requires InvocationsOk(w, approvals, invocations) && ApprovalsOk(true, approvals) && status != Pending
    ensures
      var k := |approvals| - 1;
      var decided := approvals[k := approvals[k].(status := status)];
      && InvocationsOk(w, decided, invocations) && ApprovalsOk(false, decided)
      && Grants(decided) == Grants(approvals) + if status == Approved then 1 else 0
  {
    var k := |approvals| - 1;
    var decided := approvals[k := approvals[k].(status := status)];
    assert decided[..k] == approvals[..k];
    forall i | 0 <= i < |invocations| ensures InvocationOk(w, decided, invocations[i]) {
      assert InvocationOk(w, approvals, invocations[i]);
    }
  }

  lemma RejectOk(w: World, r: Run, k: nat)
    requires RunOk(w, r) && IsPending(r, k)
    ensures Settles(w, Reject(r, k))
  {
    var a := r.approvals[k];
    PendingIsLast(w, r, k);
    DecisionKeepsLedger(w, r.approvals, r.invocations, Rejected);
    NoteKeepsTrails(r.steps, r.audit, ApprovalDenied(a.tool, a.arguments));
  }

  lemma BudgetGrows(max: nat, grants: nat)
    ensures max * (1 + (grants + 1)) == max * (1 + grants) + max
  {
  }

  lemma ReleasedOk(w: World, r: Run, k: nat)
    requires RunOk(w, r) && IsPending(r, k)
    ensures Active(w, Released(r, k), Granted(r.approvals[k].tool, r.approvals[k].arguments), [], w.maxIterations)
  {
    var a := r.approvals[k];
    PendingIsLast(w, r, k);
    DecisionKeepsLedger(w, r.approvals, r.invocations, Approved);
    NoteKeepsTrails(r.steps, r.audit, ApprovalGranted(a.tool, a.arguments));
    BudgetGrows(w.maxIterations, Grants(r.approvals));
    assert r.traces + [] == r.traces;
  }

  /** What `approve` restores is the conversation saved when the run parked. */
  lemma RestoredOk(w: World, r: Run, k: nat)
    requires RunOk(w, r) && IsPending(r, k)
    ensures r.saves != [] && Deserialise(r.conversation) == Some(r.saves[|r.saves| - 1])
    ensures r.saves[|r.saves| - 1] == [] || OpenOn(r.saves[|r.saves| - 1], r.approvals[k].toolCallId, r.approvals[k].tool)
    ensures Released(r, k).saves == r.saves && Released(r, k).invocations == r.invocations
    ensures forall i :: 0 <= i < |r.invocations| ==> r.invocations[i].approval != Some(k)
  {
    PendingIsLast(w, r, k);
    ConversationRoundTrip(r.saves[|r.saves| - 1]);
  }

  /** The run with its released tool called. */
  function ReleasedRun(w: World, id: RunId, r: Run, k: nat): Run
    requires k < |r.approvals|
  {
    Invoked(w, Released(r, k), r.approvals[k].tool, r.approvals[k].arguments, Some(k))
  }

  /** A granted call is never blocked again, and its conversation can be restored. */
  lemma ApproveIs(w: World, id: RunId, r: Run, k: nat) returns (outcome: ToolOutcome)
    requires RunOk(w, r) && IsPending(r, k)
    ensures Execute(w, id, Released(r, k), r.approvals[k].tool, r.approvals[k].arguments, Some(k)) == Execution.Ran(outcome)
    ensures r.saves != [] && Deserialise(r.conversation) == Some(r.saves[|r.saves| - 1])
    ensures Approve(w, id, r, k) ==
            Complete(w, id, ReleasedRun(w, id, r, k), r.saves[|r.saves| - 1], r.approvals[k], outcome)
  {
    RestoredOk(w, r, k);
    hide RunOk, Deserialise, Complete, Released, Invoked;
    outcome := Execute(w, id, Released(r, k), r.approvals[k].tool, r.approvals[k].arguments, Some(k)).outcome;
  }

  lemma RanOk(w: World, id: RunId, r: Run, k: nat)
    requires RunOk(w, r) && IsPending(r, k)
    ensures Active(w, ReleasedRun(w, id, r, k), Granted(r.approvals[k].tool, r.approvals[k].arguments), [], w.maxIterations)
    ensures ReleasedRun(w, id, r, k).saves == r.saves
  {
    ReleasedOk(w, r, k);
    RestoredOk(w, r, k);
    hide Active, RunOk, Released, OpenOn;
    InvokedOk(w, Released(r, k), Granted(r.approvals[k].tool, r.approvals[k].arguments), [], w.maxIterations,
              r.approvals[k].tool, r.approvals[k].arguments, Some(k));
  }

  lemma ApproveOk(w: World, id: RunId, r: Run, k: nat)
    requires RunOk(w, r) && IsPending(r, k)
    ensures Settles(w, Approve(w, id, r, k))
  {
    var outcome := ApproveIs(w, id, r, k);
    RestoredOk(w, r, k);
    RanOk(w, id, r, k);
    hide Active, RunOk, Deserialise, Settles, OpenOn, Approve, Execute, Released, ReleasedRun, Complete;
    CompleteOk(w, id, ReleasedRun(w, id, r, k), r.saves[|r.saves| - 1], r.approvals[k], outcome);
  }

  lemma CompleteOk(w: World, id: RunId, r: Run, conversation: seq<Message>, a: Approval, outcome: ToolOutcome)
    requires Active(w, r, Granted(a.tool, a.arguments), [], w.maxIterations)
    requires r.saves[|r.saves| - 1] == conversation && (conversation == [] || OpenOn(conversation, a.toolCallId, a.tool))
    ensures Settles(w, Complete(w, id, r, conversation, a, outcome))
  {
    hide Active, Settles, OpenOn, DirectOutcome, Resume;
    if conversation == [] {
      DirectOutcomeOk(w, r, Granted(a.tool, a.arguments), a.tool, a.arguments, outcome, w.maxIterations);
    } else {
      ResumeOk(w, id, r, conversation, a, outcome);
    }
  }

  lemma ResumeOk(w: World, id: RunId, r: Run, conversation: seq<Message>, a: Approval, outcome: ToolOutcome)
    requires Active(w, r, Granted(a.tool, a.arguments), [], w.maxIterations)
    requires r.saves[|r.saves| - 1] == conversation && OpenOn(conversation, a.toolCallId, a.tool)
    ensures Settles(w, Resume(w, id, r, conversation, a, outcome))
  {
    hide Active, RunOk, Drive;
    var granted := Granted(a.tool, a.arguments);
    match outcome
    case Refused(errorType, error) =>
      NoteOk(w, r, granted, [], w.maxIterations, ToolFailed(a.tool, OrNone(a.arguments), errorType, error));
      AnsweredOk(conversation, a.toolCallId, a.tool, w.renderFailure(errorType, error));
      DriveOk(w, id, FailTool(r, a.tool, a.arguments, errorType, error),
              conversation + [ToolResult(a.toolCallId, a.tool, w.renderFailure(errorType, error))], [], w.maxIterations);
    case Crashed(errorType, error) =>
      AbortOk(w, r, granted, a.tool, a.arguments, errorType, error, [], w.maxIterations);
      assert r.traces + [] == r.traces;
    case Returned(result) =>
      var entry := TraceEntry(a.tool, a.arguments, result);
      NoteOk(w, r, granted, [], w.maxIterations, ToolExecuted(a.tool, a.arguments, result));
      assert [] + [entry] == [entry];
      AnsweredOk(conversation, a.toolCallId, a.tool, w.render(result));
      DriveOk(w, id, Note(r, ToolExecuted(a.tool, a.arguments, result)),
              conversation + [ToolResult(a.toolCallId, a.tool, w.render(result))], [entry], w.maxIterations);
  }

  lemma DenyAuthorizationOk(w: World, r: Run, tool: string)
    requires RunOk(w, r)
    ensures RunOk(w, DenyAuthorization(r, tool))
  {
    AuditKeepsTrails(r.steps, r.audit, AuthorizationDenied(tool));
  }

  lemma ReconcileRunOk(w: World, r: Run)
    requires RunOk(w, r)
    ensures RunOk(w, ReconcileRun(r)) && ReconcileRun(r).status != Running
  {
    hide HistoriesOk, PhaseOf, Executions, InvocationsOk, ApprovalsOk, SavesOk, PromptsOk, BudgetOk;
    if r.status == Running {
      NoteKeepsTrails(r.steps, r.audit, RunReconciled);
    }
  }

  lemma ResolveApprovalOk(w: World, id: RunId, r: Run, k: nat, approved: bool)
    requires RunOk(w, r)
    ensures RunOk(w, ResolveApproval(w, id, r, k, approved).0)
    ensures IsPending(r, k) ==> Settles(w, ResolveApproval(w, id, r, k, approved))
    ensures !IsPending(r, k) ==> ResolveApproval(w, id, r, k, approved) == (r, None)
  {
    hide RunOk, Approve, Reject;
    if IsPending(r, k) {
      if approved { ApproveOk(w, id, r, k); } else { RejectOk(w, r, k); }
    }
  }
}
