/**
 What the model is told: each prompt is, word for word, the transcript of the steps before it, and
 each step after it is what the model answered to just that prompt.
 */
module AgentTranscript {
  import opened Wrappers
  import opened AgentProtocol
  import opened AgentCore
  import opened AgentInvariants
  import opened AgentHistory

  /** The call a conversation waits on. */
  function CallId(c: seq<Message>): string {
    if c != [] && c[|c| - 1].toolCalls != [] then c[|c| - 1].toolCalls[0].id else ""
  }

  /** What one step adds: the model's first call, or what came of the call the conversation waits on. */
  function Extended(w: World, c: seq<Message>, e: Event): seq<Message> {
    if e.ModelResponded? && e.calls != [] then c + [AssistantMessage(e.text, [e.calls[0]])]
    else if e.ToolExecuted? then c + [ToolResult(CallId(c), e.tool, w.render(e.result))]
    else if e.ToolFailed? then c + [ToolResult(CallId(c), e.tool, w.renderFailure(e.errorType, e.error))]
    else c
  }

  /** The conversation a run's steps amount to: the user's message, then each call and what came of it. */
  function Transcript(w: World, message: string, steps: seq<Event>): seq<Message> {
    if steps == [] then [UserMessage(message)]
    else Extended(w, Transcript(w, message, steps[..|steps| - 1]), steps[|steps| - 1])
  }

  /** What the model was asked before each of its answers. */
  function PromptsOf(w: World, message: string, steps: seq<Event>): seq<seq<Message>> {
    if steps == [] then []
    else
      var init := steps[..|steps| - 1];
      PromptsOf(w, message, init) + if steps[|steps| - 1].ModelResponded? then [Transcript(w, message, init)] else []
  }

  /** The answers of the model that are on record. */
  function Said(steps: seq<Event>): seq<ModelTurn> {
    if steps == [] then []
    else
      var last := steps[|steps| - 1];
      Said(steps[..|steps| - 1]) + if last.ModelResponded? then [Responded(last.text, last.calls)] else []
  }

  /** A call is asked for as the model put it, or fails at once if its arguments could not be read. */
  predicate Serves(call: ToolCall, e: Event) {
    if call.argumentError.Some?
    then e == ToolFailed(call.name, OrNone(call.arguments), INVALID_ARGUMENTS_ERROR, call.argumentError.value)
    else e == ToolRequested(call.name, call.arguments)
  }

  predicate Calls(e: Event) {
    e.ModelResponded? && e.calls != []
  }

  ghost predicate Follows(steps: seq<Event>) {
    forall i :: 0 <= i < |steps| - 1 && Calls(steps[i]) ==> Serves(steps[i].calls[0], steps[i + 1])
  }

  predicate Dangles(steps: seq<Event>) {
    steps != [] && Calls(steps[|steps| - 1])
  }

  /** What was asked, what was answered, and what was done about it. */
  ghost predicate Told(w: World, id: RunId, message: string, prompts: seq<seq<Message>>, steps: seq<Event>, raised: bool) {
    && prompts == PromptsOf(w, message, steps) + (if raised then [Transcript(w, message, steps)] else [])
    && |Said(steps)| == |PromptsOf(w, message, steps)|
    && (forall i :: 0 <= i < |Said(steps)| ==> w.model(id, i, prompts[i]) == Said(steps)[i])
    && (raised ==> w.model(id, |Said(steps)|, prompts[|Said(steps)|]) == ModelRaised)
    && Follows(steps)
  }

  /** A finished model run ends on the model's answer; a waiting one is saved as its transcript. */
  ghost predicate Resting(w: World, id: RunId, message: string, r: Run) {
    && Told(w, id, message, r.prompts, r.steps, r.raised) && !Dangles(r.steps)
    && (r.status == WaitingForApproval && r.prompts != [] ==>
          r.saves != [] && r.saves[|r.saves| - 1] == Transcript(w, message, r.steps))
    && (r.status == WaitingForApproval && r.prompts == [] ==> r.saves != [] && r.saves[|r.saves| - 1] == [])
    && (r.status == Completed && r.prompts != [] ==> Concluded(r))
  }

  ghost predicate Concluded(r: Run) {
    && r.steps != []
    && var last := r.steps[|r.steps| - 1];
       last.ModelResponded? && last.calls == [] && r.answer == Some(if last.text.Some? then last.text.value else "")
  }

  /** A run about to ask the model about `conversation`. */
  ghost predicate Telling(w: World, id: RunId, message: string, r: Run, conversation: seq<Message>) {
    && Told(w, id, message, r.prompts, r.steps, false) && !r.raised && !Dangles(r.steps)
    && conversation == Transcript(w, message, r.steps)
  }

  // -- single steps ------------------------------------------------------

  lemma StepsGrow(w: World, message: string, steps: seq<Event>, e: Event)
    ensures (steps + [e])[..|steps|] == steps
    ensures PromptsOf(w, message, steps + [e]) ==
            PromptsOf(w, message, steps) + if e.ModelResponded? then [Transcript(w, message, steps)] else []
    ensures Said(steps + [e]) == Said(steps) + if e.ModelResponded? then [Responded(e.text, e.calls)] else []
  {
    assert (steps + [e])[..|steps|] == steps;
  }

  lemma TranscriptGrows(w: World, message: string, steps: seq<Event>, e: Event)
    ensures Transcript(w, message, steps + [e]) == Extended(w, Transcript(w, message, steps), e)
  {
    assert (steps + [e])[..|steps|] == steps;
  }

  lemma FollowsGrow(steps: seq<Event>, e: Event)
    requires Follows(steps) && (Dangles(steps) ==> Serves(steps[|steps| - 1].calls[0], e))
    ensures Follows(steps + [e])
  {
    var longer := steps + [e];
    forall i | 0 <= i < |longer| - 1 && Calls(longer[i]) ensures Serves(longer[i].calls[0], longer[i + 1]) {
      if i < |steps| - 1 { assert longer[i] == steps[i] && longer[i + 1] == steps[i + 1]; }
    }
  }

  /** A step that is not the model's. */
  lemma QuietStep(w: World, id: RunId, message: string, prompts: seq<seq<Message>>, steps: seq<Event>, e: Event)
    requires Told(w, id, message, prompts, steps, false) && !e.ModelResponded?
    requires Dangles(steps) ==> Serves(steps[|steps| - 1].calls[0], e)
    ensures Told(w, id, message, prompts, steps + [e], false) && !Dangles(steps + [e])
  {
    hide PromptsOf, Said, Transcript, Follows;
    StepsGrow(w, message, steps, e);
    FollowsGrow(steps, e);
    assert PromptsOf(w, message, steps) + [] == PromptsOf(w, message, steps) && Said(steps) + [] == Said(steps);
  }

  /** The model's answer to what it was just asked. */
  lemma AnswerStep(w: World, id: RunId, message: string, prompts: seq<seq<Message>>, steps: seq<Event>, e: Event)
    requires Told(w, id, message, prompts, steps, false) && !Dangles(steps) && e.ModelResponded?
    requires w.model(id, |prompts|, Transcript(w, message, steps)) == Responded(e.text, e.calls)
    ensures Told(w, id, message, prompts + [Transcript(w, message, steps)], steps + [e], false)
  {
    hide PromptsOf, Said, Transcript, Follows;
    StepsGrow(w, message, steps, e);
    FollowsGrow(steps, e);
    var p := PromptsOf(w, message, steps);
    assert prompts == p by { assert p + [] == p; }
    assert PromptsOf(w, message, steps + [e]) + [] == p + [Transcript(w, message, steps)];
  }

  lemma RaisedStep(w: World, id: RunId, message: string, prompts: seq<seq<Message>>, steps: seq<Event>)
    requires Told(w, id, message, prompts, steps, false)
    requires w.model(id, |prompts|, Transcript(w, message, steps)) == ModelRaised
    ensures Told(w, id, message, prompts + [Transcript(w, message, steps)], steps, true)
  {
    hide PromptsOf, Said, Transcript, Follows;
    var p := PromptsOf(w, message, steps);
    assert prompts == p by { assert p + [] == p; }
  }

  // -- the loop ----------------------------------------------------------

  ghost predicate TurnTold(w: World, id: RunId, message: string, t: Turn) {
    match t
    case Continue(run, conversation, _) => Telling(w, id, message, run, conversation) && run.prompts != []
    case Stop(run, _) => Resting(w, id, message, run)
    case Raise(run) => Resting(w, id, message, run)
  }

  /** The outcome of the call the conversation waits on. */
  lemma OutcomeTold(w: World, id: RunId, message: string, r: Run, conversation: seq<Message>, call: ToolCall,
                    outcome: ToolOutcome, trace: seq<TraceEntry>)
    requires Telling(w, id, message, r, conversation) && CallId(conversation) == call.id && r.prompts != []
    requires r.status == Running
    ensures TurnTold(w, id, message, HandleOutcome(w, r, conversation, call, outcome, trace))
  {
    hide Told, Transcript, Serialise, CallId;
    match outcome
    case Refused(errorType, error) =>
      var e := ToolFailed(call.name, OrNone(call.arguments), errorType, error);
      QuietStep(w, id, message, r.prompts, r.steps, e);
      TranscriptGrows(w, message, r.steps, e);
    case Crashed(errorType, error) =>
    case Returned(result) =>
      var e := ToolExecuted(call.name, call.arguments, result);
      QuietStep(w, id, message, r.prompts, r.steps, e);
      TranscriptGrows(w, message, r.steps, e);
  }

  lemma HandleCallTold(w: World, id: RunId, message: string, r: Run, conversation: seq<Message>, call: ToolCall,
                       trace: seq<TraceEntry>)
    requires Told(w, id, message, r.prompts, r.steps, false) && !r.raised && r.prompts != [] && r.status == Running
    requires conversation == Transcript(w, message, r.steps) && CallId(conversation) == call.id
    requires Dangles(r.steps) && r.steps[|r.steps| - 1].calls[0] == call
    ensures TurnTold(w, id, message, HandleCall(w, id, r, conversation, call, trace))
  {
    hide Told, Transcript, Serialise, CallId, HandleOutcome;
    if call.argumentError.Some? {
      var e := ToolFailed(call.name, OrNone(call.arguments), INVALID_ARGUMENTS_ERROR, call.argumentError.value);
      QuietStep(w, id, message, r.prompts, r.steps, e);
      TranscriptGrows(w, message, r.steps, e);
    } else {
      var e := ToolRequested(call.name, call.arguments);
      var requested := Note(r, e);
      QuietStep(w, id, message, r.prompts, r.steps, e);
      TranscriptGrows(w, message, r.steps, e);
      match Execute(w, id, requested, call.name, call.arguments, None)
      case Blocked(risk) =>
        var f := ApprovalRequired(call.name, call.arguments);
        QuietStep(w, id, message, r.prompts, requested.steps, f);
        TranscriptGrows(w, message, requested.steps, f);
      case Ran(outcome) =>
        OutcomeTold(w, id, message, Invoked(w, requested, call.name, call.arguments, None), conversation, call, outcome, trace);
    }
  }

  lemma IterateTold(w: World, id: RunId, message: string, r: Run, conversation: seq<Message>, trace: seq<TraceEntry>)
    requires Telling(w, id, message, r, conversation) && r.status == Running
    ensures TurnTold(w, id, message, Iterate(w, id, r, conversation, trace))
  {
    hide Told, Transcript, HandleCall;
    var asked := r.(prompts := r.prompts + [conversation]);
    assert |r.prompts| == |r.prompts + [conversation]| - 1;
    match w.model(id, |r.prompts|, conversation)
    case ModelRaised => RaisedStep(w, id, message, r.prompts, r.steps);
    case Responded(text, calls) =>
      var e := ModelResponded(text, calls);
      var answered := asked.(steps := asked.steps + [e]);
      AnswerStep(w, id, message, r.prompts, r.steps, e);
      TranscriptGrows(w, message, r.steps, e);
      if calls != [] {
        HandleCallTold(w, id, message, answered, conversation + [AssistantMessage(text, [calls[0]])], calls[0], trace);
      }
  }

  lemma HandleCallRuns(w: World, id: RunId, r: Run, conversation: seq<Message>, call: ToolCall, trace: seq<TraceEntry>)
    requires r.status == Running
    ensures var t := HandleCall(w, id, r, conversation, call, trace); t.Continue? ==> t.run.status == Running
  {
    hide Serialise;
  }

  lemma IterateRuns(w: World, id: RunId, r: Run, conversation: seq<Message>, trace: seq<TraceEntry>)
    requires r.status == Running
    ensures var t := Iterate(w, id, r, conversation, trace); t.Continue? ==> t.run.status == Running
  {
    hide HandleCall;
    match w.model(id, |r.prompts|, conversation)
    case ModelRaised =>
    case Responded(text, calls) =>
      if calls != [] {
        var answered := r.(prompts := r.prompts + [conversation], steps := r.steps + [ModelResponded(text, calls)]);
        HandleCallRuns(w, id, answered, conversation + [AssistantMessage(text, [calls[0]])], calls[0], trace);
      }
  }

  lemma {:induction false} DriveTold(w: World, id: RunId, message: string, r: Run, conversation: seq<Message>,
                                     trace: seq<TraceEntry>, n: nat)
    requires Telling(w, id, message, r, conversation) && r.status == Running
    ensures Resting(w, id, message, Drive(w, id, r, conversation, trace, n).0)
    decreases n
  {
    hide Told, Iterate, Transcript;
    if n > 0 {
      IterateTold(w, id, message, r, conversation, trace);
      IterateRuns(w, id, r, conversation, trace);
      match Iterate(w, id, r, conversation, trace)
      case Continue(run, extended, longer) => DriveTold(w, id, message, run, extended, longer, n - 1);
      case _ =>
    }
  }

  // -- the entry points --------------------------------------------------

  lemma NothingTold(w: World, id: RunId, message: string)
    ensures Told(w, id, message, [], [], false) && Transcript(w, message, []) == [UserMessage(message)]
  {
  }

  lemma StartTold(w: World, id: RunId, message: string)
    ensures Resting(w, id, message, StartRun(w, id, message).0)
  {
    hide Told, Transcript, Drive, Serialise;
    NothingTold(w, id, message);
    var conversation := [UserMessage(message)];
    DriveTold(w, id, message, Save(NEW_RUN, conversation), conversation, [], w.maxIterations);
  }

  /** A run without a model has no prompts to account for. */
  lemma DirectTold(w: World, id: RunId, message: string, r: Run, tool: string, arguments: Arguments, outcome: ToolOutcome)
    requires Told(w, id, message, [], r.steps, false) && !r.raised && !Dangles(r.steps) && r.prompts == []
    ensures Resting(w, id, message, DirectOutcome(r, tool, arguments, outcome).0)
    ensures DirectOutcome(r, tool, arguments, outcome).0.prompts == []
  {
    hide Told;
    match outcome
    case Refused(errorType, error) =>
      QuietStep(w, id, message, [], r.steps, ToolFailed(tool, OrNone(arguments), errorType, error));
    case Crashed(errorType, error) =>
    case Returned(result) => QuietStep(w, id, message, [], r.steps, ToolExecuted(tool, arguments, result));
  }

  lemma RequestTold(w: World, id: RunId, message: string, callId: string, tool: string, arguments: Arguments)
    ensures Resting(w, id, message, RequestAction(w, id, callId, tool, arguments).0)
  {
    hide Told, Transcript, Serialise, DirectOutcome;
    NothingTold(w, id, message);
    var requested := Note(Save(NEW_RUN, []), ToolRequested(tool, arguments));
    QuietStep(w, id, message, [], [], ToolRequested(tool, arguments));
    assert [] + [ToolRequested(tool, arguments)] == [ToolRequested(tool, arguments)];
    match Execute(w, id, requested, tool, arguments, None)
    case Blocked(risk) => QuietStep(w, id, message, [], requested.steps, ApprovalRequired(tool, arguments));
    case Ran(outcome) =>
      DirectTold(w, id, message, Invoked(w, requested, tool, arguments, None), tool, arguments, outcome);
  }

  /** The approved call, with its result put where the saved conversation waits for it. */
  lemma ResumeTold(w: World, id: RunId, message: string, r: Run, conversation: seq<Message>, a: Approval, outcome: ToolOutcome)
    requires Telling(w, id, message, r, conversation) && r.status == Running && conversation != [] && r.prompts != []
    requires CallId(conversation) == a.toolCallId
    ensures Resting(w, id, message, Resume(w, id, r, conversation, a, outcome).0)
  {
    hide Told, Transcript, Drive, CallId;
    match outcome
    case Refused(errorType, error) =>
      var e := ToolFailed(a.tool, OrNone(a.arguments), errorType, error);
      QuietStep(w, id, message, r.prompts, r.steps, e);
      TranscriptGrows(w, message, r.steps, e);
      DriveTold(w, id, message, FailTool(r, a.tool, a.arguments, errorType, error),
                conversation + [ToolResult(a.toolCallId, a.tool, w.renderFailure(errorType, error))], [], w.maxIterations);
    case Crashed(errorType, error) =>
    case Returned(result) =>
      var e := ToolExecuted(a.tool, a.arguments, result);
      QuietStep(w, id, message, r.prompts, r.steps, e);
      TranscriptGrows(w, message, r.steps, e);
      DriveTold(w, id, message, Note(r, e), conversation + [ToolResult(a.toolCallId, a.tool, w.render(result))],
                [TraceEntry(a.tool, a.arguments, result)], w.maxIterations);
  }

  lemma ReleasedTold(w: World, id: RunId, message: string, r: Run, k: nat)
    requires Resting(w, id, message, r) && !r.raised && k < |r.approvals|
    ensures
      var ran := ReleasedRun(w, id, r, k);
      && Telling(w, id, message, ran, Transcript(w, message, r.steps)) && ran.status == Running && ran.prompts == r.prompts
  {
    hide Told, Transcript;
    var e := ApprovalGranted(r.approvals[k].tool, r.approvals[k].arguments);
    QuietStep(w, id, message, r.prompts, r.steps, e);
    TranscriptGrows(w, message, r.steps, e);
  }

  lemma ApproveTold(w: World, id: RunId, message: string, r: Run, k: nat)
    requires RunOk(w, r) && IsPending(r, k) && Resting(w, id, message, r)
    ensures Resting(w, id, message, Approve(w, id, r, k).0)
  {
    var outcome := ApproveIs(w, id, r, k);
    RestoredOk(w, r, k);
    PendingIsLast(w, r, k);
    var saved, a := r.saves[|r.saves| - 1], r.approvals[k];
    assert saved != [] ==> CallId(saved) == a.toolCallId;
    hide RunOk, Told, Transcript, Approve, Execute, Released, ReleasedRun, Deserialise, OpenOn, ParkedOn, DirectOutcome, Resume, CallId;
    ReleasedTold(w, id, message, r, k);
    if saved == [] {
      assert r.prompts == [] by { if r.prompts != [] { TranscriptIsSomething(w, message, r.steps); } }
      DirectTold(w, id, message, ReleasedRun(w, id, r, k), a.tool, a.arguments, outcome);
    } else {
      ResumeTold(w, id, message, ReleasedRun(w, id, r, k), saved, a, outcome);
    }
  }

  lemma {:induction false} TranscriptIsSomething(w: World, message: string, steps: seq<Event>)
    ensures Transcript(w, message, steps) != []
  {
    if steps != [] {
      TranscriptIsSomething(w, message, steps[..|steps| - 1]);
    }
  }

  /** A step that adds nothing to what was said. */
  lemma SilentStep(w: World, id: RunId, message: string, prompts: seq<seq<Message>>, steps: seq<Event>, e: Event, raised: bool)
    requires Told(w, id, message, prompts, steps, raised) && !Dangles(steps) && e.RunReconciled?
    ensures Told(w, id, message, prompts, steps + [e], raised) && !Dangles(steps + [e])
    ensures Transcript(w, message, steps + [e]) == Transcript(w, message, steps)
  {
    hide PromptsOf, Said, Transcript, Follows;
    StepsGrow(w, message, steps, e);
    TranscriptGrows(w, message, steps, e);
    FollowsGrow(steps, e);
    assert PromptsOf(w, message, steps) + [] == PromptsOf(w, message, steps) && Said(steps) + [] == Said(steps);
  }

  lemma ReconciledTold(w: World, id: RunId, message: string, r: Run)
    requires Resting(w, id, message, r)
    ensures Resting(w, id, message, ReconcileRun(r))
  {
    hide Told, Transcript;
    if r.status == Running {
      SilentStep(w, id, message, r.prompts, r.steps, RunReconciled, r.raised);
    }
  }

  lemma ChangedTold(w: World, message: string, r: Run, c: Call)
    requires RunOk(w, r) && !Starts(c) && Resting(w, c.id, message, r)
    ensures Resting(w, c.id, message, Changed(w, r, c))
  {
    hide Approve, Told, Transcript, Base, PhaseOf;
    match c
    case Decide(id, k, approved) =>
      if IsPending(r, k) {
        if approved {
          ApproveTold(w, id, message, r, k);
        } else {
          PendingIsLast(w, r, k);
          QuietStep(w, id, message, r.prompts, r.steps, ApprovalDenied(r.approvals[k].tool, r.approvals[k].arguments));
        }
      }
    case Deny(_, tool) =>
    case Reconcile(id) => ReconciledTold(w, id, message, r);
  }

  lemma EnteredTold(w: World, c: Call)
    requires Starts(c)
    ensures Resting(w, c.id, if c.Start? then c.message else "", Entered(w, c))
  {
    hide StartRun, RequestAction, Resting;
    match c
    case Start(id, message) => StartTold(w, id, message);
    case Request(id, callId, tool, arguments) => RequestTold(w, id, "", callId, tool, arguments);
  }

  /** The user's message a run was started with; none for a run that a person composed. */
  function Opening(w: World, calls: seq<Call>, id: RunId): string {
    if calls == [] then ""
    else
      var n := |calls| - 1;
      if id !in ServeAll(w, calls[..n]) && calls[n].Start? && calls[n].id == id then calls[n].message
      else Opening(w, calls[..n], id)
  }

  lemma {:induction false} NobodyOpened(w: World, calls: seq<Call>, id: RunId)
    requires id !in ServeAll(w, calls)
    ensures Opening(w, calls, id) == ""
  {
    hide Entered, Changed;
    if calls != [] {
      NobodyOpened(w, calls[..|calls| - 1], id);
    }
  }

  lemma {:induction false} HistoryTold(w: World, calls: seq<Call>, id: RunId)
    requires id in ServeAll(w, calls)
    ensures Resting(w, id, Opening(w, calls, id), ServeAll(w, calls)[id])
  {
    hide RunOk, Entered, Changed, Resting;
    var n := |calls| - 1;
    var before, c := ServeAll(w, calls[..n]), calls[n];
    if id in before {
      HistoryTold(w, calls[..n], id);
      EveryRunIsSound(w, calls[..n], id);
      if c.id == id && !Starts(c) { ChangedTold(w, Opening(w, calls, id), before[id], c); }
    } else {
      NobodyOpened(w, calls[..n], id);
      EnteredTold(w, c);
    }
  }

  // -- what a reader of the histories may rely on ------------------------

  /** Every prompt is the transcript of the steps before it, from the user's own message on, across parks and approvals. */
  lemma EveryPromptIsTheTranscript(w: World, calls: seq<Call>, id: RunId)
    requires id in ServeAll(w, calls)
    ensures
      var r, message := ServeAll(w, calls)[id], Opening(w, calls, id);
      r.prompts == PromptsOf(w, message, r.steps) + if r.raised then [Transcript(w, message, r.steps)] else []
  {
    hide ServeAll, PromptsOf, Transcript, Opening;
    HistoryTold(w, calls, id);
  }

  /** And every answer on record is what the model gave to that prompt; a run that raised did so at its last. */
  lemma EveryAnswerIsTheModels(w: World, calls: seq<Call>, id: RunId)
    requires id in ServeAll(w, calls)
    ensures
      var r := ServeAll(w, calls)[id];
      var said := Said(r.steps);
      && |r.prompts| == |said| + (if r.raised then 1 else 0)
      && (forall i :: 0 <= i < |said| ==> w.model(id, i, r.prompts[i]) == said[i])
      && (r.raised ==> w.model(id, |said|, r.prompts[|said|]) == ModelRaised)
  {
    hide ServeAll, PromptsOf, Transcript, Opening, Said;
    HistoryTold(w, calls, id);
  }

  /** Of what the model asks for, the first call is served next, as it was put; an answer without one ends the run. */
  lemma FirstCallIsServed(w: World, calls: seq<Call>, id: RunId, i: nat)
    requires id in ServeAll(w, calls) && i < |ServeAll(w, calls)[id].steps|
    requires ServeAll(w, calls)[id].steps[i].ModelResponded? && ServeAll(w, calls)[id].steps[i].calls != []
    ensures
      var steps := ServeAll(w, calls)[id].steps;
      i + 1 < |steps| && Serves(steps[i].calls[0], steps[i + 1])
  {
    hide ServeAll, PromptsOf, Transcript, Opening, Said, Serves;
    HistoryTold(w, calls, id);
  }

  lemma CompletedRunsAnswer(w: World, calls: seq<Call>, id: RunId)
    requires id in ServeAll(w, calls) && ServeAll(w, calls)[id].status == Completed && ServeAll(w, calls)[id].prompts != []
    ensures
      var r := ServeAll(w, calls)[id];
      r.steps != [] &&
      var last := r.steps[|r.steps| - 1];
      last.ModelResponded? && last.calls == [] && r.answer == Some(if last.text.Some? then last.text.value else "")
  {
    hide ServeAll, Told, Opening;
    HistoryTold(w, calls, id);
  }
}
