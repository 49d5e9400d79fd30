/** What is kept of a conversation: every save of a run, and that each one is the transcript of the steps before it. */
module AgentSaves {
  import opened Wrappers
  import opened AgentProtocol
  import opened AgentCore
  import opened AgentInvariants
  import opened AgentHistory
  import opened AgentTranscript

  predicate JustGranted(steps: seq<Event>) {
    steps != [] && steps[|steps| - 1].ApprovalGranted?
  }

  /** A call that is held is saved, and so is the outcome of one the loop served, but not of one an approval released. */
  predicate IsSaved(before: seq<Event>, e: Event, looped: bool) {
    e.ApprovalRequired? || (looped && (e.ToolExecuted? || e.ToolFailed?) && !JustGranted(before))
  }

  /** The saves of a run with these steps, which a message began; or, with nothing ever said, a person's request. */
  function SavesOf(w: World, message: string, looped: bool, steps: seq<Event>): seq<seq<Message>> {
    if steps == [] then [if looped then [UserMessage(message)] else []]
    else
      var before, e := steps[..|steps| - 1], steps[|steps| - 1];
      SavesOf(w, message, looped, before)
      + if IsSaved(before, e, looped) then [if looped then Transcript(w, message, steps) else []] else []
  }

  ghost predicate Kept(w: World, message: string, looped: bool, r: Run) {
    r.saves == SavesOf(w, message, looped, r.steps)
  }

  // -- single steps ------------------------------------------------------

  lemma NotSaved(w: World, message: string, looped: bool, steps: seq<Event>, e: Event)
    requires !IsSaved(steps, e, looped)
    ensures SavesOf(w, message, looped, steps + [e]) == SavesOf(w, message, looped, steps)
  {
    assert (steps + [e])[..|steps|] == steps;
  }

  lemma SavedNow(w: World, message: string, looped: bool, steps: seq<Event>, e: Event)
    requires IsSaved(steps, e, looped)
    ensures SavesOf(w, message, looped, steps + [e]) ==
            SavesOf(w, message, looped, steps) + [if looped then Extended(w, Transcript(w, message, steps), e) else []]
  {
    assert (steps + [e])[..|steps|] == steps;
  }

  /** The last save tells whether anything was ever said. */
  lemma {:induction false} LastSaveTells(w: World, message: string, looped: bool, steps: seq<Event>)
    ensures
      var saves := SavesOf(w, message, looped, steps);
      saves != [] && (saves[|saves| - 1] != [] <==> looped)
  {
    TranscriptIsSomething(w, message, steps);
    if steps != [] {
      LastSaveTells(w, message, looped, steps[..|steps| - 1]);
    }
  }

  // -- the loop ----------------------------------------------------------

  lemma OutcomeKept(w: World, message: string, r: Run, conversation: seq<Message>, call: ToolCall, outcome: ToolOutcome,
                    trace: seq<TraceEntry>)
    requires Kept(w, message, true, r) && conversation == Transcript(w, message, r.steps) && CallId(conversation) == call.id
    requires !JustGranted(r.steps)
    ensures Kept(w, message, true, HandleOutcome(w, r, conversation, call, outcome, trace).run)
  {
    hide SavesOf, Transcript, Serialise, CallId;
    match outcome
    case Refused(errorType, error) =>
      SavedNow(w, message, true, r.steps, ToolFailed(call.name, OrNone(call.arguments), errorType, error));
    case Crashed(errorType, error) =>
    case Returned(result) => SavedNow(w, message, true, r.steps, ToolExecuted(call.name, call.arguments, result));
  }

  lemma HandleCallKept(w: World, id: RunId, message: string, r: Run, conversation: seq<Message>, call: ToolCall,
                       trace: seq<TraceEntry>)
    requires Kept(w, message, true, r) && conversation == Transcript(w, message, r.steps) && CallId(conversation) == call.id
    requires !JustGranted(r.steps)
    ensures Kept(w, message, true, HandleCall(w, id, r, conversation, call, trace).run)
  {
    hide SavesOf, Transcript, Serialise, CallId, HandleOutcome;
    if call.argumentError.Some? {
      SavedNow(w, message, true, r.steps,
               ToolFailed(call.name, OrNone(call.arguments), INVALID_ARGUMENTS_ERROR, call.argumentError.value));
    } else {
      var e := ToolRequested(call.name, call.arguments);
      var requested := Note(r, e);
      NotSaved(w, message, true, r.steps, e);
      TranscriptGrows(w, message, r.steps, e);
      match Execute(w, id, requested, call.name, call.arguments, None)
      case Blocked(risk) => SavedNow(w, message, true, requested.steps, ApprovalRequired(call.name, call.arguments));
      case Ran(outcome) =>
        OutcomeKept(w, message, Invoked(w, requested, call.name, call.arguments, None), conversation, call, outcome, trace);
    }
  }

  lemma IterateKept(w: World, id: RunId, message: string, r: Run, conversation: seq<Message>, trace: seq<TraceEntry>)
    requires Kept(w, message, true, r) && conversation == Transcript(w, message, r.steps)
    ensures Kept(w, message, true, Iterate(w, id, r, conversation, trace).run)
  {
    hide SavesOf, Transcript, HandleCall;
    match w.model(id, |r.prompts|, conversation)
    case ModelRaised =>
    case Responded(text, calls) =>
      var e := ModelResponded(text, calls);
      NotSaved(w, message, true, r.steps, e);
      TranscriptGrows(w, message, r.steps, e);
      if calls != [] {
        var answered := r.(prompts := r.prompts + [conversation], steps := r.steps + [e]);
        HandleCallKept(w, id, message, answered, conversation + [AssistantMessage(text, [calls[0]])], calls[0], trace);
      }
  }

  lemma {:induction false} DriveKept(w: World, id: RunId, message: string, r: Run, conversation: seq<Message>,
                                     trace: seq<TraceEntry>, n: nat)
    requires Telling(w, id, message, r, conversation) && r.status == Running && Kept(w, message, true, r)
    ensures Kept(w, message, true, Drive(w, id, r, conversation, trace, n).0)
    decreases n
  {
    hide Told, Iterate, Transcript, SavesOf;
    if n > 0 {
      IterateTold(w, id, message, r, conversation, trace);
      IterateRuns(w, id, r, conversation, trace);
      IterateKept(w, id, message, r, conversation, trace);
      match Iterate(w, id, r, conversation, trace)
      case Continue(run, extended, longer) => DriveKept(w, id, message, run, extended, longer, n - 1);
      case _ =>
    }
  }

  // -- the entry points --------------------------------------------------

  lemma StartKept(w: World, id: RunId, message: string)
    ensures Kept(w, message, true, StartRun(w, id, message).0)
  {
    hide Told, Drive, Serialise;
    NothingTold(w, id, message);
    var conversation := [UserMessage(message)];
    DriveKept(w, id, message, Save(NEW_RUN, conversation), conversation, [], w.maxIterations);
  }

  lemma DirectKept(w: World, message: string, r: Run, tool: string, arguments: Arguments, outcome: ToolOutcome)
    requires Kept(w, message, false, r)
    ensures Kept(w, message, false, DirectOutcome(r, tool, arguments, outcome).0)
  {
    hide SavesOf;
    match outcome
    case Refused(errorType, error) =>
      NotSaved(w, message, false, r.steps, ToolFailed(tool, OrNone(arguments), errorType, error));
    case Crashed(errorType, error) =>
    case Returned(result) => NotSaved(w, message, false, r.steps, ToolExecuted(tool, arguments, result));
  }

  lemma RequestedKept(w: World, message: string, tool: string, arguments: Arguments)
    ensures Kept(w, message, false, Note(Save(NEW_RUN, []), ToolRequested(tool, arguments)))
  {
    hide Serialise, Transcript;
    NotSaved(w, message, false, [], ToolRequested(tool, arguments));
  }

  lemma RequestKept(w: World, id: RunId, message: string, callId: string, tool: string, arguments: Arguments)
    ensures Kept(w, message, false, RequestAction(w, id, callId, tool, arguments).0)
  {
    hide Serialise, DirectOutcome, Transcript, SavesOf;
    var requested := Note(Save(NEW_RUN, []), ToolRequested(tool, arguments));
    RequestedKept(w, message, tool, arguments);
    match Execute(w, id, requested, tool, arguments, None)
    case Blocked(risk) => SavedNow(w, message, false, requested.steps, ApprovalRequired(tool, arguments));
    case Ran(outcome) => DirectKept(w, message, Invoked(w, requested, tool, arguments, None), tool, arguments, outcome);
  }

  lemma ResumeKept(w: World, id: RunId, message: string, r: Run, conversation: seq<Message>, a: Approval, outcome: ToolOutcome)
    requires Telling(w, id, message, r, conversation) && r.status == Running && CallId(conversation) == a.toolCallId
    requires Kept(w, message, true, r) && JustGranted(r.steps)
    ensures Kept(w, message, true, Resume(w, id, r, conversation, a, outcome).0)
  {
    hide Told, Transcript, Drive, CallId, SavesOf;
    match outcome
    case Refused(errorType, error) =>
      var e := ToolFailed(a.tool, OrNone(a.arguments), errorType, error);
      QuietStep(w, id, message, r.prompts, r.steps, e);
      TranscriptGrows(w, message, r.steps, e);
      NotSaved(w, message, true, r.steps, e);
      DriveKept(w, id, message, FailTool(r, a.tool, a.arguments, errorType, error),
                conversation + [ToolResult(a.toolCallId, a.tool, w.renderFailure(errorType, error))], [], w.maxIterations);
    case Crashed(errorType, error) =>
    case Returned(result) =>
      var e := ToolExecuted(a.tool, a.arguments, result);
      QuietStep(w, id, message, r.prompts, r.steps, e);
      TranscriptGrows(w, message, r.steps, e);
      NotSaved(w, message, true, r.steps, e);
      DriveKept(w, id, message, Note(r, e), conversation + [ToolResult(a.toolCallId, a.tool, w.render(result))],
                [TraceEntry(a.tool, a.arguments, result)], w.maxIterations);
  }

  lemma ReleasedKept(w: World, id: RunId, message: string, looped: bool, r: Run, k: nat)
    requires Kept(w, message, looped, r) && k < |r.approvals|
    ensures Kept(w, message, looped, ReleasedRun(w, id, r, k)) && JustGranted(ReleasedRun(w, id, r, k).steps)
  {
    hide SavesOf;
    NotSaved(w, message, looped, r.steps, ApprovalGranted(r.approvals[k].tool, r.approvals[k].arguments));
  }

  lemma CompleteKept(w: World, id: RunId, message: string, looped: bool, r: Run, saved: seq<Message>, a: Approval,
                     outcome: ToolOutcome)
    requires Kept(w, message, looped, r) && JustGranted(r.steps) && (saved != [] <==> looped)
    requires looped ==> Telling(w, id, message, r, saved) && r.status == Running && CallId(saved) == a.toolCallId
    ensures Kept(w, message, looped, Complete(w, id, r, saved, a, outcome).0)
  {
    hide Kept, Telling, DirectOutcome, Resume, CallId;
    if looped {
      ResumeKept(w, id, message, r, saved, a, outcome);
    } else {
      DirectKept(w, message, r, a.tool, a.arguments, outcome);
    }
  }

  lemma ApproveKept(w: World, id: RunId, message: string, looped: bool, r: Run, k: nat)
    requires RunOk(w, r) && IsPending(r, k) && Resting(w, id, message, r) && Kept(w, message, looped, r)
    ensures Kept(w, message, looped, Approve(w, id, r, k).0)
  {
    var saved := SavedTells(w, id, message, looped, r, k);
    hide *;
    var outcome := ApproveIs(w, id, r, k);
    PendingIsHere(w, r, k);
    ReleasedTold(w, id, message, r, k);
    ReleasedKept(w, id, message, looped, r, k);
    CompleteKept(w, id, message, looped, ReleasedRun(w, id, r, k), saved, r.approvals[k], outcome);
  }

  lemma PendingIsHere(w: World, r: Run, k: nat)
    requires RunOk(w, r) && IsPending(r, k)
    ensures k < |r.approvals| && !r.raised
  {
    PendingIsLast(w, r, k);
  }

  /** What a waiting run saved last: its transcript, open on the call that is held; nothing for a requested one. */
  lemma SavedTells(w: World, id: RunId, message: string, looped: bool, r: Run, k: nat) returns (saved: seq<Message>)
    requires RunOk(w, r) && IsPending(r, k) && Resting(w, id, message, r) && Kept(w, message, looped, r)
    ensures r.saves != [] && saved == r.saves[|r.saves| - 1] && (saved != [] <==> looped)
    ensures looped ==> saved == Transcript(w, message, r.steps) && CallId(saved) == r.approvals[k].toolCallId
  {
    RestoredOk(w, r, k);
    PendingIsLast(w, r, k);
    saved := r.saves[|r.saves| - 1];
    assert saved != [] ==> CallId(saved) == r.approvals[k].toolCallId;
    hide RunOk, Told, Transcript, SavesOf, CallId, Released, Deserialise, OpenOn, ParkedOn;
    LastSaveTells(w, message, looped, r.steps);
  }

  lemma ChangedKept(w: World, message: string, looped: bool, r: Run, c: Call)
    requires RunOk(w, r) && !Starts(c) && Resting(w, c.id, message, r) && Kept(w, message, looped, r)
    ensures Kept(w, message, looped, Changed(w, r, c))
  {
    hide RunOk, Approve, Told, Transcript, SavesOf, Resting;
    match c
    case Decide(id, k, approved) =>
      if IsPending(r, k) {
        if approved {
          ApproveKept(w, id, message, looped, r, k);
        } else {
          NotSaved(w, message, looped, r.steps, ApprovalDenied(r.approvals[k].tool, r.approvals[k].arguments));
        }
      }
    case Deny(_, tool) =>
    case Reconcile(id) => NotSaved(w, message, looped, r.steps, RunReconciled);
  }

  /** Whether the run was started with a message; else a person requested its one call. */
  predicate Spoken(w: World, calls: seq<Call>, id: RunId) {
    calls != [] &&
    var n := |calls| - 1;
    if id in ServeAll(w, calls[..n]) then Spoken(w, calls[..n], id) else calls[n].Start? && calls[n].id == id
  }

  lemma {:induction false} HistoryKept(w: World, calls: seq<Call>, id: RunId)
    requires id in ServeAll(w, calls)
    ensures Kept(w, Opening(w, calls, id), Spoken(w, calls, id), ServeAll(w, calls)[id])
  {
    hide RunOk, Entered, Changed, Resting, Kept;
    var n := |calls| - 1;
    var before, c := ServeAll(w, calls[..n]), calls[n];
    if id in before {
      HistoryKept(w, calls[..n], id);
      EveryRunIsSound(w, calls[..n], id);
      HistoryTold(w, calls[..n], id);
      if c.id == id && !Starts(c) {
        ChangedKept(w, Opening(w, calls, id), Spoken(w, calls, id), before[id], c);
      }
    } else {
      NobodyOpened(w, calls[..n], id);
      EnteredKept(w, c);
    }
  }

  lemma EnteredKept(w: World, c: Call)
    requires Starts(c)
    ensures Kept(w, if c.Start? then c.message else "", c.Start?, Entered(w, c))
  {
    hide StartRun, RequestAction, Kept;
    match c
    case Start(id, message) => StartKept(w, id, message);
    case Request(id, callId, tool, arguments) => RequestKept(w, id, "", callId, tool, arguments);
  }

  /**
   Over every history: a run that a message began is saved at its start, when a call is held, and
   after every call the loop served, each time as the transcript so far; no save is missing and
   there is no other.  A run a person requested has only empty conversations to save.
   */
  lemma EverySaveIsTheTranscript(w: World, calls: seq<Call>, id: RunId)
    requires id in ServeAll(w, calls)
    ensures
      var r := ServeAll(w, calls)[id];
      r.saves == SavesOf(w, Opening(w, calls, id), Spoken(w, calls, id), r.steps)
  {
    hide ServeAll, SavesOf, Opening, Spoken;
    HistoryKept(w, calls, id);
  }
}
