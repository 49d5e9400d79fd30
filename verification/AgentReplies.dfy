/** How runs come to rest, and what the caller of an entry point is told of it. */
module AgentReplies {
  import opened Wrappers
  import opened AgentProtocol
  import opened AgentCore
  import opened AgentInvariants
  import opened AgentHistory
  import Transcript = AgentTranscript

  /** The last entry of a log that is about the run, and not about a user turned away. */
  function LastWord(audit: seq<Event>): Option<Event> {
    if audit == [] then None
    else if audit[|audit| - 1].AuthorizationDenied? then LastWord(audit[..|audit| - 1])
    else Some(audit[|audit| - 1])
  }

  /** The tools that users were turned away from, in order. */
  function TurnedAway(audit: seq<Event>): seq<string> {
    if audit == [] then []
    else
      var last := audit[|audit| - 1];
      TurnedAway(audit[..|audit| - 1]) + if last.AuthorizationDenied? then [last.tool] else []
  }

  /** Each status a run may rest in, with the entry it was reached by and the answer it was given. */
  ghost predicate Ends(r: Run) {
    var last := LastWord(r.audit);
    match r.status
    case Running => r.raised
    case WaitingForApproval =>
      r.approvals != [] &&
      var a := r.approvals[|r.approvals| - 1]; last == Some(ApprovalRequired(a.tool, a.arguments))
    case Cancelled => last.Some? && last.value.ApprovalDenied? && r.answer == Some(APPROVAL_DENIED_ANSWER)
    case Completed => r.prompts == [] ==> last.Some? && last.value.ToolExecuted? && r.answer == Some(DIRECT_ACTION_ANSWER)
    case Failed =>
      last.Some? &&
      match last.value
      case AgentFailed(_, _, _, _) => r.answer == Some(AGENT_FAILED_ANSWER)
      case AgentMaxIterations(_) => r.answer == Some(MAX_ITERATIONS_ANSWER)
      case RunReconciled => r.raised && r.answer == Some(RECONCILED_ANSWER)
      case ToolFailed(_, _, _, _) => r.prompts == [] && r.answer == Some(DIRECT_ACTION_FAILED_ANSWER)
      case _ => false
  }

  /** Whoever decides an approval sees the risk its tool is registered with. */
  ghost predicate Risks(w: World, approvals: seq<Approval>) {
    forall k :: 0 <= k < |approvals| ==> Gated(w, approvals[k].tool) && approvals[k].risk == w.registry[approvals[k].tool].risk
  }

  /** A reply says what has become of the run: its status, its answer or its open approval, and what was executed. */
  ghost predicate ReplyFits(r: Run, t: Run, reply: Reply) {
    && reply.status == t.status && t.traces == r.traces + reply.trace
    && (if t.status == WaitingForApproval then
          && t.approvals != [] && reply.approval == Some(|t.approvals| - 1)
          && reply.answer == "Approval required before executing " + t.approvals[|t.approvals| - 1].tool
        else reply.approval.None? && t.answer == Some(reply.answer))
    && (LastWord(t.audit).Some? && LastWord(t.audit).value.AgentMaxIterations? && t.status == Failed ==>
          LastWord(t.audit).value.toolCalls == |reply.trace|)
  }

  /** From r on: nobody was turned away, and what was asked for carries its risk. */
  ghost predicate Stays(w: World, r: Run, t: Run) {
    Risks(w, t.approvals) && TurnedAway(t.audit) == TurnedAway(r.audit)
  }

  ghost predicate TurnEnds(w: World, r: Run, t: Turn) {
    && Stays(w, r, t.run)
    && match t
       case Continue(run, _, _) => run.status == Running && !run.raised && run.traces == r.traces && run.prompts != []
       case Stop(run, reply) => ReplyFits(r, run, reply) && Ends(run)
       case Raise(run) => run.status == Running && run.raised && run.traces == r.traces
  }

  // -- the loop ----------------------------------------------------------

  lemma WordsGrow(audit: seq<Event>, e: Event)
    ensures LastWord(audit + [e]) == if e.AuthorizationDenied? then LastWord(audit) else Some(e)
    ensures TurnedAway(audit + [e]) == TurnedAway(audit) + if e.AuthorizationDenied? then [e.tool] else []
  {
    assert (audit + [e])[..|audit|] == audit;
  }

  lemma Said(audit: seq<Event>, e: Event)
    requires !e.AuthorizationDenied?
    ensures LastWord(audit + [e]) == Some(e) && TurnedAway(audit + [e]) == TurnedAway(audit)
  {
    WordsGrow(audit, e);
    assert TurnedAway(audit) + [] == TurnedAway(audit);
  }

  lemma HandleOutcomeEnds(w: World, r: Run, conversation: seq<Message>, call: ToolCall, outcome: ToolOutcome,
                          trace: seq<TraceEntry>)
    requires r.status == Running && !r.raised && r.prompts != [] && Risks(w, r.approvals)
    ensures TurnEnds(w, r, HandleOutcome(w, r, conversation, call, outcome, trace))
  {
    hide LastWord, TurnedAway, Risks, Serialise;
    match outcome
    case Refused(errorType, error) => Said(r.audit, ToolFailed(call.name, OrNone(call.arguments), errorType, error));
    case Crashed(errorType, error) => Said(r.audit, AgentFailed(call.name, call.arguments, errorType, error));
    case Returned(result) => Said(r.audit, ToolExecuted(call.name, call.arguments, result));
  }

  lemma ParkEnds(w: World, r: Run, conversation: seq<Message>, call: ToolCall, risk: Risk, trace: seq<TraceEntry>)
    requires Risks(w, r.approvals) && Gated(w, call.name) && risk == w.registry[call.name].risk
    ensures
      var t := Respond(Park(r, conversation, call, risk), trace);
      && Stays(w, r, t) && Ends(t)
      && ReplyFits(r, t, Reply(WaitingForApproval, "Approval required before executing " + call.name, trace,
                               Some(|r.approvals|)))
  {
    Said(r.audit, ApprovalRequired(call.name, call.arguments));
    hide LastWord, TurnedAway, Serialise;
  }

  lemma HandleCallEnds(w: World, id: RunId, r: Run, conversation: seq<Message>, call: ToolCall, trace: seq<TraceEntry>)
    requires r.status == Running && !r.raised && r.prompts != [] && Risks(w, r.approvals)
    ensures TurnEnds(w, r, HandleCall(w, id, r, conversation, call, trace))
  {
    hide LastWord, TurnedAway, Risks, Serialise, HandleOutcome, Park, Ends;
    if call.argumentError.Some? {
      Said(r.audit, ToolFailed(call.name, OrNone(call.arguments), INVALID_ARGUMENTS_ERROR, call.argumentError.value));
    } else {
      var requested := Note(r, ToolRequested(call.name, call.arguments));
      Said(r.audit, ToolRequested(call.name, call.arguments));
      match Execute(w, id, requested, call.name, call.arguments, None)
      case Blocked(risk) => ParkEnds(w, requested, conversation, call, risk, trace);
      case Ran(outcome) =>
        var ran := Invoked(w, requested, call.name, call.arguments, None);
        HandleOutcomeEnds(w, ran, conversation, call, outcome, trace);
    }
  }

  lemma IterateEnds(w: World, id: RunId, r: Run, conversation: seq<Message>, trace: seq<TraceEntry>)
    requires r.status == Running && !r.raised && Risks(w, r.approvals)
    ensures TurnEnds(w, r, Iterate(w, id, r, conversation, trace))
  {
    hide LastWord, TurnedAway, Risks, HandleCall;
    match w.model(id, |r.prompts|, conversation)
    case ModelRaised =>
    case Responded(text, calls) =>
      if calls != [] {
        var answered := r.(prompts := r.prompts + [conversation], steps := r.steps + [ModelResponded(text, calls)]);
        HandleCallEnds(w, id, answered, conversation + [AssistantMessage(text, [calls[0]])], calls[0], trace);
      }
  }

  /** What a reply and its run look like when an entry point is through; no reply where a model call raised. */
  ghost predicate Served(w: World, r: Run, outcome: (Run, Option<Reply>)) {
    && Stays(w, r, outcome.0) && Ends(outcome.0)
    && (match outcome.1
        case Some(reply) => ReplyFits(r, outcome.0, reply)
        case None => outcome.0.raised && outcome.0.traces == r.traces)
  }

  lemma {:induction false} DriveServes(w: World, id: RunId, r: Run, conversation: seq<Message>, trace: seq<TraceEntry>, n: nat)
    requires r.status == Running && !r.raised && Risks(w, r.approvals)
    ensures Served(w, r, Drive(w, id, r, conversation, trace, n))
    decreases n
  {
    hide Iterate, Risks, LastWord, TurnedAway;
    if n == 0 {
      Said(r.audit, AgentMaxIterations(|trace|));
    } else {
      IterateEnds(w, id, r, conversation, trace);
      match Iterate(w, id, r, conversation, trace)
      case Continue(run, extended, longer) => DriveServes(w, id, run, extended, longer, n - 1);
      case _ =>
    }
  }

  // -- the entry points --------------------------------------------------

  lemma DirectServes(w: World, r: Run, tool: string, arguments: Arguments, outcome: ToolOutcome)
    requires r.prompts == [] && Risks(w, r.approvals)
    ensures Served(w, r, DirectOutcome(r, tool, arguments, outcome))
  {
    hide LastWord, TurnedAway, Risks;
    assert r.traces + [] == r.traces;
    match outcome
    case Refused(errorType, error) => Said(r.audit, ToolFailed(tool, OrNone(arguments), errorType, error));
    case Crashed(errorType, error) => Said(r.audit, AgentFailed(tool, arguments, errorType, error));
    case Returned(result) => Said(r.audit, ToolExecuted(tool, arguments, result));
  }

  lemma StartServes(w: World, id: RunId, message: string)
    ensures Served(w, NEW_RUN, StartRun(w, id, message))
  {
    hide Drive, LastWord, TurnedAway;
    var conversation := [UserMessage(message)];
    DriveServes(w, id, Save(NEW_RUN, conversation), conversation, [], w.maxIterations);
  }

  lemma RequestServes(w: World, id: RunId, callId: string, tool: string, arguments: Arguments)
    ensures Served(w, NEW_RUN, RequestAction(w, id, callId, tool, arguments))
  {
    hide LastWord, TurnedAway, DirectOutcome, Serialise, Park, Ends;
    var requested := Note(Save(NEW_RUN, []), ToolRequested(tool, arguments));
    assert [] + [ToolRequested(tool, arguments)] == [ToolRequested(tool, arguments)];
    Said([], ToolRequested(tool, arguments));
    match Execute(w, id, requested, tool, arguments, None)
    case Blocked(risk) =>
      ParkEnds(w, requested, [], ToolCall(callId, tool, arguments, None), risk, []);
      ParkedReply(requested, [], ToolCall(callId, tool, arguments, None), risk);
    case Ran(outcome) =>
      DirectServes(w, Invoked(w, requested, tool, arguments, None), tool, arguments, outcome);
  }

  lemma ResumeServes(w: World, id: RunId, r: Run, conversation: seq<Message>, a: Approval, outcome: ToolOutcome)
    requires r.status == Running && !r.raised && Risks(w, r.approvals)
    ensures Served(w, r, Resume(w, id, r, conversation, a, outcome))
  {
    hide Drive, LastWord, TurnedAway, Risks;
    assert r.traces + [] == r.traces;
    match outcome
    case Refused(errorType, error) =>
      Said(r.audit, ToolFailed(a.tool, OrNone(a.arguments), errorType, error));
      DriveServes(w, id, FailTool(r, a.tool, a.arguments, errorType, error),
                  conversation + [ToolResult(a.toolCallId, a.tool, w.renderFailure(errorType, error))], [], w.maxIterations);
    case Crashed(errorType, error) => Said(r.audit, AgentFailed(a.tool, a.arguments, errorType, error));
    case Returned(result) =>
      Said(r.audit, ToolExecuted(a.tool, a.arguments, result));
      DriveServes(w, id, Note(r, ToolExecuted(a.tool, a.arguments, result)),
                  conversation + [ToolResult(a.toolCallId, a.tool, w.render(result))],
                  [TraceEntry(a.tool, a.arguments, result)], w.maxIterations);
  }

  lemma ReleasedServes(w: World, id: RunId, r: Run, k: nat)
    requires k < |r.approvals| && Risks(w, r.approvals) && !r.raised
    ensures
      var ran := ReleasedRun(w, id, r, k);
      && ran.status == Running && !ran.raised && ran.traces == r.traces && ran.prompts == r.prompts && Stays(w, r, ran)
  {
    hide LastWord, TurnedAway;
    Said(r.audit, ApprovalGranted(r.approvals[k].tool, r.approvals[k].arguments));
  }

  lemma ApproveServes(w: World, id: RunId, r: Run, k: nat)
    requires RunOk(w, r) && IsPending(r, k) && Risks(w, r.approvals)
    requires r.saves != [] && r.saves[|r.saves| - 1] == [] ==> r.prompts == []
    ensures Served(w, r, Approve(w, id, r, k))
  {
    var outcome := ApproveIs(w, id, r, k);
    PendingIsLast(w, r, k);
    var saved, a, ran := r.saves[|r.saves| - 1], r.approvals[k], ReleasedRun(w, id, r, k);
    hide RunOk, Approve, Execute, Released, ReleasedRun, Deserialise, ParkedOn, Risks, LastWord, TurnedAway, DirectOutcome, Resume;
    ReleasedServes(w, id, r, k);
    if saved == [] {
      DirectServes(w, ran, a.tool, a.arguments, outcome);
    } else {
      ResumeServes(w, id, ran, saved, a, outcome);
    }
  }

  lemma RejectServes(w: World, r: Run, k: nat)
    requires k < |r.approvals| && Risks(w, r.approvals)
    ensures Served(w, r, Reject(r, k))
  {
    hide LastWord, TurnedAway;
    assert r.traces + [] == r.traces;
    Said(r.audit, ApprovalDenied(r.approvals[k].tool, r.approvals[k].arguments));
  }

  // -- running out of iterations -----------------------------------------

  lemma AnswersDiffer()
    ensures AGENT_FAILED_ANSWER != MAX_ITERATIONS_ANSWER
  {
    var a, b := AGENT_FAILED_ANSWER, MAX_ITERATIONS_ANSWER;
    assert |a| == 52 && |b| == 49;
  }

  lemma HandleCallAsksNobody(w: World, id: RunId, r: Run, conversation: seq<Message>, call: ToolCall, trace: seq<TraceEntry>)
    ensures
      var t := HandleCall(w, id, r, conversation, call, trace);
      t.run.prompts == r.prompts && (t.Stop? && t.reply.status == Failed ==> t.reply.answer != MAX_ITERATIONS_ANSWER)
  {
    hide Serialise;
    AnswersDiffer();
  }

  /** The loop gives up only when it has asked the model as often as it may. */
  lemma {:induction false} GivingUpMeansAsked(w: World, id: RunId, r: Run, conversation: seq<Message>,
                                              trace: seq<TraceEntry>, n: nat)
    requires r.status == Running
    ensures
      var (t, reply) := Drive(w, id, r, conversation, trace, n);
      && |t.prompts| <= |r.prompts| + n
      && (reply.Some? && reply.value.status == Failed && reply.value.answer == MAX_ITERATIONS_ANSWER ==>
            |t.prompts| == |r.prompts| + n)
    decreases n
  {
    hide HandleCall;
    if n > 0 {
      var asked := r.prompts + [conversation];
      match w.model(id, |r.prompts|, conversation)
      case ModelRaised =>
      case Responded(text, calls) =>
        if calls != [] {
          var answered := r.(prompts := asked, steps := r.steps + [ModelResponded(text, calls)]);
          var longer := conversation + [AssistantMessage(text, [calls[0]])];
          HandleCallAsksNobody(w, id, answered, longer, calls[0], trace);
          Transcript.HandleCallRuns(w, id, answered, longer, calls[0], trace);
          match HandleCall(w, id, answered, longer, calls[0], trace)
          case Continue(run, extended, more) => GivingUpMeansAsked(w, id, run, extended, more, n - 1);
          case _ =>
        }
    }
  }

  // -- whole histories ---------------------------------------------------

  /** The tools that `Deny` was called with on this run. */
  function Denials(w: World, calls: seq<Call>, id: RunId): seq<string> {
    if calls == [] then []
    else
      var n := |calls| - 1;
      Denials(w, calls[..n], id) +
      if id in ServeAll(w, calls[..n]) && calls[n].Deny? && calls[n].id == id then [calls[n].tool] else []
  }

  /** A run that waits without a saved conversation has asked no model. */
  lemma WaitingAlone(w: World, calls: seq<Call>, id: RunId)
    requires id in ServeAll(w, calls) && ServeAll(w, calls)[id].status == WaitingForApproval
    ensures
      var r := ServeAll(w, calls)[id];
      r.saves != [] && (r.saves[|r.saves| - 1] == [] ==> r.prompts == [])
  {
    hide ServeAll, Transcript.Told, Transcript.Transcript, Transcript.Opening;
    Transcript.HistoryTold(w, calls, id);
    Transcript.TranscriptIsSomething(w, Transcript.Opening(w, calls, id), ServeAll(w, calls)[id].steps);
  }

  lemma DecisionServes(w: World, calls: seq<Call>, id: RunId, k: nat, approved: bool)
    requires id in ServeAll(w, calls) && IsPending(ServeAll(w, calls)[id], k) && Risks(w, ServeAll(w, calls)[id].approvals)
    ensures Served(w, ServeAll(w, calls)[id], ResolveApproval(w, id, ServeAll(w, calls)[id], k, approved))
  {
    var r := ServeAll(w, calls)[id];
    EveryRunIsSound(w, calls, id);
    PendingIsLast(w, r, k);
    WaitingAlone(w, calls, id);
    hide ServeAll, RunOk, Approve, Reject, Served, Risks, ParkedOn;
    if approved { ApproveServes(w, id, r, k); } else { RejectServes(w, r, k); }
  }

  ghost predicate Rests(w: World, calls: seq<Call>, id: RunId, r: Run) {
    Ends(r) && Risks(w, r.approvals) && TurnedAway(r.audit) == Denials(w, calls, id)
  }

  lemma ReconciledEnds(w: World, r: Run)
    requires RunOk(w, r) && Ends(r)
    ensures Ends(ReconcileRun(r)) && TurnedAway(ReconcileRun(r).audit) == TurnedAway(r.audit)
    ensures ReconcileRun(r).approvals == r.approvals
  {
    hide RunOk, LastWord, TurnedAway;
    Said(r.audit, RunReconciled);
  }

  lemma {:induction false} HistoryRests(w: World, calls: seq<Call>, id: RunId)
    requires id in ServeAll(w, calls)
    ensures Rests(w, calls, id, ServeAll(w, calls)[id])
  {
    hide RunOk, StartRun, RequestAction, ResolveApproval, ReconcileRun, Ends, Risks, TurnedAway;
    var n := |calls| - 1;
    var init, c := calls[..n], calls[n];
    var before := ServeAll(w, init);
    if id in before {
      HistoryRests(w, init, id);
      EveryRunIsSound(w, init, id);
      assert Denials(w, init, id) + [] == Denials(w, init, id);
      if c.id == id && !Starts(c) {
        match c
        case Decide(_, k, approved) =>
          ResolveApprovalOk(w, id, before[id], k, approved);
          if IsPending(before[id], k) { DecisionServes(w, init, id, k, approved); }
        case Deny(_, tool) => DeniedEnds(before[id], tool);
        case Reconcile(_) => ReconciledEnds(w, before[id]);
      }
    } else {
      NobodyDenied(w, init, id);
      assert TurnedAway([]) == [] by { NothingSaid(); }
      match c
      case Start(_, message) => StartServes(w, id, message);
      case Request(_, callId, tool, arguments) => RequestServes(w, id, callId, tool, arguments);
    }
  }

  lemma NothingSaid()
    ensures TurnedAway([]) == [] && LastWord([]) == None
  {
  }

  lemma DeniedEnds(r: Run, tool: string)
    requires Ends(r)
    ensures Ends(DenyAuthorization(r, tool)) && TurnedAway(DenyAuthorization(r, tool).audit) == TurnedAway(r.audit) + [tool]
  {
    hide LastWord, TurnedAway;
    WordsGrow(r.audit, AuthorizationDenied(tool));
  }

  lemma {:induction false} NobodyDenied(w: World, calls: seq<Call>, id: RunId)
    requires id !in ServeAll(w, calls)
    ensures Denials(w, calls, id) == []
  {
    hide Entered, Changed;
    if calls != [] {
      NobodyDenied(w, calls[..|calls| - 1], id);
    }
  }

  /** Every run rests in a status that its log's last entry, its answer and its approvals account for. */
  lemma EveryRunEndsOnRecord(w: World, calls: seq<Call>, id: RunId)
    requires id in ServeAll(w, calls)
    ensures Ends(ServeAll(w, calls)[id])
  {
    hide ServeAll, Ends, Risks;
    HistoryRests(w, calls, id);
  }

  /** Every approval carries the registered risk of a tool that needs one. */
  lemma ApprovalsCarryTheirRisk(w: World, calls: seq<Call>, id: RunId, k: nat)
    requires id in ServeAll(w, calls) && k < |ServeAll(w, calls)[id].approvals|
    ensures
      var a := ServeAll(w, calls)[id].approvals[k];
      a.tool in w.registry && a.risk == w.registry[a.tool].risk && a.risk != Read
  {
    hide ServeAll, Ends;
    HistoryRests(w, calls, id);
  }

  /** The log names each user turned away, and nobody else. */
  lemma EveryDenialIsOnRecord(w: World, calls: seq<Call>, id: RunId)
    requires id in ServeAll(w, calls)
    ensures TurnedAway(ServeAll(w, calls)[id].audit) == Denials(w, calls, id)
  {
    hide ServeAll, Ends, Risks;
    HistoryRests(w, calls, id);
  }

  /** What each entry point replies is what has become of the run: status, answer or open approval, and executions. */
  lemma EveryReplyIsTrue(w: World, calls: seq<Call>, c: Call, reply: Reply)
    requires c.Start? ==> StartRun(w, c.id, c.message).1 == Some(reply)
    requires c.Request? ==> RequestAction(w, c.id, c.callId, c.tool, c.arguments).1 == Some(reply)
    requires c.Decide? ==>
               c.id in ServeAll(w, calls) &&
               ResolveApproval(w, c.id, ServeAll(w, calls)[c.id], c.approval, c.approved).1 == Some(reply)
    ensures Starts(c) ==> ReplyFits(NEW_RUN, Entered(w, c), reply)
    ensures c.Decide? ==> ReplyFits(ServeAll(w, calls)[c.id], Changed(w, ServeAll(w, calls)[c.id], c), reply)
  {
    hide ServeAll, StartRun, RequestAction, Approve, Reject, ReplyFits, Ends, Risks, RunOk;
    match c
    case Start(id, message) => StartServes(w, id, message);
    case Request(id, callId, tool, arguments) => RequestServes(w, id, callId, tool, arguments);
    case Decide(id, k, approved) =>
      HistoryRests(w, calls, id);
      DecisionServes(w, calls, id, k, approved);
    case _ =>
  }
}
