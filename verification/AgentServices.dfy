/**
 The agent service over its stores, one write at a time.  Each entry point is proved to do to
 the run it serves exactly what the functions of AgentCore say, and nothing to any other run.
 */
module AgentServices {
  import opened Wrappers
  import opened Texts
  import opened IsoStamps
  import opened AgentProtocol
  import opened AgentCore
  import opened AgentInvariants
  import opened AgentHistory

  class AgentService {
    const world: World
    var runs: Runs

    ghost predicate Valid()
      reads this
    {
      forall id :: id in runs ==> RunOk(world, runs[id])
    }

    constructor (world: World)
      ensures this.world == world && runs == map[] && Valid()
    {
      this.world := world;
      runs := map[];
    }

    // -- store writes ----------------------------------------------------

    method SaveConversation(id: RunId, conversation: seq<Message>)
      requires id in runs
      modifies `runs
      ensures runs == old(runs)[id := Save(old(runs[id]), conversation)]
    {
      runs := runs[id := runs[id].(conversation := Serialise(conversation), saves := runs[id].saves + [conversation])];
    }

    method AddStep(id: RunId, e: Event)
      requires id in runs
      modifies `runs
      ensures runs == old(runs)[id := old(runs[id]).(steps := old(runs[id]).steps + [e])]
    {
      runs := runs[id := runs[id].(steps := runs[id].steps + [e])];
    }

    method Record(id: RunId, e: Event)
      requires id in runs
      modifies `runs
      ensures runs == old(runs)[id := old(runs[id]).(audit := old(runs[id]).audit + [e])]
    {
      runs := runs[id := runs[id].(audit := runs[id].audit + [e])];
    }

    method RecordAndStep(id: RunId, e: Event)
      requires id in runs
      modifies `runs
      ensures runs == old(runs)[id := Note(old(runs[id]), e)]
    {
      Record(id, e);
      AddStep(id, e);
    }

    /** `complete`, `fail` and `cancel`. */
    method Conclude(id: RunId, status: RunStatus, answer: string)
      requires id in runs
      modifies `runs
      ensures runs == old(runs)[id := Finish(old(runs[id]), status, answer)]
    {
      runs := runs[id := runs[id].(status := status, answer := Some(answer))];
    }

    // -- the outside world -----------------------------------------------

    /** `call_model`: an exception is recorded for the observer and raised again. */
    method CallModel(id: RunId, conversation: seq<Message>) returns (turn: ModelTurn)
      requires id in runs
      modifies `runs
      ensures turn == world.model(id, |old(runs[id]).prompts|, conversation)
      ensures runs == old(runs)[id := old(runs[id]).(prompts := old(runs[id]).prompts + [conversation],
                                                     raised := old(runs[id]).raised || turn.ModelRaised?)]
    {
      turn := world.model(id, |runs[id].prompts|, conversation);
      runs := runs[id := runs[id].(prompts := runs[id].prompts + [conversation],
                                   raised := runs[id].raised || turn.ModelRaised?)];
    }

    /** `ToolRegistry.execute`. */
    method ExecuteTool(id: RunId, tool: string, arguments: Arguments, approval: Option<nat>) returns (e: Execution)
      requires id in runs
      modifies `runs
      ensures e == Execute(world, id, old(runs[id]), tool, arguments, approval)
      ensures runs == old(runs)[id := Invoked(world, old(runs[id]), tool, arguments, approval)]
      ensures e.Blocked? <==> tool in world.registry && world.registry[tool].risk != Read && approval.None?
      ensures runs != old(runs) ==>
                && runs[id].invocations == old(runs[id]).invocations + [Invocation(tool, arguments, approval)]
                && e == Ran(world.callable(id, |old(runs[id]).invocations|, tool, arguments))
      ensures e.Ran? && runs == old(runs) ==>
                && (tool !in world.registry || (world.registry[tool].wantsContext && "context" in arguments))
                && e.outcome.Refused? && e.outcome.errorType == "ValueError"
    {
      if tool !in world.registry {
        return Ran(Refused("ValueError", UNKNOWN_TOOL + tool));
      }
      var spec := world.registry[tool];
      if spec.risk != Read && approval.None? {
        return Blocked(spec.risk);
      }
      if spec.wantsContext && "context" in arguments {
        return Ran(Refused("ValueError", CONTEXT_IS_NO_ARGUMENT));
      }
      e := Ran(world.callable(id, |runs[id].invocations|, tool, arguments));
      runs := runs[id := runs[id].(invocations := runs[id].invocations + [Invocation(tool, arguments, approval)])];
    }

    // -- the outcomes ----------------------------------------------------

    method ParkRun(id: RunId, conversation: seq<Message>, call: ToolCall, risk: Risk, trace: seq<TraceEntry>)
      returns (reply: Reply)
      requires id in runs
      modifies `runs
      ensures runs == old(runs)[id := Respond(Park(old(runs[id]), conversation, call, risk), trace)]
      ensures reply == Reply(WaitingForApproval, "Approval required before executing " + call.name, trace,
                             Some(|old(runs[id]).approvals|))
    {
      SaveConversation(id, conversation);
      runs := runs[id := runs[id].(status := WaitingForApproval)];
      var pending := Approval(call.name, call.arguments, risk, call.id, Pending);
      var k := |runs[id].approvals|;
      runs := runs[id := runs[id].(approvals := runs[id].approvals + [pending])];
      RecordAndStep(id, ApprovalRequired(pending.tool, pending.arguments));
      reply := Reply(WaitingForApproval, "Approval required before executing " + call.name, trace, Some(k));
      Answer(id, trace);
    }

    method AbortRun(id: RunId, tool: string, arguments: Arguments, errorType: string, error: string,
                    trace: seq<TraceEntry>) returns (reply: Reply)
      requires id in runs
      modifies `runs
      ensures runs == old(runs)[id := Respond(Abort(old(runs[id]), tool, arguments, errorType, error), trace)]
      ensures reply == Reply(Failed, AGENT_FAILED_ANSWER, trace, None)
    {
      Record(id, AgentFailed(tool, arguments, errorType, error));
      Conclude(id, Failed, AGENT_FAILED_ANSWER);
      Answer(id, trace);
      reply := Reply(Failed, AGENT_FAILED_ANSWER, trace, None);
    }

    /** The trace of a response, kept for the observer. */
    method Answer(id: RunId, trace: seq<TraceEntry>)
      requires id in runs
      modifies `runs
      ensures runs == old(runs)[id := Respond(old(runs[id]), trace)]
    {
      runs := runs[id := runs[id].(traces := runs[id].traces + trace)];
    }

    // -- the loop --------------------------------------------------------

    /** What the loop does with the first call of a model's answer; a reply ends the loop. */
    method ServeCall(id: RunId, conversation0: seq<Message>, call: ToolCall, trace0: seq<TraceEntry>)
      returns (conversation: seq<Message>, trace: seq<TraceEntry>, reply: Option<Reply>)
      requires id in runs
      modifies `runs
      ensures id in runs && runs == old(runs)[id := runs[id]]
      ensures HandleCall(world, id, old(runs[id]), conversation0, call, trace0) ==
              if reply.None? then Continue(runs[id], conversation, trace) else Stop(runs[id], reply.value)
    {
      hide Serialise;
      conversation, trace, reply := conversation0, trace0, None;
      if call.argumentError.Some? {
        var error := call.argumentError.value;
        RecordAndStep(id, ToolFailed(call.name, OrNone(call.arguments), INVALID_ARGUMENTS_ERROR, error));
        conversation := conversation + [ToolResult(call.id, call.name, world.renderFailure(INVALID_ARGUMENTS_ERROR, error))];
        SaveConversation(id, conversation);
        return;
      }
      RecordAndStep(id, ToolRequested(call.name, call.arguments));
      var execution := ExecuteTool(id, call.name, call.arguments, None);
      match execution
      case Blocked(risk) =>
        var parked := ParkRun(id, conversation, call, risk, trace);
        reply := Some(parked);
      case Ran(Refused(errorType, error)) =>
        RecordAndStep(id, ToolFailed(call.name, OrNone(call.arguments), errorType, error));
        conversation := conversation + [ToolResult(call.id, call.name, world.renderFailure(errorType, error))];
        SaveConversation(id, conversation);
      case Ran(Crashed(errorType, error)) =>
        var aborted := AbortRun(id, call.name, call.arguments, errorType, error, trace);
        reply := Some(aborted);
      case Ran(Returned(result)) =>
        RecordAndStep(id, ToolExecuted(call.name, call.arguments, result));
        trace := trace + [TraceEntry(call.name, call.arguments, result)];
        conversation := conversation + [ToolResult(call.id, call.name, world.render(result))];
        SaveConversation(id, conversation);
    }

    /** One round of the loop: ask the model, and serve its answer. */
    method ServeTurn(id: RunId, conversation0: seq<Message>, trace0: seq<TraceEntry>)
      returns (conversation: seq<Message>, trace: seq<TraceEntry>, done: bool, reply: Option<Reply>)
      requires id in runs
      modifies `runs
      ensures id in runs && runs == old(runs)[id := runs[id]]
      ensures Iterate(world, id, old(runs[id]), conversation0, trace0) ==
              if !done then Continue(runs[id], conversation, trace)
              else if reply.Some? then Stop(runs[id], reply.value) else Raise(runs[id])
    {
      hide HandleCall, Serialise;
      conversation, trace, done, reply := conversation0, trace0, true, None;
      var turn := CallModel(id, conversation);
      if turn.ModelRaised? {
        return;
      }
      AddStep(id, ModelResponded(turn.text, turn.calls));
      if turn.calls == [] {
        var answer := if turn.text.None? then "" else turn.text.value;
        Conclude(id, Completed, answer);
        Answer(id, trace);
        reply := Some(Reply(Completed, answer, trace, None));
      } else {
        var call := turn.calls[0];
        conversation := conversation + [AssistantMessage(turn.text, [call])];
        conversation, trace, reply := ServeCall(id, conversation, call, trace);
        done := reply.Some?;
      }
    }

    /** `drive`; no reply when a model call raised. */
    method DriveRun(id: RunId, conversation0: seq<Message>, trace0: seq<TraceEntry>) returns (reply: Option<Reply>)
      requires id in runs
      modifies `runs
      ensures var (run, answer) := Drive(world, id, old(runs[id]), conversation0, trace0, world.maxIterations);
              runs == old(runs)[id := run] && reply == answer
    {
      hide Iterate;
      var conversation, trace := conversation0, trace0;
      ghost var goal := Drive(world, id, runs[id], conversation, trace, world.maxIterations);
      for i := 0 to world.maxIterations
        invariant id in runs && runs == old(runs)[id := runs[id]]
        invariant Drive(world, id, runs[id], conversation, trace, world.maxIterations - i) == goal
      {
        var done;
        conversation, trace, done, reply := ServeTurn(id, conversation, trace);
        if done {
          return;
        }
      }
      Record(id, AgentMaxIterations(|trace|));
      Conclude(id, Failed, MAX_ITERATIONS_ANSWER);
      Answer(id, trace);
      reply := Some(Reply(Failed, MAX_ITERATIONS_ANSWER, trace, None));
    }

    // -- the entry points ------------------------------------------------

    /** `run`, on the fresh id a new run is given. */
    method RunMessage(id: RunId, message: string) returns (reply: Option<Reply>)
      requires id !in runs && Valid()
      modifies `runs
      ensures runs == Serve(world, old(runs), Start(id, message)) && Valid()
      ensures reply == StartRun(world, id, message).1
    {
      hide Drive, RunOk;
      ghost var before := runs;
      runs := runs[id := NEW_RUN];
      var conversation := [UserMessage(message)];
      SaveConversation(id, conversation);
      assert runs[id] == Save(NEW_RUN, conversation);
      reply := DriveRun(id, conversation, []);
      assert runs == before[id := StartRun(world, id, message).0];
      EnteredOk(world, Start(id, message));
    }

    /** `request_action`. */
    method RequestTool(id: RunId, callId: string, tool: string, arguments: Arguments) returns (reply: Option<Reply>)
      requires id !in runs && Valid()
      modifies `runs
      ensures runs == Serve(world, old(runs), Request(id, callId, tool, arguments)) && Valid()
      ensures reply == RequestAction(world, id, callId, tool, arguments).1
    {
      hide RunOk, Park, DirectOutcome;
      ghost var before := runs;
      OpenDirect(id, tool, arguments);
      var call := ToolCall(callId, tool, arguments, None);
      ghost var requested := runs[id];
      var execution := ExecuteTool(id, tool, arguments, None);
      match execution {
        case Blocked(risk) =>
          ParkedReply(requested, [], call, risk);
          var parked := ParkRun(id, [], call, risk, []);
          reply := Some(parked);
        case Ran(outcome) =>
          reply := FinishDirect(id, tool, arguments, outcome);
      }
      assert runs == before[id := RequestAction(world, id, callId, tool, arguments).0];
      EnteredOk(world, Request(id, callId, tool, arguments));
    }

    method OpenDirect(id: RunId, tool: string, arguments: Arguments)
      modifies `runs
      ensures runs == old(runs)[id := Note(Save(NEW_RUN, []), ToolRequested(tool, arguments))]
    {
      runs := runs[id := NEW_RUN];
      SaveConversation(id, []);
      RecordAndStep(id, ToolRequested(tool, arguments));
    }

    method FinishDirect(id: RunId, tool: string, arguments: Arguments, outcome: ToolOutcome)
      returns (reply: Option<Reply>)
      requires id in runs
      modifies `runs
      ensures var (run, answer) := DirectOutcome(old(runs[id]), tool, arguments, outcome);
              runs == old(runs)[id := run] && reply == answer
    {
      match outcome
      case Refused(errorType, error) =>
        RecordAndStep(id, ToolFailed(tool, OrNone(arguments), errorType, error));
        Conclude(id, Failed, DIRECT_ACTION_FAILED_ANSWER);
        reply := Some(Reply(Failed, DIRECT_ACTION_FAILED_ANSWER, [], None));
      case Crashed(errorType, error) =>
        var aborted := AbortRun(id, tool, arguments, errorType, error, []);
        assert old(runs[id]).traces + [] == old(runs[id]).traces;
        reply := Some(aborted);
      case Returned(result) =>
        RecordAndStep(id, ToolExecuted(tool, arguments, result));
        Conclude(id, Completed, DIRECT_ACTION_ANSWER);
        var trace := [TraceEntry(tool, arguments, result)];
        Answer(id, trace);
        reply := Some(Reply(Completed, DIRECT_ACTION_ANSWER, trace, None));
    }

    /** `resolve_approval`. */
    method Resolve(id: RunId, k: nat, approved: bool) returns (reply: Option<Reply>)
      requires id in runs && Valid()
      modifies `runs
      ensures runs == Serve(world, old(runs), Decide(id, k, approved)) && Valid()
      ensures reply == ResolveApproval(world, id, old(runs[id]), k, approved).1
    {
      hide RunOk, Approve, Reject;
      ResolveApprovalOk(world, id, runs[id], k, approved);
      ghost var before := runs;
      if !IsPending(runs[id], k) {
        assert runs == before[id := before[id]];
        reply := None;
      } else if approved {
        reply := ApproveCall(id, k);
      } else {
        reply := RejectCall(id, k);
      }
    }

    method RejectCall(id: RunId, k: nat) returns (reply: Option<Reply>)
      requires id in runs && IsPending(runs[id], k)
      modifies `runs
      ensures var (run, answer) := Reject(old(runs[id]), k);
              runs == old(runs)[id := run] && reply == answer
    {
      var a := runs[id].approvals[k];
      runs := runs[id := Decided(runs[id], k, Rejected)];
      RecordAndStep(id, ApprovalDenied(a.tool, a.arguments));
      Conclude(id, Cancelled, APPROVAL_DENIED_ANSWER);
      reply := Some(Reply(Cancelled, APPROVAL_DENIED_ANSWER, [], None));
    }

    method ApproveCall(id: RunId, k: nat) returns (reply: Option<Reply>)
      requires id in runs && RunOk(world, runs[id]) && IsPending(runs[id], k)
      modifies `runs
      ensures var (run, answer) := Approve(world, id, old(runs[id]), k);
              runs == old(runs)[id := run] && reply == answer
    {
      hide RunOk, Released, Invoked, Approve, Complete, Execute, Deserialise, Serialise;
      ghost var due := ApproveIs(world, id, runs[id], k);
      ghost var before := runs;
      assert ReleasedRun(world, id, runs[id], k) ==
             Invoked(world, Released(runs[id], k), runs[id].approvals[k].tool, runs[id].approvals[k].arguments, Some(k));
      assert k < |runs[id].approvals|;
      hide *;
      var a := runs[id].approvals[k];
      var restored := Deserialise(runs[id].conversation);
      Release(id, k);
      var execution := ExecuteTool(id, a.tool, a.arguments, Some(k));
      assert runs == before[id := ReleasedRun(world, id, before[id], k)];
      reply := CompleteCall(id, restored.value, a, execution.outcome);
    }

    /** The decision, the run back to RUNNING, and both in the histories. */
    method Release(id: RunId, k: nat)
      requires id in runs && IsPending(runs[id], k)
      modifies `runs
      ensures runs == old(runs)[id := Released(old(runs[id]), k)]
    {
      var a := runs[id].approvals[k];
      runs := runs[id := Decided(runs[id], k, Approved)];
      runs := runs[id := runs[id].(status := Running)];
      RecordAndStep(id, ApprovalGranted(a.tool, a.arguments));
    }

    method CompleteCall(id: RunId, conversation: seq<Message>, a: Approval, outcome: ToolOutcome)
      returns (reply: Option<Reply>)
      requires id in runs
      modifies `runs
      ensures var (run, answer) := Complete(world, id, old(runs[id]), conversation, a, outcome);
              runs == old(runs)[id := run] && reply == answer
    {
      hide DirectOutcome, AgentCore.Resume;
      if conversation == [] {
        reply := FinishDirect(id, a.tool, a.arguments, outcome);
      } else {
        reply := ResumeCall(id, conversation, a, outcome);
      }
    }

    method ResumeCall(id: RunId, conversation: seq<Message>, a: Approval, outcome: ToolOutcome)
      returns (reply: Option<Reply>)
      requires id in runs
      modifies `runs
      ensures var (run, answer) := AgentCore.Resume(world, id, old(runs[id]), conversation, a, outcome);
              runs == old(runs)[id := run] && reply == answer
    {
      hide Drive;
      ghost var before := runs;
      match outcome
      case Refused(errorType, error) =>
        RecordAndStep(id, ToolFailed(a.tool, OrNone(a.arguments), errorType, error));
        reply := DriveRun(id, conversation + [ToolResult(a.toolCallId, a.tool, world.renderFailure(errorType, error))], []);
      case Crashed(errorType, error) =>
        var aborted := AbortRun(id, a.tool, a.arguments, errorType, error, []);
        assert before[id].traces + [] == before[id].traces;
        reply := Some(aborted);
      case Returned(result) =>
        RecordAndStep(id, ToolExecuted(a.tool, a.arguments, result));
        reply := DriveRun(id, conversation + [ToolResult(a.toolCallId, a.tool, world.render(result))],
                          [TraceEntry(a.tool, a.arguments, result)]);
    }

    /** `list_stale_running`: RUNNING, and last written before the cutoff, which is compared as text. */
    method ListStale(table: seq<RunId>, updated: map<RunId, Instant>, cutoff: string) returns (stale: seq<RunId>)
      requires forall id :: id in table ==> id in runs && id in updated
      requires forall i, j :: 0 <= i < j < |table| ==> table[i] != table[j]
      ensures forall id :: id in stale <==> id in table && runs[id].status == Running && StrLt(Iso(updated[id]), cutoff)
      ensures forall i, j :: 0 <= i < j < |stale| ==> stale[i] != stale[j]
    {
      stale := [];
      for n := 0 to |table|
        invariant forall id :: id in stale <==>
                    id in table[..n] && runs[id].status == Running && StrLt(Iso(updated[id]), cutoff)
        invariant forall i, j :: 0 <= i < j < |stale| ==> stale[i] != stale[j]
      {
        var id := table[n];
        assert id !in table[..n] && table[..n + 1] == table[..n] + [id];
        if runs[id].status == Running && StrLt(Iso(updated[id]), cutoff) {
          stale := stale + [id];
        }
      }
      assert table[..|table|] == table;
    }

    /** `reconcile`, over the run table in whatever order it is listed, with the time each run was last written. */
    method ReconcileStale(table: seq<RunId>, updated: map<RunId, Instant>, now: Instant, staleAfter: nat)
      returns (reconciled: seq<RunId>)
      requires Valid() && updated.Keys == runs.Keys && staleAfter * MICROS_PER_SECOND <= now
      requires forall id :: id in table <==> id in runs
      requires forall i, j :: 0 <= i < j < |table| ==> table[i] != table[j]
      modifies `runs
      ensures runs.Keys == old(runs).Keys && Valid()
      ensures forall id :: id in reconciled <==> id in runs && IsStale(old(runs)[id], updated[id], now, staleAfter)
      ensures forall id :: id in runs ==>
                runs[id] == if id in reconciled then ReconcileRun(old(runs)[id]) else old(runs)[id]
      ensures forall id :: id in reconciled ==> runs[id].status == Failed
    {
      var cutoff: Instant := now - staleAfter * MICROS_PER_SECOND;
      var stale := ListStale(table, updated, Iso(cutoff));
      forall id | id in runs ensures StrLt(Iso(updated[id]), Iso(cutoff)) <==> updated[id] < cutoff {
        IsoBefore(updated[id], cutoff);
      }
      reconciled := FailAll(stale);
    }

    method FailAll(stale: seq<RunId>) returns (reconciled: seq<RunId>)
      requires Valid()
      requires forall id :: id in stale ==> id in runs && runs[id].status == Running
      requires forall i, j :: 0 <= i < j < |stale| ==> stale[i] != stale[j]
      modifies `runs
      ensures reconciled == stale && runs.Keys == old(runs).Keys && Valid()
      ensures forall id :: id in runs ==>
                runs[id] == if id in stale then ReconcileRun(old(runs)[id]) else old(runs)[id]
      ensures forall id :: id in stale ==> runs[id].status == Failed
    {
      hide RunOk;
      reconciled := [];
      for n := 0 to |stale|
        invariant reconciled == stale[..n] && runs.Keys == old(runs).Keys && Valid()
        invariant forall id :: id in runs ==>
                    runs[id] == if id in stale[..n] then ReconcileRun(old(runs)[id]) else old(runs)[id]
      {
        var id := stale[n];
        assert id !in stale[..n];
        ReconcileRunOk(world, runs[id]);
        RecordAndStep(id, RunReconciled);
        Conclude(id, Failed, RECONCILED_ANSWER);
        reconciled := reconciled + [id];
        assert stale[..n + 1] == stale[..n] + [id];
      }
    }
  }

  /** A run abandoned in RUNNING for longer than the sweep waits. */
  predicate IsStale(run: Run, updatedAt: Instant, now: Instant, staleAfter: nat) {
    run.status == Running && updatedAt < now - staleAfter * MICROS_PER_SECOND
  }
}
