/**
 What the histories say of the tools: every call that reached a tool's function is on record with
 what that function answered to just those arguments, and what never reached one says why.
 */
module AgentExecutions {
  import opened Wrappers
  import opened AgentProtocol
  import opened AgentCore
  import opened AgentInvariants
  import opened AgentHistory

  /** The event that records what a tool's function answered. */
  function Recorded(tool: string, arguments: Arguments, answer: ToolOutcome): Event {
    match answer
    case Returned(result) => ToolExecuted(tool, arguments, result)
    case Refused(errorType, error) => ToolFailed(tool, if arguments == map[] then None else Some(arguments), errorType, error)
    case Crashed(errorType, error) => AgentFailed(tool, arguments, errorType, error)
  }

  /** In phase p the log waits for the outcome of a call that reaches the tool's function. */
  predicate InFlight(w: World, p: Phase) {
    match p
    case Asked(tool, arguments) => Invokes(w, tool, arguments, false)
    case Granted(tool, arguments) => Invokes(w, tool, arguments, true)
    case _ => false
  }

  /** The outcomes in the log of calls that reached their function. */
  function Answers(w: World, audit: seq<Event>): seq<Event> {
    if audit == [] then []
    else
      var init, last := audit[..|audit| - 1], audit[|audit| - 1];
      Answers(w, init) + if InFlight(w, PhaseOf(init)) && !last.AuthorizationDenied? then [last] else []
  }

  /** The j-th call of a tool's function, and its outcome in the log: what that function answered to that call. */
  ghost predicate Matches(w: World, id: RunId, answers: seq<Event>, invocations: seq<Invocation>) {
    && |answers| == |invocations|
    && forall j :: 0 <= j < |invocations| ==>
         var v := invocations[j]; answers[j] == Recorded(v.tool, v.arguments, w.callable(id, j, v.tool, v.arguments))
  }

  /** The failure of a call that the registry itself refuses. */
  function NeverReached(w: World, tool: string, arguments: Arguments): Event {
    ToolFailed(tool, OrNone(arguments), "ValueError",
               if tool in w.registry then CONTEXT_IS_NO_ARGUMENT else UNKNOWN_TOOL + tool)
  }

  /** An entry that says nothing untrue: a call waits for approval exactly if it is gated, and a refused one says so. */
  predicate Truthful(w: World, p: Phase, e: Event) {
    e.AuthorizationDenied? ||
    match p
    case Idle => e.ToolFailed? ==> e.errorType == INVALID_ARGUMENTS_ERROR
    case Asked(tool, arguments) =>
      && (e.ApprovalRequired? <==> Gated(w, tool))
      && (!Gated(w, tool) && !Invokes(w, tool, arguments, false) ==> e == NeverReached(w, tool, arguments))
    case Granted(tool, arguments) => !Invokes(w, tool, arguments, true) ==> e == NeverReached(w, tool, arguments)
    case _ => true
  }

  ghost predicate AllTruthful(w: World, audit: seq<Event>) {
    forall i :: 0 <= i < |audit| ==> Truthful(w, PhaseOf(audit[..i]), audit[i])
  }

  ghost predicate Accounts(w: World, id: RunId, audit: seq<Event>, invocations: seq<Invocation>) {
    Matches(w, id, Answers(w, audit), invocations) && AllTruthful(w, audit)
  }

  // -- single entries ----------------------------------------------------

  lemma AnswersGrow(w: World, audit: seq<Event>, e: Event)
    ensures Answers(w, audit + [e]) ==
            Answers(w, audit) + if InFlight(w, PhaseOf(audit)) && !e.AuthorizationDenied? then [e] else []
    ensures AllTruthful(w, audit) && Truthful(w, PhaseOf(audit), e) ==> AllTruthful(w, audit + [e])
  {
    var longer := audit + [e];
    assert longer[..|audit|] == audit;
    if AllTruthful(w, audit) && Truthful(w, PhaseOf(audit), e) {
      forall i | 0 <= i < |longer| ensures Truthful(w, PhaseOf(longer[..i]), longer[i]) {
        assert i < |audit| ==> longer[..i] == audit[..i] && longer[i] == audit[i];
      }
    }
  }

  /** An entry that no call is waiting for. */
  lemma QuietEntry(w: World, id: RunId, audit: seq<Event>, invocations: seq<Invocation>, e: Event)
    requires Accounts(w, id, audit, invocations) && Truthful(w, PhaseOf(audit), e)
    requires InFlight(w, PhaseOf(audit)) ==> e.AuthorizationDenied?
    ensures Accounts(w, id, audit + [e], invocations)
  {
    hide Truthful, Matches, PhaseOf, Recorded;
    AnswersGrow(w, audit, e);
    assert Answers(w, audit) + [] == Answers(w, audit);
  }

  /** A call that `execute` lets through, and the entry that records its outcome. */
  lemma OutcomeEntry(w: World, id: RunId, r: Run, tool: string, arguments: Arguments, approval: Option<nat>,
                     outcome: ToolOutcome)
    requires Accounts(w, id, r.audit, r.invocations)
    requires PhaseOf(r.audit) == if approval.Some? then Granted(tool, arguments) else Asked(tool, arguments)
    requires Execute(w, id, r, tool, arguments, approval) == Execution.Ran(outcome)
    ensures Accounts(w, id, r.audit + [Recorded(tool, arguments, outcome)],
                     Invoked(w, r, tool, arguments, approval).invocations)
  {
    var e := Recorded(tool, arguments, outcome);
    hide PhaseOf, Answers, AllTruthful;
    AnswersGrow(w, r.audit, e);
    assert Answers(w, r.audit) + [] == Answers(w, r.audit);
  }

  // -- the loop ----------------------------------------------------------

  ghost predicate RunAccounts(w: World, id: RunId, r: Run) {
    Accounts(w, id, r.audit, r.invocations)
  }

  ghost predicate TurnAccounts(w: World, id: RunId, t: Turn) {
    RunAccounts(w, id, t.run) && (t.Continue? ==> PhaseOf(t.run.audit) == Idle)
  }

  lemma HandleOutcomeLogs(w: World, r: Run, conversation: seq<Message>, call: ToolCall, outcome: ToolOutcome,
                          trace: seq<TraceEntry>)
    ensures
      var t := HandleOutcome(w, r, conversation, call, outcome, trace);
      && t.run.audit == r.audit + [Recorded(call.name, call.arguments, outcome)] && t.run.invocations == r.invocations
      && (t.Continue? <==> !outcome.Crashed?) && !t.Raise?
  {
    hide Serialise;
  }

  lemma HandleCallAccounts(w: World, id: RunId, r: Run, conversation: seq<Message>, call: ToolCall, trace: seq<TraceEntry>)
    requires RunAccounts(w, id, r) && PhaseOf(r.audit) == Idle
    ensures TurnAccounts(w, id, HandleCall(w, id, r, conversation, call, trace))
  {
    hide HandleOutcome, Accounts, Serialise, PhaseOf, Invoked, Recorded;
    if call.argumentError.Some? {
      var e := ToolFailed(call.name, OrNone(call.arguments), INVALID_ARGUMENTS_ERROR, call.argumentError.value);
      PhaseGrows(r.audit, e);
      QuietEntry(w, id, r.audit, r.invocations, e);
    } else {
      var requested := Note(r, ToolRequested(call.name, call.arguments));
      PhaseGrows(r.audit, ToolRequested(call.name, call.arguments));
      QuietEntry(w, id, r.audit, r.invocations, ToolRequested(call.name, call.arguments));
      match Execute(w, id, requested, call.name, call.arguments, None)
      case Blocked(risk) => QuietEntry(w, id, requested.audit, r.invocations, ApprovalRequired(call.name, call.arguments));
      case Ran(outcome) =>
        var ran := Invoked(w, requested, call.name, call.arguments, None);
        assert ran.audit == requested.audit by { InvokedOnly(w, requested, call.name, call.arguments, None); }
        OutcomeEntry(w, id, requested, call.name, call.arguments, None, outcome);
        HandleOutcomeLogs(w, ran, conversation, call, outcome, trace);
        OutcomeEnds(requested.audit, Asked(call.name, call.arguments), call.name, call.arguments, outcome);
    }
  }

  lemma InvokedOnly(w: World, r: Run, tool: string, arguments: Arguments, approval: Option<nat>)
    ensures Invoked(w, r, tool, arguments, approval) ==
            r.(invocations := Invoked(w, r, tool, arguments, approval).invocations)
  {
  }

  lemma OutcomeEnds(audit: seq<Event>, p: Phase, tool: string, arguments: Arguments, outcome: ToolOutcome)
    requires PhaseOf(audit) == p && (p == Asked(tool, arguments) || p == Granted(tool, arguments))
    ensures PhaseOf(audit + [Recorded(tool, arguments, outcome)]) == if outcome.Crashed? then Over else Idle
  {
    hide PhaseOf;
    PhaseGrows(audit, Recorded(tool, arguments, outcome));
  }

  lemma IterateAccounts(w: World, id: RunId, r: Run, conversation: seq<Message>, trace: seq<TraceEntry>)
    requires RunAccounts(w, id, r) && PhaseOf(r.audit) == Idle
    ensures TurnAccounts(w, id, Iterate(w, id, r, conversation, trace))
  {
    hide HandleCall, Accounts, PhaseOf;
    match w.model(id, |r.prompts|, conversation)
    case ModelRaised =>
    case Responded(text, calls) =>
      if calls != [] {
        var answered := r.(prompts := r.prompts + [conversation], steps := r.steps + [ModelResponded(text, calls)]);
        HandleCallAccounts(w, id, answered, conversation + [AssistantMessage(text, [calls[0]])], calls[0], trace);
      }
  }

  lemma {:induction false} DriveAccounts(w: World, id: RunId, r: Run, conversation: seq<Message>, trace: seq<TraceEntry>,
                                         n: nat)
    requires RunAccounts(w, id, r) && PhaseOf(r.audit) == Idle
    ensures RunAccounts(w, id, Drive(w, id, r, conversation, trace, n).0)
    decreases n
  {
    hide Iterate, Accounts, PhaseOf;
    if n == 0 {
      QuietEntry(w, id, r.audit, r.invocations, AgentMaxIterations(|trace|));
    } else {
      IterateAccounts(w, id, r, conversation, trace);
      match Iterate(w, id, r, conversation, trace)
      case Continue(run, extended, longer) => DriveAccounts(w, id, run, extended, longer, n - 1);
      case _ =>
    }
  }

  // -- the entry points --------------------------------------------------

  lemma StartAccounts(w: World, id: RunId)
    ensures Accounts(w, id, [], [])
  {
  }

  lemma DirectLogs(r: Run, tool: string, arguments: Arguments, outcome: ToolOutcome)
    ensures
      var t := DirectOutcome(r, tool, arguments, outcome).0;
      t.audit == r.audit + [Recorded(tool, arguments, outcome)] && t.invocations == r.invocations
  {
  }

  lemma EnteredAccounts(w: World, c: Call)
    requires Starts(c)
    ensures RunAccounts(w, c.id, Entered(w, c))
  {
    hide Accounts, PhaseOf, Drive, Invoked, Recorded, DirectOutcome, Serialise;
    StartAccounts(w, c.id);
    assert PhaseOf([]) == Idle by { EmptyIsIdle(); }
    match c
    case Start(id, message) =>
      var conversation := [UserMessage(message)];
      DriveAccounts(w, id, Save(NEW_RUN, conversation), conversation, [], w.maxIterations);
    case Request(id, callId, tool, arguments) =>
      var created := Save(NEW_RUN, []);
      var requested := Note(created, ToolRequested(tool, arguments));
      PhaseGrows([], ToolRequested(tool, arguments));
      QuietEntry(w, id, [], [], ToolRequested(tool, arguments));
      match Execute(w, id, requested, tool, arguments, None)
      case Blocked(risk) => QuietEntry(w, id, requested.audit, [], ApprovalRequired(tool, arguments));
      case Ran(outcome) =>
        var ran := Invoked(w, requested, tool, arguments, None);
        InvokedOnly(w, requested, tool, arguments, None);
        OutcomeEntry(w, id, requested, tool, arguments, None, outcome);
        DirectLogs(ran, tool, arguments, outcome);
  }

  lemma EmptyIsIdle()
    ensures PhaseOf([]) == Idle
  {
  }

  /** From the approved call on. */
  lemma CompleteAccounts(w: World, id: RunId, ran: Run, conversation: seq<Message>, a: Approval, outcome: ToolOutcome)
    requires Accounts(w, id, ran.audit + [Recorded(a.tool, a.arguments, outcome)], ran.invocations)
    requires PhaseOf(ran.audit) == Granted(a.tool, a.arguments)
    ensures RunAccounts(w, id, Complete(w, id, ran, conversation, a, outcome).0)
  {
    hide Accounts, PhaseOf, Drive, DirectOutcome;
    OutcomeEnds(ran.audit, Granted(a.tool, a.arguments), a.tool, a.arguments, outcome);
    if conversation == [] {
      DirectLogs(ran, a.tool, a.arguments, outcome);
    } else {
      match outcome
      case Refused(errorType, error) =>
        DriveAccounts(w, id, FailTool(ran, a.tool, a.arguments, errorType, error),
                      conversation + [ToolResult(a.toolCallId, a.tool, w.renderFailure(errorType, error))], [],
                      w.maxIterations);
      case Crashed(errorType, error) =>
      case Returned(result) =>
        DriveAccounts(w, id, Note(ran, ToolExecuted(a.tool, a.arguments, result)),
                      conversation + [ToolResult(a.toolCallId, a.tool, w.render(result))],
                      [TraceEntry(a.tool, a.arguments, result)], w.maxIterations);
    }
  }

  lemma ApproveAccounts(w: World, id: RunId, r: Run, k: nat)
    requires RunOk(w, r) && IsPending(r, k) && RunAccounts(w, id, r)
    ensures RunAccounts(w, id, Approve(w, id, r, k).0)
  {
    var outcome := ApproveIs(w, id, r, k);
    PendingIsLast(w, r, k);
    var a, granted, ran := r.approvals[k], Released(r, k), ReleasedRun(w, id, r, k);
    assert granted.audit == r.audit + [ApprovalGranted(a.tool, a.arguments)] && granted.invocations == r.invocations;
    assert PhaseOf(r.audit) == Parked(a.tool, a.arguments);
    hide RunOk, Accounts, PhaseOf, Released, Approve, Execute, Complete, Invoked, Deserialise, Recorded;
    PhaseGrows(r.audit, ApprovalGranted(a.tool, a.arguments));
    QuietEntry(w, id, r.audit, r.invocations, ApprovalGranted(a.tool, a.arguments));
    OutcomeEntry(w, id, granted, a.tool, a.arguments, Some(k), outcome);
    InvokedOnly(w, granted, a.tool, a.arguments, Some(k));
    CompleteAccounts(w, id, ran, r.saves[|r.saves| - 1], a, outcome);
  }

  lemma ChangedAccounts(w: World, r: Run, c: Call)
    requires RunOk(w, r) && RunAccounts(w, c.id, r) && !Starts(c)
    ensures RunAccounts(w, c.id, Changed(w, r, c))
  {
    hide Accounts, Approve, Base, PhaseOf;
    match c
    case Decide(id, k, approved) =>
      if IsPending(r, k) {
        if approved {
          ApproveAccounts(w, id, r, k);
        } else {
          PendingIsLast(w, r, k);
          QuietEntry(w, id, r.audit, r.invocations, ApprovalDenied(r.approvals[k].tool, r.approvals[k].arguments));
        }
      }
    case Deny(id, tool) => QuietEntry(w, id, r.audit, r.invocations, AuthorizationDenied(tool));
    case Reconcile(id) =>
      if r.status == Running {
        QuietEntry(w, id, r.audit, r.invocations, RunReconciled);
      }
  }

  lemma {:induction false} HistoryAccounts(w: World, calls: seq<Call>, id: RunId)
    requires id in ServeAll(w, calls)
    ensures RunAccounts(w, id, ServeAll(w, calls)[id])
  {
    hide RunOk, Entered, Changed, RunAccounts;
    var n := |calls| - 1;
    var before, c := ServeAll(w, calls[..n]), calls[n];
    if id in before {
      HistoryAccounts(w, calls[..n], id);
      EveryRunIsSound(w, calls[..n], id);
      if c.id == id && !Starts(c) { ChangedAccounts(w, before[id], c); }
    } else {
      EnteredAccounts(w, c);
    }
  }

  // -- what the log says of the tools ------------------------------------

  /**
   Whatever the calls: the tools' functions were called as often as the log has outcomes of calls
   that reach one, and the j-th of these records what the function answered to the j-th call,
   asked of just that tool with just those arguments.
   */
  lemma EveryCallIsRecorded(w: World, calls: seq<Call>, id: RunId)
    requires id in ServeAll(w, calls)
    ensures
      var r := ServeAll(w, calls)[id];
      var answers := Answers(w, r.audit);
      && |answers| == |r.invocations|
      && forall j :: 0 <= j < |r.invocations| ==>
           var v := r.invocations[j];
           answers[j] == Recorded(v.tool, v.arguments, w.callable(id, j, v.tool, v.arguments))
  {
    hide ServeAll, Answers, Recorded;
    HistoryAccounts(w, calls, id);
  }

  lemma {:induction false} InFlightIsAnswered(w: World, audit: seq<Event>, n: nat, i: nat)
    requires i < n <= |audit| && InFlight(w, PhaseOf(audit[..i])) && !audit[i].AuthorizationDenied?
    ensures audit[i] in Answers(w, audit[..n])
  {
    hide InFlight, PhaseOf;
    assert audit[..n][..n - 1] == audit[..n - 1] && audit[..n][n - 1] == audit[n - 1];
    if i < n - 1 {
      InFlightIsAnswered(w, audit, n - 1, i);
    }
  }

  lemma {:induction false} NeverBroken(audit: seq<Event>, i: nat)
    requires i <= |audit| && PhaseOf(audit) != Broken
    ensures PhaseOf(audit[..i]) != Broken
    decreases |audit|
  {
    if i < |audit| {
      NeverBroken(audit[..|audit| - 1], i);
      assert audit[..|audit| - 1][..i] == audit[..i];
    } else {
      assert audit[..i] == audit;
    }
  }

  /** The j-th call of a tool's function, made for this event's tool and arguments, answered this. */
  ghost predicate AnsweredAs(w: World, id: RunId, r: Run, e: Event, j: nat) {
    && j < |r.invocations|
    && var v := r.invocations[j]; e == Recorded(v.tool, v.arguments, w.callable(id, j, v.tool, v.arguments))
  }

  /** What the log and the ledger of a run that never broke the rules say of one entry. */
  lemma EntryIsTrue(w: World, id: RunId, r: Run, i: nat)
    requires RunAccounts(w, id, r) && PhaseOf(r.audit) != Broken && i < |r.audit|
    ensures
      var e := r.audit[i];
      && (e.ToolExecuted? || e.AgentFailed? ==> exists j: nat :: AnsweredAs(w, id, r, e, j))
      && (e.ToolFailed? ==>
            || (exists j: nat :: AnsweredAs(w, id, r, e, j))
            || (exists arguments :: e == NeverReached(w, e.tool, arguments))
            || e.errorType == INVALID_ARGUMENTS_ERROR)
  {
    var e, p := r.audit[i], PhaseOf(r.audit[..i]);
    assert Truthful(w, p, e);
    NeverBroken(r.audit, i + 1);
    assert r.audit[..i + 1] == r.audit[..i] + [e];
    PhaseGrows(r.audit[..i], e);
    hide PhaseOf, InFlight, Recorded, Truthful;
    OutcomesHaveACall(w, p, e);
    if InFlight(w, p) && !e.AuthorizationDenied? {
      InFlightIsAnswered(w, r.audit, |r.audit|, i);
      assert r.audit[..|r.audit|] == r.audit;
      hide Answers;
      var j :| 0 <= j < |r.invocations| && Answers(w, r.audit)[j] == e;
      assert AnsweredAs(w, id, r, e, j);
    }
  }

  /**
   An execution or a crash is on record only where a tool's function answered just that; a failure
   only where it did, where the registry refused the call, or where the arguments could not be read.
   */
  lemma OutcomesAreTrue(w: World, calls: seq<Call>, id: RunId, i: nat)
    requires id in ServeAll(w, calls) && i < |ServeAll(w, calls)[id].audit|
    ensures
      var r := ServeAll(w, calls)[id];
      var e := r.audit[i];
      && (e.ToolExecuted? || e.AgentFailed? ==> exists j: nat :: AnsweredAs(w, id, r, e, j))
      && (e.ToolFailed? ==>
            || (exists j: nat :: AnsweredAs(w, id, r, e, j))
            || (exists arguments :: e == NeverReached(w, e.tool, arguments))
            || e.errorType == INVALID_ARGUMENTS_ERROR)
  {
    hide *;
    EveryRunIsSound(w, calls, id);
    HistoryAccounts(w, calls, id);
    SoundIsNotBroken(w, ServeAll(w, calls)[id]);
    EntryIsTrue(w, id, ServeAll(w, calls)[id], i);
  }

  lemma OutcomesHaveACall(w: World, p: Phase, e: Event)
    requires Truthful(w, p, e) && Next(p, e) != Broken
    ensures e.ToolExecuted? || e.AgentFailed? ==> InFlight(w, p)
    ensures e.ToolFailed? ==>
              InFlight(w, p) || (exists arguments :: e == NeverReached(w, e.tool, arguments)) || e.errorType == INVALID_ARGUMENTS_ERROR
  {
  }

  lemma SoundIsNotBroken(w: World, r: Run)
    requires RunOk(w, r)
    ensures PhaseOf(r.audit) != Broken
  {
    hide Base, BudgetOk, Executions, PhaseOf;
  }

  /** A call is held for approval exactly if its tool writes or is dangerous. */
  lemma GatedCallsWait(w: World, calls: seq<Call>, id: RunId, i: nat)
    requires id in ServeAll(w, calls) && i < |ServeAll(w, calls)[id].audit|
    requires PhaseOf(ServeAll(w, calls)[id].audit[..i]).Asked? && !ServeAll(w, calls)[id].audit[i].AuthorizationDenied?
    ensures
      var r := ServeAll(w, calls)[id];
      var p := PhaseOf(r.audit[..i]);
      r.audit[i].ApprovalRequired? <==> p.tool in w.registry && w.registry[p.tool].risk != Read
  {
    hide ServeAll, PhaseOf;
    HistoryAccounts(w, calls, id);
    var r := ServeAll(w, calls)[id];
    assert Truthful(w, PhaseOf(r.audit[..i]), r.audit[i]);
  }
}
