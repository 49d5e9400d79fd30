/** Whole histories of the agent service: any calls, in any order, on any number of runs. */
module AgentHistory {
  import opened Wrappers
  import opened AgentProtocol
  import opened AgentCore
  import opened AgentInvariants

  type Runs = map<RunId, Run>

  /** One entry into the service.  A started run has a fresh id; `Deny` is the route's own refusal. */
  datatype Call =
    | Start(id: RunId, message: string)
    | Request(id: RunId, callId: string, tool: string, arguments: Arguments)
    | Decide(id: RunId, approval: nat, approved: bool)
    | Deny(id: RunId, tool: string)
    | Reconcile(id: RunId)

  predicate Starts(c: Call) {
    c.Start? || c.Request?
  }

  /** What a call makes of the run it names. */
  function Entered(w: World, c: Call): Run
    requires Starts(c)
  {
    match c
    case Start(id, message) => StartRun(w, id, message).0
    case Request(id, callId, tool, arguments) => RequestAction(w, id, callId, tool, arguments).0
  }

  function Changed(w: World, r: Run, c: Call): Run
    requires !Starts(c)
  {
    match c
    case Decide(id, k, approved) => ResolveApproval(w, id, r, k, approved).0
    case Deny(_, tool) => DenyAuthorization(r, tool)
    case Reconcile(_) => ReconcileRun(r)
  }

  function Serve(w: World, runs: Runs, c: Call): Runs {
    if Starts(c) then (if c.id in runs then runs else runs[c.id := Entered(w, c)])
    else if c.id in runs then runs[c.id := Changed(w, runs[c.id], c)]
    else runs
  }

  function ServeAll(w: World, calls: seq<Call>): Runs {
    if calls == [] then map[]
    else Serve(w, ServeAll(w, calls[..|calls| - 1]), calls[|calls| - 1])
  }

  // -- soundness ---------------------------------------------------------

  lemma EnteredOk(w: World, c: Call)
    requires Starts(c)
    ensures RunOk(w, Entered(w, c))
  {
    hide RunOk, StartRun, RequestAction;
    match c
    case Start(id, message) => StartRunOk(w, id, message);
    case Request(id, callId, tool, arguments) => RequestActionOk(w, id, callId, tool, arguments);
  }

  lemma ChangedOk(w: World, r: Run, c: Call)
    requires RunOk(w, r) && !Starts(c)
    ensures RunOk(w, Changed(w, r, c))
  {
    hide RunOk, ResolveApproval, DenyAuthorization, ReconcileRun;
    match c
    case Decide(id, k, approved) => ResolveApprovalOk(w, id, r, k, approved);
    case Deny(_, tool) => DenyAuthorizationOk(w, r, tool);
    case Reconcile(_) => ReconcileRunOk(w, r);
  }

  /** Every run keeps the whole invariant, whatever the calls, the model and the tools do. */
  lemma {:induction false} EveryRunIsSound(w: World, calls: seq<Call>, id: RunId)
    requires id in ServeAll(w, calls)
    ensures RunOk(w, ServeAll(w, calls)[id])
  {
    hide RunOk, Entered, Changed;
    var n := |calls| - 1;
    var before, c := ServeAll(w, calls[..n]), calls[n];
    if id in before {
      EveryRunIsSound(w, calls[..n], id);
      if c.id == id && !Starts(c) { ChangedOk(w, before[id], c); }
    } else {
      EnteredOk(w, c);
    }
  }

  // -- what a caller may rely on -----------------------------------------

  /** Every conversation handed to the model is balanced, across any number of parks and approvals. */
  lemma EveryPromptIsBalanced(w: World, calls: seq<Call>, id: RunId, i: nat)
    requires id in ServeAll(w, calls) && i < |ServeAll(w, calls)[id].prompts|
    ensures Balanced(ServeAll(w, calls)[id].prompts[i])
  {
    hide ServeAll;
    EveryRunIsSound(w, calls, id);
  }

  /** Each saved conversation extends all those saved before it, and the last is the one persisted. */
  lemma SavedConversationsExtend(w: World, calls: seq<Call>, id: RunId)
    requires id in ServeAll(w, calls)
    ensures
      var r := ServeAll(w, calls)[id];
      && r.saves != [] && Deserialise(r.conversation) == Some(r.saves[|r.saves| - 1])
      && forall i, j :: 0 <= i < j < |r.saves| ==> r.saves[i] <= r.saves[j]
  {
    hide ServeAll, Serialise, Deserialise, Balanced, PhaseOk, BudgetOk, InvocationsOk, ApprovalsOk, HistoriesOk,
         PromptsOk, Executions;
    EveryRunIsSound(w, calls, id);
    var r := ServeAll(w, calls)[id];
    ConversationRoundTrip(r.saves[|r.saves| - 1]);
  }

  /** Steps without the model's answers are the audit log without its three entries of its own. */
  lemma StepsAndAuditAgree(w: World, calls: seq<Call>, id: RunId)
    requires id in ServeAll(w, calls)
    ensures StepTrail(ServeAll(w, calls)[id].steps) == AuditTrail(ServeAll(w, calls)[id].audit)
  {
    hide ServeAll;
    EveryRunIsSound(w, calls, id);
  }

  /** A resting run waits exactly when one approval of it is pending, and then just one is. */
  lemma WaitingMeansOnePending(w: World, calls: seq<Call>, id: RunId)
    requires id in ServeAll(w, calls)
    ensures
      var r := ServeAll(w, calls)[id];
      && (r.status == WaitingForApproval <==> exists k: nat :: IsPending(r, k))
      && forall j: nat, k: nat :: IsPending(r, j) && IsPending(r, k) ==> j == k
  {
    hide ServeAll;
    EveryRunIsSound(w, calls, id);
    var r := ServeAll(w, calls)[id];
    if r.status == WaitingForApproval {
      assert IsPending(r, |r.approvals| - 1);
    }
  }

  /** A run rests in RUNNING only because a model call raised. */
  lemma RunningMeansRaised(w: World, calls: seq<Call>, id: RunId)
    requires id in ServeAll(w, calls)
    ensures ServeAll(w, calls)[id].status == Running ==> ServeAll(w, calls)[id].raised
  {
    hide ServeAll;
    EveryRunIsSound(w, calls, id);
  }

  /** Model calls are bounded by the iterations of the first drive and of one more per grant. */
  lemma ModelCallsAreBounded(w: World, calls: seq<Call>, id: RunId)
    requires id in ServeAll(w, calls)
    ensures
      var r := ServeAll(w, calls)[id];
      |r.prompts| <= w.maxIterations * (1 + Grants(r.approvals))
  {
    hide ServeAll, SavesOk, PhaseOk, InvocationsOk, ApprovalsOk, HistoriesOk, PromptsOk, Executions;
    EveryRunIsSound(w, calls, id);
  }

  /** If no model call raised, the responses' traces concatenate to the recorded executions. */
  lemma TracesAreExecutions(w: World, calls: seq<Call>, id: RunId)
    requires id in ServeAll(w, calls) && !ServeAll(w, calls)[id].raised
    ensures ServeAll(w, calls)[id].traces == Executions(ServeAll(w, calls)[id].steps)
  {
    hide ServeAll;
    EveryRunIsSound(w, calls, id);
  }

  // -- every request is answered once ------------------------------------

  /** An event that settles a request for just this call. */
  predicate Settling(e: Event, tool: string, arguments: Arguments) {
    match e
    case ToolExecuted(t, a, _) => t == tool && a == arguments
    case ToolFailed(t, given, _, _) => t == tool && given == OrNone(arguments)
    case AgentFailed(t, a, _, _) => t == tool && a == arguments
    case ApprovalDenied(t, a) => t == tool && a == arguments
    case _ => false
  }

  /** Events that may stand between a request and what settles it. */
  predicate Between(e: Event) {
    e.AuthorizationDenied? || e.ApprovalRequired? || e.ApprovalGranted?
  }

  /** Event j is the one answer of the request at i. */
  ghost predicate AnsweredBy(audit: seq<Event>, i: nat, j: nat) {
    && i < j < |audit| && audit[i].ToolRequested?
    && Settling(audit[j], audit[i].tool, audit[i].arguments)
    && forall m :: i < m < j ==> Between(audit[m])
  }

  /** After n entries the request at i is the one the log is still waiting to see answered. */
  ghost predicate StillOpen(audit: seq<Event>, n: nat, i: nat) {
    && i < n <= |audit| && audit[i].ToolRequested?
    && (forall m :: i < m < n ==> Between(audit[m]))
    && OpenFor(PhaseOf(audit[..n]), audit[i].tool, audit[i].arguments)
  }

  ghost predicate Accounted(audit: seq<Event>, n: nat, i: nat) {
    StillOpen(audit, n, i) || exists j: nat :: AnsweredBy(audit, i, j)
  }

  /** In a log that never broke the rules, every request is answered or is the one still open. */
  lemma {:induction false} AnswersFollow(audit: seq<Event>, n: nat)
    requires n <= |audit| && PhaseOf(audit[..n]) != Broken
    ensures forall i :: 0 <= i < n && audit[i].ToolRequested? ==> Accounted(audit, n, i)
  {
    if n > 0 {
      assert audit[..n][..n - 1] == audit[..n - 1];
      AnswersFollow(audit, n - 1);
      forall i | 0 <= i < n && audit[i].ToolRequested? ensures Accounted(audit, n, i) {
        if i == n - 1 {
          assert StillOpen(audit, n, i);
        } else if StillOpen(audit, n - 1, i) {
          OneMore(audit, n - 1, i);
        }
      }
    }
  }

  lemma OneMore(audit: seq<Event>, n: nat, i: nat)
    requires n < |audit| && StillOpen(audit, n, i) && PhaseOf(audit[..n + 1]) != Broken
    ensures StillOpen(audit, n + 1, i) || AnsweredBy(audit, i, n)
  {
    assert audit[..n + 1][..n] == audit[..n];
    OpenMoves(PhaseOf(audit[..n]), audit[i].tool, audit[i].arguments, audit[n]);
  }

  predicate OpenFor(p: Phase, t: string, a: Arguments) {
    p == Asked(t, a) || p == Parked(t, a) || p == Granted(t, a)
  }

  /** An open request either stays open or meets what settles it. */
  lemma OpenMoves(p: Phase, t: string, a: Arguments, e: Event)
    requires OpenFor(p, t, a) && Next(p, e) != Broken
    ensures (Between(e) && OpenFor(Next(p, e), t, a)) || Settling(e, t, a)
  {
  }

  lemma AnswerIsUnique(audit: seq<Event>, i: nat, j: nat, k: nat)
    requires AnsweredBy(audit, i, j) && AnsweredBy(audit, i, k)
    ensures j == k
  {
  }

  /** Every request is answered by exactly one outcome, unless its run waits for the decision. */
  lemma EveryRequestIsAnswered(w: World, calls: seq<Call>, id: RunId, i: nat)
    requires id in ServeAll(w, calls)
    requires i < |ServeAll(w, calls)[id].audit| && ServeAll(w, calls)[id].audit[i].ToolRequested?
    ensures
      var r := ServeAll(w, calls)[id];
      && (r.status != WaitingForApproval ==> exists j: nat :: AnsweredBy(r.audit, i, j))
      && (r.status == WaitingForApproval ==> StillOpen(r.audit, |r.audit|, i) || exists j: nat :: AnsweredBy(r.audit, i, j))
      && forall j: nat, k: nat :: AnsweredBy(r.audit, i, j) && AnsweredBy(r.audit, i, k) ==> j == k
  {
    hide ServeAll, AnsweredBy;
    var r := ServeAll(w, calls)[id];
    EveryRunIsSound(w, calls, id);
    assert r.audit[..|r.audit|] == r.audit;
    AnswersFollow(r.audit, |r.audit|);
    assert Accounted(r.audit, |r.audit|, i);
    forall j: nat, k: nat | AnsweredBy(r.audit, i, j) && AnsweredBy(r.audit, i, k) ensures j == k {
      AnswerIsUnique(r.audit, i, j, k);
    }
  }

  // -- append-only histories ---------------------------------------------

  /** `s` is `r` with more written after it, and no decision taken in between. */
  ghost predicate Appends(r: Run, s: Run) {
    && r.steps <= s.steps && r.audit <= s.audit && r.saves <= s.saves && r.prompts <= s.prompts
    && r.invocations <= s.invocations && r.traces <= s.traces
    && Asks(r.approvals, s.approvals)
  }

  /** More approvals have been asked for, and nothing decided. */
  ghost predicate Asks(a: seq<Approval>, b: seq<Approval>) {
    && a <= b && forall k :: |a| <= k < |b| ==> b[k].status == Pending
  }

  lemma AppendsTransitive(r: Run, s: Run, t: Run)
    requires Appends(r, s) && Appends(s, t)
    ensures Appends(r, t)
  {
  }

  lemma HandleCallAppends(w: World, id: RunId, r: Run, conversation: seq<Message>, call: ToolCall, trace: seq<TraceEntry>)
    ensures Appends(r, HandleCall(w, id, r, conversation, call, trace).run)
  {
    hide HandleOutcome, Serialise;
    if call.argumentError.None? {
      var requested := Note(r, ToolRequested(call.name, call.arguments));
      match Execute(w, id, requested, call.name, call.arguments, None)
      case Blocked(risk) =>
      case Ran(outcome) =>
        var ran := Invoked(w, requested, call.name, call.arguments, None);
        HandleOutcomeAppends(w, ran, conversation, call, outcome, trace);
        AppendsTransitive(r, ran, HandleOutcome(w, ran, conversation, call, outcome, trace).run);
    }
  }

  lemma HandleOutcomeAppends(w: World, r: Run, conversation: seq<Message>, call: ToolCall, outcome: ToolOutcome,
                             trace: seq<TraceEntry>)
    ensures Appends(r, HandleOutcome(w, r, conversation, call, outcome, trace).run)
  {
    hide Serialise;
  }

  lemma {:induction false} DriveAppends(w: World, id: RunId, r: Run, conversation: seq<Message>,
                                        trace: seq<TraceEntry>, n: nat)
    ensures Appends(r, Drive(w, id, r, conversation, trace, n).0)
    decreases n
  {
    hide Iterate;
    if n > 0 {
      IterateAppends(w, id, r, conversation, trace);
      hide Appends;
      match Iterate(w, id, r, conversation, trace)
      case Continue(run, extended, longer) =>
        DriveAppends(w, id, run, extended, longer, n - 1);
        AppendsTransitive(r, run, Drive(w, id, run, extended, longer, n - 1).0);
      case _ =>
    }
  }

  lemma IterateAppends(w: World, id: RunId, r: Run, conversation: seq<Message>, trace: seq<TraceEntry>)
    ensures Appends(r, Iterate(w, id, r, conversation, trace).run)
  {
    hide HandleCall;
    match w.model(id, |r.prompts|, conversation)
    case ModelRaised =>
    case Responded(text, calls) =>
      if calls != [] {
        var answered := r.(prompts := r.prompts + [conversation], steps := r.steps + [ModelResponded(text, calls)]);
        var longer := conversation + [AssistantMessage(text, [calls[0]])];
        HandleCallAppends(w, id, answered, longer, calls[0], trace);
        AppendsTransitive(r, answered, HandleCall(w, id, answered, longer, calls[0], trace).run);
      }
  }

  /** `s` is `r` at a later time: logs only gain entries, decisions and what was asked never change. */
  ghost predicate Grows(r: Run, s: Run) {
    && r.steps <= s.steps && r.audit <= s.audit && r.saves <= s.saves && r.prompts <= s.prompts
    && r.invocations <= s.invocations && r.traces <= s.traces
    && Decides(r.approvals, s.approvals)
    && (Terminal(r.status) ==> s.status == r.status && s.prompts == r.prompts && s.invocations == r.invocations)
  }

  predicate Terminal(status: RunStatus) {
    status == Completed || status == Failed || status == Cancelled
  }

  ghost predicate Decides(a: seq<Approval>, b: seq<Approval>) {
    && |a| <= |b|
    && forall k :: 0 <= k < |a| ==> b[k].(status := Pending) == a[k].(status := Pending)
                                    && (a[k].status != Pending ==> b[k] == a[k])
  }

  lemma ApproveAppends(w: World, id: RunId, r: Run, k: nat)
    requires RunOk(w, r) && IsPending(r, k)
    ensures Appends(Released(r, k), Approve(w, id, r, k).0)
  {
    var outcome := ApproveIs(w, id, r, k);
    hide RunOk, Released, Deserialise, DirectOutcome, Resume, Approve, Execute;
    var a, ran, saved := r.approvals[k], ReleasedRun(w, id, r, k), r.saves[|r.saves| - 1];
    DirectAppends(ran, a.tool, a.arguments, outcome);
    ResumeAppends(w, id, ran, saved, a, outcome);
    AppendsTransitive(Released(r, k), ran, Approve(w, id, r, k).0);
  }

  lemma DirectAppends(r: Run, tool: string, arguments: Arguments, outcome: ToolOutcome)
    ensures Appends(r, DirectOutcome(r, tool, arguments, outcome).0)
  {
  }

  lemma ResumeAppends(w: World, id: RunId, r: Run, conversation: seq<Message>, a: Approval, outcome: ToolOutcome)
    ensures Appends(r, Resume(w, id, r, conversation, a, outcome).0)
  {
    hide Drive;
    match outcome
    case Refused(errorType, error) =>
      var failed := FailTool(r, a.tool, a.arguments, errorType, error);
      var longer := conversation + [ToolResult(a.toolCallId, a.tool, w.renderFailure(errorType, error))];
      DriveAppends(w, id, failed, longer, [], w.maxIterations);
      AppendsTransitive(r, failed, Drive(w, id, failed, longer, [], w.maxIterations).0);
    case Crashed(errorType, error) =>
    case Returned(result) =>
      var noted := Note(r, ToolExecuted(a.tool, a.arguments, result));
      var longer := conversation + [ToolResult(a.toolCallId, a.tool, w.render(result))];
      var trace := [TraceEntry(a.tool, a.arguments, result)];
      DriveAppends(w, id, noted, longer, trace, w.maxIterations);
      AppendsTransitive(r, noted, Drive(w, id, noted, longer, trace, w.maxIterations).0);
  }

  /** One call on a run: what was written stays, and only its own decision moves an approval. */
  lemma ChangedGrows(w: World, r: Run, c: Call)
    requires RunOk(w, r) && !Starts(c)
    ensures Grows(r, Changed(w, r, c))
    ensures forall k: nat :: k < |Changed(w, r, c).approvals| && Changed(w, r, c).approvals[k].status == Approved ==>
                          && k < |r.approvals|
                          && (r.approvals[k].status == Approved || (c == Decide(c.id, k, true) && IsPending(r, k)))
  {
    hide Approve, Released, Base, PhaseOk, BudgetOk, Executions;
    if c.Decide? && c.approved && IsPending(r, c.approval) {
      PendingIsLast(w, r, c.approval);
      ApproveAppends(w, c.id, r, c.approval);
      ReleasedGrows(r, c.approval, Approve(w, c.id, r, c.approval).0);
    } else if c.Decide? && IsPending(r, c.approval) {
      PendingIsLast(w, r, c.approval);
    }
  }

  lemma ReleasedGrows(r: Run, k: nat, s: Run)
    requires IsPending(r, k) && r.status == WaitingForApproval && Appends(Released(r, k), s)
    ensures Grows(r, s)
    ensures forall j: nat :: j < |s.approvals| && s.approvals[j].status == Approved ==>
                          j < |r.approvals| && (r.approvals[j].status == Approved || j == k)
  {
  }

  /** A started run has decided nothing. */
  lemma EnteredUndecided(w: World, c: Call, k: nat)
    requires Starts(c) && k < |Entered(w, c).approvals|
    ensures Entered(w, c).approvals[k].status == Pending
  {
    match c
    case Start(id, message) =>
      var conversation := [UserMessage(message)];
      hide Drive;
      DriveAppends(w, id, Save(NEW_RUN, conversation), conversation, [], w.maxIterations);
    case Request(id, callId, tool, arguments) =>
  }

  lemma GrowsTransitive(r: Run, s: Run, t: Run)
    requires Grows(r, s) && Grows(s, t)
    ensures Grows(r, t)
  {
    forall k | 0 <= k < |r.approvals|
      ensures t.approvals[k].(status := Pending) == r.approvals[k].(status := Pending)
      ensures r.approvals[k].status != Pending ==> t.approvals[k] == r.approvals[k]
    {
      assert s.approvals[k].(status := Pending) == r.approvals[k].(status := Pending);
    }
  }

  /** Histories are append-only, decisions are final, and a finished run neither asks a model nor runs a tool again. */
  lemma {:induction false} HistoriesOnlyGrow(w: World, calls: seq<Call>, more: seq<Call>, id: RunId)
    requires id in ServeAll(w, calls)
    ensures id in ServeAll(w, calls + more) && Grows(ServeAll(w, calls)[id], ServeAll(w, calls + more)[id])
    decreases |more|
  {
    hide RunOk, Changed, Entered;
    if more == [] {
      assert calls + more == calls;
    } else {
      var n := |more| - 1;
      var all := calls + more;
      assert all[..|all| - 1] == calls + more[..n] && all[|all| - 1] == more[n];
      HistoriesOnlyGrow(w, calls, more[..n], id);
      var r, s := ServeAll(w, calls)[id], ServeAll(w, calls + more[..n])[id];
      if more[n].id == id && !Starts(more[n]) {
        EveryRunIsSound(w, calls + more[..n], id);
        ChangedGrows(w, s, more[n]);
        GrowsTransitive(r, s, Changed(w, s, more[n]));
      }
    }
  }

  // -- approvals ---------------------------------------------------------

  /** Call c is the decision that moved approval k of the run from PENDING to APPROVED. */
  ghost predicate GrantedBy(w: World, calls: seq<Call>, id: RunId, k: nat, c: nat) {
    && c < |calls| && calls[c] == Decide(id, k, true)
    && id in ServeAll(w, calls[..c]) && IsPending(ServeAll(w, calls[..c])[id], k)
  }

  lemma {:induction false} ApprovedWasGranted(w: World, calls: seq<Call>, id: RunId, k: nat)
    requires id in ServeAll(w, calls) && k < |ServeAll(w, calls)[id].approvals|
    requires ServeAll(w, calls)[id].approvals[k].status == Approved
    ensures exists c: nat :: GrantedBy(w, calls, id, k, c)
    decreases |calls|
  {
    hide RunOk, Changed, Entered;
    var n := |calls| - 1;
    var before, c := ServeAll(w, calls[..n]), calls[n];
    if id !in before {
      EnteredUndecided(w, c, k);
    } else {
      if c.id == id && !Starts(c) {
        EveryRunIsSound(w, calls[..n], id);
        ChangedGrows(w, before[id], c);
      }
      if k < |before[id].approvals| && before[id].approvals[k].status == Approved {
        ApprovedWasGranted(w, calls[..n], id, k);
        var d: nat :| GrantedBy(w, calls[..n], id, k, d);
        assert calls[..n][..d] == calls[..d];
        assert GrantedBy(w, calls, id, k, d);
      } else {
        assert GrantedBy(w, calls, id, k, n);
      }
    }
  }

  /**
   Each execution of a WRITE or DANGEROUS tool has an approval of its own, for just that tool and
   those arguments, which a decision moved from PENDING to APPROVED.
   */
  lemma GatedCallsHaveTheirOwnApproval(w: World, calls: seq<Call>, id: RunId, i: nat)
    requires id in ServeAll(w, calls) && i < |ServeAll(w, calls)[id].invocations|
    requires Gated(w, ServeAll(w, calls)[id].invocations[i].tool)
    ensures
      var r := ServeAll(w, calls)[id];
      var v := r.invocations[i];
      && v.approval.Some? && v.approval.value < |r.approvals|
      && r.approvals[v.approval.value].tool == v.tool && r.approvals[v.approval.value].arguments == v.arguments
      && (exists c: nat :: GrantedBy(w, calls, id, v.approval.value, c))
      && forall j :: 0 <= j < |r.invocations| && j != i ==> r.invocations[j].approval != v.approval
  {
    hide ServeAll;
    EveryRunIsSound(w, calls, id);
    var r := ServeAll(w, calls)[id];
    assert InvocationOk(w, r.approvals, r.invocations[i]);
    ApprovedWasGranted(w, calls, id, r.invocations[i].approval.value);
  }
}
