/**
 What decisions that overlap do to a run, and that nothing else can do: a run is sound exactly
 while no approval was decided twice, and a call is executed once for each decision that approved it.
 */
module ApprovalConflicts {
  import opened Wrappers
  import opened Sorting
  import opened AgentProtocol
  import opened AgentCore
  import opened AgentInvariants
  import opened AgentHistory
  import opened ApprovalOverlap

  ghost predicate DecidedOnce(s: Scene) {
    forall i: nat, j: nat :: !Twice(s, i, j)
  }

  // -- decided once, hence sound -----------------------------------------

  /** Whoever copied the conversation and may still write on a pending approval copied the one it waits with. */
  ghost predicate Fresh(s: Scene) {
    forall i :: 0 <= i < |s.decisions| && s.decisions[i].stage.Copied? && IsPending(s.run, s.decisions[i].approval) ==>
                  s.decisions[i].stage.conversation == Deserialise(s.run.conversation)
  }

  /** The first to write on an approval does what an undisturbed decision would. */
  lemma FirstIsResolution(w: World, id: RunId, s: Scene, i: nat)
    requires Fresh(s) && i < |s.decisions| && MayAct(s.decisions[i]) && IsPending(s.run, s.decisions[i].approval)
    ensures Effect(w, id, s.run, s.decisions[i]) ==
            ResolveApproval(w, id, s.run, s.decisions[i].approval, s.decisions[i].approved).0
  {
    hide ApproveWith, Reject, Deserialise;
  }

  /** Only the last approval of a sound run pends, and then it is decided. */
  lemma NothingElsePends(w: World, r: Run, t: Run, k: nat, status: ApprovalStatus, j: nat)
    requires RunOk(w, r) && IsPending(r, k) && Decides1(r, t, k, status) && status != Pending && j < |r.approvals|
    ensures !IsPending(t, j)
  {
    hide RunOk, ParkedOn;
    if j != k && IsPending(t, j) {
      PendingIsLast(w, r, k);
      PendingIsLast(w, r, j);
    }
  }

  /** Nobody is left to write on the approvals that were there, and nobody has looked at a new one. */
  lemma NobodyIsLeft(w: World, s: Scene, t: Scene, i: nat, status: ApprovalStatus)
    requires RunOk(w, s.run) && Tells(s) && i < |s.decisions| && status != Pending
    requires IsPending(s.run, s.decisions[i].approval) && Decides1(s.run, t.run, s.decisions[i].approval, status)
    requires t.decisions == s.decisions[i := s.decisions[i].(stage := Written)]
    ensures Fresh(t)
  {
    hide RunOk, Deserialise, Saved, Decides1, IsPending, WrittenOn;
    forall j: nat | j < |t.decisions| && t.decisions[j].stage.Copied? ensures !IsPending(t.run, t.decisions[j].approval) {
      assert s.decisions[j] == t.decisions[j];
      NothingElsePends(w, s.run, t.run, s.decisions[i].approval, status, t.decisions[j].approval);
    }
  }

  lemma FirstStaysSound(w: World, id: RunId, s: Scene, i: nat)
    requires RunOk(w, s.run) && Tells(s) && Fresh(s)
    requires i < |s.decisions| && MayAct(s.decisions[i]) && IsPending(s.run, s.decisions[i].approval)
    ensures RunOk(w, Step(w, id, s, Act(i)).run) && Fresh(Step(w, id, s, Act(i)))
  {
    var d, t := s.decisions[i], Step(w, id, s, Act(i));
    assert Saved(s.run);
    assert t == Scene(Effect(w, id, s.run, d), s.decisions[i := d.(stage := Written)]) by { hide Effect; }
    hide RunOk, Effect, ResolveApproval, Deserialise, Saved, Decides1, MayAct, Step, Tells, Fresh;
    FirstIsResolution(w, id, s, i);
    ResolveApprovalOk(w, id, s.run, d.approval, d.approved);
    EffectDecides(w, id, s.run, d);
    NobodyIsLeft(w, s, t, i, if d.approved then Approved else Rejected);
  }

  lemma OnceBefore(w: World, id: RunId, s: Scene, a: Action)
    requires DecidedOnce(Step(w, id, s, a))
    ensures DecidedOnce(s)
    ensures a.Act? && a.decision < |s.decisions| && MayAct(s.decisions[a.decision]) ==>
              forall j: nat :: !WrittenOn(s, j, s.decisions[a.decision].approval)
  {
    hide Effect, Deserialise;
    var t := Step(w, id, s, a);
    forall j: nat, k: nat | WrittenOn(s, j, k) ensures WrittenOn(t, j, k) {
    }
    forall i: nat, j: nat ensures !Twice(s, i, j) {
      assert !Twice(t, i, j);
    }
    if a.Act? && a.decision < |s.decisions| && MayAct(s.decisions[a.decision]) {
      var k := s.decisions[a.decision].approval;
      assert WrittenOn(t, a.decision, k);
      forall j: nat ensures !WrittenOn(s, j, k) {
        assert !Twice(t, a.decision, j);
      }
    }
  }

  lemma QuietStaysSound(w: World, id: RunId, s: Scene, a: Action)
    requires RunOk(w, s.run) && Fresh(s)
    requires !(a.Act? && a.decision < |s.decisions| && MayAct(s.decisions[a.decision]))
    ensures RunOk(w, Step(w, id, s, a).run) && Fresh(Step(w, id, s, a))
  {
    hide RunOk, Effect, Deserialise;
    match a
    case Refuse(tool) => DenyAuthorizationOk(w, s.run, tool);
    case Sweep => ReconcileRunOk(w, s.run);
    case _ =>
  }

  lemma {:induction false} OnceMeansSound(w: World, c: Call, actions: seq<Action>)
    requires Starts(c) && DecidedOnce(History(w, c, actions))
    ensures RunOk(w, History(w, c, actions).run) && Fresh(History(w, c, actions))
  {
    hide Step, Entered, RunOk, Tells, Fresh, DecidedOnce, WrittenOn, MayAct;
    if actions == [] {
      EnteredOk(w, c);
      NobodyCopied(Scene(Entered(w, c), []));
    } else {
      var m := |actions| - 1;
      var s, a := History(w, c, actions[..m]), actions[m];
      OnceBefore(w, c.id, s, a);
      OnceMeansSound(w, c, actions[..m]);
      HistoryTells(w, c, actions[..m]);
      if a.Act? && a.decision < |s.decisions| && MayAct(s.decisions[a.decision]) {
        UnwrittenIsPending(s, a.decision);
        FirstStaysSound(w, c.id, s, a.decision);
      } else {
        QuietStaysSound(w, c.id, s, a);
      }
    }
  }

  lemma NobodyCopied(s: Scene)
    requires s.decisions == []
    ensures Fresh(s)
  {
  }

  lemma UnwrittenIsPending(s: Scene, i: nat)
    requires Tells(s) && i < |s.decisions| && MayAct(s.decisions[i])
    requires forall j: nat :: !WrittenOn(s, j, s.decisions[i].approval)
    ensures IsPending(s.run, s.decisions[i].approval)
  {
  }

  // -- decided twice, hence unsound --------------------------------------

  function Pendings(approvals: seq<Approval>): nat {
    Count(approvals, (a: Approval) => a.status == Pending)
  }

  /** Pending approvals beyond the one the run's audit log is parked on. */
  function Surplus(r: Run): int {
    Pendings(r.approvals) - if PhaseOf(r.audit).Parked? then 1 else 0
  }

  /** The audit log broke the rules, or `n` more approvals than before are pending for nothing. */
  ghost predicate Adds(r: Run, s: Run, n: int) {
    PhaseOf(s.audit) == Broken || Surplus(s) == Surplus(r) + n
  }

  /** A log that broke the rules stays broken. */
  lemma {:induction false} BrokenStays(audit: seq<Event>, longer: seq<Event>)
    requires audit <= longer && PhaseOf(audit) == Broken
    ensures PhaseOf(longer) == Broken
  {
    if |longer| > |audit| {
      assert audit <= longer[..|longer| - 1];
      BrokenStays(audit, longer[..|longer| - 1]);
    } else {
      assert audit == longer;
    }
  }

  /** A rest of an iteration begun in good order leaves the surplus as it was. */
  ghost predicate Orderly(r: Run, t: Turn) {
    && Surplus(t.run) == Surplus(r)
    && (t.Continue? ==> PhaseOf(t.run.audit) == Idle)
  }

  lemma HandleOutcomeOrderly(w: World, r: Run, conversation: seq<Message>, call: ToolCall, outcome: ToolOutcome,
                             trace: seq<TraceEntry>)
    requires PhaseOf(r.audit) == Asked(call.name, call.arguments)
    ensures Orderly(r, HandleOutcome(w, r, conversation, call, outcome, trace))
  {
    hide Serialise, PhaseOf, Pendings;
    match outcome
    case Refused(errorType, error) => PhaseGrows(r.audit, ToolFailed(call.name, OrNone(call.arguments), errorType, error));
    case Crashed(errorType, error) => PhaseGrows(r.audit, AgentFailed(call.name, call.arguments, errorType, error));
    case Returned(result) => PhaseGrows(r.audit, ToolExecuted(call.name, call.arguments, result));
  }

  lemma HandleCallOrderly(w: World, id: RunId, r: Run, conversation: seq<Message>, call: ToolCall, trace: seq<TraceEntry>)
    requires PhaseOf(r.audit) == Idle
    ensures Orderly(r, HandleCall(w, id, r, conversation, call, trace))
  {
    hide HandleOutcome, Serialise, PhaseOf, Pendings;
    if call.argumentError.Some? {
      PhaseGrows(r.audit, ToolFailed(call.name, OrNone(call.arguments), INVALID_ARGUMENTS_ERROR, call.argumentError.value));
    } else {
      var requested := Note(r, ToolRequested(call.name, call.arguments));
      PhaseGrows(r.audit, ToolRequested(call.name, call.arguments));
      match Execute(w, id, requested, call.name, call.arguments, None)
      case Blocked(risk) =>
        PhaseGrows(requested.audit, ApprovalRequired(call.name, call.arguments));
        OneMorePending(r.approvals, Approval(call.name, call.arguments, risk, call.id, Pending));
      case Ran(outcome) =>
        var ran := Invoked(w, requested, call.name, call.arguments, None);
        HandleOutcomeOrderly(w, ran, conversation, call, outcome, trace);
    }
  }

  lemma OneMorePending(approvals: seq<Approval>, a: Approval)
    requires a.status == Pending
    ensures Pendings(approvals + [a]) == Pendings(approvals) + 1
  {
    CountAppend(approvals, a, (a: Approval) => a.status == Pending);
  }

  lemma IterateOrderly(w: World, id: RunId, r: Run, conversation: seq<Message>, trace: seq<TraceEntry>)
    requires PhaseOf(r.audit) == Idle
    ensures Orderly(r, Iterate(w, id, r, conversation, trace))
  {
    hide HandleCall, PhaseOf, Pendings;
    match w.model(id, |r.prompts|, conversation)
    case ModelRaised =>
    case Responded(text, calls) =>
      if calls != [] {
        var answered := r.(prompts := r.prompts + [conversation], steps := r.steps + [ModelResponded(text, calls)]);
        HandleCallOrderly(w, id, answered, conversation + [AssistantMessage(text, [calls[0]])], calls[0], trace);
      }
  }

  lemma {:induction false} DriveOrderly(w: World, id: RunId, r: Run, conversation: seq<Message>, trace: seq<TraceEntry>, n: nat)
    requires PhaseOf(r.audit) == Idle
    ensures Surplus(Drive(w, id, r, conversation, trace, n).0) == Surplus(r)
    decreases n
  {
    hide Iterate, PhaseOf, Pendings;
    if n == 0 {
      PhaseGrows(r.audit, AgentMaxIterations(|trace|));
    } else {
      IterateOrderly(w, id, r, conversation, trace);
      match Iterate(w, id, r, conversation, trace)
      case Continue(run, extended, longer) => DriveOrderly(w, id, run, extended, longer, n - 1);
      case _ =>
    }
  }

  lemma CompleteOrderly(w: World, id: RunId, r: Run, conversation: seq<Message>, a: Approval, outcome: ToolOutcome)
    requires PhaseOf(r.audit) == Granted(a.tool, a.arguments)
    ensures Surplus(Complete(w, id, r, conversation, a, outcome).0) == Surplus(r)
  {
    hide Drive, PhaseOf, Pendings;
    match outcome
    case Refused(errorType, error) =>
      var failed := FailTool(r, a.tool, a.arguments, errorType, error);
      PhaseGrows(r.audit, ToolFailed(a.tool, OrNone(a.arguments), errorType, error));
      DriveOrderly(w, id, failed, conversation + [ToolResult(a.toolCallId, a.tool, w.renderFailure(errorType, error))], [],
                   w.maxIterations);
    case Crashed(errorType, error) => PhaseGrows(r.audit, AgentFailed(a.tool, a.arguments, errorType, error));
    case Returned(result) =>
      var noted := Note(r, ToolExecuted(a.tool, a.arguments, result));
      PhaseGrows(r.audit, ToolExecuted(a.tool, a.arguments, result));
      DriveOrderly(w, id, noted, conversation + [ToolResult(a.toolCallId, a.tool, w.render(result))],
                   [TraceEntry(a.tool, a.arguments, result)], w.maxIterations);
  }

  /** The log moves on only if it is parked for the very call that is decided. */
  lemma DecisionAdds(r: Run, t: Run, k: nat, status: ApprovalStatus, e: Event)
    requires k < |r.approvals| && status != Pending && t.audit == r.audit + [e]
    requires t.approvals == r.approvals[k := r.approvals[k].(status := status)]
    requires var a := r.approvals[k]; e == ApprovalGranted(a.tool, a.arguments) || e == ApprovalDenied(a.tool, a.arguments)
    ensures Adds(r, t, if IsPending(r, k) then 0 else 1)
    ensures var a := r.approvals[k]; e.ApprovalGranted? ==>
              PhaseOf(t.audit) == Broken || PhaseOf(t.audit) == Granted(a.tool, a.arguments)
  {
    hide PhaseOf;
    PhaseGrows(r.audit, e);
    CountUpdate(r.approvals, k, r.approvals[k].(status := status), (a: Approval) => a.status == Pending);
  }

  /** The first word on an approval uses it up; any later one finds the log elsewhere, or parked for another. */
  lemma EffectAdds(w: World, id: RunId, r: Run, d: Decision)
    requires MayAct(d) && d.approval < |r.approvals|
    ensures Adds(r, Effect(w, id, r, d), if IsPending(r, d.approval) then 0 else 1)
  {
    var k := d.approval;
    if d.approved {
      hide ApproveWith, PhaseOf, Surplus;
      ApprovalAdds(w, id, r, k, d.stage.conversation.value);
    } else {
      hide PhaseOf, Surplus, Adds;
      DecisionAdds(r, Reject(r, k).0, k, Rejected, ApprovalDenied(r.approvals[k].tool, r.approvals[k].arguments));
    }
  }

  lemma ApprovalAdds(w: World, id: RunId, r: Run, k: nat, conversation: seq<Message>)
    requires k < |r.approvals|
    ensures Adds(r, ApproveWith(w, id, r, k, Some(conversation)).0, if IsPending(r, k) then 0 else 1)
  {
    var a, ran := r.approvals[k], ReleasedRun(w, id, r, k);
    assert ran.approvals == r.approvals[k := a.(status := Approved)] &&
           ran.audit == r.audit + [ApprovalGranted(a.tool, a.arguments)] by { hide Invokes; }
    hide ApproveWith, PhaseOf, Surplus, Complete, ReleasedRun, Released, Execute;
    DecisionAdds(r, ran, k, Approved, ApprovalGranted(a.tool, a.arguments));
    var outcome := ApprovalIs(w, id, r, k, conversation);
    if PhaseOf(ran.audit) == Granted(a.tool, a.arguments) {
      CompleteOrderly(w, id, ran, conversation, a, outcome);
    } else {
      BrokenStays(ran.audit, ApproveWith(w, id, r, k, Some(conversation)).0.audit);
    }
  }

  /** Broken, or with a surplus, unless each approval was decided once. */
  ghost predicate Owns(s: Scene) {
    PhaseOf(s.run.audit) == Broken || Surplus(s.run) > 0 || (Surplus(s.run) == 0 && DecidedOnce(s))
  }

  lemma ActOwns(w: World, id: RunId, s: Scene, i: nat)
    requires Tells(s) && Owns(s) && i < |s.decisions| && MayAct(s.decisions[i])
    ensures Owns(Step(w, id, s, Act(i)))
  {
    hide Effect, PhaseOf, Pendings, Saved;
    var t, k := Step(w, id, s, Act(i)), s.decisions[i].approval;
    EffectAdds(w, id, s.run, s.decisions[i]);
    if PhaseOf(s.run.audit) == Broken {
      EffectExtends(w, id, s.run, s.decisions[i]);
      BrokenStays(s.run.audit, t.run.audit);
    } else if Surplus(s.run) == 0 && IsPending(s.run, k) {
      OnceMore(s, t, i);
    }
  }

  /** One more is written, on an approval nobody wrote on. */
  lemma OnceMore(s: Scene, t: Scene, i: nat)
    requires Tells(s) && DecidedOnce(s) && i < |s.decisions| && IsPending(s.run, s.decisions[i].approval)
    requires t.decisions == s.decisions[i := s.decisions[i].(stage := Written)]
    ensures DecidedOnce(t)
  {
    hide Saved;
    forall m: nat, n: nat ensures !Twice(t, m, n) {
      assert !Twice(s, m, n);
      forall k: nat | WrittenOn(t, m, k) && WrittenOn(t, n, k) ensures m == n {
        assert m != i ==> WrittenOn(s, m, k);
        assert n != i ==> WrittenOn(s, n, k);
      }
    }
  }

  lemma EffectExtends(w: World, id: RunId, r: Run, d: Decision)
    requires MayAct(d) && d.approval < |r.approvals|
    ensures r.audit <= Effect(w, id, r, d).audit
  {
    hide ApproveWith, Complete;
    if d.approved {
      var outcome := ApprovalIs(w, id, r, d.approval, d.stage.conversation.value);
    }
  }

  lemma QuietOwns(w: World, id: RunId, s: Scene, a: Action)
    requires Owns(s) && !(a.Act? && a.decision < |s.decisions| && MayAct(s.decisions[a.decision]))
    ensures Owns(Step(w, id, s, a))
  {
    hide Effect, PhaseOf, Pendings, Deserialise;
    var t := Step(w, id, s, a);
    match a {
      case Refuse(tool) => PhaseGrows(s.run.audit, AuthorizationDenied(tool));
      case Sweep => PhaseGrows(s.run.audit, RunReconciled);
      case _ =>
    }
    forall i: nat, j: nat | DecidedOnce(s) ensures !Twice(t, i, j) {
      assert !Twice(s, i, j);
      forall k: nat | WrittenOn(t, i, k) ensures WrittenOn(s, i, k) {
      }
      forall k: nat | WrittenOn(t, j, k) ensures WrittenOn(s, j, k) {
      }
    }
  }

  lemma SoundIsLevel(w: World, r: Run)
    requires RunOk(w, r)
    ensures PhaseOf(r.audit) != Broken && Surplus(r) == 0
  {
    hide HistoriesOk, InvocationsOk, SavesOk, PromptsOk, BudgetOk, Executions, PhaseOf;
    var n := |r.approvals| - 1;
    if n >= 0 {
      SplitLast(r.approvals);
      CountAppend(r.approvals[..n], r.approvals[n], (a: Approval) => a.status == Pending);
      CountNone(r.approvals[..n], (a: Approval) => a.status == Pending);
    }
  }

  lemma {:induction false} HistoryOwns(w: World, c: Call, actions: seq<Action>)
    requires Starts(c)
    ensures Owns(History(w, c, actions))
  {
    hide Step, Entered, Tells, Owns, MayAct, RunOk;
    if actions == [] {
      EnteredOk(w, c);
      SoundIsLevel(w, Entered(w, c));
      NobodyDecided(Scene(Entered(w, c), []));
    } else {
      var m := |actions| - 1;
      var s, a := History(w, c, actions[..m]), actions[m];
      HistoryOwns(w, c, actions[..m]);
      HistoryTells(w, c, actions[..m]);
      if a.Act? && a.decision < |s.decisions| && MayAct(s.decisions[a.decision]) {
        ActOwns(w, c.id, s, a.decision);
      } else {
        QuietOwns(w, c.id, s, a);
      }
    }
  }

  lemma NobodyDecided(s: Scene)
    requires s.decisions == [] && Surplus(s.run) == 0
    ensures Owns(s)
  {
    hide Surplus, PhaseOf;
  }

  /** Whatever overlaps, a run is sound exactly while no approval was decided twice. */
  lemma SoundIffDecidedOnce(w: World, c: Call, actions: seq<Action>)
    requires Starts(c)
    ensures RunOk(w, History(w, c, actions).run) <==> DecidedOnce(History(w, c, actions))
  {
    hide Entered, RunOk, PhaseOf, Surplus, DecidedOnce, Play;
    var s := History(w, c, actions);
    if DecidedOnce(s) {
      OnceMeansSound(w, c, actions);
    }
    if RunOk(w, s.run) {
      HistoryOwns(w, c, actions);
      SoundIsLevel(w, s.run);
    }
  }
}
