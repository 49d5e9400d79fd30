/** How often an approved call is executed, and what a decision that comes late says to the model. */
module ApprovalLedger {
  import opened Wrappers
  import opened Sorting
  import opened AgentProtocol
  import opened AgentCore
  import opened AgentInvariants
  import opened AgentHistory
  import opened ApprovalOverlap
  import opened ApprovalConflicts

  // -- one execution for each decision that approved ---------------------

  /** How often a tool's function was called under approval k. */
  function TimesRun(r: Run, k: nat): nat {
    Count(r.invocations, (v: Invocation) => v.approval == Some(k))
  }

  /** How many decisions written on approval k approved it. */
  function Approvers(s: Scene, k: nat): nat {
    Count(s.decisions, (d: Decision) => d.stage == Written && d.approved && d.approval == k)
  }

  /** Approving k leads as far as the tool's function. */
  predicate Runs(w: World, r: Run, k: nat) {
    k < |r.approvals| && Invokes(w, r.approvals[k].tool, r.approvals[k].arguments, true)
  }

  ghost predicate Balances(w: World, s: Scene, k: nat) {
    TimesRun(s.run, k) == if Runs(w, s.run, k) then Approvers(s, k) else 0
  }

  lemma PlainRuns(r: Run, s: Run, k: nat)
    requires Plain(r, s)
    ensures TimesRun(s, k) == TimesRun(r, k)
  {
    var rest := s.invocations[|r.invocations|..];
    assert s.invocations == r.invocations + rest;
    CountConcat(r.invocations, rest, (v: Invocation) => v.approval == Some(k));
    CountNone(rest, (v: Invocation) => v.approval == Some(k));
  }

  lemma EffectRuns(w: World, id: RunId, r: Run, d: Decision, k: nat)
    requires MayAct(d) && d.approval < |r.approvals|
    ensures TimesRun(Effect(w, id, r, d), k) ==
            TimesRun(r, k) + if d.approved && d.approval == k && Runs(w, r, k) then 1 else 0
  {
    hide ApproveWith, Complete, ReleasedRun, Execute, Invokes, Saved;
    if d.approved {
      var outcome := ApprovalIs(w, id, r, d.approval, d.stage.conversation.value);
      ReleasedRunIs(w, id, r, d.approval);
      hide Plain;
      var a, ran := r.approvals[d.approval], ReleasedRun(w, id, r, d.approval);
      PlainRuns(ran, Effect(w, id, r, d), k);
      if Invokes(w, a.tool, a.arguments, true) {
        CountAppend(r.invocations, Invocation(a.tool, a.arguments, Some(d.approval)), (v: Invocation) => v.approval == Some(k));
      } else {
        assert ran.invocations == r.invocations;
      }
    }
  }

  lemma WrittenCounts(s: Scene, i: nat, k: nat)
    requires i < |s.decisions| && s.decisions[i].stage != Written
    ensures
      var d := s.decisions[i];
      Approvers(s.(decisions := s.decisions[i := d.(stage := Written)]), k) ==
      Approvers(s, k) + if d.approved && d.approval == k then 1 else 0
  {
    var d := s.decisions[i];
    CountUpdate(s.decisions, i, d.(stage := Written), (d: Decision) => d.stage == Written && d.approved && d.approval == k);
  }

  lemma NobodyApproved(s: Scene, k: nat)
    requires Tells(s) && k >= |s.run.approvals|
    ensures Approvers(s, k) == 0
  {
    hide Saved;
    CountNone(s.decisions, (d: Decision) => d.stage == Written && d.approved && d.approval == k);
  }

  lemma ActBalances(w: World, id: RunId, s: Scene, i: nat, k: nat)
    requires Tells(s) && Balances(w, s, k) && i < |s.decisions| && MayAct(s.decisions[i])
    ensures Balances(w, Step(w, id, s, Act(i)), k)
  {
    var d, t := s.decisions[i], Step(w, id, s, Act(i));
    assert Saved(s.run);
    assert t == Scene(Effect(w, id, s.run, d), s.decisions[i := d.(stage := Written)]) by { hide Effect; }
    hide Effect, Saved, Step, Invokes, TimesRun;
    EffectDecides(w, id, s.run, d);
    EffectRuns(w, id, s.run, d, k);
    WrittenCounts(s, i, k);
    assert Approvers(t, k) == Approvers(s.(decisions := t.decisions), k);
    if k >= |s.run.approvals| {
      NobodyApproved(s, k);
    }
  }

  lemma QuietBalances(w: World, id: RunId, s: Scene, a: Action, k: nat)
    requires Balances(w, s, k) && !(a.Act? && a.decision < |s.decisions| && MayAct(s.decisions[a.decision]))
    ensures Balances(w, Step(w, id, s, a), k)
  {
    hide Effect, Deserialise, Invokes;
    var t := Step(w, id, s, a);
    var p := (d: Decision) => d.stage == Written && d.approved && d.approval == k;
    match a
    case Look(j, approved) => CountAppend(s.decisions, t.decisions[|s.decisions|], p);
    case Copy(i) =>
      if t != s { CountUpdate(s.decisions, i, t.decisions[i], p); }
    case _ =>
  }

  lemma EnteredBalances(w: World, c: Call, k: nat)
    requires Starts(c)
    ensures Balances(w, Scene(Entered(w, c), []), k)
  {
    hide Entered;
    EnteredOk(w, c);
    var r := Entered(w, c);
    forall v | v in r.invocations ensures v.approval != Some(k) {
      var i :| 0 <= i < |r.invocations| && r.invocations[i] == v;
      assert InvocationOk(w, r.approvals, r.invocations[i]);
      if v.approval == Some(k) { EnteredUndecided(w, c, k); }
    }
    CountNone(r.invocations, (v: Invocation) => v.approval == Some(k));
  }

  /** Whatever overlaps, a call was executed under its approval once for each decision that approved it. */
  lemma {:induction false} LedgerIsExact(w: World, c: Call, actions: seq<Action>, k: nat)
    requires Starts(c)
    ensures
      var s := History(w, c, actions);
      TimesRun(s.run, k) == if Runs(w, s.run, k) then Approvers(s, k) else 0
  {
    hide Step, Entered, Tells, TimesRun, Approvers, Runs, MayAct;
    if actions == [] {
      EnteredBalances(w, c, k);
    } else {
      var m := |actions| - 1;
      var s, a := History(w, c, actions[..m]), actions[m];
      LedgerIsExact(w, c, actions[..m], k);
      HistoryTells(w, c, actions[..m]);
      if a.Act? && a.decision < |s.decisions| && MayAct(s.decisions[a.decision]) {
        ActBalances(w, c.id, s, a.decision, k);
      } else {
        QuietBalances(w, c.id, s, a, k);
      }
    }
  }

  // -- the last word on an approval --------------------------------------

  /** A status other than PENDING was there before, or was just written. */
  lemma StepWords(w: World, id: RunId, s: Scene, a: Action, k: nat)
    requires Tells(s) && k < |Step(w, id, s, a).run.approvals|
    requires Step(w, id, s, a).run.approvals[k].status != Pending
    ensures
      var t := Step(w, id, s, a);
      || (k < |s.run.approvals| && s.run.approvals[k] == t.run.approvals[k])
      || (a.Act? && WrittenOn(t, a.decision, k) &&
          t.run.approvals[k].status == if t.decisions[a.decision].approved then Approved else Rejected)
  {
    hide Effect, Saved, Deserialise;
    if a.Act? && a.decision < |s.decisions| && MayAct(s.decisions[a.decision]) {
      EffectDecides(w, id, s.run, s.decisions[a.decision]);
    }
  }

  /** Behind each decided approval stands a decision to that effect. */
  lemma {:induction false} LastWord(w: World, c: Call, actions: seq<Action>, k: nat) returns (i: nat)
    requires Starts(c) && k < |History(w, c, actions).run.approvals|
    requires History(w, c, actions).run.approvals[k].status != Pending
    ensures
      var s := History(w, c, actions);
      WrittenOn(s, i, k) && s.run.approvals[k].status == if s.decisions[i].approved then Approved else Rejected
  {
    hide Step, Entered, Tells;
    if actions == [] {
      EnteredUndecided(w, c, k);
      assert false;
    } else {
      var m := |actions| - 1;
      var s, a := History(w, c, actions[..m]), actions[m];
      HistoryTells(w, c, actions[..m]);
      StepWords(w, c.id, s, a, k);
      if a.Act? && WrittenOn(History(w, c, actions), a.decision, k) &&
         History(w, c, actions).run.approvals[k].status ==
           if History(w, c, actions).decisions[a.decision].approved then Approved else Rejected {
        i := a.decision;
      } else {
        i := LastWord(w, c, actions[..m], k);
        WrittenStays(w, c.id, s, a, i, k);
      }
    }
  }

  lemma WrittenStays(w: World, id: RunId, s: Scene, a: Action, i: nat, k: nat)
    requires WrittenOn(s, i, k)
    ensures WrittenOn(Step(w, id, s, a), i, k)
    ensures Step(w, id, s, a).decisions[i].approved == s.decisions[i].approved
  {
    hide Effect, Deserialise;
  }

  // -- overlap, and nothing else, does these -----------------------------

  /** A run is unsound only if two decisions on one approval overlapped. */
  lemma UnsoundMeansOverlap(w: World, c: Call, actions: seq<Action>) returns (n: nat, i: nat, j: nat)
    requires Starts(c) && !RunOk(w, History(w, c, actions).run)
    ensures n <= |actions| && Overlap(History(w, c, actions[..n]), i, j)
  {
    hide Entered, RunOk, Play, Overlap, Same, Twice;
    SoundIffDecidedOnce(w, c, actions);
    i, j :| Twice(History(w, c, actions), i, j);
    n := TwiceMeansOverlap(w, c, actions, i, j);
  }

  /** A call was executed twice under one approval only if two that approve it overlapped. */
  lemma RunTwiceMeansOverlap(w: World, c: Call, actions: seq<Action>, k: nat) returns (n: nat, i: nat, j: nat)
    requires Starts(c) && TimesRun(History(w, c, actions).run, k) > 1
    ensures n <= |actions| && Overlap(History(w, c, actions[..n]), i, j)
    ensures
      var s := History(w, c, actions[..n]);
      s.decisions[i].approval == k && s.decisions[i].approved && s.decisions[j].approved
  {
    hide Entered, Play, TimesRun, Runs;
    var s := History(w, c, actions);
    LedgerIsExact(w, c, actions, k);
    i, j := CountFindsTwo(s.decisions, (d: Decision) => d.stage == Written && d.approved && d.approval == k);
    assert WrittenOn(s, i, k) && WrittenOn(s, j, k);
    n := TwiceMeansOverlap(w, c, actions, i, j);
  }

  /** A call was executed although its approval reads REJECTED only if one that approves and one that rejects overlapped. */
  lemma RunThoughRejectedMeansOverlap(w: World, c: Call, actions: seq<Action>, k: nat) returns (n: nat, i: nat, j: nat)
    requires Starts(c) && TimesRun(History(w, c, actions).run, k) > 0
    requires k < |History(w, c, actions).run.approvals| && History(w, c, actions).run.approvals[k].status == Rejected
    ensures n <= |actions| && Overlap(History(w, c, actions[..n]), i, j)
    ensures
      var s := History(w, c, actions[..n]);
      s.decisions[i].approval == k && s.decisions[i].approved && !s.decisions[j].approved
  {
    hide Entered, Play, TimesRun, Runs;
    var s := History(w, c, actions);
    LedgerIsExact(w, c, actions, k);
    i := CountFinds(s.decisions, (d: Decision) => d.stage == Written && d.approved && d.approval == k);
    j := LastWord(w, c, actions, k);
    assert WrittenOn(s, i, k) && WrittenOn(s, j, k);
    n := TwiceMeansOverlap(w, c, actions, i, j);
  }

  ghost predicate Apart(w: World, c: Call, actions: seq<Action>)
    requires Starts(c)
  {
    forall n: nat, i: nat, j: nat :: n <= |actions| ==> !Overlap(History(w, c, actions[..n]), i, j)
  }

  /** Where no two decisions on one approval overlap, all is as if each were one step. */
  lemma ApartMeansSound(w: World, c: Call, actions: seq<Action>, k: nat)
    requires Starts(c) && Apart(w, c, actions)
    ensures
      var r := History(w, c, actions).run;
      && RunOk(w, r) && TimesRun(r, k) <= 1
      && (k < |r.approvals| && r.approvals[k].status == Rejected ==> TimesRun(r, k) == 0)
  {
    hide Entered, Play, Overlap, TimesRun, RunOk;
    var r := History(w, c, actions).run;
    if !RunOk(w, r) {
      var n, i, j := UnsoundMeansOverlap(w, c, actions);
      assert false;
    } else if TimesRun(r, k) > 1 {
      var n, i, j := RunTwiceMeansOverlap(w, c, actions, k);
      assert false;
    } else if k < |r.approvals| && r.approvals[k].status == Rejected && TimesRun(r, k) > 0 {
      var n, i, j := RunThoughRejectedMeansOverlap(w, c, actions, k);
      assert false;
    }
  }

  // -- every overlap can do them -----------------------------------------

  lemma CopyReadies(w: World, id: RunId, s: Scene, i: nat)
    requires Tells(s) && i < |s.decisions| && Open(s.decisions[i])
    ensures
      var t := Step(w, id, s, Copy(i));
      && Tells(t) && t.run == s.run && |t.decisions| == |s.decisions| && MayAct(t.decisions[i]) && Same(s, t, i)
      && forall j :: 0 <= j < |s.decisions| && j != i ==> t.decisions[j] == s.decisions[j]
  {
    StepTells(w, id, s, Copy(i));
    RestoredSaves(s.run);
    hide Saved, Deserialise;
  }

  lemma ActWrites(w: World, id: RunId, s: Scene, i: nat)
    requires Tells(s) && i < |s.decisions| && MayAct(s.decisions[i])
    ensures
      var t, d := Step(w, id, s, Act(i)), s.decisions[i];
      && Tells(t) && t.decisions == s.decisions[i := d.(stage := Written)]
      && Decides1(s.run, t.run, d.approval, if d.approved then Approved else Rejected)
      && TimesRun(t.run, d.approval) == TimesRun(s.run, d.approval) + (if d.approved && Runs(w, s.run, d.approval) then 1 else 0)
      && (!d.approved ==> t.run.status == Cancelled)
  {
    var d := s.decisions[i];
    StepTells(w, id, s, Act(i));
    assert Saved(s.run);
    hide ApproveWith, Saved, TimesRun, Runs, Decides1;
    EffectDecides(w, id, s.run, d);
    EffectRuns(w, id, s.run, d, d.approval);
  }

  lemma HistoryGrows(w: World, c: Call, actions: seq<Action>, a: Action)
    requires Starts(c)
    ensures History(w, c, actions + [a]) == Step(w, c.id, History(w, c, actions), a)
  {
    hide Step, Entered;
    PlayGrows(w, c.id, Scene(Entered(w, c), []), actions, a);
  }

  /** From every overlap both go on: the run is unsound, and the call is executed for each that approves it. */
  lemma OverlapLetsBothWrite(w: World, c: Call, actions: seq<Action>, i: nat, j: nat)
    requires Starts(c) && Overlap(History(w, c, actions), i, j)
    ensures
      var s, t := History(w, c, actions), History(w, c, actions + [Copy(i)] + [Copy(j)] + [Act(i)] + [Act(j)]);
      var k, first, last := s.decisions[i].approval, s.decisions[i].approved, s.decisions[j].approved;
      && Twice(t, i, j) && !RunOk(w, t.run)
      && TimesRun(t.run, k) ==
         TimesRun(s.run, k) + (if first && Runs(w, s.run, k) then 1 else 0) + (if last && Runs(w, s.run, k) then 1 else 0)
      && k < |t.run.approvals| && t.run.approvals[k].status == (if last then Approved else Rejected)
      && (!last ==> t.run.status == Cancelled)
  {
    var s := History(w, c, actions);
    var k := s.decisions[i].approval;
    HistoryTells(w, c, actions);
    hide Step, Entered, Play, Tells, TimesRun, RunOk, Invokes, Twice;
    HistoryGrows(w, c, actions, Copy(i));
    HistoryGrows(w, c, actions + [Copy(i)], Copy(j));
    HistoryGrows(w, c, actions + [Copy(i)] + [Copy(j)], Act(i));
    HistoryGrows(w, c, actions + [Copy(i)] + [Copy(j)] + [Act(i)], Act(j));
    SoundIffDecidedOnce(w, c, actions + [Copy(i)] + [Copy(j)] + [Act(i)] + [Act(j)]);
    CopyReadies(w, c.id, s, i);
    var s1 := Step(w, c.id, s, Copy(i));
    CopyReadies(w, c.id, s1, j);
    var s2 := Step(w, c.id, s1, Copy(j));
    ActWrites(w, c.id, s2, i);
    var s3 := Step(w, c.id, s2, Act(i));
    ActWrites(w, c.id, s3, j);
    var t := Step(w, c.id, s3, Act(j));
    assert WrittenOn(t, i, k) && WrittenOn(t, j, k);
    assert Twice(t, i, j);
  }

  // -- a conversation copied late ----------------------------------------

  lemma IterateAsks(w: World, id: RunId, r: Run, conversation: seq<Message>, trace: seq<TraceEntry>)
    ensures r.prompts + [conversation] <= Iterate(w, id, r, conversation, trace).run.prompts
  {
    hide HandleCall;
    match w.model(id, |r.prompts|, conversation)
    case ModelRaised =>
    case Responded(text, calls) =>
      if calls != [] {
        var answered := r.(prompts := r.prompts + [conversation], steps := r.steps + [ModelResponded(text, calls)]);
        HandleCallAppends(w, id, answered, conversation + [AssistantMessage(text, [calls[0]])], calls[0], trace);
      }
  }

  lemma DriveAsks(w: World, id: RunId, r: Run, conversation: seq<Message>, trace: seq<TraceEntry>, n: nat)
    requires n > 0
    ensures r.prompts + [conversation] <= Drive(w, id, r, conversation, trace, n).0.prompts
  {
    hide Iterate;
    IterateAsks(w, id, r, conversation, trace);
    match Iterate(w, id, r, conversation, trace)
    case Continue(run, extended, longer) => DriveAppends(w, id, run, extended, longer, n - 1);
    case _ =>
  }

  /** A resumed loop first asks about the conversation it was given and the result of the approved call. */
  lemma ResumeAsks(w: World, id: RunId, r: Run, conversation: seq<Message>, a: Approval, outcome: ToolOutcome)
    returns (content: string)
    requires conversation != [] && !outcome.Crashed? && w.maxIterations > 0
    ensures r.prompts + [conversation + [ToolResult(a.toolCallId, a.tool, content)]] <=
            Complete(w, id, r, conversation, a, outcome).0.prompts
  {
    hide Drive;
    match outcome
    case Refused(errorType, error) =>
      content := w.renderFailure(errorType, error);
      DriveAsks(w, id, FailTool(r, a.tool, a.arguments, errorType, error),
                conversation + [ToolResult(a.toolCallId, a.tool, content)], [], w.maxIterations);
    case Returned(result) =>
      content := w.render(result);
      DriveAsks(w, id, Note(r, ToolExecuted(a.tool, a.arguments, result)),
                conversation + [ToolResult(a.toolCallId, a.tool, content)], [TraceEntry(a.tool, a.arguments, result)],
                w.maxIterations);
  }

  /** A result keeps a conversation balanced exactly where it answers the one open call. */
  lemma AnsweredIff(conversation: seq<Message>, callId: string, tool: string, content: string)
    requires conversation != []
    ensures Balanced(conversation + [ToolResult(callId, tool, content)]) <==> OpenOn(conversation, callId, tool)
  {
    var longer := conversation + [ToolResult(callId, tool, content)];
    if |longer| >= 3 {
      assert longer[..|longer| - 2] == conversation[..|conversation| - 1];
    }
  }

  /** The approved call raises something the agent does not recover from. */
  predicate Crashes(w: World, id: RunId, r: Run, k: nat)
    requires k < |r.approvals|
  {
    match Execute(w, id, Released(r, k), r.approvals[k].tool, r.approvals[k].arguments, Some(k))
    case Blocked(_) => false
    case Ran(outcome) => outcome.Crashed?
  }

  /** However late it writes, an approval asks the model about what it copied: balanced iff that still waits for this call. */
  lemma LatePromptIsBalancedIff(w: World, id: RunId, r: Run, k: nat, conversation: seq<Message>)
    requires k < |r.approvals| && conversation != [] && w.maxIterations > 0 && !Crashes(w, id, r, k)
    ensures
      var t := ApproveWith(w, id, r, k, Some(conversation)).0;
      && |t.prompts| > |r.prompts|
      && (Balanced(t.prompts[|r.prompts|]) <==> OpenOn(conversation, r.approvals[k].toolCallId, r.approvals[k].tool))
  {
    var a, ran := r.approvals[k], ReleasedRun(w, id, r, k);
    hide ApproveWith, Complete, Released, Execute, ReleasedRun, OpenOn, Balanced;
    var outcome := ApprovalIs(w, id, r, k, conversation);
    ReleasedRunIs(w, id, r, k);
    var content := ResumeAsks(w, id, ran, conversation, a, outcome);
    AnsweredIff(conversation, a.toolCallId, a.tool, content);
  }

  /** A loop leaves its run waiting, or saved as it was, or saved with every call answered. */
  ghost predicate Rests(r: Run, t: Run) {
    t.status == WaitingForApproval || t.saves == r.saves || (t.saves != [] && Balanced(t.saves[|t.saves| - 1]))
  }

  lemma FeedBackRests(w: World, r: Run, conversation: seq<Message>, call: ToolCall, content: string, trace: seq<TraceEntry>)
    requires OpenOn(conversation, call.id, call.name)
    ensures
      var t := FeedBack(w, r, conversation, call, content, trace);
      Rests(r, t.run) && t.run.saves == r.saves + [t.conversation] && Balanced(t.conversation)
  {
    hide Balanced, OpenOn, Serialise;
    AnsweredOk(conversation, call.id, call.name, content);
  }

  ghost predicate TurnRests(r: Run, t: Turn) {
    && Rests(r, t.run)
    && (t.Continue? ==> Balanced(t.conversation) && t.run.saves == r.saves + [t.conversation])
  }

  lemma HandleOutcomeRests(w: World, r: Run, conversation: seq<Message>, call: ToolCall, outcome: ToolOutcome,
                           trace: seq<TraceEntry>)
    requires OpenOn(conversation, call.id, call.name)
    ensures TurnRests(r, HandleOutcome(w, r, conversation, call, outcome, trace))
  {
    hide FeedBack, Balanced, OpenOn;
    match outcome
    case Refused(errorType, error) =>
      FeedBackRests(w, FailTool(r, call.name, call.arguments, errorType, error), conversation, call,
                    w.renderFailure(errorType, error), trace);
    case Crashed(errorType, error) =>
    case Returned(result) =>
      FeedBackRests(w, Note(r, ToolExecuted(call.name, call.arguments, result)), conversation, call,
                    w.render(result), trace + [TraceEntry(call.name, call.arguments, result)]);
  }

  lemma HandleCallRests(w: World, id: RunId, r: Run, conversation: seq<Message>, call: ToolCall, trace: seq<TraceEntry>)
    requires OpenOn(conversation, call.id, call.name)
    ensures TurnRests(r, HandleCall(w, id, r, conversation, call, trace))
  {
    hide FeedBack, HandleOutcome, Balanced, OpenOn, Serialise;
    if call.argumentError.Some? {
      FeedBackRests(w, FailTool(r, call.name, call.arguments, INVALID_ARGUMENTS_ERROR, call.argumentError.value),
                    conversation, call, w.renderFailure(INVALID_ARGUMENTS_ERROR, call.argumentError.value), trace);
    } else {
      var requested := Note(r, ToolRequested(call.name, call.arguments));
      match Execute(w, id, requested, call.name, call.arguments, None)
      case Blocked(risk) =>
      case Ran(outcome) =>
        HandleOutcomeRests(w, Invoked(w, requested, call.name, call.arguments, None), conversation, call, outcome, trace);
    }
  }

  lemma IterateRests(w: World, id: RunId, r: Run, conversation: seq<Message>, trace: seq<TraceEntry>)
    requires Balanced(conversation)
    ensures TurnRests(r, Iterate(w, id, r, conversation, trace))
  {
    hide HandleCall, Balanced;
    match w.model(id, |r.prompts|, conversation)
    case ModelRaised =>
    case Responded(text, calls) =>
      if calls != [] {
        var answered := r.(prompts := r.prompts + [conversation], steps := r.steps + [ModelResponded(text, calls)]);
        var open := conversation + [AssistantMessage(text, [calls[0]])];
        assert open[..|open| - 1] == conversation;
        HandleCallRests(w, id, answered, open, calls[0], trace);
      }
  }

  lemma {:induction false} DriveRests(w: World, id: RunId, r: Run, conversation: seq<Message>, trace: seq<TraceEntry>, n: nat)
    requires Balanced(conversation)
    ensures Rests(r, Drive(w, id, r, conversation, trace, n).0)
    decreases n
  {
    hide Iterate, Balanced;
    if n > 0 {
      IterateRests(w, id, r, conversation, trace);
      match Iterate(w, id, r, conversation, trace)
      case Continue(run, extended, longer) => DriveRests(w, id, run, extended, longer, n - 1);
      case _ =>
    }
  }

  lemma CompleteRests(w: World, id: RunId, r: Run, conversation: seq<Message>, a: Approval, outcome: ToolOutcome)
    requires conversation != [] ==> OpenOn(conversation, a.toolCallId, a.tool)
    ensures
      var t := Complete(w, id, r, conversation, a, outcome).0;
      Rests(r, t) && (conversation == [] ==> t.saves == r.saves)
  {
    hide Drive, Balanced, OpenOn;
    if conversation != [] {
      match outcome
      case Refused(errorType, error) =>
        AnsweredOk(conversation, a.toolCallId, a.tool, w.renderFailure(errorType, error));
        DriveRests(w, id, FailTool(r, a.tool, a.arguments, errorType, error),
                   conversation + [ToolResult(a.toolCallId, a.tool, w.renderFailure(errorType, error))], [], w.maxIterations);
      case Crashed(errorType, error) =>
      case Returned(result) =>
        AnsweredOk(conversation, a.toolCallId, a.tool, w.render(result));
        DriveRests(w, id, Note(r, ToolExecuted(a.tool, a.arguments, result)),
                   conversation + [ToolResult(a.toolCallId, a.tool, w.render(result))],
                   [TraceEntry(a.tool, a.arguments, result)], w.maxIterations);
    }
  }

  /** The first approval of a sound run, undisturbed. */
  lemma ApproveRests(w: World, id: RunId, r: Run, k: nat)
    requires RunOk(w, r) && IsPending(r, k)
    ensures
      var t := Approve(w, id, r, k).0;
      && Rests(r, t) && (r.saves[|r.saves| - 1] == [] ==> t.saves == r.saves)
  {
    var outcome := ApproveIs(w, id, r, k);
    RestoredOk(w, r, k);
    RanOk(w, id, r, k);
    hide RunOk, Active, OpenOn, Balanced, Complete, ReleasedRun, Approve, Execute, Released, Deserialise;
    CompleteRests(w, id, ReleasedRun(w, id, r, k), r.saves[|r.saves| - 1], r.approvals[k], outcome);
  }

  lemma BalancedIsNotOpen(conversation: seq<Message>, callId: string, tool: string)
    requires Balanced(conversation)
    ensures !OpenOn(conversation, callId, tool)
  {
    if conversation != [] {
      BalancedIsOdd(conversation);
      if Balanced(conversation[..|conversation| - 1]) {
        BalancedIsOdd(conversation[..|conversation| - 1]);
      }
    }
  }

  lemma {:induction false} BalancedIsOdd(conversation: seq<Message>)
    requires Balanced(conversation)
    ensures |conversation| % 2 == 1
  {
    if |conversation| >= 3 {
      BalancedIsOdd(conversation[..|conversation| - 2]);
    }
  }

  lemma ReadingCopies(w: World, id: RunId, s: Scene, i: nat)
    requires Tells(s) && i < |s.decisions| && s.decisions[i].approved && s.decisions[i].stage == Reading
    ensures
      Step(w, id, s, Copy(i)) ==
      s.(decisions := s.decisions[i := s.decisions[i].(stage := Copied(Some(s.run.saves[|s.run.saves| - 1])))])
  {
    RestoredSaves(s.run);
    hide Saved, Deserialise;
  }

  /** The first to approve, reading and writing alone. */
  lemma FirstThrough(w: World, id: RunId, s: Scene, i: nat)
    requires Tells(s) && RunOk(w, s.run) && i < |s.decisions| && IsPending(s.run, s.decisions[i].approval)
    requires s.decisions[i].approved && s.decisions[i].stage == Reading
    ensures
      var t := Step(w, id, Step(w, id, s, Copy(i)), Act(i));
      && t.run == Approve(w, id, s.run, s.decisions[i].approval).0
      && t.decisions == s.decisions[i := s.decisions[i].(stage := Written)]
  {
    ReadingCopies(w, id, s, i);
    RestoredSaves(s.run);
    hide RunOk, Tells, ApproveWith, Deserialise;
  }

  /** The second finds every call of the saved conversation answered. */
  lemma SecondAsks(w: World, id: RunId, t: Scene, j: nat)
    requires Tells(t) && j < |t.decisions| && t.decisions[j].approved && t.decisions[j].stage == Reading
    requires Balanced(t.run.saves[|t.run.saves| - 1])
    requires t.decisions[j].approval < |t.run.approvals| && !Crashes(w, id, t.run, t.decisions[j].approval)
    requires w.maxIterations > 0
    ensures
      var u := Step(w, id, Step(w, id, t, Copy(j)), Act(j));
      |u.run.prompts| > |t.run.prompts| && !Balanced(u.run.prompts[|t.run.prompts|])
  {
    var k, late := t.decisions[j].approval, t.run.saves[|t.run.saves| - 1];
    hide *;
    CopyThenAct(w, id, t, j, late);
    BalancedIsNotOpen(late, t.run.approvals[k].toolCallId, t.run.approvals[k].tool);
    BalancedIsOdd(late);
    LatePromptIsBalancedIff(w, id, t.run, k, late);
  }

  lemma CopyThenAct(w: World, id: RunId, t: Scene, j: nat, late: seq<Message>)
    requires Tells(t) && j < |t.decisions| && t.decisions[j].approved && t.decisions[j].stage == Reading
    requires t.decisions[j].approval < |t.run.approvals|
    requires t.run.saves != [] && late == t.run.saves[|t.run.saves| - 1]
    ensures Step(w, id, Step(w, id, t, Copy(j)), Act(j)).run ==
            ApproveWith(w, id, t.run, t.decisions[j].approval, Some(late)).0
  {
    ReadingCopies(w, id, t, j);
    hide ApproveWith, Tells, Deserialise;
  }

  lemma FirstSaves(w: World, id: RunId, s: Scene, i: nat)
    requires Tells(s) && RunOk(w, s.run) && i < |s.decisions| && IsPending(s.run, s.decisions[i].approval)
    requires s.decisions[i].approved && s.decisions[i].stage == Reading
    ensures
      var t := Step(w, id, Step(w, id, s, Copy(i)), Act(i)).run;
      && (t.saves == s.run.saves || t.status == WaitingForApproval || (t.saves != [] && Balanced(t.saves[|t.saves| - 1])))
  {
    hide Step, RunOk, Balanced, Approve, Tells;
    FirstThrough(w, id, s, i);
    RestoredOk(w, s.run, s.decisions[i].approval);
    ApproveRests(w, id, s.run, s.decisions[i].approval);
  }

  /** Two have read one approval, both to approve it, and neither has copied the conversation. */
  ghost predicate BothReading(s: Scene, i: nat, j: nat) {
    && Overlap(s, i, j) && IsPending(s.run, s.decisions[i].approval)
    && s.decisions[i].approved && s.decisions[i].stage == Reading
    && s.decisions[j].approved && s.decisions[j].stage == Reading
  }

  /** It saved more, did not park again, and the call can be made once more. */
  ghost predicate WentOn(w: World, id: RunId, s: Scene, t: Scene, k: nat) {
    && t.run.saves != s.run.saves && t.run.status != WaitingForApproval
    && k < |t.run.approvals| && !Crashes(w, id, t.run, k)
  }

  lemma LateCopy(w: World, id: RunId, s: Scene, i: nat, j: nat)
    requires Tells(s) && RunOk(w, s.run) && BothReading(s, i, j) && w.maxIterations > 0
    requires WentOn(w, id, s, Step(w, id, Step(w, id, s, Copy(i)), Act(i)), s.decisions[i].approval)
    ensures
      var t := Step(w, id, Step(w, id, s, Copy(i)), Act(i));
      var u := Step(w, id, Step(w, id, t, Copy(j)), Act(j));
      |u.run.prompts| > |t.run.prompts| && !Balanced(u.run.prompts[|t.run.prompts|])
  {
    var t := Step(w, id, Step(w, id, s, Copy(i)), Act(i));
    StepTells(w, id, s, Copy(i));
    StepTells(w, id, Step(w, id, s, Copy(i)), Act(i));
    hide Step, Tells, RunOk, Balanced, Crashes, Approve, IsPending;
    FirstThrough(w, id, s, i);
    FirstSaves(w, id, s, i);
    SecondAsks(w, id, t, j);
  }

  /**
   Two approve one approval; the second copies the conversation when the first is through.  If the
   first saved more and did not park again, the model is asked about a conversation with a result
   that no call is waiting for.
   */
  lemma LateCopyUnbalancesAPrompt(w: World, c: Call, actions: seq<Action>, i: nat, j: nat)
    requires Starts(c) && w.maxIterations > 0
    requires RunOk(w, History(w, c, actions).run) && BothReading(History(w, c, actions), i, j)
    requires WentOn(w, c.id, History(w, c, actions), History(w, c, actions + [Copy(i)] + [Act(i)]),
                    History(w, c, actions).decisions[i].approval)
    ensures
      var t := History(w, c, actions + [Copy(i)] + [Act(i)]).run;
      var u := History(w, c, actions + [Copy(i)] + [Act(i)] + [Copy(j)] + [Act(j)]).run;
      |u.prompts| > |t.prompts| && !Balanced(u.prompts[|t.prompts|])
  {
    hide History, Step, Tells, RunOk, Balanced, WentOn, BothReading;
    HistoryTells(w, c, actions);
    HistoryGrows(w, c, actions, Copy(i));
    HistoryGrows(w, c, actions + [Copy(i)], Act(i));
    HistoryGrows(w, c, actions + [Copy(i)] + [Act(i)], Copy(j));
    HistoryGrows(w, c, actions + [Copy(i)] + [Act(i)] + [Copy(j)], Act(j));
    LateCopy(w, c.id, History(w, c, actions), i, j);
  }

  // -- and such a run exists ---------------------------------------------

  /** A model that asks for a gated call, then for a read, and then answers. */
  function Busy(): World {
    World(map["send" := ToolSpec(Risk.Write, false), "read" := ToolSpec(Risk.Read, false)],
          (id: RunId, n: nat, c: seq<Message>) =>
            if n == 0 then Responded(None, [ToolCall("a", "send", map[], None)])
            else if n == 1 then Responded(None, [ToolCall("b", "read", map[], None)])
            else Responded(Some("done"), []),
          (id: RunId, n: nat, tool: string, arguments: Arguments) => Returned(Null),
          (result: Json) => "null", (errorType: string, error: string) => error, 10)
  }

  lemma BusyParks()
    ensures
      var r := Entered(Busy(), Start(0, "hello"));
      && IsPending(r, 0) && |r.approvals| == 1 && |r.prompts| == 1
      && r.approvals[0].tool == "send" && r.approvals[0].arguments == map[]
      && r.saves != [] && r.saves[|r.saves| - 1] != []
  {
    hide Serialise;
  }

  lemma BusyGoesOn(r: Run, conversation: seq<Message>, trace: seq<TraceEntry>)
    requires |r.prompts| == 1
    ensures
      var t := Drive(Busy(), 0, r, conversation, trace, 10).0;
      t.status == Completed && |t.saves| == |r.saves| + 1 && t.approvals == r.approvals
  {
    hide Serialise;
  }

  /** The first approval goes through: one more conversation is saved, and nothing waits. */
  lemma BusyApproves(r: Run)
    requires RunOk(Busy(), r) && IsPending(r, 0) && |r.approvals| == 1 && |r.prompts| == 1
    requires r.approvals[0].tool == "send" && r.approvals[0].arguments == map[] && r.saves[|r.saves| - 1] != []
    ensures
      var t := Approve(Busy(), 0, r, 0).0;
      t.status == Completed && |t.saves| == |r.saves| + 1 && |t.approvals| == 1 && !Crashes(Busy(), 0, t, 0)
  {
    var a, ran := r.approvals[0], ReleasedRun(Busy(), 0, r, 0);
    var outcome := ApproveIs(Busy(), 0, r, 0);
    ReleasedRunIs(Busy(), 0, r, 0);
    hide RunOk, Approve, Drive, Deserialise;
    assert outcome == Returned(Null);
    BusyGoesOn(Note(ran, ToolExecuted(a.tool, a.arguments, Null)),
               r.saves[|r.saves| - 1] + [ToolResult(a.toolCallId, a.tool, "null")], [TraceEntry(a.tool, a.arguments, Null)]);
  }

  lemma TwoLook(w: World, c: Call, k: nat)
    requires Starts(c) && IsPending(Entered(w, c), k)
    ensures
      var s := History(w, c, [] + [Look(k, true)] + [Look(k, true)]);
      s == Scene(Entered(w, c), [Decision(k, true, Reading), Decision(k, true, Reading)]) && BothReading(s, 0, 1)
  {
    hide Entered, Play;
    assert History(w, c, []) == Scene(Entered(w, c), []) by { PlayNothing(w, c.id, Scene(Entered(w, c), [])); }
    HistoryGrows(w, c, [], Look(k, true));
    HistoryGrows(w, c, [] + [Look(k, true)], Look(k, true));
  }

  lemma BusyWentOn(s: Scene)
    requires Tells(s) && RunOk(Busy(), s.run) && BothReading(s, 0, 1) && s.decisions[0].approval == 0
    requires |s.run.approvals| == 1 && |s.run.prompts| == 1 && s.run.saves != [] && s.run.saves[|s.run.saves| - 1] != []
    requires s.run.approvals[0].tool == "send" && s.run.approvals[0].arguments == map[]
    ensures WentOn(Busy(), 0, s, Step(Busy(), 0, Step(Busy(), 0, s, Copy(0)), Act(0)), 0)
  {
    hide Step, Busy, RunOk, Tells, Approve, Crashes;
    FirstThrough(Busy(), 0, s, 0);
    BusyApproves(s.run);
  }

  /** Two looks, and what LateCopyUnbalancesAPrompt asks for holds. */
  lemma SomePromptIsUnbalanced() returns (w: World, c: Call, actions: seq<Action>, p: nat)
    ensures Starts(c) && p < |History(w, c, actions).run.prompts| && !Balanced(History(w, c, actions).run.prompts[p])
  {
    w, c := Busy(), Start(0, "hello");
    var looks := [] + [Look(0, true)] + [Look(0, true)];
    actions := looks + [Copy(0)] + [Act(0)] + [Copy(1)] + [Act(1)];
    p := |History(w, c, looks + [Copy(0)] + [Act(0)]).run.prompts|;
    assert c.id == 0 && w.maxIterations == 10 && Starts(c);
    hide *;
    BusyParks();
    EnteredOk(w, c);
    TwoLook(w, c, 0);
    HistoryTells(w, c, looks);
    HistoryGrows(w, c, looks, Copy(0));
    HistoryGrows(w, c, looks + [Copy(0)], Act(0));
    BusyWentOn(History(w, c, looks));
    LateCopyUnbalancesAPrompt(w, c, looks, 0, 1);
  }
}
