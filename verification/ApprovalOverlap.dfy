/**
 Decisions that overlap.  `resolve_approval` reads PENDING in one session, `approve` copies the
 conversation in another, and then the decision and all it entails are written without asking
 again.  Other decisions, refusals and sweeps of the same run may come between any two of these.
 */
module ApprovalOverlap {
  import opened Wrappers
  import opened Sorting
  import opened AgentProtocol
  import opened AgentCore
  import opened AgentInvariants
  import opened AgentHistory

  datatype Stage = Reading | Copied(conversation: Option<seq<Message>>) | Written | TurnedAway

  /** One call of `resolve_approval`. */
  datatype Decision = Decision(approval: nat, approved: bool, stage: Stage)

  datatype Scene = Scene(run: Run, decisions: seq<Decision>)

  datatype Action =
    | Look(approval: nat, approved: bool)     // the status is read
    | Copy(decision: nat)                     // approving: the conversation is read
    | Act(decision: nat)                      // everything is written
    | Refuse(tool: string)                    // the route turns a user away
    | Sweep                                   // reconciliation finds the run stale

  predicate MayAct(d: Decision) {
    if d.approved then d.stage.Copied? && d.stage.conversation.Some? else d.stage == Reading
  }

  /** What a decision makes of the run, as it is when it gets to write. */
  function Effect(w: World, id: RunId, r: Run, d: Decision): Run
    requires MayAct(d)
  {
    if d.approval >= |r.approvals| then r
    else if d.approved then ApproveWith(w, id, r, d.approval, d.stage.conversation).0
    else Reject(r, d.approval).0
  }

  function Step(w: World, id: RunId, s: Scene, a: Action): Scene {
    match a
    case Look(k, approved) =>
      s.(decisions := s.decisions + [Decision(k, approved, if IsPending(s.run, k) then Reading else TurnedAway)])
    case Copy(i) =>
      if i < |s.decisions| && s.decisions[i].approved && s.decisions[i].stage == Reading then
        s.(decisions := s.decisions[i := s.decisions[i].(stage := Copied(Deserialise(s.run.conversation)))])
      else s
    case Act(i) =>
      if i < |s.decisions| && MayAct(s.decisions[i]) then
        Scene(Effect(w, id, s.run, s.decisions[i]), s.decisions[i := s.decisions[i].(stage := Written)])
      else s
    case Refuse(tool) => s.(run := DenyAuthorization(s.run, tool))
    case Sweep => s.(run := ReconcileRun(s.run))
  }

  function Play(w: World, id: RunId, s: Scene, actions: seq<Action>): Scene {
    if actions == [] then s else Step(w, id, Play(w, id, s, actions[..|actions| - 1]), actions[|actions| - 1])
  }

  /** A run just entered, and whatever is then decided about it. */
  function History(w: World, c: Call, actions: seq<Action>): Scene
    requires Starts(c)
  {
    Play(w, c.id, Scene(Entered(w, c), []), actions)
  }

  lemma PlayGrows(w: World, id: RunId, s: Scene, actions: seq<Action>, a: Action)
    ensures Play(w, id, s, actions + [a]) == Step(w, id, Play(w, id, s, actions), a)
  {
    hide Step;
    assert (actions + [a])[..|actions|] == actions;
  }

  lemma ThreeMoves(w: World, id: RunId, s: Scene, a: Action, b: Action, c: Action)
    ensures Play(w, id, s, [a, b, c]) == Step(w, id, Step(w, id, Step(w, id, s, a), b), c)
  {
    hide Step, Play;
    assert [] + [a] == [a] && [a] + [b] == [a, b] && [a, b] + [c] == [a, b, c];
    PlayNothing(w, id, s);
    PlayGrows(w, id, s, [], a);
    PlayGrows(w, id, s, [a], b);
    PlayGrows(w, id, s, [a, b], c);
  }

  lemma PlayNothing(w: World, id: RunId, s: Scene)
    ensures Play(w, id, s, []) == s
  {
  }

  /** With nobody in between, a decision is the one step that AgentHistory takes it for. */
  lemma UndisturbedDecisionIsOneStep(w: World, id: RunId, s: Scene, k: nat, approved: bool)
    requires Deserialise(s.run.conversation).Some?
    ensures
      var i := |s.decisions|;
      Play(w, id, s, [Look(k, approved), Copy(i), Act(i)]).run == ResolveApproval(w, id, s.run, k, approved).0
  {
    var i := |s.decisions|;
    hide ApproveWith, Reject, Play;
    ThreeMoves(w, id, s, Look(k, approved), Copy(i), Act(i));
  }

  // -- what the parts of a decision keep ---------------------------------

  /** The persisted conversation is the last one saved. */
  ghost predicate Saved(r: Run) {
    r.saves != [] && r.conversation == Serialise(r.saves[|r.saves| - 1])
  }

  /** `s` is `r` with more written, and nothing executed under an approval. */
  ghost predicate Plain(r: Run, s: Run) {
    && r.invocations <= s.invocations
    && (forall i :: |r.invocations| <= i < |s.invocations| ==> s.invocations[i].approval.None?)
    && (Saved(r) ==> Saved(s))
  }

  lemma PlainTransitive(r: Run, s: Run, t: Run)
    requires Plain(r, s) && Plain(s, t)
    ensures Plain(r, t)
  {
    hide Saved;
  }

  lemma HandleOutcomePlain(w: World, r: Run, conversation: seq<Message>, call: ToolCall, outcome: ToolOutcome,
                           trace: seq<TraceEntry>)
    ensures Plain(r, HandleOutcome(w, r, conversation, call, outcome, trace).run)
  {
    hide Serialise;
  }

  lemma HandleCallPlain(w: World, id: RunId, r: Run, conversation: seq<Message>, call: ToolCall, trace: seq<TraceEntry>)
    ensures Plain(r, HandleCall(w, id, r, conversation, call, trace).run)
  {
    hide HandleOutcome, Serialise;
    if call.argumentError.None? {
      var requested := Note(r, ToolRequested(call.name, call.arguments));
      match Execute(w, id, requested, call.name, call.arguments, None)
      case Blocked(risk) =>
      case Ran(outcome) =>
        var ran := Invoked(w, requested, call.name, call.arguments, None);
        HandleOutcomePlain(w, ran, conversation, call, outcome, trace);
        PlainTransitive(r, ran, HandleOutcome(w, ran, conversation, call, outcome, trace).run);
    }
  }

  lemma IteratePlain(w: World, id: RunId, r: Run, conversation: seq<Message>, trace: seq<TraceEntry>)
    ensures Plain(r, Iterate(w, id, r, conversation, trace).run)
  {
    hide HandleCall, Serialise;
    match w.model(id, |r.prompts|, conversation)
    case ModelRaised =>
    case Responded(text, calls) =>
      if calls != [] {
        var answered := r.(prompts := r.prompts + [conversation], steps := r.steps + [ModelResponded(text, calls)]);
        HandleCallPlain(w, id, answered, conversation + [AssistantMessage(text, [calls[0]])], calls[0], trace);
      }
  }

  lemma {:induction false} DrivePlain(w: World, id: RunId, r: Run, conversation: seq<Message>, trace: seq<TraceEntry>, n: nat)
    ensures Plain(r, Drive(w, id, r, conversation, trace, n).0)
    decreases n
  {
    hide Iterate, Saved;
    if n > 0 {
      IteratePlain(w, id, r, conversation, trace);
      hide Plain;
      match Iterate(w, id, r, conversation, trace)
      case Continue(run, extended, longer) =>
        DrivePlain(w, id, run, extended, longer, n - 1);
        PlainTransitive(r, run, Drive(w, id, run, extended, longer, n - 1).0);
      case _ =>
    } else {
      SameSaves(r, Respond(Exhausted(r, trace), trace));
    }
  }

  lemma SameSaves(r: Run, s: Run)
    requires s.saves == r.saves && s.conversation == r.conversation
    ensures Saved(r) ==> Saved(s)
  {
  }

  lemma CompletePlain(w: World, id: RunId, r: Run, conversation: seq<Message>, a: Approval, outcome: ToolOutcome)
    ensures Plain(r, Complete(w, id, r, conversation, a, outcome).0)
  {
    hide Drive, Saved;
    SameSaves(r, Complete(w, id, r, [], a, outcome).0);
    if conversation != [] {
      match outcome
      case Refused(errorType, error) =>
        var failed := FailTool(r, a.tool, a.arguments, errorType, error);
        SameSaves(r, failed);
        DrivePlain(w, id, failed, conversation + [ToolResult(a.toolCallId, a.tool, w.renderFailure(errorType, error))], [],
                   w.maxIterations);
      case Crashed(errorType, error) =>
        SameSaves(r, Abort(r, a.tool, a.arguments, errorType, error));
      case Returned(result) =>
        var noted := Note(r, ToolExecuted(a.tool, a.arguments, result));
        SameSaves(r, noted);
        DrivePlain(w, id, noted, conversation + [ToolResult(a.toolCallId, a.tool, w.render(result))],
                   [TraceEntry(a.tool, a.arguments, result)], w.maxIterations);
    }
  }

  lemma CompleteAppends(w: World, id: RunId, r: Run, conversation: seq<Message>, a: Approval, outcome: ToolOutcome)
    ensures Appends(r, Complete(w, id, r, conversation, a, outcome).0)
  {
    hide DirectOutcome, Resume, Appends;
    DirectAppends(r, a.tool, a.arguments, outcome);
    ResumeAppends(w, id, r, conversation, a, outcome);
  }

  /** An approving write, whatever the run has become: the call is executed, and what follows is appended. */
  lemma ApprovalIs(w: World, id: RunId, r: Run, k: nat, conversation: seq<Message>) returns (outcome: ToolOutcome)
    requires k < |r.approvals|
    ensures
      var a, ran := r.approvals[k], ReleasedRun(w, id, r, k);
      var t := ApproveWith(w, id, r, k, Some(conversation)).0;
      && Execute(w, id, Released(r, k), a.tool, a.arguments, Some(k)) == Execution.Ran(outcome)
      && t == Complete(w, id, ran, conversation, a, outcome).0
      && Appends(ran, t) && Plain(ran, t)
  {
    var a, ran := r.approvals[k], ReleasedRun(w, id, r, k);
    outcome := Execute(w, id, Released(r, k), a.tool, a.arguments, Some(k)).outcome;
    hide Complete, Appends, Plain, Released, Invoked;
    CompleteAppends(w, id, ran, conversation, a, outcome);
    CompletePlain(w, id, ran, conversation, a, outcome);
  }

  /** The approval's own part of a run after a decision on it; every other approval stands. */
  ghost predicate Decides1(r: Run, t: Run, k: nat, status: ApprovalStatus)
    requires k < |r.approvals|
  {
    && |r.approvals| <= |t.approvals|
    && t.approvals[k] == r.approvals[k].(status := status)
    && (forall j :: 0 <= j < |r.approvals| && j != k ==> t.approvals[j] == r.approvals[j])
    && (forall j :: |r.approvals| <= j < |t.approvals| ==> t.approvals[j].status == Pending)
  }

  lemma ReleasedRunIs(w: World, id: RunId, r: Run, k: nat)
    requires k < |r.approvals|
    ensures
      var a, ran := r.approvals[k], ReleasedRun(w, id, r, k);
      && Decides1(r, ran, k, Approved) && |ran.approvals| == |r.approvals|
      && ran.prompts == r.prompts && ran.audit == r.audit + [ApprovalGranted(a.tool, a.arguments)]
      && (Saved(r) ==> Saved(ran)) && ran.saves == r.saves
      && ran.invocations == r.invocations +
         if Invokes(w, a.tool, a.arguments, true) then [Invocation(a.tool, a.arguments, Some(k))] else []
  {
    hide Invokes;
    assert r.invocations + [] == r.invocations;
    SameSaves(r, ReleasedRun(w, id, r, k));
  }

  lemma EffectDecides(w: World, id: RunId, r: Run, d: Decision)
    requires MayAct(d) && d.approval < |r.approvals| && Saved(r)
    ensures Decides1(r, Effect(w, id, r, d), d.approval, if d.approved then Approved else Rejected)
    ensures Saved(Effect(w, id, r, d))
  {
    if d.approved {
      var outcome := ApprovalIs(w, id, r, d.approval, d.stage.conversation.value);
      ReleasedRunIs(w, id, r, d.approval);
      hide ApproveWith, ReleasedRun, Complete, Execute, Saved;
    } else {
      SameSaves(r, Reject(r, d.approval).0);
    }
  }

  // -- who was told what -------------------------------------------------

  predicate Open(d: Decision) {
    d.stage == Reading || d.stage.Copied?
  }

  ghost predicate WrittenOn(s: Scene, i: nat, k: nat) {
    i < |s.decisions| && s.decisions[i].stage == Written && s.decisions[i].approval == k
  }

  /** An approval is PENDING exactly while nothing was written on it, and whoever goes on had read one. */
  ghost predicate Tells(s: Scene) {
    && Saved(s.run)
    && (forall i :: 0 <= i < |s.decisions| && s.decisions[i].stage != TurnedAway ==> s.decisions[i].approval < |s.run.approvals|)
    && (forall i :: 0 <= i < |s.decisions| && s.decisions[i].stage.Copied? ==>
          s.decisions[i].approved && s.decisions[i].stage.conversation.Some?)
    && (forall k: nat :: k < |s.run.approvals| ==>
          (s.run.approvals[k].status == Pending <==> forall i: nat :: !WrittenOn(s, i, k)))
  }

  lemma RestoredSaves(r: Run)
    requires Saved(r)
    ensures Deserialise(r.conversation) == Some(r.saves[|r.saves| - 1])
  {
    ConversationRoundTrip(r.saves[|r.saves| - 1]);
  }

  lemma ActTells(w: World, id: RunId, s: Scene, i: nat)
    requires Tells(s) && i < |s.decisions| && MayAct(s.decisions[i])
    ensures Tells(Step(w, id, s, Act(i)))
  {
    hide Saved, ApproveWith, Reject, Effect;
    var t, d := Step(w, id, s, Act(i)), s.decisions[i];
    EffectDecides(w, id, s.run, d);
    forall j: nat, k: nat ensures WrittenOn(t, j, k) <==> WrittenOn(s, j, k) || (j == i && k == d.approval) {
    }
    forall k: nat | k < |t.run.approvals| ensures t.run.approvals[k].status == Pending <==> forall j: nat :: !WrittenOn(t, j, k) {
      if k == d.approval {
        assert WrittenOn(t, i, k);
      } else if k < |s.run.approvals| {
        assert t.run.approvals[k] == s.run.approvals[k];
      } else {
        forall j: nat ensures !WrittenOn(t, j, k) {
        }
      }
    }
  }

  /** A step that writes nothing on any approval. */
  lemma QuietStepTells(s: Scene, t: Scene)
    requires Tells(s) && Saved(t.run) && t.run.approvals == s.run.approvals && |s.decisions| <= |t.decisions|
    requires forall i :: 0 <= i < |t.decisions| && t.decisions[i].stage.Copied? ==>
                       t.decisions[i].approved && t.decisions[i].stage.conversation.Some?
    requires forall i :: 0 <= i < |t.decisions| && t.decisions[i].stage != TurnedAway ==>
                       t.decisions[i].approval < |t.run.approvals|
    requires forall i: nat, k: nat :: WrittenOn(t, i, k) <==> WrittenOn(s, i, k)
    ensures Tells(t)
  {
    hide Saved;
  }

  lemma StepTells(w: World, id: RunId, s: Scene, a: Action)
    requires Tells(s)
    ensures Tells(Step(w, id, s, a))
  {
    hide Effect, Deserialise, Saved;
    if a.Act? && a.decision < |s.decisions| && MayAct(s.decisions[a.decision]) {
      ActTells(w, id, s, a.decision);
    } else {
      var t := Step(w, id, s, a);
      RestoredSaves(s.run);
      QuietRun(s.run, t.run);
      QuietStepTells(s, t);
    }
  }

  lemma QuietRun(r: Run, s: Run)
    requires s == r || s == ReconcileRun(r) || exists tool :: s == DenyAuthorization(r, tool)
    ensures s.approvals == r.approvals && (Saved(r) ==> Saved(s))
  {
  }

  lemma EnteredTells(w: World, c: Call)
    requires Starts(c)
    ensures Tells(Scene(Entered(w, c), []))
  {
    hide Entered;
    EnteredOk(w, c);
    forall k: nat | k < |Entered(w, c).approvals| ensures Entered(w, c).approvals[k].status == Pending {
      EnteredUndecided(w, c, k);
    }
  }

  lemma {:induction false} HistoryTells(w: World, c: Call, actions: seq<Action>)
    requires Starts(c)
    ensures Tells(History(w, c, actions))
  {
    hide Step, Tells, Entered;
    if actions == [] {
      EnteredTells(w, c);
    } else {
      HistoryTells(w, c, actions[..|actions| - 1]);
      StepTells(w, c.id, History(w, c, actions[..|actions| - 1]), actions[|actions| - 1]);
    }
  }

  /** Two have read one approval as PENDING, and neither has written. */
  ghost predicate Overlap(s: Scene, i: nat, j: nat) {
    && i < |s.decisions| && j < |s.decisions| && i != j
    && Open(s.decisions[i]) && Open(s.decisions[j]) && s.decisions[i].approval == s.decisions[j].approval
  }

  /** One decision, at two moments. */
  ghost predicate Same(s: Scene, t: Scene, i: nat) {
    && i < |s.decisions| && i < |t.decisions|
    && s.decisions[i].approval == t.decisions[i].approval && s.decisions[i].approved == t.decisions[i].approved
  }

  /** Two decisions are written on one approval. */
  ghost predicate Twice(s: Scene, i: nat, j: nat) {
    i != j && exists k: nat :: WrittenOn(s, i, k) && WrittenOn(s, j, k)
  }

  lemma PrefixOfPrefix(actions: seq<Action>, m: nat, n: nat)
    requires n <= m <= |actions|
    ensures actions[..m][..n] == actions[..n]
  {
  }

  /** Where a decision stood one step before. */
  lemma StoodBefore(w: World, id: RunId, s: Scene, a: Action, i: nat)
    requires i < |Step(w, id, s, a).decisions|
    ensures
      var d := Step(w, id, s, a).decisions[i];
      if i < |s.decisions| then
        && s.decisions[i].approval == d.approval && s.decisions[i].approved == d.approved
        && (d == s.decisions[i] || (Open(s.decisions[i]) && (a == Act(i) || (a == Copy(i) && d.stage.Copied?))))
      else
        i == |s.decisions| && a == Look(d.approval, d.approved) &&
        d.stage == if IsPending(s.run, d.approval) then Reading else TurnedAway
  {
    hide Effect, Deserialise;
    match a
    case Look(k, approved) =>
    case Copy(n) =>
    case Act(n) =>
    case _ =>
  }

  /** One still to write, beside one that has: at some moment neither had. */
  lemma {:induction false} StillOpenOverlapped(w: World, c: Call, actions: seq<Action>, i: nat, j: nat) returns (n: nat)
    requires Starts(c) && i < |History(w, c, actions).decisions|
    requires WrittenOn(History(w, c, actions), j, History(w, c, actions).decisions[i].approval)
    requires Open(History(w, c, actions).decisions[i])
    ensures n <= |actions| && Overlap(History(w, c, actions[..n]), i, j)
    ensures Same(History(w, c, actions[..n]), History(w, c, actions), i)
    ensures Same(History(w, c, actions[..n]), History(w, c, actions), j)
  {
    hide Step, Entered, Tells;
    assert actions != [];
    var m := |actions| - 1;
    var s, a := History(w, c, actions[..m]), actions[m];
    HistoryTells(w, c, actions[..m]);
    StoodBefore(w, c.id, s, a, i);
    StoodBefore(w, c.id, s, a, j);
    if i < |s.decisions| && WrittenOn(s, j, s.decisions[i].approval) {
      n := StillOpenOverlapped(w, c, actions[..m], i, j);
      PrefixOfPrefix(actions, m, n);
    } else {
      n := m;
      NobodyLooksAfter(s, j, History(w, c, actions).decisions[i].approval);
    }
  }

  lemma NobodyLooksAfter(s: Scene, j: nat, k: nat)
    requires Tells(s)
    ensures WrittenOn(s, j, k) ==> !IsPending(s.run, k)
  {
  }

  /** Two decisions were written on one approval only if both had read it before either wrote. */
  lemma {:induction false} TwiceMeansOverlap(w: World, c: Call, actions: seq<Action>, i: nat, j: nat) returns (n: nat)
    requires Starts(c) && Twice(History(w, c, actions), i, j)
    ensures n <= |actions| && Overlap(History(w, c, actions[..n]), i, j)
    ensures Same(History(w, c, actions[..n]), History(w, c, actions), i)
    ensures Same(History(w, c, actions[..n]), History(w, c, actions), j)
  {
    hide Step, Entered, Tells;
    var k: nat :| WrittenOn(History(w, c, actions), i, k) && WrittenOn(History(w, c, actions), j, k);
    var m := |actions| - 1;
    var s, a := History(w, c, actions[..m]), actions[m];
    HistoryTells(w, c, actions[..m]);
    StoodBefore(w, c.id, s, a, i);
    StoodBefore(w, c.id, s, a, j);
    if WrittenOn(s, i, k) && WrittenOn(s, j, k) {
      n := TwiceMeansOverlap(w, c, actions[..m], i, j);
    } else if WrittenOn(s, i, k) {
      n := StillOpenOverlapped(w, c, actions[..m], j, i);
    } else {
      n := StillOpenOverlapped(w, c, actions[..m], i, j);
    }
    PrefixOfPrefix(actions, m, n);
  }
}
