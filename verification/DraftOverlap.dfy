/**
 Refreshes that overlap.  `process` reads in one session whether the state is settled, then asks
 the model, and records in another session, which has a guard of its own; a Regenerate replaces
 in a third.  Webhooks, polls, edits and sends may come between any two of these.
 */
module DraftOverlap {
  import opened Wrappers
  import opened Sorting
  import opened Hospitality
  import opened Drafts
  import opened ConversationRefresh
  import opened DraftSafety

  datatype Stage = Recording | Replacing | Finished

  /** One call of `process` that found something to do. */
  datatype Pass = Pass(key: Key, force: bool, outcome: Draft, stage: Stage)

  datatype Flow = Flow(rows: Rows, calls: seq<ModelCall>, passes: seq<Pass>)

  datatype Action =
    | Look(visit: Visit)          // the guard, the analysis, and the model call if there is one
    | Act(pass: nat)              // the next session of that call
    | Touch(op: Op)               // an edit or a send

  const NOTHING := Flow(map[], [], [])

  function Step(c: Classifiers, s: Flow, a: Action): Flow {
    match a
    case Look(v) =>
      (match Planned(c, s.rows, v)
       case None => s
       case Some(p) => s.(calls := s.calls + if p.call.Some? then [p.call.value] else [],
                          passes := s.passes + [Pass(p.key, p.force, p.outcome, Recording)]))
    case Act(k) => if k < |s.passes| then Acted(s, k) else s
    case Touch(op) => if op.Visiting? then s else s.(rows := Apply(c, DraftSafety.State(s.rows, s.calls), op).rows)
  }

  function Acted(s: Flow, k: nat): Flow
    requires k < |s.passes|
  {
    var p := s.passes[k];
    match p.stage
    case Recording =>
      Flow(Recorded(s.rows, p.key, p.outcome), s.calls,
           s.passes[k := p.(stage := if p.force && p.key in s.rows then Replacing else Finished)])
    case Replacing => Flow(s.rows[p.key := p.outcome], s.calls, s.passes[k := p.(stage := Finished)])
    case Finished => s
  }

  function Run(c: Classifiers, s: Flow, actions: seq<Action>): Flow {
    if actions == [] then s else Step(c, Run(c, s, actions[..|actions| - 1]), actions[|actions| - 1])
  }

  lemma RunGrows(c: Classifiers, s: Flow, actions: seq<Action>, a: Action)
    ensures Run(c, s, actions + [a]) == Step(c, Run(c, s, actions), a)
  {
    hide Step;
    assert (actions + [a])[..|actions|] == actions;
  }

  lemma FourSteps(c: Classifiers, a: Action, b: Action, d: Action, e: Action)
    ensures Run(c, NOTHING, [a, b]) == Step(c, Step(c, NOTHING, a), b)
    ensures Run(c, NOTHING, [a, b, d]) == Step(c, Run(c, NOTHING, [a, b]), d)
    ensures Run(c, NOTHING, [a, b, d, e]) == Step(c, Run(c, NOTHING, [a, b, d]), e)
  {
    hide Step, Run;
    Joined(a, b, d, e);
    RunNothing(c);
    RunGrows(c, NOTHING, [], a);
    RunGrows(c, NOTHING, [a], b);
    RunGrows(c, NOTHING, [a, b], d);
    RunGrows(c, NOTHING, [a, b, d], e);
  }

  lemma Joined<T>(a: T, b: T, d: T, e: T)
    ensures [] + [a] == [a] && [a] + [b] == [a, b] && [a, b] + [d] == [a, b, d] && [a, b, d] + [e] == [a, b, d, e]
  {
  }

  lemma RunNothing(c: Classifiers)
    ensures Run(c, NOTHING, []) == NOTHING
  {
  }

  // -- visits that do not overlap ----------------------------------------

  /** One operation, the k-th visit that finds something to do if it is one. */
  function Sessions(k: nat, op: Op): seq<Action> {
    if op.Visiting? then [Look(op.visit), Act(k), Act(k)] else [Touch(op)]
  }

  /** The actions of these operations, each visit with nobody between its sessions. */
  function Apart(c: Classifiers, ops: seq<Op>): seq<Action> {
    if ops == [] then []
    else
      var init := Apart(c, ops[..|ops| - 1]);
      init + Sessions(|Run(c, NOTHING, init).passes|, ops[|ops| - 1])
  }

  lemma VisitIsOneStep(c: Classifiers, s: Flow, v: Visit)
    ensures
      var k := |s.passes|;
      var t := Step(c, Step(c, Step(c, s, Look(v)), Act(k)), Act(k));
      DraftSafety.State(t.rows, t.calls) == Apply(c, DraftSafety.State(s.rows, s.calls), Visiting(v))
  {
    hide Planned, IsSettled;
    assert s.calls + [] == s.calls;
  }

  /** One operation after any actions at all, with nobody in between. */
  lemma OneMoreOp(c: Classifiers, init: seq<Action>, op: Op)
    ensures
      var s := Run(c, NOTHING, init);
      var t := Run(c, NOTHING, init + Sessions(|s.passes|, op));
      DraftSafety.State(t.rows, t.calls) == Apply(c, DraftSafety.State(s.rows, s.calls), op)
  {
    hide Step, Apply, Run;
    var s := Run(c, NOTHING, init);
    if op.Visiting? {
      var k := |s.passes|;
      VisitIsOneStep(c, s, op.visit);
      RunGrows(c, NOTHING, init, Look(op.visit));
      RunGrows(c, NOTHING, init + [Look(op.visit)], Act(k));
      RunGrows(c, NOTHING, init + [Look(op.visit)] + [Act(k)], Act(k));
      assert init + Sessions(k, op) == init + [Look(op.visit)] + [Act(k)] + [Act(k)];
    } else {
      RunGrows(c, NOTHING, init, Touch(op));
      TouchIsOneStep(c, s, op);
    }
  }

  /** Undisturbed, a visit is the one step that DraftSafety takes it for. */
  lemma {:induction false} UndisturbedVisitsAreSteps(c: Classifiers, ops: seq<Op>)
    ensures
      var t := Run(c, NOTHING, Apart(c, ops));
      DraftSafety.State(t.rows, t.calls) == Exec(c, EMPTY, ops)
  {
    hide Run, Apply, Sessions;
    if ops != [] {
      var n := |ops| - 1;
      UndisturbedVisitsAreSteps(c, ops[..n]);
      OneMoreOp(c, Apart(c, ops[..n]), ops[n]);
    } else {
      RunNothing(c);
    }
  }

  lemma TouchIsOneStep(c: Classifiers, s: Flow, op: Op)
    requires !op.Visiting?
    ensures
      var t := Step(c, s, Touch(op));
      DraftSafety.State(t.rows, t.calls) == Apply(c, DraftSafety.State(s.rows, s.calls), op)
  {
  }

  // -- what a step may do to a settled row -------------------------------

  predicate SettledIn(rows: Rows, key: Key) {
    key in rows && IsSettled(rows[key])
  }

  /** Nobody regenerates this state, or is about to. */
  ghost predicate Unforced(s: Flow, actions: seq<Action>, key: Key) {
    && (forall k :: 0 <= k < |s.passes| && s.passes[k].key == key ==> !s.passes[k].force && s.passes[k].stage != Replacing)
    && forall i :: 0 <= i < |actions| && actions[i].Look? ==> !Forces(Visiting(actions[i].visit), key)
  }

  lemma UnforcedStep(c: Classifiers, s: Flow, a: Action, key: Key)
    requires Unforced(s, [a], key)
    ensures Unforced(Step(c, s, a), [], key)
  {
    hide Analyse, Escalation, Drafted, IsSettled, Apply, Recorded;
    assert [a][0] == a;
  }

  lemma {:induction false} StaysUnforced(c: Classifiers, s: Flow, actions: seq<Action>, key: Key)
    requires Unforced(s, actions, key)
    ensures Unforced(Run(c, s, actions), [], key)
  {
    hide Step;
    if actions != [] {
      var n := |actions| - 1;
      StaysUnforced(c, s, actions[..n], key);
      assert [actions[n]][0] == actions[n];
      UnforcedStep(c, Run(c, s, actions[..n]), actions[n], key);
    }
  }

  lemma UnforcedParts(c: Classifiers, s: Flow, actions: seq<Action>, key: Key)
    requires Unforced(s, actions, key) && actions != []
    ensures
      var n := |actions| - 1;
      Unforced(s, actions[..n], key) && Unforced(Run(c, s, actions[..n]), [actions[n]], key)
  {
    hide Run;
    var n := |actions| - 1;
    StaysUnforced(c, s, actions[..n], key);
  }

  predicate Touches(a: Action, key: Key) {
    a.Touch? && !a.op.Visiting? && a.op.key == key
  }

  /**
   The guard at the write is not the guard at the look.  Of all steps but a person's edit or send
   of it, exactly this one changes a settled row that nobody regenerates: a refresh under way for
   it records, the row as it is then is an escalated draft, and the outcome is another.
   */
  lemma SettledRowChangesExactly(c: Classifiers, s: Flow, a: Action, key: Key)
    requires SettledIn(s.rows, key) && Unforced(s, [a], key) && !Touches(a, key)
    ensures
      var t := Step(c, s, a);
      && key in t.rows
      && (t.rows[key] != s.rows[key] <==>
          && a.Act? && a.pass < |s.passes| && s.passes[a.pass].stage == Recording && s.passes[a.pass].key == key
          && s.rows[key].status == NEEDS_HUMAN_REVIEW && s.passes[a.pass].outcome != s.rows[key])
  {
    hide Planned;
    assert [a][0] == a;
  }

  /** Nobody who looks now asks the model about a settled state. */
  lemma SettledCostsNothing(c: Classifiers, s: Flow, a: Action, key: Key)
    requires SettledIn(s.rows, key) && Unforced(s, [a], key)
    ensures CallsFor(Step(c, s, a).calls, key) == CallsFor(s.calls, key)
  {
    assert [a][0] == a;
    if a.Look? && Planned(c, s.rows, a.visit).Some? {
      PlannedIsUnsettled(c, s.rows, a.visit);
      PlannedCall(c, s.rows, a.visit);
      hide Planned, IsSettled, CallsFor;
      var p := Planned(c, s.rows, a.visit).value;
      if p.call.Some? { CallsAppend(s.calls, p.call.value, key); } else { assert s.calls + [] == s.calls; }
    }
  }

  lemma PlannedCall(c: Classifiers, rows: Rows, v: Visit)
    requires Planned(c, rows, v).Some?
    ensures var p := Planned(c, rows, v).value; p.call.Some? ==> p.call.value.key == p.key
  {
    hide Analyse, Escalation, Drafted, IsSettled;
  }

  lemma TouchedStaysDecided(c: Classifiers, s: Flow, op: Op, key: Key)
    requires key in s.rows && s.rows[key].status != NEEDS_HUMAN_REVIEW
    ensures key in Step(c, s, Touch(op)).rows && Step(c, s, Touch(op)).rows[key].status != NEEDS_HUMAN_REVIEW
  {
    hide IsSettled, Process;
  }

  lemma DecidedStep(c: Classifiers, s: Flow, a: Action, key: Key)
    requires key in s.rows && s.rows[key].status != NEEDS_HUMAN_REVIEW && Unforced(s, [a], key)
    ensures
      var t := Step(c, s, a);
      && key in t.rows && t.rows[key].status != NEEDS_HUMAN_REVIEW
      && (!Touches(a, key) ==> t.rows[key] == s.rows[key])
      && CallsFor(t.calls, key) == CallsFor(s.calls, key)
  {
    hide Step, Unforced, CallsFor;
    SettledCostsNothing(c, s, a, key);
    if Touches(a, key) {
      TouchedStaysDecided(c, s, a.op, key);
    } else {
      SettledRowChangesExactly(c, s, a, key);
    }
  }

  /**
   A row that is not up for review (ready, edited, sent, or needing no reply) is changed by no
   unforced refresh, however many overlap, and costs no further model call: only a person's edit
   or send moves it.
   */
  lemma {:induction false} DecidedRowsStand(c: Classifiers, s: Flow, actions: seq<Action>, key: Key)
    requires key in s.rows && s.rows[key].status != NEEDS_HUMAN_REVIEW && Unforced(s, actions, key)
    ensures
      var t := Run(c, s, actions);
      && key in t.rows && t.rows[key].status != NEEDS_HUMAN_REVIEW
      && ((forall i :: 0 <= i < |actions| ==> !Touches(actions[i], key)) ==> t.rows[key] == s.rows[key])
      && CallsFor(t.calls, key) == CallsFor(s.calls, key)
  {
    hide Step, Unforced;
    if actions != [] {
      var n := |actions| - 1;
      UnforcedParts(c, s, actions, key);
      DecidedRowsStand(c, s, actions[..n], key);
      DecidedStep(c, Run(c, s, actions[..n]), actions[n], key);
    }
  }

  // -- what it costs -----------------------------------------------------

  predicate Flies(p: Pass, key: Key) {
    p.key == key && p.stage != Finished
  }

  function InFlight(s: Flow, key: Key): nat {
    Count(s.passes, (p: Pass) => Flies(p, key))
  }

  /** In flight with an outcome that settles the state, and with one that does not. */
  function ToSettle(s: Flow, key: Key): nat {
    Count(s.passes, (p: Pass) => Flies(p, key) && IsSettled(p.outcome))
  }

  function ToFail(s: Flow, key: Key): nat {
    Count(s.passes, (p: Pass) => Flies(p, key) && !IsSettled(p.outcome))
  }

  /** The steps at which the state was settled and then was not. */
  function Unsettlings(c: Classifiers, actions: seq<Action>, key: Key): nat {
    if actions == [] then 0
    else
      var before, after := Run(c, NOTHING, actions[..|actions| - 1]).rows, Run(c, NOTHING, actions).rows;
      Unsettlings(c, actions[..|actions| - 1], key) + if SettledIn(before, key) && !SettledIn(after, key) then 1 else 0
  }

  function Times(w: nat, u: nat): nat {
    w * u
  }

  lemma TimesNext(w: nat, u: nat)
    ensures Times(w, 0) == 0 && Times(w, u + 1) == Times(w, u) + w
  {
    assert w * (u + 1) == w * u + w;
  }

  /** At every moment at most `w` calls for this state are under way. */
  ghost predicate AtMost(c: Classifiers, actions: seq<Action>, key: Key, w: nat) {
    forall n: nat :: n <= |actions| ==> InFlight(Run(c, NOTHING, actions[..n]), key) <= w
  }

  lemma AtMostBefore(c: Classifiers, actions: seq<Action>, key: Key, w: nat, n: nat)
    requires AtMost(c, actions, key, w) && n <= |actions|
    ensures AtMost(c, actions[..n], key, w) && InFlight(Run(c, NOTHING, actions[..n]), key) <= w
  {
    forall m: nat | m <= n ensures InFlight(Run(c, NOTHING, actions[..n][..m]), key) <= w {
      assert actions[..n][..m] == actions[..m];
    }
  }

  /** The settling calls made so far are paid for by phases of `w`; so are the unsettlings by failures. */
  ghost predicate Paid(s: Flow, key: Key, w: nat, u: nat) {
    && FailuresFor(s.calls, key) <= CallsFor(s.calls, key)
    && CallsFor(s.calls, key) <= FailuresFor(s.calls, key) + Times(w, u) + (if SettledIn(s.rows, key) then w else ToSettle(s, key))
    && u + ToFail(s, key) <= FailuresFor(s.calls, key)
  }

  lemma Counts(s: Flow, key: Key)
    ensures ToSettle(s, key) <= InFlight(s, key)
  {
    CountMonotone(s.passes, (p: Pass) => Flies(p, key) && IsSettled(p.outcome), (p: Pass) => Flies(p, key));
  }

  lemma LookCounts(s: Flow, p: Pass, key: Key)
    ensures
      var t := s.(passes := s.passes + [p]);
      && ToSettle(t, key) == ToSettle(s, key) + (if Flies(p, key) && IsSettled(p.outcome) then 1 else 0)
      && ToFail(t, key) == ToFail(s, key) + (if Flies(p, key) && !IsSettled(p.outcome) then 1 else 0)
      && InFlight(t, key) == InFlight(s, key) + (if Flies(p, key) then 1 else 0)
  {
    CountAppend(s.passes, p, (p: Pass) => Flies(p, key) && IsSettled(p.outcome));
    CountAppend(s.passes, p, (p: Pass) => Flies(p, key) && !IsSettled(p.outcome));
    CountAppend(s.passes, p, (p: Pass) => Flies(p, key));
  }

  lemma ActCounts(s: Flow, k: nat, key: Key)
    requires k < |s.passes|
    ensures
      var p, t := s.passes[k], Acted(s, k);
      var q := t.passes[k];
      && ToSettle(t, key) + (if Flies(p, key) && IsSettled(p.outcome) then 1 else 0) ==
         ToSettle(s, key) + (if Flies(q, key) && IsSettled(p.outcome) then 1 else 0)
      && ToFail(t, key) + (if Flies(p, key) && !IsSettled(p.outcome) then 1 else 0) ==
         ToFail(s, key) + (if Flies(q, key) && !IsSettled(p.outcome) then 1 else 0)
  {
    var q := Acted(s, k).passes[k];
    assert q.outcome == s.passes[k].outcome;
    assert s.passes[k := s.passes[k]] == s.passes;
    CountUpdate(s.passes, k, q, (p: Pass) => Flies(p, key) && IsSettled(p.outcome));
    CountUpdate(s.passes, k, q, (p: Pass) => Flies(p, key) && !IsSettled(p.outcome));
  }

  /** A pass that starts with its call, if it made one, and for an unsettled state. */
  lemma PaidPass(s: Flow, call: Option<ModelCall>, p: Pass, key: Key, w: nat, u: nat)
    requires Paid(s, key, w, u) && p.stage == Recording && (p.key == key ==> !SettledIn(s.rows, key))
    requires call.Some? ==> call.value.key == p.key && call.value.written == p.outcome
    requires call.None? ==> IsSettled(p.outcome)
    ensures Paid(s.(calls := s.calls + (if call.Some? then [call.value] else []), passes := s.passes + [p]), key, w, u)
  {
    LookCounts(s, p, key);
    if call.Some? { CallsAppend(s.calls, call.value, key); } else { assert s.calls + [] == s.calls; }
    hide ToSettle, ToFail, InFlight, CallsFor, FailuresFor, Times, IsSettled, SettledIn;
  }

  lemma PaidLook(c: Classifiers, s: Flow, v: Visit, key: Key, w: nat, u: nat)
    requires Paid(s, key, w, u) && InFlight(s, key) <= w && Unforced(s, [Look(v)], key)
    ensures Paid(Step(c, s, Look(v)), key, w, u) && (SettledIn(s.rows, key) <==> SettledIn(Step(c, s, Look(v)).rows, key))
  {
    assert [Look(v)][0] == Look(v);
    if Planned(c, s.rows, v).Some? {
      var p := Planned(c, s.rows, v).value;
      LookedOnce(c, s.rows, v);
      hide Planned, IsSettled, SettledIn, Paid;
      PaidPass(s, p.call, Pass(p.key, p.force, p.outcome, Recording), key, w, u);
    }
  }

  /** What a look plans: an outcome of its own call, or a settled one without any. */
  lemma LookedOnce(c: Classifiers, rows: Rows, v: Visit)
    requires Planned(c, rows, v).Some?
    ensures
      var p := Planned(c, rows, v).value;
      && v.fetched.Some? && p.key == Key(v.conversationRef, v.fetched.value.messages)
      && (!v.force ==> !p.force && !SettledIn(rows, p.key))
      && (p.call.Some? ==> p.call.value.key == p.key && p.call.value.written == p.outcome)
      && (p.call.None? ==> IsSettled(p.outcome))
  {
    PlannedOk(c, rows, v, []);
    PlannedIsUnsettled(c, rows, v);
    hide Planned, IsSettled, CallOk, RowOk, Analyse;
  }

  lemma PaidAct(s: Flow, k: nat, key: Key, w: nat, u: nat)
    requires Paid(s, key, w, u) && InFlight(s, key) <= w && k < |s.passes|
    requires s.passes[k].key == key ==> !s.passes[k].force && s.passes[k].stage != Replacing
    ensures Paid(Acted(s, k), key, w, u + if SettledIn(s.rows, key) && !SettledIn(Acted(s, k).rows, key) then 1 else 0)
  {
    TimesNext(w, u);
    Counts(s, key);
    hide ToSettle, ToFail, InFlight, CallsFor, FailuresFor, Times;
    ActCounts(s, k, key);
  }

  /** A person's edit or send leaves a settled state settled. */
  lemma PaidTouch(c: Classifiers, s: Flow, op: Op, key: Key, w: nat, u: nat)
    requires Paid(s, key, w, u) && InFlight(s, key) <= w
    ensures Paid(Step(c, s, Touch(op)), key, w, u)
    ensures SettledIn(s.rows, key) ==> SettledIn(Step(c, s, Touch(op)).rows, key)
  {
    Counts(s, key);
    hide CallsFor, FailuresFor, Times, Count;
  }

  lemma PaidStep(c: Classifiers, s: Flow, a: Action, key: Key, w: nat, u: nat)
    requires Paid(s, key, w, u) && InFlight(s, key) <= w && Unforced(s, [a], key)
    ensures
      var t := Step(c, s, a);
      Paid(t, key, w, u + if SettledIn(s.rows, key) && !SettledIn(t.rows, key) then 1 else 0)
  {
    hide Planned, Acted, SettledIn, Paid, InFlight, Apply;
    match a
    case Look(v) => PaidLook(c, s, v, key, w, u);
    case Act(k) => if k < |s.passes| { PaidAct(s, k, key, w, u); }
    case Touch(op) => PaidTouch(c, s, op, key, w, u);
  }

  /** A refresh that is not forced goes on only where the state is not settled. */
  lemma PlannedIsUnsettled(c: Classifiers, rows: Rows, v: Visit)
    requires Planned(c, rows, v).Some?
    ensures
      var p := Planned(c, rows, v).value;
      && v.fetched.Some? && p.key == Key(v.conversationRef, v.fetched.value.messages)
      && (!v.force ==> !p.force && !SettledIn(rows, p.key))
  {
    hide Analyse, Escalation, Drafted, IsSettled;
  }

  lemma {:induction false} CallsArePaid(c: Classifiers, actions: seq<Action>, key: Key, w: nat)
    requires Unforced(NOTHING, actions, key) && AtMost(c, actions, key, w)
    ensures Paid(Run(c, NOTHING, actions), key, w, Unsettlings(c, actions, key))
  {
    if actions == [] {
      TimesNext(w, 0);
    } else {
      hide Step, Paid, InFlight, AtMost, Unforced;
      var n := |actions| - 1;
      AtMostBefore(c, actions, key, w, n);
      UnforcedParts(c, NOTHING, actions, key);
      CallsArePaid(c, actions[..n], key, w);
      PaidStep(c, Run(c, NOTHING, actions[..n]), actions[n], key, w, Unsettlings(c, actions[..n], key));
    }
  }

  /**
   What overlap costs: with at most `w` calls for a state under way at a time, nobody regenerating
   it, its model calls are those that failed and `w` for each time it had to be settled; and it
   has to be settled again only after a failure.
   */
  lemma OverlapIsBounded(c: Classifiers, actions: seq<Action>, key: Key, w: nat)
    requires Unforced(NOTHING, actions, key) && AtMost(c, actions, key, w)
    ensures
      var calls, u := Run(c, NOTHING, actions).calls, Unsettlings(c, actions, key);
      && CallsFor(calls, key) <= FailuresFor(calls, key) + Times(w, 1 + u)
      && u <= FailuresFor(calls, key)
  {
    hide Run, InFlight, AtMost, ToSettle, CallsFor, FailuresFor, Times, Unsettlings;
    var s, u := Run(c, NOTHING, actions), Unsettlings(c, actions, key);
    CallsArePaid(c, actions, key, w);
    AtMostBefore(c, actions, key, w, |actions|);
    assert actions[..|actions|] == actions;
    Counts(s, key);
    TimesNext(w, u);
  }

  // -- and when it costs nothing -----------------------------------------

  /** Alone under way, a call has no escalated draft before it. */
  ghost predicate Clear(s: Flow, key: Key) {
    InFlight(s, key) > 0 ==> !(SettledIn(s.rows, key) && s.rows[key].status == NEEDS_HUMAN_REVIEW)
  }

  lemma {:induction false} FliesIsCounted(passes: seq<Pass>, key: Key, k: nat)
    requires k < |passes| && Flies(passes[k], key)
    ensures Count(passes, (p: Pass) => Flies(p, key)) > 0
  {
    if k > 0 {
      FliesIsCounted(passes[1..], key, k - 1);
    }
  }

  lemma ClearStep(c: Classifiers, s: Flow, a: Action, key: Key)
    requires Clear(s, key) && InFlight(s, key) <= 1 && InFlight(Step(c, s, a), key) <= 1 && Unforced(s, [a], key)
    ensures
      var t := Step(c, s, a);
      Clear(t, key) && (SettledIn(s.rows, key) ==> SettledIn(t.rows, key))
  {
    assert [a][0] == a;
    match a
    case Look(v) =>
      if Planned(c, s.rows, v).Some? {
        PlannedIsUnsettled(c, s.rows, v);
        var p := Planned(c, s.rows, v).value;
        hide Planned, IsSettled, InFlight;
        LookCounts(s, Pass(p.key, p.force, p.outcome, Recording), key);
      }
    case Act(k) =>
      if k < |s.passes| {
        var f := (p: Pass) => Flies(p, key);
        CountUpdate(s.passes, k, Acted(s, k).passes[k], f);
        if Flies(s.passes[k], key) { FliesIsCounted(s.passes, key, k); }
        hide Count;
      }
    case Touch(op) => hide Count;
  }

  lemma {:induction false} AloneStaysClear(c: Classifiers, actions: seq<Action>, key: Key)
    requires Unforced(NOTHING, actions, key) && AtMost(c, actions, key, 1)
    ensures Unsettlings(c, actions, key) == 0 && Clear(Run(c, NOTHING, actions), key)
  {
    if actions != [] {
      hide Step, InFlight, AtMost, Clear, Unforced;
      var n := |actions| - 1;
      AtMostBefore(c, actions, key, 1, n);
      AtMostBefore(c, actions, key, 1, |actions|);
      WholePrefix(actions);
      UnforcedParts(c, NOTHING, actions, key);
      AloneStaysClear(c, actions[..n], key);
      ClearStep(c, Run(c, NOTHING, actions[..n]), actions[n], key);
    }
  }

  /**
   One call for a state at a time, whatever goes on elsewhere: settled, it stays settled, and it
   costs one model call and one more for each that failed.  So a state that is unsettled again,
   or costs more than that, had two calls under way at once.
   */
  lemma OneAtATimeSettlesOnce(c: Classifiers, actions: seq<Action>, key: Key)
    requires Unforced(NOTHING, actions, key) && AtMost(c, actions, key, 1)
    ensures
      var s := Run(c, NOTHING, actions);
      Unsettlings(c, actions, key) == 0 && CallsFor(s.calls, key) <= FailuresFor(s.calls, key) + 1
  {
    hide Run, AtMost, Unforced, CallsFor, FailuresFor, Unsettlings, Clear, InFlight;
    AloneStaysClear(c, actions, key);
    OverlapIsBounded(c, actions, key, 1);
  }

  /**
   Two that overlap: both find the state empty; the first records an escalated draft; the model
   call of the second fails, and it wipes the draft out; and a third, which overlaps neither, asks
   the model once more.
   */
  lemma FailureUnsettles(c: Classifiers, v: Visit, text: string, run: Option<string>)
    requires !v.force && v.fetched.Some? && v.answer == Answered(text, true, run) && text != "" && !c.isSilence(text)
    requires
      var a := Analyse(c, v.fetched.value.messages);
      a.verdict == ReplyNeeded && Escalation(c, a, v.fetched.value, v.sameDayCheckout).Some?
    ensures
      var key, failed := Key(v.conversationRef, v.fetched.value.messages), v.(answer := AgentRaised);
      var s := Run(c, NOTHING, [Look(v), Look(failed), Act(0)]);
      var t := Run(c, NOTHING, [Look(v), Look(failed), Act(0), Act(1)]);
      var calls := Run(c, NOTHING, [Look(v), Look(failed), Act(0), Act(1)] + [Look(v)]).calls;
      && SettledIn(s.rows, key) && Truthy(s.rows[key].message)
      && !SettledIn(t.rows, key) && InFlight(t, key) == 0
      && CallsFor(calls, key) == 3 && FailuresFor(calls, key) == 1
  {
    hide Analyse, Escalation, Run;
    var key, failed := Key(v.conversationRef, v.fetched.value.messages), v.(answer := AgentRaised);
    var escalate := Escalation(c, Analyse(c, key.messages), v.fetched.value, v.sameDayCheckout);
    var good, bad := Drafted(c, Analyse(c, key.messages), escalate, false, v.answer), Draft(NEEDS_HUMAN_REVIEW, None, None, ModelFailed, None);
    var first, second := ModelCall(key, false, escalate, good), ModelCall(key, false, escalate, bad);
    var p, q := Pass(key, false, good, Recording), Pass(key, false, bad, Recording);
    var p', q' := p.(stage := Finished), q.(stage := Finished);
    PlansAre(c, v, map[], text, run);
    PlansAre(c, v, map[key := bad], text, run);
    hide Planned, Drafted, InFlight, CallsFor, FailuresFor;
    FourSteps(c, Look(v), Look(failed), Act(0), Act(1));
    assert [first] + [second] == [first, second] && [] + [first] == [first];
    assert Step(c, NOTHING, Look(v)) == Flow(map[], [first], [p]);
    assert Run(c, NOTHING, [Look(v), Look(failed)]) == Flow(map[], [first, second], [p, q]);
    assert Run(c, NOTHING, [Look(v), Look(failed), Act(0)]) == Flow(map[key := good], [first, second], [p', q]);
    var t := Flow(map[key := bad], [first, second], [p', q']);
    assert Run(c, NOTHING, [Look(v), Look(failed), Act(0), Act(1)]) == t;
    NoneIsUnderWay(t, key);
    RunGrows(c, NOTHING, [Look(v), Look(failed), Act(0), Act(1)], Look(v));
    ThreeCalls(first, second, key);
  }

  lemma NoneIsUnderWay(s: Flow, key: Key)
    requires forall k :: 0 <= k < |s.passes| ==> !Flies(s.passes[k], key)
    ensures InFlight(s, key) == 0
  {
    CountNone(s.passes, (p: Pass) => Flies(p, key));
  }

  lemma ThreeCalls(good: ModelCall, bad: ModelCall, key: Key)
    requires good.key == key && bad.key == key && IsSettled(good.written) && !IsSettled(bad.written)
    ensures CallsFor([good, bad] + [good], key) == 3 && FailuresFor([good, bad] + [good], key) == 1
  {
    hide CallsFor, FailuresFor, IsSettled;
    CallsAppend([], good, key);
    CallsAppend([good], bad, key);
    CallsAppend([good, bad], good, key);
    assert [] + [good] == [good] && [good] + [bad] == [good, bad];
    NoCalls(key);
  }

  lemma NoCalls(key: Key)
    ensures CallsFor([], key) == 0 && FailuresFor([], key) == 0
  {
  }

  lemma PlansAre(c: Classifiers, v: Visit, rows: Rows, text: string, run: Option<string>)
    requires !v.force && v.fetched.Some? && v.answer == Answered(text, true, run) && text != "" && !c.isSilence(text)
    requires
      var a := Analyse(c, v.fetched.value.messages);
      a.verdict == ReplyNeeded && Escalation(c, a, v.fetched.value, v.sameDayCheckout).Some?
    requires !SettledIn(rows, Key(v.conversationRef, v.fetched.value.messages))
    ensures
      var key := Key(v.conversationRef, v.fetched.value.messages);
      var a := Analyse(c, key.messages);
      var escalate := Escalation(c, a, v.fetched.value, v.sameDayCheckout);
      var good, bad := Drafted(c, a, escalate, false, v.answer), Draft(NEEDS_HUMAN_REVIEW, None, None, ModelFailed, None);
      && Planned(c, rows, v) == Some(Plan(key, good, false, Some(ModelCall(key, false, escalate, good))))
      && Planned(c, rows, v.(answer := AgentRaised)) == Some(Plan(key, bad, false, Some(ModelCall(key, false, escalate, bad))))
      && good.status == NEEDS_HUMAN_REVIEW && good.message == Some(text) && IsSettled(good) && !IsSettled(bad)
  {
    hide Analyse, Escalation;
  }

  // -- what is written, all the same -------------------------------------

  ghost predicate FlowOk(c: Classifiers, s: Flow) {
    && Inv(c, DraftSafety.State(s.rows, s.calls))
    && forall k :: 0 <= k < |s.passes| ==> RowOk(c, s.passes[k].key, s.passes[k].outcome, s.calls)
  }

  lemma FlowStep(c: Classifiers, s: Flow, a: Action)
    requires FlowOk(c, s)
    ensures FlowOk(c, Step(c, s, a))
  {
    hide RowOk, CallOk, Analyse, IsSettled;
    var t := Step(c, s, a);
    match a
    case Look(v) =>
      if Planned(c, s.rows, v).Some? {
        PlannedOk(c, s.rows, v, s.calls);
        hide Planned;
        var p := Planned(c, s.rows, v).value;
        var more := if p.call.Some? then [p.call.value] else [];
        forall k | k in s.rows ensures RowOk(c, k, s.rows[k], t.calls) {
          MoreCalls(c, k, s.rows[k], s.calls, more);
        }
        forall k | 0 <= k < |s.passes| ensures RowOk(c, s.passes[k].key, s.passes[k].outcome, t.calls) {
          MoreCalls(c, s.passes[k].key, s.passes[k].outcome, s.calls, more);
        }
      }
    case Act(k) =>
    case Touch(op) => if !op.Visiting? { ApplyKeepsInv(c, DraftSafety.State(s.rows, s.calls), op); }
  }

  lemma {:induction false} RunKeepsFlow(c: Classifiers, actions: seq<Action>)
    ensures FlowOk(c, Run(c, NOTHING, actions))
  {
    hide Step, RowOk, CallOk;
    if actions != [] {
      RunKeepsFlow(c, actions[..|actions| - 1]);
      FlowStep(c, Run(c, NOTHING, actions[..|actions| - 1]), actions[|actions| - 1]);
    }
  }

  /**
   However refreshes overlap, a state that is owed a reply is never stored as needing none, and a
   ready draft was written by a call with nothing to escalate and passes both policy checks, with
   nothing open that is the owner's to decide.
   */
  lemma OverlapSilencesNobody(c: Classifiers, actions: seq<Action>, key: Key)
    requires key in Run(c, NOTHING, actions).rows
    ensures
      var s := Run(c, NOTHING, actions);
      && (s.rows[key].status == NO_REPLY_NEEDED ==>
            forall j: nat :: StillOpen(key.messages, j) ==>
              c.actionable(key.messages[j].text) == {} && c.closing(key.messages[j].text))
      && (s.rows[key].status == DRAFT_READY ==>
            && (exists j: nat :: StillOpen(key.messages, j))
            && (forall j: nat :: StillOpen(key.messages, j) ==>
                  !c.exceedsCeiling(key.messages[j].text) && !c.stayExtension(key.messages[j].text))
            && exists i :: 0 <= i < |s.calls| && ClearCall(c, s.calls[i], key, s.rows[key]))
  {
    hide Run;
    RunKeepsFlow(c, actions);
    var s := Run(c, NOTHING, actions);
    assert RowOk(c, key, s.rows[key], s.calls);
    if s.rows[key].status == DRAFT_READY {
      var i :| 0 <= i < |s.calls| && ClearCall(c, s.calls[i], key, s.rows[key]);
      assert CallOk(c, s.calls[i]);
    }
  }
}
