/** What holds over every sequence of refreshes, edits and sends. */
module DraftSafety {
  import opened Wrappers
  import opened Hospitality
  import opened Drafts
  import opened ConversationRefresh

  datatype Op =
    | Visiting(visit: Visit)
    | Editing(key: Key, subject: Option<string>, message: Option<string>)
    | Sending(key: Key)

  /** The rows, and every model call made so far. */
  datatype State = State(rows: Rows, calls: seq<ModelCall>)

  const EMPTY := State(map[], [])

  function Apply(c: Classifiers, s: State, op: Op): State {
    match op
    case Visiting(v) =>
      var (rows, call) := Process(c, s.rows, v);
      State(rows, s.calls + if call.Some? then [call.value] else [])
    case Editing(key, subject, message) =>
      var rows := Edited(s.rows, key, subject, message);
      if rows.Some? then s.(rows := rows.value) else s
    case Sending(key) =>
      var rows := MarkedSent(s.rows, key);
      if rows.Some? then s.(rows := rows.value) else s
  }

  function Exec(c: Classifiers, s: State, ops: seq<Op>): State {
    if ops == [] then s else Apply(c, Exec(c, s, ops[..|ops| - 1]), ops[|ops| - 1])
  }

  /** A Regenerate of just this state. */
  predicate Forces(op: Op, key: Key) {
    op.Visiting? && op.visit.force && op.visit.fetched.Some?
    && Key(op.visit.conversationRef, op.visit.fetched.value.messages) == key
  }

  function CallsFor(calls: seq<ModelCall>, key: Key): nat {
    if calls == [] then 0
    else CallsFor(calls[..|calls| - 1], key) + if calls[|calls| - 1].key == key then 1 else 0
  }

  /** Calls for the state that left no text and no decision behind. */
  function FailuresFor(calls: seq<ModelCall>, key: Key): nat {
    if calls == [] then 0
    else
      var last := calls[|calls| - 1];
      FailuresFor(calls[..|calls| - 1], key) + if last.key == key && !IsSettled(last.written) then 1 else 0
  }

  // -- idempotence -------------------------------------------------------

  /** An unforced refresh changes at most its own state's row, and that only while it is unsettled. */
  lemma UnforcedTouchesOnlyItsOwn(c: Classifiers, rows: Rows, v: Visit, k: Key)
    requires !v.force
    ensures
      var after := Process(c, rows, v).0;
      var own := v.fetched.Some? && k == Key(v.conversationRef, v.fetched.value.messages);
      && (!own ==> (k in after <==> k in rows) && (k in rows ==> after[k] == rows[k]))
      && (k in rows && IsSettled(rows[k]) ==> k in after && after[k] == rows[k])
  {
    hide Analyse, Drafted, Escalation;
  }

  lemma CallsAppend(calls: seq<ModelCall>, call: ModelCall, key: Key)
    ensures CallsFor(calls + [call], key) == CallsFor(calls, key) + if call.key == key then 1 else 0
    ensures FailuresFor(calls + [call], key) ==
            FailuresFor(calls, key) + if call.key == key && !IsSettled(call.written) then 1 else 0
  {
    assert (calls + [call])[..|calls|] == calls;
  }

  /** One operation on a settled state that nobody regenerates: it stays settled and asks nothing. */
  lemma SettledStep(c: Classifiers, s: State, op: Op, key: Key)
    requires key in s.rows && IsSettled(s.rows[key]) && !Forces(op, key)
    ensures
      var t := Apply(c, s, op);
      && key in t.rows && IsSettled(t.rows[key]) && CallsFor(t.calls, key) == CallsFor(s.calls, key)
      && (op.Visiting? ==> t.rows[key] == s.rows[key])
  {
    hide Analyse, Drafted, Escalation;
    if op.Visiting? {
      var call := Process(c, s.rows, op.visit).1;
      assert s.calls + [] == s.calls;
      if call.Some? {
        CallsAppend(s.calls, call.value, key);
      }
    }
  }

  /** Once a state is settled, no later operation but its own Regenerate makes another model call for it. */
  lemma {:induction false} SettledStatesCostNothing(c: Classifiers, s: State, ops: seq<Op>, key: Key)
    requires key in s.rows && IsSettled(s.rows[key])
    requires forall i :: 0 <= i < |ops| ==> !Forces(ops[i], key)
    ensures
      var t := Exec(c, s, ops);
      key in t.rows && IsSettled(t.rows[key]) && CallsFor(t.calls, key) == CallsFor(s.calls, key)
  {
    hide Apply;
    if ops != [] {
      SettledStatesCostNothing(c, s, ops[..|ops| - 1], key);
      SettledStep(c, Exec(c, s, ops[..|ops| - 1]), ops[|ops| - 1], key);
    }
  }

  ghost predicate WithinBudget(s: State, key: Key) {
    && FailuresFor(s.calls, key) <= CallsFor(s.calls, key) <= FailuresFor(s.calls, key) + 1
    && (CallsFor(s.calls, key) > FailuresFor(s.calls, key) ==> key in s.rows && IsSettled(s.rows[key]))
  }

  lemma BudgetStep(c: Classifiers, s: State, op: Op, key: Key)
    requires WithinBudget(s, key) && !Forces(op, key)
    ensures WithinBudget(Apply(c, s, op), key)
  {
    hide Analyse, Drafted, Escalation;
    if op.Visiting? {
      var call := Process(c, s.rows, op.visit).1;
      assert s.calls + [] == s.calls;
      if call.Some? {
        CallsAppend(s.calls, call.value, key);
      }
    }
  }

  /** A state nobody regenerates costs one model call, and one more for each that failed without text. */
  lemma {:induction false} ModelCallsAreBounded(c: Classifiers, ops: seq<Op>, key: Key)
    requires forall i :: 0 <= i < |ops| ==> !Forces(ops[i], key)
    ensures WithinBudget(Exec(c, EMPTY, ops), key)
  {
    hide Apply, WithinBudget;
    if ops == [] {
      assert WithinBudget(EMPTY, key) by { WithinBudgetAtStart(key); }
    } else {
      ModelCallsAreBounded(c, ops[..|ops| - 1], key);
      BudgetStep(c, Exec(c, EMPTY, ops[..|ops| - 1]), ops[|ops| - 1], key);
    }
  }

  lemma WithinBudgetAtStart(key: Key)
    ensures WithinBudget(EMPTY, key)
  {
  }

  // -- what is written ---------------------------------------------------

  /** The one model call a ready draft came from: nothing to escalate, and text that passes both checks. */
  ghost predicate ClearCall(c: Classifiers, call: ModelCall, key: Key, d: Draft) {
    && call.key == key && call.escalate.None? && call.written == d
    && d.message.Some? && d.message.value != "" && d.subject == Some(DEFAULT_SUBJECT)
    && !c.exceedsCeiling(d.message.value) && c.violation(d.message.value).None?
    && !c.isSilence(d.message.value)
  }

  ghost predicate RowOk(c: Classifiers, key: Key, d: Draft, calls: seq<ModelCall>) {
    && (d.status == NO_REPLY_NEEDED ==> !Owed(c, key.messages))
    && (d.status == DRAFT_READY ==>
          AnyOpen(key.messages)
          && exists i :: 0 <= i < |calls| && ClearCall(c, calls[i], key, d))
  }

  /** What a guest asks of the owner, whatever else is known about the booking. */
  ghost predicate AsksOwner(c: Classifiers, messages: seq<ChatMessage>) {
    OpenSays(messages, c.exceedsCeiling) || OpenSays(messages, c.stayExtension) || GuestSays(messages, c.mechanics)
  }

  /** A model call is made for an open state only, and escalates what is the owner's to decide. */
  ghost predicate CallOk(c: Classifiers, call: ModelCall) {
    && AnyOpen(call.key.messages)
    && (AsksOwner(c, call.key.messages) ==> call.escalate.Some?)
    && (call.written.status == NO_REPLY_NEEDED ==> !Owed(c, call.key.messages))
  }

  ghost predicate Inv(c: Classifiers, s: State) {
    && (forall k :: k in s.rows ==> RowOk(c, k, s.rows[k], s.calls))
    && (forall i :: 0 <= i < |s.calls| ==> CallOk(c, s.calls[i]))
  }

  lemma MoreCalls(c: Classifiers, key: Key, d: Draft, calls: seq<ModelCall>, more: seq<ModelCall>)
    requires RowOk(c, key, d, calls)
    ensures RowOk(c, key, d, calls + more)
  {
    hide Analyse;
    if i :| 0 <= i < |calls| && ClearCall(c, calls[i], key, d) {
      assert (calls + more)[i] == calls[i];
    }
  }

  lemma OwnersAreAsked(c: Classifiers, conversation: Conversation, sameDayCheckout: Option<bool>)
    requires AsksOwner(c, conversation.messages)
    ensures Escalation(c, Analyse(c, conversation.messages), conversation, sameDayCheckout).Some?
  {
    FlagsMean(c, conversation.messages);
    GuestTexts(conversation.messages, c.mechanics);
    hide Analyse, OpenSays, GuestSays, AnyText, RenterTexts;
  }

  lemma PlannedCallOk(c: Classifiers, rows: Rows, v: Visit)
    requires Planned(c, rows, v).Some?
    ensures
      var p := Planned(c, rows, v).value;
      && (p.call.Some? ==> CallOk(c, p.call.value) && p.call.value.key == p.key && p.call.value.written == p.outcome)
      && (p.call.None? ==> !p.force && IsSettled(p.outcome))
  {
    var p := Planned(c, rows, v).value;
    VerdictMeans(c, p.key.messages);
    if AsksOwner(c, p.key.messages) { OwnersAreAsked(c, v.fetched.value, v.sameDayCheckout); }
    hide Analyse, Escalation, AsksOwner, Owed, AnyOpen;
  }

  /** What a visit goes on to write is right for its state, whatever the model answers and whoever asked. */
  lemma PlannedOk(c: Classifiers, rows: Rows, v: Visit, calls: seq<ModelCall>)
    requires Planned(c, rows, v).Some?
    ensures
      var p := Planned(c, rows, v).value;
      && (p.call.Some? ==> CallOk(c, p.call.value) && p.call.value.key == p.key && p.call.value.written == p.outcome)
      && (p.call.None? ==> !p.force && IsSettled(p.outcome))
      && RowOk(c, p.key, p.outcome, calls + if p.call.Some? then [p.call.value] else [])
  {
    PlannedCallOk(c, rows, v);
    VerdictMeans(c, Planned(c, rows, v).value.key.messages);
    hide Analyse, Escalation, CallOk, Owed, AnyOpen, IsSettled;
    var p := Planned(c, rows, v).value;
    if p.call.Some? {
      assert (calls + [p.call.value])[|calls|] == p.call.value;
      if p.outcome.status == DRAFT_READY {
        assert ClearCall(c, p.call.value, p.key, p.outcome);
      }
    }
  }

  lemma WrittenOk(c: Classifiers, rows: Rows, v: Visit, calls: seq<ModelCall>)
    requires Process(c, rows, v).1.Some?
    ensures
      var call := Process(c, rows, v).1.value;
      CallOk(c, call) && RowOk(c, call.key, call.written, calls + [call])
  {
    hide RowOk, CallOk, Analyse, Planned;
    PlannedOk(c, rows, v, calls);
  }

  lemma ApplyKeepsInv(c: Classifiers, s: State, op: Op)
    requires Inv(c, s)
    ensures Inv(c, Apply(c, s, op))
  {
    hide RowOk, CallOk, Analyse, Drafted, Escalation, IsSettled;
    var t := Apply(c, s, op);
    var more := if op.Visiting? && Process(c, s.rows, op.visit).1.Some? then [Process(c, s.rows, op.visit).1.value] else [];
    assert t.calls == s.calls + more;
    if more != [] {
      WrittenOk(c, s.rows, op.visit, s.calls);
    }
    forall k | k in t.rows ensures RowOk(c, k, t.rows[k], t.calls) {
      if k in s.rows && t.rows[k] == s.rows[k] {
        MoreCalls(c, k, s.rows[k], s.calls, more);
      } else if more == [] {
        QuietRowsOk(c, s, op, k);
      }
    }
  }

  /** A row written without the model is right for its state. */
  lemma QuietRowsOk(c: Classifiers, s: State, op: Op, k: Key)
    requires !op.Visiting? || Process(c, s.rows, op.visit).1.None?
    requires k in Apply(c, s, op).rows && (k in s.rows ==> Apply(c, s, op).rows[k] != s.rows[k])
    ensures RowOk(c, k, Apply(c, s, op).rows[k], Apply(c, s, op).calls)
  {
    VerdictMeans(c, k.messages);
    hide Analyse, Drafted, Escalation, IsSettled, Owed, AnyOpen;
  }

  lemma {:induction false} ExecKeepsInv(c: Classifiers, ops: seq<Op>)
    ensures Inv(c, Exec(c, EMPTY, ops))
  {
    hide Apply, RowOk, CallOk;
    if ops != [] {
      ExecKeepsInv(c, ops[..|ops| - 1]);
      ApplyKeepsInv(c, Exec(c, EMPTY, ops[..|ops| - 1]), ops[|ops| - 1]);
    }
  }

  /** A state that is owed a reply is never closed in silence. */
  lemma OwedRepliesAreNeverSilenced(c: Classifiers, ops: seq<Op>, key: Key)
    requires key in Exec(c, EMPTY, ops).rows && Owed(c, key.messages)
    ensures Exec(c, EMPTY, ops).rows[key].status != NO_REPLY_NEEDED
  {
    hide Exec, Owed;
    ExecKeepsInv(c, ops);
  }

  /**
   A ready draft was written by a model call with nothing to escalate, holds text that passes both
   policy checks, and answers a state in which something is open, but no check-out past the ceiling
   and no longer stay, and in which no guest message asks how a cancellation works.
   */
  lemma ReadyDraftsAreClear(c: Classifiers, ops: seq<Op>, key: Key) returns (i: nat)
    requires key in Exec(c, EMPTY, ops).rows && Exec(c, EMPTY, ops).rows[key].status == DRAFT_READY
    ensures var s := Exec(c, EMPTY, ops); i < |s.calls| && ClearCall(c, s.calls[i], key, s.rows[key])
    ensures exists j: nat :: StillOpen(key.messages, j)
    ensures forall j: nat :: StillOpen(key.messages, j) ==>
              !c.exceedsCeiling(key.messages[j].text) && !c.stayExtension(key.messages[j].text)
    ensures forall j: nat :: j < |key.messages| && key.messages[j].sender == Renter ==> !c.mechanics(key.messages[j].text)
  {
    hide Exec;
    ExecKeepsInv(c, ops);
    var s := Exec(c, EMPTY, ops);
    assert RowOk(c, key, s.rows[key], s.calls);
    i :| 0 <= i < |s.calls| && ClearCall(c, s.calls[i], key, s.rows[key]);
    assert CallOk(c, s.calls[i]);
  }

  /** A conversation whose last word is ours never reaches the model, forced or not. */
  lemma OurLastWordEndsIt(c: Classifiers, rows: Rows, v: Visit, messages: seq<ChatMessage>, ours: ChatMessage,
                          after: seq<ChatMessage>)
    requires ours.sender == Owner && forall m :: m in after ==> m.sender != Renter
    requires v.fetched.Some? && v.fetched.value.messages == messages + [ours] + after
    ensures Process(c, rows, v).1.None?
  {
    AnsweredClearsEverything(c, messages, after, ours);
    hide Analyse;
  }
}
