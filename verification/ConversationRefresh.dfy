/**
 The one place a conversation gets processed: at most one model call for each state, and
 never silence for a guest who is owed a reply.
 */
module ConversationRefresh {
  import opened Wrappers
  import opened Hospitality
  import opened Drafts

  datatype Conversation = Conversation(messages: seq<ChatMessage>, bookingCancelled: Option<bool>)

  /** How the drafting run ended: its answer comes without surrounding blanks. */
  datatype ModelAnswer = AgentRaised | Answered(text: string, completed: bool, runId: Option<string>)

  /** One call of `process`, with everything it meets outside. */
  datatype Visit = Visit(
    conversationRef: string,
    fetched: Option<Conversation>,
    force: bool,
    sameDayCheckout: Option<bool>,
    answer: ModelAnswer)

  /** One model call: the state it was for, whether it was to be escalated, and what was written. */
  datatype ModelCall = ModelCall(key: Key, forced: bool, escalate: Option<Reason>, written: Draft)

  const DEFAULT_SUBJECT := "Re: your message"

  function EarlyCheckInOutcome(sameDayCheckout: Option<bool>): Option<Reason> {
    match sameDayCheckout
    case Some(true) => None
    case Some(false) => Some(EarlyCheckInPossible)
    case None => Some(EarlyCheckInUnknown)
  }

  /** `cancellation.outcome_for`: it reads every guest message, open or not. */
  function CancellationOutcome(c: Classifiers, v: Conversation): Option<Reason> {
    var guest := RenterTexts(v.messages);
    if AnyText(guest, c.mechanics) then Some(CancellationMechanics)
    else if v.bookingCancelled == Some(true) && AnyText(guest, c.acceptsOffer) then Some(OfferAccepted)
    else None
  }

  /** Whether the reply is to be escalated, and the reason that is shown: the last to apply. */
  function Escalation(c: Classifiers, a: Analysis, conversation: Conversation, sameDayCheckout: Option<bool>)
    : Option<Reason>
  {
    var cancellation := CancellationOutcome(c, conversation);
    if cancellation.Some? then cancellation
    else if a.stayExtensionRequested then Some(StayExtension)
    else if a.earlyCheckInRequested && EarlyCheckInOutcome(sameDayCheckout).Some? then EarlyCheckInOutcome(sameDayCheckout)
    else if a.ownerApprovalRequired then Some(LateCheckout)
    else None
  }

  /** What `_draft` makes of the model's answer. */
  function Drafted(c: Classifiers, a: Analysis, escalate: Option<Reason>, force: bool, answer: ModelAnswer): Draft {
    match answer
    case AgentRaised => Draft(NEEDS_HUMAN_REVIEW, None, None, ModelFailed, None)
    case Answered(text, completed, runId) =>
      if c.isSilence(text) then
        if a.verdict == ReplyNeeded then
          Draft(NEEDS_HUMAN_REVIEW, None, None,
                if force then RetriedSilence(a.openSignals) else ConflictedSilence(a.openSignals), runId)
        else Draft(NO_REPLY_NEEDED, None, None, Closing, runId)
      else if text == "" || !completed then Draft(NEEDS_HUMAN_REVIEW, None, None, EmptyDraft, runId)
      else if escalate.Some? || c.exceedsCeiling(text) || c.violation(text).Some? then
        Draft(NEEDS_HUMAN_REVIEW, Some(DEFAULT_SUBJECT), Some(text),
              Escalated(if escalate.Some? then escalate.value
                        else if c.violation(text).Some? then PolicyViolation(c.violation(text).value)
                        else LatePromise), runId)
      else Draft(DRAFT_READY, Some(DEFAULT_SUBJECT), Some(text), NoDetail, runId)
  }

  /** `_record`: a forced outcome also replaces a row that was there. */
  function Stored(rows: Rows, key: Key, d: Draft, force: bool): Rows {
    if force && key in rows then rows[key := d] else Recorded(rows, key, d)
  }

  /** What a call of `process` goes on to write, and the model call behind it. */
  datatype Plan = Plan(key: Key, outcome: Draft, force: bool, call: Option<ModelCall>)

  /** `process` up to the recording: the rows it reads only tell whether the state is settled. */
  function Planned(c: Classifiers, rows: Rows, v: Visit): Option<Plan> {
    if v.fetched.None? then None
    else
      var key := Key(v.conversationRef, v.fetched.value.messages);
      if key in rows && IsSettled(rows[key]) && !v.force then None
      else
        var a := Analyse(c, key.messages);
        if a.verdict == NoReplyNeeded && !v.force then
          Some(Plan(key, Draft(NO_REPLY_NEEDED, None, None, Closing, None), false, None))
        else if a.verdict == AlreadyReplied then
          Some(Plan(key, Draft(NO_REPLY_NEEDED, None, None, RepliedAlready, None), false, None))
        else
          var escalate := Escalation(c, a, v.fetched.value, v.sameDayCheckout);
          var d := Drafted(c, a, escalate, v.force, v.answer);
          Some(Plan(key, d, v.force, Some(ModelCall(key, v.force, escalate, d))))
  }

  /** `process` with nobody in between: the new rows, and the model call if one was made. */
  function Process(c: Classifiers, rows: Rows, v: Visit): (Rows, Option<ModelCall>) {
    match Planned(c, rows, v)
    case None => (rows, None)
    case Some(p) => (Stored(rows, p.key, p.outcome, p.force), p.call)
  }

  // -- the service -------------------------------------------------------

  class ConversationRefreshService {
    const classifiers: Classifiers
    const drafts: DraftStore
    ghost var calls: seq<ModelCall>

    ghost predicate Valid()
      reads this, drafts
    {
      drafts.Valid()
    }

    constructor (classifiers: Classifiers, drafts: DraftStore)
      requires drafts.Valid()
      ensures Valid() && this.classifiers == classifiers && this.drafts == drafts && calls == []
    {
      this.classifiers, this.drafts := classifiers, drafts;
      calls := [];
    }

    /** `_record`. */
    method Record(key: Key, d: Draft, force: bool) returns (draft: Draft, created: bool)
      requires Valid()
      modifies drafts
      ensures Valid() && drafts.rows == Stored(old(drafts.rows), key, d, force)
    {
      draft, created := drafts.RecordOutcome(key, d);
      if force && !created {
        draft := drafts.Replace(key, d);
      }
    }

    /** `process`, its escalation decided topic by topic. */
    method ProcessConversation(v: Visit) returns (modelCalled: bool, skipped: bool)
      requires Valid()
      modifies this`calls, drafts
      ensures Valid()
      ensures
        var (rows, call) := Process(classifiers, old(drafts.rows), v);
        && drafts.rows == rows && modelCalled == call.Some?
        && calls == old(calls) + if call.Some? then [call.value] else []
      ensures skipped ==> drafts.rows == old(drafts.rows) && !modelCalled
    {
      hide Analyse, Drafted, Recorded;
      modelCalled, skipped := false, false;
      if v.fetched.None? {
        return false, true;
      }
      var conversation := v.fetched.value;
      var key := Key(v.conversationRef, conversation.messages);
      if key in drafts.rows && IsSettled(drafts.rows[key]) && !v.force {
        return false, true;
      }
      var analysis := Analyse(classifiers, conversation.messages);
      var draft, created;
      if analysis.verdict == NoReplyNeeded && !v.force {
        draft, created := Record(key, Draft(NO_REPLY_NEEDED, None, None, Closing, None), false);
        return;
      }
      if analysis.verdict != ReplyNeeded && analysis.verdict != NoReplyNeeded {
        draft, created := Record(key, Draft(NO_REPLY_NEEDED, None, None, RepliedAlready, None), false);
        return;
      }
      var escalate := analysis.ownerApprovalRequired;
      var reason := LateCheckout;
      if analysis.earlyCheckInRequested {
        var early := EarlyCheckInOutcome(v.sameDayCheckout);
        if early.Some? {
          escalate, reason := true, early.value;
        }
      }
      if analysis.stayExtensionRequested {
        escalate, reason := true, StayExtension;
      }
      var cancellation := CancellationOutcome(classifiers, conversation);
      if cancellation.Some? {
        escalate, reason := true, cancellation.value;
      }
      var why := if escalate then Some(reason) else None;
      var d := Drafted(classifiers, analysis, why, v.force, v.answer);
      draft, created := Record(key, d, v.force);
      calls := calls + [ModelCall(key, v.force, why, d)];
      modelCalled := true;
    }
  }
}
