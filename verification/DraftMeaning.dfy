/** What one refresh writes, said of the messages and the model's answer alone. */
module DraftMeaning {
  import opened Wrappers
  import opened Hospitality
  import opened Drafts
  import opened ConversationRefresh

  /** Something the owner has to decide, and why. */
  ghost predicate ForOwner(c: Classifiers, conversation: Conversation, sameDayCheckout: Option<bool>, reason: Reason) {
    var messages := conversation.messages;
    match reason
    case CancellationMechanics => GuestSays(messages, c.mechanics)
    case OfferAccepted => conversation.bookingCancelled == Some(true) && GuestSays(messages, c.acceptsOffer)
    case StayExtension => OpenSays(messages, c.stayExtension)
    case EarlyCheckInPossible => OpenSays(messages, c.earlyCheckIn) && sameDayCheckout == Some(false)
    case EarlyCheckInUnknown => OpenSays(messages, c.earlyCheckIn) && sameDayCheckout == None
    case LateCheckout => OpenSays(messages, c.exceedsCeiling)
    case _ => false
  }

  /** Which reason is shown where several apply. */
  function Rank(reason: Reason): nat {
    match reason
    case CancellationMechanics => 5
    case OfferAccepted => 4
    case StayExtension => 3
    case EarlyCheckInPossible => 2
    case EarlyCheckInUnknown => 2
    case LateCheckout => 1
    case _ => 0
  }

  /** A reply is escalated exactly if something is the owner's to decide, for the first reason that applies. */
  lemma EscalationMeans(c: Classifiers, conversation: Conversation, sameDayCheckout: Option<bool>)
    ensures
      var e := Escalation(c, Analyse(c, conversation.messages), conversation, sameDayCheckout);
      && (e.None? <==> forall reason :: !ForOwner(c, conversation, sameDayCheckout, reason))
      && (e.Some? ==>
            && ForOwner(c, conversation, sameDayCheckout, e.value)
            && forall reason :: ForOwner(c, conversation, sameDayCheckout, reason) ==> Rank(reason) <= Rank(e.value))
  {
    var messages := conversation.messages;
    FlagsMean(c, messages);
    GuestTexts(messages, c.mechanics);
    GuestTexts(messages, c.acceptsOffer);
    hide Analyse, AnyText, RenterTexts, OpenSays, GuestSays;
    var e := Escalation(c, Analyse(c, messages), conversation, sameDayCheckout);
    if e.Some? {
      assert ForOwner(c, conversation, sameDayCheckout, e.value);
    }
  }

  /** A refresh goes on exactly if there is a thread and its state is unsettled or regenerated. */
  lemma VisitsGoOn(c: Classifiers, rows: Rows, v: Visit)
    ensures
      Planned(c, rows, v).Some? <==>
      v.fetched.Some? &&
      var key := Key(v.conversationRef, v.fetched.value.messages);
      v.force || key !in rows
      || (rows[key].status == NEEDS_HUMAN_REVIEW && (rows[key].message.None? || rows[key].message == Some("")))
  {
    hide Analyse, Drafted, Escalation;
  }

  /** And asks the model exactly if something is open that is not a mere closing, or anything is and a person asked again. */
  lemma ModelIsAsked(c: Classifiers, rows: Rows, v: Visit)
    requires Planned(c, rows, v).Some?
    ensures
      var p, messages := Planned(c, rows, v).value, v.fetched.value.messages;
      && p.key == Key(v.conversationRef, messages)
      && (p.call.Some? <==> Owed(c, messages) || (v.force && AnyOpen(messages)))
      && (p.call.None? ==>
            p.outcome == Draft(NO_REPLY_NEEDED, None, None, if AnyOpen(messages) then Closing else RepliedAlready, None))
      && (p.call.Some? ==> p.call.value.key == p.key && p.call.value.written == p.outcome && p.call.value.forced == v.force)
      && (p.force <==> v.force && p.call.Some?)
  {
    VerdictMeans(c, v.fetched.value.messages);
    hide Analyse, Drafted, Escalation, IsSettled;
    if Owed(c, v.fetched.value.messages) {
      assert AnyOpen(v.fetched.value.messages);
    }
  }

  /** A text that may go out as it is. */
  ghost predicate Sendable(c: Classifiers, text: string, completed: bool) {
    !c.isSilence(text) && text != "" && completed
  }

  /**
   What the answer comes to.  It is ready exactly if the run completed with a text, nothing is the
   owner's to decide, and the text passes both checks; it closes the state exactly if the model
   stays silent and nothing is owed; anything else is for review, with the text if there is one.
   */
  lemma AnswersAreKept(c: Classifiers, rows: Rows, v: Visit)
    requires Planned(c, rows, v).Some? && Planned(c, rows, v).value.call.Some?
    ensures
      var d := Planned(c, rows, v).value.outcome;
      match v.answer
      case AgentRaised => d == Draft(NEEDS_HUMAN_REVIEW, None, None, ModelFailed, None)
      case Answered(text, completed, run) =>
        && (d.status == DRAFT_READY <==>
              && Sendable(c, text, completed) && !c.exceedsCeiling(text) && c.violation(text).None?
              && forall reason :: !ForOwner(c, v.fetched.value, v.sameDayCheckout, reason))
        && (d.status == NO_REPLY_NEEDED <==> c.isSilence(text) && !Owed(c, v.fetched.value.messages))
        && (d.status == NEEDS_HUMAN_REVIEW <==> d.status != DRAFT_READY && d.status != NO_REPLY_NEEDED)
        && d.message == (if Sendable(c, text, completed) then Some(text) else None)
        && d.subject == (if Sendable(c, text, completed) then Some(DEFAULT_SUBJECT) else None)
        && d.sourceRun == run
  {
    var messages := v.fetched.value.messages;
    EscalationMeans(c, v.fetched.value, v.sameDayCheckout);
    VerdictMeans(c, messages);
    hide Analyse, Escalation, ForOwner, IsSettled, Owed, AnyOpen;
  }

  /** And the reason a person is shown is a true one. */
  lemma ReasonsAreTrue(c: Classifiers, rows: Rows, v: Visit)
    requires Planned(c, rows, v).Some? && Planned(c, rows, v).value.call.Some? && v.answer.Answered?
    ensures
      var d, text := Planned(c, rows, v).value.outcome, v.answer.text;
      && (d.detail.Escalated? ==>
            && Sendable(c, text, v.answer.completed)
            && match d.detail.reason
               case PolicyViolation(why) => c.violation(text) == Some(why)
               case LatePromise => c.exceedsCeiling(text) && c.violation(text).None?
               case reason => ForOwner(c, v.fetched.value, v.sameDayCheckout, reason))
      && (d.detail == EmptyDraft <==> !c.isSilence(text) && (text == "" || !v.answer.completed))
  {
    var e := Escalation(c, Analyse(c, v.fetched.value.messages), v.fetched.value, v.sameDayCheckout);
    EscalationMeans(c, v.fetched.value, v.sameDayCheckout);
    if e.Some? {
      OwnersReason(c, v.fetched.value, v.sameDayCheckout, e.value);
    }
    hide Analyse, Escalation, ForOwner, IsSettled;
  }

  /** A silence that is not accepted says what was open, and whether a person had already asked again. */
  lemma SilencesAreExplained(c: Classifiers, rows: Rows, v: Visit)
    requires Planned(c, rows, v).Some? && Planned(c, rows, v).value.call.Some? && v.answer.Answered?
    ensures
      var detail, messages := Planned(c, rows, v).value.outcome.detail, v.fetched.value.messages;
      && (detail.ConflictedSilence? || detail.RetriedSilence? <==> c.isSilence(v.answer.text) && Owed(c, messages))
      && (detail.RetriedSilence? ==> v.force) && (detail.ConflictedSilence? ==> !v.force)
      && (detail.ConflictedSilence? || detail.RetriedSilence? ==>
            forall x :: x in detail.open <==> exists i: nat :: StillOpen(messages, i) && x in c.actionable(messages[i].text))
  {
    var messages := v.fetched.value.messages;
    VerdictMeans(c, messages);
    forall x {
      SignalsMean(c, messages, x);
    }
    hide Analyse, Escalation, IsSettled, Owed, AnyOpen, StillOpen;
  }

  lemma OwnersReason(c: Classifiers, conversation: Conversation, sameDayCheckout: Option<bool>, reason: Reason)
    requires ForOwner(c, conversation, sameDayCheckout, reason)
    ensures !reason.PolicyViolation? && !reason.LatePromise?
  {
  }
}
