/** What in a conversation still needs a reply, computed from who wrote last. */
module Hospitality {
  import opened Wrappers

  datatype Sender = Renter | Owner | Other

  datatype ChatMessage = ChatMessage(messageRef: string, sender: Sender, text: string)

  /** The marker and pattern classifiers, as whatever functions of the text they are. */
  datatype Classifiers = Classifiers(
    actionable: string -> set<string>,
    closing: string -> bool,
    lateCheckout: string -> bool,
    exceedsCeiling: string -> bool,
    earlyCheckIn: string -> bool,
    stayExtension: string -> bool,
    business: string -> set<string>,
    mechanics: string -> bool,
    acceptsOffer: string -> bool,
    violation: string -> Option<string>,
    isSilence: string -> bool)

  datatype Verdict = ReplyNeeded | NoReplyNeeded | AlreadyReplied

  datatype Analysis = Analysis(
    unanswered: seq<string>,
    openSignals: set<string>,
    verdict: Verdict,
    lateCheckoutRequested: bool,
    earlyCheckInRequested: bool,
    stayExtensionRequested: bool,
    ownerApprovalRequired: bool,
    businessCategories: set<string>)

  /** `is_closing_message`. */
  predicate IsClosing(c: Classifiers, text: string) {
    c.actionable(text) == {} && c.closing(text)
  }

  /** Index of the last message of ours; -1 if there is none. */
  function LastOwner(messages: seq<ChatMessage>): (i: int)
    ensures -1 <= i < |messages|
  {
    if messages == [] then -1
    else if messages[|messages| - 1].sender == Owner then |messages| - 1
    else LastOwner(messages[..|messages| - 1])
  }

  function RenterTexts(messages: seq<ChatMessage>): seq<string> {
    if messages == [] then []
    else (if messages[0].sender == Renter then [messages[0].text] else []) + RenterTexts(messages[1..])
  }

  /** The guest messages that came after our last one. */
  function Unanswered(messages: seq<ChatMessage>): seq<string> {
    RenterTexts(messages[LastOwner(messages) + 1..])
  }

  predicate AnyText(texts: seq<string>, p: string -> bool) {
    exists t :: t in texts && p(t)
  }

  function Union(texts: seq<string>, f: string -> set<string>): set<string> {
    set t, x | t in texts && x in f(t) :: x
  }

  /** `analyse_conversation`, the parts that decide anything. */
  function Analyse(c: Classifiers, messages: seq<ChatMessage>): Analysis {
    var open := Unanswered(messages);
    Analysis(
      open,
      Union(open, c.actionable),
      if open == [] then AlreadyReplied
      else if forall t :: t in open ==> IsClosing(c, t) then NoReplyNeeded
      else ReplyNeeded,
      AnyText(open, c.lateCheckout),
      AnyText(open, c.earlyCheckIn),
      AnyText(open, c.stayExtension),
      AnyText(open, c.exceedsCeiling),
      Union(open, c.business))
  }

  // -- what the verdict means --------------------------------------------

  /** Message i is a guest's, with nothing of ours after it. */
  predicate StillOpen(messages: seq<ChatMessage>, i: nat) {
    && i < |messages| && messages[i].sender == Renter
    && forall j :: i < j < |messages| ==> messages[j].sender != Owner
  }

  lemma {:induction false} LastOwnerIsLast(messages: seq<ChatMessage>)
    ensures
      var i := LastOwner(messages);
      && (i >= 0 ==> messages[i].sender == Owner)
      && forall j :: i < j < |messages| ==> messages[j].sender != Owner
  {
    if messages != [] && messages[|messages| - 1].sender != Owner {
      LastOwnerIsLast(messages[..|messages| - 1]);
    }
  }

  lemma {:induction false} RenterTextsAre(messages: seq<ChatMessage>, t: string)
    ensures t in RenterTexts(messages) <==>
            exists i :: 0 <= i < |messages| && messages[i].sender == Renter && messages[i].text == t
  {
    if messages != [] {
      var rest := messages[1..];
      RenterTextsAre(rest, t);
      if i :| 0 <= i < |messages| && messages[i].sender == Renter && messages[i].text == t {
        assert i > 0 ==> rest[i - 1] == messages[i];
      }
      if i :| 0 <= i < |rest| && rest[i].sender == Renter && rest[i].text == t {
        assert messages[i + 1] == rest[i];
      }
    }
  }

  /** The unanswered texts are exactly those of the messages still open. */
  lemma UnansweredIsOpen(messages: seq<ChatMessage>, t: string)
    ensures t in Unanswered(messages) <==> exists i: nat :: StillOpen(messages, i) && messages[i].text == t
  {
    var k := LastOwner(messages) + 1;
    var tail := messages[k..];
    LastOwnerIsLast(messages);
    RenterTextsAre(tail, t);
    if i: nat :| StillOpen(messages, i) && messages[i].text == t {
      assert i >= k && tail[i - k] == messages[i];
    }
    if i :| 0 <= i < |tail| && tail[i].sender == Renter && tail[i].text == t {
      assert StillOpen(messages, i + k) && messages[i + k].text == t;
    }
  }

  /** `already_replied` means no guest message is open, and `reply_needed` that one is and does not close. */
  lemma VerdictMeans(c: Classifiers, messages: seq<ChatMessage>)
    ensures
      var v := Analyse(c, messages).verdict;
      && (v == AlreadyReplied <==> !AnyOpen(messages))
      && (v == ReplyNeeded <==> Owed(c, messages))
  {
    var open := Unanswered(messages);
    if open != [] {
      UnansweredIsOpen(messages, open[0]);
    }
    forall i: nat | StillOpen(messages, i) ensures messages[i].text in open {
      UnansweredIsOpen(messages, messages[i].text);
    }
    if t :| t in open && !IsClosing(c, t) {
      UnansweredIsOpen(messages, t);
    }
  }

  /** Somebody is waiting for a reply: an open message that is not a mere closing. */
  ghost predicate Owed(c: Classifiers, messages: seq<ChatMessage>) {
    exists i: nat :: StillOpen(messages, i) && (c.actionable(messages[i].text) != {} || !c.closing(messages[i].text))
  }

  ghost predicate AnyOpen(messages: seq<ChatMessage>) {
    exists i: nat :: StillOpen(messages, i)
  }

  /** A guest message, open or not, that this is said of. */
  ghost predicate GuestSays(messages: seq<ChatMessage>, p: string -> bool) {
    exists i: nat :: i < |messages| && messages[i].sender == Renter && p(messages[i].text)
  }

  lemma GuestTexts(messages: seq<ChatMessage>, p: string -> bool)
    ensures AnyText(RenterTexts(messages), p) <==> GuestSays(messages, p)
  {
    var texts := RenterTexts(messages);
    if t :| t in texts && p(t) {
      RenterTextsAre(messages, t);
      var i :| 0 <= i < |messages| && messages[i].sender == Renter && messages[i].text == t;
      assert i as nat < |messages|;
    }
    if i: nat :| i < |messages| && messages[i].sender == Renter && p(messages[i].text) {
      RenterTextsAre(messages, messages[i].text);
    }
  }

  /** Some message that is still open has this said of it. */
  ghost predicate OpenSays(messages: seq<ChatMessage>, p: string -> bool) {
    exists i: nat :: StillOpen(messages, i) && p(messages[i].text)
  }

  lemma OpenTexts(messages: seq<ChatMessage>, p: string -> bool)
    ensures AnyText(Unanswered(messages), p) <==> OpenSays(messages, p)
  {
    var open := Unanswered(messages);
    if t :| t in open && p(t) {
      UnansweredIsOpen(messages, t);
    }
    if i: nat :| StillOpen(messages, i) && p(messages[i].text) {
      UnansweredIsOpen(messages, messages[i].text);
    }
  }

  /** Each flag of the analysis is raised by an open message its own classifier accepts, and only so. */
  lemma FlagsMean(c: Classifiers, messages: seq<ChatMessage>)
    ensures
      var a := Analyse(c, messages);
      && (a.lateCheckoutRequested <==> OpenSays(messages, c.lateCheckout))
      && (a.earlyCheckInRequested <==> OpenSays(messages, c.earlyCheckIn))
      && (a.stayExtensionRequested <==> OpenSays(messages, c.stayExtension))
      && (a.ownerApprovalRequired <==> OpenSays(messages, c.exceedsCeiling))
  {
    hide AnyText, Unanswered, OpenSays;
    OpenTexts(messages, c.lateCheckout);
    OpenTexts(messages, c.earlyCheckIn);
    OpenTexts(messages, c.stayExtension);
    OpenTexts(messages, c.exceedsCeiling);
  }

  /** The signals and the business categories are those of the open messages. */
  lemma SignalsMean(c: Classifiers, messages: seq<ChatMessage>, x: string)
    ensures
      var a := Analyse(c, messages);
      && (x in a.openSignals <==> exists i: nat :: StillOpen(messages, i) && x in c.actionable(messages[i].text))
      && (x in a.businessCategories <==> exists i: nat :: StillOpen(messages, i) && x in c.business(messages[i].text))
  {
    UnionMeans(messages, c.actionable, x);
    UnionMeans(messages, c.business, x);
    hide Union, Unanswered;
  }

  lemma UnionMeans(messages: seq<ChatMessage>, f: string -> set<string>, x: string)
    ensures x in Union(Unanswered(messages), f) <==> exists i: nat :: StillOpen(messages, i) && x in f(messages[i].text)
  {
    hide Unanswered;
    var open := Unanswered(messages);
    if t :| t in open && x in f(t) {
      UnansweredIsOpen(messages, t);
    }
    if i: nat :| StillOpen(messages, i) && x in f(messages[i].text) {
      UnansweredIsOpen(messages, messages[i].text);
    }
  }

  /** Anything of ours after the last guest message clears every open-request flag. */
  lemma AnsweredClearsEverything(c: Classifiers, messages: seq<ChatMessage>, after: seq<ChatMessage>, ours: ChatMessage)
    requires ours.sender == Owner && forall m :: m in after ==> m.sender != Renter
    ensures
      var a := Analyse(c, messages + [ours] + after);
      && a.verdict == AlreadyReplied && a.unanswered == [] && a.openSignals == {} && a.businessCategories == {}
      && !a.lateCheckoutRequested && !a.earlyCheckInRequested && !a.stayExtensionRequested && !a.ownerApprovalRequired
  {
    var all := messages + [ours] + after;
    assert all[|messages|] == ours;
    forall i: nat ensures !StillOpen(all, i) {
      if i > |messages| && i < |all| { assert all[i] == after[i - |messages| - 1]; }
    }
    VerdictMeans(c, all);
  }
}
