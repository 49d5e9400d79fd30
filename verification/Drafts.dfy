/** The outcome of processing each state of each conversation, and who may overwrite it. */
module Drafts {
  import opened Wrappers
  import opened Hospitality

  /** One state of one conversation: a fingerprint stands for the messages it is taken of. */
  datatype Key = Key(conversationRef: string, messages: seq<ChatMessage>)

  datatype DraftStatus = DRAFT_READY | EDITED | NO_REPLY_NEEDED | NEEDS_HUMAN_REVIEW | SENT | DISCARDED

  datatype Reason = LateCheckout | EarlyCheckInPossible | EarlyCheckInUnknown | StayExtension | CancellationMechanics
                  | OfferAccepted | PolicyViolation(reason: string) | LatePromise

  datatype Detail =
    | NoDetail | Closing | RepliedAlready | ModelFailed | EmptyDraft
    | ConflictedSilence(open: set<string>) | RetriedSilence(open: set<string>) | Escalated(reason: Reason)

  datatype Draft = Draft(
    status: DraftStatus,
    subject: Option<string>,
    message: Option<string>,
    detail: Detail,
    sourceRun: Option<string>)

  type Rows = map<Key, Draft>

  /** `is_settled`: a review that holds text is finished work; one without is a failure to retry. */
  predicate IsSettled(d: Draft) {
    d.status != NEEDS_HUMAN_REVIEW || Truthy(d.message)
  }

  /** `record_outcome`: a row for the state stays as it is, unless it asks for review. */
  function Recorded(rows: Rows, key: Key, d: Draft): Rows {
    if key in rows && rows[key].status != NEEDS_HUMAN_REVIEW then rows else rows[key := d]
  }

  /** `edit`: None where it is refused. */
  function Edited(rows: Rows, key: Key, subject: Option<string>, message: Option<string>): Option<Rows> {
    if key !in rows || rows[key].status == SENT || rows[key].status == DISCARDED then None
    else
      Some(rows[key := rows[key].(
                  status := EDITED,
                  subject := if subject.Some? then subject else rows[key].subject,
                  message := if message.Some? then message else rows[key].message)])
  }

  function MarkedSent(rows: Rows, key: Key): Option<Rows> {
    if key in rows then Some(rows[key := rows[key].(status := SENT)]) else None
  }

  /** The newest row of a conversation, by order of creation. */
  function CurrentFor(order: seq<Key>, conversationRef: string): Option<Key> {
    if order == [] then None
    else if order[|order| - 1].conversationRef == conversationRef then Some(order[|order| - 1])
    else CurrentFor(order[..|order| - 1], conversationRef)
  }

  /** This key stands at i, and no later one is of its conversation. */
  ghost predicate IsNewest(order: seq<Key>, i: int, key: Key) {
    0 <= i < |order| && order[i] == key && forall j :: i < j < |order| ==> order[j].conversationRef != key.conversationRef
  }

  lemma {:induction false} CurrentIsNewest(order: seq<Key>, conversationRef: string)
    ensures
      match CurrentFor(order, conversationRef)
      case None => forall i :: 0 <= i < |order| ==> order[i].conversationRef != conversationRef
      case Some(key) => key.conversationRef == conversationRef && exists i :: IsNewest(order, i, key)
  {
    if order != [] {
      var n := |order| - 1;
      if order[n].conversationRef == conversationRef {
        assert IsNewest(order, n, order[n]);
      } else {
        CurrentIsNewest(order[..n], conversationRef);
        assert forall i, key :: IsNewest(order[..n], i, key) && key.conversationRef == conversationRef ==> IsNewest(order, i, key);
      }
    }
  }

  class DraftStore {
    var rows: Rows
    /** Keys by ascending row id. */
    var order: seq<Key>

    ghost predicate Valid()
      reads this
    {
      && (forall k :: k in order <==> k in rows)
      && (forall i, j :: 0 <= i < j < |order| ==> order[i] != order[j])
    }

    constructor ()
      ensures Valid() && rows == map[]
    {
      rows, order := map[], [];
    }

    method RecordOutcome(key: Key, d: Draft) returns (draft: Draft, created: bool)
      requires Valid()
      modifies this
      ensures Valid() && rows == Recorded(old(rows), key, d)
      ensures key in rows && draft == rows[key] && created == (key !in old(rows))
      ensures order == old(order) + if created then [key] else []
    {
      if key in rows {
        if rows[key].status != NEEDS_HUMAN_REVIEW {
          return rows[key], false;
        }
        rows := rows[key := d];
        return d, false;
      }
      rows, order := rows[key := d], order + [key];
      return d, true;
    }

    method Replace(key: Key, d: Draft) returns (draft: Draft)
      requires Valid() && key in rows
      modifies `rows
      ensures Valid() && rows == old(rows)[key := d] && draft == d
    {
      rows := rows[key := d];
      draft := d;
    }

    method Edit(key: Key, subject: Option<string>, message: Option<string>) returns (ok: bool)
      requires Valid()
      modifies `rows
      ensures Valid()
      ensures ok == Edited(old(rows), key, subject, message).Some?
      ensures rows == if ok then Edited(old(rows), key, subject, message).value else old(rows)
      ensures ok <==> key in old(rows) && old(rows)[key].status != SENT && old(rows)[key].status != DISCARDED
      ensures ok ==> forall k :: k in rows && k != key ==> k in old(rows) && rows[k] == old(rows)[k]
      ensures ok ==> key in rows && rows[key].status == EDITED
      ensures ok && subject.None? ==> rows[key].subject == old(rows)[key].subject
      ensures ok && message.None? ==> rows[key].message == old(rows)[key].message
      ensures ok && subject.Some? ==> rows[key].subject == subject
      ensures ok && message.Some? ==> rows[key].message == message
    {
      if key !in rows || rows[key].status == SENT || rows[key].status == DISCARDED {
        return false;
      }
      var d := rows[key];
      if subject.Some? {
        d := d.(subject := subject);
      }
      if message.Some? {
        d := d.(message := message);
      }
      rows := rows[key := d.(status := EDITED)];
      ok := true;
    }

    method MarkSent(key: Key) returns (ok: bool)
      requires Valid()
      modifies `rows
      ensures Valid() && ok == (key in old(rows))
      ensures rows == if ok then MarkedSent(old(rows), key).value else old(rows)
      ensures ok ==> rows == old(rows)[key := old(rows)[key].(status := SENT)]
    {
      ok := key in rows;
      if ok {
        rows := rows[key := rows[key].(status := SENT)];
      }
    }

    /** One walk in ascending id: the last row of a conversation wins, as the single query has it. */
    method LatestByConversation() returns (latest: map<string, Draft>)
      requires Valid()
      ensures forall ref :: ref in latest <==> CurrentFor(order, ref).Some?
      ensures forall ref :: ref in latest ==>
                CurrentFor(order, ref).value in rows && latest[ref] == rows[CurrentFor(order, ref).value]
    {
      latest := map[];
      for i := 0 to |order|
        invariant forall ref :: ref in latest <==> CurrentFor(order[..i], ref).Some?
        invariant forall ref :: ref in latest ==>
                    CurrentFor(order[..i], ref).value in rows && latest[ref] == rows[CurrentFor(order[..i], ref).value]
      {
        assert order[..i + 1][..i] == order[..i];
        assert order[i] in order;
        latest := latest[order[i].conversationRef := rows[order[i]]];
      }
      assert order[..|order|] == order;
    }
  }
}
