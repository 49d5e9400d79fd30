/**
 The ownership proof: the marker carried by a provider `reason`, and the four checks
 that tie one provider override to one cleanup record.
 */
module CleanupOwnership {
  import opened Wrappers
  import opened PyNumbers

  const MARKER_PREFIX := "AGENTGUARD:"
  const MAX_REASON_LENGTH := 160

  /** A token usable as a marker.  uuid4 text is non-empty and has no colon. */
  predicate IsMarker(m: string) {
    m != "" && ':' !in m
  }

  function Take(s: string, n: nat): string {
    if n <= |s| then s[..n] else s
  }

  function BuildReason(marker: string, text: string): string {
    var prefix := MARKER_PREFIX + marker + ": ";
    var room := if |prefix| <= MAX_REASON_LENGTH then MAX_REASON_LENGTH - |prefix| else 0;
    prefix + Take(text, room)
  }

  /** The position of the first `c`, or the length when there is none. */
  function Find(s: string, c: char): (i: nat)
    ensures i <= |s|
    ensures c !in s[..i]
    ensures i < |s| ==> s[i] == c
  {
    if s == "" || s[0] == c then 0
    else
      var i := Find(s[1..], c) + 1;
      assert s[..i] == [s[0]] + s[1..][..i - 1];
      i
  }

  lemma {:induction false} FindFirst(s: string, c: char, i: nat)
    requires i <= |s| && c !in s[..i] && (i < |s| ==> s[i] == c)
    ensures Find(s, c) == i
  {
    if i > 0 {
      assert s[..i] == [s[0]] + s[1..][..i - 1];
      FindFirst(s[1..], c, i - 1);
    }
  }

  function MarkerOf(reason: Option<string>): Option<string> {
    if reason.None? || !(MARKER_PREFIX <= reason.value) then None
    else
      var rest := reason.value[|MARKER_PREFIX|..];
      var i := Find(rest, ':');
      if i == |rest| || i == 0 then None else Some(rest[..i])
  }

  /** The length of a reason up to and including the colon that closes the token. */
  function TokenEnd(marker: string): nat {
    |MARKER_PREFIX| + |marker| + 1
  }

  lemma WholeTokenIsRead(marker: string, rest: string)
    requires IsMarker(marker) && |marker| < |rest| && rest[..|marker|] == marker && rest[|marker|] == ':'
    ensures MarkerOf(Some(MARKER_PREFIX + rest)) == Some(marker)
  {
    hide Find;
    var p := |MARKER_PREFIX|;
    assert (MARKER_PREFIX + rest)[p..] == rest && (MARKER_PREFIX + rest)[..p] == MARKER_PREFIX;
    FindFirst(rest, ':', |marker|);
  }

  lemma CutTokenIsNone(marker: string, rest: string)
    requires IsMarker(marker) && |rest| <= |marker| && rest == marker[..|rest|]
    ensures MarkerOf(Some(MARKER_PREFIX + rest)) == None
  {
    hide Find;
    var p := |MARKER_PREFIX|;
    assert (MARKER_PREFIX + rest)[p..] == rest && (MARKER_PREFIX + rest)[..p] == MARKER_PREFIX;
    FindFirst(rest, ':', |rest|);
  }

  /** Cutting a built reason anywhere yields its own token or none: never another one. */
  lemma TruncationKeepsTheToken(marker: string, text: string, cut: nat)
    requires IsMarker(marker)
    requires cut <= |BuildReason(marker, text)|
    ensures MarkerOf(Some(BuildReason(marker, text)[..cut])) ==
            if TokenEnd(marker) <= cut then Some(marker) else None
  {
    var whole := BuildReason(marker, text);
    var seen, p := whole[..cut], |MARKER_PREFIX|;
    BuiltStarts(marker, text);
    hide BuildReason, MarkerOf, IsMarker;
    if p <= cut {
      var rest := seen[p..];
      assert seen == MARKER_PREFIX + rest by { assert seen[..p] == whole[..p]; }
      if TokenEnd(marker) <= cut {
        assert rest[..|marker|] == whole[p..][..|marker|] && rest[|marker|] == whole[p + |marker|];
        WholeTokenIsRead(marker, rest);
      } else {
        assert rest == whole[p..][..|rest|];
        CutTokenIsNone(marker, rest);
      }
    } else {
      ShortIsNone(seen);
    }
  }

  lemma BuiltStarts(marker: string, text: string)
    ensures
      var whole, p := BuildReason(marker, text), |MARKER_PREFIX|;
      && TokenEnd(marker) <= |whole| && whole[..p] == MARKER_PREFIX
      && whole[p..][..|marker|] == marker && whole[p + |marker|] == ':'
  {
  }

  lemma ShortIsNone(seen: string)
    requires |seen| < |MARKER_PREFIX|
    ensures MarkerOf(Some(seen)) == None
  {
  }

  /** A reason is capped, and the cap never reaches into a uuid-sized token. */
  lemma ReasonFits(marker: string, text: string)
    requires |marker| == 36
    ensures TokenEnd(marker) <= |BuildReason(marker, text)| <= MAX_REASON_LENGTH
    ensures |text| <= 111 ==> BuildReason(marker, text) == MARKER_PREFIX + marker + ": " + text
  {
  }

  /** What the provider reports for one date. */
  datatype Override = Override(
    reason: Option<string>,
    price: Option<real>,
    createdAt: Option<string>,
    updatedAt: Option<string>)

  /** The part of a cleanup record that identifies the override it created. */
  datatype Identity = Identity(
    adopted: bool,
    marker: Option<string>,
    newPrice: real,
    providerCreatedAt: Option<string>)

  datatype OwnershipCheck =
    | Owned
    | Absent
    | NoMarker
    | ForeignMarker
    | UnreadablePrice
    | PriceMoved
    | NoCreationTime
    | CreatedAtOtherTime
    | ModifiedSince

  function CheckOwnership(record: Identity, found: Option<Override>): OwnershipCheck {
    if found.None? then Absent
    else
      var o := found.value;
      var token := MarkerOf(o.reason);
      if !record.adopted && token.None? then NoMarker
      else if !record.adopted && token != record.marker then ForeignMarker
      else if o.price.None? then UnreadablePrice
      else if RoundHalfEven(o.price.value) != RoundHalfEven(record.newPrice) then PriceMoved
      else if !record.adopted && !Truthy(record.providerCreatedAt) then NoCreationTime
      else if Truthy(record.providerCreatedAt) && o.createdAt != record.providerCreatedAt then CreatedAtOtherTime
      else if Truthy(o.createdAt) && o.updatedAt != o.createdAt then ModifiedSince
      else Owned
  }

  /** One override can be proved to belong to one marker only. */
  lemma OneOwner(a: Identity, b: Identity, o: Override)
    requires !a.adopted && !b.adopted
    requires CheckOwnership(a, Some(o)) == Owned && CheckOwnership(b, Some(o)) == Owned
    ensures a.marker == b.marker && a.marker.Some?
    ensures a.providerCreatedAt == b.providerCreatedAt
  {
  }

  /**
   An override written for a record is proved owned exactly as long as nobody cut its
   token, moved its price to another dollar, recreated it, or edited it.
   */
  lemma OwnedExactly(record: Identity, text: string, cut: nat, o: Override)
    requires !record.adopted && record.marker.Some? && IsMarker(record.marker.value)
    requires Truthy(record.providerCreatedAt)
    requires cut <= |BuildReason(record.marker.value, text)|
    requires o.reason == Some(BuildReason(record.marker.value, text)[..cut])
    ensures CheckOwnership(record, Some(o)) == Owned <==>
              TokenEnd(record.marker.value) <= cut &&
              o.price.Some? && RoundHalfEven(o.price.value) == RoundHalfEven(record.newPrice) &&
              o.createdAt == record.providerCreatedAt == o.updatedAt
  {
    TruncationKeepsTheToken(record.marker.value, text, cut);
  }

  /** The one record without a marker goes by its dollar and its stamps, each as far as it is known; the reason is not read. */
  lemma AdoptedOwnedExactly(record: Identity, o: Override)
    requires record.adopted
    ensures CheckOwnership(record, Some(o)) == Owned <==>
              && o.price.Some? && RoundHalfEven(o.price.value) == RoundHalfEven(record.newPrice)
              && (o.createdAt == record.providerCreatedAt || record.providerCreatedAt.None? || record.providerCreatedAt == Some(""))
              && (o.updatedAt == o.createdAt || o.createdAt.None? || o.createdAt == Some(""))
    ensures forall other: Option<string> :: CheckOwnership(record, Some(o.(reason := other))) == CheckOwnership(record, Some(o))
  {
  }

  /** A reason built for one marker never proves ownership for a record with another. */
  lemma ForeignReasonIsRefused(record: Identity, other: string, text: string, cut: nat, o: Override)
    requires !record.adopted && IsMarker(other) && record.marker != Some(other)
    requires cut <= |BuildReason(other, text)|
    requires o.reason == Some(BuildReason(other, text)[..cut])
    ensures CheckOwnership(record, Some(o)) in {NoMarker, ForeignMarker}
  {
    TruncationKeepsTheToken(other, text, cut);
  }

  /** A record's identity together with an override, before anything is known about the two. */
  datatype Evidence = Evidence(identity: Identity, found: Override)

  /** Evidence that passed all four checks. */
  type Proof = e: Evidence | CheckOwnership(e.identity, Some(e.found)) == Owned
    witness Evidence(Identity(true, None, 1.0, None), Override(None, Some(1.0), None, None))
}
