/** Merging near-duplicate rules, and deciding what may become global. */
module KnowledgeConsolidation {
  import opened Wrappers
  import opened Texts
  import opened Sorting
  import opened Similarity

  const DUPLICATE_SIMILARITY: nat := 55
  const GLOBAL_SIMILARITY: nat := 45
  const MIN_PROPERTIES_FOR_GLOBAL: nat := 3

  /** A rule's text, with the content words found in it. */
  datatype Wording = Wording(title: string, content: string, words: set<string>)

  datatype Candidate = Candidate(
    slug: Option<string>,
    topic: string,
    audience: string,
    wording: Wording,
    numericFact: bool,
    safetyReasons: set<string>,
    evidence: seq<string>,          // a tuple, which may repeat a reference until it is merged
    properties: set<string>,
    firstObserved: Option<string>,
    lastObserved: Option<string>)

  /** `similarity(left, right) >= threshold`, in whole numbers. */
  predicate Similar(a: Candidate, b: Candidate, hundredths: nat) {
    AtLeast(a.wording.words, b.wording.words, hundredths)
  }

  /** `tuple(sorted(set(refs)))`. */
  function SortedSet(refs: seq<string>): (r: seq<string>)
    ensures forall e :: e in r <==> e in refs
  {
    var r := StableSort(Once(refs), StrLt);
    assert forall e :: e in r <==> e in Once(refs) by {
      forall e { SameElements(r, Once(refs), e); }
    }
    r
  }

  function Once(refs: seq<string>): (r: seq<string>)
    ensures forall e :: e in r <==> e in refs
  {
    if refs == [] then []
    else (if refs[0] in refs[1..] then [] else [refs[0]]) + Once(refs[1..])
  }

  function Refs(c: Candidate): set<string> {
    set e | e in c.evidence
  }

  function Stamps(a: Candidate): seq<string> {
    (if Truthy(a.firstObserved) then [a.firstObserved.value] else [])
    + (if Truthy(a.lastObserved) then [a.lastObserved.value] else [])
  }

  /** `merge`: the primary's wording, and both sides' evidence. */
  function Merge(a: Candidate, b: Candidate): Candidate {
    var observed := StableSort(Stamps(a) + Stamps(b), StrLt);
    a.(numericFact := a.numericFact || b.numericFact,
       safetyReasons := a.safetyReasons + b.safetyReasons,
       evidence := SortedSet(a.evidence + b.evidence),
       properties := a.properties + b.properties,
       firstObserved := if observed == [] then None else Some(observed[0]),
       lastObserved := if observed == [] then None else Some(observed[|observed| - 1]))
  }

  /** What a merged rule was first and last seen on are the least and the greatest of all four stamps. */
  lemma MergeSpansBoth(a: Candidate, b: Candidate, stamp: string)
    requires stamp in Stamps(a) + Stamps(b)
    ensures
      var m := Merge(a, b);
      && m.firstObserved.Some? && m.lastObserved.Some?
      && m.firstObserved.value in Stamps(a) + Stamps(b) && m.lastObserved.value in Stamps(a) + Stamps(b)
      && StrLe(m.firstObserved.value, stamp) && StrLe(stamp, m.lastObserved.value)
  {
    hide Stamps, StableSort, StrLt;
    EndsSpan(Stamps(a) + Stamps(b), stamp);
  }

  ghost predicate Spans(m: Candidate, stamp: string) {
    && m.firstObserved.Some? && m.lastObserved.Some? && m.firstObserved.value != "" && m.lastObserved.value != ""
    && StrLe(m.firstObserved.value, stamp) && StrLe(stamp, m.lastObserved.value)
  }

  /** A rule folded of several spans whatever any of them was observed on. */
  lemma {:induction false} FoldedSpans(group: seq<Candidate>, i: nat, stamp: string)
    requires i < |group| && |group| > 1 && stamp in Stamps(group[i])
    ensures Spans(Folded(group), stamp)
  {
    var n := |group| - 1;
    hide Folded, Merge, Spans, Stamps;
    FoldedOneMore(group);
    if i == n || n == 1 {
      MergeSpansItsOwn(Folded(group[..n]), group[n], stamp);
    } else {
      FoldedSpans(group[..n], i, stamp);
      MergeWidens(Folded(group[..n]), group[n], stamp);
    }
  }

  lemma MergeSpansItsOwn(a: Candidate, b: Candidate, stamp: string)
    requires stamp in Stamps(a) || stamp in Stamps(b)
    ensures Spans(Merge(a, b), stamp)
  {
    hide Merge, Stamps, StrLe;
    MergeSpansBoth(a, b, stamp);
    StampsHaveText(a);
    StampsHaveText(b);
  }

  lemma StampsHaveText(c: Candidate)
    ensures "" !in Stamps(c)
  {
  }

  lemma MergeWidens(a: Candidate, b: Candidate, stamp: string)
    requires Spans(a, stamp)
    ensures Spans(Merge(a, b), stamp)
  {
    var m, first, last := Merge(a, b), a.firstObserved.value, a.lastObserved.value;
    MergeSpansItsOwn(a, b, first);
    MergeSpansItsOwn(a, b, last);
    hide Merge, Stamps, StrLe;
    StrLeTransitive(m.firstObserved.value, first, stamp);
    StrLeTransitive(stamp, last, m.lastObserved.value);
  }

  lemma FoldedOneMore(group: seq<Candidate>)
    requires |group| > 1
    ensures Folded(group) == Merge(Folded(group[..|group| - 1]), group[|group| - 1])
    ensures |group| == 2 ==> Folded(group[..1]) == group[0]
  {
  }

  lemma EndsSpan(stamps: seq<string>, stamp: string)
    requires stamp in stamps
    ensures
      var observed := StableSort(stamps, StrLt);
      && observed != [] && observed[0] in stamps && observed[|observed| - 1] in stamps
      && StrLe(observed[0], stamp) && StrLe(stamp, observed[|observed| - 1])
  {
    var observed := StableSort(stamps, StrLt);
    hide StableSort;
    SameElements(observed, stamps, stamp);
    var k :| 0 <= k < |observed| && observed[k] == stamp;
    SameElements(observed, stamps, observed[0]);
    SameElements(observed, stamps, observed[|observed| - 1]);
    StringsInOrder(stamps, 0, k);
    StringsInOrder(stamps, k, |observed| - 1);
  }

  lemma StringsInOrder(stamps: seq<string>, i: nat, j: nat)
    requires i <= j < |StableSort(stamps, StrLt)|
    ensures StrLe(StableSort(stamps, StrLt)[i], StableSort(stamps, StrLt)[j])
  {
    StringsAreOrdered();
    NothingOutOfPlace(stamps, StrLt);
    StrLtTotal(StableSort(stamps, StrLt)[i], StableSort(stamps, StrLt)[j]);
  }

  function Evidence(cs: seq<Candidate>): set<string> {
    if cs == [] then {} else Evidence(cs[..|cs| - 1]) + Refs(cs[|cs| - 1])
  }

  function Properties(cs: seq<Candidate>): set<string> {
    if cs == [] then {} else Properties(cs[..|cs| - 1]) + cs[|cs| - 1].properties
  }

  lemma {:induction false} EvidenceIs(cs: seq<Candidate>, e: string)
    ensures e in Evidence(cs) <==> exists i :: 0 <= i < |cs| && e in cs[i].evidence
  {
    if cs != [] {
      var init := cs[..|cs| - 1];
      EvidenceIs(init, e);
      if i :| 0 <= i < |cs| && e in cs[i].evidence {
        if i < |init| { assert e in init[i].evidence; }
      }
    }
  }

  // -- one bucket --------------------------------------------------------

  predicate MoreEvidence(a: Candidate, b: Candidate) {
    |a.evidence| > |b.evidence|
  }

  function FirstSimilar(kept: seq<Candidate>, c: Candidate): (k: nat)
    ensures k <= |kept|
    ensures k < |kept| ==> Similar(kept[k], c, DUPLICATE_SIMILARITY)
    ensures forall i :: 0 <= i < k ==> !Similar(kept[i], c, DUPLICATE_SIMILARITY)
  {
    if kept == [] || Similar(kept[0], c, DUPLICATE_SIMILARITY) then 0 else 1 + FirstSimilar(kept[1..], c)
  }

  /** Fold a rule into the first it duplicates; keep it for itself if it duplicates none. */
  function Place(kept: seq<Candidate>, c: Candidate): seq<Candidate> {
    var k := FirstSimilar(kept, c);
    if k < |kept| then kept[k := Merge(kept[k], c)] else kept + [c]
  }

  function Kept(ordered: seq<Candidate>): seq<Candidate> {
    if ordered == [] then [] else Place(Kept(ordered[..|ordered| - 1]), ordered[|ordered| - 1])
  }

  /** The members behind each kept rule, the one whose wording it keeps first. */
  function Groups(ordered: seq<Candidate>): seq<seq<Candidate>> {
    if ordered == [] then []
    else
      var init, c := ordered[..|ordered| - 1], ordered[|ordered| - 1];
      Join(Groups(init), c, FirstSimilar(Kept(init), c))
  }

  /** The k-th group with one member more; a new group past the end. */
  function Join(groups: seq<seq<Candidate>>, c: Candidate, k: nat): seq<seq<Candidate>> {
    if k < |groups| then groups[k := groups[k] + [c]] else groups + [[c]]
  }

  function Folded(group: seq<Candidate>): Candidate
    requires group != []
  {
    if |group| == 1 then group[0] else Merge(Folded(group[..|group| - 1]), group[|group| - 1])
  }

  function Flatten(groups: seq<seq<Candidate>>): multiset<Candidate> {
    if groups == [] then multiset{} else Flatten(groups[..|groups| - 1]) + multiset(groups[|groups| - 1])
  }

  lemma {:induction false} FlattenUpdate(groups: seq<seq<Candidate>>, k: nat, c: Candidate)
    requires k < |groups|
    ensures Flatten(groups[k := groups[k] + [c]]) == Flatten(groups) + multiset{c}
  {
    var n := |groups| - 1;
    var after := groups[k := groups[k] + [c]];
    if k == n {
      assert after[..n] == groups[..n];
      assert multiset(groups[n] + [c]) == multiset(groups[n]) + multiset{c};
    } else {
      assert after[..n] == groups[..n][k := groups[..n][k] + [c]];
      FlattenUpdate(groups[..n], k, c);
    }
  }

  /** A kept rule is its members folded together, and keeps the wording of one with the most evidence. */
  ghost predicate GroupOk(kept: Candidate, group: seq<Candidate>) {
    && group != [] && kept == Folded(group)
    && kept.wording == group[0].wording
    && forall i :: 0 <= i < |group| ==>
         |group[i].evidence| <= |group[0].evidence|
         && (i > 0 ==> Similar(group[0], group[i], 55))
  }

  ghost predicate Descending(ordered: seq<Candidate>) {
    forall i, j :: 0 <= i < j < |ordered| ==> |ordered[j].evidence| <= |ordered[i].evidence|
  }

  lemma {:induction false} GroupPerKept(ordered: seq<Candidate>)
    ensures |Groups(ordered)| == |Kept(ordered)|
  {
    hide Merge, FirstSimilar;
    if ordered != [] {
      GroupPerKept(ordered[..|ordered| - 1]);
    }
  }

  /** Each group is headed by one of the rules placed. */
  ghost predicate Headed(groups: seq<seq<Candidate>>, ordered: seq<Candidate>) {
    forall k :: 0 <= k < |groups| ==> groups[k] != [] && groups[k][0] in ordered
  }

  lemma HeadedGrows(groups: seq<seq<Candidate>>, ordered: seq<Candidate>, c: Candidate, k: nat)
    requires Headed(groups, ordered)
    ensures Headed(Join(groups, c, k), ordered + [c])
  {
  }

  lemma {:induction false} GroupsAreHeaded(ordered: seq<Candidate>)
    ensures Headed(Groups(ordered), ordered)
  {
    hide Join, FirstSimilar, Kept;
    if ordered != [] {
      hide Headed;
      var init, c := ordered[..|ordered| - 1], ordered[|ordered| - 1];
      GroupsAreHeaded(init);
      SplitLast(ordered);
      HeadedGrows(Groups(init), init, c, FirstSimilar(Kept(init), c));
    }
  }

  lemma FlattenGrows(groups: seq<seq<Candidate>>, c: Candidate, k: nat)
    ensures Flatten(Join(groups, c, k)) == Flatten(groups) + multiset{c}
  {
    if k < |groups| {
      FlattenUpdate(groups, k, c);
    } else {
      assert (groups + [[c]])[..|groups|] == groups;
    }
  }

  lemma {:induction false} GroupsHoldAll(ordered: seq<Candidate>)
    ensures Flatten(Groups(ordered)) == multiset(ordered)
  {
    hide Join, FirstSimilar, Kept;
    if ordered != [] {
      hide Flatten;
      var init, c := ordered[..|ordered| - 1], ordered[|ordered| - 1];
      GroupsHoldAll(init);
      SplitLast(ordered);
      FlattenGrows(Groups(init), c, FirstSimilar(Kept(init), c));
    }
  }

  lemma {:induction false} GroupsAre(ordered: seq<Candidate>)
    requires Descending(ordered)
    ensures |Groups(ordered)| == |Kept(ordered)| && Flatten(Groups(ordered)) == multiset(ordered)
    ensures forall k :: 0 <= k < |Kept(ordered)| ==> GroupOk(Kept(ordered)[k], Groups(ordered)[k])
  {
    GroupPerKept(ordered);
    GroupsHoldAll(ordered);
    hide Flatten, Folded, Merge, Similar;
    if ordered != [] {
      var n := |ordered| - 1;
      var init, c := ordered[..n], ordered[n];
      GroupsAre(init);
      GroupsAreHeaded(init);
      var k, groups := FirstSimilar(Kept(init), c), Groups(init);
      if k < |groups| {
        var j :| 0 <= j < |init| && init[j] == groups[k][0];
        assert |ordered[n].evidence| <= |ordered[j].evidence|;
        GroupGrows(Kept(init)[k], groups[k], c);
      } else {
        GroupOfOne(c);
      }
    }
  }

  lemma GroupOfOne(c: Candidate)
    ensures GroupOk(c, [c])
  {
  }

  lemma GroupGrows(kept: Candidate, group: seq<Candidate>, c: Candidate)
    requires GroupOk(kept, group) && Similar(kept, c, DUPLICATE_SIMILARITY) && |c.evidence| <= |group[0].evidence|
    ensures GroupOk(Merge(kept, c), group + [c])
  {
    hide Merge, AtLeast;
    MergeKeeps(kept, c);
    assert (group + [c])[..|group|] == group;
  }

  ghost predicate NoDuplicates(kept: seq<Candidate>) {
    forall i, j :: 0 <= i < j < |kept| ==> !Similar(kept[i], kept[j], DUPLICATE_SIMILARITY)
  }

  lemma {:induction false} KeptHasNoDuplicates(ordered: seq<Candidate>)
    ensures NoDuplicates(Kept(ordered))
  {
    if ordered != [] {
      var init := ordered[..|ordered| - 1];
      KeptHasNoDuplicates(init);
      var before, after := Kept(init), Kept(ordered);
      forall i, j | 0 <= i < j < |after| ensures !Similar(after[i], after[j], DUPLICATE_SIMILARITY) {
        if j < |before| {
          assert after[i].wording == before[i].wording && after[j].wording == before[j].wording;
        }
      }
    }
  }

  lemma MergeKeeps(a: Candidate, b: Candidate)
    ensures
      var m := Merge(a, b);
      && m.wording == a.wording && m.properties == a.properties + b.properties
      && m.slug == a.slug && m.topic == a.topic && m.audience == a.audience
      && m.safetyReasons == a.safetyReasons + b.safetyReasons
      && (m.numericFact <==> a.numericFact || b.numericFact)
  {
    hide Stamps, StableSort, SortedSet;
  }

  lemma MergedEvidence(a: Candidate, b: Candidate)
    ensures Refs(Merge(a, b)) == Refs(a) + Refs(b)
  {
    hide Stamps, StableSort;
  }

  lemma {:induction false} EvidenceUpdate(cs: seq<Candidate>, k: nat, c: Candidate)
    requires k < |cs|
    ensures Evidence(cs[k := Merge(cs[k], c)]) == Evidence(cs) + Refs(c)
  {
    hide Merge, Refs;
    var n := |cs| - 1;
    var after := cs[k := Merge(cs[k], c)];
    MergedEvidence(cs[k], c);
    if k == n {
      assert after[..n] == cs[..n];
    } else {
      assert after[..n] == cs[..n][k := Merge(cs[..n][k], c)];
      EvidenceUpdate(cs[..n], k, c);
    }
  }

  lemma {:induction false} KeptKeepsEvidence(ordered: seq<Candidate>)
    ensures Evidence(Kept(ordered)) == Evidence(ordered)
  {
    hide Merge, FirstSimilar;
    if ordered != [] {
      var init, c := ordered[..|ordered| - 1], ordered[|ordered| - 1];
      KeptKeepsEvidence(init);
      var k := FirstSimilar(Kept(init), c);
      if k < |Kept(init)| {
        EvidenceUpdate(Kept(init), k, c);
      } else {
        assert (Kept(init) + [c])[..|Kept(init)|] == Kept(init);
      }
    }
  }

  lemma SortDescends(bucket: seq<Candidate>)
    ensures Descending(StableSort(bucket, MoreEvidence))
  {
    NothingOutOfPlace(bucket, MoreEvidence);
  }

  lemma EvidenceSorted(bucket: seq<Candidate>)
    ensures Evidence(StableSort(bucket, MoreEvidence)) == Evidence(bucket)
  {
    var sorted := StableSort(bucket, MoreEvidence);
    forall e ensures e in Evidence(sorted) <==> e in Evidence(bucket) {
      EvidenceIs(sorted, e);
      EvidenceIs(bucket, e);
      if i :| 0 <= i < |sorted| && e in sorted[i].evidence {
        SameElements(sorted, bucket, sorted[i]);
        var j :| 0 <= j < |bucket| && bucket[j] == sorted[i];
      }
      if i :| 0 <= i < |bucket| && e in bucket[i].evidence {
        SameElements(sorted, bucket, bucket[i]);
        var j :| 0 <= j < |sorted| && sorted[j] == bucket[i];
      }
    }
  }

  // -- consolidate -------------------------------------------------------

  datatype Key = Key(slug: Option<string>, topic: string, audience: string)

  function KeyOf(c: Candidate): Key {
    Key(c.slug, c.topic, c.audience)
  }

  function Bucket(candidates: seq<Candidate>, key: Key): seq<Candidate> {
    if candidates == [] then []
    else Bucket(candidates[..|candidates| - 1], key)
         + if KeyOf(candidates[|candidates| - 1]) == key then [candidates[|candidates| - 1]] else []
  }

  /** The keys in order of first appearance. */
  function Keys(candidates: seq<Candidate>): seq<Key> {
    if candidates == [] then []
    else
      var init, key := Keys(candidates[..|candidates| - 1]), KeyOf(candidates[|candidates| - 1]);
      if key in init then init else init + [key]
  }

  function Consolidated(candidates: seq<Candidate>, keys: seq<Key>): seq<Candidate> {
    if keys == [] then []
    else Consolidated(candidates, keys[..|keys| - 1])
         + Kept(StableSort(Bucket(candidates, keys[|keys| - 1]), MoreEvidence))
  }

  lemma {:induction false} BucketIs(candidates: seq<Candidate>, key: Key, c: Candidate)
    ensures c in Bucket(candidates, key) <==> c in candidates && KeyOf(c) == key
  {
    if candidates != [] {
      BucketIs(candidates[..|candidates| - 1], key, c);
      assert candidates == candidates[..|candidates| - 1] + [candidates[|candidates| - 1]];
    }
  }

  lemma {:induction false} KeysAre(candidates: seq<Candidate>, key: Key)
    ensures key in Keys(candidates) <==> exists i :: 0 <= i < |candidates| && KeyOf(candidates[i]) == key
    ensures forall i, j :: 0 <= i < j < |Keys(candidates)| ==> Keys(candidates)[i] != Keys(candidates)[j]
  {
    if candidates != [] {
      var init := candidates[..|candidates| - 1];
      KeysAre(init, key);
      if i :| 0 <= i < |candidates| && KeyOf(candidates[i]) == key {
        if i < |init| { assert KeyOf(init[i]) == key; }
      }
    }
  }

  ghost predicate AllOf(cs: seq<Candidate>, key: Key) {
    forall i :: 0 <= i < |cs| ==> KeyOf(cs[i]) == key
  }

  lemma {:induction false} KeptKeepsKey(ordered: seq<Candidate>, key: Key)
    requires AllOf(ordered, key)
    ensures AllOf(Kept(ordered), key)
  {
    if ordered != [] {
      KeptKeepsKey(ordered[..|ordered| - 1], key);
    }
  }

  lemma SortedBucketKeys(candidates: seq<Candidate>, key: Key)
    ensures AllOf(Kept(StableSort(Bucket(candidates, key), MoreEvidence)), key)
  {
    var bucket := Bucket(candidates, key);
    var ordered := StableSort(bucket, MoreEvidence);
    forall i | 0 <= i < |ordered| ensures KeyOf(ordered[i]) == key {
      SameElements(ordered, bucket, ordered[i]);
      BucketIs(candidates, key, ordered[i]);
    }
    KeptKeepsKey(ordered, key);
  }

  /** Rules of one bucket are pairwise below the duplicate threshold. */
  ghost predicate Separate(out: seq<Candidate>) {
    forall i, j :: 0 <= i < j < |out| && KeyOf(out[i]) == KeyOf(out[j]) ==> !Similar(out[i], out[j], 55)
  }

  ghost predicate Unrepeated(keys: seq<Key>) {
    forall i, j :: 0 <= i < j < |keys| ==> keys[i] != keys[j]
  }

  lemma {:induction false} ConsolidatedIsSeparate(candidates: seq<Candidate>, keys: seq<Key>)
    requires Unrepeated(keys)
    ensures Separate(Consolidated(candidates, keys))
    ensures forall i :: 0 <= i < |Consolidated(candidates, keys)| ==> KeyOf(Consolidated(candidates, keys)[i]) in keys
  {
    hide Kept, Bucket, StableSort, KeyOf, AllOf, NoDuplicates, Separate, Unrepeated, Similar;
    if keys == [] {
      NothingIsSeparate();
    } else {
      var init, key := keys[..|keys| - 1], keys[|keys| - 1];
      LastIsNew(keys);
      ConsolidatedIsSeparate(candidates, init);
      var ordered := StableSort(Bucket(candidates, key), MoreEvidence);
      SortedBucketKeys(candidates, key);
      KeptHasNoDuplicates(ordered);
      var a, b := Consolidated(candidates, init), Kept(ordered);
      Apart(a, b, init, key);
    }
  }

  lemma NothingIsSeparate()
    ensures Separate([])
  {
  }

  lemma LastIsNew(keys: seq<Key>)
    requires Unrepeated(keys) && keys != []
    ensures
      var init, key := keys[..|keys| - 1], keys[|keys| - 1];
      Unrepeated(init) && key !in init && keys == init + [key]
  {
  }

  /** Nothing in a new bucket shares a key with the buckets before it. */
  lemma Apart(a: seq<Candidate>, b: seq<Candidate>, keys: seq<Key>, key: Key)
    requires key !in keys && NoDuplicates(b) && Separate(a)
    requires forall i :: 0 <= i < |a| ==> KeyOf(a[i]) in keys
    requires AllOf(b, key)
    ensures Separate(a + b)
    ensures forall i :: 0 <= i < |a + b| ==> KeyOf((a + b)[i]) in keys + [key]
  {
    hide Similar;
    var out := a + b;
    forall i, j | 0 <= i < j < |out| && KeyOf(out[i]) == KeyOf(out[j])
      ensures !Similar(out[i], out[j], DUPLICATE_SIMILARITY)
    {
      if i >= |a| {
        assert !Similar(b[i - |a|], b[j - |a|], DUPLICATE_SIMILARITY);
      }
    }
  }

  lemma EvidenceConcat(a: seq<Candidate>, b: seq<Candidate>)
    ensures Evidence(a + b) == Evidence(a) + Evidence(b)
  {
    if b == [] {
      assert a + b == a;
    } else {
      assert (a + b)[..|a + b| - 1] == a + b[..|b| - 1];
      EvidenceConcat(a, b[..|b| - 1]);
    }
  }

  /** Some candidate filed under one of these keys has this evidence. */
  ghost predicate Observed(candidates: seq<Candidate>, keys: seq<Key>, e: string) {
    exists i :: 0 <= i < |candidates| && KeyOf(candidates[i]) in keys && e in candidates[i].evidence
  }

  lemma ObservedSplits(candidates: seq<Candidate>, keys: seq<Key>, key: Key, e: string)
    ensures Observed(candidates, keys + [key], e) <==>
            Observed(candidates, keys, e) || e in Evidence(Bucket(candidates, key))
  {
    BucketEvidence(candidates, key, e);
  }

  /** No evidence is lost or made up. */
  lemma {:induction false} ConsolidatedEvidence(candidates: seq<Candidate>, keys: seq<Key>, e: string)
    ensures e in Evidence(Consolidated(candidates, keys)) <==> Observed(candidates, keys, e)
  {
    if keys != [] {
      hide Kept, StableSort, Bucket, Observed, Evidence;
      var init, key := keys[..|keys| - 1], keys[|keys| - 1];
      assert keys == init + [key];
      ConsolidatedEvidence(candidates, init, e);
      var bucket := Bucket(candidates, key);
      EvidenceConcat(Consolidated(candidates, init), Kept(StableSort(bucket, MoreEvidence)));
      KeptKeepsEvidence(StableSort(bucket, MoreEvidence));
      EvidenceSorted(bucket);
      ObservedSplits(candidates, init, key, e);
    }
  }

  lemma BucketEvidence(candidates: seq<Candidate>, key: Key, e: string)
    ensures e in Evidence(Bucket(candidates, key)) <==>
            exists i :: 0 <= i < |candidates| && KeyOf(candidates[i]) == key && e in candidates[i].evidence
  {
    var bucket := Bucket(candidates, key);
    EvidenceIs(bucket, e);
    if i :| 0 <= i < |bucket| && e in bucket[i].evidence {
      BucketIs(candidates, key, bucket[i]);
      var j :| 0 <= j < |candidates| && candidates[j] == bucket[i];
    }
    if i :| 0 <= i < |candidates| && KeyOf(candidates[i]) == key && e in candidates[i].evidence {
      BucketIs(candidates, key, candidates[i]);
      var j :| 0 <= j < |bucket| && bucket[j] == candidates[i];
    }
  }

  /** `consolidate` conserves the union of the evidence, and leaves no duplicates in any bucket. */
  lemma ConsolidationIsSound(candidates: seq<Candidate>)
    ensures
      var out := Consolidated(candidates, Keys(candidates));
      Evidence(out) == Evidence(candidates) && Separate(out)
  {
    var keys := Keys(candidates);
    var out := Consolidated(candidates, keys);
    forall i | 0 <= i < |candidates| ensures KeyOf(candidates[i]) in keys {
      KeysAre(candidates, KeyOf(candidates[i]));
    }
    KeysAre(candidates, Key(None, "", ""));
    ConsolidatedIsSeparate(candidates, keys);
    forall e ensures e in Evidence(out) <==> e in Evidence(candidates) {
      ConsolidatedEvidence(candidates, keys, e);
      EvidenceIs(candidates, e);
    }
  }

  /** Each kept rule stands for members of its bucket, and words itself as one with the most evidence of them. */
  lemma KeptWordingIsBestSupported(candidates: seq<Candidate>, key: Key)
    ensures
      var ordered := StableSort(Bucket(candidates, key), MoreEvidence);
      && |Groups(ordered)| == |Kept(ordered)| && Flatten(Groups(ordered)) == multiset(Bucket(candidates, key))
      && forall k :: 0 <= k < |Kept(ordered)| ==> GroupOk(Kept(ordered)[k], Groups(ordered)[k])
    ensures forall c :: c in Bucket(candidates, key) <==>
              c in candidates && c.slug == key.slug && c.topic == key.topic && c.audience == key.audience
  {
    forall c { BucketIs(candidates, key, c); }
    SortDescends(Bucket(candidates, key));
    GroupsAre(StableSort(Bucket(candidates, key), MoreEvidence));
  }

  lemma FirstIs(kept: seq<Candidate>, c: Candidate, k: nat)
    requires k <= |kept| && (k < |kept| ==> Similar(kept[k], c, DUPLICATE_SIMILARITY))
    requires forall i :: 0 <= i < k ==> !Similar(kept[i], c, DUPLICATE_SIMILARITY)
    ensures FirstSimilar(kept, c) == k
  {
    hide Similar;
  }

  method ConsolidateBucket(bucket: seq<Candidate>) returns (kept: seq<Candidate>)
    ensures kept == Kept(StableSort(bucket, MoreEvidence))
  {
    hide Merge, Similar, StableSort;
    var ordered := StableSort(bucket, MoreEvidence);
    kept := [];
    assert ordered[..0] == [];
    for n := 0 to |ordered|
      invariant kept == Kept(ordered[..n])
    {
      var candidate := ordered[n];
      PrefixGrows(ordered, n);
      var index := 0;
      while index < |kept| && !Similar(kept[index], candidate, DUPLICATE_SIMILARITY)
        invariant index <= |kept|
        invariant forall i :: 0 <= i < index ==> !Similar(kept[i], candidate, DUPLICATE_SIMILARITY)
      {
        index := index + 1;
      }
      FirstIs(kept, candidate, index);
      if index < |kept| {
        kept := kept[index := Merge(kept[index], candidate)];
      } else {
        kept := kept + [candidate];
      }
    }
    WholePrefix(ordered);
  }

  /** The candidates by bucket, in order of first appearance. */
  method FillBuckets(candidates: seq<Candidate>) returns (buckets: map<Key, seq<Candidate>>, order: seq<Key>)
    ensures order == Keys(candidates) && forall key :: key in order ==> key in buckets
    ensures forall key :: key in buckets ==> buckets[key] == Bucket(candidates, key)
  {
    hide KeyOf;
    buckets, order := map[], [];
    for n := 0 to |candidates|
      invariant order == Keys(candidates[..n]) && forall key :: key in buckets <==> key in order
      invariant forall key :: key in buckets ==> buckets[key] == Bucket(candidates[..n], key)
      invariant forall key :: key !in buckets ==> Bucket(candidates[..n], key) == []
    {
      var candidate := candidates[n];
      var key := KeyOf(candidate);
      PrefixGrows(candidates, n);
      if key !in buckets {
        buckets, order := buckets[key := []], order + [key];
      }
      buckets := buckets[key := buckets[key] + [candidate]];
    }
    WholePrefix(candidates);
  }

  /** `consolidate`: the buckets, and then each merged. */
  method Consolidate(candidates: seq<Candidate>) returns (merged: seq<Candidate>)
    ensures merged == Consolidated(candidates, Keys(candidates))
  {
    hide Kept, StableSort, Bucket, Keys;
    var buckets, order := FillBuckets(candidates);
    merged := [];
    for n := 0 to |order|
      invariant merged == Consolidated(candidates, order[..n])
    {
      PrefixGrows(order, n);
      assert order[n] in order;
      var kept := ConsolidateBucket(buckets[order[n]]);
      merged := merged + kept;
    }
    WholePrefix(order);
  }
}
