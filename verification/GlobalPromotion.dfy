/** Replacing rules that agree across properties with one global rule. */
module GlobalPromotion {
  import opened Wrappers
  import opened Sorting
  import opened KnowledgeConsolidation

  /** Marker searches over the wording of one rule, or of a whole cluster. */
  datatype Markers = Markers(
    propertySpecific: Wording -> bool,
    permissive: seq<Wording> -> bool,
    restrictive: seq<Wording> -> bool)

  datatype TopicKey = TopicKey(topic: string, audience: string)

  predicate IsLocal(c: Candidate, key: TopicKey) {
    c.slug.Some? && TopicKey(c.topic, c.audience) == key
  }

  /** Positions of per-property rules of one topic. */
  predicate Locals(cs: seq<Candidate>, key: TopicKey, positions: seq<nat>) {
    forall i :: 0 <= i < |positions| ==> positions[i] < |cs| && IsLocal(cs[positions[i]], key)
  }

  predicate InRange(cs: seq<Candidate>, positions: seq<nat>) {
    forall i :: 0 <= i < |positions| ==> positions[i] < |cs|
  }

  /** Where the per-property rules of a topic are. */
  function Positions(cs: seq<Candidate>, key: TopicKey): (r: seq<nat>)
    ensures Locals(cs, key, r)
    ensures forall p: nat :: p < |cs| && IsLocal(cs[p], key) ==> p in r
  {
    if cs == [] then []
    else
      var n := |cs| - 1;
      Positions(cs[..n], key) + if IsLocal(cs[n], key) then [n] else []
  }

  function TopicKeys(cs: seq<Candidate>): seq<TopicKey> {
    if cs == [] then []
    else
      var init, c := TopicKeys(cs[..|cs| - 1]), cs[|cs| - 1];
      var key := TopicKey(c.topic, c.audience);
      if c.slug.None? || key in init then init else init + [key]
  }

  function Support(cs: seq<Candidate>, i: nat): nat {
    if i < |cs| then |cs[i].evidence| else 0
  }

  function BetterSupported(cs: seq<Candidate>): (nat, nat) -> bool {
    (i: nat, j: nat) => Support(cs, i) > Support(cs, j)
  }

  /** The rules close to the best-supported one, and that one first. */
  function Near(cs: seq<Candidate>, seed: nat, ordered: seq<nat>): (r: seq<nat>)
    requires seed < |cs| && InRange(cs, ordered)
    ensures InRange(cs, r)
    ensures forall p :: p in r ==> p in ordered && (p == seed || Similar(cs[seed], cs[p], GLOBAL_SIMILARITY))
  {
    if ordered == [] then []
    else
      (if ordered[0] == seed || Similar(cs[seed], cs[ordered[0]], GLOBAL_SIMILARITY) then [ordered[0]] else [])
      + Near(cs, seed, ordered[1..])
  }

  function Cluster(cs: seq<Candidate>, key: TopicKey): (r: seq<nat>)
    ensures Locals(cs, key, r)
  {
    var ordered := StableSort<nat>(Positions(cs, key), BetterSupported(cs));
    SortedPositions(cs, key);
    if ordered == [] then []
    else
      var near := Near(cs, ordered[0], ordered);
      assert forall i :: 0 <= i < |near| ==> near[i] in near;
      near
  }

  lemma SortedPositions(cs: seq<Candidate>, key: TopicKey)
    ensures Locals(cs, key, StableSort<nat>(Positions(cs, key), BetterSupported(cs)))
  {
    var ordered := StableSort<nat>(Positions(cs, key), BetterSupported(cs));
    forall i | 0 <= i < |ordered| ensures ordered[i] < |cs| && IsLocal(cs[ordered[i]], key) {
      SameElements(ordered, Positions(cs, key), ordered[i]);
    }
  }

  function At(cs: seq<Candidate>, positions: seq<nat>): (r: seq<Candidate>)
    requires InRange(cs, positions)
    ensures |r| == |positions| && forall i :: 0 <= i < |r| ==> r[i] == cs[positions[i]]
  {
    if positions == [] then [] else At(cs, positions[..|positions| - 1]) + [cs[positions[|positions| - 1]]]
  }

  /** The named properties of a cluster; Python's truth test passes over an empty name. */
  function Slugs(cluster: seq<Candidate>): set<string> {
    set c | c in cluster && Truthy(c.slug) :: c.slug.value
  }

  function Owners(cluster: seq<Candidate>): set<Option<string>> {
    set c | c in cluster :: c.slug
  }

  function Wordings(cluster: seq<Candidate>): seq<Wording> {
    if cluster == [] then [] else Wordings(cluster[..|cluster| - 1]) + [cluster[|cluster| - 1].wording]
  }

  predicate HoldAnywhere(m: Markers, cluster: seq<Candidate>) {
    forall c :: c in cluster ==> !m.propertySpecific(c.wording) && !c.numericFact
  }

  /** `may_be_global`. */
  predicate MayBeGlobal(m: Markers, cluster: seq<Candidate>) {
    && |Properties(cluster) + Slugs(cluster)| >= MIN_PROPERTIES_FOR_GLOBAL
    && HoldAnywhere(m, cluster)
    && !(m.permissive(Wordings(cluster)) && m.restrictive(Wordings(cluster)))
  }

  predicate Promotable(m: Markers, group: seq<nat>, cluster: seq<Candidate>) {
    && |group| >= MIN_PROPERTIES_FOR_GLOBAL && |Owners(cluster)| >= MIN_PROPERTIES_FOR_GLOBAL
    && MayBeGlobal(m, cluster)
  }

  function GlobalRule(key: TopicKey, cluster: seq<Candidate>): Candidate
    requires cluster != []
  {
    var combined := Folded(cluster);
    combined.(slug := None, topic := key.topic, audience := key.audience,
              properties := Slugs(cluster) + combined.properties)
  }

  /** The promoted rules, and the positions they stand for. */
  function Promoted(m: Markers, cs: seq<Candidate>, keys: seq<TopicKey>): (seq<Candidate>, set<nat>) {
    if keys == [] then ([], {})
    else
      var (rules, absorbed) := Promoted(m, cs, keys[..|keys| - 1]);
      var key := keys[|keys| - 1];
      var cluster := Cluster(cs, key);
      if cluster != [] && Promotable(m, Positions(cs, key), At(cs, cluster))
      then (rules + [GlobalRule(key, At(cs, cluster))], absorbed + set p: nat | p in cluster)
      else (rules, absorbed)
  }

  function Remaining(cs: seq<Candidate>, absorbed: set<nat>): seq<Candidate> {
    if cs == [] then []
    else
      var n := |cs| - 1;
      Remaining(cs[..n], absorbed) + if n in absorbed then [] else [cs[n]]
  }

  /** `promote_global`: what is left of the candidates, and the new rules after it. */
  function PromoteGlobal(m: Markers, cs: seq<Candidate>): (seq<Candidate>, nat) {
    var (rules, absorbed) := Promoted(m, cs, TopicKeys(cs));
    (Remaining(cs, absorbed) + rules, |rules|)
  }

  // -- what a promoted rule rests on -------------------------------------

  lemma {:induction false} FoldedEvidence(cluster: seq<Candidate>, e: string)
    requires cluster != []
    ensures e in Folded(cluster).evidence <==> exists i :: 0 <= i < |cluster| && e in cluster[i].evidence
  {
    hide Merge;
    if |cluster| == 1 {
      assert Folded(cluster) == cluster[0];
    } else {
      var init, last := cluster[..|cluster| - 1], cluster[|cluster| - 1];
      FoldedEvidence(init, e);
      MergedEvidence(Folded(init), last);
      assert e in Folded(cluster).evidence <==> e in Refs(Folded(cluster));
      if i :| 0 <= i < |cluster| && e in cluster[i].evidence {
        if i < |init| { assert e in init[i].evidence; }
      }
    }
  }

  lemma {:induction false} FoldedKeeps(cluster: seq<Candidate>)
    requires cluster != []
    ensures Folded(cluster).wording == cluster[0].wording
    ensures Folded(cluster).properties == Properties(cluster)
    ensures Folded(cluster).numericFact <==> exists i :: 0 <= i < |cluster| && cluster[i].numericFact
  {
    hide Merge;
    if |cluster| > 1 {
      var init := cluster[..|cluster| - 1];
      FoldedKeeps(init);
      MergeKeeps(Folded(init), cluster[|cluster| - 1]);
      if i :| 0 <= i < |cluster| && cluster[i].numericFact {
        if i < |init| { assert init[i].numericFact; }
      }
    }
  }

  /** A rule that stands for the whole portfolio: three properties at least, no number, and a local wording nowhere. */
  ghost predicate RestsOnThree(m: Markers, rule: Candidate) {
    && rule.slug.None? && |rule.properties| >= 3
    && !rule.numericFact && !m.propertySpecific(rule.wording)
  }

  lemma GlobalRuleRests(m: Markers, key: TopicKey, group: seq<nat>, cluster: seq<Candidate>)
    requires cluster != [] && Promotable(m, group, cluster)
    ensures RestsOnThree(m, GlobalRule(key, cluster))
  {
    FoldedKeeps(cluster);
    assert cluster[0] in cluster;
    assert Slugs(cluster) + Properties(cluster) == Properties(cluster) + Slugs(cluster);
  }

  lemma {:induction false} PromotedRest(m: Markers, cs: seq<Candidate>, keys: seq<TopicKey>)
    ensures forall i :: 0 <= i < |Promoted(m, cs, keys).0| ==> RestsOnThree(m, Promoted(m, cs, keys).0[i])
  {
    hide RestsOnThree, Promotable, GlobalRule;
    if keys != [] {
      PromotedRest(m, cs, keys[..|keys| - 1]);
      var key := keys[|keys| - 1];
      var cluster := Cluster(cs, key);
      if cluster != [] && Promotable(m, Positions(cs, key), At(cs, cluster)) {
        GlobalRuleRests(m, key, Positions(cs, key), At(cs, cluster));
      }
    }
  }

  // -- which topics are promoted -----------------------------------------

  /** Of a topic's per-property rules, the best supported; the first of several. */
  ghost predicate IsSeed(cs: seq<Candidate>, key: TopicKey, seed: nat) {
    && seed < |cs| && IsLocal(cs[seed], key)
    && forall p: nat :: p < |cs| && IsLocal(cs[p], key) ==>
         Support(cs, p) < Support(cs, seed) || (Support(cs, p) == Support(cs, seed) && seed <= p)
  }

  /** The seed first, and then whatever of its topic is close to it, each once. */
  ghost predicate IsNear(cs: seq<Candidate>, key: TopicKey, near: seq<nat>) {
    && near != [] && IsSeed(cs, key, near[0])
    && (forall p: nat :: p in near <==>
          p < |cs| && IsLocal(cs[p], key) && (p == near[0] || Similar(cs[near[0]], cs[p], 45)))
    && (forall i, j :: 0 <= i < j < |near| ==> near[i] != near[j])
  }

  lemma {:induction false} PositionsAscend(cs: seq<Candidate>, key: TopicKey)
    ensures forall i, j :: 0 <= i < j < |Positions(cs, key)| ==> Positions(cs, key)[i] < Positions(cs, key)[j]
  {
    if cs != [] {
      PositionsAscend(cs[..|cs| - 1], key);
    }
  }

  predicate Earlier(i: nat, j: nat) {
    i < j
  }

  /** The positions as they are gone through: better support first, and in order where it is level. */
  lemma OrderedPositions(cs: seq<Candidate>, key: TopicKey)
    ensures
      var ordered := StableSort<nat>(Positions(cs, key), BetterSupported(cs));
      && (forall p: nat :: p in ordered <==> p < |cs| && IsLocal(cs[p], key))
      && LexSorted<nat>(ordered, BetterSupported(cs), Earlier)
      && (forall i, j :: 0 <= i < j < |ordered| ==> ordered[i] != ordered[j])
  {
    var positions := Positions(cs, key);
    var ordered := StableSort<nat>(positions, BetterSupported(cs));
    PositionsAscend(cs, key);
    StableSortRefines<nat>(positions, BetterSupported(cs), Earlier);
    forall p: nat ensures p in ordered <==> p in positions {
      SameElements(ordered, positions, p);
    }
    forall i, j | 0 <= i < j < |ordered| ensures ordered[i] != ordered[j] {
      assert Lex<nat>(BetterSupported(cs), Earlier, ordered[i], ordered[j]);
    }
    forall p: nat ensures p in positions <==> p < |cs| && IsLocal(cs[p], key) {
      if p in positions {
        var i :| 0 <= i < |positions| && positions[i] == p;
      }
    }
  }

  lemma {:induction false} NearAre(cs: seq<Candidate>, seed: nat, ordered: seq<nat>, p: nat)
    requires seed < |cs| && InRange(cs, ordered)
    ensures p in Near(cs, seed, ordered) <==> p in ordered && (p == seed || Similar(cs[seed], cs[p], GLOBAL_SIMILARITY))
  {
    hide Similar;
    if ordered != [] {
      NearAre(cs, seed, ordered[1..], p);
      assert ordered == [ordered[0]] + ordered[1..];
    }
  }

  lemma {:induction false} NearIs(cs: seq<Candidate>, seed: nat, ordered: seq<nat>)
    requires seed < |cs| && InRange(cs, ordered)
    requires forall i, j :: 0 <= i < j < |ordered| ==> ordered[i] != ordered[j]
    ensures
      var near := Near(cs, seed, ordered);
      && (forall p: nat :: p in near <==> p in ordered && (p == seed || Similar(cs[seed], cs[p], GLOBAL_SIMILARITY)))
      && (forall i, j :: 0 <= i < j < |near| ==> near[i] != near[j])
      && (ordered != [] && ordered[0] == seed ==> near != [] && near[0] == seed)
  {
    hide Similar;
    forall p: nat { NearAre(cs, seed, ordered, p); }
    if ordered != [] {
      var rest := Near(cs, seed, ordered[1..]);
      NearIs(cs, seed, ordered[1..]);
      assert ordered[0] !in ordered[1..];
      assert ordered[0] !in rest;
    }
  }

  lemma ClusterIsNear(cs: seq<Candidate>, key: TopicKey)
    ensures Cluster(cs, key) == [] <==> forall p: nat :: p < |cs| ==> !IsLocal(cs[p], key)
    ensures Cluster(cs, key) != [] ==> IsNear(cs, key, Cluster(cs, key))
  {
    OrderedPositions(cs, key);
    SortedPositions(cs, key);
    var ordered := StableSort<nat>(Positions(cs, key), BetterSupported(cs));
    hide StableSort, Positions, IsLocal, Similar;
    if ordered != [] {
      NearIs(cs, ordered[0], ordered);
      forall p: nat | p < |cs| && IsLocal(cs[p], key)
        ensures Support(cs, p) < Support(cs, ordered[0]) || (Support(cs, p) == Support(cs, ordered[0]) && ordered[0] <= p)
      {
        var i :| 0 <= i < |ordered| && ordered[i] == p;
        if i > 0 { assert Lex<nat>(BetterSupported(cs), Earlier, ordered[0], ordered[i]); }
      }
    }
  }

  ghost function LocalsOf(cs: seq<Candidate>, key: TopicKey): set<nat> {
    set p: nat | p < |cs| && IsLocal(cs[p], key)
  }

  ghost function OwnersOf(cs: seq<Candidate>, near: seq<nat>): set<Option<string>>
    requires InRange(cs, near)
  {
    set p: nat | p in near :: cs[p].slug
  }

  ghost function NamesOf(cs: seq<Candidate>, near: seq<nat>): set<string>
    requires InRange(cs, near)
  {
    set p: nat | p in near && Truthy(cs[p].slug) :: cs[p].slug.value
  }

  ghost function PropertiesOf(cs: seq<Candidate>, near: seq<nat>): set<string>
    requires InRange(cs, near)
  {
    set p: nat, x | p in near && x in cs[p].properties :: x
  }

  ghost predicate AllHoldAnywhere(m: Markers, cs: seq<Candidate>, near: seq<nat>)
    requires InRange(cs, near)
  {
    forall p: nat :: p in near ==> !m.propertySpecific(cs[p].wording) && !cs[p].numericFact
  }

  /** Three rules of the topic, and what is near the best of them: three owners, three properties, and nothing against it. */
  ghost predicate Agrees(m: Markers, cs: seq<Candidate>, key: TopicKey, near: seq<nat>)
    requires InRange(cs, near)
  {
    && |LocalsOf(cs, key)| >= 3 && |OwnersOf(cs, near)| >= 3 && |PropertiesOf(cs, near) + NamesOf(cs, near)| >= 3
    && AllHoldAnywhere(m, cs, near)
    && !(m.permissive(Wordings(At(cs, near))) && m.restrictive(Wordings(At(cs, near))))
  }

  lemma {:induction false} DistinctCount(xs: seq<nat>, s: set<nat>)
    requires forall i, j :: 0 <= i < j < |xs| ==> xs[i] != xs[j]
    requires forall x :: x in s <==> x in xs
    ensures |xs| == |s|
  {
    if xs == [] {
      assert s == {};
    } else {
      assert xs == [xs[0]] + xs[1..];
      DistinctCount(xs[1..], s - {xs[0]});
    }
  }

  lemma LocalCount(cs: seq<Candidate>, key: TopicKey)
    ensures |Positions(cs, key)| == |LocalsOf(cs, key)|
  {
    PositionsAscend(cs, key);
    var positions := Positions(cs, key);
    forall x ensures x in LocalsOf(cs, key) <==> x in positions {
      if x in positions {
        var i :| 0 <= i < |positions| && positions[i] == x;
      }
    }
    DistinctCount(positions, LocalsOf(cs, key));
  }

  lemma {:induction false} PropertiesAre(cs: seq<Candidate>, x: string)
    ensures x in Properties(cs) <==> exists i :: 0 <= i < |cs| && x in cs[i].properties
  {
    if cs != [] {
      var init := cs[..|cs| - 1];
      PropertiesAre(init, x);
      if i :| 0 <= i < |cs| && x in cs[i].properties {
        if i < |init| { assert x in init[i].properties; }
      }
    }
  }

  /** What a cluster's rules name and own, by their positions. */
  lemma ClusterSets(cs: seq<Candidate>, near: seq<nat>)
    requires InRange(cs, near)
    ensures
      var at := At(cs, near);
      && Owners(at) == OwnersOf(cs, near) && Properties(at) == PropertiesOf(cs, near) && Slugs(at) == NamesOf(cs, near)
  {
    var at := At(cs, near);
    forall p | p in near ensures cs[p] in at {
      var i :| 0 <= i < |near| && near[i] == p;
      assert at[i] == cs[p];
    }
    forall c | c in at ensures exists p: nat :: p in near && cs[p] == c {
      var i :| 0 <= i < |at| && at[i] == c;
      assert near[i] in near;
    }
    forall x ensures x in Properties(at) <==> exists p: nat :: p in near && x in cs[p].properties {
      PropertiesAre(at, x);
      if p: nat :| p in near && x in cs[p].properties {
        var i :| 0 <= i < |near| && near[i] == p;
        assert x in at[i].properties;
      }
      if i :| 0 <= i < |at| && x in at[i].properties {
        assert near[i] in near;
      }
    }
  }

  lemma ClusterHolds(m: Markers, cs: seq<Candidate>, near: seq<nat>)
    requires InRange(cs, near)
    ensures HoldAnywhere(m, At(cs, near)) <==> AllHoldAnywhere(m, cs, near)
  {
    var at := At(cs, near);
    hide At;
    if HoldAnywhere(m, at) {
      forall p: nat | p in near ensures !m.propertySpecific(cs[p].wording) && !cs[p].numericFact {
        var i :| 0 <= i < |near| && near[i] == p;
        assert at[i] in at;
      }
    } else {
      var c :| c in at && (m.propertySpecific(c.wording) || c.numericFact);
      var i :| 0 <= i < |at| && at[i] == c;
      assert near[i] in near;
    }
  }

  lemma PromotableMeans(m: Markers, cs: seq<Candidate>, key: TopicKey, near: seq<nat>)
    requires InRange(cs, near)
    ensures Promotable(m, Positions(cs, key), At(cs, near)) <==> Agrees(m, cs, key, near)
  {
    LocalCount(cs, key);
    ClusterSets(cs, near);
    ClusterHolds(m, cs, near);
    hide HoldAnywhere, AllHoldAnywhere, InRange, Positions, Owners, Slugs, Properties, Wordings, At, LocalsOf, OwnersOf, NamesOf, PropertiesOf;
  }

  predicate IsFor(rule: Candidate, key: TopicKey) {
    rule.slug.None? && rule.topic == key.topic && rule.audience == key.audience
  }

  const ANY_RULE := Candidate(None, "", "", Wording("", "", {}), false, {}, [], {}, None, None)

  /** Each rule is its topic's. */
  ghost predicate RulesAre(m: Markers, cs: seq<Candidate>, keys: seq<TopicKey>, rules: seq<Candidate>) {
    && (forall i :: 0 <= i < |rules| ==> HasTopic(m, cs, keys, rules[i]))
    && (forall k :: k in keys && Chosen(m, cs, k) ==> exists i :: 0 <= i < |rules| && IsRuleOf(m, cs, k, rules[i]))
  }

  ghost predicate HasTopic(m: Markers, cs: seq<Candidate>, keys: seq<TopicKey>, rule: Candidate) {
    exists j :: 0 <= j < |keys| && IsRuleOf(m, cs, keys[j], rule)
  }

  predicate IsRuleOf(m: Markers, cs: seq<Candidate>, key: TopicKey, rule: Candidate) {
    Chosen(m, cs, key) && rule == GlobalRule(key, At(cs, Cluster(cs, key)))
  }

  /** What is absorbed is the clusters of the topics promoted. */
  ghost predicate AbsorbsClusters(m: Markers, cs: seq<Candidate>, keys: seq<TopicKey>, absorbed: set<nat>) {
    forall p: nat :: p in absorbed <==> exists k :: k in keys && Chosen(m, cs, k) && p in Cluster(cs, k)
  }

  lemma RulesGrow(m: Markers, cs: seq<Candidate>, keys: seq<TopicKey>, rules: seq<Candidate>, key: TopicKey, rule: Candidate)
    requires RulesAre(m, cs, keys, rules) && (Chosen(m, cs, key) ==> IsRuleOf(m, cs, key, rule))
    ensures RulesAre(m, cs, keys + [key], if Chosen(m, cs, key) then rules + [rule] else rules)
  {
    hide Chosen, IsRuleOf;
    var more, longer := keys + [key], if Chosen(m, cs, key) then rules + [rule] else rules;
    forall i | 0 <= i < |longer| ensures HasTopic(m, cs, more, longer[i]) {
      if i < |rules| {
        assert HasTopic(m, cs, keys, rules[i]);
        var j :| 0 <= j < |keys| && IsRuleOf(m, cs, keys[j], rules[i]);
        assert more[j] == keys[j] && longer[i] == rules[i];
      } else {
        assert more[|keys|] == key;
      }
    }
    forall k | k in more && Chosen(m, cs, k) ensures exists i :: 0 <= i < |longer| && IsRuleOf(m, cs, k, longer[i]) {
      if k in keys {
        var i :| 0 <= i < |rules| && IsRuleOf(m, cs, k, rules[i]);
        assert longer[i] == rules[i];
      } else {
        assert longer[|rules|] == rule;
      }
    }
  }

  lemma ClustersGrow(m: Markers, cs: seq<Candidate>, keys: seq<TopicKey>, absorbed: set<nat>, key: TopicKey)
    requires AbsorbsClusters(m, cs, keys, absorbed)
    ensures !Chosen(m, cs, key) ==> AbsorbsClusters(m, cs, keys + [key], absorbed)
    ensures Chosen(m, cs, key) ==> AbsorbsClusters(m, cs, keys + [key], absorbed + set p: nat | p in Cluster(cs, key))
  {
    hide Chosen, Cluster;
    var more := keys + [key];
    forall k ensures k in more <==> k in keys || k == key {
    }
  }

  /** The rules promoted, and what they absorb, topic by topic. */
  lemma {:induction false} PromotedFor(m: Markers, cs: seq<Candidate>, keys: seq<TopicKey>)
    ensures RulesAre(m, cs, keys, Promoted(m, cs, keys).0) && AbsorbsClusters(m, cs, keys, Promoted(m, cs, keys).1)
  {
    hide Promotable, GlobalRule, Cluster, Positions, At;
    if keys != [] {
      hide RulesAre, AbsorbsClusters;
      var init, key := keys[..|keys| - 1], keys[|keys| - 1];
      PromotedFor(m, cs, init);
      SplitLast(keys);
      var rule := if Chosen(m, cs, key) then GlobalRule(key, At(cs, Cluster(cs, key))) else ANY_RULE;
      RulesGrow(m, cs, init, Promoted(m, cs, init).0, key, rule);
      ClustersGrow(m, cs, init, Promoted(m, cs, init).1, key);
    }
  }

  predicate Chosen(m: Markers, cs: seq<Candidate>, key: TopicKey) {
    Cluster(cs, key) != [] && Promotable(m, Positions(cs, key), At(cs, Cluster(cs, key)))
  }

  lemma {:induction false} TopicKeysAre(cs: seq<Candidate>, key: TopicKey)
    ensures key in TopicKeys(cs) <==> exists p: nat :: p < |cs| && IsLocal(cs[p], key)
  {
    if cs != [] {
      var init := cs[..|cs| - 1];
      TopicKeysAre(init, key);
      if p: nat :| p < |cs| && IsLocal(cs[p], key) {
        if p < |init| { assert IsLocal(init[p], key); }
      }
    }
  }

  lemma GlobalRuleIsFor(key: TopicKey, cluster: seq<Candidate>)
    requires cluster != []
    ensures IsFor(GlobalRule(key, cluster), key)
  {
    hide Folded;
  }

  lemma RuleOfTopic(m: Markers, cs: seq<Candidate>, keys: seq<TopicKey>, rules: seq<Candidate>, key: TopicKey)
    requires RulesAre(m, cs, keys, rules)
    ensures (exists i :: 0 <= i < |rules| && IsFor(rules[i], key)) <==> key in keys && Chosen(m, cs, key)
  {
    hide Promotable, GlobalRule, Cluster, Positions, At;
    if i :| 0 <= i < |rules| && IsFor(rules[i], key) {
      assert HasTopic(m, cs, keys, rules[i]);
      var j :| 0 <= j < |keys| && IsRuleOf(m, cs, keys[j], rules[i]);
      var k := keys[j];
      GlobalRuleIsFor(k, At(cs, Cluster(cs, k)));
    }
    if key in keys && Chosen(m, cs, key) {
      var i :| 0 <= i < |rules| && IsRuleOf(m, cs, key, rules[i]);
      GlobalRuleIsFor(key, At(cs, Cluster(cs, key)));
    }
  }

  lemma AbsorbedOfTopic(m: Markers, cs: seq<Candidate>, keys: seq<TopicKey>, absorbed: set<nat>, key: TopicKey, p: nat)
    requires AbsorbsClusters(m, cs, keys, absorbed) && p < |cs| && IsLocal(cs[p], key)
    ensures p in absorbed <==> key in keys && Chosen(m, cs, key) && p in Cluster(cs, key)
  {
    hide Promotable, Cluster, Positions, Chosen;
    forall k | p in Cluster(cs, k) ensures k == key {
      ClusterIsNear(cs, k);
    }
  }

  /**
   A topic is promoted exactly if what is near its best supported rule agrees; the rules it then
   loses are exactly those, and every other rule stays.
   */
  lemma PromotedExactly(m: Markers, cs: seq<Candidate>, key: TopicKey, p: nat)
    ensures
      var (rules, absorbed) := Promoted(m, cs, TopicKeys(cs));
      var near := Cluster(cs, key);
      && (near == [] <==> forall q: nat :: q < |cs| ==> !IsLocal(cs[q], key)) && (near != [] ==> IsNear(cs, key, near))
      && ((exists i :: 0 <= i < |rules| && IsFor(rules[i], key)) <==> near != [] && Agrees(m, cs, key, near))
      && (p < |cs| && IsLocal(cs[p], key) ==> (p in absorbed <==> p in near && Agrees(m, cs, key, near)))
  {
    var keys, near := TopicKeys(cs), Cluster(cs, key);
    ClusterIsNear(cs, key);
    PromotableMeans(m, cs, key, near);
    TopicKeysAre(cs, key);
    PromotedFor(m, cs, keys);
    var (rules, absorbed) := Promoted(m, cs, keys);
    hide Promoted, Cluster, Promotable, Agrees, IsNear, Positions, TopicKeys, RulesAre, AbsorbsClusters, IsFor;
    RuleOfTopic(m, cs, keys, rules, key);
    if p < |cs| && IsLocal(cs[p], key) {
      AbsorbedOfTopic(m, cs, keys, absorbed, key, p);
    }
  }

  /** What a promoted rule was first and last seen on spans what each of its cluster was. */
  lemma PromotedRuleSpansAll(key: TopicKey, cs: seq<Candidate>, near: seq<nat>, i: nat, stamp: string)
    requires |near| > 1 && InRange(cs, near) && i < |near| && stamp in Stamps(cs[near[i]])
    ensures Spans(GlobalRule(key, At(cs, near)), stamp)
  {
    FoldedSpans(At(cs, near), i, stamp);
  }

  lemma RuleIsFolded(key: TopicKey, cluster: seq<Candidate>)
    requires cluster != []
    ensures
      var rule, folded := GlobalRule(key, cluster), Folded(cluster);
      && rule.wording == folded.wording && rule.safetyReasons == folded.safetyReasons
      && rule.properties == Slugs(cluster) + folded.properties
  {
    hide Folded, Slugs;
  }

  lemma ClusterProperties(cs: seq<Candidate>, near: seq<nat>, e: string)
    requires InRange(cs, near)
    ensures e in Slugs(At(cs, near)) + Properties(At(cs, near)) <==>
            exists p: nat :: p in near && (e in cs[p].properties || (e != "" && cs[p].slug == Some(e)))
  {
    ClusterSets(cs, near);
    hide Slugs, Properties, Owners, At;
  }

  /** A promoted rule speaks for its cluster: the seed's words, everybody's evidence, properties and safety reasons. */
  lemma PromotedRuleSpeaksForAll(key: TopicKey, cs: seq<Candidate>, near: seq<nat>, e: string)
    requires near != [] && InRange(cs, near)
    ensures
      var rule := GlobalRule(key, At(cs, near));
      && IsFor(rule, key) && rule.wording == cs[near[0]].wording
      && (e in rule.evidence <==> exists p: nat :: p in near && e in cs[p].evidence)
      && (e in rule.properties <==>
            exists p: nat :: p in near && (e in cs[p].properties || (e != "" && cs[p].slug == Some(e))))
      && (e in rule.safetyReasons <==> exists p: nat :: p in near && Warns(cs, p, e))
  {
    var at := At(cs, near);
    hide *;
    GlobalRuleIsFor(key, at);
    RuleIsFolded(key, at);
    FoldedKeeps(at);
    ClusterEvidence(cs, near, key, e);
    ClusterProperties(cs, near, e);
    ClusterSafety(cs, near, e);
  }

  predicate Warns(cs: seq<Candidate>, p: nat, e: string) {
    p < |cs| && e in cs[p].safetyReasons
  }

  lemma ClusterSafety(cs: seq<Candidate>, near: seq<nat>, e: string)
    requires near != [] && InRange(cs, near)
    ensures e in Folded(At(cs, near)).safetyReasons <==> exists p: nat :: p in near && Warns(cs, p, e)
  {
    var at := At(cs, near);
    FoldedSafety(at, e);
    hide Folded;
    if e in Folded(at).safetyReasons {
      var i: nat :| Warns(at, i, e);
      assert near[i] in near && Warns(cs, near[i], e);
    } else if p: nat :| p in near && Warns(cs, p, e) {
      var i :| 0 <= i < |near| && near[i] == p;
      assert Warns(at, i, e);
    }
  }

  lemma {:induction false} FoldedSafety(cluster: seq<Candidate>, e: string)
    requires cluster != []
    ensures e in Folded(cluster).safetyReasons <==> exists i: nat :: Warns(cluster, i, e)
  {
    hide Merge;
    if |cluster| == 1 {
      assert Warns(cluster, 0, e) <==> e in cluster[0].safetyReasons;
    } else {
      var init, last := cluster[..|cluster| - 1], cluster[|cluster| - 1];
      FoldedSafety(init, e);
      MergeKeeps(Folded(init), last);
      assert e in last.safetyReasons ==> Warns(cluster, |init|, e);
      if i: nat :| Warns(init, i, e) { assert Warns(cluster, i, e); }
      if i: nat :| Warns(cluster, i, e) {
        if i < |init| { assert Warns(init, i, e); }
      }
    }
  }

  // -- what is conserved -------------------------------------------------

  lemma ClusterEvidence(cs: seq<Candidate>, cluster: seq<nat>, key: TopicKey, e: string)
    requires cluster != [] && InRange(cs, cluster)
    ensures e in GlobalRule(key, At(cs, cluster)).evidence <==> exists p: nat :: p in cluster && e in cs[p].evidence
  {
    var at := At(cs, cluster);
    FoldedEvidence(at, e);
    if i :| 0 <= i < |at| && e in at[i].evidence {
      assert cluster[i] in cluster;
    }
    if p: nat :| p in cluster && e in cs[p].evidence {
      var i :| 0 <= i < |cluster| && cluster[i] == p;
      assert e in at[i].evidence;
    }
  }

  /** The promoted rules carry exactly the evidence of the rules they absorb, and absorb only per-property ones. */
  lemma {:induction false} PromotedEvidence(m: Markers, cs: seq<Candidate>, keys: seq<TopicKey>, e: string)
    ensures
      var (rules, absorbed) := Promoted(m, cs, keys);
      && (forall p: nat :: p in absorbed ==> p < |cs| && cs[p].slug.Some?)
      && (e in Evidence(rules) <==> exists p: nat :: p in absorbed && e in cs[p].evidence)
  {
    hide Promotable, GlobalRule, Cluster, Positions;
    if keys != [] {
      var init, key := keys[..|keys| - 1], keys[|keys| - 1];
      PromotedEvidence(m, cs, init, e);
      var (rules, absorbed) := Promoted(m, cs, init);
      var cluster := Cluster(cs, key);
      if cluster != [] && Promotable(m, Positions(cs, key), At(cs, cluster)) {
        var rule := GlobalRule(key, At(cs, cluster));
        ClusterEvidence(cs, cluster, key, e);
        assert (rules + [rule])[..|rules|] == rules;
        assert Evidence(rules + [rule]) == Evidence(rules) + Refs(rule);
      }
    }
  }

  lemma {:induction false} RemainingEvidence(cs: seq<Candidate>, absorbed: set<nat>, e: string)
    ensures e in Evidence(Remaining(cs, absorbed)) <==>
            exists i: nat :: i < |cs| && i !in absorbed && e in cs[i].evidence
  {
    if cs != [] {
      var n := |cs| - 1;
      var rest := Remaining(cs[..n], absorbed);
      RemainingEvidence(cs[..n], absorbed, e);
      if n !in absorbed {
        assert (rest + [cs[n]])[..|rest|] == rest;
      } else {
        assert rest + [] == rest;
      }
      if i: nat :| i < |cs| && i !in absorbed && e in cs[i].evidence {
        if i < n { assert e in cs[..n][i].evidence; }
      }
    }
  }

  /** `promote_global` conserves the union of the evidence, and each rule it adds rests on three properties. */
  lemma PromotionIsSound(m: Markers, cs: seq<Candidate>)
    ensures
      var (out, count) := PromoteGlobal(m, cs);
      && Evidence(out) == Evidence(cs)
      && count <= |out| && forall i :: |out| - count <= i < |out| ==> RestsOnThree(m, out[i])
  {
    var (rules, absorbed) := Promoted(m, cs, TopicKeys(cs));
    var remaining := Remaining(cs, absorbed);
    var out := remaining + rules;
    EvidenceConcat(remaining, rules);
    PromotedRest(m, cs, TopicKeys(cs));
    hide Evidence, Promoted, Remaining, RestsOnThree, TopicKeys;
    forall e ensures e in Evidence(out) <==> e in Evidence(cs) {
      PromotedEvidence(m, cs, TopicKeys(cs), e);
      RemainingEvidence(cs, absorbed, e);
      EvidenceIs(cs, e);
    }
  }

  // -- as it is written --------------------------------------------------

  /** All properties a cluster speaks of, as evidence or as owners. */
  method CollectProperties(cluster: seq<Candidate>) returns (properties: set<string>)
    ensures properties == Properties(cluster) + Slugs(cluster)
  {
    properties := {};
    for n := 0 to |cluster|
      invariant properties == Properties(cluster[..n]) + Slugs(cluster[..n])
    {
      PrefixGrows(cluster, n);
      properties := properties + cluster[n].properties;
      if Truthy(cluster[n].slug) {
        properties := properties + {cluster[n].slug.value};
      }
    }
    WholePrefix(cluster);
  }

  /** `may_be_global`. */
  method CheckMayBeGlobal(m: Markers, cluster: seq<Candidate>) returns (ok: bool)
    ensures ok <==> MayBeGlobal(m, cluster)
  {
    hide Properties, Slugs, Wordings;
    var properties := CollectProperties(cluster);
    if |properties| < MIN_PROPERTIES_FOR_GLOBAL {
      return false;
    }
    for n := 0 to |cluster|
      invariant forall i :: 0 <= i < n ==> !m.propertySpecific(cluster[i].wording) && !cluster[i].numericFact
    {
      if m.propertySpecific(cluster[n].wording) || cluster[n].numericFact {
        assert cluster[n] in cluster;
        return false;
      }
    }
    var body := Wordings(cluster);
    ok := !(m.permissive(body) && m.restrictive(body));
  }

  lemma NoTopics(cs: seq<Candidate>)
    ensures TopicKeys(cs[..0]) == [] && forall key :: Positions(cs[..0], key) == []
  {
  }

  lemma TopicTurn(cs: seq<Candidate>, n: nat)
    requires n < |cs|
    ensures
      var key, before := TopicKey(cs[n].topic, cs[n].audience), TopicKeys(cs[..n]);
      TopicKeys(cs[..n + 1]) == if cs[n].slug.None? || key in before then before else before + [key]
    ensures forall key :: Positions(cs[..n + 1], key) == Positions(cs[..n], key) + if IsLocal(cs[n], key) then [n] else []
  {
    PrefixGrows(cs, n);
  }

  /** The per-property rules by topic, in order of first appearance. */
  method GroupByTopic(cs: seq<Candidate>) returns (byTopic: map<TopicKey, seq<nat>>, order: seq<TopicKey>)
    ensures order == TopicKeys(cs) && forall key :: key in byTopic <==> key in order
    ensures forall key :: key in byTopic ==> byTopic[key] == Positions(cs, key)
  {
    hide Positions, TopicKeys;
    NoTopics(cs);
    byTopic, order := map[], [];
    for n := 0 to |cs|
      invariant order == TopicKeys(cs[..n]) && forall key :: key in byTopic <==> key in order
      invariant forall key :: key in byTopic ==> byTopic[key] == Positions(cs[..n], key)
      invariant forall key :: key !in byTopic ==> Positions(cs[..n], key) == []
    {
      TopicTurn(cs, n);
      var key := TopicKey(cs[n].topic, cs[n].audience);
      if cs[n].slug.Some? {
        if key !in byTopic {
          byTopic, order := byTopic[key := []], order + [key];
        }
        byTopic := byTopic[key := byTopic[key] + [n]];
      }
    }
    WholePrefix(cs);
  }

  /** The cluster a topic would promote: empty where it stays with its properties. */
  method AgreeingCluster(m: Markers, cs: seq<Candidate>, key: TopicKey, group: seq<nat>) returns (cluster: seq<nat>)
    requires group == Positions(cs, key)
    ensures InRange(cs, cluster)
    ensures cluster == if Cluster(cs, key) != [] && Promotable(m, group, At(cs, Cluster(cs, key)))
                       then Cluster(cs, key) else []
  {
    hide Cluster, MayBeGlobal, Owners;
    cluster := [];
    if |group| < MIN_PROPERTIES_FOR_GLOBAL {
      return;
    }
    var near := Cluster(cs, key);
    if |Owners(At(cs, near))| < MIN_PROPERTIES_FOR_GLOBAL {
      return;
    }
    var allowed := CheckMayBeGlobal(m, At(cs, near));
    if allowed {
      cluster := near;
    }
  }

  method KeepRemaining(cs: seq<Candidate>, absorbed: set<nat>) returns (remaining: seq<Candidate>)
    ensures remaining == Remaining(cs, absorbed)
  {
    remaining := [];
    for n := 0 to |cs|
      invariant remaining == Remaining(cs[..n], absorbed)
    {
      PrefixGrows(cs, n);
      if n !in absorbed {
        remaining := remaining + [cs[n]];
      }
    }
    WholePrefix(cs);
  }

  /** `promote_global`. */
  method PromoteRules(m: Markers, cs: seq<Candidate>) returns (out: seq<Candidate>, count: nat)
    ensures (out, count) == PromoteGlobal(m, cs)
  {
    hide Positions, Cluster, Promotable, Remaining, TopicKeys;
    var byTopic, order := GroupByTopic(cs);
    var promoted: seq<Candidate> := [];
    var absorbed: set<nat> := {};
    for n := 0 to |order|
      invariant (promoted, absorbed) == Promoted(m, cs, order[..n])
    {
      PrefixGrows(order, n);
      assert order[n] in order;
      var cluster := AgreeingCluster(m, cs, order[n], byTopic[order[n]]);
      if cluster != [] {
        promoted := promoted + [GlobalRule(order[n], At(cs, cluster))];
        absorbed := absorbed + set p: nat | p in cluster;
      }
    }
    WholePrefix(order);
    var remaining := KeepRemaining(cs, absorbed);
    return remaining + promoted, |promoted|;
  }
}
