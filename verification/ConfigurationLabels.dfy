/**
 Ordinary clusters: domain names that labels can spell, and outputs that keep the labels the controller
 gives them. There every ordinary change is followed, and no output is an input.
 */
module ConfigurationLabels {
  import opened Common
  import opened ConfigurationDomains
  import opened ConfigurationAggregate
  import opened ConfigurationRuns

  ghost predicate IsOutputId(cl: Cluster, id: ObjectId) {
    exists k :: k in cl.platformOf && id == OutputId(k)
  }

  /** Names a label can spell: no dots, and not the name that stands for every domain. Platforms have namespaces. */
  ghost predicate WellNamed(cl: Cluster) {
    && (forall k :: k in cl.platformOf ==> SpelledName(k) && cl.platformOf[k] != "")
    && (forall platform :: platform in cl.platforms ==> cl.platforms[platform] != "")
  }

  predicate SpelledName(k: ObjectId) {
    k.namespace != "" && k.name != "" && DotFree(k.name) && k.name != GLOBAL
  }

  /** A config map at an output's place carries the output's labels, and what a domain owns is in an output's place. */
  ghost predicate Orderly(cl: Cluster, id: ObjectId, c: ConfigMap) {
    && c.id == id
    && (c.owner.OwnedByDomain? ==> IsOutputId(cl, id))
    && forall k :: k in cl.platformOf && id == OutputId(k) ==> LabelledFor(cl, k, c)
  }

  predicate LabelledFor(cl: Cluster, k: ObjectId, c: ConfigMap) {
    c.platformLabel == Some(cl.PlatformOf(k)) && c.domainLabel == Some(k.name)
  }

  ghost predicate OrderlyVersions(cl: Cluster, id: ObjectId, v: Versions) {
    forall i :: 0 <= i < |v| && v[i].Some? ==> Orderly(cl, id, v[i].value)
  }

  ghost predicate Tidy(s: State, cl: Cluster) {
    && WellNamed(cl)
    && (forall k :: k in s.domains ==> k in cl.platformOf && s.domains[k].platformRef == cl.platformOf[k])
    && (forall k :: k in s.inFlight && s.inFlight[k].spec.Some? ==> k in cl.platformOf)
    && (forall id :: OrderlyVersions(cl, id, s.VersionsOf(id)))
  }

  /** An outside write that keeps labels and owner of an output, leaves no namespace, and adds nothing a domain owns. */
  ghost predicate Ordinary(s: State, cl: Cluster, e: Event) {
    e.Write? ==>
      var live := s.Live(e.id);
      && (e.configMap.Some? ==> Orderly(cl, e.id, e.configMap.value))
      && !LeavesNamespace(cl.platforms, live, e.configMap) && !AddsOwned(live, e.configMap)
      && (IsOutputId(cl, e.id) && live.Some? && e.configMap.Some? ==> live.value.owner == e.configMap.value.owner)
  }

  // ---------- Outputs ----------

  /** Nothing at an output's place is an input of any domain: the controller does not feed itself. */
  lemma NoOutputIsAnInput(cl: Cluster, k: ObjectId, c: ConfigMap, group: int)
    requires WellNamed(cl) && k in cl.platformOf && Orderly(cl, c.id, c) && IsOutputId(cl, c.id)
    ensures !Contributes(cl, k, group, c)
  {
    var owner :| owner in cl.platformOf && c.id == OutputId(owner);
    var platform, target := cl.PlatformOf(k), cl.TargetNamespace(k);
    var other := k.name + "." + k.namespace;
    assert other[|k.name|] == '.' && SpelledName(owner) && LabelledFor(cl, owner, c);
    var output := Output(owner, "", platform, c.data);
    OutputIsInputIff(owner, "", k, platform, target, c.data);
    assert Contributes(cl, k, group, c) ==> InGroup(group, output, platform, target, k);
  }

  lemma OutputContributesNothing(cl: Cluster, k: ObjectId, id: ObjectId, v: Option<ConfigMap>, group: int)
    requires WellNamed(cl) && k in cl.platformOf && IsOutputId(cl, id) && (v.Some? ==> Orderly(cl, id, v.value))
    ensures Contributed(cl, k, group, v) == None
  {
    if v.Some? {
      NoOutputIsAnInput(cl, k, v.value, group);
    }
  }

  lemma OutputAltersNothing(cl: Cluster, k: ObjectId, id: ObjectId, before: Option<ConfigMap>, after: Option<ConfigMap>)
    requires WellNamed(cl) && k in cl.platformOf && IsOutputId(cl, id)
    requires (before.Some? ==> Orderly(cl, id, before.value)) && (after.Some? ==> Orderly(cl, id, after.value))
    ensures !Alters(cl, k, before, after)
  {
    forall group | 0 <= group < GROUPS ensures Contributed(cl, k, group, before) == Contributed(cl, k, group, after) {
      OutputContributesNothing(cl, k, id, before, group);
      OutputContributesNothing(cl, k, id, after, group);
    }
  }

  lemma OutputIsReached(cl: Cluster, k: ObjectId, c: ConfigMap)
    requires WellNamed(cl) && cl.Hosted(k) && LabelledFor(cl, k, c) && c.id == OutputId(k)
    ensures Reached(cl, k, c)
  {
    assert SpelledName(k);
    CutJoined(k.name, "");
  }

  /** A change of an orderly output enqueues its domain exactly if it is an outside add, a delete or a change of data. */
  lemma OutputChangeReachesIff(cl: Cluster, k: ObjectId, before: Option<ConfigMap>, after: Option<ConfigMap>)
    requires WellNamed(cl) && cl.Hosted(k)
    requires before.Some? ==> Orderly(cl, OutputId(k), before.value)
    requires after.Some? ==> Orderly(cl, OutputId(k), after.value)
    ensures Reaches(cl, k, before, after) <==>
      || (before.None? && after.Some? && !after.value.owner.OwnedByDomain?)
      || (before.Some? && after.None?)
      || (before.Some? && after.Some? && before.value.data != after.value.data)
  {
    if before.Some? { OutputIsReached(cl, k, before.value); }
    if after.Some? { OutputIsReached(cl, k, after.value); }
  }

  // ---------- Ordinary events are followed ----------

  /** An ordinary change that alters an input reaches the domain. */
  lemma AlterationsReach(cl: Cluster, k: ObjectId, before: Option<ConfigMap>, after: Option<ConfigMap>)
    requires WellNamed(cl) && k in cl.platformOf && SameObject(before, after)
    requires !LeavesNamespace(cl.platforms, before, after) && !AddsOwned(before, after)
    ensures Alters(cl, k, before, after) ==> Reaches(cl, k, before, after)
  {
    if Alters(cl, k, before, after) {
      var platform, target := cl.PlatformOf(k), cl.TargetNamespace(k);
      var domains := map[k := DomainSpec("", platform, true, true)];
      AlterationsAffect(cl, k, before, after);
      assert SpelledName(k) && platform in cl.platforms;
      assert Spellable(cl.platforms, domains, k, platform);
      AffectedIsEnqueued(cl.platforms, domains, before, after, k, platform);
      ReachesIff(cl, domains, k, before, after);
    }
  }

  lemma AlterationsAffect(cl: Cluster, k: ObjectId, before: Option<ConfigMap>, after: Option<ConfigMap>)
    requires Alters(cl, k, before, after) && SameObject(before, after)
    ensures cl.Hosted(k) && Affects(before, after, cl.PlatformOf(k), cl.TargetNamespace(k), k)
  {
    var group :| 0 <= group < GROUPS && Contributed(cl, k, group, before) != Contributed(cl, k, group, after);
    var platform, target := cl.PlatformOf(k), cl.TargetNamespace(k);
    assert before.Some? && Contributes(cl, k, group, before.value) ==> InGroup(group, before.value, platform, target, k);
    assert after.Some? && Contributes(cl, k, group, after.value) ==> InGroup(group, after.value, platform, target, k);
  }

  lemma LiveIsOrderly(s: State, cl: Cluster, id: ObjectId)
    requires Tidy(s, cl)
    ensures s.Live(id).Some? ==> Orderly(cl, id, s.Live(id).value)
  {
    assert OrderlyVersions(cl, id, s.VersionsOf(id));
  }

  lemma OrdinaryWriteIsFollowed(s: State, cl: Cluster, e: Event, k: ObjectId)
    requires Tidy(s, cl) && e.Write? && Ordinary(s, cl, e) && cl.Hosted(k)
    ensures FollowedVersion(s, cl, k, e.id, e.configMap)
  {
    var live := s.Live(e.id);
    LiveIsOrderly(s, cl, e.id);
    AlterationsReach(cl, k, live, e.configMap);
    if e.id == OutputId(k) {
      assert IsOutputId(cl, e.id);
      OutputChangeReachesIff(cl, k, live, e.configMap);
    }
  }

  /** What a sync writes is as orderly as what is there. */
  lemma OutgoingIsOrderly(s: State, cl: Cluster, k: ObjectId, outcome: Outcome)
    requires Tidy(s, cl) && (outcome.Unchanged? || Concludes(s, cl, k, outcome)) && k in s.inFlight
    ensures var v := Outgoing(s, cl, k, outcome);
      v.Some? ==>
        && IsOutputId(cl, OutputId(k)) && (v.value.Some? ==> Orderly(cl, OutputId(k), v.value.value))
        && (s.Live(OutputId(k)).None? && v.value.Some? ==> outcome.Created?)
        && (s.Live(OutputId(k)).Some? && v.value.Some? ==> v.value == Some(s.Live(OutputId(k)).value.(data := v.value.value.data)))
  {
    var id := OutputId(k);
    LiveIsOrderly(s, cl, id);
    if !outcome.Unchanged? {
      assert k in cl.platformOf && IsOutputId(cl, id);
      forall other | other in cl.platformOf && id == OutputId(other) ensures other == k {
        OutputIdsAreDistinct(other, k);
      }
    }
  }

  lemma SyncsAreFollowed(s: State, cl: Cluster, k: ObjectId, outcome: Outcome, other: ObjectId)
    requires Tidy(s, cl) && Concludes(s, cl, k, outcome) && cl.Hosted(other)
    ensures var v := Outgoing(s, cl, k, outcome); v.Some? ==> FollowedVersion(s, cl, other, OutputId(k), v.value)
  {
    var v, id := Outgoing(s, cl, k, outcome), OutputId(k);
    if v.Some? {
      OutgoingIsOrderly(s, cl, k, outcome);
      LiveIsOrderly(s, cl, id);
      OutputAltersNothing(cl, other, id, s.Live(id), v.value);
      if id == OutputId(other) {
        OutputIdsAreDistinct(k, other);
        OutputChangeReachesIff(cl, k, s.Live(id), v.value);
      }
    }
  }

  /** In a tidy state every ordinary event is followed. */
  lemma OrdinaryIsFollowed(s: State, cl: Cluster, e: Event, k: ObjectId)
    requires Tidy(s, cl) && Enabled(s, cl, e) && Ordinary(s, cl, e) && cl.Hosted(k)
    ensures !Unfollowed(s, cl, e, k)
  {
    if e.Write? {
      OrdinaryWriteIsFollowed(s, cl, e, k);
    } else if (e.Finish? || e.Fail?) && !e.outcome.Unchanged? {
      SyncsAreFollowed(s, cl, e.key, e.outcome, k);
    }
  }

  lemma AppendKeepsTidy(s: State, cl: Cluster, id: ObjectId, v: Option<ConfigMap>)
    requires Tidy(s, cl) && (v.Some? ==> Orderly(cl, id, v.value))
    ensures Tidy(Append(s, id, v), cl)
  {
    var s' := Append(s, id, v);
    forall other ensures OrderlyVersions(cl, other, s'.VersionsOf(other)) {
      assert OrderlyVersions(cl, other, s.VersionsOf(other));
      AppendedVersions(s, id, v, other);
    }
  }

  lemma LandedIsTidy(s: State, cl: Cluster, k: ObjectId)
    requires Tidy(s, cl)
    ensures Tidy(Landed(s, k), cl)
  {
    forall id ensures OrderlyVersions(cl, id, Landed(s, k).VersionsOf(id)) {
      assert Landed(s, k).VersionsOf(id) == s.VersionsOf(id);
    }
  }

  lemma ConcludeKeepsTidy(s: State, cl: Cluster, k: ObjectId, outcome: Outcome)
    requires Tidy(s, cl) && k in s.inFlight && (outcome.Unchanged? || Concludes(s, cl, k, outcome))
    ensures Tidy(Conclude(s, cl, k, outcome), cl)
  {
    var v := Outgoing(s, cl, k, outcome);
    OutgoingIsOrderly(s, cl, k, outcome);
    LandedIsTidy(s, cl, k);
    if v.Some? {
      AppendKeepsTidy(Landed(s, k), cl, OutputId(k), v.value);
    }
  }

  lemma StepKeepsTidy(s: State, cl: Cluster, e: Event)
    requires Tidy(s, cl) && Enabled(s, cl, e) && Ordinary(s, cl, e)
    ensures Tidy(Next(s, cl, e), cl)
  {
    match e
    case Write(id, c) => AppendKeepsTidy(s, cl, id, c);
    case Finish(k, outcome) => ConcludeKeepsTidy(s, cl, k, outcome);
    case Fail(k, outcome) => FailureKeepsTidy(s, cl, k, outcome);
    case Deliver(id) => DeliveryKeepsTidy(s, cl, id);
    case ChangeDomain(_, _) =>
      DomainChangeKeepsVersions(s, cl, e);
      assert forall id :: Next(s, cl, e).VersionsOf(id) == s.VersionsOf(id);
    case _ => QueueStepKeepsTidy(s, cl, e);
  }

  lemma FailureKeepsTidy(s: State, cl: Cluster, k: ObjectId, outcome: Outcome)
    requires Tidy(s, cl) && Enabled(s, cl, Fail(k, outcome))
    ensures Tidy(Next(s, cl, Fail(k, outcome)), cl)
  {
    ConcludeKeepsTidy(s, cl, k, outcome);
    assert forall id :: Next(s, cl, Fail(k, outcome)).VersionsOf(id) == Conclude(s, cl, k, outcome).VersionsOf(id);
  }

  lemma DeliveryKeepsTidy(s: State, cl: Cluster, delivered: ObjectId)
    requires Tidy(s, cl) && Enabled(s, cl, Deliver(delivered))
    ensures Tidy(Next(s, cl, Deliver(delivered)), cl)
  {
    forall id ensures OrderlyVersions(cl, id, Next(s, cl, Deliver(delivered)).VersionsOf(id)) {
      assert OrderlyVersions(cl, id, s.VersionsOf(id));
      DeliveredVersions(s, cl, delivered, id);
    }
  }

  lemma QueueStepKeepsTidy(s: State, cl: Cluster, e: Event)
    requires Tidy(s, cl) && IsQueueStep(e) && Enabled(s, cl, e)
    ensures Tidy(Next(s, cl, e), cl)
  {
    QueueStepsOnlyQueue(s, cl, e);
    assert forall id :: Next(s, cl, e).VersionsOf(id) == s.VersionsOf(id);
  }

  // ---------- Ordinary runs ----------

  ghost predicate OrdinaryThroughout(states: seq<State>, cl: Cluster, events: seq<Event>)
    requires |states| == |events| + 1
  {
    forall i :: 0 <= i < |events| ==> Ordinary(states[i], cl, events[i])
  }

  lemma {:induction false} OrdinaryRunsAreFollowed(states: seq<State>, cl: Cluster, events: seq<Event>, k: ObjectId)
    requires IsRun(states, cl, events) && Tidy(states[0], cl) && OrdinaryThroughout(states, cl, events) && cl.Hosted(k)
    ensures Tidy(states[|events|], cl) && FollowedThroughout(states, cl, events, k)
  {
    if events != [] {
      var n := |events| - 1;
      assert IsRun(states[..n + 1], cl, events[..n]);
      OrdinaryRunsAreFollowed(states[..n + 1], cl, events[..n], k);
      OrdinaryIsFollowed(states[n], cl, events[n], k);
      StepKeepsTidy(states[n], cl, events[n]);
      forall i | 0 <= i < |events| ensures !Unfollowed(states[i], cl, events[i], k) {
        assert i < n ==> states[..n + 1][i] == states[i] && events[..n][i] == events[i];
      }
    }
  }

  /** A start whose informers hold everything: any config maps, and no domain known yet. */
  lemma DeliveredStartIsSane(s: State, cl: Cluster, k: ObjectId)
    requires k !in s.domains && forall id :: |s.VersionsOf(id)| == 1
    ensures Sane(s, cl, k)
  {
  }

  /** Convergence in an ordinary cluster, from any config maps and no known domain. */
  lemma OrdinaryClustersConverge(states: seq<State>, cl: Cluster, events: seq<Event>, k: ObjectId)
    requires IsRun(states, cl, events) && Tidy(states[0], cl) && OrdinaryThroughout(states, cl, events) && cl.Hosted(k)
    requires k !in states[0].domains && forall id :: |states[0].VersionsOf(id)| == 1
    requires Idle(states[|events|], k) && k in states[|events|].domains
    ensures UpToDate(states[|events|], cl, k)
  {
    OrdinaryRunsAreFollowed(states, cl, events, k);
    DeliveredStartIsSane(states[0], cl, k);
    RunKeepsInv(states, cl, events, k);
  }
}
