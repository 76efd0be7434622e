/**
 Where the handlers of the configuration domain controller do not follow a change of an output:
 exactly when, whatever labels it carries, and what that leaves behind.
 */
module ConfigurationGaps {
  import opened Common
  import opened ConfigurationDomains
  import opened ConfigurationAggregate
  import opened ConfigurationRuns

  /** A known domain whose output is delivered and that nothing makes sync. */
  ghost predicate Quiet(s: State, cl: Cluster, k: ObjectId) {
    && Idle(s, k) && k in s.domains && s.domains[k].platformRef == cl.PlatformOf(k)
    && (s.Live(OutputId(k)).Some? ==> s.Live(OutputId(k)).value.id == OutputId(k))
  }

  /** Quiet, with an output that is the domain's own and right. */
  ghost predicate Served(s: State, cl: Cluster, k: ObjectId) {
    && Quiet(s, cl, k) && cl.Aggregates(k, s.domains[k]) && cl.Selectable(k) && UpToDate(s, cl, k)
    && Controls(s.domains[k], s.Live(OutputId(k)).value)
  }

  /** The state after something is written in the output's place and delivered. */
  ghost function Replaced(s: State, cl: Cluster, k: ObjectId, v: Option<ConfigMap>): State
    requires Idle(s, k)
  {
    Next(Append(s, OutputId(k), v), cl, Deliver(OutputId(k)))
  }

  /** The version is lost: the domain rests and will not be synced, with an output that its inputs do not call for. */
  ghost predicate Lost(s: State, cl: Cluster, k: ObjectId, v: Option<ConfigMap>)
    requires Quiet(s, cl, k)
  {
    var s' := Replaced(s, cl, k, v);
    k in s'.domains && Idle(s', k) && !UpToDate(s', cl, k)
  }

  lemma ReplacedState(s: State, cl: Cluster, k: ObjectId, v: Option<ConfigMap>)
    requires Quiet(s, cl, k)
    ensures var s', id := Replaced(s, cl, k, v), OutputId(k);
      && s'.domains == s.domains && s'.VersionsOf(id) == [v]
      && s'.dirty == s.dirty + ChangeKeys(cl.platforms, s.domains, s.Live(id), v)
      && s'.delayed == s.delayed && s'.taken == s.taken && s'.inFlight == s.inFlight
  {
    AppendedVersions(s, OutputId(k), v, OutputId(k));
    assert s.VersionsOf(OutputId(k)) == [s.Live(OutputId(k))];
  }

  /** A domain's own output is no input of it. */
  lemma ReplacedKeepsInputs(s: State, cl: Cluster, k: ObjectId, v: Option<ConfigMap>)
    requires Quiet(s, cl, k) && (v.Some? ==> v.value.id == OutputId(k))
    ensures InputGroups(Replaced(s, cl, k, v), cl, k) == InputGroups(s, cl, k)
  {
    var s1, s', id := Append(s, OutputId(k), v), Replaced(s, cl, k, v), OutputId(k);
    AppendKeepsInputs(s, cl, id, v, k);
    SameInputsKeepFresh(s, s1, cl, k, Flight(None, []));
    AppendedVersions(s, id, v, id);
    assert !Alters(cl, k, s1.VersionsOf(id)[0], s1.VersionsOf(id)[1]);
    UnalteredInputs(s1, cl, id, k);
    SameInputsKeepFresh(s1, s', cl, k, Flight(None, []));
  }

  /**
   Whatever is written in the output's place, with whatever labels and owner: it is lost exactly if no
   handler reaches the domain and a sync would not leave it as it is.
   */
  lemma VersionIsLostIff(s: State, cl: Cluster, k: ObjectId, v: Option<ConfigMap>)
    requires Quiet(s, cl, k) && (v.Some? ==> v.value.id == OutputId(k))
    ensures Replaced(s, cl, k, v).domains == s.domains
    ensures k in Replaced(s, cl, k, v).dirty <==> Reaches(cl, k, s.Live(OutputId(k)), v)
    ensures UpToDate(Replaced(s, cl, k, v), cl, k) <==> Suits(s, cl, k, v)
    ensures Lost(s, cl, k, v) <==> !Reaches(cl, k, s.Live(OutputId(k)), v) && !Suits(s, cl, k, v)
  {
    ReplacedState(s, cl, k, v);
    ReplacedKeepsInputs(s, cl, k, v);
    ReachesIff(cl, s.domains, k, s.Live(OutputId(k)), v);
  }

  /** The runs' condition sees every such version. */
  lemma LostIsUnfollowed(s: State, cl: Cluster, k: ObjectId, v: Option<ConfigMap>)
    requires Quiet(s, cl, k) && UpToDate(s, cl, k) && (v.Some? ==> v.value.id == OutputId(k)) && Lost(s, cl, k, v)
    ensures Unfollowed(s, cl, Write(OutputId(k), v), k)
  {
    VersionIsLostIff(s, cl, k, v);
  }

  // ---------- Deletes and edits ----------

  /** A deleted output is lost exactly if its own labels did not route it to the domain. */
  lemma DeletedOutputIsLostIff(s: State, cl: Cluster, k: ObjectId)
    requires Quiet(s, cl, k) && cl.Aggregates(k, s.domains[k]) && cl.Selectable(k) && s.Live(OutputId(k)).Some?
    ensures Lost(s, cl, k, None) <==> !Reached(cl, k, s.Live(OutputId(k)).value)
    ensures !UpToDate(Replaced(s, cl, k, None), cl, k)
  {
    VersionIsLostIff(s, cl, k, None);
  }

  /** An edit under the same labels that spoils an output is lost exactly if those labels did not route it to the domain. */
  lemma EditedOutputIsLostIff(s: State, cl: Cluster, k: ObjectId, data: Data)
    requires Served(s, cl, k) && !IsAggregate(data, InputGroups(s, cl, k))
    ensures var output := s.Live(OutputId(k)).value;
      Lost(s, cl, k, Some(output.(data := data))) <==> !Reached(cl, k, output)
    ensures !UpToDate(Replaced(s, cl, k, Some(s.Live(OutputId(k)).value.(data := data))), cl, k)
  {
    var output := s.Live(OutputId(k)).value;
    VersionIsLostIff(s, cl, k, Some(output.(data := data)));
    EditReachesIff(cl, k, output, data);
  }

  lemma EditReachesIff(cl: Cluster, k: ObjectId, c: ConfigMap, data: Data)
    ensures Reaches(cl, k, Some(c), Some(c.(data := data))) <==> Reached(cl, k, c) && c.data != data
  {
    assert RouteOf(c.(data := data)) == RouteOf(c);
  }

  /** Without its domain label, or without its platform label, an output is not routed anywhere. */
  lemma UnlabelledIsNotReached(cl: Cluster, k: ObjectId, c: ConfigMap)
    requires c.domainLabel.None? || c.platformLabel.None?
    ensures !Reached(cl, k, c)
  {
  }

  /** An output that has lost a label is then edited, and nobody repairs it. */
  lemma EditOfUnlabelledOutputIsLost(s: State, cl: Cluster, k: ObjectId, data: Data)
    requires Served(s, cl, k) && !IsAggregate(data, InputGroups(s, cl, k))
    requires s.Live(OutputId(k)).value.domainLabel.None? || s.Live(OutputId(k)).value.platformLabel.None?
    ensures Lost(s, cl, k, Some(s.Live(OutputId(k)).value.(data := data)))
  {
    UnlabelledIsNotReached(cl, k, s.Live(OutputId(k)).value);
    EditedOutputIsLostIff(s, cl, k, data);
  }

  /** An unlabelled object of somebody else in the output's place is deleted, and the domain rests without any output. */
  lemma DeleteOfUnlabelledObjectIsLost(s: State, cl: Cluster, k: ObjectId)
    requires Quiet(s, cl, k) && cl.Aggregates(k, s.domains[k]) && cl.Selectable(k) && s.Live(OutputId(k)).Some?
    requires s.Live(OutputId(k)).value.domainLabel.None? || s.Live(OutputId(k)).value.platformLabel.None?
    ensures Lost(s, cl, k, None) && Replaced(s, cl, k, None).Live(OutputId(k)).None?
  {
    UnlabelledIsNotReached(cl, k, s.Live(OutputId(k)).value);
    DeletedOutputIsLostIff(s, cl, k);
    ReplacedState(s, cl, k, None);
  }

  // ---------- Labels and owners alone ----------

  predicate SameLabels(a: ConfigMap, b: ConfigMap) {
    a.platformLabel == b.platformLabel && a.domainLabel == b.domainLabel
  }

  /**
   A change of labels alone enqueues the domain exactly if the new labels route to it, or the old ones
   did and the new ones name another platform or domain. It never makes a right output wrong.
   */
  lemma RelabelledOutputFollowedIff(s: State, cl: Cluster, k: ObjectId, after: ConfigMap)
    requires Quiet(s, cl, k) && s.Live(OutputId(k)).Some?
    requires var before := s.Live(OutputId(k)).value;
      !SameLabels(before, after) && after == before.(platformLabel := after.platformLabel, domainLabel := after.domainLabel)
    ensures var before, s' := s.Live(OutputId(k)).value, Replaced(s, cl, k, Some(after));
      && (k in s'.dirty <==>
            || Reached(cl, k, after)
            || (Reached(cl, k, before) && (RouteOf(before).platform != RouteOf(after).platform || RouteOf(before).domain != RouteOf(after).domain)))
      && k in s'.domains && (UpToDate(s', cl, k) <==> UpToDate(s, cl, k))
  {
    VersionIsLostIff(s, cl, k, Some(after));
  }

  /** A change of the owner alone enqueues no domain at all. An output that comes to a domain that way is lost exactly if its data is wrong. */
  lemma ReownedOutputIsLostIff(s: State, cl: Cluster, k: ObjectId, owner: Owner)
    requires Quiet(s, cl, k) && s.Live(OutputId(k)).Some? && cl.Aggregates(k, s.domains[k]) && cl.Selectable(k)
    ensures var after := s.Live(OutputId(k)).value.(owner := owner);
      && Replaced(s, cl, k, Some(after)).dirty == s.dirty
      && (Lost(s, cl, k, Some(after)) <==> Controls(s.domains[k], after) && !IsAggregate(after.data, InputGroups(s, cl, k)))
  {
    var before := s.Live(OutputId(k)).value;
    var after := before.(owner := owner);
    assert RouteOf(after) == RouteOf(before);
    VersionIsLostIff(s, cl, k, Some(after));
    ReplacedState(s, cl, k, Some(after));
  }

  // ---------- Adds ----------

  /** What is added in the place of an output that is to be none is lost exactly if its labels do not route it to the domain or a domain owns it. */
  lemma AddedOutputIsLostIff(s: State, cl: Cluster, k: ObjectId, c: ConfigMap)
    requires Quiet(s, cl, k) && !cl.Aggregates(k, s.domains[k]) && s.Live(OutputId(k)).None? && c.id == OutputId(k)
    ensures Lost(s, cl, k, Some(c)) <==> !Reached(cl, k, c) || c.owner.OwnedByDomain?
  {
    VersionIsLostIff(s, cl, k, Some(c));
  }
}
