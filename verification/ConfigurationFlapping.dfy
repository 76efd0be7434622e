/**
 When the inputs of a domain disagree, its output never settles: each write comes back as an event,
 and the sync it causes may merge the listings in another order and write again.
 */
module ConfigurationFlapping {
  import opened Common
  import opened ConfigurationDomains
  import opened ConfigurationAggregate
  import opened ConfigurationRuns
  import opened ConfigurationLabels
  import opened ConfigurationFeedback

  /** The controller acts by itself from one state to the other, and nothing fails. */
  ghost predicate Leads(s: State, cl: Cluster, events: seq<Event>, s': State) {
    exists states :: IsOwnRun(states, cl, events) && states[0] == s && states[|events|] == s' && AllInternal(events)
  }

  predicate AllInternal(events: seq<Event>) {
    forall i :: 0 <= i < |events| ==> Internal(events[i])
  }

  /** A queued domain that aggregates into an output of its own, all of whose versions are delivered. */
  ghost predicate Queued(s: State, cl: Cluster, k: ObjectId) {
    && Settled(s, cl) && cl.Hosted(k) && cl.Selectable(k)
    && k in s.domains && s.domains[k].aggregateConfigMaps
    && k in s.dirty && k !in s.taken && k !in s.inFlight
    && HasOutput(s, k)
  }

  ghost predicate HasOutput(s: State, k: ObjectId)
    requires k in s.domains
  {
    var id := OutputId(k);
    |s.VersionsOf(id)| == 1 && s.Live(id).Some? && Controls(s.domains[k], s.Live(id).value)
  }

  // ---------- Runs, event by event ----------

  lemma LeadsNowhere(s: State, cl: Cluster)
    ensures Leads(s, cl, [], s)
  {
    assert IsOwnRun([s], cl, []);
  }

  lemma LeadsOneMore(s0: State, cl: Cluster, events: seq<Event>, s: State, e: Event, k: ObjectId)
    requires Leads(s0, cl, events, s) && Internal(e) && Enabled(s, cl, e)
    ensures Leads(s0, cl, events + [e], Next(s, cl, e))
    ensures WritesOf(events + [e], k) == WritesOf(events, k) + if Writes(e, k) then 1 else 0
  {
    var states :| IsOwnRun(states, cl, events) && states[0] == s0 && states[|events|] == s && AllInternal(events);
    var longer, more := states + [Next(s, cl, e)], events + [e];
    forall i | 0 <= i < |more| ensures OwnStepAt(longer, cl, more, i) {
      if i < |events| {
        assert OwnStepAt(states, cl, events, i);
        assert longer[i] == states[i] && longer[i + 1] == states[i + 1] && more[i] == events[i];
      }
    }
    assert IsOwnRun(longer, cl, more) && longer[0] == s0 && longer[|more|] == Next(s, cl, e);
    assert more[..|more| - 1] == events;
  }

  /** s with the sync of k this far. */
  function With(s: State, k: ObjectId, f: Flight): State {
    s.(dirty := s.dirty - {k}, inFlight := s.inFlight[k := f])
  }

  lemma Started(s0: State, cl: Cluster, events: seq<Event>, s: State, k: ObjectId) returns (more: seq<Event>)
    requires Leads(s0, cl, events, s) && Queued(s, cl, k)
    ensures Leads(s0, cl, more, With(s, k, Flight(Some(s.domains[k]), []))) && WritesOf(more, k) == WritesOf(events, k)
  {
    var s1 := s.(dirty := s.dirty - {k}, taken := s.taken + {k});
    LeadsOneMore(s0, cl, events, s, Take(k), k);
    assert Next(s, cl, Take(k)) == s1;
    LeadsOneMore(s0, cl, events + [Take(k)], s1, Begin(k), k);
    assert s1.taken - {k} == s.taken;
    assert Next(s1, cl, Begin(k)) == With(s, k, Flight(Some(s.domains[k]), []));
    more := events + [Take(k)] + [Begin(k)];
  }

  lemma ListingStep(s: State, cl: Cluster, k: ObjectId, groups: Groups)
    requires Queued(s, cl, k) && |groups| < GROUPS
    ensures var s1 := With(s, k, Flight(Some(s.domains[k]), groups));
      Enabled(s1, cl, ReadGroup(k)) &&
      Next(s1, cl, ReadGroup(k)) == With(s, k, Flight(Some(s.domains[k]), groups + [s.InputGroup(cl, k, |groups|)]))
  {
    var s1 := With(s, k, Flight(Some(s.domains[k]), groups));
    assert s1.InputGroup(cl, k, |groups|) == s.InputGroup(cl, k, |groups|);
    PutTwice(s.inFlight, k, Flight(Some(s.domains[k]), groups), Flight(Some(s.domains[k]), groups + [s.InputGroup(cl, k, |groups|)]));
  }

  lemma PutTwice(m: map<ObjectId, Flight>, k: ObjectId, f: Flight, f': Flight)
    ensures m[k := f][k := f'] == m[k := f'] && m[k := f][k] == f
  {
  }

  /** s with a sync of k that has read these groups. */
  function Reading(s: State, k: ObjectId, groups: Groups): State
    requires k in s.domains
  {
    With(s, k, Flight(Some(s.domains[k]), groups))
  }

  lemma OneListing(s0: State, cl: Cluster, events: seq<Event>, s: State, k: ObjectId, before: Groups, groups: Groups)
    returns (more: seq<Event>)
    requires Queued(s, cl, k) && |before| < GROUPS && groups == before + [s.InputGroup(cl, k, |before|)]
    requires Leads(s0, cl, events, Reading(s, k, before))
    ensures Leads(s0, cl, more, Reading(s, k, groups)) && WritesOf(more, k) == WritesOf(events, k)
  {
    ListingStep(s, cl, k, before);
    LeadsOneMore(s0, cl, events, Reading(s, k, before), ReadGroup(k), k);
    more := events + [ReadGroup(k)];
  }

  lemma GroupPrefixes(s: State, cl: Cluster, k: ObjectId, n: nat)
    requires n < GROUPS
    ensures InputGroups(s, cl, k)[..n + 1] == InputGroups(s, cl, k)[..n] + [s.InputGroup(cl, k, n)]
  {
  }

  lemma {:induction false} Listed(s0: State, cl: Cluster, events: seq<Event>, s: State, k: ObjectId, n: nat, groups: Groups)
    returns (more: seq<Event>)
    requires Queued(s, cl, k) && n <= GROUPS && Leads(s0, cl, events, Reading(s, k, []))
    requires groups == InputGroups(s, cl, k)[..n]
    ensures Leads(s0, cl, more, Reading(s, k, groups)) && WritesOf(more, k) == WritesOf(events, k)
  {
    if n == 0 {
      more := events;
    } else {
      var before := InputGroups(s, cl, k)[..n - 1];
      more := Listed(s0, cl, events, s, k, n - 1, before);
      GroupPrefixes(s, cl, k, n - 1);
      more := OneListing(s0, cl, more, s, k, before, groups);
    }
  }

  /** s after the output got other data, before its delivery. */
  function Rewritten(s: State, k: ObjectId, c: ConfigMap, data: Data): State {
    Append(s.(dirty := s.dirty - {k}), OutputId(k), Some(c.(data := data)))
  }

  lemma UpdateStep(s: State, cl: Cluster, k: ObjectId, data: Data)
    requires Queued(s, cl, k) && IsAggregate(data, InputGroups(s, cl, k)) && data != s.Live(OutputId(k)).value.data
    ensures var s1 := With(s, k, Flight(Some(s.domains[k]), InputGroups(s, cl, k)));
      Enabled(s1, cl, Finish(k, Updated(data))) &&
      Next(s1, cl, Finish(k, Updated(data))) == Rewritten(s, k, s.Live(OutputId(k)).value, data)
  {
    var s1 := With(s, k, Flight(Some(s.domains[k]), InputGroups(s, cl, k)));
    assert s1.VersionsOf(OutputId(k)) == s.VersionsOf(OutputId(k));
    assert s1.inFlight - {k} == s.inFlight;
  }

  lemma Updates(s0: State, cl: Cluster, events: seq<Event>, s: State, k: ObjectId, data: Data) returns (more: seq<Event>)
    requires Queued(s, cl, k) && IsAggregate(data, InputGroups(s, cl, k)) && data != s.Live(OutputId(k)).value.data
    requires Leads(s0, cl, events, With(s, k, Flight(Some(s.domains[k]), InputGroups(s, cl, k))))
    ensures Leads(s0, cl, more, Rewritten(s, k, s.Live(OutputId(k)).value, data)) && WritesOf(more, k) == WritesOf(events, k) + 1
  {
    UpdateStep(s, cl, k, data);
    LeadsOneMore(s0, cl, events, With(s, k, Flight(Some(s.domains[k]), InputGroups(s, cl, k))), Finish(k, Updated(data)), k);
    more := events + [Finish(k, Updated(data))];
  }

  lemma ComesBack(s0: State, cl: Cluster, events: seq<Event>, s: State, k: ObjectId, data: Data) returns (more: seq<Event>, s': State)
    requires Queued(s, cl, k) && data != s.Live(OutputId(k)).value.data
    requires Leads(s0, cl, events, Rewritten(s, k, s.Live(OutputId(k)).value, data))
    ensures Leads(s0, cl, more, s') && WritesOf(more, k) == WritesOf(events, k)
    ensures Queued(s', cl, k) && InputGroups(s', cl, k) == InputGroups(s, cl, k) && s'.Live(OutputId(k)).value.data == data
  {
    var s1, delivery := Rewritten(s, k, s.Live(OutputId(k)).value, data), Deliver(OutputId(k));
    RewritingStaysSettled(s, cl, k, data);
    DeliveryQueues(s, cl, k, data);
    LeadsOneMore(s0, cl, events, s1, delivery, k);
    s', more := Next(s1, cl, delivery), events + [delivery];
    OwnStepKeepsInputs(s1, cl, delivery, k);
    SameInputsKeepFresh(s1, s', cl, k, Flight(None, []));
    OwnStepKeepsSettled(s1, cl, delivery);
  }

  lemma DeliveryQueues(s: State, cl: Cluster, k: ObjectId, data: Data)
    requires Queued(s, cl, k) && data != s.Live(OutputId(k)).value.data
    ensures var s1, delivery := Rewritten(s, k, s.Live(OutputId(k)).value, data), Deliver(OutputId(k));
      && Enabled(s1, cl, delivery)
      && var s' := Next(s1, cl, delivery);
         && s'.domains == s.domains && s'.taken == s.taken && s'.inFlight == s.inFlight && k in s'.dirty
         && s'.VersionsOf(OutputId(k)) == [Some(s.Live(OutputId(k)).value.(data := data))]
  {
    var id := OutputId(k);
    var c := s.Live(id).value;
    var s0 := s.(dirty := s.dirty - {k});
    AppendedVersions(s0, id, Some(c.(data := data)), id);
    assert s.VersionsOf(id) == [Some(c)] && s0.VersionsOf(id) == s.VersionsOf(id);
    LiveIsOrderly(s, cl, id);
    OutputChangeReachesIff(cl, k, Some(c), Some(c.(data := data)));
    ReachesIff(cl, s.domains, k, Some(c), Some(c.(data := data)));
  }

  lemma RewritingStaysSettled(s: State, cl: Cluster, k: ObjectId, data: Data)
    requires Queued(s, cl, k)
    ensures var s1 := Rewritten(s, k, s.Live(OutputId(k)).value, data);
      Settled(s1, cl) && InputGroups(s1, cl, k) == InputGroups(s, cl, k)
  {
    var id, s0 := OutputId(k), s.(dirty := s.dirty - {k});
    var v := Some(s.Live(id).value.(data := data));
    LiveIsOrderly(s, cl, id);
    assert forall other :: s0.VersionsOf(other) == s.VersionsOf(other);
    AppendKeepsTidy(s0, cl, id, v);
    forall other | |Append(s0, id, v).VersionsOf(other)| > 1 ensures IsOutputId(cl, other) {
      AppendedVersions(s0, id, v, other);
    }
    AppendKeepsInputs(s0, cl, id, v, k);
    SameVersionsSameInputs(s, s0, cl, k);
    SameInputsKeepFresh(s, s0, cl, k, Flight(None, []));
    SameInputsKeepFresh(s0, Append(s0, id, v), cl, k, Flight(None, []));
  }

  // ---------- Flapping ----------

  /** Groups that disagree with themselves have an aggregate other than any given one. */
  lemma AnotherAggregate(groups: Groups, data: Data) returns (other: Data)
    requires !ConflictFree(groups)
    ensures IsAggregate(other, groups) && other != data
  {
    var one := AggregateExists(groups);
    var key, g, v, w :| Decides(groups, g, key) && Offers(groups[g], key, v) && Offers(groups[g], key, w) && v != w;
    OverruledAggregate(one, groups, g, key, v);
    OverruledAggregate(one, groups, g, key, w);
    var a, b := one[key := v], one[key := w];
    assert a[key] != b[key];
    other := if a != data then a else b;
  }

  lemma OverruledAggregate(data: Data, groups: Groups, g: int, key: string, v: string)
    requires IsAggregate(data, groups) && Decides(groups, g, key) && Offers(groups[g], key, v)
    ensures IsAggregate(data[key := v], groups)
  {
    forall k, h | k in data[key := v] && Decides(groups, h, k) ensures Offers(groups[h], k, data[key := v][k]) {
      if k == key {
        assert !(g < h) && !(h < g);
      }
    }
  }

  /**
   A round of the controller's own steps: the sync reads its four listings, merges them in an order
   that gives something else than the output has, and the delivery of that write queues the domain again.
   */
  lemma Round(s0: State, cl: Cluster, events: seq<Event>, s: State, k: ObjectId) returns (more: seq<Event>, s': State)
    requires Leads(s0, cl, events, s) && Queued(s, cl, k) && !ConflictFree(InputGroups(s, cl, k))
    ensures Leads(s0, cl, more, s') && WritesOf(more, k) == WritesOf(events, k) + 1
    ensures Queued(s', cl, k) && InputGroups(s', cl, k) == InputGroups(s, cl, k)
    ensures s'.Live(OutputId(k)).value.data != s.Live(OutputId(k)).value.data
  {
    var groups := InputGroups(s, cl, k);
    var data := AnotherAggregate(groups, s.Live(OutputId(k)).value.data);
    more := Started(s0, cl, events, s, k);
    assert groups[..GROUPS] == groups;
    more := Listed(s0, cl, more, s, k, GROUPS, groups);
    more := Updates(s0, cl, more, s, k, data);
    more, s' := ComesBack(s0, cl, more, s, k, data);
  }

  lemma {:induction false} Flaps(s: State, cl: Cluster, k: ObjectId, n: nat) returns (events: seq<Event>, s': State)
    requires Queued(s, cl, k) && !ConflictFree(InputGroups(s, cl, k))
    ensures Leads(s, cl, events, s') && WritesOf(events, k) == n
    ensures Queued(s', cl, k) && InputGroups(s', cl, k) == InputGroups(s, cl, k)
  {
    if n == 0 {
      LeadsNowhere(s, cl);
      events, s' := [], s;
    } else {
      events, s' := Flaps(s, cl, k, n - 1);
      events, s' := Round(s, cl, events, s', k);
    }
  }

  /** The writes of the controller's own runs from s are bounded. */
  ghost predicate WritesStop(s: State, cl: Cluster, k: ObjectId) {
    exists bound: nat :: BoundsWrites(s, cl, k, bound)
  }

  ghost predicate BoundsWrites(s: State, cl: Cluster, k: ObjectId, bound: nat) {
    forall states, events :: IsOwnRun(states, cl, events) && states[0] == s ==> WritesOf(events, k) <= bound
  }

  lemma LeadsWithinBound(s: State, cl: Cluster, k: ObjectId, bound: nat, events: seq<Event>, s': State)
    requires BoundsWrites(s, cl, k, bound) && Leads(s, cl, events, s')
    ensures WritesOf(events, k) <= bound
  {
    var states :| IsOwnRun(states, cl, events) && states[0] == s && states[|events|] == s' && AllInternal(events);
  }

  /**
   Whatever fails or is refused, the writes of a queued domain's output stop if its inputs do not
   disagree where it matters; and even if nothing fails, they need not stop if they do.
   */
  lemma WritesStopIffConflictFree(s: State, cl: Cluster, k: ObjectId)
    requires Queued(s, cl, k)
    ensures WritesStop(s, cl, k) <==> ConflictFree(InputGroups(s, cl, k))
  {
    if ConflictFree(InputGroups(s, cl, k)) {
      forall states, events | IsOwnRun(states, cl, events) && states[0] == s ensures WritesOf(events, k) <= 2 {
        WritesAreBounded(states, cl, events, k);
      }
      assert BoundsWrites(s, cl, k, 2);
    } else if WritesStop(s, cl, k) {
      var bound: nat :| BoundsWrites(s, cl, k, bound);
      var events, s' := Flaps(s, cl, k, bound + 1);
      LeadsWithinBound(s, cl, k, bound, events, s');
    }
  }
}
