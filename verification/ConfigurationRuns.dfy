/**
 Runs of the configuration domain controller.

 Config maps are written to the API server, by anybody and by the controller's own syncs, and reach
 the informer later, one version after the other. A sync reads the informers only: the domain, then
 one listing per group, then the output, which it creates, updates or deletes on the server. Syncs of
 different domains overlap freely, and every event may fall between two reads.
 */
module ConfigurationRuns {
  import opened Common
  import opened ConfigurationDomains
  import opened ConfigurationAggregate

  /** What stays put during a run: the platforms, the platform each domain refers to, the label syntax. */
  datatype Cluster = Cluster(platforms: map<string, string>, platformOf: map<ObjectId, string>, validLabel: string -> bool)
  {
    function PlatformOf(k: ObjectId): string {
      if k in platformOf then platformOf[k] else ""
    }

    predicate Hosted(k: ObjectId) {
      k in platformOf && platformOf[k] in platforms
    }

    function TargetNamespace(k: ObjectId): string {
      if Hosted(k) then platforms[platformOf[k]] else ""
    }

    /** getConfigMapsFor can build its label selectors. */
    predicate Selectable(k: ObjectId) {
      validLabel(k.name) && validLabel(k.name + "." + k.namespace) && validLabel(PlatformOf(k))
    }

    /** The domain has its config maps aggregated, not cleaned up. */
    predicate Aggregates(k: ObjectId, spec: DomainSpec) {
      Hosted(k) && spec.aggregateConfigMaps
    }
  }

  /** What the sync of a domain has read so far: one set of data per group. */
  datatype Flight = Flight(spec: Option<DomainSpec>, groups: Groups)

  /** The version the informer holds, then those it has yet to deliver. The last one is live. */
  type Versions = v: seq<Option<ConfigMap>> | |v| > 0 witness [None]

  datatype State = State(
    domains: map<ObjectId, DomainSpec>,
    versions: map<ObjectId, Versions>,
    dirty: set<ObjectId>,
    delayed: set<ObjectId>,
    taken: set<ObjectId>,
    inFlight: map<ObjectId, Flight>)
  {
    function VersionsOf(id: ObjectId): Versions {
      if id in versions then versions[id] else [None]
    }

    function Cached(id: ObjectId): Option<ConfigMap> {
      VersionsOf(id)[0]
    }

    function Live(id: ObjectId): Option<ConfigMap> {
      var v := VersionsOf(id);
      v[|v| - 1]
    }

    /** One listing of getConfigMapsFor, without the output. */
    function InputGroup(cl: Cluster, k: ObjectId, group: int): set<Data> {
      set id | id in versions && Cached(id).Some? && Contributes(cl, k, group, Cached(id).value) :: Cached(id).value.data
    }
  }

  predicate Contributes(cl: Cluster, k: ObjectId, group: int, c: ConfigMap) {
    cl.Hosted(k) && InGroup(group, c, cl.PlatformOf(k), cl.TargetNamespace(k), k) && c.id.name != OutputName(k.name)
  }

  ghost function InputGroups(s: State, cl: Cluster, k: ObjectId): Groups {
    seq(GROUPS, g requires 0 <= g < GROUPS => s.InputGroup(cl, k, g))
  }

  /** What a sync does to the output at its end. */
  datatype Outcome = Unchanged | Created(data: Data) | Updated(data: Data) | Deleted

  /** Take is the queue's Get, Begin the read of the domain that follows it. */
  datatype Event =
    | Write(id: ObjectId, configMap: Option<ConfigMap>)
    | Deliver(id: ObjectId)
    | ChangeDomain(domain: ObjectId, spec: Option<DomainSpec>)
    | Tick(key: ObjectId)
    | Take(key: ObjectId)
    | Begin(key: ObjectId)
    | ReadGroup(key: ObjectId)
    | Finish(key: ObjectId, outcome: Outcome)
    | Fail(key: ObjectId, outcome: Outcome)
    | Requeue(key: ObjectId)

  /** metav1.IsControlledBy compares the identity of the owner, not its name. */
  predicate Controls(spec: DomainSpec, c: ConfigMap) {
    c.owner.OwnedByDomain? && c.owner.uid == spec.uid
  }

  /** The sync may end like this. */
  ghost predicate Concludes(s: State, cl: Cluster, k: ObjectId, outcome: Outcome) {
    && k in s.inFlight
    && var f, id := s.inFlight[k], OutputId(k);
    if f.spec.None? then outcome.Unchanged?
    else if !cl.Aggregates(k, f.spec.value) then
      // Cleanup deletes by name, whoever owns the object.
      outcome == if s.Live(id).Some? then Deleted else Unchanged
    else if !cl.Selectable(k) then outcome.Unchanged?
    else
      && |f.groups| == GROUPS
      && match outcome
         case Unchanged =>
           && s.Cached(id).Some?
           && (Controls(f.spec.value, s.Cached(id).value) ==> IsAggregate(s.Cached(id).value.data, f.groups))
         case Created(data) =>
           s.Live(id).None? && IsAggregate(data, f.groups)
         case Updated(data) =>
           // The server takes an update of the latest version only.
           && |s.VersionsOf(id)| == 1 && s.Live(id).Some? && Controls(f.spec.value, s.Live(id).value)
           && IsAggregate(data, f.groups) && data != s.Live(id).value.data
         case Deleted => false
  }

  /**
   The sync has something to write that the server refuses: a create of what is there already, or an
   update of a version that is not the latest. The informer has not been told yet.
   */
  ghost predicate Refused(s: State, cl: Cluster, k: ObjectId) {
    && k in s.inFlight && s.inFlight[k].spec.Some? && cl.Aggregates(k, s.inFlight[k].spec.value)
    && cl.Selectable(k) && |s.inFlight[k].groups| == GROUPS
    && |s.VersionsOf(OutputId(k))| > 1
    && match s.Cached(OutputId(k))
       case None => s.Live(OutputId(k)).Some?
       case Some(c) =>
         Controls(s.inFlight[k].spec.value, c) && exists data :: IsAggregate(data, s.inFlight[k].groups) && data != c.data
  }

  ghost predicate Enabled(s: State, cl: Cluster, e: Event) {
    match e
    case Write(_, _) => true
    case Deliver(id) => |s.VersionsOf(id)| > 1
    case ChangeDomain(k, spec) =>
      spec.Some? ==>
        && k in cl.platformOf && spec.value.platformRef == cl.platformOf[k]
        && (k in s.domains ==> s.domains[k].uid == spec.value.uid)
    case Tick(k) => true
    case Take(k) => k in s.dirty && k !in s.taken && k !in s.inFlight
    case Begin(k) => k in s.taken && k !in s.inFlight
    case ReadGroup(k) =>
      && k in s.inFlight && s.inFlight[k].spec.Some? && cl.Aggregates(k, s.inFlight[k].spec.value)
      && cl.Selectable(k) && |s.inFlight[k].groups| < GROUPS
    case Finish(k, outcome) => Concludes(s, cl, k, outcome)
    case Fail(k, outcome) => k in s.inFlight && (outcome.Unchanged? || Concludes(s, cl, k, outcome))
    case Requeue(k) => k in s.delayed
  }

  /** addConfigurationDomainHandlers: the output of a deleted domain goes with its owner. */
  function DomainChangeKeys(k: ObjectId, before: Option<DomainSpec>, after: Option<DomainSpec>): set<ObjectId> {
    if after.Some? && before != after then {k} else {}
  }

  function Append(s: State, id: ObjectId, v: Option<ConfigMap>): State {
    s.(versions := s.versions[id := s.VersionsOf(id) + [v]])
  }

  /** What the sync writes in the output's place, if it writes. */
  function Outgoing(s: State, cl: Cluster, k: ObjectId, outcome: Outcome): Option<Option<ConfigMap>>
    requires k in s.inFlight
  {
    var live, spec := s.Live(OutputId(k)), s.inFlight[k].spec;
    match outcome
    case Unchanged => None
    case Created(data) => Some(Some(Output(k, if spec.Some? then spec.value.uid else "", cl.PlatformOf(k), data)))
    case Updated(data) => Some(if live.Some? then Some(live.value.(data := data)) else None)
    case Deleted => Some(None)
  }

  function Conclude(s: State, cl: Cluster, k: ObjectId, outcome: Outcome): State
    requires k in s.inFlight
  {
    var s', v := s.(inFlight := s.inFlight - {k}), Outgoing(s, cl, k, outcome);
    if v.Some? then Append(s', OutputId(k), v.value) else s'
  }

  ghost function Next(s: State, cl: Cluster, e: Event): State
    requires Enabled(s, cl, e)
  {
    match e
    case Write(id, c) => Append(s, id, c)
    case Deliver(id) =>
      var v := s.VersionsOf(id);
      s.(versions := s.versions[id := v[1..]], dirty := s.dirty + ChangeKeys(cl.platforms, s.domains, v[0], v[1]))
    case ChangeDomain(k, spec) =>
      s.(domains := Store(s.domains, k, spec),
         dirty := s.dirty + DomainChangeKeys(k, Lookup(s.domains, k), spec))
    case Tick(k) => s.(dirty := s.dirty + {k})
    case Take(k) => s.(dirty := s.dirty - {k}, taken := s.taken + {k})
    case Begin(k) => s.(taken := s.taken - {k}, inFlight := s.inFlight[k := Flight(Lookup(s.domains, k), [])])
    case ReadGroup(k) =>
      var f := s.inFlight[k];
      s.(inFlight := s.inFlight[k := f.(groups := f.groups + [s.InputGroup(cl, k, |f.groups|)])])
    case Finish(k, outcome) => Conclude(s, cl, k, outcome)
    case Fail(k, outcome) => Conclude(s, cl, k, outcome).(delayed := s.delayed + {k})
    case Requeue(k) => s.(dirty := s.dirty + {k}, delayed := s.delayed - {k})
  }

  // ---------- Which changes reach a domain ----------

  /** The handler of c's route enqueues k, if there is such a domain. */
  predicate Reached(cl: Cluster, k: ObjectId, c: ConfigMap) {
    var route := RouteOf(c);
    route.ok && route.platform in cl.platforms &&
    if route.namespace == cl.platforms[route.platform] then route.platform == cl.PlatformOf(k)
    else if route.domain == GLOBAL then ListedIn(route.namespace, k) && route.platform == cl.PlatformOf(k)
    else k == ObjectId(route.namespace, route.domain)
  }

  /** The handlers enqueue k when this change is delivered. */
  predicate Reaches(cl: Cluster, k: ObjectId, before: Option<ConfigMap>, after: Option<ConfigMap>) {
    match (before, after)
    case (None, Some(a)) => Reached(cl, k, a) && !a.owner.OwnedByDomain?
    case (Some(b), None) => Reached(cl, k, b)
    case (Some(b), Some(a)) =>
      var from, to := RouteOf(b), RouteOf(a);
      || (Reached(cl, k, b) && (from.platform != to.platform || from.domain != to.domain))
      || (Reached(cl, k, a) && (b.data != a.data || b.platformLabel != a.platformLabel || b.domainLabel != a.domainLabel))
    case _ => false
  }

  /** Whatever labels the two versions carry, this says exactly when their domain is enqueued. */
  lemma ReachesIff(cl: Cluster, domains: map<ObjectId, DomainSpec>, k: ObjectId, before: Option<ConfigMap>, after: Option<ConfigMap>)
    requires k in domains && domains[k].platformRef == cl.PlatformOf(k)
    ensures k in ChangeKeys(cl.platforms, domains, before, after) <==> Reaches(cl, k, before, after)
  {
    if before.Some? { ReachedIff(cl, domains, k, before.value); }
    if after.Some? { ReachedIff(cl, domains, k, after.value); }
  }

  lemma ReachedIff(cl: Cluster, domains: map<ObjectId, DomainSpec>, k: ObjectId, c: ConfigMap)
    requires k in domains && domains[k].platformRef == cl.PlatformOf(k)
    ensures RouteOf(c).ok && k in HandledKeys(cl.platforms, domains, RouteOf(c)) <==> Reached(cl, k, c)
  {
  }

  /** What the version contributes to a group. */
  function Contributed(cl: Cluster, k: ObjectId, group: int, v: Option<ConfigMap>): Option<Data> {
    if v.Some? && Contributes(cl, k, group, v.value) then Some(v.value.data) else None
  }

  /** The change alters an input of the domain. */
  predicate Alters(cl: Cluster, k: ObjectId, before: Option<ConfigMap>, after: Option<ConfigMap>) {
    exists group | 0 <= group < GROUPS :: Contributed(cl, k, group, before) != Contributed(cl, k, group, after)
  }

  function UidOf(c: ConfigMap): Option<string> {
    if c.owner.OwnedByDomain? then Some(c.owner.uid) else None
  }

  /** A sync that leaves the first version as it is would leave the second: the same owner and data, or no domain's any more. */
  predicate NoWorse(before: Option<ConfigMap>, after: Option<ConfigMap>) {
    if before.None? || after.None? then before == after
    else UidOf(after.value).Some? ==> UidOf(before.value) == UidOf(after.value) && before.value.data == after.value.data
  }

  // ---------- The invariant of one domain ----------

  /** A sync of the current inputs would leave such an output as it is. */
  ghost predicate Suits(s: State, cl: Cluster, k: ObjectId, output: Option<ConfigMap>)
    requires k in s.domains
  {
    if !cl.Aggregates(k, s.domains[k]) then output.None?
    else
      cl.Selectable(k) ==>
        output.Some? && (Controls(s.domains[k], output.value) ==> IsAggregate(output.value.data, InputGroups(s, cl, k)))
  }

  ghost predicate UpToDate(s: State, cl: Cluster, k: ObjectId)
    requires k in s.domains
  {
    Suits(s, cl, k, s.Live(OutputId(k)))
  }

  /** Everything the sync has read so far still reads the same. */
  ghost predicate Fresh(s: State, cl: Cluster, k: ObjectId, f: Flight) {
    && f.spec == Lookup(s.domains, k)
    && |f.groups| <= GROUPS
    && forall g :: 0 <= g < |f.groups| ==> f.groups[g] == s.InputGroup(cl, k, g)
  }

  /** Some step along the versions reaches the domain. */
  ghost predicate SomeReaches(cl: Cluster, k: ObjectId, v: seq<Option<ConfigMap>>) {
    exists i :: 0 <= i < |v| - 1 && Reaches(cl, k, v[i], v[i + 1])
  }

  /** The informer has yet to deliver a change of the output that will enqueue the domain. */
  ghost predicate Pending(s: State, cl: Cluster, k: ObjectId) {
    SomeReaches(cl, k, s.VersionsOf(OutputId(k)))
  }

  /** Nothing makes a sync of the domain begin or go on. */
  ghost predicate Resting(s: State, cl: Cluster, k: ObjectId) {
    k !in s.dirty && k !in s.delayed && k !in s.taken && k !in s.inFlight && !Pending(s, cl, k)
  }

  ghost predicate Covered(s: State, cl: Cluster, k: ObjectId)
    requires k in s.domains
  {
    || k in s.dirty
    || k in s.delayed
    || k in s.taken
    || Pending(s, cl, k)
    || (k in s.inFlight && Fresh(s, cl, k, s.inFlight[k]))
    || (k !in s.inFlight && UpToDate(s, cl, k))
  }

  /** Every step along the versions that alters an input reaches the domain. */
  ghost predicate Traced(cl: Cluster, k: ObjectId, v: seq<Option<ConfigMap>>) {
    forall i :: 0 <= i < |v| - 1 ==> Alters(cl, k, v[i], v[i + 1]) ==> Reaches(cl, k, v[i], v[i + 1])
  }

  /** A step in the output's place that reaches the domain, makes no difference, or is an add. Only hosted domains mind. */
  predicate SteadyStep(cl: Cluster, k: ObjectId, before: Option<ConfigMap>, after: Option<ConfigMap>) {
    !cl.Hosted(k) || Reaches(cl, k, before, after) || NoWorse(before, after) || before.None?
  }

  ghost predicate Steady(cl: Cluster, k: ObjectId, v: seq<Option<ConfigMap>>) {
    forall i :: 0 <= i < |v| - 1 ==> SteadyStep(cl, k, v[i], v[i + 1])
  }

  /** What holds whether or not the domain is covered. */
  ghost predicate Sane(s: State, cl: Cluster, k: ObjectId) {
    && (k in s.domains ==> s.domains[k].platformRef == cl.PlatformOf(k))
    && (forall id :: Traced(cl, k, s.VersionsOf(id)))
    && Steady(cl, k, s.VersionsOf(OutputId(k)))
  }

  ghost predicate Inv(s: State, cl: Cluster, k: ObjectId) {
    Sane(s, cl, k) && (k in s.domains ==> Covered(s, cl, k))
  }

  /** The version an event adds, outside or by a sync's end, and whose. */
  function Added(s: State, cl: Cluster, e: Event): Option<(ObjectId, Option<ConfigMap>)> {
    match e
    case Write(id, c) => Some((id, c))
    case Finish(k, outcome) => AddedBySync(s, cl, k, outcome)
    case Fail(k, outcome) => AddedBySync(s, cl, k, outcome)
    case _ => None
  }

  function AddedBySync(s: State, cl: Cluster, k: ObjectId, outcome: Outcome): Option<(ObjectId, Option<ConfigMap>)> {
    if k in s.inFlight && Outgoing(s, cl, k, outcome).Some? then Some((OutputId(k), Outgoing(s, cl, k, outcome).value)) else None
  }

  /**
   The handlers follow the new version as far as the domain is concerned. If it alters an input they
   enqueue the domain. In the output's place they do too, or it makes no difference, or something is
   added where nothing was: that matters only to a resting domain that is to have no output.
   */
  ghost predicate FollowedVersion(s: State, cl: Cluster, k: ObjectId, id: ObjectId, v: Option<ConfigMap>) {
    var live := s.Live(id);
    && (Alters(cl, k, live, v) ==> Reaches(cl, k, live, v))
    && (id == OutputId(k) ==>
          && SteadyStep(cl, k, live, v)
          && (live.None? && v.Some? && !Reaches(cl, k, live, v) && k in s.domains && Resting(s, cl, k) ==>
                cl.Aggregates(k, s.domains[k])))
  }

  /** The changes that matter to the domain and that no handler follows. */
  ghost predicate Unfollowed(s: State, cl: Cluster, e: Event, k: ObjectId) {
    Added(s, cl, e).Some? && !FollowedVersion(s, cl, k, Added(s, cl, e).value.0, Added(s, cl, e).value.1)
  }

  // ---------- What a step leaves as it is ----------

  /** A sync of the domain reads the same in both states. */
  ghost predicate SameInputs(s: State, s': State, cl: Cluster, k: ObjectId) {
    Lookup(s'.domains, k) == Lookup(s.domains, k) && forall g :: s'.InputGroup(cl, k, g) == s.InputGroup(cl, k, g)
  }

  lemma SameInputsKeepFresh(s: State, s': State, cl: Cluster, k: ObjectId, f: Flight)
    requires SameInputs(s, s', cl, k)
    ensures Fresh(s, cl, k, f) <==> Fresh(s', cl, k, f)
    ensures InputGroups(s, cl, k) == InputGroups(s', cl, k)
  {
  }

  lemma SameVersionsSameInputs(s: State, s': State, cl: Cluster, k: ObjectId)
    requires s'.versions == s.versions && Lookup(s'.domains, k) == Lookup(s.domains, k)
    ensures SameInputs(s, s', cl, k)
  {
  }

  lemma AppendKeepsInputs(s: State, cl: Cluster, id: ObjectId, v: Option<ConfigMap>, k: ObjectId)
    ensures SameInputs(s, Append(s, id, v), cl, k)
  {
    var s' := Append(s, id, v);
    forall other ensures s'.Cached(other) == s.Cached(other) {
    }
    forall g ensures s'.InputGroup(cl, k, g) == s.InputGroup(cl, k, g) {
      assert forall other :: other in s'.versions && s'.Cached(other).Some? ==> other in s.versions;
    }
  }

  lemma AppendedVersions(s: State, id: ObjectId, v: Option<ConfigMap>, other: ObjectId)
    ensures Append(s, id, v).VersionsOf(other) == if other == id then s.VersionsOf(id) + [v] else s.VersionsOf(other)
    ensures Append(s, id, v).Live(other) == if other == id then v else s.Live(other)
  {
  }

  lemma SnocReaches(cl: Cluster, k: ObjectId, v: seq<Option<ConfigMap>>, last: Option<ConfigMap>)
    requires v != [] && (SomeReaches(cl, k, v) || Reaches(cl, k, v[|v| - 1], last))
    ensures SomeReaches(cl, k, v + [last])
  {
    var v', n := v + [last], |v| - 1;
    if Reaches(cl, k, v[n], last) {
      assert v'[n] == v[n] && v'[n + 1] == last;
    } else {
      var i :| 0 <= i < n && Reaches(cl, k, v[i], v[i + 1]);
      assert v'[i] == v[i] && v'[i + 1] == v[i + 1];
    }
  }

  lemma SnocTraced(cl: Cluster, k: ObjectId, v: seq<Option<ConfigMap>>, last: Option<ConfigMap>)
    requires v != [] && Traced(cl, k, v) && (Alters(cl, k, v[|v| - 1], last) ==> Reaches(cl, k, v[|v| - 1], last))
    ensures Traced(cl, k, v + [last])
  {
    var v', n := v + [last], |v| - 1;
    forall i | 0 <= i < |v'| - 1 ensures Alters(cl, k, v'[i], v'[i + 1]) ==> Reaches(cl, k, v'[i], v'[i + 1]) {
      assert i < n ==> v'[i] == v[i] && v'[i + 1] == v[i + 1];
      assert i == n ==> v'[i] == v[n] && v'[i + 1] == last;
    }
  }

  lemma SnocSteady(cl: Cluster, k: ObjectId, v: seq<Option<ConfigMap>>, last: Option<ConfigMap>)
    requires v != [] && Steady(cl, k, v) && SteadyStep(cl, k, v[|v| - 1], last)
    ensures Steady(cl, k, v + [last])
  {
    var v', n := v + [last], |v| - 1;
    forall i | 0 <= i < |v'| - 1 ensures SteadyStep(cl, k, v'[i], v'[i + 1]) {
      assert i < n ==> v'[i] == v[i] && v'[i + 1] == v[i + 1];
      assert i == n ==> v'[i] == v[n] && v'[i + 1] == last;
    }
  }

  lemma AppendKeepsSane(s: State, cl: Cluster, k: ObjectId, id: ObjectId, v: Option<ConfigMap>)
    requires Sane(s, cl, k) && (Alters(cl, k, s.Live(id), v) ==> Reaches(cl, k, s.Live(id), v))
    requires id == OutputId(k) ==> SteadyStep(cl, k, s.Live(id), v)
    ensures Sane(Append(s, id, v), cl, k)
  {
    var s' := Append(s, id, v);
    forall other ensures Traced(cl, k, s'.VersionsOf(other)) {
      AppendedVersions(s, id, v, other);
      if other == id {
        SnocTraced(cl, k, s.VersionsOf(id), v);
      }
    }
    AppendedVersions(s, id, v, OutputId(k));
    if id == OutputId(k) {
      SnocSteady(cl, k, s.VersionsOf(id), v);
    }
  }

  lemma AppendKeepsPending(s: State, cl: Cluster, k: ObjectId, id: ObjectId, v: Option<ConfigMap>)
    requires Pending(s, cl, k) || (id == OutputId(k) && Reaches(cl, k, s.Live(id), v))
    ensures Pending(Append(s, id, v), cl, k)
  {
    AppendedVersions(s, id, v, OutputId(k));
    if id == OutputId(k) {
      SnocReaches(cl, k, s.VersionsOf(id), v);
    }
  }

  /** What a step must not lose of a domain's queue state. */
  predicate KeepsQueued(s: State, s': State, k: ObjectId) {
    (k in s.dirty ==> k in s'.dirty) && (k in s.delayed ==> k in s'.delayed) && (k in s.taken ==> k in s'.taken)
  }

  /** A step that touches nothing of the domain's own leaves it covered. */
  lemma ElsewhereKeepsCovered(s: State, s': State, cl: Cluster, k: ObjectId)
    requires k in s.domains && Covered(s, cl, k)
    requires SameInputs(s, s', cl, k) && KeepsQueued(s, s', k) && Lookup(s'.inFlight, k) == Lookup(s.inFlight, k)
    requires Pending(s, cl, k) ==> Pending(s', cl, k)
    requires k !in s.inFlight && UpToDate(s, cl, k) ==> Pending(s', cl, k) || s'.Live(OutputId(k)) == s.Live(OutputId(k))
    ensures k in s'.domains && Covered(s', cl, k)
  {
    if k in s.inFlight {
      assert Lookup(s'.inFlight, k) == Some(s.inFlight[k]);
      SameInputsKeepFresh(s, s', cl, k, s.inFlight[k]);
    } else {
      assert k !in s'.inFlight;
      SameInputsKeepFresh(s, s', cl, k, Flight(None, []));
    }
  }

  // ---------- Versions added and delivered ----------

  /** A followed version of the output that does not reach the domain leaves a resting domain as right as it was. */
  lemma QuietVersionKeepsUpToDate(s: State, cl: Cluster, k: ObjectId, v: Option<ConfigMap>)
    requires k in s.domains && Resting(s, cl, k) && UpToDate(s, cl, k)
    requires FollowedVersion(s, cl, k, OutputId(k), v) && !Reaches(cl, k, s.Live(OutputId(k)), v)
    ensures UpToDate(Append(s, OutputId(k), v), cl, k)
  {
    var id := OutputId(k);
    AppendKeepsInputs(s, cl, id, v, k);
    SameInputsKeepFresh(s, Append(s, id, v), cl, k, Flight(None, []));
    AppendedVersions(s, id, v, id);
  }

  lemma VersionIsFollowed(s: State, cl: Cluster, k: ObjectId, id: ObjectId, v: Option<ConfigMap>)
    requires Inv(s, cl, k) && FollowedVersion(s, cl, k, id, v)
    ensures Inv(Append(s, id, v), cl, k)
  {
    var s' := Append(s, id, v);
    AppendKeepsSane(s, cl, k, id, v);
    if k in s.domains {
      AppendKeepsInputs(s, cl, id, v, k);
      AppendedVersions(s, id, v, OutputId(k));
      if Pending(s, cl, k) || (id == OutputId(k) && Reaches(cl, k, s.Live(id), v)) {
        AppendKeepsPending(s, cl, k, id, v);
      } else if id == OutputId(k) && Resting(s, cl, k) {
        QuietVersionKeepsUpToDate(s, cl, k, v);
      } else {
        QuietlyCovered(s, s', cl, k);
      }
    }
  }

  lemma QuietlyCovered(s: State, s': State, cl: Cluster, k: ObjectId)
    requires k in s.domains && Covered(s, cl, k) && !Pending(s, cl, k)
    requires SameInputs(s, s', cl, k) && KeepsQueued(s, s', k) && s'.inFlight == s.inFlight
    requires Resting(s, cl, k) ==> s'.Live(OutputId(k)) == s.Live(OutputId(k))
    ensures k in s'.domains && Covered(s', cl, k)
  {
    if k in s.inFlight {
      SameInputsKeepFresh(s, s', cl, k, s.inFlight[k]);
    } else {
      SameInputsKeepFresh(s, s', cl, k, Flight(None, []));
    }
  }

  lemma DeliveredVersions(s: State, cl: Cluster, id: ObjectId, other: ObjectId)
    requires Enabled(s, cl, Deliver(id))
    ensures var s' := Next(s, cl, Deliver(id));
      && s'.VersionsOf(other) == (if other == id then s.VersionsOf(id)[1..] else s.VersionsOf(other))
      && s'.Live(other) == s.Live(other)
  {
  }

  /** Replacing one object by a version that contributes the same leaves the group as it was. */
  lemma SameContributionSameGroup(s: State, s': State, cl: Cluster, id: ObjectId, k: ObjectId, g: int)
    requires forall other :: other != id ==> s'.Cached(other) == s.Cached(other)
    requires id in s.versions && s'.versions.Keys == s.versions.Keys
    requires Contributed(cl, k, g, s'.Cached(id)) == Contributed(cl, k, g, s.Cached(id))
    ensures s'.InputGroup(cl, k, g) == s.InputGroup(cl, k, g)
  {
    forall data ensures data in s'.InputGroup(cl, k, g) <==> data in s.InputGroup(cl, k, g) {
      assert forall other :: other != id && other in s.versions ==> Contributed(cl, k, g, s'.Cached(other)) == Contributed(cl, k, g, s.Cached(other));
    }
  }

  /** Delivering a change that alters no input leaves all listings as they were. */
  lemma UnalteredInputs(s: State, cl: Cluster, id: ObjectId, k: ObjectId)
    requires Enabled(s, cl, Deliver(id)) && !Alters(cl, k, s.VersionsOf(id)[0], s.VersionsOf(id)[1])
    ensures SameInputs(s, Next(s, cl, Deliver(id)), cl, k)
  {
    var s', v := Next(s, cl, Deliver(id)), s.VersionsOf(id);
    forall g ensures s'.InputGroup(cl, k, g) == s.InputGroup(cl, k, g) {
      assert Contributed(cl, k, g, v[0]) == Contributed(cl, k, g, v[1]);
      SameContributionSameGroup(s, s', cl, id, k, g);
    }
  }

  /** A delivery that does not enqueue the domain leaves all its inputs as they were. */
  lemma QuietDeliveryKeepsInputs(s: State, cl: Cluster, id: ObjectId, k: ObjectId)
    requires Sane(s, cl, k) && Enabled(s, cl, Deliver(id)) && k in s.domains
    requires k !in ChangeKeys(cl.platforms, s.domains, s.VersionsOf(id)[0], s.VersionsOf(id)[1])
    ensures SameInputs(s, Next(s, cl, Deliver(id)), cl, k)
  {
    var v := s.VersionsOf(id);
    ReachesIff(cl, s.domains, k, v[0], v[0 + 1]);
    assert Traced(cl, k, v);
    UnalteredInputs(s, cl, id, k);
  }

  lemma TailReaches(cl: Cluster, k: ObjectId, v: seq<Option<ConfigMap>>)
    requires |v| > 1 && SomeReaches(cl, k, v) && !Reaches(cl, k, v[0], v[1])
    ensures SomeReaches(cl, k, v[1..])
  {
    var i :| 0 <= i < |v| - 1 && Reaches(cl, k, v[i], v[i + 1]);
    assert v[1..][i - 1] == v[i] && v[1..][i - 1 + 1] == v[i + 1];
  }

  lemma TailIsSane(cl: Cluster, k: ObjectId, v: seq<Option<ConfigMap>>)
    requires |v| > 1
    ensures Traced(cl, k, v) ==> Traced(cl, k, v[1..])
    ensures Steady(cl, k, v) ==> Steady(cl, k, v[1..])
  {
    var w := v[1..];
    if Traced(cl, k, v) {
      forall i | 0 <= i < |w| - 1 ensures Alters(cl, k, w[i], w[i + 1]) ==> Reaches(cl, k, w[i], w[i + 1]) {
        assert Alters(cl, k, v[i + 1], v[i + 1 + 1]) ==> Reaches(cl, k, v[i + 1], v[i + 1 + 1]);
      }
    }
    if Steady(cl, k, v) {
      forall i | 0 <= i < |w| - 1 ensures SteadyStep(cl, k, w[i], w[i + 1]) {
        assert SteadyStep(cl, k, v[i + 1], v[i + 1 + 1]);
      }
    }
  }

  lemma DeliveryKeepsSane(s: State, cl: Cluster, id: ObjectId, k: ObjectId)
    requires Sane(s, cl, k) && Enabled(s, cl, Deliver(id))
    ensures Sane(Next(s, cl, Deliver(id)), cl, k)
  {
    var s' := Next(s, cl, Deliver(id));
    TailIsSane(cl, k, s.VersionsOf(id));
    forall other ensures Traced(cl, k, s'.VersionsOf(other)) {
      DeliveredVersions(s, cl, id, other);
      assert Traced(cl, k, s.VersionsOf(other));
    }
    DeliveredVersions(s, cl, id, OutputId(k));
  }

  lemma DeliveryIsFollowed(s: State, cl: Cluster, id: ObjectId, k: ObjectId)
    requires Inv(s, cl, k) && Enabled(s, cl, Deliver(id))
    ensures Inv(Next(s, cl, Deliver(id)), cl, k)
  {
    var s', v := Next(s, cl, Deliver(id)), s.VersionsOf(id);
    DeliveryKeepsSane(s, cl, id, k);
    if k in s.domains && k !in ChangeKeys(cl.platforms, s.domains, v[0], v[1]) {
      QuietDeliveryKeepsInputs(s, cl, id, k);
      ReachesIff(cl, s.domains, k, v[0], v[1]);
      DeliveredVersions(s, cl, id, OutputId(k));
      if id == OutputId(k) && Pending(s, cl, k) {
        TailReaches(cl, k, v);
      }
      ElsewhereKeepsCovered(s, s', cl, k);
    }
  }

  lemma DomainChangeIsFollowed(s: State, cl: Cluster, e: Event, k: ObjectId)
    requires Inv(s, cl, k) && e.ChangeDomain? && Enabled(s, cl, e)
    ensures Inv(Next(s, cl, e), cl, k)
  {
    var s' := Next(s, cl, e);
    DomainChangeKeepsVersions(s, cl, e);
    assert forall id :: s'.VersionsOf(id) == s.VersionsOf(id);
    if k in s'.domains && (k != e.domain || e.spec == Lookup(s.domains, k)) {
      assert Lookup(s'.domains, k) == Lookup(s.domains, k);
      SameVersionsSameInputs(s, s', cl, k);
      ElsewhereKeepsCovered(s, s', cl, k);
    }
  }

  lemma DomainChangeKeepsVersions(s: State, cl: Cluster, e: Event)
    requires e.ChangeDomain? && Enabled(s, cl, e)
    ensures var s' := Next(s, cl, e); s'.versions == s.versions && s'.inFlight == s.inFlight && s.dirty <= s'.dirty
  {
  }

  // ---------- Syncs ----------

  /** Along versions none of which reaches the domain, the last is no worse than the first. */
  lemma {:induction false} QuietVersionsAreNoWorse(cl: Cluster, k: ObjectId, v: seq<Option<ConfigMap>>)
    requires cl.Hosted(k) && v != [] && v[0].Some? && Steady(cl, k, v) && !SomeReaches(cl, k, v)
    ensures NoWorse(v[0], v[|v| - 1])
  {
    if |v| > 1 {
      var n := |v| - 1;
      var front := v[..n];
      assert forall i :: 0 <= i < n ==> front[i] == v[i];
      QuietFrontIsQuiet(cl, k, v);
      QuietVersionsAreNoWorse(cl, k, front);
      assert !Reaches(cl, k, v[n - 1], v[n - 1 + 1]);
      assert SteadyStep(cl, k, v[n - 1], v[n - 1 + 1]);
    }
  }

  lemma QuietFrontIsQuiet(cl: Cluster, k: ObjectId, v: seq<Option<ConfigMap>>)
    requires |v| > 1 && Steady(cl, k, v) && !SomeReaches(cl, k, v)
    ensures Steady(cl, k, v[..|v| - 1]) && !SomeReaches(cl, k, v[..|v| - 1])
  {
    var w := v[..|v| - 1];
    forall i | 0 <= i < |w| - 1 ensures SteadyStep(cl, k, w[i], w[i + 1]) && !Reaches(cl, k, w[i], w[i + 1]) {
      assert w[i] == v[i] && w[i + 1] == v[i + 1];
      assert SteadyStep(cl, k, v[i], v[i + 1]) && !Reaches(cl, k, v[i], v[i + 1]);
    }
  }

  /** With nothing left to deliver that would enqueue the domain, the live output is no worse than the one the informer holds. */
  lemma CachedOutputIsLive(s: State, cl: Cluster, k: ObjectId)
    requires Sane(s, cl, k) && cl.Hosted(k) && !Pending(s, cl, k) && s.Cached(OutputId(k)).Some?
    ensures NoWorse(s.Cached(OutputId(k)), s.Live(OutputId(k)))
  {
    QuietVersionsAreNoWorse(cl, k, s.VersionsOf(OutputId(k)));
  }

  /** The end of a sync, but for its version. */
  function Landed(s: State, k: ObjectId): State {
    s.(inFlight := s.inFlight - {k})
  }

  lemma LandedIsTheSame(s: State, cl: Cluster, k: ObjectId, other: ObjectId)
    ensures SameInputs(s, Landed(s, k), cl, other)
    ensures Sane(s, cl, other) ==> Sane(Landed(s, k), cl, other)
    ensures Pending(s, cl, other) <==> Pending(Landed(s, k), cl, other)
    ensures forall id :: Landed(s, k).VersionsOf(id) == s.VersionsOf(id)
  {
    assert forall id :: Landed(s, k).VersionsOf(id) == s.VersionsOf(id);
    SameVersionsSameInputs(s, Landed(s, k), cl, other);
  }

  /** A sync all of whose reads still hold leaves the output up to date. */
  lemma FreshSyncIsUpToDate(s: State, cl: Cluster, k: ObjectId, outcome: Outcome)
    requires Sane(s, cl, k) && k in s.domains
    requires Concludes(s, cl, k, outcome) && Fresh(s, cl, k, s.inFlight[k]) && !Pending(s, cl, k)
    ensures UpToDate(Conclude(s, cl, k, outcome), cl, k)
  {
    var s', s1, f, id := Conclude(s, cl, k, outcome), Landed(s, k), s.inFlight[k], OutputId(k);
    LandedIsTheSame(s, cl, k, k);
    ConcludedInputs(s, cl, k, outcome, k);
    SameInputsKeepFresh(s, s', cl, k, f);
    if outcome.Unchanged? {
      if cl.Hosted(k) && s.Cached(id).Some? {
        CachedOutputIsLive(s, cl, k);
      }
      assert s'.Live(id) == s.Live(id);
    } else {
      AppendedVersions(s1, id, Outgoing(s, cl, k, outcome).value, id);
    }
    if cl.Aggregates(k, s.domains[k]) && cl.Selectable(k) {
      assert f.groups == InputGroups(s, cl, k);
    }
  }

  lemma ConcludedInputs(s: State, cl: Cluster, k: ObjectId, outcome: Outcome, other: ObjectId)
    requires k in s.inFlight
    ensures SameInputs(s, Conclude(s, cl, k, outcome), cl, other)
  {
    var v := Outgoing(s, cl, k, outcome);
    LandedIsTheSame(s, cl, k, other);
    if v.Some? {
      AppendKeepsInputs(Landed(s, k), cl, OutputId(k), v.value, other);
    }
  }

  lemma ConcludeKeepsSane(s: State, cl: Cluster, k: ObjectId, outcome: Outcome, other: ObjectId)
    requires Sane(s, cl, other) && k in s.inFlight
    requires Outgoing(s, cl, k, outcome).Some? ==> FollowedVersion(s, cl, other, OutputId(k), Outgoing(s, cl, k, outcome).value)
    ensures Sane(Conclude(s, cl, k, outcome), cl, other)
  {
    var v := Outgoing(s, cl, k, outcome);
    LandedIsTheSame(s, cl, k, other);
    if v.Some? {
      AppendKeepsSane(Landed(s, k), cl, other, OutputId(k), v.value);
    }
  }

  /** A sync of one domain leaves the output and the queue state of another alone. */
  lemma OtherOutputStays(s: State, cl: Cluster, k: ObjectId, outcome: Outcome, other: ObjectId)
    requires k in s.inFlight && other != k
    ensures var s' := Conclude(s, cl, k, outcome);
      s'.VersionsOf(OutputId(other)) == s.VersionsOf(OutputId(other)) && Lookup(s'.inFlight, other) == Lookup(s.inFlight, other)
  {
    OutputIdsAreDistinct(k, other);
    var v := Outgoing(s, cl, k, outcome);
    if v.Some? {
      AppendedVersions(Landed(s, k), OutputId(k), v.value, OutputId(other));
    }
  }

  lemma OwnPendingStays(s: State, cl: Cluster, k: ObjectId, outcome: Outcome)
    requires k in s.inFlight && Pending(s, cl, k)
    ensures Pending(Conclude(s, cl, k, outcome), cl, k)
  {
    var v := Outgoing(s, cl, k, outcome);
    LandedIsTheSame(s, cl, k, k);
    if v.Some? {
      AppendKeepsPending(Landed(s, k), cl, k, OutputId(k), v.value);
    }
  }

  lemma ConcludeIsFollowed(s: State, cl: Cluster, k: ObjectId, outcome: Outcome, other: ObjectId)
    requires Inv(s, cl, other) && Concludes(s, cl, k, outcome)
    requires Outgoing(s, cl, k, outcome).Some? ==> FollowedVersion(s, cl, other, OutputId(k), Outgoing(s, cl, k, outcome).value)
    ensures Inv(Conclude(s, cl, k, outcome), cl, other)
  {
    var s' := Conclude(s, cl, k, outcome);
    ConcludeKeepsSane(s, cl, k, outcome, other);
    if other in s.domains {
      ConcludedInputs(s, cl, k, outcome, other);
      if other != k {
        OtherOutputStays(s, cl, k, outcome, other);
        ElsewhereKeepsCovered(s, s', cl, other);
      } else if Pending(s, cl, k) {
        OwnPendingStays(s, cl, k, outcome);
      } else if Fresh(s, cl, k, s.inFlight[k]) {
        FreshSyncIsUpToDate(s, cl, k, outcome);
      }
    }
  }

  /** A failing sync is queued again. */
  lemma FailureIsFollowed(s: State, cl: Cluster, e: Event, k: ObjectId)
    requires Inv(s, cl, k) && e.Fail? && Enabled(s, cl, e) && !Unfollowed(s, cl, e, k)
    ensures Inv(Next(s, cl, e), cl, k)
  {
    var s', s1 := Next(s, cl, e), Conclude(s, cl, e.key, e.outcome);
    ConcludeKeepsSane(s, cl, e.key, e.outcome, k);
    assert forall id :: s'.VersionsOf(id) == s1.VersionsOf(id);
    if k in s.domains && k != e.key {
      ConcludedInputs(s, cl, e.key, e.outcome, k);
      SameVersionsSameInputs(s1, s', cl, k);
      OtherOutputStays(s, cl, e.key, e.outcome, k);
      ElsewhereKeepsCovered(s, s', cl, k);
    }
  }

  predicate IsQueueStep(e: Event) {
    e.Tick? || e.Take? || e.Begin? || e.ReadGroup? || e.Requeue?
  }

  lemma QueueStepsOnlyQueue(s: State, cl: Cluster, e: Event)
    requires IsQueueStep(e) && Enabled(s, cl, e)
    ensures Next(s, cl, e).domains == s.domains && Next(s, cl, e).versions == s.versions
  {
  }

  lemma QueueStepsOfOthers(s: State, cl: Cluster, e: Event, k: ObjectId)
    requires IsQueueStep(e) && Enabled(s, cl, e) && k != e.key
    ensures KeepsQueued(s, Next(s, cl, e), k) && Lookup(Next(s, cl, e).inFlight, k) == Lookup(s.inFlight, k)
  {
  }

  lemma OwnQueueStepIsCovered(s: State, cl: Cluster, e: Event, k: ObjectId)
    requires k in s.domains && Covered(s, cl, k) && IsQueueStep(e) && Enabled(s, cl, e) && k == e.key
    requires SameInputs(s, Next(s, cl, e), cl, k) && (Pending(s, cl, k) ==> Pending(Next(s, cl, e), cl, k))
    ensures k in Next(s, cl, e).domains && Covered(Next(s, cl, e), cl, k)
  {
    if e.Begin? || e.ReadGroup? {
      SameInputsKeepFresh(s, Next(s, cl, e), cl, k, Next(s, cl, e).inFlight[k]);
    }
  }

  lemma QueueStepIsFollowed(s: State, cl: Cluster, e: Event, k: ObjectId)
    requires Inv(s, cl, k) && IsQueueStep(e) && Enabled(s, cl, e)
    ensures Inv(Next(s, cl, e), cl, k)
  {
    var s' := Next(s, cl, e);
    QueueStepsOnlyQueue(s, cl, e);
    assert forall id :: s'.VersionsOf(id) == s.VersionsOf(id);
    if k in s.domains {
      SameVersionsSameInputs(s, s', cl, k);
      if k != e.key {
        QueueStepsOfOthers(s, cl, e, k);
        ElsewhereKeepsCovered(s, s', cl, k);
      } else {
        OwnQueueStepIsCovered(s, cl, e, k);
      }
    }
  }

  // ---------- Precedence ----------

  /** Where a value may come from, the strongest place first. */
  datatype Place = SpelledOut | OwnNamespace | GlobalInNamespace | GlobalInPlatform

  /** The cached config map is one of the domain's platform and place, has the key, and is not the domain's output. */
  predicate Stands(s: State, cl: Cluster, k: ObjectId, place: Place, id: ObjectId, key: string) {
    && cl.Hosted(k) && id in s.versions && s.Cached(id).Some?
    && var c := s.Cached(id).value;
       && key in c.data && c.platformLabel == Some(cl.platformOf[k]) && c.id.name != k.name + "-aggregate"
       && match place
          case SpelledOut => c.domainLabel == Some(k.name + "." + k.namespace)
          case OwnNamespace => c.domainLabel == Some(k.name) && (c.id.namespace == k.namespace || k.namespace == "")
          case GlobalInNamespace => c.domainLabel == Some("global") && (c.id.namespace == k.namespace || k.namespace == "")
          case GlobalInPlatform =>
            var target := cl.platforms[cl.platformOf[k]];
            c.domainLabel == Some("global") && (c.id.namespace == target || target == "")
  }

  /** Some config map of the place has the key. */
  ghost predicate SomeStands(s: State, cl: Cluster, k: ObjectId, place: Place, key: string) {
    exists id :: Stands(s, cl, k, place, id, key)
  }

  /** Some config map of the place has this value for the key. */
  ghost predicate Supplies(s: State, cl: Cluster, k: ObjectId, place: Place, key: string, value: string) {
    exists id :: Stands(s, cl, k, place, id, key) && s.Cached(id).value.data[key] == value
  }

  /** What data holds for the key comes from the strongest place that has the key. */
  ghost predicate ByPrecedence(s: State, cl: Cluster, k: ObjectId, data: Data, key: string) {
    if SomeStands(s, cl, k, SpelledOut, key) then key in data && Supplies(s, cl, k, SpelledOut, key, data[key])
    else if SomeStands(s, cl, k, OwnNamespace, key) then key in data && Supplies(s, cl, k, OwnNamespace, key, data[key])
    else if SomeStands(s, cl, k, GlobalInNamespace, key) then key in data && Supplies(s, cl, k, GlobalInNamespace, key, data[key])
    else if SomeStands(s, cl, k, GlobalInPlatform, key) then key in data && Supplies(s, cl, k, GlobalInPlatform, key, data[key])
    else key !in data
  }

  function GroupOf(place: Place): (group: nat)
    ensures group < GROUPS
  {
    match place
    case SpelledOut => 3
    case OwnNamespace => 2
    case GlobalInNamespace => 1
    case GlobalInPlatform => 0
  }

  lemma StandsIff(s: State, cl: Cluster, k: ObjectId, place: Place, id: ObjectId, key: string)
    ensures Stands(s, cl, k, place, id, key) <==>
      && id in s.versions && s.Cached(id).Some? && Contributes(cl, k, GroupOf(place), s.Cached(id).value)
      && key in s.Cached(id).value.data
  {
  }

  lemma PlaceIsGroup(s: State, cl: Cluster, k: ObjectId, place: Place, key: string)
    ensures SomeStands(s, cl, k, place, key) <==> Has(s.InputGroup(cl, k, GroupOf(place)), key)
    ensures forall value :: Supplies(s, cl, k, place, key, value) <==> Offers(s.InputGroup(cl, k, GroupOf(place)), key, value)
  {
    var group := s.InputGroup(cl, k, GroupOf(place));
    forall id ensures Stands(s, cl, k, place, id, key) <==>
      && id in s.versions && s.Cached(id).Some? && Contributes(cl, k, GroupOf(place), s.Cached(id).value)
      && key in s.Cached(id).value.data
    {
      StandsIff(s, cl, k, place, id, key);
    }
    if data :| data in group && key in data {
      var id :| id in s.versions && s.Cached(id).Some? && Contributes(cl, k, GroupOf(place), s.Cached(id).value) && s.Cached(id).value.data == data;
      assert Stands(s, cl, k, place, id, key);
    }
    forall value | Offers(group, key, value) ensures Supplies(s, cl, k, place, key, value) {
      var data :| data in group && key in data && data[key] == value;
      var id :| id in s.versions && s.Cached(id).Some? && Contributes(cl, k, GroupOf(place), s.Cached(id).value) && s.Cached(id).value.data == data;
      assert Stands(s, cl, k, place, id, key);
    }
    forall id | Stands(s, cl, k, place, id, key) ensures s.Cached(id).value.data in group {
    }
  }

  /** Every aggregate of a domain's inputs goes by precedence. */
  lemma AggregatesGoByPrecedence(s: State, cl: Cluster, k: ObjectId, data: Data, key: string)
    requires IsAggregate(data, InputGroups(s, cl, k))
    ensures ByPrecedence(s, cl, k, data, key)
  {
    FourGroupsDecide(data, InputGroups(s, cl, k), key);
    PlaceIsGroup(s, cl, k, SpelledOut, key);
    PlaceIsGroup(s, cl, k, OwnNamespace, key);
    PlaceIsGroup(s, cl, k, GlobalInNamespace, key);
    PlaceIsGroup(s, cl, k, GlobalInPlatform, key);
  }

  // ---------- Runs ----------

  /** Every followed event, wherever it falls, keeps a domain's invariant. */
  lemma StepKeepsInv(s: State, cl: Cluster, e: Event, k: ObjectId)
    requires Inv(s, cl, k) && Enabled(s, cl, e) && !Unfollowed(s, cl, e, k)
    ensures Inv(Next(s, cl, e), cl, k)
  {
    match e
    case Write(id, c) => VersionIsFollowed(s, cl, k, id, c);
    case Deliver(id) => DeliveryIsFollowed(s, cl, id, k);
    case ChangeDomain(_, _) => DomainChangeIsFollowed(s, cl, e, k);
    case Finish(key, outcome) => ConcludeIsFollowed(s, cl, key, outcome, k);
    case Fail(_, _) => FailureIsFollowed(s, cl, e, k);
    case _ => QueueStepIsFollowed(s, cl, e, k);
  }

  ghost predicate IsRun(states: seq<State>, cl: Cluster, events: seq<Event>) {
    && |states| == |events| + 1
    && forall i :: 0 <= i < |events| ==> Enabled(states[i], cl, events[i]) && states[i + 1] == Next(states[i], cl, events[i])
  }

  ghost predicate FollowedThroughout(states: seq<State>, cl: Cluster, events: seq<Event>, k: ObjectId)
    requires |states| == |events| + 1
  {
    forall i :: 0 <= i < |events| ==> !Unfollowed(states[i], cl, events[i], k)
  }

  lemma {:induction false} RunKeepsInv(states: seq<State>, cl: Cluster, events: seq<Event>, k: ObjectId)
    requires IsRun(states, cl, events) && FollowedThroughout(states, cl, events, k) && Inv(states[0], cl, k)
    ensures Inv(states[|events|], cl, k)
  {
    if events != [] {
      var n := |events| - 1;
      assert IsRun(states[..n + 1], cl, events[..n]);
      RunKeepsInv(states[..n + 1], cl, events[..n], k);
      StepKeepsInv(states[n], cl, events[n], k);
    }
  }

  ghost predicate Idle(s: State, k: ObjectId) {
    k !in s.dirty && k !in s.delayed && k !in s.taken && k !in s.inFlight && |s.VersionsOf(OutputId(k))| == 1
  }

  /**
   Convergence: in a run from before the domain was known, with no version undelivered that the handlers
   will miss, a domain at rest has the output its inputs call for, or none if it does not aggregate. An
   output of its own is an aggregate of the inputs, every value by precedence.
   */
  lemma RestingDomainsAreUpToDate(states: seq<State>, cl: Cluster, events: seq<Event>, k: ObjectId)
    requires IsRun(states, cl, events) && FollowedThroughout(states, cl, events, k)
    requires Sane(states[0], cl, k) && k !in states[0].domains
    requires Idle(states[|events|], k) && k in states[|events|].domains
    ensures var s := states[|events|];
      var output := s.Live(ObjectId(k.namespace, k.name + "-aggregate"));
      if !cl.Hosted(k) || !s.domains[k].aggregateConfigMaps then output.None?
      else if cl.validLabel(k.name) && cl.validLabel(k.name + "." + k.namespace) && cl.validLabel(cl.platformOf[k]) then
        && output.Some?
        && (output.value.owner.OwnedByDomain? && output.value.owner.uid == s.domains[k].uid ==>
              IsAggregate(output.value.data, InputGroups(s, cl, k)) && forall key :: ByPrecedence(s, cl, k, output.value.data, key))
      else true
  {
    RunKeepsInv(states, cl, events, k);
    var s := states[|events|];
    var output := s.Live(OutputId(k));
    if cl.Aggregates(k, s.domains[k]) && cl.Selectable(k) && Controls(s.domains[k], output.value) {
      forall key ensures ByPrecedence(s, cl, k, output.value.data, key) {
        AggregatesGoByPrecedence(s, cl, k, output.value.data, key);
      }
    }
  }
}
