/** The configuration domain controller: its event handlers, and the sync that writes a domain's output. */
module ConfigurationController {
  import opened Common
  import opened WorkQueues
  import opened ConfigurationDomains
  import opened ConfigurationAggregate
  import opened ConfigurationRuns

  class Controller {
    const cluster: Cluster
    /** What the informers hold. */
    var domains: map<ObjectId, DomainSpec>
    var configMaps: map<ObjectId, ConfigMap>
    /** The config maps of the API server. */
    var server: map<ObjectId, ConfigMap>
    var queue: Queue<ObjectId>

    constructor (cluster: Cluster)
      ensures this.cluster == cluster && domains == map[] && configMaps == map[] && server == map[]
      ensures queue.Valid() && queue.dirty == {} && queue.processing == {}
    {
      this.cluster := cluster;
      domains, configMaps, server, queue := map[], map[], map[], Queue([], {}, {});
    }

    // ---------- Event handlers ----------

    method EnqueueConfigurationDomain(k: ObjectId)
      requires queue.Valid()
      modifies this`queue
      ensures Enqueued(old(queue), {k}, queue)
    {
      AddIsEnqueued(queue, k);
      queue := queue.Add(k);
    }

    /** The loop of handleKubeResource, over the domains in whatever order the lister returns them. */
    method EnqueueListed(platform: string, namespace: string)
      requires queue.Valid()
      modifies this`queue
      ensures Enqueued(old(queue), OfPlatform(domains, Listed(domains, namespace), platform), queue)
    {
      var rest := Listed(domains, namespace);
      while rest != {}
        invariant rest <= Listed(domains, namespace)
        invariant Enqueued(old(queue), OfPlatform(domains, Listed(domains, namespace) - rest, platform), queue)
        decreases |rest|
      {
        var k :| k in rest;
        if domains[k].platformRef == platform {
          EnqueueConfigurationDomain(k);
        }
        rest := rest - {k};
      }
      assert Listed(domains, namespace) - rest == Listed(domains, namespace);
    }

    method HandleKubeResource(route: Route)
      requires queue.Valid()
      modifies this`queue
      ensures Enqueued(old(queue), HandledKeys(cluster.platforms, domains, route), queue)
    {
      if route.platform !in cluster.platforms {
        return;
      }
      var platformNamespace := route.namespace == cluster.platforms[route.platform];
      var globalDomain := route.domain == GLOBAL;
      if platformNamespace || globalDomain {
        var namespace := if platformNamespace then "" else route.namespace;
        EnqueueListed(route.platform, namespace);
      } else {
        EnqueueConfigurationDomain(ObjectId(route.namespace, route.domain));
      }
    }

    method OnConfigMapAdd(configMap: ConfigMap)
      requires queue.Valid()
      modifies this`queue
      ensures Enqueued(old(queue), ChangeKeys(cluster.platforms, domains, None, Some(configMap)), queue)
    {
      var route := RouteOf(configMap);
      if route.ok {
        if configMap.owner.OwnedByDomain? {
          return;
        }
        HandleKubeResource(route);
      }
    }

    method OnConfigMapUpdate(before: ConfigMap, after: ConfigMap)
      requires queue.Valid()
      modifies this`queue
      ensures Enqueued(old(queue), ChangeKeys(cluster.platforms, domains, Some(before), Some(after)), queue)
    {
      var from, to := RouteOf(before), RouteOf(after);
      var targetChanged := from.platform != to.platform || from.domain != to.domain;
      if !from.ok && !to.ok {
        return;
      }
      if from.ok && targetChanged {
        HandleKubeResource(from);
      }
      var dataChanged := before.data != after.data || before.platformLabel != after.platformLabel || before.domainLabel != after.domainLabel;
      if to.ok && dataChanged {
        HandleKubeResource(to);
      }
    }

    method OnConfigMapDelete(configMap: ConfigMap)
      requires queue.Valid()
      modifies this`queue
      ensures Enqueued(old(queue), ChangeKeys(cluster.platforms, domains, Some(configMap), None), queue)
    {
      var route := RouteOf(configMap);
      if route.ok {
        HandleKubeResource(route);
      }
    }

    /** The add, update and delete handlers of configuration domains. */
    method OnDomainChange(k: ObjectId, before: Option<DomainSpec>, after: Option<DomainSpec>)
      requires queue.Valid()
      modifies this`queue
      ensures Enqueued(old(queue), DomainChangeKeys(k, before, after), queue)
    {
      match (before, after)
      case (None, Some(_)) => EnqueueConfigurationDomain(k);
      case (Some(b), Some(a)) =>
        var specChanged := b != a;
        if specChanged {
          EnqueueConfigurationDomain(k);
        }
      case _ =>
    }

    // ---------- Syncs ----------

    /** The controller in the terms of its runs: one version of an object if the informer is up to date, else two. */
    ghost function View(flights: map<ObjectId, Flight>): State
      reads this
    {
      State(domains, Histories(configMaps, server), queue.dirty, {}, {}, flights)
    }

    method Cleanup(k: ObjectId)
      modifies this`server
      ensures server == old(server) - {OutputId(k)}
    {
      server := server - {OutputId(k)};
    }

    /** A listing of the informer's, in whatever order. */
    method ListConfigMaps(namespace: string, domainLabel: string, platform: string) returns (list: seq<ConfigMap>)
      ensures forall c :: c in list <==>
        && (exists id :: id in configMaps && configMaps[id] == c)
        && (namespace == "" || c.id.namespace == namespace)
        && c.domainLabel == Some(domainLabel) && c.platformLabel == Some(platform)
    {
      list := [];
      var rest := configMaps.Keys;
      while rest != {}
        invariant rest <= configMaps.Keys
        invariant forall c :: c in list <==> IsListed(configMaps, configMaps.Keys - rest, namespace, domainLabel, platform, c)
        decreases |rest|
      {
        var id :| id in rest;
        var c := configMaps[id];
        if ListedIn(namespace, c.id) && c.domainLabel == Some(domainLabel) && c.platformLabel == Some(platform) {
          list := list + [c];
        }
        ListedOneMore(configMaps, rest, id, namespace, domainLabel, platform);
        rest := rest - {id};
      }
      assert configMaps.Keys - rest == configMaps.Keys;
    }

    /** getConfigMapsFor, once its label selectors are built: the platform's and the namespace's global config maps, then the domain's own. */
    method GetConfigMapsFor(k: ObjectId) returns (lists: Listings)
      requires cluster.Hosted(k)
      ensures |lists| == GROUPS
      ensures Contributions(lists, OutputName(k.name)) == InputGroups(View(map[]), cluster, k)
    {
      var platform, target := cluster.platformOf[k], cluster.platforms[cluster.platformOf[k]];
      var platformConfigMaps := ListConfigMaps(target, GLOBAL, platform);
      var globalDomainConfigMaps := ListConfigMaps(k.namespace, GLOBAL, platform);
      var currentNsConfigMaps := ListConfigMaps(k.namespace, k.name, platform);
      var nsConfigMaps := ListConfigMaps("", k.name + "." + k.namespace, platform);
      lists := [platformConfigMaps, globalDomainConfigMaps, currentNsConfigMaps, nsConfigMaps];
      ListingsAreInputs(View(map[]), cluster, k, configMaps, server, lists);
    }

    /** Creates or updates the output, given the four listings in whatever order they came. */
    method Sync(k: ObjectId, spec: DomainSpec, lists: Listings) returns (retry: bool)
      requires |lists| == GROUPS
      modifies this`server
      ensures Synced(cluster, k, spec, Contributions(lists, OutputName(k.name)), configMaps, old(server), server, retry)
      ensures OnlyOwnOutput(k, spec, configMaps, old(server), server)
    {
      if !cluster.Selectable(k) {
        return false;
      }
      var data := AggregateConfigMaps(lists, OutputName(k.name));
      var id := OutputId(k);
      var output;
      if id in configMaps {
        output := configMaps[id];
      } else {
        if id in server {
          return true;
        }
        output := Output(k, spec.uid, spec.platformRef, data);
        server := server[id := output];
      }
      if !Controls(spec, output) {
        return false;
      }
      if output.data != data {
        if Lookup(server, id) != Some(output) {
          return true;
        }
        server := server[id := output.(data := data)];
      }
      return false;
    }

    /**
     syncHandler, with the four listings as parameters. It ends as a sync of a run may end, on what it
     read; it asks for a retry only if its write was refused.
     */
    method SyncHandler(k: ObjectId, lists: Listings) returns (retry: bool)
      requires |lists| == GROUPS
      requires k in domains ==> k in cluster.platformOf && domains[k].platformRef == cluster.platformOf[k]
      modifies this`server
      ensures var flight := Flight(old(Lookup(domains, k)), Contributions(lists, OutputName(k.name)));
        Ends(old(View(map[k := flight])), cluster, k, old(server), server, retry)
    {
      ghost var view := View(map[k := Flight(Lookup(domains, k), Contributions(lists, OutputName(k.name)))]);
      if k !in domains {
        DoneWithNothing(view, cluster, k, configMaps, server);
        return false;
      }
      var spec := domains[k];
      if spec.platformRef !in cluster.platforms || !spec.aggregateConfigMaps {
        Cleanup(k);
        CleanedUp(view, cluster, k, configMaps, old(server));
        return false;
      }
      retry := Sync(k, spec, lists);
      if retry {
        RetryIsRefused(view, cluster, k, configMaps, old(server), server);
      } else {
        SyncConcludes(view, cluster, k, configMaps, old(server), server);
      }
    }

    /** Sync when nothing comes between its reads. */
    method SyncAtOnce(k: ObjectId, spec: DomainSpec) returns (retry: bool)
      requires cluster.Hosted(k) && spec.platformRef == cluster.platformOf[k]
      modifies this`server
      ensures Synced(cluster, k, spec, InputGroups(old(View(map[])), cluster, k), configMaps, old(server), server, retry)
      ensures OnlyOwnOutput(k, spec, configMaps, old(server), server)
      ensures WritesByPrecedence(old(View(map[])), cluster, k, old(server), server)
    {
      ghost var view := View(map[]);
      var lists := GetConfigMapsFor(k);
      retry := Sync(k, spec, lists);
      SyncedByPrecedence(view, cluster, k, spec, configMaps, old(server), server, retry);
    }
  }

  predicate IsListed(configMaps: map<ObjectId, ConfigMap>, ids: set<ObjectId>, namespace: string, domainLabel: string, platform: string, c: ConfigMap)
    requires ids <= configMaps.Keys
  {
    && (exists id :: id in ids && configMaps[id] == c)
    && ListedIn(namespace, c.id) && c.domainLabel == Some(domainLabel) && c.platformLabel == Some(platform)
  }

  lemma ListedOneMore(configMaps: map<ObjectId, ConfigMap>, rest: set<ObjectId>, id: ObjectId, namespace: string, domainLabel: string, platform: string)
    requires rest <= configMaps.Keys && id in rest
    ensures forall c :: IsListed(configMaps, configMaps.Keys - (rest - {id}), namespace, domainLabel, platform, c) <==>
      || IsListed(configMaps, configMaps.Keys - rest, namespace, domainLabel, platform, c)
      || (c == configMaps[id] && ListedIn(namespace, c.id) && c.domainLabel == Some(domainLabel) && c.platformLabel == Some(platform))
  {
    assert configMaps.Keys - (rest - {id}) == (configMaps.Keys - rest) + {id};
  }

  /** The informer's listings contribute the inputs. */
  lemma ListingsAreInputs(s: State, cl: Cluster, k: ObjectId, cached: map<ObjectId, ConfigMap>, server: map<ObjectId, ConfigMap>, lists: Listings)
    requires s.versions == Histories(cached, server) && cl.Hosted(k) && |lists| == GROUPS
    requires forall g, c | 0 <= g < GROUPS :: c in lists[g] <==>
      (exists id :: id in cached && cached[id] == c) && InGroup(g, c, cl.PlatformOf(k), cl.TargetNamespace(k), k)
    ensures Contributions(lists, OutputName(k.name)) == InputGroups(s, cl, k)
  {
    HistoriesShow(s, cached, server);
    forall g | 0 <= g < GROUPS ensures Contribution(lists[g], OutputName(k.name)) == s.InputGroup(cl, k, g) {
      ListingIsInput(s, cl, k, cached, g, lists[g]);
    }
  }

  lemma ListingIsInput(s: State, cl: Cluster, k: ObjectId, cached: map<ObjectId, ConfigMap>, g: int, list: seq<ConfigMap>)
    requires cl.Hosted(k) && (forall id :: s.Cached(id) == Lookup(cached, id)) && cached.Keys <= s.versions.Keys
    requires forall c :: c in list <==>
      (exists id :: id in cached && cached[id] == c) && InGroup(g, c, cl.PlatformOf(k), cl.TargetNamespace(k), k)
    ensures Contribution(list, OutputName(k.name)) == s.InputGroup(cl, k, g)
  {
    forall data ensures data in Contribution(list, OutputName(k.name)) <==> data in s.InputGroup(cl, k, g) {
      if data in Contribution(list, OutputName(k.name)) {
        var c :| c in list && c.id.name != OutputName(k.name) && c.data == data;
        var id :| id in cached && cached[id] == c;
        assert s.Cached(id) == Some(c);
      }
      if data in s.InputGroup(cl, k, g) {
        var id :| id in s.versions && s.Cached(id).Some? && Contributes(cl, k, g, s.Cached(id).value) && s.Cached(id).value.data == data;
        assert Lookup(cached, id) == Some(cached[id]) && cached[id] in list;
      }
    }
  }

  /** What a sync wrote goes by precedence over what the informer held. */
  ghost predicate WritesByPrecedence(s: State, cl: Cluster, k: ObjectId, before: map<ObjectId, ConfigMap>, after: map<ObjectId, ConfigMap>) {
    var id := ObjectId(k.namespace, k.name + "-aggregate");
    after != before && id in after ==> forall key :: ByPrecedence(s, cl, k, after[id].data, key)
  }

  lemma SyncedByPrecedence(s: State, cl: Cluster, k: ObjectId, spec: DomainSpec, cached: map<ObjectId, ConfigMap>,
                           before: map<ObjectId, ConfigMap>, after: map<ObjectId, ConfigMap>, retry: bool)
    requires Synced(cl, k, spec, InputGroups(s, cl, k), cached, before, after, retry)
    ensures WritesByPrecedence(s, cl, k, before, after)
  {
    if after != before && OutputId(k) in after {
      var data :| IsAggregate(data, InputGroups(s, cl, k)) && SyncedTo(k, spec, data, cached, before, after, retry);
      forall key ensures ByPrecedence(s, cl, k, after[OutputId(k)].data, key) {
        AggregatesGoByPrecedence(s, cl, k, data, key);
      }
    }
  }

  /** A sync takes the server from before to after as a run allows, or leaves it because the write was refused. */
  ghost predicate Ends(s: State, cl: Cluster, k: ObjectId, before: map<ObjectId, ConfigMap>, after: map<ObjectId, ConfigMap>, retry: bool) {
    if retry then after == before && Refused(s, cl, k)
    else exists outcome :: Concludes(s, cl, k, outcome) && Shows(Conclude(s, cl, k, outcome), after)
  }

  lemma DoneWithNothing(s: State, cl: Cluster, k: ObjectId, cached: map<ObjectId, ConfigMap>, server: map<ObjectId, ConfigMap>)
    requires s.versions == Histories(cached, server) && k in s.inFlight && s.inFlight[k].spec.None?
    ensures Ends(s, cl, k, server, server, false)
  {
    HistoriesShow(s, cached, server);
    ConcludedShows(s, cl, k, Unchanged, server);
    assert Concludes(s, cl, k, Unchanged);
  }

  lemma CleanedUp(s: State, cl: Cluster, k: ObjectId, cached: map<ObjectId, ConfigMap>, server: map<ObjectId, ConfigMap>)
    requires s.versions == Histories(cached, server) && k in s.inFlight && s.inFlight[k].spec.Some?
    requires !cl.Aggregates(k, s.inFlight[k].spec.value)
    ensures Ends(s, cl, k, server, server - {OutputId(k)}, false)
  {
    HistoriesShow(s, cached, server);
    var outcome := if OutputId(k) in server then Deleted else Unchanged;
    ConcludedShows(s, cl, k, outcome, server);
    assert OutputId(k) !in server ==> server - {OutputId(k)} == server;
    assert Concludes(s, cl, k, outcome);
  }

  function Listed(domains: map<ObjectId, DomainSpec>, namespace: string): set<ObjectId> {
    set k | k in domains && ListedIn(namespace, k)
  }

  function OfPlatform(domains: map<ObjectId, DomainSpec>, keys: set<ObjectId>, platform: string): set<ObjectId> {
    set k | k in keys && k in domains && domains[k].platformRef == platform
  }

  /** What the informer holds of each object, followed by what the server holds if that is newer. */
  function Histories(cached: map<ObjectId, ConfigMap>, live: map<ObjectId, ConfigMap>): map<ObjectId, Versions> {
    map id | id in cached.Keys + live.Keys ::
      if Lookup(cached, id) == Lookup(live, id) then [Lookup(live, id)] else [Lookup(cached, id), Lookup(live, id)]
  }

  /** The live versions are what the server holds. */
  ghost predicate Shows(s: State, server: map<ObjectId, ConfigMap>) {
    forall id :: s.Live(id) == Lookup(server, id)
  }

  lemma HistoriesShow(s: State, cached: map<ObjectId, ConfigMap>, live: map<ObjectId, ConfigMap>)
    requires s.versions == Histories(cached, live)
    ensures Shows(s, live)
    ensures forall id :: s.Cached(id) == Lookup(cached, id)
    ensures forall id :: |s.VersionsOf(id)| == 1 <==> Lookup(cached, id) == Lookup(live, id)
  {
  }

  /**
   What Sync does, given what the informer holds and the server held: nothing for labels that select
   nothing and for an output that is not the domain's own or right already; otherwise it writes an
   aggregate, or asks for a retry when the server holds another version than the informer.
   */
  ghost predicate Synced(cl: Cluster, k: ObjectId, spec: DomainSpec, groups: Groups, cached: map<ObjectId, ConfigMap>,
                         before: map<ObjectId, ConfigMap>, after: map<ObjectId, ConfigMap>, retry: bool) {
    if !cl.Selectable(k) then !retry && after == before
    else exists data :: IsAggregate(data, groups) && SyncedTo(k, spec, data, cached, before, after, retry)
  }

  predicate SyncedTo(k: ObjectId, spec: DomainSpec, data: Data, cached: map<ObjectId, ConfigMap>,
                     before: map<ObjectId, ConfigMap>, after: map<ObjectId, ConfigMap>, retry: bool) {
    var id := OutputId(k);
    match Lookup(cached, id)
    case None =>
      if id in before then retry && after == before
      else !retry && after == before[id := Output(k, spec.uid, spec.platformRef, data)]
    case Some(output) =>
      if !Controls(spec, output) || output.data == data then !retry && after == before
      else if Lookup(before, id) != Some(output) then retry && after == before
      else !retry && after == before[id := output.(data := data)]
  }

  /**
   Nothing but the object called like the domain, with "-aggregate" after it, is written; it is left alone if
   the informer knows it as somebody else's; and a new one carries the domain's labels and is owned by it.
   */
  predicate OnlyOwnOutput(k: ObjectId, spec: DomainSpec, cached: map<ObjectId, ConfigMap>,
                          before: map<ObjectId, ConfigMap>, after: map<ObjectId, ConfigMap>) {
    var id := ObjectId(k.namespace, k.name + "-aggregate");
    && (forall other | other in before.Keys + after.Keys :: other != id ==> Lookup(after, other) == Lookup(before, other))
    && (id in cached && !(cached[id].owner.OwnedByDomain? && cached[id].owner.uid == spec.uid) ==> after == before)
    && (id !in before && id in after ==>
          after[id] == ConfigMap(id, Some(spec.platformRef), Some(k.name), after[id].data, OwnedByDomain(k, spec.uid)))
  }

  /** The server after a sync that ends like this. */
  function Outcomes(cl: Cluster, k: ObjectId, spec: Option<DomainSpec>, outcome: Outcome, server: map<ObjectId, ConfigMap>): map<ObjectId, ConfigMap> {
    var id := OutputId(k);
    match outcome
    case Unchanged => server
    case Created(data) => server[id := Output(k, if spec.Some? then spec.value.uid else "", cl.PlatformOf(k), data)]
    case Updated(data) => if id in server then server[id := server[id].(data := data)] else server
    case Deleted => server - {id}
  }

  lemma AppendShows(s: State, id: ObjectId, v: Option<ConfigMap>, server: map<ObjectId, ConfigMap>)
    requires Shows(s, server)
    ensures Shows(Append(s, id, v), Store(server, id, v))
  {
    var s' := Append(s, id, v);
    forall other ensures s'.Live(other) == Lookup(Store(server, id, v), other) {
      assert other != id ==> s'.Live(other) == s.Live(other);
    }
  }

  lemma ConcludedShows(s: State, cl: Cluster, k: ObjectId, outcome: Outcome, server: map<ObjectId, ConfigMap>)
    requires Shows(s, server) && k in s.inFlight
    ensures Shows(Conclude(s, cl, k, outcome), Outcomes(cl, k, s.inFlight[k].spec, outcome, server))
  {
    var s', id, v := Landed(s, k), OutputId(k), Outgoing(s, cl, k, outcome);
    LandedIsTheSame(s, cl, k, k);
    assert forall other :: s'.Live(other) == s.Live(other) == Lookup(server, other);
    if v.Some? {
      AppendShows(s', id, v.value, server);
      OutgoingIsStored(s, cl, k, outcome, server);
    }
  }

  lemma OutgoingIsStored(s: State, cl: Cluster, k: ObjectId, outcome: Outcome, server: map<ObjectId, ConfigMap>)
    requires k in s.inFlight && s.Live(OutputId(k)) == Lookup(server, OutputId(k)) && Outgoing(s, cl, k, outcome).Some?
    ensures Store(server, OutputId(k), Outgoing(s, cl, k, outcome).value) == Outcomes(cl, k, s.inFlight[k].spec, outcome, server)
  {
  }

  /** Whatever Sync does without asking for a retry is an end of the sync that a run allows. */
  lemma SyncConcludes(s: State, cl: Cluster, k: ObjectId, cached: map<ObjectId, ConfigMap>,
                      before: map<ObjectId, ConfigMap>, after: map<ObjectId, ConfigMap>)
    requires s.versions == Histories(cached, before) && k in s.inFlight
    requires var f := s.inFlight[k];
      && |f.groups| == GROUPS && f.spec.Some? && cl.Aggregates(k, f.spec.value)
      && f.spec.value.platformRef == cl.PlatformOf(k)
      && Synced(cl, k, f.spec.value, f.groups, cached, before, after, false)
    ensures Ends(s, cl, k, before, after, false)
  {
    HistoriesShow(s, cached, before);
    var f, id := s.inFlight[k], OutputId(k);
    var outcome := Unchanged;
    if cl.Selectable(k) {
      var data :| IsAggregate(data, f.groups) && SyncedTo(k, f.spec.value, data, cached, before, after, false);
      outcome := EndOf(cached, k, f.spec.value, data);
      EndConcludes(s, cl, k, cached, before, data);
      EndShows(cl, k, f.spec.value, data, cached, before, after);
    }
    ConcludedShows(s, cl, k, outcome, before);
    assert Concludes(s, cl, k, outcome);
  }

  lemma EndConcludes(s: State, cl: Cluster, k: ObjectId, cached: map<ObjectId, ConfigMap>, before: map<ObjectId, ConfigMap>, data: Data)
    requires s.versions == Histories(cached, before) && k in s.inFlight
    requires var f := s.inFlight[k];
      |f.groups| == GROUPS && f.spec.Some? && cl.Aggregates(k, f.spec.value) && cl.Selectable(k) && IsAggregate(data, f.groups)
    requires exists after :: SyncedTo(k, s.inFlight[k].spec.value, data, cached, before, after, false)
    ensures Concludes(s, cl, k, EndOf(cached, k, s.inFlight[k].spec.value, data))
  {
    HistoriesShow(s, cached, before);
  }

  lemma EndShows(cl: Cluster, k: ObjectId, spec: DomainSpec, data: Data, cached: map<ObjectId, ConfigMap>,
                 before: map<ObjectId, ConfigMap>, after: map<ObjectId, ConfigMap>)
    requires spec.platformRef == cl.PlatformOf(k) && SyncedTo(k, spec, data, cached, before, after, false)
    ensures Outcomes(cl, k, Some(spec), EndOf(cached, k, spec, data), before) == after
  {
  }

  /** Sync asks for a retry only if the server refused its write. */
  lemma RetryIsRefused(s: State, cl: Cluster, k: ObjectId, cached: map<ObjectId, ConfigMap>,
                       before: map<ObjectId, ConfigMap>, after: map<ObjectId, ConfigMap>)
    requires s.versions == Histories(cached, before) && k in s.inFlight
    requires var f := s.inFlight[k];
      && |f.groups| == GROUPS && f.spec.Some? && cl.Aggregates(k, f.spec.value)
      && Synced(cl, k, f.spec.value, f.groups, cached, before, after, true)
    ensures Ends(s, cl, k, before, after, true)
  {
    HistoriesShow(s, cached, before);
    var f, id := s.inFlight[k], OutputId(k);
    var data :| IsAggregate(data, f.groups) && SyncedTo(k, f.spec.value, data, cached, before, after, true);
    assert Lookup(cached, id).Some? ==> Lookup(cached, id).value.data != data;
  }

  function EndOf(cached: map<ObjectId, ConfigMap>, k: ObjectId, spec: DomainSpec, data: Data): Outcome {
    var id := OutputId(k);
    if id !in cached then Created(data)
    else if !Controls(spec, cached[id]) || cached[id].data == data then Unchanged
    else Updated(data)
  }
}
