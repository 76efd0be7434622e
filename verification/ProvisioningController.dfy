/** The provisioning controller: its event handlers, its workers, and the queue and stacks they change. */
module ProvisioningController {
  import opened Common
  import opened Kinds
  import opened Provisioning
  import opened WorkQueues
  import opened ProvisioningRuns

  datatype LiveRead<+T> = Found(item: T) | NotFound | ReadFailed

  /** How the provisioner ends: as it should, or with an error that leaves some stack or none. */
  datatype Answer = Succeeds | FailsWith(left: Option<Built>)

  class Controller {
    const azureEnabled: bool
    /** The informers' listings. */
    var tenants: seq<Tenant>
    var categories: map<CategoryId, CategorySpec>
    var resources: map<ResourceId, ResourceSpec>
    var queue: Queue<Key>
    /** Keys that the rate limiter will add to the queue later. */
    var delayed: set<Key>
    var stacks: map<Key, Built>
    /** Keys whose last sync failed. */
    var failed: set<Key>

    ghost function Listed(): set<Tenant>
      reads this
    {
      set t | t in tenants
    }

    constructor (azureEnabled: bool)
      ensures this.azureEnabled == azureEnabled
      ensures queue.Valid() && queue.dirty == {} && queue.processing == {}
      ensures tenants == [] && categories == map[] && resources == map[]
      ensures delayed == {} && stacks == map[] && failed == {}
    {
      this.azureEnabled := azureEnabled;
      tenants, categories, resources, queue, delayed, stacks, failed := [], map[], map[], Queue([], {}, {}), {}, map[], {};
    }

    /** The controller is in the state s of a run. */
    ghost predicate Shows(s: State)
      reads this
    {
      && s.azureEnabled == azureEnabled && s.Cached() == Listed() && s.categories == categories && s.resources == resources
      && s.dirty == queue.dirty && queue.processing == s.taken + s.inFlight.Keys && s.taken !! s.inFlight.Keys
      && s.delayed == delayed && s.stacks == stacks && s.failed == failed
    }

    // ---------- Enqueueing ----------

    method Enqueue(k: Key)
      requires queue.Valid()
      modifies this`queue
      ensures Enqueued(old(queue), {k}, queue)
    {
      AddIsEnqueued(queue, k);
      queue := queue.Add(k);
    }

    method EnqueueTenant(tenant: Tenant)
      requires queue.Valid()
      modifies this`queue
      ensures Enqueued(old(queue), TenantKeys(tenant), queue)
    {
      if tenant.skipProvisioning {
        return;
      }
      var refs, platform := tenant.spec.domainRefs, tenant.spec.platformRef;
      for i := 0 to |refs|
        invariant Enqueued(old(queue), set d | d in refs[..i] :: TenantKey(platform, tenant.id, d), queue)
      {
        assert refs[..i + 1] == refs[..i] + [refs[i]];
        Enqueue(TenantKey(platform, tenant.id, refs[i]));
      }
      assert refs[..|refs|] == refs;
    }

    method EnqueueTenantDomain(tenant: Tenant, domain: string)
      requires queue.Valid()
      modifies this`queue
      ensures Enqueued(old(queue), (set k | k in TenantKeys(tenant) && k.domain == domain), queue)
    {
      if tenant.skipProvisioning {
        return;
      }
      var k := TenantKey(tenant.spec.platformRef, tenant.id, domain);
      if Contains(tenant.spec.domainRefs, domain) {
        assert (set x | x in TenantKeys(tenant) && x.domain == domain) == {k};
        Enqueue(k);
      } else {
        assert (set x | x in TenantKeys(tenant) && x.domain == domain) == {};
      }
    }

    method EnqueueDomain(platform: string, domain: string, category: TargetCategory)
      requires queue.Valid()
      modifies this`queue
      ensures Enqueued(old(queue), DomainKeys(Listed(), platform, domain, category), queue)
    {
      if category == TenantTargets {
        for i := 0 to |tenants|
          invariant tenants == old(tenants)
          invariant Enqueued(old(queue), DomainKeys((set t | t in tenants[..i]), platform, domain, category), queue)
        {
          assert tenants[..i + 1] == tenants[..i] + [tenants[i]];
          if tenants[i].spec.platformRef == platform {
            EnqueueTenantDomain(tenants[i], domain);
          }
        }
        assert tenants[..|tenants|] == tenants;
      } else if category == PlatformTargets {
        Enqueue(PlatformKey(platform, domain));
      }
    }

    method EnqueueTenantsByCategory(platform: string, category: string)
      requires queue.Valid()
      modifies this`queue
      ensures Enqueued(old(queue), CategoryKeys(Listed(), platform, category), queue)
    {
      for i := 0 to |tenants|
        invariant tenants == old(tenants)
        invariant Enqueued(old(queue), CategoryKeys((set t | t in tenants[..i]), platform, category), queue)
      {
        assert tenants[..i + 1] == tenants[..i] + [tenants[i]];
        var tenant := tenants[i];
        if tenant.spec.platformRef == platform && tenant.spec.categoryRef == category {
          EnqueueTenant(tenant);
        }
      }
      assert tenants[..|tenants|] == tenants;
    }

    // ---------- Event handlers ----------

    /** addTenantHandlers: before is absent for an add, after for a delete. */
    method OnTenantChange(before: Option<Tenant>, after: Option<Tenant>)
      requires queue.Valid()
      modifies this`queue
      ensures Enqueued(old(queue), TenantChangeKeys(before, after), queue)
    {
      var specChanged := before.None? || after.None? || before.value.spec != after.value.spec;
      if before.Some? && before.value.spec.platformRef != "" && specChanged {
        EnqueueTenant(before.value);
      }
      if after.Some? && after.value.spec.platformRef != "" && specChanged {
        EnqueueTenant(after.value);
      }
    }

    /** addResourceHandlers. */
    method OnResourceChange(before: Option<ResourceSpec>, after: Option<ResourceSpec>)
      requires queue.Valid()
      modifies this`queue
      ensures Enqueued(old(queue), ResourceChangeKeys(Listed(), before, after), queue)
    {
      var keysChanged := before.None? || after.None? ||
        before.value.meta.platformRef != after.value.meta.platformRef ||
        before.value.meta.domainRef != after.value.meta.domainRef ||
        before.value.meta.category != after.value.meta.category;
      if before.Some? && keysChanged && HasResourceKeys(before.value.meta) {
        EnqueueDomain(before.value.meta.platformRef, before.value.meta.domainRef, before.value.meta.category);
      }
      if after.Some? && HasResourceKeys(after.value.meta) {
        EnqueueDomain(after.value.meta.platformRef, after.value.meta.domainRef, after.value.meta.category);
      }
    }

    /** addTenantCategoryHandlers. */
    method OnCategoryChange(name: string, before: Option<CategorySpec>, after: Option<CategorySpec>)
      requires queue.Valid()
      modifies this`queue
      ensures Enqueued(old(queue), CategoryChangeKeys(Listed(), name, before, after), queue)
    {
      if after.Some? {
        if before != after {
          EnqueueTenantsByCategory(after.value.platformRef, name);
        }
      } else if before.Some? {
        EnqueueTenantsByCategory(before.value.platformRef, name);
      }
    }

    // ---------- Workers ----------

    method FindTenantCategory(platform: string, name: string) returns (found: Option<CategorySpec>)
      ensures found.Some? ==> exists id | id in categories :: IsCategory(id, categories[id], platform, name) && categories[id] == found.value
      ensures found.None? ==> forall id | id in categories :: !IsCategory(id, categories[id], platform, name)
    {
      var rest := categories.Keys;
      while rest != {}
        invariant rest <= categories.Keys
        invariant forall id | id in categories && id !in rest :: !IsCategory(id, categories[id], platform, name)
        decreases |rest|
      {
        var id :| id in rest;
        if IsCategory(id, categories[id], platform, name) {
          return Some(categories[id]);
        }
        rest := rest - {id};
      }
      return None;
    }

    /** resolveTenantCategory; no result is the error of a dangling reference. */
    method ResolveTenantCategory(ghost s: State, target: Target) returns (category: Option<Option<CategorySpec>>)
      requires s.categories == categories
      ensures category.Some? ==> s.ResolvesTo(target, category.value)
      ensures category.None? ==> forall c :: !s.ResolvesTo(target, c)
    {
      if !target.ForTenant? || target.spec.categoryRef == "" {
        return Some(None);
      }
      var found := FindTenantCategory(target.spec.platformRef, target.spec.categoryRef);
      if found.None? {
        return None;
      }
      return Some(found);
    }

    /** Create: an update of the stack if there is any resource, otherwise its destruction. */
    method Create(k: Key, f: Flight, answer: Answer)
      requires if f.target.Provisions() then f.category.Some? else f.lists == map[]
      modifies this`stacks, this`failed
      ensures stacks == StackAfter(old(stacks), k, f, answer) && failed == FailedAfter(old(failed), k, answer)
    {
      match answer
      case FailsWith(left) =>
        stacks, failed := Store(stacks, k, left), failed + {k};
      case Succeeds =>
        var anyResource := !AllEmpty(f.lists);
        stacks := if anyResource then stacks[k := Built(f.target, f.category.value, f.lists)] else stacks - {k};
        failed := failed - {k};
    }

    /** syncTarget: the category, then one listing for every active kind, then the provisioner. */
    method SyncTarget(ghost s: State, k: Key, target: Target, provisioner: (Target, map<Kind, Listing>) -> Answer)
      returns (ghost events: seq<Event>, ghost s': State)
      requires target.Provisions() && azureEnabled == s.azureEnabled && categories == s.categories && resources == s.resources
      requires stacks == s.stacks && failed == s.failed
      requires k in s.inFlight && s.inFlight[k] == Flight(target, None, map[])
      modifies this`stacks, this`failed
      ensures Leads(s, events, s') && events != [] && s' == s.(inFlight := s.inFlight - {k}, stacks := stacks, failed := failed)
      ensures forall other :: other != k ==> Lookup(stacks, other) == Lookup(old(stacks), other)
    {
      events, s' := [], s;
      var category := ResolveTenantCategory(s, target);
      if category.None? {
        failed := failed + {k};
        events, s' := Unresolved(s, k);
        return;
      }
      events, s' := CategoryRead(s, k, category.value);
      var lists;
      lists, events := ReadLists(s, k, target, category.value, events, ActiveKinds(azureEnabled));
      var answer := provisioner(target, lists);
      Create(k, Flight(target, category, lists), answer);
      events, s' := Ended(s, events, k, Flight(target, category, lists), answer);
    }

    /** The listings of syncTarget, kind by kind. */
    method ReadLists(ghost s: State, k: Key, target: Target, ghost category: Option<CategorySpec>, ghost before: seq<Event>, kinds: set<Kind>)
      returns (lists: map<Kind, Listing>, ghost events: seq<Event>)
      requires target.Provisions() && resources == s.resources && CanList(s, kinds)
      requires Leads(s, before, With(s, k, Flight(target, Some(category), map[])))
      ensures Leads(s, events, With(s, k, Flight(target, Some(category), lists))) && lists.Keys == kinds
    {
      lists, events := map[], before;
      var rest := kinds;
      while rest != {}
        invariant lists.Keys == kinds - rest && rest <= kinds
        invariant Leads(s, events, With(s, k, Flight(target, Some(category), lists)))
        decreases |rest|
      {
        var kind :| kind in rest;
        lists, events := ReadKind(s, k, target, category, lists, events, kinds, kind);
        OneMoreRead(kinds, rest, kind);
        rest := rest - {kind};
      }
    }

    method ReadKind(ghost s: State, k: Key, target: Target, ghost category: Option<CategorySpec>, read: map<Kind, Listing>,
                    ghost before: seq<Event>, ghost kinds: set<Kind>, kind: Kind)
      returns (lists: map<Kind, Listing>, ghost events: seq<Event>)
      requires target.Provisions() && resources == s.resources && CanList(s, kinds) && kind in kinds && kind !in read
      requires Leads(s, before, With(s, k, Flight(target, Some(category), read)))
      ensures lists == read[kind := Selected(resources, target, k.domain, kind)] && lists.Keys == read.Keys + {kind}
      ensures Leads(s, events, With(s, k, Flight(target, Some(category), lists)))
    {
      lists := read[kind := Selected(resources, target, k.domain, kind)];
      events := ListRead(s, before, k, Flight(target, Some(category), read), kinds, kind);
    }

    /** What the API server answers a live read in the state s. */
    ghost predicate Answers(s: State, k: Key, tenant: LiveRead<Tenant>, platform: LiveRead<string>) {
      match k
      case TenantKey(_, id, _) =>
        tenant.ReadFailed? || s.Live(id) == if tenant.Found? then Some(tenant.item) else None
      case PlatformKey(name, _) =>
        platform.ReadFailed? || (platform.Found? <==> name in s.platforms)
    }

    /**
     syncHandler, with what the API server answers and what the provisioner does as parameters. It asks
     for a retry only when a live read fails: the errors of syncTarget and of the cleanup are dropped.
     It goes through the events of a sync that nothing interrupts.
     */
    method SyncHandler(ghost s: State, k: Key, tenant: LiveRead<Tenant>, platform: LiveRead<string>,
                       provisioner: (Target, map<Kind, Listing>) -> Answer)
      returns (retry: bool, ghost events: seq<Event>, ghost s': State)
      requires Shows(s) && k in s.taken && Answers(s, k, tenant, platform)
      requires tenant.Found? && k.TenantKey? ==> tenant.item.id == k.tenant
      modifies this`stacks, this`failed
      ensures retry <==> (if k.TenantKey? then tenant.ReadFailed? else platform.ReadFailed?)
      ensures if retry then events == [LiveGetFails(k)] else |events| >= 2
      ensures forall other :: other != k ==> Lookup(stacks, other) == Lookup(old(stacks), other)
      ensures Leads(s, events, s')
      ensures s' == s.(taken := s.taken - {k}, delayed := if retry then s.delayed + {k} else s.delayed, stacks := stacks, failed := failed)
    {
      var target;
      if k.PlatformKey? {
        if platform.NotFound? {
          failed := failed - {k};
          events, s' := NothingToDo(s, k);
          return false, events, s';
        }
        if platform.ReadFailed? {
          events, s' := LiveReadFailed(s, k);
          return true, events, s';
        }
        target := ForPlatform(k.platform);
      } else {
        var shouldCleanup := tenant.NotFound? ||
          (tenant.Found? && (tenant.item.spec.platformRef != k.platform || !Contains(tenant.item.spec.domainRefs, k.domain)));
        if !shouldCleanup && tenant.ReadFailed? {
          events, s' := LiveReadFailed(s, k);
          return true, events, s';
        }
        target := if shouldCleanup then Cleanup else ForTenant(k.tenant, tenant.item.spec);
      }
      events, s' := SyncFound(s, k, target, provisioner);
      retry := false;
    }

    /** What syncHandler does once it knows the target. */
    method SyncFound(ghost s: State, k: Key, target: Target, provisioner: (Target, map<Kind, Listing>) -> Answer)
      returns (ghost events: seq<Event>, ghost s': State)
      requires Shows(s) && k in s.taken && target == s.TargetOf(k) && !target.NoPlatform?
      modifies this`stacks, this`failed
      ensures Leads(s, events, s') && |events| >= 2
      ensures s' == s.(taken := s.taken - {k}, stacks := stacks, failed := failed)
      ensures forall other :: other != k ==> Lookup(stacks, other) == Lookup(old(stacks), other)
    {
      ghost var s1 := s.(taken := s.taken - {k}, inFlight := s.inFlight[k := Flight(target, None, map[])]);
      assert s1.inFlight - {k} == s.inFlight;
      if target.Cleanup? {
        var answer := provisioner(Cleanup, map[]);
        Create(k, Flight(Cleanup, None, map[]), answer);
        assert s1.inFlight[k := Flight(Cleanup, None, map[])] == s1.inFlight;
        NoEvents(s1);
        events, s' := Ended(s1, [], k, Flight(Cleanup, None, map[]), answer);
      } else {
        events, s' := SyncTarget(s1, k, target, provisioner);
      }
      events := Begun(s, k, events, s');
    }

    /** The queue's Get, with something in line. */
    method Get(ghost s: State) returns (k: Key, ghost s': State)
      requires queue.Valid() && queue.order != [] && Shows(s)
      modifies this`queue
      ensures k in old(queue.dirty) && k !in old(queue.processing)
      ensures queue.Valid() && Shows(s') && k in queue.processing
      ensures Enabled(s, Take(k)) && s' == Next(s, Take(k))
    {
      k := queue.order[0];
      GetIsExclusive(queue);
      queue := queue.Get();
      s' := s.(dirty := s.dirty - {k}, taken := s.taken + {k});
      assert s'.Cached() == s.Cached();
    }

    /** processNextWorkItem with a nonempty queue, by a worker that nothing interrupts: from one state of a run to another. */
    method ProcessNextWorkItem(ghost s: State, tenants: TenantId -> LiveRead<Tenant>, platforms: string -> LiveRead<string>,
                               provisioner: (Target, map<Kind, Listing>) -> Answer)
      returns (k: Key, ghost events: seq<Event>, ghost s': State)
      requires queue.Valid() && queue.order != [] && Shows(s)
      requires forall id :: tenants(id).Found? ==> tenants(id).item.id == id
      requires forall key: Key :: Answers(s, key, if key.TenantKey? then tenants(key.tenant) else NotFound, platforms(key.platform))
      modifies this`queue, this`delayed, this`stacks, this`failed
      ensures k in old(queue.dirty) && k !in old(queue.processing)
      ensures queue.Valid() && Shows(s') && Leads(s, events, s')
      ensures |events| >= 2 && events[0] == Take(k) && (|events| == 2 ==> events[1] == LiveGetFails(k))
      ensures delayed == if |events| == 2 then old(delayed) + {k} else old(delayed)
      ensures forall other :: other != k ==> Lookup(stacks, other) == Lookup(old(stacks), other)
    {
      ghost var s1;
      k, s1 := Get(s);
      var tenant := if k.TenantKey? then tenants(k.tenant) else NotFound;
      events, s' := Work(s1, k, tenant, platforms(k.platform), provisioner);
      LeadsFromBefore(s, Take(k), events, s');
      events := [Take(k)] + events;
    }

    /** The sync of a key that the worker has got, and the end of its work on it. */
    method Work(ghost s: State, k: Key, tenant: LiveRead<Tenant>, platform: LiveRead<string>,
                provisioner: (Target, map<Kind, Listing>) -> Answer)
      returns (ghost events: seq<Event>, ghost s': State)
      requires queue.Valid() && Shows(s) && k in s.taken && Answers(s, k, tenant, platform)
      requires tenant.Found? && k.TenantKey? ==> tenant.item.id == k.tenant
      modifies this`queue, this`delayed, this`stacks, this`failed
      ensures queue.Valid() && Shows(s') && Leads(s, events, s')
      ensures |events| >= 1 && (|events| == 1 ==> events[0] == LiveGetFails(k))
      ensures delayed == if |events| == 1 then old(delayed) + {k} else old(delayed)
      ensures forall other :: other != k ==> Lookup(stacks, other) == Lookup(old(stacks), other)
    {
      var retry;
      retry, events, s' := SyncHandler(s, k, tenant, platform, provisioner);
      Done(s, k, retry, s');
    }

    /** AddRateLimited after an error, and the queue's Done. */
    method Done(ghost s: State, k: Key, retry: bool, ghost s': State)
      requires queue.Valid() && k in s.taken && queue.processing == s.taken + s.inFlight.Keys && s.taken !! s.inFlight.Keys
      requires s.dirty == queue.dirty && s.delayed == delayed && s.Cached() == Listed()
      requires s.azureEnabled == azureEnabled && s.categories == categories && s.resources == resources
      requires s' == s.(taken := s.taken - {k}, delayed := if retry then s.delayed + {k} else s.delayed, stacks := stacks, failed := failed)
      modifies this`queue, this`delayed
      ensures queue.Valid() && Shows(s') && delayed == if retry then old(delayed) + {k} else old(delayed)
    {
      if retry {
        delayed := delayed + {k};
      }
      DoneIsValid(queue, k);
      queue := queue.Done(k);
      assert s'.Cached() == s.Cached();
    }
  }

  predicate IsCategory(id: CategoryId, c: CategorySpec, platform: string, name: string) {
    id.name == name && c.platformRef == platform
  }

  /** The events are those of a run from one state to the other. */
  ghost predicate Leads(s: State, events: seq<Event>, s': State) {
    exists states :: IsRun(states, events) && states[0] == s && states[|events|] == s'
  }

  lemma NoEvents(s: State)
    ensures Leads(s, [], s)
  {
    assert IsRun([s], []);
  }

  lemma LeadsOneMore(s: State, events: seq<Event>, s': State, e: Event)
    requires Leads(s, events, s') && Enabled(s', e)
    ensures Leads(s, events + [e], Next(s', e))
  {
    var states :| IsRun(states, events) && states[0] == s && states[|events|] == s';
    var longer, more := states + [Next(s', e)], events + [e];
    forall i | 0 <= i < |more| ensures Enabled(longer[i], more[i]) && longer[i + 1] == Next(longer[i], more[i]) {
      if i < |events| {
        assert Enabled(states[i], events[i]) && states[i + 1] == Next(states[i], events[i]);
      }
    }
    assert IsRun(longer, more) && longer[0] == s && longer[|more|] == Next(s', e);
  }

  ghost predicate StepAt(states: seq<State>, events: seq<Event>, i: nat)
    requires i < |events| && |states| == |events| + 1
  {
    Enabled(states[i], events[i]) && states[i + 1] == Next(states[i], events[i])
  }

  /** A step comes one later in a run with another event before it. */
  lemma StepOneLater(s: State, e: Event, states: seq<State>, events: seq<Event>, i: nat)
    requires i < |events| && |states| == |events| + 1 && StepAt(states, events, i)
    ensures StepAt([s] + states, [e] + events, i + 1)
  {
    assert ([s] + states)[i + 1] == states[i] && ([s] + states)[i + 2] == states[i + 1];
    assert ([e] + events)[i + 1] == events[i];
  }

  lemma LeadsFromBefore(s: State, e: Event, events: seq<Event>, s': State)
    requires Enabled(s, e) && Leads(Next(s, e), events, s')
    ensures Leads(s, [e] + events, s')
  {
    var states :| IsRun(states, events) && states[0] == Next(s, e) && states[|events|] == s';
    var longer, more := [s] + states, [e] + events;
    forall i | 0 <= i < |more| ensures StepAt(longer, more, i) {
      if i > 0 {
        StepOneLater(s, e, states, events, i - 1);
      }
    }
    RunOfSteps(longer, more);
    assert longer[0] == s && longer[|more|] == s';
  }

  lemma RunOfSteps(states: seq<State>, events: seq<Event>)
    requires |states| == |events| + 1 && forall i :: 0 <= i < |events| ==> StepAt(states, events, i)
    ensures IsRun(states, events)
  {
    forall i | 0 <= i < |events| ensures Enabled(states[i], events[i]) && states[i + 1] == Next(states[i], events[i]) {
      assert StepAt(states, events, i);
    }
  }

  // ---------- The events of one sync ----------

  lemma Begun(s: State, k: Key, events: seq<Event>, s': State) returns (more: seq<Event>)
    requires k in s.taken && k !in s.inFlight
    requires Leads(s.(taken := s.taken - {k}, inFlight := s.inFlight[k := Flight(s.TargetOf(k), None, map[])]), events, s')
    ensures Leads(s, more, s') && more == [Begin(k)] + events
  {
    more := [Begin(k)] + events;
    LeadsFromBefore(s, Begin(k), events, s');
  }

  lemma LiveReadFailed(s: State, k: Key) returns (events: seq<Event>, s': State)
    requires k in s.taken && k !in s.inFlight
    ensures events == [LiveGetFails(k)] && Leads(s, events, s') && s' == s.(taken := s.taken - {k}, delayed := s.delayed + {k})
  {
    events, s' := [LiveGetFails(k)], Next(s, LiveGetFails(k));
    NoEvents(s);
    LeadsOneMore(s, [], s, LiveGetFails(k));
    assert [] + events == events;
  }

  lemma NothingToDo(s: State, k: Key) returns (events: seq<Event>, s': State)
    requires k in s.taken && k !in s.inFlight && s.TargetOf(k) == NoPlatform
    ensures events == [Begin(k), Finish(k)] && Leads(s, events, s')
    ensures s' == s.(taken := s.taken - {k}, failed := s.failed - {k})
  {
    var s1 := s.(taken := s.taken - {k}, inFlight := s.inFlight[k := Flight(NoPlatform, None, map[])]);
    assert s1.inFlight - {k} == s.inFlight;
    s' := Next(s1, Finish(k));
    NoEvents(s1);
    LeadsOneMore(s1, [], s1, Finish(k));
    assert [] + [Finish(k)] == [Finish(k)];
    events := Begun(s, k, [Finish(k)], s');
  }

  lemma OneMoreRead(kinds: set<Kind>, rest: set<Kind>, kind: Kind)
    requires kind in rest && rest <= kinds
    ensures kinds - (rest - {kind}) == (kinds - rest) + {kind} && |rest - {kind}| < |rest|
  {
  }

  /** What a listing of one kind comes to once selectItemsInTarget is through with it. */
  function Selected(resources: map<ResourceId, ResourceSpec>, target: Target, domain: string, kind: Kind): Listing {
    map id | id in resources && id.kind == kind && Selects(target, domain, resources[id].meta) :: resources[id]
  }

  predicate CanList(s: State, kinds: set<Kind>) {
    kinds <= ActiveKinds(s.azureEnabled)
  }

  /** s with the sync of k this far. */
  function With(s: State, k: Key, f: Flight): State {
    s.(inFlight := s.inFlight[k := f])
  }

  lemma CategoryRead(s: State, k: Key, c: Option<CategorySpec>) returns (events: seq<Event>, s': State)
    requires Enabled(s, ReadCategory(k, c))
    ensures Leads(s, events, s') && s' == With(s, k, s.inFlight[k].(category := Some(c)))
  {
    NoEvents(s);
    LeadsOneMore(s, [], s, ReadCategory(k, c));
    events, s' := [] + [ReadCategory(k, c)], Next(s, ReadCategory(k, c));
  }

  lemma ListRead(s: State, events: seq<Event>, k: Key, f: Flight, kinds: set<Kind>, kind: Kind) returns (more: seq<Event>)
    requires Leads(s, events, With(s, k, f)) && f.target.Provisions() && f.category.Some?
    requires CanList(s, kinds) && kind in kinds && kind !in f.lists
    ensures Leads(s, more, With(s, k, f.(lists := f.lists[kind := Selected(s.resources, f.target, k.domain, kind)])))
  {
    ListStep(s, k, f, kind);
    LeadsOneMore(s, events, With(s, k, f), ReadList(k, kind));
    more := events + [ReadList(k, kind)];
  }

  lemma ListStep(s: State, k: Key, f: Flight, kind: Kind)
    requires f.target.Provisions() && f.category.Some? && kind in ActiveKinds(s.azureEnabled) && kind !in f.lists
    ensures Enabled(With(s, k, f), ReadList(k, kind))
    ensures Next(With(s, k, f), ReadList(k, kind)) == With(s, k, f.(lists := f.lists[kind := Selected(s.resources, f.target, k.domain, kind)]))
  {
    var s1, listing := With(s, k, f), Selected(s.resources, f.target, k.domain, kind);
    SelectedIsListed(s1, f.target, k.domain, kind);
    ReadStep(s1, k, kind);
    PutTwice(s.inFlight, k, f, f.(lists := f.lists[kind := listing]));
  }

  lemma ReadStep(s: State, k: Key, kind: Kind)
    requires k in s.inFlight && s.inFlight[k].target.Provisions() && s.inFlight[k].category.Some?
    requires kind in ActiveKinds(s.azureEnabled) && kind !in s.inFlight[k].lists
    ensures Enabled(s, ReadList(k, kind))
    ensures var f := s.inFlight[k];
      Next(s, ReadList(k, kind)) == With(s, k, f.(lists := f.lists[kind := s.ListingOf(f.target, k.domain, kind)]))
  {
  }

  lemma PutTwice(m: map<Key, Flight>, k: Key, f: Flight, f': Flight)
    ensures m[k := f][k := f'] == m[k := f'] && m[k := f][k] == f
  {
  }

  lemma SelectedIsListed(s: State, target: Target, domain: string, kind: Kind)
    ensures s.ListingOf(target, domain, kind) == Selected(s.resources, target, domain, kind)
  {
  }

  /** A dangling category reference ends a sync before it touches the stack. */
  lemma Unresolved(s: State, k: Key) returns (events: seq<Event>, s': State)
    requires k in s.inFlight && !s.inFlight[k].target.NoPlatform?
    ensures Leads(s, events, s') && events != [] && s' == s.(inFlight := s.inFlight - {k}, failed := s.failed + {k})
  {
    var end := FailSync(k, Lookup(s.stacks, k));
    NoEvents(s);
    LeadsOneMore(s, [], s, end);
    events, s' := [] + [end], Next(s, end);
    assert Store(s.stacks, k, Lookup(s.stacks, k)) == s.stacks;
  }

  /** The end of a sync that provisions or cleans up. */
  lemma Ended(s: State, events: seq<Event>, k: Key, f: Flight, answer: Answer) returns (more: seq<Event>, s': State)
    requires Leads(s, events, With(s, k, f)) && !f.target.NoPlatform?
    requires f.target.Provisions() ==> f.category.Some? && f.lists.Keys == ActiveKinds(s.azureEnabled)
    ensures Leads(s, more, s') && more != []
    ensures s' == s.(inFlight := s.inFlight - {k}, stacks := StackAfter(s.stacks, k, f, answer), failed := FailedAfter(s.failed, k, answer))
  {
    var end := if answer.Succeeds? then Finish(k) else FailSync(k, answer.left);
    EndStep(s, k, f, answer);
    LeadsOneMore(s, events, With(s, k, f), end);
    more, s' := events + [end], Next(With(s, k, f), end);
  }

  lemma EndStep(s: State, k: Key, f: Flight, answer: Answer)
    requires !f.target.NoPlatform? && (f.target.Provisions() ==> f.category.Some? && f.lists.Keys == ActiveKinds(s.azureEnabled))
    ensures var end := if answer.Succeeds? then Finish(k) else FailSync(k, answer.left);
      && Enabled(With(s, k, f), end)
      && Next(With(s, k, f), end) ==
           s.(inFlight := s.inFlight - {k}, stacks := StackAfter(s.stacks, k, f, answer), failed := FailedAfter(s.failed, k, answer))
  {
    assert With(s, k, f).inFlight - {k} == s.inFlight - {k};
  }

  function StackAfter(stacks: map<Key, Built>, k: Key, f: Flight, answer: Answer): (r: map<Key, Built>)
    ensures forall other :: other != k ==> Lookup(r, other) == Lookup(stacks, other)
  {
    match answer
    case FailsWith(left) => Store(stacks, k, left)
    case Succeeds =>
      if f.target.Provisions() && f.category.Some? && !AllEmpty(f.lists) then stacks[k := Built(f.target, f.category.value, f.lists)]
      else stacks - {k}
  }

  function FailedAfter(failed: set<Key>, k: Key, answer: Answer): set<Key> {
    if answer.Succeeds? then failed - {k} else failed + {k}
  }
}
