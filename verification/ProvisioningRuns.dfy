/**
 Runs of the provisioning controller.

 Tenants are written to the API server and reach the informer later, one version after the other,
 while syncHandler reads the server directly. Resources and categories are seen through the
 informers alone, so their events stand for the moment an informer delivers them. A sync is a
 sequence of separate reads (target, category, one listing per kind) with a write at its end, and
 any number of syncs of different keys may be under way: every event may fall between two reads.
 */
module ProvisioningRuns {
  import opened Common
  import opened Kinds
  import opened Provisioning

  type Listing = map<ResourceId, ResourceSpec>

  /** What a stack was last provisioned from. */
  datatype Built = Built(target: Target, category: Option<CategorySpec>, lists: map<Kind, Listing>)

  /** What the sync of a key has read so far. */
  datatype Flight = Flight(target: Target, category: Option<Option<CategorySpec>>, lists: map<Kind, Listing>)

  /** A nonempty history: the version the informer holds, then those it has yet to deliver. The last one is live. */
  type Versions = v: seq<Option<Tenant>> | |v| > 0 witness [None]

  datatype State = State(
    azureEnabled: bool,
    versions: map<TenantId, Versions>,
    platforms: set<string>,
    categories: map<CategoryId, CategorySpec>,
    resources: map<ResourceId, ResourceSpec>,
    dirty: set<Key>,
    delayed: set<Key>,
    taken: set<Key>,
    inFlight: map<Key, Flight>,
    stacks: map<Key, Built>,
    failed: set<Key>)
  {
    function VersionsOf(id: TenantId): Versions {
      if id in versions then versions[id] else [None]
    }

    function Live(id: TenantId): Option<Tenant> {
      var v := VersionsOf(id);
      v[|v| - 1]
    }

    /** The informer's listing of tenants. */
    function Cached(): set<Tenant> {
      set id | id in versions && versions[id][0].Some? :: versions[id][0].value
    }

    /** What a sync of k that starts now has to do. */
    function TargetOf(k: Key): Target {
      match k
      case TenantKey(_, id, _) =>
        var live := Live(id);
        if live.Some? && Wants(live.value, k) then ForTenant(id, live.value.spec) else Cleanup
      case PlatformKey(platform, _) =>
        if platform in platforms then ForPlatform(platform) else NoPlatform
    }

    /** findTenantCategory may return c for the target. No c at all is valid for a dangling reference. */
    predicate ResolvesTo(target: Target, c: Option<CategorySpec>) {
      if target.ForTenant? && target.spec.categoryRef != "" then
        c.Some? && c.value.platformRef == target.spec.platformRef &&
        exists id | id in categories :: id.name == target.spec.categoryRef && categories[id] == c.value
      else c.None?
    }

    function ListingOf(target: Target, domain: string, kind: Kind): Listing {
      map id | id in resources && id.kind == kind && Selects(target, domain, resources[id].meta) :: resources[id]
    }

    /** Every listing a sync takes. */
    function ListingsOf(target: Target, domain: string): map<Kind, Listing> {
      map kind | kind in ActiveKinds(azureEnabled) :: ListingOf(target, domain, kind)
    }

    /** Some resource of an active kind is selected. */
    predicate SelectsAny(target: Target, domain: string) {
      exists r | r in resources :: r.kind in ActiveKinds(azureEnabled) && Selects(target, domain, resources[r].meta)
    }
  }

  /** Take is the queue's Get; Begin and LiveGetFails are the live read that follows it. */
  datatype Event =
    | WriteTenant(id: TenantId, tenant: Option<Tenant>)
    | DeliverTenant(id: TenantId)
    | ChangeResource(resource: ResourceId, spec: Option<ResourceSpec>)
    | ChangeCategory(category: CategoryId, categorySpec: Option<CategorySpec>)
    | ChangePlatform(platform: string, present: bool)
    | Take(key: Key)
    | Begin(key: Key)
    | LiveGetFails(key: Key)
    | Requeue(key: Key)
    | ReadCategory(key: Key, found: Option<CategorySpec>)
    | ReadList(key: Key, kind: Kind)
    | Finish(key: Key)
    | FailSync(key: Key, wreck: Option<Built>)

  predicate AllEmpty(lists: map<Kind, Listing>) {
    forall kind | kind in lists :: lists[kind] == map[]
  }

  predicate Enabled(s: State, e: Event) {
    match e
    case WriteTenant(id, tenant) => tenant.Some? ==> tenant.value.id == id
    case DeliverTenant(id) => |s.VersionsOf(id)| > 1
    case ChangeResource(id, _) => id.kind in ActiveKinds(s.azureEnabled)
    case ChangeCategory(_, _) => true
    case ChangePlatform(_, _) => true
    case Take(k) => k in s.dirty && k !in s.taken && k !in s.inFlight
    case Begin(k) => k in s.taken && k !in s.inFlight
    case LiveGetFails(k) => k in s.taken && k !in s.inFlight
    case Requeue(k) => k in s.delayed
    case ReadCategory(k, c) =>
      k in s.inFlight && s.inFlight[k].category.None? && s.ResolvesTo(s.inFlight[k].target, c)
    case ReadList(k, kind) =>
      && k in s.inFlight && s.inFlight[k].target.Provisions() && s.inFlight[k].category.Some?
      && kind in ActiveKinds(s.azureEnabled) && kind !in s.inFlight[k].lists
    case Finish(k) =>
      && k in s.inFlight
      && (s.inFlight[k].target.Provisions() ==>
            s.inFlight[k].category.Some? && s.inFlight[k].lists.Keys == ActiveKinds(s.azureEnabled))
    case FailSync(k, _) => k in s.inFlight && !s.inFlight[k].target.NoPlatform?
  }

  function Next(s: State, e: Event): State
    requires Enabled(s, e)
  {
    match e
    case WriteTenant(id, tenant) => s.(versions := s.versions[id := s.VersionsOf(id) + [tenant]])
    case DeliverTenant(id) =>
      var v := s.VersionsOf(id);
      s.(versions := s.versions[id := v[1..]], dirty := s.dirty + TenantChangeKeys(v[0], v[1]))
    case ChangeResource(id, spec) =>
      s.(resources := Store(s.resources, id, spec),
         dirty := s.dirty + ResourceChangeKeys(s.Cached(), Lookup(s.resources, id), spec))
    case ChangeCategory(id, spec) =>
      s.(categories := Store(s.categories, id, spec),
         dirty := s.dirty + CategoryChangeKeys(s.Cached(), id.name, Lookup(s.categories, id), spec))
    case ChangePlatform(platform, present) =>
      s.(platforms := if present then s.platforms + {platform} else s.platforms - {platform})
    case Take(k) => s.(dirty := s.dirty - {k}, taken := s.taken + {k})
    case Begin(k) => s.(taken := s.taken - {k}, inFlight := s.inFlight[k := Flight(s.TargetOf(k), None, map[])])
    case LiveGetFails(k) => s.(taken := s.taken - {k}, delayed := s.delayed + {k})
    case Requeue(k) => s.(dirty := s.dirty + {k}, delayed := s.delayed - {k})
    case ReadCategory(k, c) => s.(inFlight := s.inFlight[k := s.inFlight[k].(category := Some(c))])
    case ReadList(k, kind) =>
      var f := s.inFlight[k];
      s.(inFlight := s.inFlight[k := f.(lists := f.lists[kind := s.ListingOf(f.target, k.domain, kind)])])
    case Finish(k) =>
      var f := s.inFlight[k];
      var built :=
        if f.target.NoPlatform? then s.stacks
        else if f.target.Provisions() && !AllEmpty(f.lists) then s.stacks[k := Built(f.target, f.category.value, f.lists)]
        else s.stacks - {k};
      s.(inFlight := s.inFlight - {k}, stacks := built, failed := s.failed - {k})
    case FailSync(k, wreck) =>
      // Neither a failed syncTarget nor a failed cleanup makes syncHandler return an error: no retry.
      s.(inFlight := s.inFlight - {k}, stacks := Store(s.stacks, k, wreck), failed := s.failed + {k})
  }

  // ---------- The invariant of one key ----------

  /** The key's stack is what provisioning the current tenants, categories and resources would make it. */
  ghost predicate UpToDate(s: State, k: Key) {
    var target, lists := s.TargetOf(k), s.ListingsOf(s.TargetOf(k), k.domain);
    if !target.Provisions() || AllEmpty(lists) then k !in s.stacks
    else
      && k in s.stacks && s.stacks[k].target == target
      && s.ResolvesTo(target, s.stacks[k].category)
      && s.stacks[k].lists == lists
  }

  /** Everything the sync has read so far still reads the same. */
  ghost predicate Fresh(s: State, k: Key, f: Flight) {
    var target := s.TargetOf(k);
    && f.target == target
    && (f.category.Some? ==> s.ResolvesTo(target, f.category.value))
    && Agrees(f.lists, s.ListingsOf(target, k.domain))
  }

  predicate Agrees(some: map<Kind, Listing>, all: map<Kind, Listing>) {
    forall kind | kind in some :: kind in all && some[kind] == all[kind]
  }

  /** The informer has yet to deliver a change of the tenant that will enqueue the key. */
  ghost predicate Pending(s: State, k: Key) {
    k.TenantKey? && SomeEnqueues(s.VersionsOf(k.tenant), k)
  }

  ghost predicate SomeEnqueues(v: seq<Option<Tenant>>, k: Key) {
    exists i :: 0 <= i < |v| - 1 && Enqueues(v[i], v[i + 1], k)
  }

  predicate Enqueues(before: Option<Tenant>, after: Option<Tenant>, k: Key) {
    k in TenantChangeKeys(before, after)
  }

  ghost predicate Covered(s: State, k: Key) {
    || k in s.dirty
    || k in s.delayed
    || k in s.taken
    || Pending(s, k)
    || (k in s.inFlight && Fresh(s, k, s.inFlight[k]))
    || (k in s.inFlight && s.inFlight[k].target.NoPlatform? && UpToDate(s, k))
    || (k !in s.inFlight && (k in s.failed || UpToDate(s, k)))
  }

  /** No version of the key's tenant that wants the key, delivered or not, carries the skip label. */
  ghost predicate Unskipped(s: State, k: Key) {
    k.TenantKey? ==>
      forall v | v in s.VersionsOf(k.tenant) :: v.Some? ==>
        v.value.id == k.tenant && (Wants(v.value, k) ==> !v.value.skipProvisioning)
  }

  /** A platform that is not there has no stack, and no sync of it makes one. */
  predicate NothingWithoutPlatform(s: State, k: Key) {
    k.PlatformKey? && k.platform !in s.platforms ==>
      k !in s.stacks && (k in s.inFlight ==> s.inFlight[k].target.NoPlatform?)
  }

  /** A tenant's versions carry its name. */
  ghost predicate TheirOwn(s: State) {
    forall id | id in s.versions :: forall v | v in s.versions[id] :: v.Some? ==> v.value.id == id
  }

  /** What holds whether or not the key is covered. */
  ghost predicate Sane(s: State, k: Key) {
    && TheirOwn(s)
    && Unskipped(s, k)
    && NothingWithoutPlatform(s, k)
  }

  ghost predicate Inv(s: State, k: Key) {
    Sane(s, k) && Covered(s, k)
  }

  /** A sync of the key is still to begin. */
  predicate Queued(s: State, k: Key) {
    k in s.dirty || k in s.delayed || k in s.taken
  }

  /** The changes that matter to the key and that no handler follows. */
  predicate Unfollowed(s: State, e: Event, k: Key) {
    match e
    case WriteTenant(id, tenant) =>
      k.TenantKey? && id == k.tenant && tenant.Some? && tenant.value.skipProvisioning && Wants(tenant.value, k)
    case ChangeCategory(id, spec) =>
      // The category that the key's tenant references moves away, and no sync is to come anyway.
      && !Queued(s, k) && s.TargetOf(k).ForTenant? && s.TargetOf(k).spec.categoryRef == id.name
      && id in s.categories && spec.Some?
      && s.categories[id].platformRef == k.platform && spec.value.platformRef != k.platform
    case ChangePlatform(platform, present) =>
      && k.PlatformKey? && platform == k.platform && present != (platform in s.platforms)
      && if present then !Queued(s, k) && s.SelectsAny(ForPlatform(platform), k.domain)
         else k in s.stacks || (k in s.inFlight && !s.inFlight[k].target.NoPlatform?)
    case _ => false
  }

  predicate Named(k: Key) {
    k.platform != "" && k.domain != ""
  }

  // ---------- Handlers follow every change a key depends on ----------

  /** What a key's sync reads is the same in both states. */
  ghost predicate SameView(s: State, s': State, k: Key) {
    var target := s.TargetOf(k);
    && s'.azureEnabled == s.azureEnabled
    && s'.TargetOf(k) == target
    && (forall c :: s'.ResolvesTo(target, c) <==> s.ResolvesTo(target, c))
    && s'.ListingsOf(target, k.domain) == s.ListingsOf(target, k.domain)
  }

  lemma SameListings(s: State, s': State, target: Target, domain: string)
    requires s'.azureEnabled == s.azureEnabled && s'.resources == s.resources
    ensures s'.ListingsOf(target, domain) == s.ListingsOf(target, domain)
  {
    forall kind ensures s'.ListingOf(target, domain, kind) == s.ListingOf(target, domain, kind) {
    }
  }

  lemma SameTargetSameView(s: State, s': State, k: Key)
    requires s'.azureEnabled == s.azureEnabled && s'.resources == s.resources && s'.categories == s.categories
    requires s'.TargetOf(k) == s.TargetOf(k)
    ensures SameView(s, s', k)
  {
    SameListings(s, s', s.TargetOf(k), k.domain);
  }

  lemma SameViewSameStatus(s: State, s': State, k: Key)
    requires SameView(s, s', k) && Lookup(s'.stacks, k) == Lookup(s.stacks, k)
    ensures UpToDate(s', k) <==> UpToDate(s, k)
  {
  }

  lemma SameVersionsKeepPending(s: State, s': State, k: Key)
    requires s'.versions == s.versions
    ensures Pending(s, k) <==> Pending(s', k)
  {
  }

  lemma SnocEnqueues(v: seq<Option<Tenant>>, last: Option<Tenant>, k: Key)
    requires v != [] && (SomeEnqueues(v, k) || Enqueues(v[|v| - 1], last, k))
    ensures SomeEnqueues(v + [last], k)
  {
    var v', n := v + [last], |v| - 1;
    if Enqueues(v[n], last, k) {
      assert v'[n] == v[n] && v'[n + 1] == last;
    } else {
      var i :| 0 <= i < n && Enqueues(v[i], v[i + 1], k);
      assert v'[i] == v[i] && v'[i + 1] == v[i + 1];
    }
  }

  lemma SameViewKeepsCovered(s: State, s': State, k: Key)
    requires Inv(s, k) && SameView(s, s', k)
    requires s.dirty <= s'.dirty && s.delayed <= s'.delayed && s.taken <= s'.taken
    requires s'.stacks == s.stacks && s'.inFlight == s.inFlight && s'.failed == s.failed
    requires Pending(s, k) ==> Pending(s', k) || k in s'.dirty
    ensures Covered(s', k)
  {
  }

  /**
   A key its live tenant wants, but whose informer does not hold the live spec yet, is enqueued by a
   version still to be delivered.
   */
  lemma {:induction false} StaleInformerIsPending(s: State, k: Key)
    requires k.TenantKey? && Named(k) && Unskipped(s, k)
    requires s.Live(k.tenant).Some? && Wants(s.Live(k.tenant).value, k)
    requires var first := s.VersionsOf(k.tenant)[0]; first.None? || first.value.spec != s.Live(k.tenant).value.spec
    ensures Pending(s, k)
  {
    var v := s.VersionsOf(k.tenant);
    var spec := s.Live(k.tenant).value.spec;
    var i := |v| - 1;
    while v[i - 1].Some? && v[i - 1].value.spec == spec
      invariant 0 < i < |v| && v[i].Some? && v[i].value.spec == spec
      decreases i
    {
      i := i - 1;
    }
    assert v[i] in v;
    assert k in TenantKeys(v[i].value);
    assert Enqueues(v[i - 1], v[i - 1 + 1], k);
  }

  // ---------- What holds of every key ----------

  lemma VersionsStaySane(s: State, e: Event, k: Key)
    requires TheirOwn(s) && Unskipped(s, k) && Enabled(s, e) && !Unfollowed(s, e, k)
    ensures TheirOwn(Next(s, e)) && Unskipped(Next(s, e), k)
  {
    if e.WriteTenant? || e.DeliverTenant? {
      var s', v := Next(s, e), s.VersionsOf(e.id);
      var v' := s'.VersionsOf(e.id);
      assert v' == if e.WriteTenant? then v + [e.tenant] else v[1..];
      assert forall id :: id != e.id ==> s'.VersionsOf(id) == s.VersionsOf(id);
    } else {
      OnlyTenantEventsAddVersions(s, e);
    }
  }

  lemma OnlyTenantEventsAddVersions(s: State, e: Event)
    requires Enabled(s, e) && !e.WriteTenant? && !e.DeliverTenant?
    ensures Next(s, e).versions == s.versions
  {
  }

  lemma PlatformsStaySane(s: State, e: Event, k: Key)
    requires NothingWithoutPlatform(s, k) && Enabled(s, e) && !Unfollowed(s, e, k)
    ensures NothingWithoutPlatform(Next(s, e), k)
  {
    if !IsSync(e) {
      OnlySyncsTouchStacks(s, e);
    } else if e.key == k {
      OwnSyncNeedsThePlatform(s, e, k);
    } else {
      SyncKeepsOtherKeys(s, e, k);
      SyncKeepsObjects(s, e);
      assert Lookup(Next(s, e).inFlight, k) == Lookup(s.inFlight, k) && Lookup(Next(s, e).stacks, k) == Lookup(s.stacks, k);
    }
  }

  lemma OnlySyncsTouchStacks(s: State, e: Event)
    requires Enabled(s, e) && !IsSync(e)
    ensures Next(s, e).stacks == s.stacks && Next(s, e).inFlight == s.inFlight
    ensures !e.ChangePlatform? ==> Next(s, e).platforms == s.platforms
  {
  }

  lemma OwnSyncNeedsThePlatform(s: State, e: Event, k: Key)
    requires NothingWithoutPlatform(s, k) && Enabled(s, e) && IsSync(e) && e.key == k
    ensures NothingWithoutPlatform(Next(s, e), k)
  {
  }

  lemma StepKeepsSane(s: State, e: Event, k: Key)
    requires Sane(s, k) && Enabled(s, e) && !Unfollowed(s, e, k)
    ensures Sane(Next(s, e), k)
  {
    VersionsStaySane(s, e, k);
    PlatformsStaySane(s, e, k);
  }

  // ---------- Tenants ----------

  lemma TenantWriteIsFollowed(s: State, e: Event, k: Key)
    requires Inv(s, k) && Named(k) && e.WriteTenant? && Enabled(s, e) && !Unfollowed(s, e, k)
    ensures Inv(Next(s, e), k)
  {
    StepKeepsSane(s, e, k);
    if k.TenantKey? && k.tenant == e.id {
      OwnTenantWriteIsFollowed(s, e, k);
    } else {
      OtherTenantWritten(s, e, k);
      SameTargetSameView(s, Next(s, e), k);
      SameViewKeepsCovered(s, Next(s, e), k);
    }
  }

  lemma OtherTenantWritten(s: State, e: Event, k: Key)
    requires e.WriteTenant? && Enabled(s, e) && !(k.TenantKey? && k.tenant == e.id)
    ensures Next(s, e).TargetOf(k) == s.TargetOf(k) && (Pending(Next(s, e), k) <==> Pending(s, k))
  {
    assert k.TenantKey? ==> Next(s, e).VersionsOf(k.tenant) == s.VersionsOf(k.tenant);
  }

  lemma OwnTenantWriteIsFollowed(s: State, e: Event, k: Key)
    requires Inv(s, k) && Named(k) && e.WriteTenant? && Enabled(s, e) && !Unfollowed(s, e, k)
    requires k.TenantKey? && k.tenant == e.id
    ensures Covered(Next(s, e), k)
  {
    var s', v := Next(s, e), s.VersionsOf(e.id);
    assert s'.VersionsOf(e.id) == v + [e.tenant];
    if SomeEnqueues(v, k) || s'.TargetOf(k) != s.TargetOf(k) {
      if !SomeEnqueues(v, k) {
        RetargetingEnqueues(s, e, k);
      }
      SnocEnqueues(v, e.tenant, k);
    } else {
      SameTargetSameView(s, s', k);
      SameViewKeepsCovered(s, s', k);
    }
  }

  /** A write that changes what has to be done for a key is one whose delivery enqueues it. */
  lemma RetargetingEnqueues(s: State, e: Event, k: Key)
    requires Inv(s, k) && Named(k) && e.WriteTenant? && Enabled(s, e) && !Unfollowed(s, e, k)
    requires k.TenantKey? && k.tenant == e.id && Next(s, e).TargetOf(k) != s.TargetOf(k)
    ensures Enqueues(s.Live(e.id), e.tenant, k)
  {
    var v := s.VersionsOf(e.id);
    var before := v[|v| - 1];
    assert before in v;
    assert Next(s, e).Live(e.id) == e.tenant;
    if before.Some? && Wants(before.value, k) {
      assert k in TenantKeys(before.value);
    } else {
      assert k in TenantKeys(e.tenant.value);
    }
  }

  lemma DeliveryTurnsPendingIntoDirty(s: State, id: TenantId, k: Key)
    requires Enabled(s, DeliverTenant(id)) && Pending(s, k)
    ensures var s' := Next(s, DeliverTenant(id)); Pending(s', k) || k in s'.dirty
  {
    var s' := Next(s, DeliverTenant(id));
    if k.tenant == id {
      var v, v' := s.VersionsOf(id), s'.VersionsOf(id);
      var i :| 0 <= i < |v| - 1 && Enqueues(v[i], v[i + 1], k);
      if i > 0 {
        assert v'[i - 1] == v[i] && v'[i] == v[i + 1];
        assert Enqueues(v'[i - 1], v'[i - 1 + 1], k);
      }
    } else {
      assert s'.VersionsOf(k.tenant) == s.VersionsOf(k.tenant);
    }
  }

  lemma DeliveryKeepsTheView(s: State, id: TenantId, k: Key)
    requires Enabled(s, DeliverTenant(id))
    ensures SameView(s, Next(s, DeliverTenant(id)), k)
  {
    DeliveryKeepsTheTarget(s, id, k);
    SameTargetSameView(s, Next(s, DeliverTenant(id)), k);
  }

  lemma DeliveryKeepsTheTarget(s: State, id: TenantId, k: Key)
    requires Enabled(s, DeliverTenant(id))
    ensures Next(s, DeliverTenant(id)).TargetOf(k) == s.TargetOf(k)
  {
    assert k.TenantKey? ==> Next(s, DeliverTenant(id)).Live(k.tenant) == s.Live(k.tenant);
  }

  lemma TenantDeliveryIsFollowed(s: State, id: TenantId, k: Key)
    requires Inv(s, k) && Enabled(s, DeliverTenant(id))
    ensures Inv(Next(s, DeliverTenant(id)), k)
  {
    var s' := Next(s, DeliverTenant(id));
    StepKeepsSane(s, DeliverTenant(id), k);
    DeliveryKeepsTheView(s, id, k);
    if Pending(s, k) {
      DeliveryTurnsPendingIntoDirty(s, id, k);
    }
    SameViewKeepsCovered(s, s', k);
  }

  /** A resource that a key selects enqueues the key when it changes. */
  lemma SelectedResourceIsFollowed(s: State, k: Key, res: ResourceSpec)
    requires Inv(s, k) && Named(k) && Selects(s.TargetOf(k), k.domain, res.meta)
    ensures k in ResourceKeys(s.Cached(), res) || Pending(s, k)
  {
    if k.TenantKey? {
      var first := s.VersionsOf(k.tenant)[0];
      if first.Some? && first.value.spec == s.Live(k.tenant).value.spec {
        assert first in s.VersionsOf(k.tenant);
        assert first.value in s.Cached();
      } else {
        StaleInformerIsPending(s, k);
      }
    }
  }

  lemma UnselectedChangeKeepsTheView(s: State, e: Event, k: Key)
    requires e.ChangeResource? && Enabled(s, e)
    requires forall r :: Lookup(s.resources, e.resource) == Some(r) || e.spec == Some(r) ==>
      !Selects(s.TargetOf(k), k.domain, r.meta)
    ensures SameView(s, Next(s, e), k)
  {
    UnselectedKeepsListings(s, Next(s, e), s.TargetOf(k), k.domain, e.resource, e.spec);
  }

  lemma UnselectedKeepsListings(s: State, s': State, target: Target, domain: string, id: ResourceId, spec: Option<ResourceSpec>)
    requires s'.resources == Store(s.resources, id, spec) && s'.azureEnabled == s.azureEnabled
    requires forall r :: Lookup(s.resources, id) == Some(r) || spec == Some(r) ==> !Selects(target, domain, r.meta)
    ensures s'.ListingsOf(target, domain) == s.ListingsOf(target, domain)
  {
    forall kind ensures s'.ListingOf(target, domain, kind) == s.ListingOf(target, domain, kind) {
      UnselectedStaysUnlisted(s, s', target, domain, kind, id);
    }
  }

  /** Storing or removing a resource the target does not select leaves every listing as it was. */
  lemma UnselectedStaysUnlisted(s: State, s': State, target: Target, domain: string, kind: Kind, id: ResourceId)
    requires forall other :: other != id ==> Lookup(s'.resources, other) == Lookup(s.resources, other)
    requires id in s.resources ==> !Selects(target, domain, s.resources[id].meta)
    requires id in s'.resources ==> !Selects(target, domain, s'.resources[id].meta)
    ensures s'.ListingOf(target, domain, kind) == s.ListingOf(target, domain, kind)
  {
    var l, l' := s.ListingOf(target, domain, kind), s'.ListingOf(target, domain, kind);
    forall r ensures Lookup(l', r) == Lookup(l, r) {
      assert r != id ==> Lookup(s'.resources, r) == Lookup(s.resources, r);
    }
    assert forall r :: r in l <==> Lookup(l, r).Some?;
    assert forall r :: r in l' <==> Lookup(l', r).Some?;
  }

  lemma ResourceChangeIsFollowed(s: State, e: Event, k: Key)
    requires Inv(s, k) && Named(k) && e.ChangeResource? && Enabled(s, e)
    ensures Inv(Next(s, e), k)
  {
    var s', target := Next(s, e), s.TargetOf(k);
    var before, after := Lookup(s.resources, e.resource), e.spec;
    StepKeepsSane(s, e, k);
    SameVersionsKeepPending(s, s', k);
    if after.Some? && Selects(target, k.domain, after.value.meta) {
      SelectedResourceIsFollowed(s, k, after.value);
    } else if before.Some? && Selects(target, k.domain, before.value.meta) {
      SelectedResourceIsFollowed(s, k, before.value);
    } else {
      UnselectedChangeKeepsTheView(s, e, k);
      SameViewKeepsCovered(s, s', k);
    }
  }

  /** A category that a key's tenant references enqueues the key when it changes. */
  lemma ReferencedCategoryIsFollowed(s: State, k: Key)
    requires Inv(s, k) && Named(k) && s.TargetOf(k).ForTenant?
    ensures k in CategoryKeys(s.Cached(), k.platform, s.TargetOf(k).spec.categoryRef) || Pending(s, k)
  {
    var first := s.VersionsOf(k.tenant)[0];
    if first.Some? && first.value.spec == s.Live(k.tenant).value.spec {
      assert first in s.VersionsOf(k.tenant);
      assert first.value in s.Cached() && k in TenantKeys(first.value);
    } else {
      StaleInformerIsPending(s, k);
    }
  }

  lemma UnreferencedChangeKeepsTheView(s: State, e: Event, k: Key)
    requires e.ChangeCategory? && Enabled(s, e)
    requires forall c :: Lookup(s.categories, e.category) == Some(c) || e.categorySpec == Some(c) ==>
      var target := s.TargetOf(k);
      !target.ForTenant? || target.spec.categoryRef != e.category.name || c.platformRef != k.platform
    ensures SameView(s, Next(s, e), k)
  {
    var s', target := Next(s, e), s.TargetOf(k);
    SameListings(s, s', target, k.domain);
    forall c ensures s'.ResolvesTo(target, c) <==> s.ResolvesTo(target, c) {
      assert Lookup(s.categories, e.category).Some? ==> Lookup(s.categories, e.category) == Some(s.categories[e.category]);
      assert e.categorySpec.Some? ==> e.categorySpec == Some(s'.categories[e.category]);
    }
  }

  lemma CategoryChangeIsFollowed(s: State, e: Event, k: Key)
    requires Inv(s, k) && Named(k) && e.ChangeCategory? && Enabled(s, e) && !Unfollowed(s, e, k)
    ensures Inv(Next(s, e), k)
  {
    var s', target := Next(s, e), s.TargetOf(k);
    var before, after := Lookup(s.categories, e.category), e.categorySpec;
    StepKeepsSane(s, e, k);
    SameVersionsKeepPending(s, s', k);
    if before == after {
      assert s'.categories == s.categories;
      SameTargetSameView(s, s', k);
      SameViewKeepsCovered(s, s', k);
    } else if target.ForTenant? && target.spec.categoryRef == e.category.name && (OnPlatform(before, k) || OnPlatform(after, k)) {
      ReferencedCategoryIsFollowed(s, k);
      ReferencedChangeEnqueues(s, e, k);
    } else {
      UnreferencedChangeKeepsTheView(s, e, k);
      SameViewKeepsCovered(s, s', k);
    }
  }

  predicate OnPlatform(c: Option<CategorySpec>, k: Key) {
    c.Some? && c.value.platformRef == k.platform
  }

  /** Unless it moves away, a category on the key's platform enqueues all whose tenants reference it there. */
  lemma ReferencedChangeEnqueues(s: State, e: Event, k: Key)
    requires e.ChangeCategory? && Enabled(s, e) && s.TargetOf(k).ForTenant? && s.TargetOf(k).spec.categoryRef == e.category.name
    requires Lookup(s.categories, e.category) != e.categorySpec && !Unfollowed(s, e, k)
    requires OnPlatform(Lookup(s.categories, e.category), k) || OnPlatform(e.categorySpec, k)
    ensures k in CategoryKeys(s.Cached(), k.platform, e.category.name) ==> k in Next(s, e).dirty || Queued(s, k)
  {
  }

  lemma PlatformChangeIsFollowed(s: State, e: Event, k: Key)
    requires Inv(s, k) && e.ChangePlatform? && !Unfollowed(s, e, k)
    ensures Inv(Next(s, e), k)
  {
    var s' := Next(s, e);
    SameVersionsKeepPending(s, s', k);
    StepKeepsSane(s, e, k);
    if s'.TargetOf(k) == s.TargetOf(k) {
      SameTargetSameView(s, s', k);
      SameViewKeepsCovered(s, s', k);
    } else if e.present {
      NewPlatformIsCovered(s, e, k);
    } else {
      LostPlatformIsCovered(s, e, k);
    }
  }

  /** Nothing is provisioned for the key, and nothing will be. */
  lemma LostPlatformIsCovered(s: State, e: Event, k: Key)
    requires e.ChangePlatform? && !Unfollowed(s, e, k) && !e.present && Next(s, e).TargetOf(k) != s.TargetOf(k)
    ensures Covered(Next(s, e), k)
  {
    assert Next(s, e).TargetOf(k) == NoPlatform && k !in s.stacks;
    assert UpToDate(Next(s, e), k);
  }

  lemma NewPlatformIsCovered(s: State, e: Event, k: Key)
    requires Inv(s, k) && e.ChangePlatform? && !Unfollowed(s, e, k) && e.present && Next(s, e).TargetOf(k) != s.TargetOf(k)
    ensures Covered(Next(s, e), k)
  {
    if !Queued(s, k) {
      NothingOnThePlatform(Next(s, e), k);
    }
  }

  lemma NothingOnThePlatform(s: State, k: Key)
    requires k.PlatformKey? && k !in s.stacks && !s.SelectsAny(ForPlatform(k.platform), k.domain)
    ensures UpToDate(s, k)
  {
    NothingSelectedNothingListed(s, ForPlatform(k.platform), k.domain);
  }

  lemma NothingSelectedNothingListed(s: State, target: Target, domain: string)
    ensures AllEmpty(s.ListingsOf(target, domain)) <==> !s.SelectsAny(target, domain)
  {
    if AllEmpty(s.ListingsOf(target, domain)) {
      forall r | r in s.resources && r.kind in ActiveKinds(s.azureEnabled) ensures !Selects(target, domain, s.resources[r].meta) {
        assert r.kind in s.ListingsOf(target, domain) && s.ListingOf(target, domain, r.kind) == map[];
        assert r !in s.ListingOf(target, domain, r.kind);
      }
    }
    if !s.SelectsAny(target, domain) {
      forall kind | kind in ActiveKinds(s.azureEnabled) ensures s.ListingOf(target, domain, kind) == map[] {
      }
    }
  }

  // ---------- Syncs ----------

  predicate IsSync(e: Event) {
    e.Take? || e.Begin? || e.LiveGetFails? || e.Requeue? || e.ReadCategory? || e.ReadList? || e.Finish? || e.FailSync?
  }

  /** A sync only reads what its events change. */
  lemma SyncKeepsTheView(s: State, e: Event, k: Key)
    requires IsSync(e) && Enabled(s, e)
    ensures SameView(s, Next(s, e), k)
    ensures Pending(s, k) <==> Pending(Next(s, e), k)
    ensures Next(s, e).versions == s.versions
  {
    SyncKeepsObjects(s, e);
    SameObjectsSameView(s, Next(s, e), k);
  }

  lemma SyncKeepsObjects(s: State, e: Event)
    requires IsSync(e) && Enabled(s, e)
    ensures SameObjects(s, Next(s, e))
  {
  }

  predicate SameObjects(s: State, s': State) {
    && s'.azureEnabled == s.azureEnabled && s'.versions == s.versions && s'.platforms == s.platforms
    && s'.categories == s.categories && s'.resources == s.resources
  }

  lemma SameObjectsSameView(s: State, s': State, k: Key)
    requires SameObjects(s, s')
    ensures SameView(s, s', k)
    ensures Pending(s, k) <==> Pending(s', k)
  {
    SameTargetSameView(s, s', k);
  }

  /** A sync of one key changes nothing that belongs to another. */
  lemma SyncKeepsOtherKeys(s: State, e: Event, k: Key)
    requires IsSync(e) && Enabled(s, e) && e.key != k
    ensures SameKeyState(s, Next(s, e), k)
  {
    if IsRead(e) {
      ReadKeepsOtherKeys(s, e, k);
    }
  }

  /** The event begins a sync or reads for it. */
  predicate IsRead(e: Event) {
    e.Begin? || e.ReadCategory? || e.ReadList?
  }

  lemma ReadKeepsOtherKeys(s: State, e: Event, k: Key)
    requires IsRead(e) && Enabled(s, e) && e.key != k
    ensures SameKeyState(s, Next(s, e), k)
  {
  }

  predicate SameKeyState(s: State, s': State, k: Key) {
    && (k in s'.dirty <==> k in s.dirty) && (k in s'.delayed <==> k in s.delayed) && (k in s'.taken <==> k in s.taken)
    && (k in s'.failed <==> k in s.failed)
    && Lookup(s'.inFlight, k) == Lookup(s.inFlight, k) && Lookup(s'.stacks, k) == Lookup(s.stacks, k)
  }

  lemma SameKeyStateKeepsCovered(s: State, s': State, k: Key)
    requires Covered(s, k) && SameView(s, s', k) && (Pending(s, k) ==> Pending(s', k))
    requires SameKeyState(s, s', k)
    ensures Covered(s', k)
  {
    SameViewSameStatus(s, s', k);
    if k in s.inFlight {
      assert Lookup(s'.inFlight, k) == Some(s.inFlight[k]);
    }
  }

  lemma OtherSyncIsHarmless(s: State, e: Event, k: Key)
    requires Inv(s, k) && IsSync(e) && Enabled(s, e) && e.key != k
    ensures Inv(Next(s, e), k)
  {
    var s' := Next(s, e);
    StepKeepsSane(s, e, k);
    SyncKeepsTheView(s, e, k);
    SyncKeepsOtherKeys(s, e, k);
    SameKeyStateKeepsCovered(s, s', k);
  }

  /** A read of a sync that is fresh leaves it fresh, and so does its first one. */
  lemma ReadsAreFresh(s: State, e: Event, k: Key)
    requires (e.Begin? || e.ReadCategory? || e.ReadList?) && Enabled(s, e) && e.key == k
    requires e.Begin? || Fresh(s, k, s.inFlight[k])
    ensures Fresh(s, k, Next(s, e).inFlight[k])
  {
  }

  lemma OwnSyncIsFollowed(s: State, e: Event, k: Key)
    requires Inv(s, k) && IsSync(e) && !e.Finish? && Enabled(s, e) && e.key == k
    ensures Inv(Next(s, e), k)
  {
    var s' := Next(s, e);
    StepKeepsSane(s, e, k);
    SyncKeepsTheView(s, e, k);
    if e.Begin? || ((e.ReadCategory? || e.ReadList?) && Fresh(s, k, s.inFlight[k])) {
      ReadsAreFresh(s, e, k);
      FreshInTheSameView(s, s', k, s'.inFlight[k]);
    }
  }

  lemma FreshInTheSameView(s: State, s': State, k: Key, f: Flight)
    requires SameView(s, s', k) && Fresh(s, k, f)
    ensures Fresh(s', k, f)
  {
  }

  lemma FullyRead(s: State, target: Target, domain: string, lists: map<Kind, Listing>)
    requires Agrees(lists, s.ListingsOf(target, domain)) && lists.Keys == ActiveKinds(s.azureEnabled)
    ensures lists == s.ListingsOf(target, domain)
  {
  }

  lemma FinishedSyncIsUpToDate(s: State, k: Key)
    requires Inv(s, k) && Enabled(s, Finish(k)) && Fresh(s, k, s.inFlight[k])
    ensures UpToDate(Next(s, Finish(k)), k)
  {
    var s', f := Next(s, Finish(k)), s.inFlight[k];
    var target := s.TargetOf(k);
    SyncKeepsTheView(s, Finish(k), k);
    if target.Provisions() {
      FullyRead(s, target, k.domain, f.lists);
    }
  }

  lemma FinishIsFollowed(s: State, k: Key)
    requires Inv(s, k) && Enabled(s, Finish(k))
    ensures Inv(Next(s, Finish(k)), k)
  {
    StepKeepsSane(s, Finish(k), k);
    SyncKeepsTheView(s, Finish(k), k);
    if Fresh(s, k, s.inFlight[k]) {
      FinishedSyncIsUpToDate(s, k);
    } else if s.inFlight[k].target.NoPlatform? && UpToDate(s, k) {
      FinishWithoutPlatform(s, k);
    } else {
      FinishKeepsQueued(s, k);
    }
  }

  lemma FinishKeepsQueued(s: State, k: Key)
    requires Enabled(s, Finish(k)) && (Queued(s, k) || Pending(s, k))
    ensures Covered(Next(s, Finish(k)), k)
  {
    SameVersionsKeepPending(s, Next(s, Finish(k)), k);
  }

  lemma FinishWithoutPlatform(s: State, k: Key)
    requires Enabled(s, Finish(k)) && s.inFlight[k].target.NoPlatform? && UpToDate(s, k)
    ensures UpToDate(Next(s, Finish(k)), k)
  {
    SyncKeepsTheView(s, Finish(k), k);
    SameViewSameStatus(s, Next(s, Finish(k)), k);
  }

  // ---------- Runs ----------

  /** Every event the handlers follow keeps a key's invariant, wherever it falls. */
  lemma StepKeepsInv(s: State, e: Event, k: Key)
    requires Inv(s, k) && Named(k) && Enabled(s, e) && !Unfollowed(s, e, k)
    ensures Inv(Next(s, e), k)
  {
    match e
    case WriteTenant(_, _) => TenantWriteIsFollowed(s, e, k);
    case DeliverTenant(id) => TenantDeliveryIsFollowed(s, id, k);
    case ChangeResource(_, _) => ResourceChangeIsFollowed(s, e, k);
    case ChangeCategory(_, _) => CategoryChangeIsFollowed(s, e, k);
    case ChangePlatform(_, _) => PlatformChangeIsFollowed(s, e, k);
    case _ =>
      if e.key != k {
        OtherSyncIsHarmless(s, e, k);
      } else if e.Finish? {
        FinishIsFollowed(s, k);
      } else {
        OwnSyncIsFollowed(s, e, k);
      }
  }

  ghost predicate IsRun(states: seq<State>, events: seq<Event>) {
    && |states| == |events| + 1
    && forall i :: 0 <= i < |events| ==> Enabled(states[i], events[i]) && states[i + 1] == Next(states[i], events[i])
  }

  ghost predicate FollowedThroughout(states: seq<State>, events: seq<Event>, k: Key)
    requires |states| == |events| + 1
  {
    forall i :: 0 <= i < |events| ==> !Unfollowed(states[i], events[i], k)
  }

  lemma {:induction false} RunKeepsInv(states: seq<State>, events: seq<Event>, k: Key)
    requires IsRun(states, events) && Named(k) && Inv(states[0], k) && FollowedThroughout(states, events, k)
    ensures Inv(states[|events|], k)
  {
    if events != [] {
      var n := |events| - 1;
      assert IsRun(states[..n + 1], events[..n]);
      RunKeepsInv(states[..n + 1], events[..n], k);
      StepKeepsInv(states[n], events[n], k);
    }
  }

  /** Nothing is queued, waiting for a retry, under way or still to be delivered for the key. */
  ghost predicate Idle(s: State, k: Key) {
    k !in s.dirty && k !in s.delayed && k !in s.taken && k !in s.inFlight && !Pending(s, k)
  }

  /**
   Convergence: whatever the interleaving, a key that has come to rest has the stack that the current
   objects call for, unless its last sync failed.
   */
  lemma RestingKeysAreUpToDate(states: seq<State>, events: seq<Event>, k: Key)
    requires IsRun(states, events) && Named(k) && Inv(states[0], k) && FollowedThroughout(states, events, k)
    requires Idle(states[|events|], k)
    ensures k in states[|events|].failed || UpToDate(states[|events|], k)
  {
    RunKeepsInv(states, events, k);
  }

  /** A cold start: the informers have delivered nothing and nothing is queued. There may be any stacks. */
  ghost predicate Start(s: State) {
    && s.dirty == {} && s.delayed == {} && s.taken == {} && s.failed == {} && s.inFlight == map[]
    && s.categories == map[] && s.resources == map[]
    && (forall id | id in s.versions :: s.versions[id][0].None? &&
          forall v | v in s.versions[id] :: v.Some? ==> v.value.id == id)
  }

  /** A cold start satisfies a key's invariant exactly when the key has no stack or a tenant version to be delivered enqueues it. */
  lemma StartIsCoveredIff(s: State, k: Key)
    requires Start(s) && Named(k) && Unskipped(s, k)
    ensures Inv(s, k) <==> (k in s.stacks ==> Pending(s, k))
  {
    NothingSelectedNothingListed(s, s.TargetOf(k), k.domain);
  }

  /** A stack its live tenant still wants is enqueued by the first deliveries. */
  lemma WantedStacksArePending(s: State, k: Key)
    requires Start(s) && Named(k) && Unskipped(s, k)
    requires k.TenantKey? && s.Live(k.tenant).Some? && Wants(s.Live(k.tenant).value, k)
    ensures Pending(s, k)
  {
    StaleInformerIsPending(s, k);
  }

  /** The resource is meant for whom the key names, as things are. */
  predicate IsMeantFor(s: State, k: Key, r: ResourceId) {
    && r in s.resources && r.kind in ActiveKinds(s.azureEnabled)
    && var meta := s.resources[r].meta;
       match k
       case TenantKey(_, id, domain) => s.Live(id).Some? && IsForTenant(meta, id, s.Live(id).value.spec, domain)
       case PlatformKey(platform, domain) => IsForPlatform(meta, platform, domain)
  }

  /** Why a key should have a stack. */
  ghost predicate CalledFor(s: State, k: Key) {
    && (exists r :: IsMeantFor(s, k, r))
    && match k
       case TenantKey(platform, id, domain) =>
         s.Live(id).Some? && s.Live(id).value.spec.platformRef == platform && domain in s.Live(id).value.spec.domainRefs
       case PlatformKey(platform, _) => platform in s.platforms
  }

  /** Nothing is queued or under way for the key. */
  predicate Untouched(s: State, k: Key) {
    !Queued(s, k) && k !in s.inFlight
  }

  /** A step leaves an untouched key alone, or enqueues it; from then on it is covered. */
  lemma StepTouchesOrNot(s: State, e: Event, k: Key)
    requires Sane(s, k) && Untouched(s, k) && Enabled(s, e) && !Unfollowed(s, e, k)
    ensures var s' := Next(s, e);
      && Sane(s', k) && Lookup(s'.stacks, k) == Lookup(s.stacks, k)
      && if k in s'.dirty then Inv(s', k) else Untouched(s', k)
  {
    StepKeepsSane(s, e, k);
    if IsSync(e) {
      SyncKeepsOtherKeys(s, e, k);
      assert Lookup(Next(s, e).inFlight, k) == Lookup(s.inFlight, k);
    }
  }

  ghost predicate EverQueued(states: seq<State>, k: Key) {
    exists i :: 0 <= i < |states| && k in states[i].dirty
  }

  lemma QueuedBeforeOrNow(states: seq<State>, k: Key)
    requires |states| > 1
    ensures var n := |states| - 1; EverQueued(states, k) <==> EverQueued(states[..n], k) || k in states[n].dirty
  {
    var n := |states| - 1;
    if i :| 0 <= i < n && k in states[..n][i].dirty {
      assert states[i] == states[..n][i];
    }
    if i :| 0 <= i < n && k in states[i].dirty {
      assert states[i] == states[..n][i];
    }
  }

  /** From a cold start a key is covered as soon as it has been enqueued. */
  lemma {:induction false} CoveredOrUntouched(states: seq<State>, events: seq<Event>, k: Key)
    requires IsRun(states, events) && Named(k) && FollowedThroughout(states, events, k)
    requires Start(states[0]) && Unskipped(states[0], k) && NothingWithoutPlatform(states[0], k)
    ensures CoveredSince(states, k)
  {
    if events == [] {
      StartIsUntouched(states, k);
    } else {
      var n := |events| - 1;
      assert IsRun(states[..n + 1], events[..n]);
      CoveredOrUntouched(states[..n + 1], events[..n], k);
      StaysCoveredOrUntouched(states, events[n], k);
    }
  }

  /** The key's invariant holds at the end, or nothing has happened to the key yet. */
  ghost predicate CoveredSince(states: seq<State>, k: Key)
    requires states != []
  {
    var s := states[|states| - 1];
    Inv(s, k) || (!EverQueued(states, k) && Sane(s, k) && Untouched(s, k))
  }

  lemma StartIsUntouched(states: seq<State>, k: Key)
    requires |states| == 1 && Start(states[0]) && Unskipped(states[0], k) && NothingWithoutPlatform(states[0], k)
    ensures CoveredSince(states, k)
  {
  }

  lemma StaysCoveredOrUntouched(states: seq<State>, e: Event, k: Key)
    requires |states| > 1 && Named(k) && CoveredSince(states[..|states| - 1], k)
    requires var s := states[|states| - 2]; Enabled(s, e) && !Unfollowed(s, e, k) && states[|states| - 1] == Next(s, e)
    ensures CoveredSince(states, k)
  {
    var s := states[|states| - 2];
    if Inv(s, k) {
      StepKeepsInv(s, e, k);
    } else {
      StepTouchesOrNot(s, e, k);
      QueuedBeforeOrNow(states, k);
    }
  }

  /**
   The stacks of a run's last state, whatever stacks there were at the cold start: a resting key that had
   none, or was enqueued since, has one exactly if it is called for. One that was never enqueued still has
   the stack it had.
   */
  lemma NoOrphansAndNoneMissing(states: seq<State>, events: seq<Event>, k: Key)
    requires IsRun(states, events) && Named(k) && FollowedThroughout(states, events, k)
    requires Start(states[0]) && Unskipped(states[0], k) && NothingWithoutPlatform(states[0], k)
    requires Idle(states[|events|], k) && k !in states[|events|].failed
    ensures var s := states[|events|];
      if k !in states[0].stacks || EverQueued(states, k) then UpToDate(s, k) && (k in s.stacks <==> CalledFor(s, k))
      else Lookup(s.stacks, k) == Lookup(states[0].stacks, k)
  {
    var s := states[|events|];
    CoveredOrUntouched(states, events, k);
    if k !in states[0].stacks {
      StartIsCoveredIff(states[0], k);
      RunKeepsInv(states, events, k);
    }
    if Inv(s, k) {
      UpToDateIsCalledFor(s, k);
    }
    if !EverQueued(states, k) {
      NeverQueuedKeepsStack(states, events, k);
    }
  }

  lemma SelectedIsMeant(s: State, k: Key, r: ResourceId)
    requires s.TargetOf(k).Provisions() && r in s.resources && r.kind in ActiveKinds(s.azureEnabled)
    ensures Selects(s.TargetOf(k), k.domain, s.resources[r].meta) <==> IsMeantFor(s, k, r)
  {
    SelectsIff(s.TargetOf(k), k.domain, s.resources[r].meta);
  }

  lemma UpToDateIsCalledFor(s: State, k: Key)
    requires Sane(s, k) && UpToDate(s, k)
    ensures k in s.stacks <==> CalledFor(s, k)
  {
    NothingSelectedNothingListed(s, s.TargetOf(k), k.domain);
    assert k.TenantKey? && s.Live(k.tenant).Some? ==> s.Live(k.tenant) in s.VersionsOf(k.tenant);
    if s.TargetOf(k).Provisions() {
      forall r | r in s.resources && r.kind in ActiveKinds(s.azureEnabled)
        ensures Selects(s.TargetOf(k), k.domain, s.resources[r].meta) <==> IsMeantFor(s, k, r)
      {
        SelectedIsMeant(s, k, r);
      }
    }
  }

  /** The key has a stack that was last provisioned with the resource as it is now. */
  predicate Holds(s: State, k: Key, r: ResourceId) {
    && k in s.stacks && r in s.resources
    && var lists := s.stacks[k].lists; r.kind in lists && r in lists[r.kind] && lists[r.kind][r] == s.resources[r]
  }

  /** A stack that is up to date holds exactly what is meant for its key, and nothing else was provisioned with it. */
  lemma UpToDateStackHolds(s: State, k: Key, r: ResourceId)
    requires UpToDate(s, k) && k in s.stacks
    ensures Holds(s, k, r) <==> IsMeantFor(s, k, r)
    ensures forall kind :: kind in s.stacks[k].lists && r in s.stacks[k].lists[kind] ==> kind == r.kind && Holds(s, k, r)
  {
    ListedIff(s, s.TargetOf(k), k.domain, r);
    if r in s.resources && r.kind in ActiveKinds(s.azureEnabled) {
      SelectedIsMeant(s, k, r);
    }
  }

  lemma ListedIff(s: State, target: Target, domain: string, r: ResourceId)
    ensures var lists := s.ListingsOf(target, domain);
      && (r.kind in lists && r in lists[r.kind] <==>
            r in s.resources && r.kind in ActiveKinds(s.azureEnabled) && Selects(target, domain, s.resources[r].meta))
      && (r.kind in lists && r in lists[r.kind] ==> lists[r.kind][r] == s.resources[r])
  {
  }

  /** Convergence in terms of filters: a resting key's stack holds a resource exactly if the key is called for and the resource meant for it. */
  lemma RestingStacksHoldWhatIsMeant(states: seq<State>, events: seq<Event>, k: Key, r: ResourceId)
    requires IsRun(states, events) && Named(k) && Inv(states[0], k) && FollowedThroughout(states, events, k)
    requires Idle(states[|events|], k) && k !in states[|events|].failed
    ensures var s := states[|events|]; Holds(s, k, r) <==> CalledFor(s, k) && IsMeantFor(s, k, r)
  {
    var s := states[|events|];
    RunKeepsInv(states, events, k);
    UpToDateIsCalledFor(s, k);
    if k in s.stacks {
      UpToDateStackHolds(s, k, r);
    }
  }

  lemma {:induction false} NeverQueuedKeepsStack(states: seq<State>, events: seq<Event>, k: Key)
    requires IsRun(states, events) && FollowedThroughout(states, events, k) && !EverQueued(states, k)
    requires Sane(states[0], k) && Untouched(states[0], k)
    ensures var s := states[|events|];
      Sane(s, k) && Untouched(s, k) && Lookup(s.stacks, k) == Lookup(states[0].stacks, k)
  {
    if events != [] {
      var n := |events| - 1;
      assert IsRun(states[..n + 1], events[..n]);
      QueuedBeforeOrNow(states, k);
      NeverQueuedKeepsStack(states[..n + 1], events[..n], k);
      StepTouchesOrNot(states[n], events[n], k);
    }
  }
}
