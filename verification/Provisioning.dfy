/**
 Tenants, tenant categories and provisioning resources, which resources a target selects,
 and which work keys a change of one of them enqueues.
 */
module Provisioning {
  import opened Common
  import opened Kinds

  datatype TenantId = TenantId(namespace: string, name: string)

  /** settings stands for every other field of the spec: id, enabled, configs, overrides, ... */
  datatype TenantSpec = TenantSpec(platformRef: string, domainRefs: seq<string>, categoryRef: string, settings: string)

  /** skipProvisioning: the skip-provisioning label is present with value "true". */
  datatype Tenant = Tenant(id: TenantId, spec: TenantSpec, skipProvisioning: bool)

  /** content stands for the category's description and provisioning overrides. */
  datatype CategorySpec = CategorySpec(platformRef: string, content: string)

  datatype CategoryId = CategoryId(namespace: string, name: string)

  datatype TargetCategory = TenantTargets | PlatformTargets | OtherTargets(name: string)

  datatype FilterKind = Blacklist | Whitelist | OtherFilter(name: string)

  datatype FilterBy = ByName | ByCategory | ByOther(name: string)

  datatype TargetFilter = TargetFilter(kind: FilterKind, matchBy: FilterBy, values: seq<string>)

  datatype Meta = Meta(platformRef: string, domainRef: string, category: TargetCategory, filter: TargetFilter)

  datatype ResourceId = ResourceId(kind: Kind, namespace: string, name: string)

  /** content stands for the resource's own spec. */
  datatype ResourceSpec = ResourceSpec(meta: Meta, content: string)

  /** A work key: one business domain of one tenant, or of the platform itself. */
  datatype Key =
    | TenantKey(platform: string, tenant: TenantId, domain: string)
    | PlatformKey(platform: string, domain: string)

  /** What syncHandler finds it has to do for a key. */
  datatype Target =
    | Cleanup
    | NoPlatform
    | ForTenant(id: TenantId, spec: TenantSpec)
    | ForPlatform(name: string)
  {
    predicate Provisions() {
      ForTenant? || ForPlatform?
    }
  }

  // ---------- Selection ----------

  predicate ExcludesTenant(filter: TargetFilter, tenantName: string, tenantCategory: string) {
    var matchValue := if filter.matchBy == ByCategory then tenantCategory else tenantName;
    var valueInList := Contains(filter.values, matchValue);
    (filter.kind == Blacklist && valueInList) || (filter.kind == Whitelist && !valueInList)
  }

  predicate Selects(target: Target, domain: string, meta: Meta) {
    match target
    case ForTenant(id, spec) =>
      && meta.category == TenantTargets
      && !ExcludesTenant(meta.filter, id.name, spec.categoryRef)
      && meta.platformRef == spec.platformRef && meta.domainRef == domain
    case ForPlatform(name) =>
      meta.category == PlatformTargets && meta.platformRef == name && meta.domainRef == domain
    case _ => false
  }

  /**
   The resource is meant for the tenant: its filter's list has what a whitelist asks for, and not what a
   blacklist forbids. That is the tenant's category if the filter goes by category, else the tenant's name.
   */
  predicate IsForTenant(meta: Meta, id: TenantId, spec: TenantSpec, domain: string) {
    && meta.category.TenantTargets? && meta.platformRef == spec.platformRef && meta.domainRef == domain
    && var value := if meta.filter.matchBy.ByCategory? then spec.categoryRef else id.name;
       match meta.filter.kind
       case Blacklist => value !in meta.filter.values
       case Whitelist => value in meta.filter.values
       case OtherFilter(_) => true
  }

  /** Filters are for tenants only. */
  predicate IsForPlatform(meta: Meta, name: string, domain: string) {
    meta.category.PlatformTargets? && meta.platformRef == name && meta.domainRef == domain
  }

  lemma SelectsIff(target: Target, domain: string, meta: Meta)
    ensures Selects(target, domain, meta) <==>
      || (target.ForTenant? && IsForTenant(meta, target.id, target.spec, domain))
      || (target.ForPlatform? && IsForPlatform(meta, target.name, domain))
  {
  }

  /** selectItemsInTarget over a listing: what is meant for the target, in order. */
  method SelectItemsInTarget(target: Target, domain: string, source: seq<ResourceSpec>) returns (result: seq<ResourceSpec>)
    requires target.Provisions()
    ensures result == Filter(source, (r: ResourceSpec) => Selects(target, domain, r.meta))
    ensures target.ForTenant? ==> forall r :: r in result <==> r in source && IsForTenant(r.meta, target.id, target.spec, domain)
    ensures target.ForPlatform? ==> forall r :: r in result <==> r in source && IsForPlatform(r.meta, target.name, domain)
  {
    ghost var p := (r: ResourceSpec) => Selects(target, domain, r.meta);
    result := SelectInOrder(target, domain, source, p);
    SelectedAreMeant(target, domain, source, p);
  }

  /** The loop of selectItemsInTarget. */
  method SelectInOrder(target: Target, domain: string, source: seq<ResourceSpec>, ghost p: ResourceSpec -> bool) returns (result: seq<ResourceSpec>)
    requires target.Provisions() && forall r :: p(r) <==> Selects(target, domain, r.meta)
    ensures result == Filter(source, p)
  {
    result := [];
    for i := 0 to |source|
      invariant result == Filter(source[..i], p)
    {
      FilterSnoc(source[..i], source[i], p);
      assert source[..i + 1] == source[..i] + [source[i]];
      var selected := IsSelected(target, domain, source[i].meta);
      if selected {
        result := result + [source[i]];
      }
    }
    assert source[..|source|] == source;
  }

  lemma SelectedAreMeant(target: Target, domain: string, source: seq<ResourceSpec>, p: ResourceSpec -> bool)
    requires target.Provisions() && forall r :: p(r) <==> Selects(target, domain, r.meta)
    ensures target.ForTenant? ==> forall r :: r in Filter(source, p) <==> r in source && IsForTenant(r.meta, target.id, target.spec, domain)
    ensures target.ForPlatform? ==> forall r :: r in Filter(source, p) <==> r in source && IsForPlatform(r.meta, target.name, domain)
  {
    forall r: ResourceSpec ensures Selects(target, domain, r.meta) <==>
      if target.ForTenant? then IsForTenant(r.meta, target.id, target.spec, domain) else IsForPlatform(r.meta, target.name, domain)
    {
      SelectsIff(target, domain, r.meta);
    }
  }

  /** The body of its loop. */
  method IsSelected(target: Target, domain: string, meta: Meta) returns (selected: bool)
    requires target.Provisions()
    ensures selected <==> Selects(target, domain, meta)
  {
    var platform := if target.ForTenant? then target.spec.platformRef else target.name;
    var targetCategory := if target.ForTenant? then TenantTargets else PlatformTargets;
    if meta.category == TenantTargets {
      var name := if target.ForTenant? then target.id.name else target.name;
      var tenantCategory := if target.ForTenant? then target.spec.categoryRef else "";
      if ExcludesTenant(meta.filter, name, tenantCategory) {
        return false;
      }
    }
    if targetCategory != meta.category {
      return false;
    }
    return meta.platformRef == platform && meta.domainRef == domain;
  }

  // ---------- What a change enqueues ----------

  /** The tenant wants key: it is on the key's platform and references the key's domain. */
  predicate Wants(tenant: Tenant, key: Key) {
    key.TenantKey? && key.tenant == tenant.id && key.platform == tenant.spec.platformRef &&
    Contains(tenant.spec.domainRefs, key.domain)
  }

  /** enqueueTenant. */
  function TenantKeys(tenant: Tenant): (keys: set<Key>)
    ensures forall k :: k in keys <==> Wants(tenant, k) && !tenant.skipProvisioning
  {
    if tenant.skipProvisioning then {}
    else set d | d in tenant.spec.domainRefs :: TenantKey(tenant.spec.platformRef, tenant.id, d)
  }

  /** The add, update and delete handlers of tenants: from one version of a tenant to the next. */
  function TenantChangeKeys(before: Option<Tenant>, after: Option<Tenant>): set<Key> {
    var platform := (t: Option<Tenant>) => if t.Some? then t.value.spec.platformRef else "";
    var specChanged := before.None? || after.None? || before.value.spec != after.value.spec;
    (if before.Some? && platform(before) != "" && specChanged then TenantKeys(before.value) else {}) +
    (if after.Some? && platform(after) != "" && specChanged then TenantKeys(after.value) else {})
  }

  /** enqueueDomain: tenants is the informer's listing. */
  function DomainKeys(tenants: set<Tenant>, platform: string, domain: string, category: TargetCategory): set<Key> {
    match category
    case TenantTargets =>
      set t | t in tenants && t.spec.platformRef == platform && !t.skipProvisioning && Contains(t.spec.domainRefs, domain)
        :: TenantKey(platform, t.id, domain)
    case PlatformTargets => {PlatformKey(platform, domain)}
    case OtherTargets(_) => {}
  }

  /** getResourceKeys succeeds. */
  predicate HasResourceKeys(meta: Meta) {
    meta.platformRef != "" && meta.domainRef != ""
  }

  function ResourceKeys(tenants: set<Tenant>, res: ResourceSpec): set<Key> {
    if HasResourceKeys(res.meta) then DomainKeys(tenants, res.meta.platformRef, res.meta.domainRef, res.meta.category) else {}
  }

  /** The add, update and delete handlers of provisioning resources. */
  function ResourceChangeKeys(tenants: set<Tenant>, before: Option<ResourceSpec>, after: Option<ResourceSpec>): set<Key> {
    var keysChanged := before.None? || after.None? ||
      before.value.meta.platformRef != after.value.meta.platformRef ||
      before.value.meta.domainRef != after.value.meta.domainRef ||
      before.value.meta.category != after.value.meta.category;
    (if before.Some? && keysChanged then ResourceKeys(tenants, before.value) else {}) +
    (if after.Some? then ResourceKeys(tenants, after.value) else {})
  }

  /**
   A tenant's key is enqueued by a change of a resource exactly when the tenant is listed without the skip
   label, is on the platform and has the domain that the resource names now, or named before it named others.
   */
  lemma ResourceChangeEnqueuesTenantIff(tenants: set<Tenant>, before: Option<ResourceSpec>, after: Option<ResourceSpec>, k: Key)
    requires k.TenantKey?
    ensures k in ResourceChangeKeys(tenants, before, after) <==>
      && k.platform != "" && k.domain != ""
      && (exists t :: t in tenants && t.id == k.tenant && !t.skipProvisioning &&
            t.spec.platformRef == k.platform && k.domain in t.spec.domainRefs)
      && (|| (after.Some? && after.value.meta.category.TenantTargets? &&
                after.value.meta.platformRef == k.platform && after.value.meta.domainRef == k.domain)
          || (before.Some? && before.value.meta.category.TenantTargets? &&
                before.value.meta.platformRef == k.platform && before.value.meta.domainRef == k.domain))
  {
    var named := (r: Option<ResourceSpec>) => r.Some? && k in ResourceKeys(tenants, r.value);
    if before.Some? { DomainKeysOfTenant(tenants, before.value.meta, k); }
    if after.Some? { DomainKeysOfTenant(tenants, after.value.meta, k); }
    assert k in ResourceChangeKeys(tenants, before, after) ==> named(before) || named(after);
  }

  lemma DomainKeysOfTenant(tenants: set<Tenant>, meta: Meta, k: Key)
    requires k.TenantKey?
    ensures k in DomainKeys(tenants, meta.platformRef, meta.domainRef, meta.category) <==>
      && meta.category.TenantTargets? && meta.platformRef == k.platform && meta.domainRef == k.domain
      && exists t :: t in tenants && t.id == k.tenant && !t.skipProvisioning && t.spec.platformRef == k.platform && k.domain in t.spec.domainRefs
  {
  }

  /** A platform's key is enqueued exactly when the resource is, or before it changed was, one of the platform for its domain. */
  lemma ResourceChangeEnqueuesPlatformIff(tenants: set<Tenant>, before: Option<ResourceSpec>, after: Option<ResourceSpec>, k: Key)
    requires k.PlatformKey?
    ensures k in ResourceChangeKeys(tenants, before, after) <==>
      && k.platform != "" && k.domain != ""
      && (|| (after.Some? && after.value.meta.category.PlatformTargets? &&
                after.value.meta.platformRef == k.platform && after.value.meta.domainRef == k.domain)
          || (before.Some? && before.value.meta.category.PlatformTargets? &&
                before.value.meta.platformRef == k.platform && before.value.meta.domainRef == k.domain))
  {
  }

  /** enqueueTenantsByCategory. */
  function CategoryKeys(tenants: set<Tenant>, platform: string, category: string): set<Key> {
    set t, k | t in tenants && t.spec.platformRef == platform && t.spec.categoryRef == category && k in TenantKeys(t) :: k
  }

  /** The add, update and delete handlers of tenant categories: an update follows the new platform only. */
  function CategoryChangeKeys(tenants: set<Tenant>, name: string, before: Option<CategorySpec>, after: Option<CategorySpec>): set<Key> {
    match (before, after)
    case (None, Some(a)) => CategoryKeys(tenants, a.platformRef, name)
    case (Some(b), None) => CategoryKeys(tenants, b.platformRef, name)
    case (Some(b), Some(a)) => if b != a then CategoryKeys(tenants, a.platformRef, name) else {}
    case _ => {}
  }

  /** A change of a category enqueues the keys of the listed tenants, skipped ones aside, that reference it on the platform it is on now, or was on when it went. */
  lemma CategoryChangeEnqueuesIff(tenants: set<Tenant>, name: string, before: Option<CategorySpec>, after: Option<CategorySpec>, k: Key)
    requires k.TenantKey?
    ensures k in CategoryChangeKeys(tenants, name, before, after) <==>
      && before != after
      && (exists t :: t in tenants && t.id == k.tenant && !t.skipProvisioning && t.spec.categoryRef == name &&
            t.spec.platformRef == k.platform && k.domain in t.spec.domainRefs)
      && k.platform == (if after.Some? then after.value.platformRef else before.value.platformRef)
  {
    if after.Some? { CategoryKeysAre(tenants, after.value.platformRef, name, k); }
    if before.Some? { CategoryKeysAre(tenants, before.value.platformRef, name, k); }
  }

  lemma CategoryKeysAre(tenants: set<Tenant>, platform: string, category: string, k: Key)
    requires k.TenantKey?
    ensures k in CategoryKeys(tenants, platform, category) <==>
      && k.platform == platform
      && (exists t :: t in tenants && t.id == k.tenant && !t.skipProvisioning && t.spec.categoryRef == category &&
            t.spec.platformRef == k.platform && k.domain in t.spec.domainRefs)
  {
    if k.platform == platform {
      forall t | t in tenants && t.id == k.tenant && !t.skipProvisioning && t.spec.platformRef == k.platform && k.domain in t.spec.domainRefs
        ensures k in TenantKeys(t)
      {
      }
    }
  }
}
