/**
 Where the handlers of the provisioning controller do not follow a change: exactly when, and what it
 leaves behind.
 */
module ProvisioningGaps {
  import opened Common
  import opened Kinds
  import opened Provisioning
  import opened ProvisioningRuns

  /**
   A change of a tenant enqueues a key exactly when it adds, removes or alters the spec and one of the
   two versions wants the key without carrying the skip label.
   */
  lemma TenantChangeFollowedIff(before: Option<Tenant>, after: Option<Tenant>, k: Key)
    requires k.TenantKey? && Named(k)
    ensures k in TenantChangeKeys(before, after) <==>
      && (before.Some? && after.Some? ==> before.value.spec != after.value.spec)
      && (|| (before.Some? && Wants(before.value, k) && !before.value.skipProvisioning)
          || (after.Some? && Wants(after.value, k) && !after.value.skipProvisioning))
  {
    var unskipped := (t: Option<Tenant>) => t.Some? && Wants(t.value, k) && !t.value.skipProvisioning;
    assert unskipped(before) ==> k in TenantKeys(before.value);
    assert unskipped(after) ==> k in TenantKeys(after.value);
  }

  /**
   Taking the skip label off a tenant enqueues nothing: once delivered, a key that rested still rests,
   and is up to date exactly if it was before.
   */
  lemma UnskippingIsNotFollowed(s: State, k: Key)
    requires k.TenantKey? && |s.VersionsOf(k.tenant)| == 1 && s.Live(k.tenant).Some?
    requires s.Live(k.tenant).value.id == k.tenant && s.Live(k.tenant).value.skipProvisioning && Idle(s, k)
    ensures var write := WriteTenant(k.tenant, Some(s.Live(k.tenant).value.(skipProvisioning := false)));
      && Enabled(s, write) && Enabled(Next(s, write), DeliverTenant(k.tenant))
      && var s' := Next(Next(s, write), DeliverTenant(k.tenant));
         Idle(s', k) && !s'.Live(k.tenant).value.skipProvisioning && (UpToDate(s', k) <==> UpToDate(s, k))
  {
    var before := s.Live(k.tenant);
    var after := Some(before.value.(skipProvisioning := false));
    var write := WriteTenant(k.tenant, after);
    var s1 := Next(s, write);
    assert s1.VersionsOf(k.tenant) == [before, after];
    var s' := Next(s1, DeliverTenant(k.tenant));
    assert s'.VersionsOf(k.tenant) == [after];
    SameTargetSameView(s, s', k);
    SameViewSameStatus(s, s', k);
    assert s'.dirty == s.dirty + TenantChangeKeys(before, after) == s.dirty;
  }

  /** The informer holds the live version of the key's tenant, which wants the key and is not skipped. */
  ghost predicate Settled(s: State, k: Key) {
    && k.TenantKey? && |s.VersionsOf(k.tenant)| == 1
    && s.Live(k.tenant).Some? && s.Live(k.tenant).value.id == k.tenant
    && Wants(s.Live(k.tenant).value, k) && !s.Live(k.tenant).value.skipProvisioning
    && forall id | id in s.versions && id != k.tenant :: s.versions[id][0].Some? ==> s.versions[id][0].value.id == id
  }

  /** A selected resource enqueues its key exactly when the key's platform and domain are not empty. */
  lemma SelectedResourceFollowedIff(s: State, k: Key, res: ResourceSpec)
    requires Settled(s, k) && Selects(s.TargetOf(k), k.domain, res.meta)
    ensures k in ResourceKeys(s.Cached(), res) <==> Named(k)
  {
    assert s.VersionsOf(k.tenant)[0] == s.Live(k.tenant);
    assert s.Live(k.tenant).value in s.Cached();
  }

  /** An edit of the category a tenant references enqueues the tenant's key exactly when the category stays on the platform. */
  lemma CategoryEditFollowedIff(s: State, k: Key, id: CategoryId, after: CategorySpec)
    requires Settled(s, k) && id in s.categories && s.categories[id].platformRef == k.platform && s.categories[id] != after
    requires s.Live(k.tenant).value.spec.categoryRef == id.name && k !in s.dirty
    ensures k in Next(s, ChangeCategory(id, Some(after))).dirty <==> after.platformRef == k.platform
  {
    var live := s.Live(k.tenant);
    assert s.VersionsOf(k.tenant)[0] == live && live.value in s.Cached() && k in TenantKeys(live.value);
    if after.platformRef != k.platform {
      forall t | t in s.Cached() && t.spec.platformRef == after.platformRef ensures k !in TenantKeys(t) {
      }
    }
  }

  /**
   A category that moves to another platform leaves the stacks of its tenants behind: they rest, keep
   what the category contributed, and are not up to date, since the reference now dangles.
   */
  lemma MovedCategoryLeavesStacksBehind(s: State, k: Key, id: CategoryId, after: CategorySpec)
    requires Settled(s, k) && id in s.categories && s.categories[id].platformRef == k.platform != after.platformRef
    requires id.name != "" && s.Live(k.tenant).value.spec.categoryRef == id.name
    requires forall other | other in s.categories :: other != id ==>
      !(other.name == id.name && s.categories[other].platformRef == k.platform)
    requires Idle(s, k) && k in s.stacks && UpToDate(s, k)
    ensures var s' := Next(s, ChangeCategory(id, Some(after)));
      Idle(s', k) && k in s'.stacks && s'.stacks[k].category == Some(s.categories[id]) && !UpToDate(s', k)
  {
    var s', target := Next(s, ChangeCategory(id, Some(after))), s.TargetOf(k);
    CategoryEditFollowedIff(s, k, id, after);
    MovedCategoryDangles(s, s', target, id, s.stacks[k].category);
    SameListings(s, s', target, k.domain);
  }

  /** The only category that resolved a reference does so no more once it has left the platform. */
  lemma MovedCategoryDangles(s: State, s': State, target: Target, id: CategoryId, c: Option<CategorySpec>)
    requires target.ForTenant? && target.spec.categoryRef == id.name != "" && s.ResolvesTo(target, c) && id in s'.categories
    requires forall other | other in s.categories :: other != id ==>
      !(other.name == id.name && s.categories[other].platformRef == target.spec.platformRef)
    requires s'.categories == s.categories[id := s'.categories[id]] && s'.categories[id].platformRef != target.spec.platformRef
    ensures Lookup(s.categories, id) == c && !s'.ResolvesTo(target, c)
  {
  }

  /** After a platform is created a key of it still rests, and is up to date exactly if nothing selects it. */
  lemma NewPlatformFollowedIff(s: State, k: Key)
    requires k.PlatformKey? && k.platform !in s.platforms && Idle(s, k) && UpToDate(s, k)
    ensures var s' := Next(s, ChangePlatform(k.platform, true));
      Idle(s', k) && (UpToDate(s', k) <==> !s.SelectsAny(ForPlatform(k.platform), k.domain))
  {
    var s' := Next(s, ChangePlatform(k.platform, true));
    NothingSelectedNothingListed(s', s'.TargetOf(k), k.domain);
  }

  lemma StackOfAPlatform(s: State, k: Key)
    requires k.PlatformKey? && UpToDate(s, k)
    ensures k in s.stacks <==> k.platform in s.platforms && s.SelectsAny(ForPlatform(k.platform), k.domain)
  {
    NothingSelectedNothingListed(s, s.TargetOf(k), k.domain);
  }

  /** After a platform is deleted a key of it still rests, and is up to date exactly if nothing selected it: its stack is orphaned. */
  lemma DeletedPlatformFollowedIff(s: State, k: Key)
    requires k.PlatformKey? && k.platform in s.platforms && Idle(s, k) && UpToDate(s, k)
    ensures var s' := Next(s, ChangePlatform(k.platform, false));
      && Idle(s', k) && (UpToDate(s', k) <==> !s.SelectsAny(ForPlatform(k.platform), k.domain))
      && (k in s'.stacks <==> s.SelectsAny(ForPlatform(k.platform), k.domain))
  {
    StackOfAPlatform(s, k);
    assert Next(s, ChangePlatform(k.platform, false)).TargetOf(k) == NoPlatform;
  }

  /** Not even a later sync destroys the stack of a platform that is gone. */
  lemma OrphanedPlatformStackStays(s: State, k: Key)
    requires k.PlatformKey? && k.platform !in s.platforms && k in s.taken && k !in s.inFlight && k in s.stacks
    ensures Enabled(s, Begin(k)) && Enabled(Next(s, Begin(k)), Finish(k))
    ensures var s' := Next(Next(s, Begin(k)), Finish(k)); k in s'.stacks && s'.stacks[k] == s.stacks[k] && !UpToDate(s', k)
  {
  }

  /** A sync that fails is not retried, even though it leaves the key out of date; a failing live read is. */
  lemma OnlyLiveReadsAreRetried(s: State, k: Key, wreck: Option<Built>)
    ensures Enabled(s, FailSync(k, wreck)) && k !in s.dirty && k !in s.delayed && k !in s.taken && !Pending(s, k) ==>
      Idle(Next(s, FailSync(k, wreck)), k)
    ensures Enabled(s, LiveGetFails(k)) ==>
      && Enabled(Next(s, LiveGetFails(k)), Requeue(k))
      && Enabled(Next(Next(s, LiveGetFails(k)), Requeue(k)), Take(k))
      && Enabled(Next(Next(Next(s, LiveGetFails(k)), Requeue(k)), Take(k)), Begin(k))
  {
    if Enabled(s, FailSync(k, wreck)) {
      SyncKeepsTheView(s, FailSync(k, wreck), k);
    }
  }
}
