/**
 Which config maps a configuration domain aggregates, and which domains the handlers enqueue when a
 config map changes: two hand-written inverses of each other.
 */
module ConfigurationDomains {
  import opened Common

  const GLOBAL := "global"

  /** Names a namespaced object, or the domain with this namespace and name. */
  datatype ObjectId = ObjectId(namespace: string, name: string)

  datatype DomainSpec = DomainSpec(uid: string, platformRef: string, aggregateConfigMaps: bool, aggregateSecrets: bool)

  datatype Owner = NoOwner | OwnedByDomain(domain: ObjectId, uid: string) | OwnedByOther

  datatype ConfigMap = ConfigMap(id: ObjectId, platformLabel: Option<string>, domainLabel: Option<string>,
                                 data: map<string, string>, owner: Owner)

  // ---------- Labels ----------

  predicate DotFree(s: string) {
    '.' !in s
  }

  /** strings.Cut at the first dot. */
  function Cut(s: string): (string, string) {
    if s == [] then ("", "")
    else if s[0] == '.' then ("", s[1..])
    else
      var rest := Cut(s[1..]);
      ([s[0]] + rest.0, rest.1)
  }

  lemma {:induction false} CutJoined(domain: string, rest: string)
    requires DotFree(domain)
    ensures Cut(domain) == (domain, "")
    ensures Cut(domain + "." + rest) == (domain, rest)
  {
    if domain == [] {
      assert domain + "." + rest == "." + rest;
      assert ("." + rest)[1..] == rest;
    } else {
      assert [domain[0]] + domain[1..] == domain;
      assert (domain + "." + rest)[1..] == domain[1..] + "." + rest;
      CutJoined(domain[1..], rest);
    }
  }

  lemma {:induction false} CutParts(s: string)
    ensures DotFree(Cut(s).0)
    ensures if DotFree(s) then Cut(s) == (s, "") else s == Cut(s).0 + "." + Cut(s).1
  {
    if s != [] && s[0] != '.' {
      CutParts(s[1..]);
      assert s == [s[0]] + s[1..];
    } else if s != [] {
      assert s == "" + "." + s[1..];
    }
  }

  /** Where a label sends a config map, and whether it says enough. */
  datatype Route = Route(platform: string, namespace: string, domain: string, ok: bool)

  /** GetPlatformNsAndDomain. */
  function RouteOf(c: ConfigMap): Route {
    if c.domainLabel.None? || c.domainLabel.value == "" then Route("", c.id.namespace, "", false)
    else if c.platformLabel.None? || c.platformLabel.value == "" then Route("", c.id.namespace, c.domainLabel.value, false)
    else
      var (domain, namespace) := Cut(c.domainLabel.value);
      Route(c.platformLabel.value, if namespace == "" then c.id.namespace else namespace, domain, true)
  }

  // ---------- What a domain aggregates ----------

  function OutputName(domain: string): string {
    domain + "-aggregate"
  }

  function OutputId(k: ObjectId): ObjectId {
    ObjectId(k.namespace, OutputName(k.name))
  }

  lemma OutputIdsAreDistinct(a: ObjectId, b: ObjectId)
    ensures OutputId(a) == OutputId(b) <==> a == b
  {
    if OutputId(a) == OutputId(b) {
      assert OutputName(a.name)[..|a.name|] == a.name;
      assert OutputName(b.name)[..|b.name|] == b.name;
      assert |a.name| == |b.name|;
    }
  }

  /** A lister asked for the empty namespace lists them all. */
  predicate ListedIn(namespace: string, id: ObjectId) {
    namespace == "" || id.namespace == namespace
  }

  /** The four listings of getConfigMapsFor, in the order they are merged. */
  predicate InGroup(group: int, c: ConfigMap, platform: string, targetNamespace: string, k: ObjectId) {
    && c.platformLabel == Some(platform)
    && match group
       case 0 => ListedIn(targetNamespace, c.id) && c.domainLabel == Some(GLOBAL)
       case 1 => ListedIn(k.namespace, c.id) && c.domainLabel == Some(GLOBAL)
       case 2 => ListedIn(k.namespace, c.id) && c.domainLabel == Some(k.name)
       case 3 => c.domainLabel == Some(k.name + "." + k.namespace)
       case _ => false
  }

  const GROUPS := 4

  predicate Selected(c: ConfigMap, platform: string, targetNamespace: string, k: ObjectId) {
    exists group | 0 <= group < GROUPS :: InGroup(group, c, platform, targetNamespace, k)
  }

  /** The aggregation passes over anything called like its output. */
  predicate IsInput(c: ConfigMap, platform: string, targetNamespace: string, k: ObjectId) {
    Selected(c, platform, targetNamespace, k) && c.id.name != OutputName(k.name)
  }

  // ---------- What a change enqueues ----------

  /** handleKubeResource. */
  function HandledKeys(platforms: map<string, string>, domains: map<ObjectId, DomainSpec>, route: Route): set<ObjectId> {
    if route.platform !in platforms then {}
    else if route.namespace == platforms[route.platform] then
      set k | k in domains && domains[k].platformRef == route.platform
    else if route.domain == GLOBAL then
      set k | k in domains && ListedIn(route.namespace, k) && domains[k].platformRef == route.platform
    else {ObjectId(route.namespace, route.domain)}
  }

  /** addConfigMapHandlers: before is absent for an add, after for a delete. */
  function ChangeKeys(platforms: map<string, string>, domains: map<ObjectId, DomainSpec>,
                      before: Option<ConfigMap>, after: Option<ConfigMap>): set<ObjectId>
  {
    match (before, after)
    case (None, Some(c)) =>
      if RouteOf(c).ok && !c.owner.OwnedByDomain? then HandledKeys(platforms, domains, RouteOf(c)) else {}
    case (Some(c), None) =>
      if RouteOf(c).ok then HandledKeys(platforms, domains, RouteOf(c)) else {}
    case (Some(b), Some(a)) =>
      var from, to := RouteOf(b), RouteOf(a);
      var targetChanged := from.platform != to.platform || from.domain != to.domain;
      var dataChanged := b.data != a.data || b.platformLabel != a.platformLabel || b.domainLabel != a.domainLabel;
      (if from.ok && targetChanged then HandledKeys(platforms, domains, from) else {}) +
      (if to.ok && dataChanged then HandledKeys(platforms, domains, to) else {})
    case _ => {}
  }

  // ---------- The two agree ----------

  /** A domain whose name the labels can spell, of a platform with a namespace. */
  predicate Spellable(platforms: map<string, string>, domains: map<ObjectId, DomainSpec>, k: ObjectId, platform: string) {
    && platform != "" && platform in platforms && platforms[platform] != ""
    && k in domains && domains[k].platformRef == platform
    && k.namespace != "" && k.name != "" && DotFree(k.name)
  }

  /** Whatever a domain selects routes back to the domain. */
  lemma SelectedRoutesBack(platforms: map<string, string>, domains: map<ObjectId, DomainSpec>, k: ObjectId, platform: string, c: ConfigMap)
    requires Spellable(platforms, domains, k, platform) && Selected(c, platform, platforms[platform], k)
    ensures RouteOf(c).ok && RouteOf(c).platform == platform && k in HandledKeys(platforms, domains, RouteOf(c))
  {
    var group :| 0 <= group < GROUPS && InGroup(group, c, platform, platforms[platform], k);
    if group < 2 {
      GlobalRoutesBack(platforms, domains, k, platform, c, group);
    } else {
      OwnRoutesBack(platforms, domains, k, platform, c, group);
    }
  }

  lemma DotFreeRoute(c: ConfigMap, domain: string)
    requires c.platformLabel.Some? && c.platformLabel.value != "" && c.domainLabel == Some(domain) && domain != "" && DotFree(domain)
    ensures RouteOf(c) == Route(c.platformLabel.value, c.id.namespace, domain, true)
  {
    CutJoined(domain, "");
  }

  lemma GlobalRoutesBack(platforms: map<string, string>, domains: map<ObjectId, DomainSpec>, k: ObjectId, platform: string, c: ConfigMap, group: int)
    requires Spellable(platforms, domains, k, platform) && 0 <= group < 2 && InGroup(group, c, platform, platforms[platform], k)
    ensures RouteOf(c) == Route(platform, c.id.namespace, GLOBAL, true) && k in HandledKeys(platforms, domains, RouteOf(c))
  {
    DotFreeRoute(c, GLOBAL);
  }

  lemma OwnRoutesBack(platforms: map<string, string>, domains: map<ObjectId, DomainSpec>, k: ObjectId, platform: string, c: ConfigMap, group: int)
    requires Spellable(platforms, domains, k, platform) && 2 <= group < GROUPS && InGroup(group, c, platform, platforms[platform], k)
    ensures RouteOf(c) == Route(platform, k.namespace, k.name, true) && k in HandledKeys(platforms, domains, RouteOf(c))
  {
    CutJoined(k.name, k.namespace);
  }

  /**
   Every config map a domain selects routes back to it exactly when its name has no dot and the platform has
   a namespace: without one the domain selects the global config maps of all namespaces. Namespaces have no
   dots, the platform's own included.
   */
  lemma RoutesBackIffDotFree(platforms: map<string, string>, domains: map<ObjectId, DomainSpec>, k: ObjectId, platform: string)
    requires platform != "" && platform in platforms && k in domains && domains[k].platformRef == platform
    requires k.namespace != "" && k.name != "" && DotFree(platforms[platform])
    ensures (forall c :: Selected(c, platform, platforms[platform], k) ==>
              RouteOf(c).ok && k in HandledKeys(platforms, domains, RouteOf(c)))
       <==> DotFree(k.name) && platforms[platform] != ""
  {
    if platforms[platform] == "" {
      var c := StrayGlobal(platforms, domains, k, platform);
    } else if DotFree(k.name) {
      forall c | Selected(c, platform, platforms[platform], k)
        ensures RouteOf(c).ok && k in HandledKeys(platforms, domains, RouteOf(c))
      {
        SelectedRoutesBack(platforms, domains, k, platform, c);
      }
    } else {
      var c := MisreadLabel(platforms, domains, k, platform);
    }
  }

  /** A global config map of another namespace, selected for want of a platform namespace. */
  lemma StrayGlobal(platforms: map<string, string>, domains: map<ObjectId, DomainSpec>, k: ObjectId, platform: string) returns (c: ConfigMap)
    requires platform != "" && platform in platforms && platforms[platform] == "" && k.namespace != ""
    ensures Selected(c, platform, platforms[platform], k) && k !in HandledKeys(platforms, domains, RouteOf(c))
  {
    c := ConfigMap(ObjectId(k.namespace + "x", "settings"), Some(platform), Some(GLOBAL), map[], NoOwner);
    assert InGroup(0, c, platform, platforms[platform], k);
    DotFreeRoute(c, GLOBAL);
    assert k.namespace + "x" != k.namespace;
  }

  /** The spelled-out label of a name with a dot, cut at that dot. */
  lemma MisreadLabel(platforms: map<string, string>, domains: map<ObjectId, DomainSpec>, k: ObjectId, platform: string) returns (c: ConfigMap)
    requires platform != "" && platform in platforms && DotFree(platforms[platform]) && k.namespace != "" && k.name != "" && !DotFree(k.name)
    ensures Selected(c, platform, platforms[platform], k) && k !in HandledKeys(platforms, domains, RouteOf(c))
  {
    CutParts(k.name);
    var (head, tail) := Cut(k.name);
    var namespace := tail + "." + k.namespace;
    c := ConfigMap(ObjectId(k.namespace, "settings"), Some(platform), Some(k.name + "." + k.namespace), map[], NoOwner);
    assert InGroup(3, c, platform, platforms[platform], k);
    assert k.name + "." + k.namespace == head + "." + namespace;
    CutJoined(head, namespace);
    assert RouteOf(c) == Route(platform, namespace, head, true);
    assert namespace[|tail|] == '.' && '.' in namespace && |namespace| > |k.namespace|;
  }

  /** The change adds, removes or alters an input of the domain. */
  predicate Affects(before: Option<ConfigMap>, after: Option<ConfigMap>, platform: string, targetNamespace: string, k: ObjectId) {
    var selectedBefore := before.Some? && Selected(before.value, platform, targetNamespace, k);
    var selectedAfter := after.Some? && Selected(after.value, platform, targetNamespace, k);
    || selectedBefore != selectedAfter
    || (selectedBefore && selectedAfter && before.value.data != after.value.data)
    || (selectedBefore && selectedAfter && exists group | 0 <= group < GROUPS ::
          InGroup(group, before.value, platform, targetNamespace, k) != InGroup(group, after.value, platform, targetNamespace, k))
  }

  /** An update that keeps platform and domain but moves the config map to the same domain of another namespace. */
  predicate MovesNamespaceOnly(before: Option<ConfigMap>, after: Option<ConfigMap>) {
    before.Some? && after.Some? &&
    var from, to := RouteOf(before.value), RouteOf(after.value);
    from.ok && to.ok && from.platform == to.platform && from.domain == to.domain && from.namespace != to.namespace
  }

  /** Such a move leaves the domains of the old namespace, unless the handler of the new one lists them all. */
  predicate LeavesNamespace(platforms: map<string, string>, before: Option<ConfigMap>, after: Option<ConfigMap>) {
    MovesNamespaceOnly(before, after) &&
    var to := RouteOf(after.value);
    to.platform in platforms && to.namespace != platforms[to.platform] && platforms[to.platform] != ""
  }

  /** The two are versions of the same object. */
  predicate SameObject(before: Option<ConfigMap>, after: Option<ConfigMap>) {
    before.Some? && after.Some? ==> before.value.id == after.value.id
  }

  /** The add handler ignores what a configuration domain owns. */
  predicate AddsOwned(before: Option<ConfigMap>, after: Option<ConfigMap>) {
    before.None? && after.Some? && after.value.owner.OwnedByDomain?
  }

  lemma AffectedIsEnqueued(platforms: map<string, string>, domains: map<ObjectId, DomainSpec>,
                           before: Option<ConfigMap>, after: Option<ConfigMap>, k: ObjectId, platform: string)
    requires Spellable(platforms, domains, k, platform) && SameObject(before, after)
    requires Affects(before, after, platform, platforms[platform], k)
    requires !LeavesNamespace(platforms, before, after) && !AddsOwned(before, after)
    ensures k in ChangeKeys(platforms, domains, before, after)
  {
    if before.Some? && Selected(before.value, platform, platforms[platform], k) {
      SelectedRoutesBack(platforms, domains, k, platform, before.value);
    }
    if after.Some? && Selected(after.value, platform, platforms[platform], k) {
      SelectedRoutesBack(platforms, domains, k, platform, after.value);
    }
    if before.Some? && after.Some? && before.value.platformLabel == after.value.platformLabel && before.value.domainLabel == after.value.domainLabel {
      LabelsDecideSelection(before.value, after.value, platform, platforms[platform], k);
    }
  }

  lemma LabelsDecideSelection(a: ConfigMap, b: ConfigMap, platform: string, targetNamespace: string, k: ObjectId)
    requires a.id == b.id && a.platformLabel == b.platformLabel && a.domainLabel == b.domainLabel
    ensures Selected(a, platform, targetNamespace, k) == Selected(b, platform, targetNamespace, k)
    ensures forall group :: InGroup(group, a, platform, targetNamespace, k) == InGroup(group, b, platform, targetNamespace, k)
  {
    assert forall group :: InGroup(group, a, platform, targetNamespace, k) ==> InGroup(group, b, platform, targetNamespace, k);
    assert forall group :: InGroup(group, b, platform, targetNamespace, k) ==> InGroup(group, a, platform, targetNamespace, k);
  }

  /** The label spells the route out: it does not end in its first dot. */
  predicate Spelled(c: ConfigMap) {
    c.domainLabel.Some? && (DotFree(c.domainLabel.value) || Cut(c.domainLabel.value).1 != "")
  }

  /**
   A config map is an input of the domain it is routed to, and of no namesake unless it is routed to
   the platform's own namespace.
   */
  lemma RoutedIsSelected(c: ConfigMap, targetNamespace: string, k: ObjectId)
    requires RouteOf(c).ok && Spelled(c) && k.name == RouteOf(c).domain && k.namespace != "" && targetNamespace != ""
    ensures k.namespace == RouteOf(c).namespace ==> Selected(c, RouteOf(c).platform, targetNamespace, k)
    ensures k.namespace != RouteOf(c).namespace && RouteOf(c).namespace != targetNamespace ==> !Selected(c, RouteOf(c).platform, targetNamespace, k)
  {
    var text := c.domainLabel.value;
    CutParts(text);
    if DotFree(text) {
      if k.namespace == c.id.namespace {
        assert InGroup(2, c, RouteOf(c).platform, targetNamespace, k);
      }
      assert (k.name + "." + k.namespace)[|k.name|] == '.';
      assert text != k.name + "." + k.namespace;
    } else {
      assert DotFree(GLOBAL) && DotFree(k.name);
      if k.namespace == RouteOf(c).namespace {
        assert InGroup(3, c, RouteOf(c).platform, targetNamespace, k);
      } else {
        var other := k.name + "." + k.namespace;
        CutJoined(k.name, k.namespace);
        assert text != other;
      }
    }
  }

  /**
   An update of a config map enqueues every domain it affects, whatever domains there are, exactly when it
   does not leave a namespace for another one while keeping platform and domain. Moves into the
   platform's own namespace are followed.
   */
  lemma UpdateFollowedIff(platforms: map<string, string>, before: ConfigMap, after: ConfigMap)
    requires before.id == after.id && before.id.namespace != ""
    requires RouteOf(before).ok ==> Spelled(before) && RouteOf(before).domain != ""
    requires RouteOf(after).ok ==> Spelled(after)
    ensures (forall domains, k, platform ::
              (Spellable(platforms, domains, k, platform) && Affects(Some(before), Some(after), platform, platforms[platform], k))
              ==> k in ChangeKeys(platforms, domains, Some(before), Some(after)))
       <==> !LeavesNamespace(platforms, Some(before), Some(after))
  {
    if LeavesNamespace(platforms, Some(before), Some(after)) {
      var domains, k := LeftDomainIsNotEnqueued(platforms, before, after);
    } else {
      forall domains, k, platform | Spellable(platforms, domains, k, platform) &&
        Affects(Some(before), Some(after), platform, platforms[platform], k)
        ensures k in ChangeKeys(platforms, domains, Some(before), Some(after))
      {
        AffectedIsEnqueued(platforms, domains, Some(before), Some(after), k, platform);
      }
    }
  }

  /** The domain that a config map leaves for its namesake in another namespace is not enqueued. */
  lemma LeftDomainIsNotEnqueued(platforms: map<string, string>, before: ConfigMap, after: ConfigMap)
    returns (domains: map<ObjectId, DomainSpec>, k: ObjectId)
    requires before.id == after.id && before.id.namespace != "" && LeavesNamespace(platforms, Some(before), Some(after))
    requires Spelled(before) && Spelled(after) && RouteOf(before).domain != ""
    ensures var platform := RouteOf(before).platform;
      && Spellable(platforms, domains, k, platform) && Affects(Some(before), Some(after), platform, platforms[platform], k)
      && k !in ChangeKeys(platforms, domains, Some(before), Some(after))
  {
    var from := RouteOf(before);
    k, domains := RoutedDomain(platforms, before);
    RoutedIsSelected(before, platforms[from.platform], k);
    RoutedIsSelected(after, platforms[from.platform], k);
    assert k !in HandledKeys(platforms, domains, RouteOf(after));
  }

  /** The domain a label spells out, as the only one. */
  lemma RoutedDomain(platforms: map<string, string>, c: ConfigMap) returns (k: ObjectId, domains: map<ObjectId, DomainSpec>)
    requires RouteOf(c).ok && Spelled(c) && RouteOf(c).domain != "" && c.id.namespace != ""
    requires RouteOf(c).platform in platforms && platforms[RouteOf(c).platform] != ""
    ensures k == ObjectId(RouteOf(c).namespace, RouteOf(c).domain) && domains.Keys == {k}
    ensures Spellable(platforms, domains, k, RouteOf(c).platform)
  {
    k := ObjectId(RouteOf(c).namespace, RouteOf(c).domain);
    domains := map[k := DomainSpec("", RouteOf(c).platform, true, false)];
    CutParts(c.domainLabel.value);
  }

  /**
   An add enqueues every domain it affects, whatever domains there are, exactly when no domain owns the
   config map, or its label names no platform with a namespace.
   */
  lemma AddFollowedIff(platforms: map<string, string>, c: ConfigMap)
    requires RouteOf(c).ok && Spelled(c) && RouteOf(c).domain != "" && c.id.namespace != ""
    ensures (forall domains, k, platform ::
              (Spellable(platforms, domains, k, platform) && Affects(None, Some(c), platform, platforms[platform], k))
              ==> k in ChangeKeys(platforms, domains, None, Some(c)))
       <==> !(c.owner.OwnedByDomain? && RouteOf(c).platform in platforms && platforms[RouteOf(c).platform] != "")
  {
    if c.owner.OwnedByDomain? && RouteOf(c).platform in platforms && platforms[RouteOf(c).platform] != "" {
      var route := RouteOf(c);
      var k, domains := RoutedDomain(platforms, c);
      RoutedIsSelected(c, platforms[route.platform], k);
      assert Affects(None, Some(c), route.platform, platforms[route.platform], k);
      assert k !in ChangeKeys(platforms, domains, None, Some(c));
    } else {
      forall domains, k, platform | Spellable(platforms, domains, k, platform) && Affects(None, Some(c), platform, platforms[platform], k)
        ensures k in ChangeKeys(platforms, domains, None, Some(c))
      {
        AffectedIsEnqueued(platforms, domains, None, Some(c), k, platform);
      }
    }
  }

  // ---------- Outputs are not inputs ----------

  /** The config map aggregateConfigMaps builds. */
  function Output(k: ObjectId, uid: string, platform: string, data: map<string, string>): ConfigMap {
    ConfigMap(OutputId(k), Some(platform), Some(k.name), data, OwnedByDomain(k, uid))
  }

  /**
   The output of one domain is an input of another domain of the platform exactly when it is called
   "global" and shares the other's namespace, or lies in the platform's, or when its name spells the other out.
   */
  lemma OutputIsInputIff(k: ObjectId, uid: string, other: ObjectId, platform: string, targetNamespace: string, data: map<string, string>)
    ensures IsInput(Output(k, uid, platform, data), platform, targetNamespace, other) <==>
      && k.name != other.name
      && (|| (k.name == GLOBAL && (ListedIn(targetNamespace, k) || ListedIn(other.namespace, k)))
          || k.name == other.name + "." + other.namespace)
  {
    var c := Output(k, uid, platform, data);
    OutputIdsAreDistinct(ObjectId("", k.name), ObjectId("", other.name));
    assert InGroup(0, c, platform, targetNamespace, other) <==> ListedIn(targetNamespace, k) && k.name == GLOBAL;
    assert InGroup(1, c, platform, targetNamespace, other) <==> ListedIn(other.namespace, k) && k.name == GLOBAL;
    assert InGroup(2, c, platform, targetNamespace, other) <==> ListedIn(other.namespace, k) && k.name == other.name;
    assert InGroup(3, c, platform, targetNamespace, other) <==> k.name == other.name + "." + other.namespace;
  }
}
