/** The platform controller: the tenants of a platform, and the config maps that publish them. */
module PlatformConfigMaps {
  import opened Common

  datatype Tenant = Tenant(name: string, platformRef: string, id: string, enabled: bool, categoryRef: string,
                           configs: map<string, string>, domainRefs: seq<string>)

  type Data = map<string, string>

  // ---------- Compaction ----------

  /** The loop of syncHandler that keeps the wanted elements at the front of their own array. */
  method CompactInPlace<T(!new)>(items: array<T>, wanted: T -> bool) returns (n: nat)
    modifies items
    ensures n <= items.Length && items[..n] == Filter(old(items[..]), wanted)
    ensures items[n..] == old(items[n..])
  {
    n := 0;
    ghost var was := items[..];
    for i := 0 to items.Length
      invariant n <= i && items[..n] == Filter(was[..i], wanted)
      invariant forall k :: n <= k < items.Length ==> items[k] == was[k]
    {
      FilteredNext(was, i, wanted);
      if wanted(items[i]) {
        ghost var kept := items[..n];
        items[n] := items[i];
        n := n + 1;
        assert items[..n] == kept + [was[i]];
      }
    }
    assert was[..items.Length] == was;
    assert items[n..] == was[n..];
  }

  lemma FilteredNext<T(!new)>(s: seq<T>, i: nat, p: T -> bool)
    requires i < |s|
    ensures Filter(s[..i + 1], p) == Filter(s[..i], p) + (if p(s[i]) then [s[i]] else [])
  {
    assert s[..i + 1] == s[..i] + [s[i]];
    FilterSnoc(s[..i], s[i], p);
  }

  // ---------- What a tenant contributes ----------

  const HEAD := "MultiTenancy__Tenants__"

  function Key(tenant: string, setting: string): string {
    HEAD + (tenant + "__" + setting)
  }

  function FormatBool(b: bool): string {
    if b then "true" else "false"
  }

  /** A tenant's entry of the platform's config map: its own settings, which cannot hide the fixed three. */
  function PlatformEntry(t: Tenant): Data {
    t.configs["TenantId" := t.id]["Enabled" := FormatBool(t.enabled)]["Category" := t.categoryRef]
  }

  function HasAccess(t: Tenant, domain: string): bool {
    domain in t.domainRefs
  }

  /** A tenant's entry of a domain's config map. */
  function DomainEntry(domain: string, exportActiveDomains: bool, t: Tenant): Data {
    var enabled := t.enabled && HasAccess(t, domain);
    ActiveDomains(map["Enabled" := FormatBool(enabled)], if exportActiveDomains && enabled then t.domainRefs else [])
  }

  lemma SettingsAreTold()
    ensures forall t, a, b :: Key(t, a) == Key(t, b) ==> a == b
  {
    forall t, a, b | Key(t, a) == Key(t, b) ensures a == b {
      assert Key(t, a)[|HEAD| + |t| + 2..] == a && Key(t, b)[|HEAD| + |t| + 2..] == b;
    }
  }

  /** A key says whose setting it is if no tenant's name has an underscore. */
  lemma KeysAreTold(t: string, a: string, u: string, b: string)
    requires '_' !in t && '_' !in u && Key(t, a) == Key(u, b)
    ensures t == u && a == b
  {
    assert Key(t, a)[|HEAD|..] == t + ['_'] + ("_" + a);
    assert Key(u, b)[|HEAD|..] == u + ['_'] + ("_" + b);
    SplitsAtFirst(t, "_" + a, u, "_" + b, '_');
    assert ("_" + a)[1..] == a && ("_" + b)[1..] == b;
  }

  function KeysOf(tenant: string, entry: Data): set<string> {
    set s | s in entry :: Key(tenant, s)
  }

  /** data is before with a tenant's entry written over it. */
  ghost predicate IsWrittenOver(data: Data, before: Data, tenant: string, entry: Data) {
    && (forall s :: s in entry ==> Lookup(data, Key(tenant, s)) == Some(entry[s]))
    && (forall k :: k !in KeysOf(tenant, entry) ==> Lookup(data, k) == Lookup(before, k))
  }

  /** data is what the entries of all tenants, one after the other, make. */
  ghost predicate IsGenerated(data: Data, tenants: seq<Tenant>, entry: Tenant -> Data)
    decreases |tenants|
  {
    if tenants == [] then data == map[]
    else
      var last := tenants[|tenants| - 1];
      exists before ::
        IsGenerated(before, tenants[..|tenants| - 1], entry) && IsWrittenOver(data, before, last.name, entry(last))
  }

  lemma OneMoreWritten(data: Data, before: Data, tenant: string, entry: Data, s: string, v: string)
    requires IsWrittenOver(data, before, tenant, entry)
    ensures IsWrittenOver(data[Key(tenant, s) := v], before, tenant, entry[s := v])
  {
    SettingsAreTold();
    var data', entry' := data[Key(tenant, s) := v], entry[s := v];
    forall other | other in entry' ensures Lookup(data', Key(tenant, other)) == Some(entry'[other]) {
      if other != s {
        assert other in entry;
        assert Key(tenant, other) != Key(tenant, s);
      }
    }
    assert s in entry';
    forall k | k !in KeysOf(tenant, entry') ensures Lookup(data', k) == Lookup(before, k) {
      assert forall other :: other in entry ==> other in entry';
      assert k !in KeysOf(tenant, entry);
    }
  }

  // ---------- Generation ----------

  method AddConfigs(before: Data, t: Tenant) returns (tenantData: Data)
    ensures IsWrittenOver(tenantData, before, t.name, t.configs)
  {
    tenantData := before;
    var rest := t.configs.Keys;
    ghost var done: Data := map[];
    while rest != {}
      invariant rest <= t.configs.Keys && done.Keys == t.configs.Keys - rest
      invariant forall s :: s in done ==> done[s] == t.configs[s]
      invariant IsWrittenOver(tenantData, before, t.name, done)
      decreases |rest|
    {
      var cfgKey :| cfgKey in rest;
      OneMoreWritten(tenantData, before, t.name, done, cfgKey, t.configs[cfgKey]);
      tenantData := tenantData[Key(t.name, cfgKey) := t.configs[cfgKey]];
      done := done[cfgKey := t.configs[cfgKey]];
      rest := rest - {cfgKey};
    }
    assert done == t.configs;
  }

  method AddTenant(before: Data, t: Tenant) returns (tenantData: Data)
    ensures IsWrittenOver(tenantData, before, t.name, PlatformEntry(t))
  {
    tenantData := AddConfigs(before, t);
    var id, enabled := t.id, FormatBool(t.enabled);
    OneMoreWritten(tenantData, before, t.name, t.configs, "TenantId", id);
    tenantData := tenantData[Key(t.name, "TenantId") := id];
    OneMoreWritten(tenantData, before, t.name, t.configs["TenantId" := id], "Enabled", enabled);
    tenantData := tenantData[Key(t.name, "Enabled") := enabled];
    OneMoreWritten(tenantData, before, t.name, t.configs["TenantId" := id]["Enabled" := enabled], "Category", t.categoryRef);
    tenantData := tenantData[Key(t.name, "Category") := t.categoryRef];
  }

  lemma OneMoreGenerated(data: Data, before: Data, tenants: seq<Tenant>, i: nat, entry: Tenant -> Data)
    requires i < |tenants| && IsGenerated(before, tenants[..i], entry) && IsWrittenOver(data, before, tenants[i].name, entry(tenants[i]))
    ensures IsGenerated(data, tenants[..i + 1], entry)
  {
    assert tenants[..i + 1][..i] == tenants[..i];
  }

  method GenPlatformTenantsCfgMap(tenants: seq<Tenant>) returns (tenantData: Data)
    ensures IsGenerated(tenantData, tenants, PlatformEntry)
  {
    tenantData := map[];
    for i := 0 to |tenants|
      invariant IsGenerated(tenantData, tenants[..i], PlatformEntry)
    {
      ghost var before := tenantData;
      tenantData := AddTenant(tenantData, tenants[i]);
      OneMoreGenerated(tenantData, before, tenants, i, PlatformEntry);
    }
    assert tenants[..|tenants|] == tenants;
  }

  function DomainKey(domain: string): string {
    "Domains__" + domain + "__Enabled"
  }

  /** The settings that say which domains of a tenant are active. */
  function ActiveDomains(data: Data, domains: seq<string>): Data {
    if domains == [] then data
    else ActiveDomains(data, domains[..|domains| - 1])[DomainKey(domains[|domains| - 1]) := "true"]
  }

  method AddDomainTenant(before: Data, t: Tenant, domain: string, exportActiveDomains: bool) returns (tenantData: Data)
    ensures IsWrittenOver(tenantData, before, t.name, DomainEntry(domain, exportActiveDomains, t))
  {
    var tenantEnabled := t.enabled && HasAccess(t, domain);
    tenantData := before[Key(t.name, "Enabled") := FormatBool(t.enabled && tenantEnabled)];
    ghost var first: Data := map["Enabled" := FormatBool(tenantEnabled)];
    OneMoreWritten(before, before, t.name, map[], "Enabled", FormatBool(tenantEnabled));
    if exportActiveDomains && tenantEnabled {
      tenantData := AddActiveDomains(tenantData, t, before, first);
    }
  }

  method AddActiveDomains(data: Data, t: Tenant, ghost before: Data, ghost first: Data) returns (tenantData: Data)
    requires IsWrittenOver(data, before, t.name, first)
    ensures IsWrittenOver(tenantData, before, t.name, ActiveDomains(first, t.domainRefs))
  {
    var refs := t.domainRefs;
    tenantData := data;
    for i := 0 to |refs|
      invariant IsWrittenOver(tenantData, before, t.name, ActiveDomains(first, refs[..i]))
    {
      assert refs[..i + 1][..i] == refs[..i];
      OneMoreWritten(tenantData, before, t.name, ActiveDomains(first, refs[..i]), DomainKey(refs[i]), "true");
      tenantData := tenantData[Key(t.name, DomainKey(refs[i])) := "true"];
    }
    assert refs[..|refs|] == refs;
  }

  function DomainEntries(domain: string, exportActiveDomains: bool): Tenant -> Data {
    t => DomainEntry(domain, exportActiveDomains, t)
  }

  method GenDomainTenantsCfgMap(tenants: seq<Tenant>, domain: string, exportActiveDomains: bool) returns (tenantData: Data)
    ensures IsGenerated(tenantData, tenants, DomainEntries(domain, exportActiveDomains))
  {
    ghost var entry := DomainEntries(domain, exportActiveDomains);
    tenantData := map[];
    for i := 0 to |tenants|
      invariant IsGenerated(tenantData, tenants[..i], entry)
    {
      ghost var before := tenantData;
      tenantData := AddDomainTenant(tenantData, tenants[i], domain, exportActiveDomains);
      OneMoreGenerated(tenantData, before, tenants, i, entry);
    }
    assert tenants[..|tenants|] == tenants;
  }

  // ---------- Whose settings are published ----------

  ghost predicate TellableNames(tenants: seq<Tenant>) {
    && (forall i :: 0 <= i < |tenants| ==> '_' !in tenants[i].name)
    && (forall i, j :: 0 <= i < j < |tenants| ==> tenants[i].name != tenants[j].name)
  }

  /** Under a tenant's name there is what its entry says, whatever the other tenants. */
  lemma {:induction false} EntryIsPublished(data: Data, tenants: seq<Tenant>, entry: Tenant -> Data, t: Tenant, s: string)
    requires TellableNames(tenants) && IsGenerated(data, tenants, entry) && t in tenants
    ensures Lookup(data, Key(t.name, s)) == Lookup(entry(t), s)
    decreases |tenants|
  {
    var n := |tenants| - 1;
    var front, last := tenants[..n], tenants[n];
    var before :| IsGenerated(before, front, entry) && IsWrittenOver(data, before, last.name, entry(last));
    var k := Key(t.name, s);
    if k in KeysOf(last.name, entry(last)) {
      var s' :| s' in entry(last) && Key(last.name, s') == k;
      KeysAreTold(t.name, s, last.name, s');
      var i :| 0 <= i < |tenants| && tenants[i] == t;
      assert t == last;
    } else if t == last {
      NotMine(before, front, entry, t.name, s);
    } else {
      assert t in front;
      EntryIsPublished(before, front, entry, t, s);
    }
  }

  /** Nothing is under a name no tenant has. */
  lemma {:induction false} NotMine(data: Data, tenants: seq<Tenant>, entry: Tenant -> Data, name: string, s: string)
    requires IsGenerated(data, tenants, entry) && '_' !in name
    requires forall i :: 0 <= i < |tenants| ==> '_' !in tenants[i].name && tenants[i].name != name
    ensures Key(name, s) !in data
    decreases |tenants|
  {
    if tenants != [] {
      var n := |tenants| - 1;
      var front, last := tenants[..n], tenants[n];
      var before :| IsGenerated(before, front, entry) && IsWrittenOver(data, before, last.name, entry(last));
      NotMine(before, front, entry, name, s);
      var k := Key(name, s);
      if k in KeysOf(last.name, entry(last)) {
        var s' :| s' in entry(last) && Key(last.name, s') == k;
        KeysAreTold(name, s, last.name, s');
        assert false;
      }
      assert Lookup(data, k) == Lookup(before, k);
    }
  }

  /** Nothing is published that is not a setting of some tenant. */
  lemma {:induction false} NothingElseIsPublished(data: Data, tenants: seq<Tenant>, entry: Tenant -> Data, k: string)
    requires IsGenerated(data, tenants, entry) && k in data
    ensures exists t, s :: t in tenants && s in entry(t) && Key(t.name, s) == k
    decreases |tenants|
  {
    if tenants != [] {
      var n := |tenants| - 1;
      var front, last := tenants[..n], tenants[n];
      var before :| IsGenerated(before, front, entry) && IsWrittenOver(data, before, last.name, entry(last));
      if k in KeysOf(last.name, entry(last)) {
        var s :| s in entry(last) && Key(last.name, s) == k;
        assert last in tenants;
      } else {
        assert Lookup(before, k) == Lookup(data, k);
        NothingElseIsPublished(before, front, entry, k);
        var t, s :| t in front && s in entry(t) && Key(t.name, s) == k;
        assert t in tenants;
      }
    }
  }

  // ---------- The order of the tenants ----------

  predicate Underscoreless(tenants: seq<Tenant>) {
    forall t :: t in tenants ==> '_' !in t.name
  }

  /** Tenants of one name agree on the settings they share. */
  ghost predicate NamesakesAgree(tenants: seq<Tenant>, entry: Tenant -> Data) {
    forall t, u, s :: t in tenants && u in tenants && t.name == u.name && s in entry(t) && s in entry(u) ==> entry(t)[s] == entry(u)[s]
  }

  /** If namesakes agree, nobody's settings are overwritten with others. */
  lemma {:induction false} AgreedSettingIsPublished(data: Data, tenants: seq<Tenant>, entry: Tenant -> Data, t: Tenant, s: string)
    requires Underscoreless(tenants) && NamesakesAgree(tenants, entry) && IsGenerated(data, tenants, entry)
    requires t in tenants && s in entry(t)
    ensures Lookup(data, Key(t.name, s)) == Some(entry(t)[s])
    decreases |tenants|
  {
    var n := |tenants| - 1;
    var front, last, k := tenants[..n], tenants[n], Key(t.name, s);
    var before :| IsGenerated(before, front, entry) && IsWrittenOver(data, before, last.name, entry(last));
    assert last in tenants && forall u :: u in front ==> u in tenants;
    if k in KeysOf(last.name, entry(last)) {
      var s' :| s' in entry(last) && Key(last.name, s') == k;
      KeysAreTold(t.name, s, last.name, s');
    } else {
      assert t in front;
      AgreedSettingIsPublished(before, front, entry, t, s);
    }
  }

  lemma AgreedKeyIsPublished(x: Data, y: Data, a: seq<Tenant>, b: seq<Tenant>, entry: Tenant -> Data, k: string)
    requires Underscoreless(a) && NamesakesAgree(a, entry) && forall t :: t in a <==> t in b
    requires IsGenerated(x, a, entry) && IsGenerated(y, b, entry) && k in x
    ensures Lookup(y, k) == Lookup(x, k)
  {
    NothingElseIsPublished(x, a, entry, k);
    var t, s :| t in a && s in entry(t) && Key(t.name, s) == k;
    AgreedSettingIsPublished(x, a, entry, t, s);
    AgreedSettingIsPublished(y, b, entry, t, s);
  }

  /** If namesakes agree, the same tenants publish the same data, in whatever order and however often they come. */
  lemma AgreeingTenantsPublishTheSame(a: seq<Tenant>, b: seq<Tenant>, entry: Tenant -> Data, x: Data, y: Data)
    requires Underscoreless(a) && NamesakesAgree(a, entry) && forall t :: t in a <==> t in b
    requires IsGenerated(x, a, entry) && IsGenerated(y, b, entry)
    ensures x == y
  {
    forall k ensures Lookup(x, k) == Lookup(y, k) {
      if k in x {
        AgreedKeyIsPublished(x, y, a, b, entry, k);
      } else if k in y {
        AgreedKeyIsPublished(y, x, b, a, entry, k);
      }
    }
    SameLookups(x, y);
  }

  /** The order in which the lister returns the tenants does not matter. */
  lemma TenantOrderIsIrrelevant(a: seq<Tenant>, b: seq<Tenant>, entry: Tenant -> Data, x: Data, y: Data)
    requires TellableNames(a) && forall t :: t in a <==> t in b
    requires IsGenerated(x, a, entry) && IsGenerated(y, b, entry)
    ensures x == y
  {
    forall t, u | t in a && u in a && t.name == u.name ensures t == u {
      var i, j :| 0 <= i < |a| && 0 <= j < |a| && a[i] == t && a[j] == u;
      assert !(i < j) && !(j < i);
    }
    AgreeingTenantsPublishTheSame(a, b, entry, x, y);
  }

  lemma SameLookups(x: Data, y: Data)
    requires forall k :: Lookup(x, k) == Lookup(y, k)
    ensures x == y
  {
    forall k ensures k in x <==> k in y {
      assert Lookup(x, k) == Lookup(y, k);
    }
    forall k | k in x ensures x[k] == y[k] {
      assert Lookup(x, k) == Lookup(y, k);
    }
  }

  lemma {:induction false} SomethingIsWrittenOver(before: Data, tenant: string, entry: Data, settings: set<string>) returns (data: Data)
    requires settings <= entry.Keys
    ensures IsWrittenOver(data, before, tenant, map s | s in settings :: entry[s])
  {
    if settings == {} {
      data := before;
    } else {
      var s :| s in settings;
      var rest := SomethingIsWrittenOver(before, tenant, entry, settings - {s});
      OneMoreWritten(rest, before, tenant, map r | r in settings - {s} :: entry[r], s, entry[s]);
      assert (map r | r in settings - {s} :: entry[r])[s := entry[s]] == map r | r in settings :: entry[r];
      data := rest[Key(tenant, s) := entry[s]];
    }
  }

  lemma {:induction false} SomethingIsGenerated(tenants: seq<Tenant>, entry: Tenant -> Data) returns (data: Data)
    ensures IsGenerated(data, tenants, entry)
  {
    data := map[];
    if tenants != [] {
      var n := |tenants| - 1;
      var before := SomethingIsGenerated(tenants[..n], entry);
      var own := entry(tenants[n]);
      data := SomethingIsWrittenOver(before, tenants[n].name, own, own.Keys);
      assert (map s | s in own.Keys :: own[s]) == own;
    }
  }

  /** Any tenant can come last. */
  lemma LastTenant(tenants: seq<Tenant>, t: Tenant) returns (front: seq<Tenant>)
    requires t in tenants
    ensures multiset(front + [t]) == multiset(tenants)
  {
    var i :| 0 <= i < |tenants| && tenants[i] == t;
    front := tenants[..i] + tenants[i + 1..];
    assert tenants == tenants[..i] + [t] + tenants[i + 1..];
  }

  /** Every order of the tenants publishes the same data. */
  ghost predicate OrderIsIrrelevant(tenants: seq<Tenant>, entry: Tenant -> Data) {
    forall other, x, y :: multiset(other) == multiset(tenants) && IsGenerated(x, tenants, entry) && IsGenerated(y, other, entry) ==> x == y
  }

  lemma LastEntryWins(data: Data, front: seq<Tenant>, t: Tenant, entry: Tenant -> Data, s: string)
    requires IsGenerated(data, front + [t], entry) && s in entry(t)
    ensures Lookup(data, Key(t.name, s)) == Some(entry(t)[s])
  {
  }

  /** Namesakes that disagree on a setting overwrite each other: one of them can come last and change what is published. */
  lemma DisagreementShows(tenants: seq<Tenant>, entry: Tenant -> Data, t: Tenant, u: Tenant, s: string)
    requires t in tenants && u in tenants && t.name == u.name && s in entry(t) && s in entry(u) && entry(t)[s] != entry(u)[s]
    ensures !OrderIsIrrelevant(tenants, entry)
  {
    var x := SomethingIsGenerated(tenants, entry);
    var last := if Lookup(x, Key(t.name, s)) == Some(entry(t)[s]) then u else t;
    var front := LastTenant(tenants, last);
    var y := SomethingIsGenerated(front + [last], entry);
    LastEntryWins(y, front, last, entry, s);
    assert x != y;
  }

  /** The order of the tenants is irrelevant exactly when all namesakes agree on the settings they share. */
  lemma OrderIsIrrelevantIffNamesakesAgree(tenants: seq<Tenant>, entry: Tenant -> Data)
    requires Underscoreless(tenants)
    ensures OrderIsIrrelevant(tenants, entry) <==> NamesakesAgree(tenants, entry)
  {
    if NamesakesAgree(tenants, entry) {
      forall other, x, y | multiset(other) == multiset(tenants) && IsGenerated(x, tenants, entry) && IsGenerated(y, other, entry)
        ensures x == y
      {
        SameElements(tenants, other);
        AgreeingTenantsPublishTheSame(tenants, other, entry, x, y);
      }
    } else {
      var t, u, s :| t in tenants && u in tenants && t.name == u.name && s in entry(t) && s in entry(u) && entry(t)[s] != entry(u)[s];
      DisagreementShows(tenants, entry, t, u, s);
    }
  }

  lemma SameElements(a: seq<Tenant>, b: seq<Tenant>)
    requires multiset(a) == multiset(b)
    ensures forall t :: t in a <==> t in b
  {
    forall t ensures t in a <==> t in b {
      assert t in a <==> t in multiset(a);
      assert t in b <==> t in multiset(b);
    }
  }

  /** The fixed settings win over settings of the same name, and only those. */
  lemma FixedSettingsWin(data: Data, tenants: seq<Tenant>, t: Tenant, s: string)
    requires TellableNames(tenants) && IsGenerated(data, tenants, PlatformEntry) && t in tenants
    ensures Lookup(data, "MultiTenancy__Tenants__" + (t.name + "__" + s)) ==
      if s == "TenantId" then Some(t.id)
      else if s == "Enabled" then Some(if t.enabled then "true" else "false")
      else if s == "Category" then Some(t.categoryRef)
      else Lookup(t.configs, s)
  {
    EntryIsPublished(data, tenants, PlatformEntry, t, s);
  }

  lemma {:induction false} ActiveDomainsAre(data: Data, domains: seq<string>, s: string)
    ensures Lookup(ActiveDomains(data, domains), s) ==
      if exists d :: d in domains && DomainKey(d) == s then Some("true") else Lookup(data, s)
  {
    if domains != [] {
      var n := |domains| - 1;
      ActiveDomainsAre(data, domains[..n], s);
      assert domains == domains[..n] + [domains[n]];
    }
  }

  lemma DomainKeysAreTold(a: string, b: string)
    ensures DomainKey(a) == DomainKey(b) <==> a == b
    ensures DomainKey(a) != "Enabled"
  {
    var tail := |"__Enabled"|;
    assert DomainKey(a)[9..|DomainKey(a)| - tail] == a && DomainKey(b)[9..|DomainKey(b)| - tail] == b;
    assert DomainKey(a)[0] == 'D' && "Enabled"[0] == 'E';
  }

  /** A domain's config map says of each tenant whether it may use the domain, and names its domains only if it may. */
  lemma DomainAccessIsPublished(data: Data, tenants: seq<Tenant>, domain: string, exportActiveDomains: bool, t: Tenant, other: string)
    requires TellableNames(tenants) && t in tenants
    requires IsGenerated(data, tenants, DomainEntries(domain, exportActiveDomains))
    ensures Lookup(data, "MultiTenancy__Tenants__" + (t.name + "__" + "Enabled")) ==
      Some(if t.enabled && domain in t.domainRefs then "true" else "false")
    ensures Lookup(data, "MultiTenancy__Tenants__" + (t.name + "__" + ("Domains__" + other + "__Enabled"))) ==
      if exportActiveDomains && t.enabled && domain in t.domainRefs && other in t.domainRefs then Some("true") else None
  {
    var entry := DomainEntries(domain, exportActiveDomains);
    var enabled := t.enabled && HasAccess(t, domain);
    var first: Data := map["Enabled" := FormatBool(enabled)];
    var refs := if exportActiveDomains && enabled then t.domainRefs else [];
    EntryIsPublished(data, tenants, entry, t, "Enabled");
    EntryIsPublished(data, tenants, entry, t, DomainKey(other));
    ActiveDomainsAre(first, refs, "Enabled");
    ActiveDomainsAre(first, refs, DomainKey(other));
    forall d ensures (DomainKey(d) == DomainKey(other) <==> d == other) && DomainKey(d) != "Enabled" {
      DomainKeysAreTold(d, other);
    }
  }
}
