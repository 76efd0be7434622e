/** The text of a work key, and what a worker reads back from it. */
module WorkKeys {
  import opened Common
  import opened Provisioning

  /** strings.Cut at the first sep. */
  function Cut(s: string, sep: string): (r: Option<(string, string)>)
    requires sep != []
    ensures r.Some? ==> s == r.value.0 + sep + r.value.1
  {
    if |s| < |sep| then None
    else if s[..|sep|] == sep then Some(("", s[|sep|..]))
    else
      match Cut(s[1..], sep)
      case None => None
      case Some((before, after)) => Some(([s[0]] + before, after))
  }

  function Split(s: string, sep: string): seq<string>
    requires sep != []
    decreases |s|
  {
    match Cut(s, sep)
    case None => [s]
    case Some((before, after)) => [before] + Split(after, sep)
  }

  function Join(parts: seq<string>, sep: string): string {
    if parts == [] then ""
    else if |parts| == 1 then parts[0]
    else parts[0] + sep + Join(parts[1..], sep)
  }

  /** The first separator after s is the one that is put there. */
  predicate Separable(s: string, sep: string)
    requires sep != []
  {
    Cut(s + sep, sep) == Some((s, ""))
  }

  lemma {:induction false} CutLooksNoFurther(s: string, sep: string, rest: string)
    requires sep != []
    ensures Cut(s + sep, sep).Some? && Cut(s + sep + rest, sep).Some?
    ensures Cut(s + sep, sep).value.0 == Cut(s + sep + rest, sep).value.0
  {
    var short, long := s + sep, s + sep + rest;
    assert long[..|sep|] == short[..|sep|];
    if s != [] && short[..|sep|] != sep {
      assert short[1..] == s[1..] + sep && long[1..] == s[1..] + sep + rest;
      CutLooksNoFurther(s[1..], sep, rest);
    }
  }

  lemma SeparableIsCutOff(s: string, sep: string, rest: string)
    requires sep != []
    ensures Separable(s, sep) <==> Cut(s + sep + rest, sep) == Some((s, rest))
    ensures Cut(s + sep + rest, sep).Some? && (Cut(s + sep + rest, sep).value.0 == s ==> Separable(s, sep))
  {
    CutLooksNoFurther(s, sep, rest);
    var short, long := Cut(s + sep, sep).value, Cut(s + sep + rest, sep).value;
    assert s + sep == short.0 + sep + short.1;
    assert s + sep + rest == long.0 + sep + long.1;
    if short.0 == s {
      assert |short.1| == 0;
      assert (s + sep + rest)[|s| + |sep|..] == rest;
      assert (long.0 + sep + long.1)[|s| + |sep|..] == long.1;
    }
  }

  /** Every part can be told from the separator after it, and the last has none in it. */
  predicate AllTold(parts: seq<string>, sep: string)
    requires sep != [] && parts != []
  {
    if |parts| == 1 then Cut(parts[0], sep).None? else Separable(parts[0], sep) && AllTold(parts[1..], sep)
  }

  lemma {:induction false} SplitJoinedIff(parts: seq<string>, sep: string)
    requires sep != [] && parts != []
    ensures Split(Join(parts, sep), sep) == parts <==> AllTold(parts, sep)
  {
    var joined := Join(parts, sep);
    if |parts| == 1 {
      assert Cut(joined, sep).Some? ==> |Split(joined, sep)| > 1;
      assert parts == [parts[0]];
    } else {
      var rest := Join(parts[1..], sep);
      SeparableIsCutOff(parts[0], sep, rest);
      SplitJoinedIff(parts[1..], sep);
      assert joined == parts[0] + sep + rest;
      SameHead(parts, Split(joined, sep), Cut(joined, sep).value.0, Split(Cut(joined, sep).value.1, sep));
    }
  }

  lemma SameHead(parts: seq<string>, split: seq<string>, head: string, tail: seq<string>)
    requires parts != [] && split == [head] + tail
    ensures split == parts <==> head == parts[0] && tail == parts[1..]
  {
    assert split[1..] == tail;
    assert parts == [parts[0]] + parts[1..];
  }

  // ---------- Work keys ----------

  const SEP := "::"

  lemma {:induction false} SeparableByColons(s: string)
    ensures Separable(s, SEP) <==> Cut(s, SEP).None? && (s == [] || s[|s| - 1] != ':')
  {
    if |s| == 1 {
      var text := s + SEP;
      assert text[..2][0] == s[0] && text[1..] == SEP;
      assert SEP[..|SEP|] == SEP && SEP[|SEP|..] == "";
      if s[0] == ':' {
        assert text[..2] == SEP;
        assert Cut(text, SEP).value.0 == "";
      } else {
        assert Cut(text, SEP) == Some(([s[0]] + "", ""));
        assert [s[0]] + "" == s;
      }
    } else if |s| > 1 {
      assert (s + SEP)[..2] == s[..2];
      assert (s + SEP)[1..] == s[1..] + SEP;
      SeparableByColons(s[1..]);
      assert s == [s[0]] + s[1..];
      assert s[1..][|s| - 2] == s[|s| - 1];
    }
  }

  function EncodeKey(platform: string, tenant: string, domain: string): string {
    platform + SEP + tenant + SEP + domain
  }

  function DecodeKey(key: string): Option<(string, string, string)> {
    var res := Split(key, SEP);
    if |res| == 3 then Some((res[0], res[1], res[2])) else None
  }

  function EncodeDomainKey(namespace: string, domain: string): string {
    namespace + SEP + domain
  }

  function DecodeDomainKey(key: string): Option<(string, string)> {
    var res := Split(key, SEP);
    if |res| == 2 then Some((res[0], res[1])) else None
  }

  /** A component other than the last: no "::" in it and no ':' at its end. */
  predicate Inner(s: string) {
    Cut(s, SEP).None? && (s == [] || s[|s| - 1] != ':')
  }

  lemma ThreeJoined(platform: string, tenant: string, domain: string)
    ensures Join([platform, tenant, domain], SEP) == EncodeKey(platform, tenant, domain)
  {
    var parts := [platform, tenant, domain];
    assert parts[1..] == [tenant, domain] && [tenant, domain][1..] == [domain];
    assert Join([tenant, domain], SEP) == tenant + SEP + domain;
    assert platform + SEP + (tenant + SEP + domain) == platform + SEP + tenant + SEP + domain;
  }

  lemma ThreeTold(platform: string, tenant: string, domain: string)
    ensures AllTold([platform, tenant, domain], SEP) <==> Separable(platform, SEP) && Separable(tenant, SEP) && Cut(domain, SEP).None?
  {
    assert [platform, tenant, domain][1..] == [tenant, domain] && [tenant, domain][1..] == [domain];
    assert AllTold([domain], SEP) <==> Cut(domain, SEP).None?;
    assert AllTold([tenant, domain], SEP) <==> Separable(tenant, SEP) && Cut(domain, SEP).None?;
  }

  lemma ThreeDecoded(key: string, platform: string, tenant: string, domain: string)
    ensures DecodeKey(key) == Some((platform, tenant, domain)) <==> Split(key, SEP) == [platform, tenant, domain]
  {
    var res := Split(key, SEP);
    if DecodeKey(key) == Some((platform, tenant, domain)) {
      assert res == [res[0], res[1], res[2]];
    }
  }

  /** A key is read back exactly when its parts can be told from the separators. */
  lemma KeyIsReadBackIff(platform: string, tenant: string, domain: string)
    ensures DecodeKey(EncodeKey(platform, tenant, domain)) == Some((platform, tenant, domain))
       <==> Inner(platform) && Inner(tenant) && Cut(domain, SEP).None?
  {
    ThreeJoined(platform, tenant, domain);
    SplitJoinedIff([platform, tenant, domain], SEP);
    ThreeDecoded(EncodeKey(platform, tenant, domain), platform, tenant, domain);
    ThreeTold(platform, tenant, domain);
    SeparableByColons(platform);
    SeparableByColons(tenant);
  }

  lemma DomainKeyIsReadBackIff(namespace: string, domain: string)
    ensures DecodeDomainKey(EncodeDomainKey(namespace, domain)) == Some((namespace, domain))
       <==> Inner(namespace) && Cut(domain, SEP).None?
  {
    var parts := [namespace, domain];
    assert parts[1..] == [domain];
    assert Join(parts, SEP) == EncodeDomainKey(namespace, domain);
    SplitJoinedIff(parts, SEP);
    SeparableByColons(namespace);
    var res := Split(EncodeDomainKey(namespace, domain), SEP);
    assert |res| == 2 ==> res == [res[0], res[1]];
  }

  // ---------- Keys of tenants and platforms ----------

  /** cache.MetaNamespaceKeyFunc. */
  function MetaNamespaceKey(id: TenantId): string {
    if id.namespace == "" then id.name else id.namespace + "/" + id.name
  }

  /** cache.SplitMetaNamespaceKey. */
  function SplitMetaNamespaceKey(key: string): Option<TenantId> {
    var res := Split(key, "/");
    if |res| == 1 then Some(TenantId("", res[0]))
    else if |res| == 2 then Some(TenantId(res[0], res[1]))
    else None
  }

  function EncodeWorkKey(k: Key): string {
    match k
    case PlatformKey(platform, domain) => EncodeKey(platform, "", domain)
    case TenantKey(platform, id, domain) => EncodeKey(platform, MetaNamespaceKey(id), domain)
  }

  /** What syncHandler takes a key for. */
  function DecodeWorkKey(key: string): Option<Key> {
    match DecodeKey(key)
    case None => None
    case Some((platform, tenant, domain)) =>
      if tenant == "" then Some(PlatformKey(platform, domain))
      else
        match SplitMetaNamespaceKey(tenant)
        case None => None
        case Some(id) => Some(TenantKey(platform, id, domain))
  }

  /** Kubernetes names have neither character. */
  predicate Plain(s: string) {
    ':' !in s && '/' !in s
  }

  lemma {:induction false} PlainHasNoSeparator(s: string, sep: string)
    requires sep == "/" || sep == SEP
    requires Plain(s) || (sep == SEP && ':' !in s)
    ensures Cut(s, sep).None?
  {
    if |s| >= |sep| {
      assert s[..|sep|][0] == s[0];
      PlainHasNoSeparator(s[1..], sep);
    }
  }

  lemma {:induction false} PlainIsSeparableBySlash(s: string)
    requires Plain(s)
    ensures Separable(s, "/")
  {
    if s != [] {
      assert (s + "/")[..1] == [s[0]];
      assert (s + "/")[1..] == s[1..] + "/";
      PlainIsSeparableBySlash(s[1..]);
      assert s == [s[0]] + s[1..];
    }
  }

  lemma TenantIdIsReadBack(id: TenantId)
    requires Plain(id.namespace) && Plain(id.name)
    ensures SplitMetaNamespaceKey(MetaNamespaceKey(id)) == Some(id)
  {
    PlainHasNoSeparator(id.name, "/");
    if id.namespace != "" {
      PlainIsSeparableBySlash(id.namespace);
      var parts := [id.namespace, id.name];
      assert parts[1..] == [id.name];
      SplitJoinedIff(parts, "/");
    }
  }

  /** A worker gets the key that was enqueued, so no two keys share a text. */
  lemma WorkKeyIsReadBack(k: Key)
    requires Plain(k.platform) && Plain(k.domain)
    requires k.TenantKey? ==> Plain(k.tenant.namespace) && Plain(k.tenant.name) && k.tenant.name != ""
    ensures DecodeWorkKey(EncodeWorkKey(k)) == Some(k)
  {
    var tenant := if k.TenantKey? then MetaNamespaceKey(k.tenant) else "";
    PlainHasNoSeparator(k.platform, SEP);
    PlainHasNoSeparator(tenant, SEP);
    PlainHasNoSeparator(k.domain, SEP);
    KeyIsReadBackIff(k.platform, tenant, k.domain);
    if k.TenantKey? {
      TenantIdIsReadBack(k.tenant);
    }
  }

  // ---------- Stacks ----------

  /** Create's name for the stack of a key, in the project called like the platform. */
  function StackName(k: Key): string {
    match k
    case TenantKey(_, id, domain) => id.name + "-" + domain
    case PlatformKey(_, domain) => "platform" + "-" + domain
  }

  /** What the name of a key's stack is made from. */
  function StackOwner(k: Key): string {
    if k.TenantKey? then k.tenant.name else "platform"
  }

  /** One domain is the other with something and a hyphen in front. */
  ghost predicate Extends(longer: string, shorter: string) {
    exists p: string :: longer == p + "-" + shorter
  }

  /** What is left of s after a hyphen at the given place. */
  lemma AfterHyphen(s: string, a: string, x: string)
    requires s == a + "-" + x
    ensures |s| == |a| + 1 + |x| && s[..|a|] == a && s[|a|] == '-' && s[|a| + 1..] == x
  {
  }

  /** Two hyphenated names agree exactly when their parts do, or one's first part runs on into the other's second. */
  lemma HyphenatedEqualIff(a: string, x: string, b: string, y: string)
    requires |a| <= |b|
    ensures a + "-" + x == b + "-" + y <==> (a == b && x == y) || exists p: string :: b == a + "-" + p && x == p + "-" + y
  {
    var s := a + "-" + x;
    if s == b + "-" + y {
      AfterHyphen(s, a, x);
      AfterHyphen(s, b, y);
      if |a| < |b| {
        var p := b[|a| + 1..];
        assert b == s[..|b|] && b[..|a|] == a && b[|a|] == '-';
        assert b == a + "-" + p;
        assert x == p + "-" + y;
      }
    }
    if p: string :| b == a + "-" + p && x == p + "-" + y {
      assert a + "-" + (p + "-" + y) == a + "-" + p + "-" + y;
    }
  }

  /** k's owner runs on into j's domain. */
  ghost predicate RunsOn(j: Key, k: Key) {
    exists p: string :: StackOwner(k) == StackOwner(j) + "-" + p && j.domain == p + "-" + k.domain
  }

  /**
   Two stacks are called alike exactly when owner's name and domain agree, or one owner's name runs on
   into the other key's domain. A tenant's namespace makes no difference.
   */
  lemma StacksAreSharedIff(j: Key, k: Key)
    ensures StackName(j) == StackName(k) <==>
      (StackOwner(j) == StackOwner(k) && j.domain == k.domain) || RunsOn(j, k) || RunsOn(k, j)
  {
    if |StackOwner(j)| <= |StackOwner(k)| {
      HyphenatedEqualIff(StackOwner(j), j.domain, StackOwner(k), k.domain);
    } else {
      HyphenatedEqualIff(StackOwner(k), k.domain, StackOwner(j), j.domain);
    }
  }

  /** Tenants of different names whose keys for the two domains share a stack. */
  ghost predicate Confusable(platform: string, namespace: string, d: string, e: string) {
    exists x: string, y: string :: x != y && ShareStack(platform, namespace, x, d, y, e)
  }

  predicate ShareStack(platform: string, namespace: string, x: string, d: string, y: string, e: string) {
    StackName(TenantKey(platform, TenantId(namespace, x), d)) == StackName(TenantKey(platform, TenantId(namespace, y), e))
  }

  /** Two domains let tenants of different names share a stack exactly when one extends the other by a hyphen. */
  lemma DomainsConfuseStacksIff(platform: string, namespace: string, d: string, e: string)
    ensures Confusable(platform, namespace, d, e) <==> Extends(d, e) || Extends(e, d)
  {
    if Confusable(platform, namespace, d, e) {
      var x: string, y: string :| x != y && ShareStack(platform, namespace, x, d, y, e);
      if |x| <= |y| {
        HyphenatedEqualIff(x, d, y, e);
      } else {
        HyphenatedEqualIff(y, e, x, d);
      }
    }
    if Extends(d, e) {
      ExtendedDomainConfuses(platform, namespace, d, e);
    }
    if Extends(e, d) {
      ExtendedDomainConfuses(platform, namespace, e, d);
    }
  }

  lemma ExtendedDomainConfuses(platform: string, namespace: string, longer: string, shorter: string)
    requires Extends(longer, shorter)
    ensures Confusable(platform, namespace, longer, shorter) && Confusable(platform, namespace, shorter, longer)
  {
    var p: string :| longer == p + "-" + shorter;
    var x, y := "t", "t" + "-" + p;
    HyphenatedEqualIff(x, longer, y, shorter);
    assert y == x + "-" + p && |y| > |x|;
    assert ShareStack(platform, namespace, x, longer, y, shorter);
    assert ShareStack(platform, namespace, y, shorter, x, longer);
  }
}
