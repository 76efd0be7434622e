/**
 Provisioning overrides: which of the four sources of overrides apply to a resource, and what merging
 them onto its spec, in ascending precedence, makes of every value of the spec.
 */
module Overrides {
  import opened Common

  /** A JSON value; text stands for any value that is not an object. */
  datatype Json = Leaf(text: string) | Object(fields: Fields)

  type Fields = map<string, Json>

  /** The raw bytes of an override: an object, or something that does not parse as one. */
  datatype RawJson = Malformed | Parsed(fields: Fields)

  // ---------- Merging ----------

  /** mergo.Merge with override: objects are merged field by field, anything else is replaced. */
  function Merge(base: Fields, over: Fields): Fields
    decreases Object(over)
  {
    map k | k in base.Keys + over.Keys ::
      if k !in over then base[k]
      else if k in base && base[k].Object? && over[k].Object? then Object(Merge(base[k].fields, over[k].fields))
      else over[k]
  }

  /** The value at a path of field names, if there is one and it is not an object. */
  function ValueAt(fields: Fields, path: seq<string>): Option<string>
    decreases |path|
  {
    if path == [] || path[0] !in fields then None
    else
      match fields[path[0]]
      case Leaf(text) => if |path| == 1 then Some(text) else None
      case Object(inner) => ValueAt(inner, path[1..])
  }

  /** fields says what is at the path: it has something there, or a value on the way that leaves no room for it. */
  predicate Decides(fields: Fields, path: seq<string>)
    decreases |path|
  {
    path != [] && path[0] in fields &&
    (|path| == 1 || fields[path[0]].Leaf? || Decides(fields[path[0]].fields, path[1..]))
  }

  /** At every path the override's value wins where the override decides, and the base's stays elsewhere. */
  lemma {:induction false} MergeAt(base: Fields, over: Fields, path: seq<string>)
    ensures ValueAt(Merge(base, over), path) == if Decides(over, path) then ValueAt(over, path) else ValueAt(base, path)
    decreases |path|
  {
    if path != [] && path[0] in over {
      if over[path[0]].Object? && |path| > 1 {
        var inner := over[path[0]].fields;
        if path[0] in base && base[path[0]].Object? {
          MergeAt(base[path[0]].fields, inner, path[1..]);
        } else if !Decides(over, path) {
          UndecidedHasNoValue(inner, path[1..]);
        }
      }
    }
  }

  lemma {:induction false} UndecidedHasNoValue(fields: Fields, path: seq<string>)
    requires !Decides(fields, path)
    ensures ValueAt(fields, path) == None
    decreases |path|
  {
    if |path| > 1 && path[0] in fields && fields[path[0]].Object? {
      UndecidedHasNoValue(fields[path[0]].fields, path[1..]);
    }
  }

  /** The loop over the overrides: those that are absent are passed over. */
  function MergeAll(base: Fields, overrides: seq<Option<Fields>>): Fields {
    if overrides == [] then base
    else
      var n := |overrides| - 1;
      var merged := MergeAll(base, overrides[..n]);
      if overrides[n].Some? then Merge(merged, overrides[n].value) else merged
  }

  predicate DecidedBy(override: Option<Fields>, path: seq<string>) {
    override.Some? && Decides(override.value, path)
  }

  /** At every path the result has the value of the last override that decides it. */
  lemma {:induction false} HighestPrecedenceWins(base: Fields, overrides: seq<Option<Fields>>, path: seq<string>, winner: nat)
    requires winner < |overrides| && DecidedBy(overrides[winner], path)
    requires forall i :: winner < i < |overrides| ==> !DecidedBy(overrides[i], path)
    ensures ValueAt(MergeAll(base, overrides), path) == ValueAt(overrides[winner].value, path)
  {
    var n := |overrides| - 1;
    if overrides[n].Some? {
      MergeAt(MergeAll(base, overrides[..n]), overrides[n].value, path);
    }
    if winner < n {
      HighestPrecedenceWins(base, overrides[..n], path, winner);
    }
  }

  /** At the paths that no override decides, the result has what the base has. */
  lemma {:induction false} UntouchedPathsStay(base: Fields, overrides: seq<Option<Fields>>, path: seq<string>)
    requires forall i :: 0 <= i < |overrides| ==> !DecidedBy(overrides[i], path)
    ensures ValueAt(MergeAll(base, overrides), path) == ValueAt(base, path)
  {
    if overrides != [] {
      var n := |overrides| - 1;
      UntouchedPathsStay(base, overrides[..n], path);
      if overrides[n].Some? {
        MergeAt(MergeAll(base, overrides[..n]), overrides[n].value, path);
      }
    }
  }

  // ---------- Which overrides apply ----------

  datatype PatchTarget = PatchTarget(apiVersion: string, kind: string, name: string, namespace: string)

  /** An entry of provisioningOverrides; spec may be a nil pointer. */
  datatype Patch = Patch(target: PatchTarget, spec: Option<RawJson>)

  datatype Target =
    | TenantTarget(namespace: string, name: string, categoryRef: string, patches: seq<Patch>)
    | PlatformTarget(name: string)

  const SCHEMA_VERSION := "provisioning.totalsoft.ro/v1alpha1"

  /** What identifies a resource to patches, and its own maps of overrides. */
  datatype Identity = Identity(apiVersion: string, kind: string, namespace: string, name: string,
                               categoryOverrides: map<string, Option<RawJson>>, tenantOverrides: map<string, Option<RawJson>>)

  predicate Matches(patch: PatchTarget, res: Identity, targetNamespace: string) {
    && patch.apiVersion == res.apiVersion && patch.kind == res.kind && patch.name == res.name
    && (patch.namespace == res.namespace || (patch.namespace == "" && res.namespace == targetNamespace))
  }

  /** The patch says precisely what the resource is; one without a namespace may stand for the target's. */
  predicate Names(patch: PatchTarget, res: Identity, targetNamespace: string) {
    var full := if patch.namespace == "" && res.namespace == targetNamespace then patch.(namespace := targetNamespace) else patch;
    full == PatchTarget(res.apiVersion, res.kind, res.name, res.namespace)
  }

  lemma MatchesIff(patch: PatchTarget, res: Identity, targetNamespace: string)
    ensures Matches(patch, res, targetNamespace) <==> Names(patch, res, targetNamespace)
  {
  }

  predicate FirstNamed(patches: seq<Patch>, i: nat, res: Identity, targetNamespace: string)
    requires i < |patches|
  {
    Names(patches[i].target, res, targetNamespace) &&
    forall j :: 0 <= j < i ==> !Names(patches[j].target, res, targetNamespace)
  }

  /** matchProvisioningOverride: the spec of the first patch that names the resource, even a nil one. */
  function MatchPatch(patches: seq<Patch>, res: Identity, targetNamespace: string): (r: Option<RawJson>)
    ensures (forall p | p in patches :: !Names(p.target, res, targetNamespace)) ==> r == None
    ensures forall i :: 0 <= i < |patches| && FirstNamed(patches, i, res, targetNamespace) ==> r == patches[i].spec
  {
    if patches == [] then None
    else if Matches(patches[0].target, res, targetNamespace) then patches[0].spec
    else
      assert forall i :: 0 < i < |patches| && FirstNamed(patches, i, res, targetNamespace) ==>
        FirstNamed(patches[1..], i - 1, res, targetNamespace);
      MatchPatch(patches[1..], res, targetNamespace)
  }

  /** The patch is for something else. */
  predicate IsStray(patch: PatchTarget, res: Identity, targetNamespace: string) {
    || patch.apiVersion != res.apiVersion || patch.kind != res.kind || patch.name != res.name
    || (patch.namespace != res.namespace && patch.namespace != "")
    || (patch.namespace != res.namespace && res.namespace != targetNamespace)
  }

  function Without(patches: seq<Patch>, i: nat): seq<Patch>
    requires i < |patches|
  {
    patches[..i] + patches[i + 1..]
  }

  /** A patch for something else is not found, and hides none that is. */
  lemma {:induction false} StrayIsNotMatched(patches: seq<Patch>, i: nat, res: Identity, targetNamespace: string)
    requires i < |patches| && IsStray(patches[i].target, res, targetNamespace)
    ensures MatchPatch(Without(patches, i), res, targetNamespace) == MatchPatch(patches, res, targetNamespace)
  {
    if i == 0 {
      assert Without(patches, i) == patches[1..];
      MatchesIff(patches[0].target, res, targetNamespace);
    } else {
      StrayIsNotMatched(patches[1..], i - 1, res, targetNamespace);
      WithoutLater(patches, i);
    }
  }

  lemma WithoutLater(patches: seq<Patch>, i: nat)
    requires 0 < i < |patches|
    ensures Without(patches, i)[0] == patches[0] && Without(patches, i)[1..] == Without(patches[1..], i - 1)
  {
  }

  /** Iterating over tenantOverrides in some order, r is what the first matching pattern maps to. */
  predicate IsGlobOverride(patterns: map<string, Option<RawJson>>, glob: (string, string) -> bool, name: string, r: Option<RawJson>) {
    if exists p | p in patterns :: glob(p, name) then exists p | p in patterns :: glob(p, name) && r == patterns[p]
    else r == None
  }

  /** The overrides of a resource for a target, in ascending precedence. */
  predicate AreOverrides(res: Identity, target: Target, category: Option<seq<Patch>>, glob: (string, string) -> bool,
                         overrides: seq<Option<RawJson>>)
  {
    match target
    case PlatformTarget(_) => overrides == []
    case TenantTarget(namespace, name, categoryRef, patches) =>
      && |overrides| == 4
      && overrides[0] == (if categoryRef in res.categoryOverrides then res.categoryOverrides[categoryRef] else None)
      && overrides[1] == (if category.Some? then MatchPatch(category.value, res, namespace) else None)
      && IsGlobOverride(res.tenantOverrides, glob, name, overrides[2])
      && overrides[3] == MatchPatch(patches, res, namespace)
  }

  // ---------- Ambiguous patterns ----------

  /** Whatever depends on the override that the patterns yield is the same for all orders of trying them. */
  ghost predicate SameForAllOrders<T(!new)>(patterns: map<string, Option<RawJson>>, glob: (string, string) -> bool, name: string,
                                            f: Option<RawJson> -> T)
  {
    forall a, b :: IsGlobOverride(patterns, glob, name, a) && IsGlobOverride(patterns, glob, name, b) ==> f(a) == f(b)
  }

  predicate SameForAllMatches<T(!new, ==)>(patterns: map<string, Option<RawJson>>, glob: (string, string) -> bool, name: string,
                                           f: Option<RawJson> -> T)
  {
    forall p, q | p in patterns && q in patterns :: glob(p, name) && glob(q, name) ==> f(patterns[p]) == f(patterns[q])
  }

  lemma OrdersOrMatches<T(!new)>(patterns: map<string, Option<RawJson>>, glob: (string, string) -> bool, name: string, f: Option<RawJson> -> T)
    ensures SameForAllOrders(patterns, glob, name, f) <==> SameForAllMatches(patterns, glob, name, f)
  {
    if SameForAllOrders(patterns, glob, name, f) {
      forall p, q | p in patterns && q in patterns && glob(p, name) && glob(q, name) ensures f(patterns[p]) == f(patterns[q]) {
        assert IsGlobOverride(patterns, glob, name, patterns[p]) && IsGlobOverride(patterns, glob, name, patterns[q]);
      }
    }
  }

  /** The overrides with the pattern p tried first. */
  function OverridesWith(res: Identity, target: Target, category: Option<seq<Patch>>, byName: Option<RawJson>): seq<Option<RawJson>>
    requires target.TenantTarget?
  {
    [if target.categoryRef in res.categoryOverrides then res.categoryOverrides[target.categoryRef] else None,
     if category.Some? then MatchPatch(category.value, res, target.namespace) else None,
     byName,
     MatchPatch(target.patches, res, target.namespace)]
  }

  lemma AreOverridesIff(res: Identity, target: Target, category: Option<seq<Patch>>, glob: (string, string) -> bool, a: seq<Option<RawJson>>)
    requires target.TenantTarget?
    ensures AreOverrides(res, target, category, glob, a) <==>
      |a| == 4 && IsGlobOverride(res.tenantOverrides, glob, target.name, a[2]) && a == OverridesWith(res, target, category, a[2])
  {
    if AreOverrides(res, target, category, glob, a) {
      assert a == [a[0], a[1], a[2], a[3]];
    }
  }

  ghost predicate AreDetermined(res: Identity, target: Target, category: Option<seq<Patch>>, glob: (string, string) -> bool) {
    forall a, b :: AreOverrides(res, target, category, glob, a) && AreOverrides(res, target, category, glob, b) ==> a == b
  }

  /** The overrides do not depend on the order in which the patterns are tried exactly when all that match map to one override. */
  lemma OverridesAreDeterminedIff(res: Identity, target: Target, category: Option<seq<Patch>>, glob: (string, string) -> bool)
    ensures AreDetermined(res, target, category, glob) <==>
      target.PlatformTarget? || SameForAllMatches(res.tenantOverrides, glob, target.name, (o: Option<RawJson>) => o)
  {
    if target.TenantTarget? {
      var same := (o: Option<RawJson>) => o;
      OrdersOrMatches(res.tenantOverrides, glob, target.name, same);
      if AreDetermined(res, target, category, glob) {
        forall a, b | IsGlobOverride(res.tenantOverrides, glob, target.name, a) && IsGlobOverride(res.tenantOverrides, glob, target.name, b)
          ensures a == b
        {
          DeterminedAt(res, target, category, glob, a, b);
        }
        assert SameForAllOrders(res.tenantOverrides, glob, target.name, same);
      }
      if SameForAllOrders(res.tenantOverrides, glob, target.name, same) {
        forall a, b | AreOverrides(res, target, category, glob, a) && AreOverrides(res, target, category, glob, b) ensures a == b {
          AreOverridesIff(res, target, category, glob, a);
          AreOverridesIff(res, target, category, glob, b);
          assert same(a[2]) == same(b[2]);
        }
      }
    }
  }

  lemma DeterminedAt(res: Identity, target: Target, category: Option<seq<Patch>>, glob: (string, string) -> bool,
                     a: Option<RawJson>, b: Option<RawJson>)
    requires target.TenantTarget? && AreDetermined(res, target, category, glob)
    requires IsGlobOverride(res.tenantOverrides, glob, target.name, a) && IsGlobOverride(res.tenantOverrides, glob, target.name, b)
    ensures a == b
  {
    var x, y := OverridesWith(res, target, category, a), OverridesWith(res, target, category, b);
    AreOverridesIff(res, target, category, glob, x);
    AreOverridesIff(res, target, category, glob, y);
    assert x[2] == y[2];
  }

  function FieldsOf(override: Option<RawJson>): Option<Fields> {
    if override.Some? && override.value.Parsed? then Some(override.value.fields) else None
  }

  /** What is at the path once the override is merged onto the base. */
  function ValueWith(base: Fields, override: Option<Fields>, path: seq<string>): Option<string> {
    if DecidedBy(override, path) then ValueAt(override.value, path) else ValueAt(base, path)
  }

  lemma FourMerged(base: Fields, a: Option<Fields>, b: Option<Fields>, c: Option<Fields>, d: Option<Fields>, path: seq<string>)
    ensures ValueAt(MergeAll(base, [a, b, c, d]), path) == if DecidedBy(d, path) then ValueAt(d.value, path) else ValueWith(MergeAll(base, [a, b]), c, path)
  {
    assert [a, b, c, d][..3] == [a, b, c] && [a, b, c][..2] == [a, b];
    if d.Some? {
      MergeAt(MergeAll(base, [a, b, c]), d.value, path);
    }
    if c.Some? {
      MergeAt(MergeAll(base, [a, b]), c.value, path);
    }
  }

  /** What the merged spec has at the path if the given override is the one the patterns yield. */
  function SpecAt(base: Fields, res: Identity, target: Target, category: Option<seq<Patch>>, byName: Option<RawJson>, path: seq<string>): Option<string>
    requires target.TenantTarget?
  {
    var overrides := OverridesWith(res, target, category, byName);
    ValueAt(MergeAll(base, [FieldsOf(overrides[0]), FieldsOf(overrides[1]), FieldsOf(overrides[2]), FieldsOf(overrides[3])]), path)
  }

  /**
   What the merged spec has at a path does not depend on the order in which the patterns are tried exactly
   when the tenant's own patch decides the path, or all matching patterns yield one value there.
   */
  lemma SpecIsDeterminedAtIff(base: Fields, res: Identity, target: Target, category: Option<seq<Patch>>,
                              glob: (string, string) -> bool, path: seq<string>)
    requires target.TenantTarget?
    ensures var others := OverridesWith(res, target, category, None);
      var below := MergeAll(base, [FieldsOf(others[0]), FieldsOf(others[1])]);
      SameForAllOrders(res.tenantOverrides, glob, target.name, o => SpecAt(base, res, target, category, o, path)) <==>
        || DecidedBy(FieldsOf(others[3]), path)
        || SameForAllMatches(res.tenantOverrides, glob, target.name, o => ValueWith(below, FieldsOf(o), path))
  {
    var others := OverridesWith(res, target, category, None);
    var top := FieldsOf(others[3]);
    var below := MergeAll(base, [FieldsOf(others[0]), FieldsOf(others[1])]);
    var f, g := o => SpecAt(base, res, target, category, o, path), o => ValueWith(below, FieldsOf(o), path);
    forall o ensures f(o) == if DecidedBy(top, path) then ValueAt(top.value, path) else g(o) {
      FourMerged(base, FieldsOf(others[0]), FieldsOf(others[1]), FieldsOf(o), top, path);
    }
    OrdersOrMatches(res.tenantOverrides, glob, target.name, g);
    SameForTheSameValues(res.tenantOverrides, glob, target.name, f, g, DecidedBy(top, path));
  }

  lemma SameForTheSameValues<T(!new)>(patterns: map<string, Option<RawJson>>, glob: (string, string) -> bool, name: string,
                                      f: Option<RawJson> -> T, g: Option<RawJson> -> T, constant: bool)
    requires if constant then forall a, b :: f(a) == f(b) else forall o :: f(o) == g(o)
    ensures SameForAllOrders(patterns, glob, name, f) <==> constant || SameForAllOrders(patterns, glob, name, g)
  {
  }

  /** The spec that ApplyTo merges is the one of SpecAt. */
  lemma MergedSpecIsAt(base: Fields, res: Identity, target: Target, category: Option<seq<Patch>>, glob: (string, string) -> bool,
                       overrides: seq<Option<RawJson>>, path: seq<string>)
    requires target.TenantTarget? && AreOverrides(res, target, category, glob, overrides) && WellFormed(overrides)
    ensures ValueAt(MergeAll(base, Fieldwise(overrides)), path) == SpecAt(base, res, target, category, overrides[2], path)
  {
    AreOverridesIff(res, target, category, glob, overrides);
    var o := OverridesWith(res, target, category, overrides[2]);
    assert o == overrides;
    assert forall i :: 0 <= i < 4 ==> overrides[i] in overrides;
    assert Fieldwise(overrides) == [FieldsOf(o[0]), FieldsOf(o[1]), FieldsOf(o[2]), FieldsOf(o[3])];
  }

  predicate WellFormed(overrides: seq<Option<RawJson>>) {
    forall o | o in overrides :: o.Some? ==> o.value.Parsed?
  }

  function Fieldwise(overrides: seq<Option<RawJson>>): (r: seq<Option<Fields>>)
    requires WellFormed(overrides)
    ensures |r| == |overrides|
    ensures forall i :: 0 <= i < |r| ==> (r[i].Some? <==> overrides[i].Some?)
  {
    seq(|overrides|, i requires 0 <= i < |overrides| =>
      assert overrides[i] in overrides; if overrides[i].Some? then Some(overrides[i].value.fields) else None)
  }

  predicate AllNil(overrides: seq<Option<RawJson>>) {
    forall o | o in overrides :: o.None?
  }

  // ---------- Applying them ----------

  /** A provisioning resource as the informers share it between syncs. */
  class Resource {
    /** The name of the Go type. */
    const typeName: string
    const namespace: string
    const name: string
    const categoryOverrides: map<string, Option<RawJson>>
    const tenantOverrides: map<string, Option<RawJson>>
    var apiVersion: string
    var kind: string
    var spec: Fields

    constructor Copy(other: Resource)
      ensures typeName == other.typeName && namespace == other.namespace && name == other.name
      ensures categoryOverrides == other.categoryOverrides && tenantOverrides == other.tenantOverrides
      ensures apiVersion == other.apiVersion && kind == other.kind && spec == other.spec
    {
      typeName, namespace, name := other.typeName, other.namespace, other.name;
      categoryOverrides, tenantOverrides := other.categoryOverrides, other.tenantOverrides;
      apiVersion, kind, spec := other.apiVersion, other.kind, other.spec;
    }

    /** What the resource is identified by once its kind is ensured. */
    function Identified(): Identity
      reads this`apiVersion, this`kind
    {
      if (kind != "" && apiVersion != "") || typeName == "" then Identity(apiVersion, kind, namespace, name, categoryOverrides, tenantOverrides)
      else Identity(SCHEMA_VERSION, typeName, namespace, name, categoryOverrides, tenantOverrides)
    }

    /** ensureResourceGVK. */
    method EnsureKind()
      modifies this`apiVersion, this`kind
      ensures Identified() == old(Identified())
      ensures apiVersion == Identified().apiVersion && kind == Identified().kind
      ensures if typeName != "" && (old(kind) == "" || old(apiVersion) == "") then kind == typeName && apiVersion == "provisioning.totalsoft.ro/v1alpha1"
              else kind == old(kind) && apiVersion == old(apiVersion)
    {
      if kind != "" && apiVersion != "" {
        return;
      }
      if typeName == "" {
        return;
      }
      apiVersion, kind := SCHEMA_VERSION, typeName;
    }
  }

  method FindGlobOverride(patterns: map<string, Option<RawJson>>, glob: (string, string) -> bool, name: string)
    returns (r: Option<RawJson>)
    ensures IsGlobOverride(patterns, glob, name, r)
  {
    var rest := patterns.Keys;
    while rest != {}
      invariant rest <= patterns.Keys && forall p | p in patterns && p !in rest :: !glob(p, name)
      decreases rest
    {
      var p :| p in rest;
      if glob(p, name) {
        return patterns[p];
      }
      rest := rest - {p};
    }
    return None;
  }

  method OverridesFor(res: Resource, target: Target, category: Option<seq<Patch>>, glob: (string, string) -> bool)
    returns (overrides: seq<Option<RawJson>>)
    requires res.apiVersion == res.Identified().apiVersion && res.kind == res.Identified().kind
    ensures AreOverrides(res.Identified(), target, category, glob, overrides)
  {
    if target.PlatformTarget? {
      return [];
    }
    var id := res.Identified();
    var byCategory := if target.categoryRef in res.categoryOverrides then res.categoryOverrides[target.categoryRef] else None;
    var byTenantCategory := if category.Some? then MatchPatch(category.value, id, target.namespace) else None;
    var byName := FindGlobOverride(res.tenantOverrides, glob, target.name);
    overrides := [byCategory, byTenantCategory, byName, MatchPatch(target.patches, id, target.namespace)];
  }

  lemma MergedOneMore(spec: Fields, overrides: seq<Option<RawJson>>, i: nat)
    requires i < |overrides| && WellFormed(overrides[..i]) && (overrides[i].Some? ==> !overrides[i].value.Malformed?)
    ensures WellFormed(overrides[..i + 1])
    ensures var before := MergeAll(spec, Fieldwise(overrides[..i]));
      MergeAll(spec, Fieldwise(overrides[..i + 1])) == if overrides[i].Some? then Merge(before, overrides[i].value.fields) else before
  {
    assert overrides[..i + 1] == overrides[..i] + [overrides[i]];
    assert Fieldwise(overrides[..i + 1])[..i] == Fieldwise(overrides[..i]);
  }

  method MergeOverrides(spec: Fields, overrides: seq<Option<RawJson>>) returns (r: Result<Fields, string>)
    ensures r.Success? <==> WellFormed(overrides)
    ensures r.Success? ==> r.value == MergeAll(spec, Fieldwise(overrides))
  {
    var merged := spec;
    for i := 0 to |overrides|
      invariant WellFormed(overrides[..i]) && merged == MergeAll(spec, Fieldwise(overrides[..i]))
    {
      if overrides[i].Some? {
        if overrides[i].value.Malformed? {
          return Failure("override is not a JSON object");
        }
        merged := Merge(merged, overrides[i].value.fields);
      }
      MergedOneMore(spec, overrides, i);
    }
    assert overrides[..|overrides|] == overrides;
    return Success(merged);
  }

  lemma {:induction false} NothingToMerge(base: Fields, overrides: seq<Option<Fields>>)
    requires forall i :: 0 <= i < |overrides| ==> overrides[i].None?
    ensures MergeAll(base, overrides) == base
  {
    if overrides != [] {
      NothingToMerge(base, overrides[..|overrides| - 1]);
    }
  }

  /** What happened to one resource: its spec before and after, in a copy or in place, and the overrides found for it. */
  datatype Application = Application(id: Identity, before: Fields, after: Fields, copied: bool, overrides: seq<Option<RawJson>>)

  /** after is the spec once the resource's overrides are merged: in a copy, unless there was nothing to merge. */
  ghost predicate Overridden(a: Application, target: Target, category: Option<seq<Patch>>, glob: (string, string) -> bool) {
    && AreOverrides(a.id, target, category, glob, a.overrides)
    && WellFormed(a.overrides)
    && a.after == MergeAll(a.before, Fieldwise(a.overrides))
    && (a.copied <==> exists o :: o in a.overrides && o.Some?)
  }

  /** One of the resource's overrides is malformed, or the merged spec does not fit the resource's type. */
  ghost predicate CannotOverride(id: Identity, before: Fields, target: Target, category: Option<seq<Patch>>,
                                 glob: (string, string) -> bool, decodes: Fields -> bool)
  {
    exists overrides :: AreOverrides(id, target, category, glob, overrides) &&
      (WellFormed(overrides) ==> !AllNil(overrides) && !decodes(MergeAll(before, Fieldwise(overrides))))
  }

  /** The merge of some overrides into a copy's spec, and its decoding. */
  method MergeAndDecode(spec: Fields, overrides: seq<Option<RawJson>>, decodes: Fields -> bool) returns (r: Result<Fields, string>)
    ensures r.Success? <==> WellFormed(overrides) && decodes(MergeAll(spec, Fieldwise(overrides)))
    ensures r.Success? ==> r.value == MergeAll(spec, Fieldwise(overrides))
  {
    r := MergeOverrides(spec, overrides);
    if r.Success? && !decodes(r.value) {
      return Failure("the merged spec does not decode");
    }
  }

  lemma NothingOverridden(id: Identity, spec: Fields, target: Target, category: Option<seq<Patch>>, glob: (string, string) -> bool,
                          overrides: seq<Option<RawJson>>)
    requires AreOverrides(id, target, category, glob, overrides) && AllNil(overrides)
    ensures Overridden(Application(id, spec, spec, false, overrides), target, category, glob)
  {
    assert forall i :: 0 <= i < |overrides| ==> overrides[i] in overrides;
    NothingToMerge(spec, Fieldwise(overrides));
  }

  /**
   What merging makes of a tenant's resource at every path: the tenant's own patch comes first, then the
   override that the tenant's name is given, then the patch of the tenant's category, then the resource's own
   override for that category, and the resource's spec last.
   */
  lemma AppliedAt(a: Application, target: Target, category: Option<seq<Patch>>, glob: (string, string) -> bool, path: seq<string>)
    returns (byName: Option<RawJson>)
    requires Overridden(a, target, category, glob) && target.TenantTarget?
    ensures if exists p :: p in a.id.tenantOverrides && glob(p, target.name)
            then exists p :: p in a.id.tenantOverrides && glob(p, target.name) && byName == a.id.tenantOverrides[p]
            else byName == None
    ensures var byTenant := FieldsOf(MatchPatch(target.patches, a.id, target.namespace));
      var byTenantCategory := FieldsOf(if category.Some? then MatchPatch(category.value, a.id, target.namespace) else None);
      var byCategory := FieldsOf(if target.categoryRef in a.id.categoryOverrides then a.id.categoryOverrides[target.categoryRef] else None);
      ValueAt(a.after, path) ==
        if DecidedBy(byTenant, path) then ValueAt(byTenant.value, path)
        else if DecidedBy(FieldsOf(byName), path) then ValueAt(FieldsOf(byName).value, path)
        else if DecidedBy(byTenantCategory, path) then ValueAt(byTenantCategory.value, path)
        else if DecidedBy(byCategory, path) then ValueAt(byCategory.value, path)
        else ValueAt(a.before, path)
  {
    byName := a.overrides[2];
    AreOverridesIff(a.id, target, category, glob, a.overrides);
    MergedSpecIsAt(a.before, a.id, target, category, glob, a.overrides, path);
    var o := OverridesWith(a.id, target, category, byName);
    FourMerged(a.before, FieldsOf(o[0]), FieldsOf(o[1]), FieldsOf(byName), FieldsOf(o[3]), path);
    TwoMerged(a.before, FieldsOf(o[0]), FieldsOf(o[1]), path);
  }

  lemma TwoMerged(base: Fields, a: Option<Fields>, b: Option<Fields>, path: seq<string>)
    ensures ValueAt(MergeAll(base, [a, b]), path) ==
      if DecidedBy(b, path) then ValueAt(b.value, path) else if DecidedBy(a, path) then ValueAt(a.value, path) else ValueAt(base, path)
  {
    assert [a, b][..1] == [a] && [a][..0] == [];
    assert MergeAll(base, [a]) == if a.Some? then Merge(base, a.value) else base;
    if a.Some? { MergeAt(base, a.value, path); }
    if b.Some? { MergeAt(MergeAll(base, [a]), b.value, path); }
  }

  /** A platform's resources are left as they are. */
  lemma PlatformsHaveNoOverrides(a: Application, target: Target, category: Option<seq<Patch>>, glob: (string, string) -> bool)
    requires Overridden(a, target, category, glob) && target.PlatformTarget?
    ensures a.after == a.before && !a.copied
  {
  }

  /** Removing a patch for something else from a tenant, or from its category, changes nothing of a resource. */
  lemma StrayPatchChangesNothing(a: Application, target: Target, category: Option<seq<Patch>>, glob: (string, string) -> bool, i: nat)
    requires target.TenantTarget?
    ensures i < |target.patches| && IsStray(target.patches[i].target, a.id, target.namespace) ==>
      (Overridden(a, target.(patches := Without(target.patches, i)), category, glob) <==> Overridden(a, target, category, glob))
    ensures category.Some? && i < |category.value| && IsStray(category.value[i].target, a.id, target.namespace) ==>
      (Overridden(a, target, Some(Without(category.value, i)), glob) <==> Overridden(a, target, category, glob))
  {
    if i < |target.patches| && IsStray(target.patches[i].target, a.id, target.namespace) {
      StrayIsNotMatched(target.patches, i, a.id, target.namespace);
    }
    if category.Some? && i < |category.value| && IsStray(category.value[i].target, a.id, target.namespace) {
      StrayIsNotMatched(category.value, i, a.id, target.namespace);
    }
  }

  /** The body of applyTargetOverrides' loop. decodes: the merged spec can be read back into the resource's type. */
  method ApplyTo(res: Resource, target: Target, category: Option<seq<Patch>>, glob: (string, string) -> bool, decodes: Fields -> bool)
    returns (r: Result<Resource, string>, ghost a: Application)
    modifies res`apiVersion, res`kind
    ensures res.Identified() == old(res.Identified())
    ensures r.Success? ==> (r.value == res || fresh(r.value)) && r.value.name == res.name && r.value.namespace == res.namespace
    ensures r.Success? ==> r.value.kind == res.Identified().kind && r.value.apiVersion == res.Identified().apiVersion
    ensures r.Success? ==> Overridden(a, target, category, glob)
    ensures r.Success? ==> a == Application(res.Identified(), res.spec, r.value.spec, r.value != res, a.overrides)
    ensures r.Failure? ==> CannotOverride(res.Identified(), res.spec, target, category, glob, decodes)
  {
    res.EnsureKind();
    var found := OverridesFor(res, target, category, glob);
    a := Application(res.Identified(), res.spec, res.spec, false, found);
    if AllNil(found) {
      NothingOverridden(res.Identified(), res.spec, target, category, glob, found);
      return Success(res), a;
    }
    var merged := MergeAndDecode(res.spec, found, decodes);
    if merged.Failure? {
      return Failure(merged.error), a;
    }
    var clone := new Resource.Copy(res);
    clone.spec := merged.value;
    return Success(clone), a.(after := merged.value, copied := true);
  }

  /** applyTargetOverrides: no spec of a source resource changes, whatever the result. */
  method ApplyTargetOverrides(source: seq<Resource>, target: Target, category: Option<seq<Patch>>,
                              glob: (string, string) -> bool, decodes: Fields -> bool)
    returns (r: Result<seq<Resource>, string>, ghost trace: seq<Application>)
    modifies (set x | x in source)`apiVersion, (set x | x in source)`kind
    ensures forall x | x in source :: x.Identified() == old(x.Identified()) && x.spec == old(x.spec)
    ensures forall a | a in trace :: Overridden(a, target, category, glob)
    ensures r.Success? ==> |r.value| == |source| == |trace|
    ensures r.Success? ==> forall i :: 0 <= i < |source| ==>
      && (r.value[i] == source[i] || fresh(r.value[i]))
      && trace[i] == Application(source[i].Identified(), source[i].spec, r.value[i].spec, r.value[i] != source[i], trace[i].overrides)
    ensures r.Failure? ==> exists x | x in source :: CannotOverride(x.Identified(), x.spec, target, category, glob, decodes)
  {
    ghost var ids, specs, copies := Identities(source), Specs(source), {};
    r, trace, copies := ApplyToEach(source, target, category, glob, decodes, ids, specs);
  }

  /** Overriding one resource leaves all specs and identities as they were. */
  method ApplyAmong(res: Resource, target: Target, category: Option<seq<Patch>>, glob: (string, string) -> bool, decodes: Fields -> bool,
                    ghost source: seq<Resource>, ghost result: seq<Resource>, ghost trace: seq<Application>)
    returns (r: Result<Resource, string>, ghost a: Application)
    requires res in source && Shows(result, trace)
    modifies res`apiVersion, res`kind
    ensures forall x | x in source :: x.Identified() == old(x.Identified()) && x.spec == old(x.spec)
    ensures Shows(result, trace) && (r.Success? ==> r.value == res || fresh(r.value))
    ensures r.Success? ==> Overridden(a, target, category, glob)
    ensures r.Success? ==> a == Application(res.Identified(), res.spec, r.value.spec, r.value != res, a.overrides)
    ensures r.Failure? ==> CannotOverride(res.Identified(), res.spec, target, category, glob, decodes)
  {
    r, a := ApplyTo(res, target, category, glob, decodes);
  }

  /** The loop of applyTargetOverrides. */
  method ApplyToEach(source: seq<Resource>, target: Target, category: Option<seq<Patch>>, glob: (string, string) -> bool,
                     decodes: Fields -> bool, ghost ids: seq<Identity>, ghost specs: seq<Fields>)
    returns (r: Result<seq<Resource>, string>, ghost trace: seq<Application>, ghost copies: set<Resource>)
    requires ids == Identities(source) && specs == Specs(source)
    modifies (set x | x in source)`apiVersion, (set x | x in source)`kind
    ensures forall x | x in source :: x.Identified() == old(x.Identified()) && x.spec == old(x.spec)
    ensures forall a | a in trace :: Overridden(a, target, category, glob)
    ensures r.Success? ==> |r.value| == |source| && fresh(copies) && Recorded(source, ids, specs, r.value, copies, trace) && Shows(r.value, trace)
    ensures r.Failure? ==> exists x | x in source :: CannotOverride(x.Identified(), x.spec, target, category, glob, decodes)
  {
    var result: seq<Resource> := [];
    copies, trace := {}, [];
    for i := 0 to |source|
      invariant forall x | x in source :: x.Identified() == old(x.Identified()) && x.spec == old(x.spec)
      invariant forall a | a in trace :: Overridden(a, target, category, glob)
      invariant |result| == i && fresh(copies) && Recorded(source, ids, specs, result, copies, trace) && Shows(result, trace)
    {
      var applied, a := ApplyAmong(source[i], target, category, glob, decodes, source, result, trace);
      if applied.Failure? {
        return Failure(applied.error), trace, copies;
      }
      ShowsOneMore(result, trace, applied.value, a);
      RecordedOneMore(source, ids, specs, result, copies, trace, applied.value, a);
      result := result + [applied.value];
      copies := copies + if applied.value == source[i] then {} else {applied.value};
      trace := trace + [a];
    }
    return Success(result), trace, copies;
  }

  /** The resources have the specs that the trace says. */
  ghost predicate Shows(resources: seq<Resource>, trace: seq<Application>)
    reads (set x | x in resources)`spec
  {
    |resources| == |trace| && forall j :: 0 <= j < |trace| ==> resources[j].spec == trace[j].after
  }

  lemma ShowsOneMore(resources: seq<Resource>, trace: seq<Application>, last: Resource, a: Application)
    requires Shows(resources, trace) && last.spec == a.after
    ensures Shows(resources + [last], trace + [a])
  {
  }

  ghost function Identities(resources: seq<Resource>): (r: seq<Identity>)
    reads set x | x in resources
    ensures |r| == |resources| && forall i :: 0 <= i < |r| ==> r[i] == resources[i].Identified()
  {
    if resources == [] then [] else Identities(resources[..|resources| - 1]) + [resources[|resources| - 1].Identified()]
  }

  ghost function Specs(resources: seq<Resource>): (r: seq<Fields>)
    reads set x | x in resources
    ensures |r| == |resources| && forall i :: 0 <= i < |r| ==> r[i] == resources[i].spec
  {
    if resources == [] then [] else Specs(resources[..|resources| - 1]) + [resources[|resources| - 1].spec]
  }

  /** Every resource so far was passed on, or replaced by a copy. */
  ghost predicate Recorded(source: seq<Resource>, ids: seq<Identity>, specs: seq<Fields>,
                           result: seq<Resource>, copies: set<Resource>, trace: seq<Application>) {
    && |result| == |trace| <= |source| == |ids| == |specs|
    && (forall j :: 0 <= j < |result| ==> result[j] == source[j] || result[j] in copies)
    && (forall j :: 0 <= j < |trace| ==>
          trace[j].id == ids[j] && trace[j].before == specs[j] && trace[j].copied == (result[j] != source[j]))
  }

  lemma RecordedOneMore(source: seq<Resource>, ids: seq<Identity>, specs: seq<Fields>,
                        result: seq<Resource>, copies: set<Resource>, trace: seq<Application>, last: Resource, a: Application)
    requires Recorded(source, ids, specs, result, copies, trace) && |result| < |source|
    requires var i := |result|; a.id == ids[i] && a.before == specs[i] && a.copied == (last != source[i])
    ensures Recorded(source, ids, specs, result + [last], copies + (if last == source[|result|] then {} else {last}), trace + [a])
  {
  }
}
