/**
 Exported values: which credentials an exports entry picks, under which keys they are published, and
 that none of them is lost on the way.
 */
module Exports {
  import opened Common

  /** The key templates of one value; an empty one means the value does not go there. */
  datatype ValueExport = ValueExport(toConfigMap: string, toKubeSecret: string, toVault: string) {
    function To(d: Destination): string {
      match d
      case ConfigMap => toConfigMap
      case KubeSecret => toKubeSecret
      case Vault => toVault
    }
  }

  datatype Destination = ConfigMap | KubeSecret | Vault

  const NOWHERE := ValueExport("", "", "")

  /** A value paired with where it goes. */
  datatype Exported = Exported(export_: ValueExport, value: string)

  /** text/template: the rendered text, or an error. */
  type Renderer = string -> Option<string>

  // ---------- Value keys ----------

  datatype ListKind = Users | Identities
  datatype Part = First | Second

  /** Names a value while its exports entry is processed; never published. */
  datatype ValueKey = DbName | Single(list: ListKind, part: Part) | Item(list: ListKind, index: nat, part: Part)

  function PartName(list: ListKind, part: Part): string {
    match list
    case Users => if part.First? then "username" else "password"
    case Identities => if part.First? then "identityClientId" else "identityPrincipalId"
  }

  function ListName(list: ListKind): string {
    if list.Users? then "users" else "identities"
  }

  function Digit(d: nat): char
    requires d < 10
  {
    "0123456789"[d]
  }

  function Itoa(n: nat): string {
    if n < 10 then [Digit(n)] else Itoa(n / 10) + [Digit(n % 10)]
  }

  function Text(k: ValueKey): string {
    match k
    case DbName => "dbName"
    case Single(list, part) => PartName(list, part)
    case Item(list, index, part) => (ListName(list) + "[") + Itoa(index) + ("]." + PartName(list, part))
  }

  lemma {:induction false} ItoaIsInjective(m: nat, n: nat)
    requires Itoa(m) == Itoa(n)
    ensures m == n
  {
    assert Itoa(m)[|Itoa(m)| - 1] == Itoa(n)[|Itoa(n)| - 1];
    assert m % 10 == n % 10;
    assert m < 10 <==> |Itoa(m)| == 1;
    assert n < 10 <==> |Itoa(n)| == 1;
    if m >= 10 {
      assert Itoa(m)[..|Itoa(m)| - 1] == Itoa(m / 10) && Itoa(n)[..|Itoa(n)| - 1] == Itoa(n / 10);
      ItoaIsInjective(m / 10, n / 10);
    }
  }

  lemma PartsAreTold(list: ListKind, a: Part, b: Part, p: string, q: string)
    requires p + PartName(list, a) == q + PartName(list, b)
    ensures a == b && p == q
  {
    var s := p + PartName(list, a);
    var x, y := PartName(list, a), PartName(list, b);
    assert s[|s| - 3] == x[|x| - 3] == y[|y| - 3];
    assert "username"[5] == 'a' && "password"[5] == 'o';
    assert "identityClientId"[13] == 't' && "identityPrincipalId"[16] == 'l';
    assert a == b;
    assert s[..|s| - |x|] == p && s[..|s| - |y|] == q;
  }

  lemma Bracketed(head: string, x: string, y: string, sep: string, p: string, q: string)
    ensures head + x + (sep + p) == ((head + x) + sep) + p
    ensures (head + x) + sep == (head + y) + sep ==> x == y
  {
    var s := (head + x) + sep;
    assert s[|head|..|s| - |sep|] == x;
    assert (head + y) + sep == s ==> s[|head|..|s| - |sep|] == y;
  }

  lemma ItemsAreDistinct(list: ListKind, i: nat, j: nat, a: Part, b: Part)
    requires Text(Item(list, i, a)) == Text(Item(list, j, b))
    ensures i == j && a == b
  {
    var head, x, y := ListName(list) + "[", Itoa(i), Itoa(j);
    Bracketed(head, x, y, "].", PartName(list, a), PartName(list, b));
    Bracketed(head, y, x, "].", PartName(list, b), PartName(list, a));
    PartsAreTold(list, a, b, (head + x) + "].", (head + y) + "].");
    ItoaIsInjective(i, j);
  }

  /** No two values share a value key, whatever lists they come from. */
  lemma TextsAreDistinct(a: ValueKey, b: ValueKey)
    requires Text(a) == Text(b)
    ensures a == b
  {
    assert Text(a)[0] == Text(b)[0] && Text(a)[5] == Text(b)[5];
    assert |Text(a)| > 8 ==> Text(a)[8] == Text(b)[8];
    if a.Item? && b.Item? {
      ItemsAreDistinct(a.list, a.index, b.index, a.part, b.part);
    }
  }

  // ---------- Picking credentials ----------

  /** A deployed user (username, password) or identity (client id, principal id). */
  datatype Deployed = Deployed(first: string, second: string)

  datatype Entry = Entry(ref: string, first: ValueExport, second: ValueExport) {
    predicate Empty() {
      first == NOWHERE && second == NOWHERE
    }
  }

  /** The deprecated single fields of an exports entry, and its list. */
  datatype Picks = Picks(single: Entry, items: seq<Entry>) {
    predicate UsesSingle() {
      single.ref != "" || !single.Empty()
    }
  }

  type Values = map<string, Exported>

  predicate UniqueNames(names: seq<string>) {
    "" !in names && forall i, j :: 0 <= i < j < |names| ==> names[i] != names[j]
  }

  method ValidateUniqueNames(names: seq<string>) returns (ok: bool)
    ensures ok <==> UniqueNames(names)
  {
    var seen: set<string> := {};
    for i := 0 to |names|
      invariant UniqueNames(names[..i]) && seen == set n | n in names[..i]
    {
      assert names[..i + 1] == names[..i] + [names[i]];
      if names[i] == "" {
        return false;
      }
      if names[i] in seen {
        var j :| 0 <= j < i && names[..i][j] == names[i];
        assert names[j] == names[i];
        return false;
      }
      seen := seen + {names[i]};
    }
    assert names[..|names|] == names;
    return true;
  }

  /** The loop that deploys users or identities and keeps them by name: with unique names nobody is lost. */
  method IndexByName(names: seq<string>, deployed: seq<Deployed>) returns (byName: map<string, Deployed>)
    requires |names| == |deployed|
    ensures forall n :: n in byName <==> n in names
    ensures UniqueNames(names) ==> forall i :: 0 <= i < |names| ==> byName[names[i]] == deployed[i]
  {
    byName := map[];
    for i := 0 to |names|
      invariant forall n :: n in byName <==> n in names[..i]
      invariant UniqueNames(names) ==> forall j :: 0 <= j < i ==> byName[names[j]] == deployed[j]
    {
      assert names[..i + 1] == names[..i] + [names[i]];
      byName := byName[names[i] := deployed[i]];
    }
    assert names[..|names|] == names;
  }

  /** The name a reference stands for: itself, or the only one there is when it is empty. */
  predicate Resolves(byName: map<string, Deployed>, ref: string, name: string) {
    if ref == "" then byName.Keys == {name} else name == ref && ref in byName
  }

  /** resolveRefName. */
  method ResolveRefName(byName: map<string, Deployed>, ref: string) returns (name: Option<string>)
    ensures forall n :: name == Some(n) <==> Resolves(byName, ref, n)
    ensures name.Some? ==> name.value in byName
  {
    if ref == "" {
      if |byName| == 1 {
        var n :| n in byName;
        OnlyKey(byName.Keys, n);
        return Some(n);
      }
      forall n ensures byName.Keys != {n} {
        assert |{n}| == 1;
      }
      return None;
    }
    return if ref in byName then Some(ref) else None;
  }

  lemma OnlyKey(names: set<string>, n: string)
    requires n in names && |names| == 1
    ensures names == {n}
  {
    assert |names - {n}| == 0;
  }

  /** The entries of an exports entry that pick something, in order. */
  function Slots(p: Picks): seq<Entry> {
    (if p.UsesSingle() then [p.single] else []) + p.items
  }

  /** names is who the first slots pick: their references resolve, and nobody is picked twice. */
  ghost predicate PicksSoFar(byName: map<string, Deployed>, p: Picks, names: seq<string>) {
    && |names| <= |Slots(p)|
    && (forall i :: 0 <= i < |names| ==> Resolves(byName, Slots(p)[i].ref, names[i]) && names[i] in byName)
    && (forall i, j :: 0 <= i < j < |names| ==> names[i] != names[j])
  }

  /** names is who all slots pick, and no item picks nothing. */
  ghost predicate PicksEachOnce(byName: map<string, Deployed>, p: Picks, names: seq<string>) {
    PicksSoFar(byName, p, names) && |names| == |Slots(p)| && NoneEmpty(p.items)
  }

  function PickedValue(byName: map<string, Deployed>, e: Entry, name: string, part: Part): Exported
    requires name in byName
  {
    if part.First? then Exported(e.first, byName[name].first) else Exported(e.second, byName[name].second)
  }

  /** The values the first slots of a list add, by value key. */
  ghost function Picked(byName: map<string, Deployed>, list: ListKind, p: Picks, names: seq<string>): map<ValueKey, Exported>
    requires PicksSoFar(byName, p, names)
  {
    if names == [] then map[]
    else
      var n := |names| - 1;
      var e := Slots(p)[n];
      Picked(byName, list, p, names[..n])
        [KeyOfSlot(list, p, n, First) := PickedValue(byName, e, names[n], First)]
        [KeyOfSlot(list, p, n, Second) := PickedValue(byName, e, names[n], Second)]
  }

  function KeyOfSlot(list: ListKind, p: Picks, slot: nat, part: Part): ValueKey {
    if !p.UsesSingle() then Item(list, slot, part)
    else if slot == 0 then Single(list, part) else Item(list, slot - 1, part)
  }

  /** values is base with the given values added under the texts of their keys. */
  ghost predicate Holding(values: Values, base: Values, added: map<ValueKey, Exported>) {
    && (forall t :: t in values <==> t in base || exists k :: k in added && Text(k) == t)
    && (forall k :: k in added ==> values[Text(k)] == added[k])
    && (forall t :: t in base && (forall k :: k in added ==> Text(k) != t) ==> values[t] == base[t])
  }

  lemma HoldingOneMore(values: Values, base: Values, added: map<ValueKey, Exported>, k: ValueKey, v: Exported)
    requires Holding(values, base, added)
    ensures Holding(values[Text(k) := v], base, added[k := v])
  {
    OneHeld(values, k, v);
    PlusOne(added, k, v);
    HoldingBoth(values[Text(k) := v], values, base, added, map[k := v]);
  }

  lemma PlusOne(added: map<ValueKey, Exported>, k: ValueKey, v: Exported)
    ensures added + map[k := v] == added[k := v]
  {
  }

  lemma OneHeld(base: Values, k: ValueKey, v: Exported)
    ensures Holding(base[Text(k) := v], base, map[k := v])
  {
    assert k in map[k := v];
  }

  lemma HoldingBoth(out: Values, mid: Values, base: Values, a: map<ValueKey, Exported>, b: map<ValueKey, Exported>)
    requires Holding(mid, base, a) && Holding(out, mid, b)
    ensures Holding(out, base, a + b)
  {
    forall t ensures t in out <==> t in base || exists k :: k in a + b && Text(k) == t {
      TextsOfBoth(a, b, t);
    }
    forall k | k in a + b ensures out[Text(k)] == (a + b)[k] {
      ValueOfBoth(out, mid, base, a, b, k);
    }
    assert forall k :: k in a || k in b ==> k in a + b;
  }

  lemma ValueOfBoth(out: Values, mid: Values, base: Values, a: map<ValueKey, Exported>, b: map<ValueKey, Exported>, k: ValueKey)
    requires Holding(mid, base, a) && Holding(out, mid, b) && k in a + b
    ensures Text(k) in out && out[Text(k)] == (a + b)[k]
  {
    if k !in b {
      forall j | j in b ensures Text(j) != Text(k) {
        if Text(j) == Text(k) {
          TextsAreDistinct(j, k);
        }
      }
    }
  }

  lemma TextsOfBoth(a: map<ValueKey, Exported>, b: map<ValueKey, Exported>, t: string)
    ensures (exists k :: k in a + b && Text(k) == t) <==> (exists k :: k in a && Text(k) == t) || exists k :: k in b && Text(k) == t
  {
    if k :| k in a && Text(k) == t {
      assert k in a + b;
    }
    if k :| k in b && Text(k) == t {
      assert k in a + b;
    }
  }

  /** Who the first slots pick is settled, so a slot that cannot follow them never can. */
  lemma PicksAreSettled(byName: map<string, Deployed>, p: Picks, names: seq<string>, others: seq<string>)
    requires PicksSoFar(byName, p, names) && PicksEachOnce(byName, p, others)
    ensures others[..|names|] == names
  {
    forall i | 0 <= i < |names| ensures others[i] == names[i] {
      var ref := Slots(p)[i].ref;
      assert Resolves(byName, ref, names[i]) && Resolves(byName, ref, others[i]);
      if ref == "" {
        assert names[i] in {others[i]};
      }
    }
  }

  lemma NextPickIsFree(byName: map<string, Deployed>, p: Picks, names: seq<string>, others: seq<string>)
    requires PicksSoFar(byName, p, names) && PicksEachOnce(byName, p, others) && |names| < |others|
    ensures var next := others[|names|]; Resolves(byName, Slots(p)[|names|].ref, next) && next !in names
  {
    PicksAreSettled(byName, p, names, others);
    assert forall i :: 0 <= i < |names| ==> names[i] == others[i];
  }

  /** out is base with what the named entries of the first slots export. */
  ghost predicate AddedSoFar(list: ListKind, base: Values, out: Values, byName: map<string, Deployed>, p: Picks,
                             names: seq<string>, exported: set<string>) {
    && PicksSoFar(byName, p, names)
    && exported == (set n | n in names)
    && Holding(out, base, Picked(byName, list, p, names))
  }

  predicate NoneEmpty(items: seq<Entry>) {
    forall e :: e in items ==> !e.Empty()
  }

  lemma NobodyFits(byName: map<string, Deployed>, p: Picks, names: seq<string>, found: Option<string>)
    requires PicksSoFar(byName, p, names) && |names| < |Slots(p)|
    requires forall n :: found == Some(n) <==> Resolves(byName, Slots(p)[|names|].ref, n)
    requires found.None? || found.value in names
    ensures Unpickable(byName, p)
  {
    forall others ensures !PicksEachOnce(byName, p, others) {
      if PicksEachOnce(byName, p, others) {
        NextPickIsFree(byName, p, names, others);
      }
    }
  }

  lemma PicksOneMore(byName: map<string, Deployed>, p: Picks, names: seq<string>, name: string)
    requires PicksSoFar(byName, p, names) && |names| < |Slots(p)|
    requires Resolves(byName, Slots(p)[|names|].ref, name) && name in byName && name !in names
    ensures PicksSoFar(byName, p, names + [name])
  {
  }

  /** No choice of names does what the entries ask for. */
  ghost predicate Unpickable(byName: map<string, Deployed>, p: Picks) {
    forall names :: !PicksEachOnce(byName, p, names)
  }

  lemma SlotIsAdded(list: ListKind, base: Values, values: Values, byName: map<string, Deployed>, p: Picks,
                    names: seq<string>, exported: set<string>, name: string)
    requires AddedSoFar(list, base, values, byName, p, names, exported) && |names| < |Slots(p)|
    requires Resolves(byName, Slots(p)[|names|].ref, name) && name in byName && name !in names
    ensures var slot := |names|;
      AddedSoFar(list, base,
        values[Text(KeyOfSlot(list, p, slot, First)) := PickedValue(byName, Slots(p)[slot], name, First)]
              [Text(KeyOfSlot(list, p, slot, Second)) := PickedValue(byName, Slots(p)[slot], name, Second)],
        byName, p, names + [name], exported + {name})
  {
    var slot := |names|;
    var e := Slots(p)[slot];
    var first, second := KeyOfSlot(list, p, slot, First), KeyOfSlot(list, p, slot, Second);
    var v, w := PickedValue(byName, e, name, First), PickedValue(byName, e, name, Second);
    var added := Picked(byName, list, p, names);
    PicksOneMore(byName, p, names, name);
    PickedOneMore(byName, list, p, names, name);
    HoldingOneMore(values, base, added, first, v);
    HoldingOneMore(values[Text(first) := v], base, added[first := v], second, w);
  }

  lemma PickedOneMore(byName: map<string, Deployed>, list: ListKind, p: Picks, names: seq<string>, name: string)
    requires PicksSoFar(byName, p, names) && PicksSoFar(byName, p, names + [name])
    ensures var slot := |names|;
      Picked(byName, list, p, names + [name]) ==
        Picked(byName, list, p, names)[KeyOfSlot(list, p, slot, First) := PickedValue(byName, Slots(p)[slot], name, First)]
                                      [KeyOfSlot(list, p, slot, Second) := PickedValue(byName, Slots(p)[slot], name, Second)]
  {
    assert (names + [name])[..|names|] == names;
  }

  /** The part addUserExports and addIdentityExports do for each entry, the single fields included. */
  method AddSlot(list: ListKind, ghost base: Values, values: Values, byName: map<string, Deployed>, p: Picks,
                 ghost names: seq<string>, slot: nat, exported: set<string>)
    returns (name: Option<string>, out: Values)
    requires slot < |Slots(p)| && |names| == slot && AddedSoFar(list, base, values, byName, p, names, exported)
    ensures name.None? ==> Unpickable(byName, p)
    ensures name.Some? ==> AddedSoFar(list, base, out, byName, p, names + [name.value], exported + {name.value})
  {
    var e := Slots(p)[slot];
    name := ResolveRefName(byName, e.ref);
    if name.None? || name.value in exported {
      NobodyFits(byName, p, names, name);
      return None, values;
    }
    SlotIsAdded(list, base, values, byName, p, names, exported, name.value);
    out := values[Text(KeyOfSlot(list, p, slot, First)) := PickedValue(byName, e, name.value, First)]
                 [Text(KeyOfSlot(list, p, slot, Second)) := PickedValue(byName, e, name.value, Second)];
  }

  /** out is base with what the entries export. */
  ghost predicate Added(list: ListKind, base: Values, out: Values, byName: map<string, Deployed>, p: Picks) {
    exists names :: PicksEachOnce(byName, p, names) && Holding(out, base, Picked(byName, list, p, names))
  }

  lemma AllSlotsAdded(list: ListKind, base: Values, out: Values, byName: map<string, Deployed>, p: Picks,
                      names: seq<string>, exported: set<string>)
    requires AddedSoFar(list, base, out, byName, p, names, exported) && |names| == |Slots(p)| && NoneEmpty(p.items)
    ensures Added(list, base, out, byName, p) && !Unpickable(byName, p)
  {
    assert PicksEachOnce(byName, p, names);
  }

  lemma EmptyItemIsUnpickable(byName: map<string, Deployed>, p: Picks, i: nat)
    requires i < |p.items| && p.items[i].Empty()
    ensures Unpickable(byName, p)
  {
    assert p.items[i] in p.items;
  }

  /** addUserExports and addIdentityExports. */
  method AddExports(list: ListKind, values: Values, byName: map<string, Deployed>, p: Picks) returns (result: Option<Values>)
    ensures result.None? <==> Unpickable(byName, p)
    ensures result.Some? ==> Added(list, values, result.value, byName, p)
  {
    var exported: set<string> := {};
    var out := values;
    ghost var names: seq<string> := [];
    NothingAddedYet(list, values, byName, p);
    if p.UsesSingle() {
      var name;
      name, out := AddSlot(list, values, out, byName, p, names, 0, exported);
      if name.None? {
        return None;
      }
      exported, names := {name.value}, [name.value];
      assert [] + [name.value] == names && {} + {name.value} == exported;
    }
    result, names, exported := AddItems(list, values, out, byName, p, names, exported);
    if result.Some? {
      AllSlotsAdded(list, values, result.value, byName, p, names, exported);
    }
  }

  lemma NothingAddedYet(list: ListKind, values: Values, byName: map<string, Deployed>, p: Picks)
    ensures AddedSoFar(list, values, values, byName, p, [], {})
  {
  }

  /** The loop over the items. */
  method AddItems(list: ListKind, ghost base: Values, values: Values, byName: map<string, Deployed>, p: Picks,
                  ghost single: seq<string>, picked: set<string>)
    returns (result: Option<Values>, ghost names: seq<string>, exported: set<string>)
    requires |single| == (if p.UsesSingle() then 1 else 0) && AddedSoFar(list, base, values, byName, p, single, picked)
    ensures result.None? ==> Unpickable(byName, p)
    ensures result.Some? ==>
      AddedSoFar(list, base, result.value, byName, p, names, exported) && |names| == |Slots(p)| && NoneEmpty(p.items)
  {
    var out := values;
    names, exported := single, picked;
    for i := 0 to |p.items|
      invariant |names| == |single| + i && AddedSoFar(list, base, out, byName, p, names, exported)
      invariant NoneEmpty(p.items[..i])
    {
      var name;
      name, out := AddItem(list, base, out, byName, p, names, i, exported);
      if name.None? {
        return None, names, exported;
      }
      exported, names := exported + {name.value}, names + [name.value];
      NoneEmptyOneMore(p.items, i);
    }
    assert p.items[..|p.items|] == p.items;
    return Some(out), names, exported;
  }

  lemma NoneEmptyOneMore(items: seq<Entry>, i: nat)
    requires i < |items| && NoneEmpty(items[..i]) && !items[i].Empty()
    ensures NoneEmpty(items[..i + 1])
  {
    assert items[..i + 1] == items[..i] + [items[i]];
  }

  /** The body of the loop over the items. */
  method AddItem(list: ListKind, ghost base: Values, values: Values, byName: map<string, Deployed>, p: Picks,
                 ghost names: seq<string>, i: nat, exported: set<string>)
    returns (name: Option<string>, out: Values)
    requires i < |p.items| && |names| == i + (if p.UsesSingle() then 1 else 0)
    requires AddedSoFar(list, base, values, byName, p, names, exported)
    ensures name.None? ==> Unpickable(byName, p)
    ensures name.Some? ==> !p.items[i].Empty() && AddedSoFar(list, base, out, byName, p, names + [name.value], exported + {name.value})
  {
    if p.items[i].Empty() {
      EmptyItemIsUnpickable(byName, p, i);
      return None, values;
    }
    name, out := AddSlot(list, base, values, byName, p, names, (if p.UsesSingle() then 1 else 0) + i, exported);
  }

  // ---------- Checking and publishing ----------

  /** onlyConfigMapValues, onlyKubeSecretValues, onlyVaultValues. */
  function Only(values: Values, d: Destination): Values {
    map t | t in values && values[t].export_.To(d) != "" :: values[t]
  }

  /** The published key of a value, and whether it has one. */
  function Rendered(v: Exported, render: Renderer, d: Destination): Option<string> {
    render(v.export_.To(d))
  }

  /** Every value that goes to d has a key there, of its own and not empty. */
  ghost predicate KeysAreSound(values: Values, render: Renderer, d: Destination) {
    var only := Only(values, d);
    NoKeyIsMissing(only, render, d) && InjectiveOn(only.Keys, KeyOf(only, render, d))
  }

  ghost predicate NoKeyIsMissing(only: Values, render: Renderer, d: Destination) {
    forall t :: t in only ==> Rendered(only[t], render, d).Some? && Rendered(only[t], render, d).value != ""
  }

  ghost predicate InjectiveOn<T(!new)>(keys: set<T>, f: T -> string) {
    forall t, u :: t in keys && u in keys && f(t) == f(u) ==> t == u
  }

  function KeyOf(only: Values, render: Renderer, d: Destination): string -> string {
    t => if t in only && Rendered(only[t], render, d).Some? then Rendered(only[t], render, d).value else ""
  }

  /** rendered maps the key of every value in done back to that value. */
  ghost predicate RenderedSoFar(only: Values, render: Renderer, d: Destination, done: set<string>, rendered: map<string, string>) {
    && done <= only.Keys
    && (forall t :: t in done ==>
          var key := Rendered(only[t], render, d);
          key.Some? && key.value != "" && key.value in rendered && rendered[key.value] == t)
    && (forall key :: key in rendered ==>
          rendered[key] in done && Rendered(only[rendered[key]], render, d) == Some(key))
  }

  lemma AllRenderedIsSound(values: Values, render: Renderer, d: Destination, rendered: map<string, string>)
    requires RenderedSoFar(Only(values, d), render, d, Only(values, d).Keys, rendered)
    ensures KeysAreSound(values, render, d)
  {
  }

  lemma SharedKeyIsUnsound(values: Values, render: Renderer, d: Destination, t: string, u: string)
    requires t in Only(values, d) && u in Only(values, d) && t != u
    requires Rendered(values[t], render, d) == Rendered(values[u], render, d)
    ensures !KeysAreSound(values, render, d)
  {
    var f := KeyOf(Only(values, d), render, d);
    assert f(t) == f(u);
  }

  /** One destination of validateExportKeys. The order of the values only decides which error is reported. */
  method ValidateDestination(values: Values, render: Renderer, d: Destination) returns (ok: bool)
    ensures ok <==> KeysAreSound(values, render, d)
  {
    var only := Only(values, d);
    var rendered: map<string, string> := map[];
    var rest := only.Keys;
    while rest != {}
      invariant rest <= only.Keys && RenderedSoFar(only, render, d, only.Keys - rest, rendered)
      decreases |rest|
    {
      var t :| t in rest;
      var key := Rendered(only[t], render, d);
      if key.None? || key.value == "" {
        return false;
      }
      if key.value in rendered {
        SharedKeyIsUnsound(values, render, d, t, rendered[key.value]);
        return false;
      }
      rendered := rendered[key.value := t];
      rest := rest - {t};
    }
    AllRenderedIsSound(values, render, d, rendered);
    return true;
  }

  ghost predicate KeysAreSoundEverywhere(values: Values, render: Renderer) {
    KeysAreSound(values, render, ConfigMap) && KeysAreSound(values, render, KubeSecret) && KeysAreSound(values, render, Vault)
  }

  method ValidateExportKeys(values: Values, render: Renderer) returns (ok: bool)
    ensures ok <==> KeysAreSoundEverywhere(values, render)
  {
    ok := ValidateDestination(values, render, ConfigMap);
    if ok {
      ok := ValidateDestination(values, render, KubeSecret);
    }
    if ok {
      ok := ValidateDestination(values, render, Vault);
    }
  }

  /** The object published to d: the rendered keys, each with a value that renders it. */
  ghost predicate IsPublished(only: Values, render: Renderer, d: Destination, object_: map<string, string>) {
    && (forall t :: t in only ==> Rendered(only[t], render, d).Some? && Rendered(only[t], render, d).value in object_)
    && (forall key :: key in object_ ==>
          exists t :: t in only && Rendered(only[t], render, d) == Some(key) && only[t].value == object_[key])
  }

  method ParseKeys(only: Values, render: Renderer, d: Destination) returns (parsedKeys: Option<map<string, string>>)
    ensures parsedKeys.None? <==> exists t :: t in only && Rendered(only[t], render, d).None?
    ensures parsedKeys.Some? ==> parsedKeys.value.Keys == only.Keys
    ensures parsedKeys.Some? ==> forall t :: t in only ==> Rendered(only[t], render, d) == Some(parsedKeys.value[t])
  {
    var parsed: map<string, string> := map[];
    var rest := only.Keys;
    while rest != {}
      invariant rest <= only.Keys && parsed.Keys == only.Keys - rest
      invariant forall t :: t in parsed ==> Rendered(only[t], render, d) == Some(parsed[t])
      decreases |rest|
    {
      var t :| t in rest;
      var key := Rendered(only[t], render, d);
      if key.None? {
        return None;
      }
      parsed := parsed[t := key.value];
      rest := rest - {t};
    }
    return Some(parsed);
  }

  /** exportToConfigMap, exportToKubeSecret and exportToVault: loops over Go maps, each in any order. */
  method Publish(only: Values, render: Renderer, d: Destination) returns (object_: Option<map<string, string>>)
    ensures object_.None? <==> exists t :: t in only && Rendered(only[t], render, d).None?
    ensures object_.Some? ==> IsPublished(only, render, d, object_.value)
  {
    var parsedKeys := ParseKeys(only, render, d);
    if parsedKeys.None? {
      return None;
    }
    var m: map<string, string> := map[];
    var rest := only.Keys;
    while rest != {}
      invariant rest <= only.Keys
      invariant IsPublished(Without(only, rest), render, d, m)
      decreases |rest|
    {
      var t :| t in rest;
      PublishedOneMore(only, rest, render, d, m, t);
      m := m[parsedKeys.value[t] := only[t].value];
      rest := rest - {t};
    }
    assert Without(only, rest) == only;
    return Some(m);
  }

  function Without(only: Values, rest: set<string>): Values {
    map t | t in only && t !in rest :: only[t]
  }

  lemma PublishedOneMore(only: Values, rest: set<string>, render: Renderer, d: Destination, m: map<string, string>, t: string)
    requires IsPublished(Without(only, rest), render, d, m) && t in only && t in rest && Rendered(only[t], render, d).Some?
    ensures IsPublished(Without(only, rest - {t}), render, d, m[Rendered(only[t], render, d).value := only[t].value])
  {
    var key := Rendered(only[t], render, d).value;
    var m', done, done' := m[key := only[t].value], Without(only, rest), Without(only, rest - {t});
    forall u | u in done' ensures Rendered(done'[u], render, d).Some? && Rendered(done'[u], render, d).value in m' {
      assert u != t ==> u in done;
    }
    forall other | other in m'
      ensures exists u :: u in done' && Rendered(done'[u], render, d) == Some(other) && done'[u].value == m'[other]
    {
      var u := PublishedFrom(only, rest, render, d, m, t, other);
    }
  }

  lemma PublishedFrom(only: Values, rest: set<string>, render: Renderer, d: Destination, m: map<string, string>, t: string, key: string)
    returns (u: string)
    requires IsPublished(Without(only, rest), render, d, m) && t in only && t in rest && Rendered(only[t], render, d).Some?
    requires key in m || key == Rendered(only[t], render, d).value
    ensures u in Without(only, rest - {t}) && Rendered(only[u], render, d) == Some(key)
    ensures only[u].value == m[Rendered(only[t], render, d).value := only[t].value][key]
  {
    if key == Rendered(only[t], render, d).value {
      u := t;
    } else {
      u :| u in Without(only, rest) && Rendered(only[u], render, d) == Some(key) && only[u].value == m[key];
    }
  }

  // ---------- Nothing is lost ----------

  /** One non-empty key per value, holding that value, and no other keys. */
  ghost predicate Lossless(values: Values, render: Renderer, d: Destination, object_: map<string, string>) {
    var only := Only(values, d);
    && |object_| == |only|
    && forall t :: t in only ==>
         var key := Rendered(only[t], render, d);
         key.Some? && key.value != "" && key.value in object_ && object_[key.value] == only[t].value
  }

  function Images<T(!new)>(keys: set<T>, f: T -> string): set<string> {
    set t | t in keys :: f(t)
  }

  lemma {:induction false} ImagesCount<T(!new)>(keys: set<T>, f: T -> string)
    ensures |Images(keys, f)| <= |keys|
    ensures |Images(keys, f)| == |keys| <==> InjectiveOn(keys, f)
  {
    if keys != {} {
      var t :| t in keys;
      var rest := keys - {t};
      ImagesCount(rest, f);
      if f(t) in Images(rest, f) {
        assert Images(keys, f) == Images(rest, f);
      } else {
        assert Images(keys, f) == Images(rest, f) + {f(t)};
      }
    }
  }

  lemma PublishedKeys(only: Values, render: Renderer, d: Destination, object_: map<string, string>)
    requires IsPublished(only, render, d, object_)
    ensures object_.Keys == Images(only.Keys, KeyOf(only, render, d))
    ensures |object_| == |only| <==> InjectiveOn(only.Keys, KeyOf(only, render, d))
  {
    var f := KeyOf(only, render, d);
    ImagesCount(only.Keys, f);
    assert object_.Keys == Images(only.Keys, f) by {
      forall key | key in object_ ensures key in Images(only.Keys, f) {
        var t :| t in only && Rendered(only[t], render, d) == Some(key);
        assert f(t) == key;
      }
    }
    assert |object_| == |object_.Keys| && |only| == |only.Keys|;
  }

  lemma SoundIsLossless(only: Values, render: Renderer, d: Destination, object_: map<string, string>, t: string)
    requires IsPublished(only, render, d, object_) && t in only
    requires NoKeyIsMissing(only, render, d) && InjectiveOn(only.Keys, KeyOf(only, render, d))
    ensures object_[Rendered(only[t], render, d).value] == only[t].value
  {
    var f, key := KeyOf(only, render, d), Rendered(only[t], render, d).value;
    var u :| u in only && Rendered(only[u], render, d) == Some(key) && only[u].value == object_[key];
    assert f(t) == f(u);
  }

  /** Whatever order the maps are walked in, a published object loses nothing exactly when the check accepts the keys. */
  lemma LosslessIffSound(values: Values, render: Renderer, d: Destination, object_: map<string, string>)
    requires IsPublished(Only(values, d), render, d, object_)
    ensures Lossless(values, render, d, object_) <==> KeysAreSound(values, render, d)
  {
    PublishedKeys(Only(values, d), render, d, object_);
    if KeysAreSound(values, render, d) {
      SoundKeysAreLossless(values, render, d, object_);
    }
  }

  lemma SoundKeysAreLossless(values: Values, render: Renderer, d: Destination, object_: map<string, string>)
    requires IsPublished(Only(values, d), render, d, object_) && KeysAreSound(values, render, d)
    ensures Lossless(values, render, d, object_)
  {
    var only := Only(values, d);
    PublishedKeys(only, render, d, object_);
    forall t | t in only ensures object_[Rendered(only[t], render, d).value] == only[t].value {
      SoundIsLossless(only, render, d, object_, t);
    }
  }

  // ---------- One exports entry ----------

  type Objects = map<Destination, map<string, string>>

  /** all is what the entry exports: the database name and the credentials it picks, nobody twice. */
  ghost predicate Exporting(db: Exported, users: map<string, Deployed>, userPicks: Picks,
                            identities: map<string, Deployed>, identityPicks: Picks, all: map<ValueKey, Exported>) {
    exists u, i :: PicksEachOnce(users, userPicks, u) && PicksEachOnce(identities, identityPicks, i) &&
      all == map[DbName := db] + Picked(users, Users, userPicks, u) + Picked(identities, Identities, identityPicks, i)
  }

  function RoutedTo(all: map<ValueKey, Exported>, d: Destination): set<ValueKey> {
    set k | k in all && all[k].export_.To(d) != ""
  }

  /** The object of d has one non-empty key for each value that goes there, with that value; without values there is none. */
  ghost predicate Delivered(all: map<ValueKey, Exported>, render: Renderer, d: Destination, objects: Objects) {
    var routed := RoutedTo(all, d);
    && (d in objects <==> routed != {})
    && (d in objects ==> |objects[d]| == |routed|)
    && forall k :: k in routed ==>
         var key := Rendered(all[k], render, d);
         key.Some? && key.value != "" && key.value in objects[d] && objects[d][key.value] == all[k].value
  }

  lemma TextsOfRouted(values: Values, all: map<ValueKey, Exported>, d: Destination)
    requires Holding(values, map[], all)
    ensures Only(values, d).Keys == Images(RoutedTo(all, d), Text)
  {
    forall t ensures t in Only(values, d) <==> t in Images(RoutedTo(all, d), Text) {
      if t in Only(values, d) {
        var k :| k in all && Text(k) == t;
        assert k in RoutedTo(all, d);
      }
    }
  }

  lemma OnlyHolds(values: Values, all: map<ValueKey, Exported>, d: Destination)
    requires Holding(values, map[], all)
    ensures forall k :: k in RoutedTo(all, d) ==> Text(k) in Only(values, d) && Only(values, d)[Text(k)] == all[k]
    ensures |Only(values, d)| == |RoutedTo(all, d)|
  {
    var routed, only := RoutedTo(all, d), Only(values, d);
    forall j, k | j in routed && k in routed && Text(j) == Text(k) ensures j == k {
      TextsAreDistinct(j, k);
    }
    ImagesCount(routed, Text);
    TextsOfRouted(values, all, d);
    assert |only| == |only.Keys|;
  }

  lemma LosslessIsDelivered(values: Values, all: map<ValueKey, Exported>, render: Renderer, d: Destination, objects: Objects)
    requires Holding(values, map[], all)
    requires d in objects <==> Only(values, d) != map[]
    requires d in objects ==> Lossless(values, render, d, objects[d])
    ensures Delivered(all, render, d, objects)
  {
    OnlyHolds(values, all, d);
    var routed, only := RoutedTo(all, d), Only(values, d);
    if only == map[] {
      assert routed == {};
    } else {
      forall k | k in routed
        ensures var key := Rendered(all[k], render, d);
          key.Some? && key.value != "" && key.value in objects[d] && objects[d][key.value] == all[k].value
      {
        assert Text(k) in only;
      }
    }
  }

  ghost predicate DeliveredEverywhere(all: map<ValueKey, Exported>, render: Renderer, objects: Objects) {
    Delivered(all, render, ConfigMap, objects) && Delivered(all, render, KubeSecret, objects) && Delivered(all, render, Vault, objects)
  }

  ghost predicate PublishedTo(values: Values, render: Renderer, d: Destination, objects: Objects) {
    && (d in objects <==> Only(values, d) != map[])
    && (d in objects ==> IsPublished(Only(values, d), render, d, objects[d]))
  }

  ghost predicate CannotRender(values: Values, render: Renderer, d: Destination) {
    exists t :: t in Only(values, d) && Rendered(Only(values, d)[t], render, d).None?
  }

  method PublishTo(values: Values, render: Renderer, d: Destination, objects: Objects) returns (out: Option<Objects>)
    requires d !in objects
    ensures out.None? <==> CannotRender(values, render, d)
    ensures out.Some? ==> PublishedTo(values, render, d, out.value)
    ensures out.Some? ==> out.value.Keys <= objects.Keys + {d} && forall e :: e in objects ==> e in out.value && out.value[e] == objects[e]
  {
    var only := Only(values, d);
    if only == map[] {
      return Some(objects);
    }
    var object_ := Publish(only, render, d);
    if object_.None? {
      return None;
    }
    return Some(objects[d := object_.value]);
  }

  /** handleValueExport. */
  method PublishValues(values: Values, render: Renderer, vaultEnabled: bool) returns (objects: Option<Objects>)
    ensures objects.None? <==>
      || (!vaultEnabled && Only(values, Vault) != map[])
      || CannotRender(values, render, Vault) || CannotRender(values, render, ConfigMap) || CannotRender(values, render, KubeSecret)
    ensures objects.Some? ==>
      && PublishedTo(values, render, Vault, objects.value)
      && PublishedTo(values, render, ConfigMap, objects.value)
      && PublishedTo(values, render, KubeSecret, objects.value)
  {
    if Only(values, Vault) != map[] && !vaultEnabled {
      return None;
    }
    objects := PublishTo(values, render, Vault, map[]);
    if objects.Some? {
      objects := PublishTo(values, render, ConfigMap, objects.value);
    }
    if objects.Some? {
      objects := PublishTo(values, render, KubeSecret, objects.value);
    }
  }

  lemma SoundIsDelivered(values: Values, all: map<ValueKey, Exported>, render: Renderer, d: Destination, objects: Objects)
    requires Holding(values, map[], all) && KeysAreSound(values, render, d) && PublishedTo(values, render, d, objects)
    ensures Delivered(all, render, d, objects)
  {
    if d in objects {
      LosslessIffSound(values, render, d, objects[d]);
    }
    LosslessIsDelivered(values, all, render, d, objects);
  }

  // ---------- When an entry fails ----------

  /** The values that go to d render, to keys of their own that are not empty. */
  ghost predicate SoundFor(all: map<ValueKey, Exported>, render: Renderer, d: Destination) {
    && (forall k :: k in RoutedTo(all, d) ==> Rendered(all[k], render, d).Some? && Rendered(all[k], render, d).value != "")
    && (forall j, k :: j in RoutedTo(all, d) && k in RoutedTo(all, d) && Rendered(all[j], render, d) == Rendered(all[k], render, d) ==> j == k)
  }

  predicate RendersFor(all: map<ValueKey, Exported>, render: Renderer, d: Destination) {
    forall k | k in RoutedTo(all, d) :: Rendered(all[k], render, d).Some?
  }

  /** All values render, vault is there if it is needed, and if the keys are checked they are sound. */
  ghost predicate Publishable(all: map<ValueKey, Exported>, render: Renderer, vaultEnabled: bool, checked: bool) {
    && RendersFor(all, render, Vault) && RendersFor(all, render, ConfigMap) && RendersFor(all, render, KubeSecret)
    && (vaultEnabled || RoutedTo(all, Vault) == {})
    && (checked ==> SoundFor(all, render, ConfigMap) && SoundFor(all, render, KubeSecret) && SoundFor(all, render, Vault))
  }

  lemma HeldIsRouted(values: Values, all: map<ValueKey, Exported>, d: Destination, t: string) returns (k: ValueKey)
    requires Holding(values, map[], all) && t in Only(values, d)
    ensures k in RoutedTo(all, d) && Text(k) == t && Only(values, d)[t] == all[k]
  {
    TextsOfRouted(values, all, d);
    k :| k in RoutedTo(all, d) && Text(k) == t;
    OnlyHolds(values, all, d);
  }

  lemma HeldAlike(values: Values, all: map<ValueKey, Exported>, render: Renderer, d: Destination)
    requires Holding(values, map[], all)
    ensures CannotRender(values, render, d) <==> !RendersFor(all, render, d)
    ensures Only(values, d) == map[] <==> RoutedTo(all, d) == {}
  {
    OnlyHolds(values, all, d);
    if t :| t in Only(values, d) && Rendered(Only(values, d)[t], render, d).None? {
      var k := HeldIsRouted(values, all, d, t);
    }
    if Only(values, d) != map[] {
      var t :| t in Only(values, d);
      var k := HeldIsRouted(values, all, d, t);
    }
  }

  lemma SoundMember(values: Values, all: map<ValueKey, Exported>, render: Renderer, d: Destination, t: string)
    requires Holding(values, map[], all) && SoundFor(all, render, d) && t in Only(values, d)
    ensures Rendered(Only(values, d)[t], render, d).Some? && Rendered(Only(values, d)[t], render, d).value != ""
  {
    var k := HeldIsRouted(values, all, d, t);
  }

  lemma SoundPair(values: Values, all: map<ValueKey, Exported>, render: Renderer, d: Destination, t: string, u: string)
    requires Holding(values, map[], all) && SoundFor(all, render, d) && t in Only(values, d) && u in Only(values, d)
    requires KeyOf(Only(values, d), render, d)(t) == KeyOf(Only(values, d), render, d)(u)
    ensures t == u
  {
    SoundMember(values, all, render, d, t);
    SoundMember(values, all, render, d, u);
    var j := HeldIsRouted(values, all, d, t);
    var k := HeldIsRouted(values, all, d, u);
    assert Rendered(all[j], render, d) == Rendered(all[k], render, d);
  }

  lemma RoutedPair(values: Values, all: map<ValueKey, Exported>, render: Renderer, d: Destination, j: ValueKey, k: ValueKey)
    requires Holding(values, map[], all) && KeysAreSound(values, render, d) && j in RoutedTo(all, d) && k in RoutedTo(all, d)
    ensures Rendered(all[j], render, d).Some? && Rendered(all[j], render, d).value != ""
    ensures Rendered(all[j], render, d) == Rendered(all[k], render, d) ==> j == k
  {
    OnlyHolds(values, all, d);
    var f := KeyOf(Only(values, d), render, d);
    assert Text(j) in Only(values, d) && Text(k) in Only(values, d);
    if Rendered(all[j], render, d) == Rendered(all[k], render, d) {
      assert f(Text(j)) == f(Text(k));
      TextsAreDistinct(j, k);
    }
  }

  lemma SoundKeysAreDistinct(values: Values, all: map<ValueKey, Exported>, render: Renderer, d: Destination)
    requires Holding(values, map[], all) && SoundFor(all, render, d)
    ensures InjectiveOn(Only(values, d).Keys, KeyOf(Only(values, d), render, d))
  {
    var only := Only(values, d);
    forall t, u | t in only.Keys && u in only.Keys && KeyOf(only, render, d)(t) == KeyOf(only, render, d)(u) ensures t == u {
      SoundPair(values, all, render, d, t, u);
    }
  }

  lemma SoundKeysAreThere(values: Values, all: map<ValueKey, Exported>, render: Renderer, d: Destination)
    requires Holding(values, map[], all) && SoundFor(all, render, d)
    ensures NoKeyIsMissing(Only(values, d), render, d)
  {
    var only := Only(values, d);
    forall t | t in only ensures Rendered(only[t], render, d).Some? && Rendered(only[t], render, d).value != "" {
      SoundMember(values, all, render, d, t);
    }
  }

  lemma SoundlyRouted(values: Values, all: map<ValueKey, Exported>, render: Renderer, d: Destination)
    requires Holding(values, map[], all) && KeysAreSound(values, render, d)
    ensures SoundFor(all, render, d)
  {
    forall j, k | j in RoutedTo(all, d) && k in RoutedTo(all, d)
      ensures Rendered(all[j], render, d).Some? && Rendered(all[j], render, d).value != ""
      ensures Rendered(all[j], render, d) == Rendered(all[k], render, d) ==> j == k
    {
      RoutedPair(values, all, render, d, j, k);
    }
  }

  lemma HeldSoundly(values: Values, all: map<ValueKey, Exported>, render: Renderer, d: Destination)
    requires Holding(values, map[], all)
    ensures KeysAreSound(values, render, d) <==> SoundFor(all, render, d)
  {
    if SoundFor(all, render, d) {
      SoundKeysAreThere(values, all, render, d);
      SoundKeysAreDistinct(values, all, render, d);
    }
    if KeysAreSound(values, render, d) {
      SoundlyRouted(values, all, render, d);
    }
  }

  lemma ExportsAreSettled(db: Exported, users: map<string, Deployed>, userPicks: Picks, identities: map<string, Deployed>,
                          identityPicks: Picks, all: map<ValueKey, Exported>, other: map<ValueKey, Exported>)
    requires Exporting(db, users, userPicks, identities, identityPicks, all)
    requires Exporting(db, users, userPicks, identities, identityPicks, other)
    ensures all == other
  {
    var u, i :| PicksEachOnce(users, userPicks, u) && PicksEachOnce(identities, identityPicks, i) &&
      all == map[DbName := db] + Picked(users, Users, userPicks, u) + Picked(identities, Identities, identityPicks, i);
    var v, j :| PicksEachOnce(users, userPicks, v) && PicksEachOnce(identities, identityPicks, j) &&
      other == map[DbName := db] + Picked(users, Users, userPicks, v) + Picked(identities, Identities, identityPicks, j);
    OneChoice(users, userPicks, u, v);
    OneChoice(identities, identityPicks, i, j);
  }

  lemma OneChoice(byName: map<string, Deployed>, p: Picks, names: seq<string>, others: seq<string>)
    requires PicksEachOnce(byName, p, names) && PicksEachOnce(byName, p, others)
    ensures names == others
  {
    PicksAreSettled(byName, p, names, others);
    assert others[..|names|] == others;
  }

  ghost predicate Failing(db: Exported, users: map<string, Deployed>, userPicks: Picks, identities: map<string, Deployed>,
                          identityPicks: Picks, render: Renderer, vaultEnabled: bool)
  {
    || Unpickable(users, userPicks) || Unpickable(identities, identityPicks)
    || exists all :: Exporting(db, users, userPicks, identities, identityPicks, all) &&
         !Publishable(all, render, vaultEnabled, userPicks.items != [] || identityPicks.items != [])
  }

  lemma PublishableIff(values: Values, all: map<ValueKey, Exported>, render: Renderer, vaultEnabled: bool, checked: bool)
    requires Holding(values, map[], all)
    ensures !Publishable(all, render, vaultEnabled, checked) <==>
      || (checked && !KeysAreSoundEverywhere(values, render))
      || (!vaultEnabled && Only(values, Vault) != map[])
      || CannotRender(values, render, Vault) || CannotRender(values, render, ConfigMap) || CannotRender(values, render, KubeSecret)
  {
    HeldAlike(values, all, render, Vault);
    HeldAlike(values, all, render, ConfigMap);
    HeldAlike(values, all, render, KubeSecret);
    HeldSoundly(values, all, render, Vault);
    HeldSoundly(values, all, render, ConfigMap);
    HeldSoundly(values, all, render, KubeSecret);
  }

  lemma FailingIff(db: Exported, users: map<string, Deployed>, userPicks: Picks, identities: map<string, Deployed>,
                   identityPicks: Picks, render: Renderer, vaultEnabled: bool, all: map<ValueKey, Exported>)
    requires Exporting(db, users, userPicks, identities, identityPicks, all)
    ensures Failing(db, users, userPicks, identities, identityPicks, render, vaultEnabled) <==>
      !Publishable(all, render, vaultEnabled, userPicks.items != [] || identityPicks.items != [])
  {
    forall other | Exporting(db, users, userPicks, identities, identityPicks, other) ensures other == all {
      ExportsAreSettled(db, users, userPicks, identities, identityPicks, all, other);
    }
  }

  // ---------- What an entry says, field by field ----------

  /** If there is a template, the object has the value under what the template renders, which is not empty. */
  predicate Lands(template: string, value: string, d: Destination, render: Renderer, objects: Objects) {
    template != "" ==>
      && d in objects && render(template).Some? && render(template).value != ""
      && render(template).value in objects[d] && objects[d][render(template).value] == value
  }

  predicate LandsEverywhere(e: ValueExport, value: string, render: Renderer, objects: Objects) {
    && Lands(e.toConfigMap, value, ConfigMap, render, objects)
    && Lands(e.toKubeSecret, value, KubeSecret, render, objects)
    && Lands(e.toVault, value, Vault, render, objects)
  }

  /** The name is the one referred to, or the only one there is if none is. */
  predicate RefersTo(byName: map<string, Deployed>, ref: string, name: string) {
    name in byName && (if ref == "" then forall other :: other in byName ==> other == name else ref == name)
  }

  /** Both values of the credential referred to are where the entry wants them. */
  ghost predicate CredentialLands(byName: map<string, Deployed>, e: Entry, render: Renderer, objects: Objects) {
    exists name :: RefersTo(byName, e.ref, name) &&
      LandsEverywhere(e.first, byName[name].first, render, objects) && LandsEverywhere(e.second, byName[name].second, render, objects)
  }

  /** The entry names nobody and sends nothing anywhere. */
  predicate SaysNothing(e: Entry) {
    && e.ref == ""
    && e.first.toConfigMap == "" && e.first.toKubeSecret == "" && e.first.toVault == ""
    && e.second.toConfigMap == "" && e.second.toKubeSecret == "" && e.second.toVault == ""
  }

  ghost predicate CredentialsLand(byName: map<string, Deployed>, p: Picks, render: Renderer, objects: Objects) {
    && (!SaysNothing(p.single) ==> CredentialLands(byName, p.single, render, objects))
    && forall i :: 0 <= i < |p.items| ==> CredentialLands(byName, p.items[i], render, objects)
  }

  lemma DeliveredLands(all: map<ValueKey, Exported>, render: Renderer, objects: Objects, k: ValueKey)
    requires DeliveredEverywhere(all, render, objects) && k in all
    ensures LandsEverywhere(all[k].export_, all[k].value, render, objects)
  {
    assert all[k].export_.toConfigMap != "" ==> k in RoutedTo(all, ConfigMap);
    assert all[k].export_.toKubeSecret != "" ==> k in RoutedTo(all, KubeSecret);
    assert all[k].export_.toVault != "" ==> k in RoutedTo(all, Vault);
  }

  lemma SlotKeysAreDistinct(list: ListKind, p: Picks, i: nat, x: Part, j: nat, y: Part)
    ensures KeyOfSlot(list, p, i, x) == KeyOfSlot(list, p, j, y) <==> i == j && x == y
  {
  }

  lemma {:induction false} SlotIsPicked(byName: map<string, Deployed>, list: ListKind, p: Picks, names: seq<string>, slot: nat, part: Part)
    requires PicksSoFar(byName, p, names) && slot < |names|
    ensures var k := KeyOfSlot(list, p, slot, part);
      k in Picked(byName, list, p, names) && Picked(byName, list, p, names)[k] == PickedValue(byName, Slots(p)[slot], names[slot], part)
  {
    var n := |names| - 1;
    SlotKeysAreDistinct(list, p, slot, part, n, First);
    SlotKeysAreDistinct(list, p, slot, part, n, Second);
    if slot < n {
      SlotIsPicked(byName, list, p, names[..n], slot, part);
    }
  }

  lemma SlotLands(byName: map<string, Deployed>, list: ListKind, p: Picks, names: seq<string>, slot: nat,
                  all: map<ValueKey, Exported>, render: Renderer, objects: Objects)
    requires PicksEachOnce(byName, p, names) && slot < |Slots(p)| && DeliveredEverywhere(all, render, objects)
    requires forall k :: k in Picked(byName, list, p, names) ==> k in all && all[k] == Picked(byName, list, p, names)[k]
    ensures CredentialLands(byName, Slots(p)[slot], render, objects)
  {
    var e, name := Slots(p)[slot], names[slot];
    SlotIsPicked(byName, list, p, names, slot, First);
    SlotIsPicked(byName, list, p, names, slot, Second);
    DeliveredLands(all, render, objects, KeyOfSlot(list, p, slot, First));
    DeliveredLands(all, render, objects, KeyOfSlot(list, p, slot, Second));
    assert Resolves(byName, e.ref, name) && name in byName;
    assert RefersTo(byName, e.ref, name);
  }

  lemma PicksLand(byName: map<string, Deployed>, list: ListKind, p: Picks, names: seq<string>,
                  all: map<ValueKey, Exported>, render: Renderer, objects: Objects)
    requires PicksEachOnce(byName, p, names) && DeliveredEverywhere(all, render, objects)
    requires forall k :: k in Picked(byName, list, p, names) ==> k in all && all[k] == Picked(byName, list, p, names)[k]
    ensures CredentialsLand(byName, p, render, objects)
  {
    if !SaysNothing(p.single) {
      SlotLands(byName, list, p, names, 0, all, render, objects);
    }
    forall i | 0 <= i < |p.items| ensures CredentialLands(byName, p.items[i], render, objects) {
      var slot := (if p.UsesSingle() then 1 else 0) + i;
      assert Slots(p)[slot] == p.items[i];
      SlotLands(byName, list, p, names, slot, all, render, objects);
    }
  }

  lemma {:induction false} PickedForItsList(byName: map<string, Deployed>, list: ListKind, p: Picks, names: seq<string>, k: ValueKey)
    requires PicksSoFar(byName, p, names) && k in Picked(byName, list, p, names)
    ensures !k.DbName? && k.list == list
  {
    if names != [] && k in Picked(byName, list, p, names[..|names| - 1]) {
      PickedForItsList(byName, list, p, names[..|names| - 1], k);
    }
  }

  lemma ThreeParts(db: Exported, a: map<ValueKey, Exported>, b: map<ValueKey, Exported>)
    requires forall k :: k in a ==> !k.DbName? && k.list == Users
    requires forall k :: k in b ==> !k.DbName? && k.list == Identities
    ensures var all := map[DbName := db] + a + b;
      && DbName in all && all[DbName] == db
      && (forall k :: k in a ==> k in all && all[k] == a[k])
      && (forall k :: k in b ==> k in all && all[k] == b[k])
  {
  }

  /** Everything the entry says is done: the database's name and both values of every credential are where they are wanted. */
  lemma EverythingLands(db: Exported, users: map<string, Deployed>, userPicks: Picks, identities: map<string, Deployed>,
                        identityPicks: Picks, all: map<ValueKey, Exported>, render: Renderer, objects: Objects)
    requires Exporting(db, users, userPicks, identities, identityPicks, all) && DeliveredEverywhere(all, render, objects)
    ensures LandsEverywhere(db.export_, db.value, render, objects)
    ensures CredentialsLand(users, userPicks, render, objects) && CredentialsLand(identities, identityPicks, render, objects)
  {
    var u, i :| PicksEachOnce(users, userPicks, u) && PicksEachOnce(identities, identityPicks, i) &&
      all == map[DbName := db] + Picked(users, Users, userPicks, u) + Picked(identities, Identities, identityPicks, i);
    var a, b := Picked(users, Users, userPicks, u), Picked(identities, Identities, identityPicks, i);
    forall k | k in a ensures !k.DbName? && k.list == Users { PickedForItsList(users, Users, userPicks, u, k); }
    forall k | k in b ensures !k.DbName? && k.list == Identities { PickedForItsList(identities, Identities, identityPicks, i, k); }
    ThreeParts(db, a, b);
    DeliveredLands(all, render, objects, DbName);
    PicksLand(users, Users, userPicks, u, all, render, objects);
    PicksLand(identities, Identities, identityPicks, i, all, render, objects);
  }

  /** A reference to nobody, an item that sends nothing anywhere, and two items for one credential: each makes picking fail. */
  lemma BadItemsAreUnpickable(byName: map<string, Deployed>, p: Picks, i: nat, j: nat, name: string)
    requires i < |p.items|
    ensures (forall n :: !RefersTo(byName, p.items[i].ref, n)) ==> Unpickable(byName, p)
    ensures SaysNothing(p.items[i].(ref := "")) ==> Unpickable(byName, p)
    ensures i < j < |p.items| && RefersTo(byName, p.items[i].ref, name) && RefersTo(byName, p.items[j].ref, name) ==> Unpickable(byName, p)
    ensures !SaysNothing(p.single) && RefersTo(byName, p.single.ref, name) && RefersTo(byName, p.items[i].ref, name) ==> Unpickable(byName, p)
  {
    if SaysNothing(p.items[i].(ref := "")) {
      EmptyItemIsUnpickable(byName, p, i);
    }
    var first := if p.UsesSingle() then 1 else 0;
    forall names | PicksEachOnce(byName, p, names)
      ensures RefersTo(byName, p.items[i].ref, names[first + i]) && (j < |p.items| ==> RefersTo(byName, p.items[j].ref, names[first + j]))
      ensures first == 1 ==> RefersTo(byName, p.single.ref, names[0])
    {
      assert Slots(p)[first + i] == p.items[i];
      assert j < |p.items| ==> Slots(p)[first + j] == p.items[j];
      assert Resolves(byName, p.items[i].ref, names[first + i]);
    }
  }

  /**
   What a database publishes for one exports entry. With a users or identities list in it, every value
   reaches its destination under a key of its own. The deprecated single fields alone are not checked.
   */
  method ExportEntry(db: Exported, users: map<string, Deployed>, userPicks: Picks, identities: map<string, Deployed>,
                     identityPicks: Picks, render: Renderer, vaultEnabled: bool) returns (objects: Option<Objects>)
    ensures objects.None? <==> Failing(db, users, userPicks, identities, identityPicks, render, vaultEnabled)
    ensures objects.Some? ==>
      exists all :: Exporting(db, users, userPicks, identities, identityPicks, all) &&
        (userPicks.items != [] || identityPicks.items != [] ==> DeliveredEverywhere(all, render, objects.value))
    ensures objects.Some? && (userPicks.items != [] || identityPicks.items != []) ==>
      && LandsEverywhere(db.export_, db.value, render, objects.value)
      && CredentialsLand(users, userPicks, render, objects.value) && CredentialsLand(identities, identityPicks, render, objects.value)
  {
    var values := map[Text(DbName) := db];
    var withUsers := AddExports(Users, values, users, userPicks);
    if withUsers.None? {
      return None;
    }
    var withAll := AddExports(Identities, withUsers.value, identities, identityPicks);
    if withAll.None? {
      return None;
    }
    ghost var all := AllHeld(db, users, userPicks, identities, identityPicks, values, withUsers.value, withAll.value);
    var checked := userPicks.items != [] || identityPicks.items != [];
    FailingIff(db, users, userPicks, identities, identityPicks, render, vaultEnabled, all);
    PublishableIff(withAll.value, all, render, vaultEnabled, checked);
    if checked {
      var ok := ValidateExportKeys(withAll.value, render);
      if !ok {
        return None;
      }
    }
    objects := PublishValues(withAll.value, render, vaultEnabled);
    if objects.Some? && checked {
      SoundIsDelivered(withAll.value, all, render, Vault, objects.value);
      SoundIsDelivered(withAll.value, all, render, ConfigMap, objects.value);
      SoundIsDelivered(withAll.value, all, render, KubeSecret, objects.value);
      EverythingLands(db, users, userPicks, identities, identityPicks, all, render, objects.value);
    }
  }

  lemma AllHeld(db: Exported, users: map<string, Deployed>, userPicks: Picks, identities: map<string, Deployed>,
                identityPicks: Picks, values: Values, withUsers: Values, withAll: Values)
    returns (all: map<ValueKey, Exported>)
    requires values == map[Text(DbName) := db]
    requires Added(Users, values, withUsers, users, userPicks)
    requires Added(Identities, withUsers, withAll, identities, identityPicks)
    ensures Exporting(db, users, userPicks, identities, identityPicks, all) && Holding(withAll, map[], all)
  {
    var u :| PicksEachOnce(users, userPicks, u) && Holding(withUsers, values, Picked(users, Users, userPicks, u));
    var i :| PicksEachOnce(identities, identityPicks, i) &&
             Holding(withAll, withUsers, Picked(identities, Identities, identityPicks, i));
    var a, b, c := map[DbName := db], Picked(users, Users, userPicks, u), Picked(identities, Identities, identityPicks, i);
    OneHeld(map[], DbName, db);
    assert map[][Text(DbName) := db] == values;
    HoldingBoth(withUsers, values, map[], a, b);
    HoldingBoth(withAll, withUsers, map[], a + b, c);
    all := a + b + c;
  }
}
