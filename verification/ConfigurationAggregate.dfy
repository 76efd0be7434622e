/**
 The aggregate of a configuration domain: four listings merged one after the other, each in whatever
 order the lister returns it.
 */
module ConfigurationAggregate {
  import opened ConfigurationDomains

  type Data = map<string, string>

  /** The listings a sync takes, and the data they contribute once the output itself is passed over. */
  type Listings = seq<seq<ConfigMap>>
  type Groups = seq<set<Data>>

  // ---------- What an aggregate is ----------

  ghost predicate Has(group: set<Data>, key: string) {
    exists data :: data in group && key in data
  }

  /** The last group that has the key. */
  ghost predicate Decides(groups: Groups, g: int, key: string) {
    && 0 <= g < |groups| && Has(groups[g], key)
    && forall h :: g < h < |groups| ==> !Has(groups[h], key)
  }

  /** Some member of the group has this value for the key. */
  ghost predicate Offers(group: set<Data>, key: string, value: string) {
    exists data :: data in group && key in data && data[key] == value
  }

  /** The keys are those of any group, and every value comes from the last group that has its key. */
  ghost predicate IsAggregate(data: Data, groups: Groups) {
    && (forall key :: key in data <==> exists g :: 0 <= g < |groups| && Has(groups[g], key))
    && (forall key, g :: key in data && Decides(groups, g, key) ==> Offers(groups[g], key, data[key]))
  }

  /** Wherever a key is decided, the config maps of that group agree on it. */
  ghost predicate ConflictFree(groups: Groups) {
    forall key, g, v, w :: Decides(groups, g, key) && Offers(groups[g], key, v) && Offers(groups[g], key, w) ==> v == w
  }

  lemma {:induction false} SomeGroupDecides(groups: Groups, g: nat, key: string) returns (last: nat)
    requires g < |groups| && Has(groups[g], key)
    ensures Decides(groups, last, key)
  {
    last := |groups| - 1;
    while !Has(groups[last], key)
      invariant g <= last < |groups|
      invariant forall h :: last < h < |groups| ==> !Has(groups[h], key)
      decreases last
    {
      last := last - 1;
    }
  }

  lemma AggregateIsUnique(a: Data, b: Data, groups: Groups)
    requires ConflictFree(groups) && IsAggregate(a, groups) && IsAggregate(b, groups)
    ensures a == b
  {
    forall key | key in a ensures a[key] == b[key] {
      var g: int :| 0 <= g < |groups| && Has(groups[g], key);
      var last := SomeGroupDecides(groups, g, key);
      assert Offers(groups[last], key, a[key]) && Offers(groups[last], key, b[key]);
    }
  }

  /** The last of four groups to have the key supplies its value. */
  ghost predicate LastOfFour(data: Data, groups: Groups, key: string)
    requires |groups| == 4
  {
    if Has(groups[3], key) then key in data && Offers(groups[3], key, data[key])
    else if Has(groups[2], key) then key in data && Offers(groups[2], key, data[key])
    else if Has(groups[1], key) then key in data && Offers(groups[1], key, data[key])
    else if Has(groups[0], key) then key in data && Offers(groups[0], key, data[key])
    else key !in data
  }

  lemma FourGroupsDecide(data: Data, groups: Groups, key: string)
    requires |groups| == 4 && IsAggregate(data, groups)
    ensures LastOfFour(data, groups, key)
  {
    forall g | Decides(groups, g, key) ensures key in data && Offers(groups[g], key, data[key]) {
      assert 0 <= g < |groups| && Has(groups[g], key);
    }
    DecidingIsLastOfFour(data, groups, key);
  }

  lemma DecidingIsLastOfFour(data: Data, groups: Groups, key: string)
    requires |groups| == 4
    requires forall g :: Decides(groups, g, key) ==> key in data && Offers(groups[g], key, data[key])
    requires key in data ==> exists g :: 0 <= g < |groups| && Has(groups[g], key)
    ensures LastOfFour(data, groups, key)
  {
    if Has(groups[3], key) {
      assert Decides(groups, 3, key);
    } else if Has(groups[2], key) {
      assert Decides(groups, 2, key);
    } else if Has(groups[1], key) {
      assert Decides(groups, 1, key);
    } else if Has(groups[0], key) {
      assert Decides(groups, 0, key);
    }
  }

  // ---------- Merging listings ----------

  function Concat(lists: Listings): seq<ConfigMap> {
    if lists == [] then [] else Concat(lists[..|lists| - 1]) + lists[|lists| - 1]
  }

  /** Later config maps overwrite earlier ones; those called like the output are passed over. */
  function Merged(list: seq<ConfigMap>, output: string): Data {
    if list == [] then map[]
    else
      var last := list[|list| - 1];
      var before := Merged(list[..|list| - 1], output);
      if last.id.name == output then before else before + last.data
  }

  function Contribution(list: seq<ConfigMap>, output: string): set<Data> {
    set c | c in list && c.id.name != output :: c.data
  }

  function Contributions(lists: Listings, output: string): Groups {
    seq(|lists|, i requires 0 <= i < |lists| => Contribution(lists[i], output))
  }

  lemma {:induction false} MergedInTwoParts(a: seq<ConfigMap>, b: seq<ConfigMap>, output: string)
    ensures Merged(a + b, output) == Merged(a, output) + Merged(b, output)
  {
    if b == [] {
      assert a + b == a;
    } else {
      assert (a + b)[..|a + b| - 1] == a + b[..|b| - 1];
      MergedInTwoParts(a, b[..|b| - 1], output);
    }
  }

  lemma {:induction false} MergedOffers(list: seq<ConfigMap>, output: string, key: string)
    ensures key in Merged(list, output) <==> Has(Contribution(list, output), key)
    ensures key in Merged(list, output) ==> Offers(Contribution(list, output), key, Merged(list, output)[key])
  {
    if list != [] {
      var last, front := list[|list| - 1], list[..|list| - 1];
      MergedOffers(front, output, key);
      ContributionSnoc(front, last, output);
      assert list == front + [last];
    }
  }

  lemma ContributionSnoc(front: seq<ConfigMap>, last: ConfigMap, output: string)
    ensures Contribution(front + [last], output) == Contribution(front, output) + if last.id.name == output then {} else {last.data}
  {
    assert forall c :: c in front + [last] <==> c in front || c == last;
  }

  /** Whatever order the listings come in, merging them makes an aggregate. */
  lemma {:induction false} MergedListingsAreAnAggregate(lists: Listings, output: string)
    ensures IsAggregate(Merged(Concat(lists), output), Contributions(lists, output))
  {
    if lists != [] {
      var n := |lists| - 1;
      var groups, front := Contributions(lists, output), Contributions(lists[..n], output);
      var before, last := Merged(Concat(lists[..n]), output), Merged(lists[n], output);
      MergedListingsAreAnAggregate(lists[..n], output);
      MergedInTwoParts(Concat(lists[..n]), lists[n], output);
      assert groups[..n] == front;
      forall key ensures key in last <==> Has(groups[n], key)
        ensures key in last ==> Offers(groups[n], key, last[key])
      {
        MergedOffers(lists[n], output, key);
      }
      ExtendsAggregate(before, last, groups);
    }
  }

  lemma ExtendsAggregate(before: Data, last: Data, groups: Groups)
    requires groups != [] && IsAggregate(before, groups[..|groups| - 1])
    requires forall key :: key in last <==> Has(groups[|groups| - 1], key)
    requires forall key :: key in last ==> Offers(groups[|groups| - 1], key, last[key])
    ensures IsAggregate(before + last, groups)
  {
    var n, data := |groups| - 1, before + last;
    var front := groups[..n];
    forall key ensures key in data <==> exists g :: 0 <= g < |groups| && Has(groups[g], key) {
      if key in before {
        var g: int :| 0 <= g < |front| && Has(front[g], key);
        assert Has(groups[g], key);
      }
      if g: int :| 0 <= g < |groups| && Has(groups[g], key) && g != n {
        assert Has(front[g], key);
      }
    }
    forall key, g | key in data && Decides(groups, g, key) ensures Offers(groups[g], key, data[key]) {
      if key !in last {
        assert Decides(front, g, key) && front[g] == groups[g];
      }
    }
  }

  /** The inner loop of aggregateConfigMaps, over a Go map in any order. */
  method MergeInto(before: Data, data: Data) returns (mergedData: Data)
    ensures mergedData == before + data
  {
    mergedData := before;
    var rest := data.Keys;
    NothingAndEverythingMerged(before, data);
    while rest != {}
      invariant rest <= data.Keys && mergedData == before + (data - rest)
      decreases |rest|
    {
      var key :| key in rest;
      OneMoreMerged(before, data, rest, key);
      mergedData := mergedData[key := data[key]];
      rest := rest - {key};
    }
  }

  lemma NothingAndEverythingMerged(before: Data, data: Data)
    ensures before + (data - data.Keys) == before && before + (data - {}) == before + data
  {
    assert data - {} == data;
  }

  lemma OneMoreMerged(before: Data, data: Data, rest: set<string>, key: string)
    requires key in rest && rest <= data.Keys
    ensures (before + (data - rest))[key := data[key]] == before + (data - (rest - {key}))
  {
  }

  lemma MergedSnoc(list: seq<ConfigMap>, i: nat, output: string)
    requires i < |list|
    ensures Merged(list[..i + 1], output) ==
      if list[i].id.name == output then Merged(list[..i], output) else Merged(list[..i], output) + list[i].data
  {
    assert list[..i + 1][..i] == list[..i];
  }

  /** getConfigMapsFor's appends, then aggregateConfigMaps. */
  method AggregateConfigMaps(lists: Listings, outputName: string) returns (mergedData: Data)
    requires |lists| == GROUPS
    ensures mergedData == Merged(Concat(lists), outputName)
    ensures IsAggregate(mergedData, Contributions(lists, outputName))
    ensures forall key :: LastOfFour(mergedData, Contributions(lists, outputName), key)
  {
    var configMaps := lists[0] + lists[1] + lists[2] + lists[3];
    mergedData := map[];
    for i := 0 to |configMaps|
      invariant mergedData == Merged(configMaps[..i], outputName)
    {
      MergedSnoc(configMaps, i, outputName);
      if configMaps[i].id.name == outputName {
        continue;
      }
      mergedData := MergeInto(mergedData, configMaps[i].data);
    }
    assert configMaps[..|configMaps|] == configMaps;
    FourListsAppended(lists);
    MergedListingsAreAnAggregate(lists, outputName);
    forall key ensures LastOfFour(mergedData, Contributions(lists, outputName), key) {
      FourGroupsDecide(mergedData, Contributions(lists, outputName), key);
    }
  }

  lemma FourListsAppended(lists: Listings)
    requires |lists| == 4
    ensures Concat(lists) == lists[0] + lists[1] + lists[2] + lists[3]
  {
    var three, two, one := lists[..3], lists[..2], lists[..1];
    assert three[..2] == two && two[..1] == one && one[..0] == [];
    assert Concat(one) == lists[0];
    assert Concat(two) == lists[0] + lists[1];
    assert Concat(three) == lists[0] + lists[1] + lists[2];
  }

  // ---------- When the order of the listings does not matter ----------

  /** The config maps each listing has to return, whatever their order. */
  type Members = seq<set<ConfigMap>>

  ghost predicate IsListing(list: seq<ConfigMap>, members: set<ConfigMap>) {
    |list| == |members| && forall c :: c in list <==> c in members
  }

  ghost predicate AreListings(lists: Listings, members: Members) {
    |lists| == |members| && forall i :: 0 <= i < |members| ==> IsListing(lists[i], members[i])
  }

  function DataOf(members: set<ConfigMap>, output: string): set<Data> {
    set c | c in members && c.id.name != output :: c.data
  }

  function GroupsOf(members: Members, output: string): Groups {
    seq(|members|, i requires 0 <= i < |members| => DataOf(members[i], output))
  }

  lemma {:induction false} ListingOf(members: set<ConfigMap>) returns (list: seq<ConfigMap>)
    ensures IsListing(list, members)
  {
    if members == {} {
      list := [];
    } else {
      var c :| c in members;
      var front := ListingOf(members - {c});
      list := front + [c];
    }
  }

  lemma {:induction false} ListingsWithLast(members: Members, g: int, last: ConfigMap) returns (lists: Listings)
    requires 0 <= g < |members| ==> last in members[g]
    ensures AreListings(lists, members)
    ensures 0 <= g < |members| ==> lists[g] != [] && lists[g][|lists[g]| - 1] == last
  {
    if members == [] {
      lists := [];
    } else {
      var n := |members| - 1;
      var front := ListingsWithLast(members[..n], g, last);
      if g == n {
        var rest := ListingOf(members[n] - {last});
        lists := front + [rest + [last]];
      } else {
        var rest := ListingOf(members[n]);
        lists := front + [rest];
      }
    }
  }

  lemma ListingsContribute(lists: Listings, members: Members, output: string)
    requires AreListings(lists, members)
    ensures Contributions(lists, output) == GroupsOf(members, output)
  {
    forall i | 0 <= i < |members| ensures Contribution(lists[i], output) == DataOf(members[i], output) {
    }
  }

  /** The last config map of the last group that has the key decides it. */
  lemma {:induction false} LastDecides(lists: Listings, output: string, g: int, key: string)
    requires Decides(Contributions(lists, output), g, key)
    requires lists[g] != [] && lists[g][|lists[g]| - 1].id.name != output && key in lists[g][|lists[g]| - 1].data
    ensures key in Merged(Concat(lists), output)
    ensures Merged(Concat(lists), output)[key] == lists[g][|lists[g]| - 1].data[key]
  {
    var n := |lists| - 1;
    var groups := Contributions(lists, output);
    MergedInTwoParts(Concat(lists[..n]), lists[n], output);
    MergedOffers(lists[n], output, key);
    if g < n {
      assert !Has(groups[n], key);
      assert Contributions(lists[..n], output) == groups[..n];
      LastDecides(lists[..n], output, g, key);
    }
  }

  ghost predicate OrderIsIrrelevant(members: Members, output: string) {
    forall a, b :: AreListings(a, members) && AreListings(b, members) ==>
      Merged(Concat(a), output) == Merged(Concat(b), output)
  }

  /** The aggregate does not depend on the order of any listing exactly when no deciding group disagrees with itself. */
  lemma OrderIsIrrelevantIffConflictFree(members: Members, output: string)
    ensures OrderIsIrrelevant(members, output) <==> ConflictFree(GroupsOf(members, output))
  {
    var groups := GroupsOf(members, output);
    if ConflictFree(groups) {
      forall a, b | AreListings(a, members) && AreListings(b, members)
        ensures Merged(Concat(a), output) == Merged(Concat(b), output)
      {
        ListingsContribute(a, members, output);
        ListingsContribute(b, members, output);
        MergedListingsAreAnAggregate(a, output);
        MergedListingsAreAnAggregate(b, output);
        AggregateIsUnique(Merged(Concat(a), output), Merged(Concat(b), output), groups);
      }
    } else {
      var key, g, v, w :| Decides(groups, g, key) && Offers(groups[g], key, v) && Offers(groups[g], key, w) && v != w;
      var a := ListingsOffering(members, output, g, key, v);
      var b := ListingsOffering(members, output, g, key, w);
    }
  }

  lemma ListingsOffering(members: Members, output: string, g: int, key: string, value: string) returns (lists: Listings)
    requires Decides(GroupsOf(members, output), g, key) && Offers(GroupsOf(members, output)[g], key, value)
    ensures AreListings(lists, members)
    ensures key in Merged(Concat(lists), output) && Merged(Concat(lists), output)[key] == value
  {
    var c :| c in members[g] && c.id.name != output && key in c.data && c.data[key] == value;
    lists := ListingsWithLast(members, g, c);
    ListingsContribute(lists, members, output);
    LastDecides(lists, output, g, key);
  }
}
