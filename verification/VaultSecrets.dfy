/** The objects string of a secret provider class: merged secrets, sorted by key and printed. */
module VaultSecrets {
  import opened Common

  datatype SecretSpec = SecretSpec(key: string, path: string)

  type Secrets = map<string, SecretSpec>

  // ---------- Merging ----------

  /** Later secrets replace earlier ones with the same key. */
  function Merged(secrets: seq<SecretSpec>): Secrets {
    if secrets == [] then map[]
    else Merged(secrets[..|secrets| - 1])[secrets[|secrets| - 1].key := secrets[|secrets| - 1]]
  }

  /** secrets[i] is the last one with the key. */
  predicate Wins(secrets: seq<SecretSpec>, i: int, key: string) {
    0 <= i < |secrets| && secrets[i].key == key && forall j :: i < j < |secrets| ==> secrets[j].key != key
  }

  /** Under a key there is the last secret with that key, and nothing if there is none. */
  lemma {:induction false} LastSecretWins(secrets: seq<SecretSpec>, key: string, s: SecretSpec)
    ensures key in Merged(secrets) && Merged(secrets)[key] == s <==> exists i :: Wins(secrets, i, key) && secrets[i] == s
  {
    if secrets != [] {
      var n := |secrets| - 1;
      var front := secrets[..n];
      LastSecretWins(front, key, s);
      if secrets[n].key == key {
        assert Wins(secrets, n, key);
      } else {
        assert forall i :: Wins(secrets, i, key) ==> Wins(front, i, key);
        assert forall i :: Wins(front, i, key) ==> Wins(secrets, i, key);
      }
    }
  }

  // ---------- Sorting ----------

  /** sort.Strings: byte by byte, a prefix first. */
  predicate Before(a: string, b: string) {
    b != [] && (a == [] || a[0] < b[0] || (a[0] == b[0] && Before(a[1..], b[1..])))
  }

  lemma {:induction false} BeforeIsTotal(a: string, b: string)
    ensures Before(a, b) || Before(b, a) || a == b
    ensures !(Before(a, b) && Before(b, a)) && !Before(a, a)
  {
    if a != [] && b != [] {
      BeforeIsTotal(a[1..], b[1..]);
      assert a == [a[0]] + a[1..] && b == [b[0]] + b[1..];
    }
    if a != [] {
      BeforeIsTotal(a[1..], a[1..]);
    }
  }

  lemma {:induction false} BeforeIsTransitive(a: string, b: string, c: string)
    requires Before(a, b) && Before(b, c)
    ensures Before(a, c)
  {
    if a != [] && a[0] == b[0] && b[0] == c[0] {
      BeforeIsTransitive(a[1..], b[1..], c[1..]);
    }
  }

  predicate Ascending(keys: seq<string>) {
    forall i, j :: 0 <= i < j < |keys| ==> Before(keys[i], keys[j])
  }

  /** keys lists the set in ascending order. */
  ghost predicate Lists(keys: seq<string>, all: set<string>) {
    Ascending(keys) && forall k :: k in keys <==> k in all
  }

  lemma FirstIsLeast(keys: seq<string>, all: set<string>)
    requires Lists(keys, all) && keys != []
    ensures Lists(keys[1..], all - {keys[0]})
    ensures forall k :: k in all && k != keys[0] ==> Before(keys[0], k)
  {
    BeforeIsTotal(keys[0], keys[0]);
    assert keys == [keys[0]] + keys[1..];
    forall k ensures k in keys[1..] <==> k in all - {keys[0]} {
      if k in keys[1..] {
        var i :| 0 <= i < |keys[1..]| && keys[1..][i] == k;
        assert Before(keys[0], keys[i + 1]);
      }
    }
  }

  /** There is only one ascending listing of a set. */
  lemma {:induction false} ListingIsUnique(a: seq<string>, b: seq<string>, all: set<string>)
    requires Lists(a, all) && Lists(b, all)
    ensures a == b
  {
    assert a != [] ==> a[0] in all;
    assert b != [] ==> b[0] in all;
    if a != [] && b != [] {
      FirstIsLeast(a, all);
      FirstIsLeast(b, all);
      assert a[0] in all && b[0] in all;
      BeforeIsTotal(a[0], b[0]);
      ListingIsUnique(a[1..], b[1..], all - {a[0]});
      assert a == [a[0]] + a[1..] && b == [b[0]] + b[1..];
    }
  }

  function Insert(k: string, keys: seq<string>): seq<string> {
    if keys == [] || Before(k, keys[0]) then [k] + keys else [keys[0]] + Insert(k, keys[1..])
  }

  function Sorted(keys: seq<string>): seq<string> {
    if keys == [] then [] else Insert(keys[0], Sorted(keys[1..]))
  }

  lemma {:induction false} InsertLists(k: string, keys: seq<string>, all: set<string>)
    requires Lists(keys, all) && k !in all
    ensures Lists(Insert(k, keys), all + {k})
  {
    if keys != [] {
      FirstIsLeast(keys, all);
      assert keys[0] in all;
      BeforeIsTotal(k, keys[0]);
      if Before(k, keys[0]) {
        forall other | other in all && other != keys[0] ensures Before(k, other) {
          BeforeIsTransitive(k, keys[0], other);
        }
        PrependLists(k, keys, all);
      } else {
        InsertLists(k, keys[1..], all - {keys[0]});
        assert all - {keys[0]} + {k} + {keys[0]} == all + {k};
        PrependLists(keys[0], Insert(k, keys[1..]), all - {keys[0]} + {k});
      }
    }
  }

  lemma PrependLists(k: string, keys: seq<string>, all: set<string>)
    requires Lists(keys, all) && forall other :: other in all ==> Before(k, other)
    ensures Lists([k] + keys, all + {k})
  {
    forall i | 0 <= i < |keys| ensures Before(k, keys[i]) {
      assert keys[i] in all;
    }
  }

  lemma {:induction false} SortedLists(keys: seq<string>, all: set<string>)
    requires (forall k :: k in keys <==> k in all) && |keys| == |all|
    ensures Lists(Sorted(keys), all)
  {
    if keys == [] {
      assert all == {};
    } else {
      assert keys == [keys[0]] + keys[1..];
      if keys[0] in keys[1..] {
        CountOfElements(keys[1..], all);
        assert false;
      }
      SortedLists(keys[1..], all - {keys[0]});
      InsertLists(keys[0], Sorted(keys[1..]), all - {keys[0]});
      assert all - {keys[0]} + {keys[0]} == all;
    }
  }

  lemma {:induction false} CountOfElements(keys: seq<string>, all: set<string>)
    requires forall k :: k in all ==> k in keys
    ensures |all| <= |keys|
  {
    if keys == [] {
      assert all == {};
    } else {
      assert keys == [keys[0]] + keys[1..];
      CountOfElements(keys[1..], all - {keys[0]});
    }
  }

  // ---------- Printing ----------

  const HEAD := "\n- objectName: \""
  const PATH := "\n  secretPath: \""
  const KEY := "\n  secretKey: \""

  function Item(s: SecretSpec): string {
    HEAD + (s.key + ['"'] + (PATH + (s.path + ['"'] + (KEY + (s.key + ['"'])))))
  }

  lemma ItemText(s: SecretSpec)
    ensures Item(s) == "\n- objectName: \"" + (s.key + ("\"\n  secretPath: \"" + (s.path + ("\"\n  secretKey: \"" + (s.key + "\"")))))
  {
  }

  function Printed(keys: seq<string>, secrets: Secrets): string
    requires forall k :: k in keys ==> k in secrets
  {
    if keys == [] then "" else Item(secrets[keys[0]]) + Printed(keys[1..], secrets)
  }

  /** The objects string of the merged secrets. */
  ghost predicate IsObjectsString(text: string, secrets: Secrets) {
    exists keys :: Lists(keys, secrets.Keys) && text == Printed(keys, secrets)
  }

  method MergeSecrets(secrets: seq<SecretSpec>) returns (mergedSecrets: Secrets)
    ensures mergedSecrets == Merged(secrets)
  {
    mergedSecrets := map[];
    for i := 0 to |secrets|
      invariant mergedSecrets == Merged(secrets[..i])
    {
      assert secrets[..i + 1][..i] == secrets[..i];
      mergedSecrets := mergedSecrets[secrets[i].key := secrets[i]];
    }
    assert secrets[..|secrets|] == secrets;
  }

  /** The keys of a Go map in any order, then sorted. */
  method OrderedKeys(all: set<string>) returns (orderedSecretKeys: seq<string>)
    ensures Lists(orderedSecretKeys, all)
  {
    orderedSecretKeys := [];
    var rest := all;
    while rest != {}
      invariant rest <= all
      invariant forall k :: k in orderedSecretKeys <==> k in all - rest
      invariant |orderedSecretKeys| == |all - rest|
      decreases |rest|
    {
      var key :| key in rest;
      assert all - (rest - {key}) == (all - rest) + {key};
      orderedSecretKeys := orderedSecretKeys + [key];
      rest := rest - {key};
    }
    assert all - rest == all;
    SortedLists(orderedSecretKeys, all);
    orderedSecretKeys := Sorted(orderedSecretKeys);
  }

  /** aggregateSecrets: the parameter that decides whether the provider class has to be updated. */
  method AggregateSecrets(secrets: seq<SecretSpec>) returns (objectsString: string)
    ensures IsObjectsString(objectsString, Merged(secrets))
  {
    var mergedSecrets := MergeSecrets(secrets);
    var keys := OrderedKeys(mergedSecrets.Keys);
    objectsString := "";
    for i := 0 to |keys|
      invariant objectsString + Printed(keys[i..], mergedSecrets) == Printed(keys, mergedSecrets)
    {
      PrintedNext(objectsString, keys, i, mergedSecrets);
      objectsString := objectsString + Item(mergedSecrets[keys[i]]);
    }
  }

  lemma PrintedNext(text: string, keys: seq<string>, i: nat, secrets: Secrets)
    requires i < |keys| && forall k :: k in keys ==> k in secrets
    ensures text + Printed(keys[i..], secrets) == text + Item(secrets[keys[i]]) + Printed(keys[i + 1..], secrets)
  {
    assert keys[i..][1..] == keys[i + 1..];
  }

  // ---------- The string says what was merged ----------

  /** Vault keys and paths that need no quoting. */
  predicate QuoteFree(s: SecretSpec) {
    '"' !in s.key && '"' !in s.path
  }

  /** Secrets under their own keys, as merging leaves them. */
  ghost predicate Keyed(secrets: Secrets) {
    forall k :: k in secrets ==> secrets[k].key == k && QuoteFree(secrets[k])
  }

  lemma SamePrefix(p: string, x: string, y: string)
    requires p + x == p + y
    ensures x == y
  {
    assert (p + x)[|p|..] == x && (p + y)[|p|..] == y;
  }

  lemma ItemIsReadBack(s: SecretSpec, x: string, t: SecretSpec, y: string)
    requires QuoteFree(s) && QuoteFree(t) && Item(s) + x == Item(t) + y
    ensures s == t && x == y
  {
    var ks, kt := KEY + (s.key + ['"']) + x, KEY + (t.key + ['"']) + y;
    var ps, pt := PATH + (s.path + ['"'] + ks), PATH + (t.path + ['"'] + kt);
    assert Item(s) + x == HEAD + (s.key + ['"'] + ps);
    assert Item(t) + y == HEAD + (t.key + ['"'] + pt);
    SamePrefix(HEAD, s.key + ['"'] + ps, t.key + ['"'] + pt);
    SplitsAtFirst(s.key, ps, t.key, pt, '"');
    SamePrefix(PATH, s.path + ['"'] + ks, t.path + ['"'] + kt);
    SplitsAtFirst(s.path, ks, t.path, kt, '"');
    SamePrefix(KEY + (s.key + ['"']), x, y);
  }

  lemma SameHeadAndTail(a: seq<string>, b: seq<string>)
    requires a != [] && b != [] && a[0] == b[0] && a[1..] == b[1..]
    ensures a == b && forall k :: k in a <==> k == a[0] || k in a[1..]
  {
    assert a == [a[0]] + a[1..] && b == [b[0]] + b[1..];
  }

  lemma OnlyNothingPrintsNothing(keys: seq<string>, secrets: Secrets)
    requires forall k :: k in keys ==> k in secrets
    ensures Printed(keys, secrets) == "" <==> keys == []
  {
    assert keys != [] ==> |Item(secrets[keys[0]])| >= |HEAD|;
  }

  lemma {:induction false} PrintedIsReadBack(a: seq<string>, m: Secrets, b: seq<string>, n: Secrets)
    requires Keyed(m) && Keyed(n) && (forall k :: k in a ==> k in m) && (forall k :: k in b ==> k in n)
    requires Printed(a, m) == Printed(b, n)
    ensures a == b && forall k :: k in a ==> m[k] == n[k]
  {
    OnlyNothingPrintsNothing(a, m);
    OnlyNothingPrintsNothing(b, n);
    if a != [] {
      ItemIsReadBack(m[a[0]], Printed(a[1..], m), n[b[0]], Printed(b[1..], n));
      PrintedIsReadBack(a[1..], m, b[1..], n);
      SameHeadAndTail(a, b);
    }
  }

  lemma {:induction false} MergedIsKeyed(secrets: seq<SecretSpec>)
    requires forall s :: s in secrets ==> QuoteFree(s)
    ensures Keyed(Merged(secrets))
  {
    if secrets != [] {
      MergedIsKeyed(secrets[..|secrets| - 1]);
    }
  }

  /**
   Whatever order maps and secrets come in, the same winning secrets give the same string, and without
   quotes in them only the same winning secrets do.
   */
  lemma ObjectsStringIsCanonical(a: seq<SecretSpec>, b: seq<SecretSpec>, x: string, y: string)
    requires IsObjectsString(x, Merged(a)) && IsObjectsString(y, Merged(b))
    ensures Merged(a) == Merged(b) ==> x == y
    ensures (forall s :: s in a || s in b ==> QuoteFree(s)) ==> (x == y <==> Merged(a) == Merged(b))
  {
    if x == y && forall s :: s in a || s in b ==> QuoteFree(s) {
      MergedIsKeyed(a);
      MergedIsKeyed(b);
      StringDeterminesSecrets(x, Merged(a), Merged(b));
    }
    if Merged(a) == Merged(b) {
      SecretsDetermineString(x, y, Merged(a));
    }
  }

  lemma StringDeterminesSecrets(x: string, m: Secrets, n: Secrets)
    requires Keyed(m) && Keyed(n) && IsObjectsString(x, m) && IsObjectsString(x, n)
    ensures m == n
  {
    var ka :| Lists(ka, m.Keys) && x == Printed(ka, m);
    var kb :| Lists(kb, n.Keys) && x == Printed(kb, n);
    PrintedIsReadBack(ka, m, kb, n);
    SameEntries(ka, m, n);
  }

  lemma SameEntries(keys: seq<string>, m: Secrets, n: Secrets)
    requires (forall k :: k in keys <==> k in m) && (forall k :: k in keys <==> k in n)
    requires forall k :: k in keys ==> m[k] == n[k]
    ensures m == n
  {
  }

  lemma SecretsDetermineString(x: string, y: string, m: Secrets)
    requires IsObjectsString(x, m) && IsObjectsString(y, m)
    ensures x == y
  {
    var ka :| Lists(ka, m.Keys) && x == Printed(ka, m);
    var kb :| Lists(kb, m.Keys) && y == Printed(kb, m);
    ListingIsUnique(ka, kb, m.Keys);
  }

  /** What an item prints before its path, and after it. */
  function Front(key: string): string {
    HEAD + (key + ['"'] + PATH)
  }

  function Back(key: string): string {
    ['"'] + (KEY + (key + ['"']))
  }

  lemma ItemParts(key: string, path: string)
    ensures Item(SecretSpec(key, path)) == Front(key) + path + Back(key)
  {
  }

  /** Moving the brackets of two items to what is between their paths. */
  lemma Regrouped(a: string, p: string, b: string, c: string, q: string, d: string)
    ensures (a + p + b) + (c + q + d) == a + (p + (b + c) + q) + d
  {
  }

  lemma TwoPrinted(a: string, p: string, b: string, q: string)
    requires a != b
    ensures var m := map[a := SecretSpec(a, p), b := SecretSpec(b, q)];
      Printed([a, b], m) == Front(a) + (p + (Back(a) + Front(b)) + q) + Back(b)
  {
    var m := map[a := SecretSpec(a, p), b := SecretSpec(b, q)];
    PrintedPair(a, b, m);
    ItemParts(a, p);
    ItemParts(b, q);
    Regrouped(Front(a), p, Back(a), Front(b), q, Back(b));
  }

  lemma PrintedPair(a: string, b: string, m: Secrets)
    requires a in m && b in m
    ensures Printed([a, b], m) == Item(m[a]) + Item(m[b])
  {
    assert [a, b][1..] == [b] && [b][1..] == [];
    assert Printed([b], m) == Item(m[b]) + "" == Item(m[b]);
  }

  lemma TwoListed(a: string, b: string)
    requires Before(a, b)
    ensures a != b && Lists([a, b], {a, b})
  {
    BeforeIsTotal(a, b);
  }

  /** Quotes in paths let different secrets print alike. */
  lemma QuotesConfuseSecrets(a: string, b: string) returns (m: Secrets, n: Secrets, text: string)
    requires Before(a, b)
    ensures m != n && IsObjectsString(text, m) && IsObjectsString(text, n)
  {
    TwoListed(a, b);
    var quoted := Back(a) + Front(b);
    m := map[a := SecretSpec(a, ""), b := SecretSpec(b, quoted)];
    n := map[a := SecretSpec(a, quoted), b := SecretSpec(b, "")];
    text := Printed([a, b], m);
    TwoPrintAlike(a, b, quoted);
    assert m.Keys == {a, b} && n.Keys == {a, b};
    assert m[a] != n[a];
  }

  lemma TwoPrintAlike(a: string, b: string, quoted: string)
    requires a != b && quoted == Back(a) + Front(b)
    ensures Printed([a, b], map[a := SecretSpec(a, ""), b := SecretSpec(b, quoted)]) ==
            Printed([a, b], map[a := SecretSpec(a, quoted), b := SecretSpec(b, "")])
  {
    TwoPrinted(a, "", b, quoted);
    TwoPrinted(a, quoted, b, "");
    Moved(Front(a), quoted, Back(b));
  }

  lemma Moved(front: string, quoted: string, back: string)
    ensures front + ("" + quoted + quoted) + back == front + (quoted + quoted + "") + back
  {
    assert "" + quoted + quoted == quoted + quoted + "";
  }
}
