/** Federated identity credentials: how they are named, validated and deployed one after the other. */
module FederatedCredentials {
  import opened Common

  datatype ServiceAccount = ServiceAccount(name: string, namespace: string)

  /** An identity's rendered serviceAccounts. */
  datatype Identity = Identity(name: string, serviceAccounts: seq<ServiceAccount>)

  /** The validators of Kubernetes names, which say nothing here but yes or no. */
  datatype Validators = Validators(isSubdomain: string -> bool, isLabel: string -> bool)

  const MAX_PER_IDENTITY := 20

  // ---------- Names ----------

  function ResolveName(name: string, defaultName: string): string {
    if name != "" then name else defaultName
  }

  /** strings.ReplaceAll(s, ".", "-"). */
  function Dashed(s: string): string {
    if s == [] then [] else [if s[0] == '.' then '-' else s[0]] + Dashed(s[1..])
  }

  function CredentialName(namespace: string, serviceAccount: string): string {
    namespace + "_" + Dashed(serviceAccount)
  }

  function Subject(namespace: string, serviceAccount: string): string {
    "system:serviceaccount:" + namespace + ":" + serviceAccount
  }

  lemma {:induction false} DashedIsTheSame(s: string)
    requires '.' !in s
    ensures Dashed(s) == s
  {
    if s != [] {
      DashedIsTheSame(s[1..]);
    }
  }

  lemma {:induction false} DashedAt(s: string)
    ensures |Dashed(s)| == |s|
    ensures forall i :: 0 <= i < |s| ==> Dashed(s)[i] == if s[i] == '.' then '-' else s[i]
  {
    if s != [] {
      DashedAt(s[1..]);
    }
  }

  /** The names agree, but that one may have a dot where the other has a dash. */
  predicate SameUpToDots(s: string, t: string) {
    |s| == |t| && forall i :: 0 <= i < |s| ==> s[i] == t[i] || (s[i] in ".-" && t[i] in ".-")
  }

  /** Two ServiceAccounts share a credential name exactly when only dots tell them apart from dashes. */
  lemma CredentialNamesEqualIff(n1: string, s1: string, n2: string, s2: string)
    requires '_' !in n1 && '_' !in n2
    ensures CredentialName(n1, s1) == CredentialName(n2, s2) <==> n1 == n2 && SameUpToDots(s1, s2)
    ensures '.' !in s1 && '.' !in s2 ==> (CredentialName(n1, s1) == CredentialName(n2, s2) <==> n1 == n2 && s1 == s2)
  {
    DashedAt(s1);
    DashedAt(s2);
    assert SameUpToDots(s1, s2) ==> Dashed(s1) == Dashed(s2);
    assert CredentialName(n1, s1) == n1 + ['_'] + Dashed(s1) && CredentialName(n2, s2) == n2 + ['_'] + Dashed(s2);
    if CredentialName(n1, s1) == CredentialName(n2, s2) {
      SplitsAtFirst(n1, Dashed(s1), n2, Dashed(s2), '_');
    }
    if '.' !in s1 && '.' !in s2 {
      DashedIsTheSame(s1);
      DashedIsTheSame(s2);
    }
  }

  lemma SubjectsEqualIff(n1: string, s1: string, n2: string, s2: string)
    requires ':' !in n1 && ':' !in n2
    ensures Subject(n1, s1) == Subject(n2, s2) <==> n1 == n2 && s1 == s2
  {
    var head := "system:serviceaccount:";
    if Subject(n1, s1) == Subject(n2, s2) {
      assert Subject(n1, s1)[|head|..] == n1 + [':'] + s1;
      assert Subject(n2, s2)[|head|..] == n2 + [':'] + s2;
      SplitsAtFirst(n1, s1, n2, s2, ':');
    }
  }

  // ---------- Validation ----------

  predicate IsAlphanumeric(c: char) {
    'a' <= c <= 'z' || 'A' <= c <= 'Z' || '0' <= c <= '9'
  }

  /** Azure's pattern: 3 to 120 letters, digits, '-' or '_', the first a letter or digit. */
  predicate MatchesPattern(s: string) {
    && 3 <= |s| <= 120
    && IsAlphanumeric(s[0])
    && forall i :: 0 < i < |s| ==> IsAlphanumeric(s[i]) || s[i] == '_' || s[i] == '-'
  }

  /** The regular expression ^[a-zA-Z0-9][a-zA-Z0-9_-]{2,119}$. */
  predicate FitsRegexp(s: string) {
    && s != [] && IsAlphanumeric(s[0])
    && 2 <= |s[1..]| <= 119 && forall c :: c in s[1..] ==> IsAlphanumeric(c) || c == '_' || c == '-'
  }

  lemma MatchesPatternIff(s: string)
    ensures MatchesPattern(s) <==> FitsRegexp(s)
  {
    if s != [] {
      assert forall i :: 0 < i < |s| ==> s[i] == s[1..][i - 1] && s[i] in s[1..];
    }
  }

  function NameOf(sa: ServiceAccount, ownerNamespace: string): string {
    CredentialName(NamespaceOf(sa, ownerNamespace), sa.name)
  }

  /** The account's own namespace, or the owner's if it has none. */
  function NamespaceOf(sa: ServiceAccount, ownerNamespace: string): string {
    if sa.namespace == "" then ownerNamespace else sa.namespace
  }

  predicate ValidAccount(v: Validators, sa: ServiceAccount, ownerNamespace: string) {
    var namespace := NamespaceOf(sa, ownerNamespace);
    && sa.name != "" && v.isSubdomain(sa.name)
    && namespace != "" && v.isLabel(namespace)
    && FitsRegexp(NameOf(sa, ownerNamespace))
  }

  ghost predicate NamesAreDistinct(accounts: seq<ServiceAccount>, ownerNamespace: string) {
    forall i, j :: 0 <= i < j < |accounts| ==> NameOf(accounts[i], ownerNamespace) != NameOf(accounts[j], ownerNamespace)
  }

  predicate AllValid(v: Validators, accounts: seq<ServiceAccount>, ownerNamespace: string) {
    forall sa :: sa in accounts ==> ValidAccount(v, sa, ownerNamespace)
  }

  ghost predicate AreNamesOf(names: set<string>, accounts: seq<ServiceAccount>, ownerNamespace: string) {
    && (forall sa :: sa in accounts ==> NameOf(sa, ownerNamespace) in names)
    && (forall n :: n in names ==> exists sa :: sa in accounts && NameOf(sa, ownerNamespace) == n)
  }

  /** One more account: its name is new exactly when the names stay distinct. */
  lemma DistinctOneMore(names: set<string>, accounts: seq<ServiceAccount>, sa: ServiceAccount, ownerNamespace: string)
    requires AreNamesOf(names, accounts, ownerNamespace) && NamesAreDistinct(accounts, ownerNamespace)
    ensures NamesAreDistinct(accounts + [sa], ownerNamespace) <==> NameOf(sa, ownerNamespace) !in names
    ensures AreNamesOf(names + {NameOf(sa, ownerNamespace)}, accounts + [sa], ownerNamespace)
  {
    var more, n := accounts + [sa], |accounts|;
    if NameOf(sa, ownerNamespace) in names {
      var other :| other in accounts && NameOf(other, ownerNamespace) == NameOf(sa, ownerNamespace);
      var i :| 0 <= i < n && accounts[i] == other;
      assert NameOf(more[i], ownerNamespace) == NameOf(more[n], ownerNamespace);
    }
    assert forall x :: x in more <==> x in accounts || x == sa;
  }

  predicate IsHttps(issuer: string) {
    |issuer| >= 8 && issuer[..8] == "https://"
  }

  ghost predicate ValidIdentity(v: Validators, issuer: string, id: Identity, ownerNamespace: string) {
    id.serviceAccounts != [] ==>
      && "https://" <= issuer
      && |id.serviceAccounts| <= 20
      && AllValid(v, id.serviceAccounts, ownerNamespace)
      && NamesAreDistinct(id.serviceAccounts, ownerNamespace)
  }

  method ValidateServiceAccounts(v: Validators, issuer: string, identities: seq<Identity>, ownerNamespace: string) returns (ok: bool)
    ensures ok <==> forall i :: 0 <= i < |identities| ==> ValidIdentity(v, issuer, identities[i], ownerNamespace)
  {
    for i := 0 to |identities|
      invariant forall j :: 0 <= j < i ==> ValidIdentity(v, issuer, identities[j], ownerNamespace)
    {
      if identities[i].serviceAccounts == [] {
        continue;
      }
      var valid := ValidateIdentity(v, issuer, identities[i], ownerNamespace);
      if !valid {
        return false;
      }
    }
    return true;
  }

  method ValidateIdentity(v: Validators, issuer: string, id: Identity, ownerNamespace: string) returns (ok: bool)
    requires id.serviceAccounts != []
    ensures ok <==> ValidIdentity(v, issuer, id, ownerNamespace)
  {
    if issuer == "" || !IsHttps(issuer) {
      return false;
    }
    if |id.serviceAccounts| > MAX_PER_IDENTITY {
      return false;
    }
    ok := ValidateAccounts(v, id.serviceAccounts, ownerNamespace);
  }

  method ValidateAccounts(v: Validators, accounts: seq<ServiceAccount>, ownerNamespace: string) returns (ok: bool)
    ensures ok <==> AllValid(v, accounts, ownerNamespace) && NamesAreDistinct(accounts, ownerNamespace)
  {
    var seen: set<string> := {};
    for i := 0 to |accounts|
      invariant CheckedSoFar(v, accounts[..i], ownerNamespace, seen)
    {
      var valid := ValidateAccount(v, accounts[i], ownerNamespace);
      if !valid {
        assert accounts[i] in accounts;
        return false;
      }
      if NameOf(accounts[i], ownerNamespace) in seen {
        SeenNameClashes(v, accounts, i, ownerNamespace, seen);
        return false;
      }
      CheckedOneMore(v, accounts, i, ownerNamespace, seen);
      seen := seen + {NameOf(accounts[i], ownerNamespace)};
    }
    assert accounts[..|accounts|] == accounts;
    return true;
  }

  /** The checks of one account, in the order of the loop's body. */
  method ValidateAccount(v: Validators, sa: ServiceAccount, ownerNamespace: string) returns (ok: bool)
    ensures ok <==> ValidAccount(v, sa, ownerNamespace)
  {
    if sa.name == "" {
      return false;
    }
    if !v.isSubdomain(sa.name) {
      return false;
    }
    var namespace := ResolveName(sa.namespace, ownerNamespace);
    if namespace == "" {
      return false;
    }
    if !v.isLabel(namespace) {
      return false;
    }
    MatchesPatternIff(CredentialName(namespace, sa.name));
    return MatchesPattern(CredentialName(namespace, sa.name));
  }

  lemma CheckedOneMore(v: Validators, accounts: seq<ServiceAccount>, i: nat, ownerNamespace: string, seen: set<string>)
    requires i < |accounts| && CheckedSoFar(v, accounts[..i], ownerNamespace, seen)
    requires ValidAccount(v, accounts[i], ownerNamespace) && NameOf(accounts[i], ownerNamespace) !in seen
    ensures CheckedSoFar(v, accounts[..i + 1], ownerNamespace, seen + {NameOf(accounts[i], ownerNamespace)})
  {
    assert accounts[..i + 1] == accounts[..i] + [accounts[i]];
    DistinctOneMore(seen, accounts[..i], accounts[i], ownerNamespace);
  }

  lemma SeenNameClashes(v: Validators, accounts: seq<ServiceAccount>, i: nat, ownerNamespace: string, seen: set<string>)
    requires i < |accounts| && CheckedSoFar(v, accounts[..i], ownerNamespace, seen)
    requires NameOf(accounts[i], ownerNamespace) in seen
    ensures !NamesAreDistinct(accounts, ownerNamespace)
  {
    var other :| other in accounts[..i] && NameOf(other, ownerNamespace) == NameOf(accounts[i], ownerNamespace);
    var j :| 0 <= j < i && accounts[..i][j] == other;
    assert NameOf(accounts[j], ownerNamespace) == NameOf(accounts[i], ownerNamespace);
  }

  ghost predicate CheckedSoFar(v: Validators, accounts: seq<ServiceAccount>, ownerNamespace: string, seen: set<string>) {
    AllValid(v, accounts, ownerNamespace) && NamesAreDistinct(accounts, ownerNamespace) && AreNamesOf(seen, accounts, ownerNamespace)
  }

  // ---------- Deployment ----------

  /** A registered credential and the credentials it waits for. */
  datatype Credential = Credential(name: string, subject: string, dependsOn: seq<string>)

  predicate IsCredentialOf(c: Credential, sa: ServiceAccount, ownerNamespace: string) {
    && c.name == NameOf(sa, ownerNamespace)
    && c.subject == "system:serviceaccount:" + NamespaceOf(sa, ownerNamespace) + ":" + sa.name
  }

  /** The credential at i waits for the one before it, and for no other. */
  predicate WaitsForPrevious(credentials: seq<Credential>, i: nat)
    requires i < |credentials|
  {
    if i == 0 then credentials[i].dependsOn == [] else credentials[i].dependsOn == [credentials[i - 1].name]
  }

  ghost predicate AreCredentialsOf(credentials: seq<Credential>, accounts: seq<ServiceAccount>, ownerNamespace: string) {
    |credentials| == |accounts| && forall i :: 0 <= i < |accounts| ==> IsCredentialOf(credentials[i], accounts[i], ownerNamespace)
  }

  ghost predicate IsChain(credentials: seq<Credential>) {
    forall i :: 0 <= i < |credentials| ==> WaitsForPrevious(credentials, i)
  }

  lemma ChainOneMore(credentials: seq<Credential>, c: Credential)
    requires IsChain(credentials)
    requires c.dependsOn == if credentials == [] then [] else [credentials[|credentials| - 1].name]
    ensures IsChain(credentials + [c])
  {
    var more, n := credentials + [c], |credentials|;
    forall i | 0 <= i < |more| ensures WaitsForPrevious(more, i) {
      if i < n {
        assert WaitsForPrevious(credentials, i);
      } else {
        assert more[n] == c && (n > 0 ==> more[n - 1] == credentials[n - 1]);
      }
    }
  }

  /** deployFederatedCredentials; no result means the issuer is not configured. */
  method DeployFederatedCredentials(issuer: string, id: Identity, ownerNamespace: string) returns (credentials: Option<seq<Credential>>)
    ensures credentials.None? <==> id.serviceAccounts != [] && issuer == ""
    ensures credentials.Some? ==> AreCredentialsOf(credentials.value, id.serviceAccounts, ownerNamespace) && IsChain(credentials.value)
  {
    var accounts := id.serviceAccounts;
    if accounts == [] {
      return Some([]);
    }
    if issuer == "" {
      return None;
    }
    var previous: seq<string> := [];
    var registered: seq<Credential> := [];
    for i := 0 to |accounts|
      invariant AreCredentialsOf(registered, accounts[..i], ownerNamespace) && IsChain(registered)
      invariant previous == if registered == [] then [] else [registered[|registered| - 1].name]
    {
      var credential := NewCredential(accounts[i], ownerNamespace, previous);
      ChainOneMore(registered, credential);
      registered := registered + [credential];
      previous := [credential.name];
    }
    assert accounts[..|accounts|] == accounts;
    return Some(registered);
  }

  function NewCredential(sa: ServiceAccount, ownerNamespace: string, dependsOn: seq<string>): (c: Credential)
    ensures IsCredentialOf(c, sa, ownerNamespace) && c.dependsOn == dependsOn
  {
    var namespace := ResolveName(sa.namespace, ownerNamespace);
    Credential(CredentialName(namespace, sa.name), Subject(namespace, sa.name), dependsOn)
  }

  // ---------- One at a time ----------

  ghost predicate HaveDistinctNames(credentials: seq<Credential>) {
    forall i, j :: 0 <= i < j < |credentials| ==> credentials[i].name != credentials[j].name
  }

  lemma ValidatedNamesAreDistinct(credentials: seq<Credential>, accounts: seq<ServiceAccount>, ownerNamespace: string)
    requires AreCredentialsOf(credentials, accounts, ownerNamespace) && NamesAreDistinct(accounts, ownerNamespace)
    ensures HaveDistinctNames(credentials)
  {
    forall i, j | 0 <= i < j < |credentials| ensures credentials[i].name != credentials[j].name {
      assert IsCredentialOf(credentials[i], accounts[i], ownerNamespace) && IsCredentialOf(credentials[j], accounts[j], ownerNamespace);
    }
  }

  /** A path of credentials, each waiting for the next. */
  ghost predicate IsWait(credentials: seq<Credential>, path: seq<nat>) {
    && |path| >= 2
    && (forall s :: 0 <= s < |path| ==> path[s] < |credentials|)
    && (forall s :: 0 <= s < |path| - 1 ==> credentials[path[s + 1]].name in credentials[path[s]].dependsOn)
  }

  ghost predicate WaitsFor(credentials: seq<Credential>, later: nat, earlier: nat) {
    exists path :: IsWait(credentials, path) && path[0] == later && path[|path| - 1] == earlier
  }

  lemma WaitsOnlyForPrevious(credentials: seq<Credential>, i: nat, j: nat)
    requires IsChain(credentials) && HaveDistinctNames(credentials)
    requires i < |credentials| && j < |credentials|
    ensures credentials[j].name in credentials[i].dependsOn <==> j == i - 1
  {
    assert WaitsForPrevious(credentials, i);
    if i > 0 {
      assert credentials[i].dependsOn == [credentials[i - 1].name];
    }
  }

  /** Names being distinct, a path can only go down the list one by one. */
  lemma {:induction false} WaitsGoDown(credentials: seq<Credential>, path: seq<nat>, s: nat)
    requires IsChain(credentials) && HaveDistinctNames(credentials) && IsWait(credentials, path) && s < |path|
    ensures path[s] == path[0] - s
  {
    if s > 0 {
      WaitsGoDown(credentials, path, s - 1);
      assert credentials[path[s - 1 + 1]].name in credentials[path[s - 1]].dependsOn;
      WaitsOnlyForPrevious(credentials, path[s - 1], path[s]);
    }
  }

  lemma LaterWaits(credentials: seq<Credential>, i: nat, j: nat)
    requires IsChain(credentials) && HaveDistinctNames(credentials) && i < j < |credentials|
    ensures WaitsFor(credentials, j, i)
  {
    var path: seq<nat> := seq(j - i + 1, s requires 0 <= s <= j - i => j - s);
    forall s | 0 <= s < |path| - 1 ensures credentials[path[s + 1]].name in credentials[path[s]].dependsOn {
      WaitsOnlyForPrevious(credentials, path[s], path[s + 1]);
    }
    assert IsWait(credentials, path);
  }

  lemma WaitsIffLater(credentials: seq<Credential>, i: nat, j: nat)
    requires IsChain(credentials) && HaveDistinctNames(credentials) && i < |credentials| && j < |credentials|
    ensures WaitsFor(credentials, j, i) <==> i < j
  {
    if i < j {
      LaterWaits(credentials, i, j);
    }
    if WaitsFor(credentials, j, i) {
      var path :| IsWait(credentials, path) && path[0] == j && path[|path| - 1] == i;
      WaitsGoDown(credentials, path, |path| - 1);
    }
  }

  /**
   The credentials of a validated identity have distinct names, no more than Azure allows, and of any
   two exactly one waits for the other, the later in the list: never are two written at once.
   */
  lemma ValidatedCredentialsAreWrittenInOrder(v: Validators, issuer: string, id: Identity, ownerNamespace: string,
                                              credentials: seq<Credential>, i: nat, j: nat)
    requires ValidIdentity(v, issuer, id, ownerNamespace)
    requires AreCredentialsOf(credentials, id.serviceAccounts, ownerNamespace) && IsChain(credentials)
    requires i < |credentials| && j < |credentials|
    ensures |credentials| <= 20
    ensures credentials[i].name == credentials[j].name <==> i == j
    ensures WaitsFor(credentials, j, i) <==> i < j
  {
    ValidatedNamesAreDistinct(credentials, id.serviceAccounts, ownerNamespace);
    WaitsIffLater(credentials, i, j);
  }
}
