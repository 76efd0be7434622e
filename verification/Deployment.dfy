/**
 The program of a stack: a memoised depth-first walk that registers every resource after the
 dependencies it names, with their handles.
 */
module Deployment {
  import opened Common
  import opened Kinds

  /** A dependency as a manifest names it. */
  datatype DependencyId = DependencyId(kind: Kind, name: string)

  /** kind is the Go type of the object, declaredKind the kind its type meta declares. */
  datatype Resource = Resource(kind: Kind, declaredKind: Kind, namespace: string, name: string, dependsOn: seq<DependencyId>) {
    /** The identity deployResourceWithDeps memoises. */
    function Id(): DependencyId {
      DependencyId(declaredKind, name)
    }

    /** The kind deployResource dispatches on. */
    function DispatchKind(): Kind {
      if declaredKind == NoKind then kind else declaredKind
    }
  }

  /** InfrastructureManifests: one list for each of the twelve kinds. */
  datatype Infra = Infra(lists: map<Kind, seq<Resource>>) {
    function ListOf(kind: Kind): seq<Resource> {
      if kind.Known() && kind in lists then lists[kind] else []
    }

    function Get(id: DependencyId): Option<Resource> {
      FindByName(id.name, ListOf(id.kind))
    }

    /** Every identity Get finds. */
    ghost function Ids(): set<DependencyId> {
      set kind, r | kind in lists && r in ListOf(kind) :: DependencyId(kind, r.name)
    }

    lemma IdsAreFound(id: DependencyId)
      ensures id in Ids() <==> Get(id).Some?
    {
    }

    predicate NeedsResourceGroup() {
      ListOf(AzureVirtualMachine) != [] || ListOf(AzureVirtualDesktop) != [] || ListOf(AzurePowerShellScript) != []
    }

    /** Every object sits in the list of its type and declares the kind of that type. */
    ghost predicate WellKinded() {
      forall kind: Kind :: AllDeclare(ListOf(kind), kind)
    }
  }

  predicate AllDeclare(list: seq<Resource>, kind: Kind) {
    forall r | r in list :: r.kind == kind && r.declaredKind == kind
  }

  function FindByName(name: string, list: seq<Resource>): (r: Option<Resource>)
    ensures r.Some? ==> r.value in list && r.value.name == name
    ensures r.None? ==> forall x | x in list :: x.name != name
  {
    if list == [] then None
    else if list[0].name == name then Some(list[0])
    else FindByName(name, list[1..])
  }

  /** The first of its name in a list is the one found under that name. */
  lemma {:induction false} FirstOfItsNameIsFound(list: seq<Resource>, i: nat)
    requires i < |list| && forall j :: 0 <= j < i ==> list[j].name != list[i].name
    ensures FindByName(list[i].name, list) == Some(list[i])
  {
    if i > 0 {
      assert list[0].name != list[i].name;
      FirstOfItsNameIsFound(list[1..], i - 1);
    }
  }

  /** ensureResourceGVK. */
  function EnsureKind(r: Resource): Resource {
    if r.declaredKind != NoKind then r else r.(declaredKind := r.kind)
  }

  // ---------- The dependency graph ----------

  /** The dependencies that resolve to something; the others are passed over. */
  function Found(infra: Infra, ids: seq<DependencyId>): seq<DependencyId> {
    if ids == [] then []
    else
      var last := ids[|ids| - 1];
      Found(infra, ids[..|ids| - 1]) + if infra.Get(last).Some? then [last] else []
  }

  lemma {:induction false} FoundAre(infra: Infra, ids: seq<DependencyId>, id: DependencyId)
    ensures id in Found(infra, ids) <==> id in ids && infra.Get(id).Some?
  {
    if ids != [] {
      var n := |ids| - 1;
      FoundAre(infra, ids[..n], id);
      assert ids == ids[..n] + [ids[n]];
    }
  }

  /** The same for the first dependencies of a resource. */
  function FoundUpTo(infra: Infra, r: Resource, i: nat): seq<DependencyId>
    requires i <= |r.dependsOn|
  {
    Found(infra, r.dependsOn[..i])
  }

  lemma NoneAndAllFound(infra: Infra, r: Resource)
    ensures FoundUpTo(infra, r, 0) == [] && FoundUpTo(infra, r, |r.dependsOn|) == Found(infra, r.dependsOn)
  {
    assert r.dependsOn[..|r.dependsOn|] == r.dependsOn;
  }

  lemma FoundSnoc(infra: Infra, r: Resource, i: nat)
    requires i < |r.dependsOn|
    ensures FoundUpTo(infra, r, i + 1) ==
      FoundUpTo(infra, r, i) + if infra.Get(r.dependsOn[i]).Some? then [r.dependsOn[i]] else []
  {
    assert r.dependsOn[..i + 1][..i] == r.dependsOn[..i];
  }

  predicate DependsOn(infra: Infra, a: DependencyId, b: DependencyId) {
    infra.Get(a).Some? && infra.Get(b).Some? && b in infra.Get(a).value.dependsOn
  }

  ghost predicate IsPath(infra: Infra, path: seq<DependencyId>) {
    forall i :: 0 <= i < |path| - 1 ==> IsStep(infra, path, i)
  }

  predicate IsStep(infra: Infra, path: seq<DependencyId>, i: nat)
    requires i + 1 < |path|
  {
    DependsOn(infra, path[i], path[i + 1])
  }

  ghost predicate Acyclic(infra: Infra) {
    forall path | |path| > 1 && IsPath(infra, path) :: path[0] != path[|path| - 1]
  }

  lemma SubpathIsPath(infra: Infra, path: seq<DependencyId>, i: nat)
    requires i <= |path| && IsPath(infra, path)
    ensures IsPath(infra, path[i..])
  {
    var rest := path[i..];
    forall j | 0 <= j < |rest| - 1 ensures IsStep(infra, rest, j) {
      assert IsStep(infra, path, i + j);
    }
  }

  lemma PathsDoNotRepeat(infra: Infra, path: seq<DependencyId>, id: DependencyId)
    requires Acyclic(infra) && IsPath(infra, path + [id])
    ensures id !in path
  {
    if i :| 0 <= i < |path| && path[i] == id {
      SubpathIsPath(infra, path + [id], i);
    }
  }

  // ---------- What a program registers ----------

  /** One call of a deploy function: deps are the positions in the log of the handles it was given. */
  datatype Registration = Registration(resource: Resource, deps: seq<nat>)

  /** The handles are those of the registrations of ids, in the same order. */
  ghost predicate AreHandlesOf(log: seq<Registration>, handles: seq<nat>, ids: seq<DependencyId>) {
    && |handles| == |ids|
    && forall j :: 0 <= j < |ids| ==> handles[j] < |log| && log[handles[j]].resource.Id() == ids[j]
  }

  /** The entry at n resolves under its own identity and was given its dependencies' handles, all registered before it. */
  ghost predicate EntryInOrder(infra: Infra, log: seq<Registration>, n: nat)
    requires n < |log|
  {
    && infra.Get(log[n].resource.Id()) == Some(log[n].resource)
    && AreHandlesOf(log, log[n].deps, Found(infra, log[n].resource.dependsOn))
    && forall handle | handle in log[n].deps :: handle < n
  }

  ghost predicate InDependencyOrder(infra: Infra, log: seq<Registration>) {
    && (forall n :: 0 <= n < |log| ==> EntryInOrder(infra, log, n))
    && (forall m, n :: 0 <= m < n < |log| ==> HaveOtherIds(log, m, n))
  }

  predicate HaveOtherIds(log: seq<Registration>, m: nat, n: nat)
    requires m < |log| && n < |log|
  {
    log[m].resource.Id() != log[n].resource.Id()
  }

  /** The memo maps every registered identity to its handle, and nothing else. */
  ghost predicate IsMemoOf(log: seq<Registration>, memo: map<DependencyId, nat>) {
    && (forall n :: 0 <= n < |log| ==> Remembers(memo, log, n))
    && (forall id | id in memo :: memo[id] < |log| && log[memo[id]].resource.Id() == id)
  }

  predicate Remembers(memo: map<DependencyId, nat>, log: seq<Registration>, n: nat)
    requires n < |log|
  {
    var id := log[n].resource.Id();
    id in memo && memo[id] == n
  }

  lemma RegisterKeepsOrder(infra: Infra, log: seq<Registration>, memo: map<DependencyId, nat>, r: Resource, deps: seq<nat>)
    requires InDependencyOrder(infra, log) && IsMemoOf(log, memo)
    requires infra.Get(r.Id()) == Some(r) && r.Id() !in memo
    requires AreHandlesOf(log, deps, Found(infra, r.dependsOn))
    ensures InDependencyOrder(infra, log + [Registration(r, deps)])
    ensures IsMemoOf(log + [Registration(r, deps)], memo[r.Id() := |log|])
  {
    var last := Registration(r, deps);
    forall n | 0 <= n < |log + [last]| ensures EntryInOrder(infra, log + [last], n) {
      if n < |log| {
        EntryStaysInOrder(infra, log, last, n);
      } else {
        HandlesStay(log, last, deps, Found(infra, r.dependsOn));
      }
    }
    MemoOneMore(log, memo, r, deps);
    forall m, n | 0 <= m < n < |log + [last]| ensures HaveOtherIds(log + [last], m, n) {
      assert n < |log| ==> HaveOtherIds(log, m, n);
    }
  }

  lemma HandlesStay(log: seq<Registration>, last: Registration, handles: seq<nat>, ids: seq<DependencyId>)
    requires AreHandlesOf(log, handles, ids)
    ensures AreHandlesOf(log + [last], handles, ids) && forall handle | handle in handles :: handle < |log|
  {
  }

  lemma EntryStaysInOrder(infra: Infra, log: seq<Registration>, last: Registration, n: nat)
    requires n < |log| && EntryInOrder(infra, log, n)
    ensures EntryInOrder(infra, log + [last], n)
  {
    HandlesStay(log, last, log[n].deps, Found(infra, log[n].resource.dependsOn));
  }

  /** A new registration is remembered at its position, and is under no name that was there. */
  lemma MemoOneMore(log: seq<Registration>, memo: map<DependencyId, nat>, r: Resource, deps: seq<nat>)
    requires IsMemoOf(log, memo) && r.Id() !in memo
    ensures IsMemoOf(log + [Registration(r, deps)], memo[r.Id() := |log|])
    ensures forall m :: 0 <= m < |log| ==> HaveOtherIds(log + [Registration(r, deps)], m, |log|)
  {
    var longer, memo' := log + [Registration(r, deps)], memo[r.Id() := |log|];
    forall n | 0 <= n < |longer| ensures Remembers(memo', longer, n) && (n < |log| ==> HaveOtherIds(longer, n, |log|)) {
      assert n < |log| ==> Remembers(memo, log, n);
    }
  }

  lemma HandlesExtend(log: seq<Registration>, longer: seq<Registration>, handles: seq<nat>, ids: seq<DependencyId>,
                      handle: nat, id: DependencyId)
    requires AreHandlesOf(log, handles, ids) && log <= longer
    requires handle < |longer| && longer[handle].resource.Id() == id
    ensures AreHandlesOf(longer, handles + [handle], ids + [id])
  {
  }

  /** The handle of one more dependency that resolves. */
  lemma HandlesOneMore(infra: Infra, r: Resource, i: nat, log: seq<Registration>, longer: seq<Registration>, memo: map<DependencyId, nat>,
                       handles: seq<nat>, handle: nat)
    requires i < |r.dependsOn| && infra.Get(r.dependsOn[i]).Some? && log <= longer
    requires AreHandlesOf(log, handles, FoundUpTo(infra, r, i))
    requires IsMemoOf(longer, memo) && r.dependsOn[i] in memo && memo[r.dependsOn[i]] == handle
    ensures AreHandlesOf(longer, handles + [handle], FoundUpTo(infra, r, i + 1))
  {
    FoundSnoc(infra, r, i);
    HandlesExtend(log, longer, handles, FoundUpTo(infra, r, i), handle, r.dependsOn[i]);
  }

  lemma PathExtends(infra: Infra, path: seq<DependencyId>, a: DependencyId, b: DependencyId)
    requires IsPath(infra, path + [a]) && DependsOn(infra, a, b)
    ensures IsPath(infra, path + [a] + [b])
  {
    var longer := path + [a] + [b];
    forall j | 0 <= j < |longer| - 1 ensures IsStep(infra, longer, j) {
      if j < |path| {
        assert IsStep(infra, path + [a], j);
      }
    }
  }

  /** The log and the memo only grew, and no identity on the way here was added. */
  ghost predicate Grew(log: seq<Registration>, memo: map<DependencyId, nat>,
                       log': seq<Registration>, memo': map<DependencyId, nat>, path: seq<DependencyId>) {
    && log <= log'
    && memo.Keys <= memo'.Keys
    && forall id | id in path :: id in memo' ==> id in memo
  }

  lemma GrewFurther(log: seq<Registration>, memo: map<DependencyId, nat>, log': seq<Registration>, memo': map<DependencyId, nat>,
                    log'': seq<Registration>, memo'': map<DependencyId, nat>, path: seq<DependencyId>)
    requires Grew(log, memo, log', memo', path) && Grew(log', memo', log'', memo'', path)
    ensures Grew(log, memo, log'', memo'', path)
  {
  }

  /** Following a dependency makes the way longer, and leaves fewer identities that are not on it. */
  lemma ReachedDependency(infra: Infra, path: seq<DependencyId>, r: Resource, i: nat, dep: Resource)
    requires infra.WellKinded() && infra.Get(r.Id()) == Some(r) && IsPath(infra, path + [r.Id()]) && r.Id() !in path
    requires i < |r.dependsOn| && infra.Get(r.dependsOn[i]) == Some(dep)
    ensures infra.Get(dep.Id()) == Some(dep) && dep.Id() == r.dependsOn[i] && dep.Id() in infra.Ids()
    ensures IsPath(infra, path + [r.Id()] + [dep.Id()])
    ensures infra.Ids() - (set id | id in path + [r.Id()]) < infra.Ids() - (set id | id in path)
  {
    WellKindedId(infra, r.dependsOn[i].kind, dep);
    infra.IdsAreFound(r.Id());
    PathExtends(infra, path, r.Id(), dep.Id());
    OneFewerLeft(infra.Ids(), path, r.Id());
  }

  lemma OneFewerLeft(ids: set<DependencyId>, path: seq<DependencyId>, id: DependencyId)
    requires id in ids && id !in path
    ensures ids - (set x | x in path + [id]) < ids - (set x | x in path)
  {
    var here, there := set x | x in path, set x | x in path + [id];
    assert there == here + {id};
    assert id in ids - here;
  }

  ghost predicate AllIn(rs: seq<Resource>, memo: map<DependencyId, nat>) {
    forall r | r in rs :: r.Id() in memo
  }

  ghost predicate ListDone(infra: Infra, kind: Kind, memo: map<DependencyId, nat>) {
    AllIn(infra.ListOf(kind), memo)
  }

  lemma AllInSnoc(rs: seq<Resource>, i: nat, memo: map<DependencyId, nat>, memo': map<DependencyId, nat>)
    requires i < |rs| && AllIn(rs[..i], memo) && memo.Keys <= memo'.Keys && rs[i].Id() in memo'
    ensures AllIn(rs[..i + 1], memo')
  {
    assert rs[..i + 1] == rs[..i] + [rs[i]];
  }

  lemma TrivialPath(infra: Infra, id: DependencyId)
    ensures IsPath(infra, [] + [id])
  {
  }

  lemma ListsStayDone(infra: Infra, kinds: seq<Kind>, memo: map<DependencyId, nat>, memo': map<DependencyId, nat>)
    requires memo.Keys <= memo'.Keys && forall kind | kind in kinds :: ListDone(infra, kind, memo)
    ensures forall kind | kind in kinds :: ListDone(infra, kind, memo')
  {
  }

  /** When the loop over a list meets an identity that is not registered yet, it holds the resource of that identity. */
  lemma FirstUnregisteredIsFound(infra: Infra, kind: Kind, i: nat, memo: map<DependencyId, nat>)
    requires infra.WellKinded() && i < |infra.ListOf(kind)|
    requires AllIn(infra.ListOf(kind)[..i], memo) && infra.ListOf(kind)[i].Id() !in memo
    ensures infra.Get(infra.ListOf(kind)[i].Id()) == Some(infra.ListOf(kind)[i])
  {
    var list := infra.ListOf(kind);
    WellKindedId(infra, kind, list[i]);
    forall j | 0 <= j < i ensures list[j].name != list[i].name {
      assert list[j] in list[..i];
      WellKindedId(infra, kind, list[j]);
    }
    FirstOfItsNameIsFound(list, i);
  }

  class Program {
    const infra: Infra
    /** The SDK fails to deploy a resource when this many registrations came before it. */
    const fails: (Resource, nat) -> bool
    const resourceGroupFails: bool
    var resourceGroup: Option<string>
    var provisioned: map<DependencyId, nat>
    var log: seq<Registration>

    constructor (infra: Infra, fails: (Resource, nat) -> bool, resourceGroupFails: bool)
      ensures this.infra == infra && this.fails == fails && this.resourceGroupFails == resourceGroupFails
      ensures resourceGroup == None && provisioned == map[] && log == []
    {
      this.infra, this.fails, this.resourceGroupFails := infra, fails, resourceGroupFails;
      resourceGroup, provisioned, log := None, map[], [];
    }

    /** The memo holds exactly what was registered, which came in dependency order. */
    ghost predicate Valid()
      reads this
    {
      InDependencyOrder(infra, log) && IsMemoOf(log, provisioned)
    }

    /** Some resource that lookups return cannot be deployed now. */
    ghost predicate Blocked()
      reads this
    {
      exists r: Resource :: infra.Get(r.Id()) == Some(r) && fails(r, |log|)
    }

    method DeployResource(r: Resource, deps: seq<nat>) returns (result: Result<nat, string>)
      requires r.DispatchKind() == r.kind
      requires var kind := r.DispatchKind();
        kind.AzurePowerShellScript? || kind.AzureVirtualMachine? || kind.AzureVirtualDesktop? ==> resourceGroup.Some?
      modifies this`log
      ensures result.Success? <==> !r.kind.NoKind? && !r.kind.OtherKind? && !fails(r, |old(log)|)
      ensures result.Success? ==> result.value == |old(log)| && log == old(log) + [Registration(r, deps)]
      ensures result.Failure? ==> log == old(log)
    {
      if !r.DispatchKind().Known() {
        return Failure("unknown resource kind");
      }
      if fails(r, |log|) {
        return Failure("deployment failed");
      }
      result := Success(|log|);
      log := log + [Registration(r, deps)];
    }

    /** path is how the walk came to r. */
    method DeployResourceWithDeps(r: Resource, ghost path: seq<DependencyId>) returns (result: Result<nat, string>)
      requires Valid() && infra.WellKinded() && Acyclic(infra)
      requires infra.NeedsResourceGroup() ==> resourceGroup.Some?
      requires r.Id() in provisioned || infra.Get(r.Id()) == Some(r)
      requires r.Id() in infra.Ids() && IsPath(infra, path + [r.Id()])
      modifies this`log, this`provisioned
      decreases infra.Ids() - (set id | id in path), 2
      ensures Valid() && Grew(old(log), old(provisioned), log, provisioned, path)
      ensures result.Success? ==> r.Id() in provisioned && provisioned[r.Id()] == result.value
      ensures result.Failure? ==> Blocked()
    {
      var id := r.Id();
      if id in provisioned {
        return Success(provisioned[id]);
      }
      PathsDoNotRepeat(infra, path, id);
      var deps := DeployDependencies(r, path);
      if deps.Failure? {
        return Failure(deps.error);
      }
      WellKindedDispatch(infra, r);
      ghost var before := log;
      result := DeployResource(r, deps.value);
      if result.Success? {
        RegisterKeepsOrder(infra, before, provisioned, r, deps.value);
        provisioned := provisioned[id := result.value];
      }
    }

    /** The loop over the dependencies that a manifest names. */
    method DeployDependencies(r: Resource, ghost path: seq<DependencyId>) returns (result: Result<seq<nat>, string>)
      requires Valid() && infra.WellKinded() && Acyclic(infra)
      requires infra.NeedsResourceGroup() ==> resourceGroup.Some?
      requires infra.Get(r.Id()) == Some(r) && IsPath(infra, path + [r.Id()]) && r.Id() !in path && r.Id() in infra.Ids()
      modifies this`log, this`provisioned
      decreases infra.Ids() - (set id | id in path), 1
      ensures Valid() && Grew(old(log), old(provisioned), log, provisioned, path + [r.Id()])
      ensures result.Success? ==> AreHandlesOf(log, result.value, Found(infra, r.dependsOn))
      ensures result.Failure? ==> Blocked()
    {
      var deps: seq<nat> := [];
      ghost var here := path + [r.Id()];
      NoneAndAllFound(infra, r);
      for i := 0 to |r.dependsOn|
        invariant Valid() && Grew(old(log), old(provisioned), log, provisioned, here)
        invariant AreHandlesOf(log, deps, FoundUpTo(infra, r, i))
      {
        var target := infra.Get(r.dependsOn[i]);
        if target.None? {
          FoundSnoc(infra, r, i);
        } else {
          var handle := DeployDependency(r, i, target.value, deps, path, old(log), old(provisioned));
          if handle.Failure? {
            return Failure(handle.error);
          }
          deps := deps + [handle.value];
        }
      }
      result := Success(deps);
    }

    /** A dependency that resolves. */
    method DeployDependency(r: Resource, i: nat, target: Resource, ghost deps: seq<nat>, ghost path: seq<DependencyId>,
                            ghost before: seq<Registration>, ghost memo: map<DependencyId, nat>)
      returns (result: Result<nat, string>)
      requires Valid() && infra.WellKinded() && Acyclic(infra) && i < |r.dependsOn| && infra.Get(r.dependsOn[i]) == Some(target)
      requires infra.NeedsResourceGroup() ==> resourceGroup.Some?
      requires infra.Get(r.Id()) == Some(r) && IsPath(infra, path + [r.Id()]) && r.Id() !in path && r.Id() in infra.Ids()
      requires AreHandlesOf(log, deps, FoundUpTo(infra, r, i)) && Grew(before, memo, log, provisioned, path + [r.Id()])
      modifies this`log, this`provisioned
      decreases infra.Ids() - (set id | id in path), 0
      ensures Valid() && Grew(before, memo, log, provisioned, path + [r.Id()])
      ensures result.Success? ==> AreHandlesOf(log, deps + [result.value], FoundUpTo(infra, r, i + 1))
      ensures result.Failure? ==> Blocked()
    {
      ReachedDependency(infra, path, r, i, target);
      result := DeployResourceWithDeps(target, path + [r.Id()]);
      GrewFurther(before, memo, old(log), old(provisioned), log, provisioned, path + [r.Id()]);
      if result.Success? {
        HandlesOneMore(infra, r, i, old(log), log, provisioned, deps, result.value);
      }
    }

    /** One of the twelve loops of deployFunc. */
    method DeployList(kind: Kind) returns (result: Result<(), string>)
      requires Valid() && infra.WellKinded() && Acyclic(infra)
      requires infra.NeedsResourceGroup() ==> resourceGroup.Some?
      modifies this`log, this`provisioned
      ensures Valid() && old(provisioned.Keys) <= provisioned.Keys
      ensures result.Success? ==> ListDone(infra, kind, provisioned)
      ensures result.Failure? ==> Blocked()
    {
      var list := infra.ListOf(kind);
      for i := 0 to |list|
        invariant Valid() && old(provisioned.Keys) <= provisioned.Keys && AllIn(list[..i], provisioned)
      {
        var r := list[i];
        WellKindedId(infra, kind, r);
        TrivialPath(infra, r.Id());
        if r.Id() !in provisioned {
          FirstUnregisteredIsFound(infra, kind, i, provisioned);
        }
        ghost var before := provisioned;
        var handle := DeployResourceWithDeps(r, []);
        if handle.Failure? {
          return Failure(handle.error);
        }
        AllInSnoc(list, i, before, provisioned);
      }
      assert list[..|list|] == list;
      result := Success(());
    }

    /** The loops of deployFunc, one after the other. */
    method DeployLists(order: seq<Kind>) returns (result: Result<(), string>)
      requires Valid() && infra.WellKinded() && Acyclic(infra)
      requires infra.NeedsResourceGroup() ==> resourceGroup.Some?
      modifies this`log, this`provisioned
      ensures Valid()
      ensures result.Success? ==> forall kind | kind in order :: ListDone(infra, kind, provisioned)
      ensures result.Failure? ==> Blocked()
    {
      for k := 0 to |order|
        invariant Valid()
        invariant forall kind | kind in order[..k] :: ListDone(infra, kind, provisioned)
      {
        assert order[..k + 1] == order[..k] + [order[k]];
        ghost var before := provisioned;
        var step := DeployList(order[k]);
        ListsStayDone(infra, order[..k], before, provisioned);
        if step.Failure? {
          return step;
        }
      }
      assert order[..|order|] == order;
      result := Success(());
    }

    /** deployFunc, with the resource group that Create asks for. */
    method Run() returns (result: Result<(), string>)
      requires Valid() && log == [] && infra.WellKinded() && Acyclic(infra)
      modifies this
      ensures Valid() && InDependencyOrder(infra, log)
      ensures result.Success? ==> provisioned.Keys == infra.Ids()
      ensures result.Success? ==> forall id :: id in provisioned <==> IsListed(infra, id)
      ensures result.Success? ==> (resourceGroup.Some? <==> old(resourceGroup).Some? || ListsAzureGuests(infra))
      ensures result.Failure? ==> (infra.NeedsResourceGroup() && resourceGroupFails) || Blocked()
      ensures infra.NeedsResourceGroup() && resourceGroupFails ==> result.Failure? && log == []
    {
      NeedsResourceGroupIff(infra);
      if infra.NeedsResourceGroup() {
        if resourceGroupFails {
          return Failure("resource group failed");
        }
        resourceGroup := Some("azureRGName");
      }
      result := DeployLists(DEPLOY_ORDER);
      if result.Success? {
        EverythingIsCovered(infra, log, provisioned);
        IdsAreThoseListed(infra);
      }
    }
  }

  lemma WellKindedId(infra: Infra, kind: Kind, r: Resource)
    requires infra.WellKinded() && r in infra.ListOf(kind)
    ensures r.Id() == DependencyId(kind, r.name) && infra.Get(r.Id()).Some? && r.Id() in infra.Ids()
  {
  }

  /** With its declared kind set, a resource is dispatched by its type, and the resource group it needs was asked for. */
  lemma WellKindedDispatch(infra: Infra, r: Resource)
    requires infra.WellKinded() && infra.Get(r.Id()) == Some(r)
    ensures r.DispatchKind() == r.kind == r.declaredKind
    ensures r.kind.AzurePowerShellScript? || r.kind.AzureVirtualMachine? || r.kind.AzureVirtualDesktop? ==> infra.NeedsResourceGroup()
  {
  }

  /** One of the twelve lists has a resource of this name. */
  ghost predicate IsListed(infra: Infra, id: DependencyId) {
    !id.kind.NoKind? && !id.kind.OtherKind? && id.kind in infra.lists && exists r :: r in infra.lists[id.kind] && r.name == id.name
  }

  lemma IdsAreThoseListed(infra: Infra)
    ensures forall id :: id in infra.Ids() <==> IsListed(infra, id)
  {
  }

  /** One of the lists whose deploy functions put their resources into the resource group is not empty. */
  ghost predicate ListsAzureGuests(infra: Infra) {
    exists kind | kind in infra.lists && (kind.AzureVirtualMachine? || kind.AzureVirtualDesktop? || kind.AzurePowerShellScript?) ::
      infra.lists[kind] != []
  }

  lemma NeedsResourceGroupIff(infra: Infra)
    ensures infra.NeedsResourceGroup() <==> ListsAzureGuests(infra)
  {
  }

  lemma EverythingIsCovered(infra: Infra, log: seq<Registration>, memo: map<DependencyId, nat>)
    requires infra.WellKinded() && InDependencyOrder(infra, log) && IsMemoOf(log, memo)
    requires forall kind | kind in DEPLOY_ORDER :: ListDone(infra, kind, memo)
    ensures memo.Keys == infra.Ids()
  {
    forall id | id in memo ensures id in infra.Ids() {
      assert EntryInOrder(infra, log, memo[id]);
    }
    forall id | id in infra.Ids() ensures id in memo {
      var r := infra.Get(id).value;
      EveryKindIsDeployed(id.kind);
      assert r in infra.ListOf(id.kind);
      WellKindedId(infra, id.kind, r);
    }
  }

  // ---------- What the order means ----------

  /** Whatever a registered resource depends on, however indirectly, was registered before it. */
  lemma {:induction false} IndirectDependenciesComeFirst(infra: Infra, log: seq<Registration>, n: nat, path: seq<DependencyId>)
    returns (m: nat)
    requires InDependencyOrder(infra, log) && n < |log| && path != [] && IsPath(infra, path)
    requires log[n].resource.Id() == path[0]
    ensures m <= n && log[m].resource.Id() == path[|path| - 1]
    ensures |path| > 1 ==> m < n
    decreases |path|
  {
    if |path| == 1 {
      m := n;
    } else {
      assert IsStep(infra, path, 0) && EntryInOrder(infra, log, n);
      var found := Found(infra, log[n].resource.dependsOn);
      FoundAre(infra, log[n].resource.dependsOn, path[1]);
      var j :| 0 <= j < |found| && found[j] == path[1];
      assert log[n].deps[j] in log[n].deps;
      SubpathIsPath(infra, path, 1);
      m := IndirectDependenciesComeFirst(infra, log, log[n].deps[j], path[1..]);
    }
  }

  /** A program can register all its resources in dependency order only if their graph has no cycle. */
  lemma CompleteOrderMeansAcyclic(infra: Infra, log: seq<Registration>)
    requires InDependencyOrder(infra, log)
    requires forall id | id in infra.Ids() :: exists n :: 0 <= n < |log| && log[n].resource.Id() == id
    ensures Acyclic(infra)
  {
    forall path | |path| > 1 && IsPath(infra, path) ensures path[0] != path[|path| - 1] {
      assert IsStep(infra, path, 0);
      infra.IdsAreFound(path[0]);
      var n :| 0 <= n < |log| && log[n].resource.Id() == path[0];
      var m := IndirectDependenciesComeFirst(infra, log, n, path);
      assert HaveOtherIds(log, m, n);
    }
  }

  /** Every identity is registered at most once, and only for the resource that lookups by that identity return. */
  lemma RegisteredOnceAsLookedUp(infra: Infra, log: seq<Registration>, m: nat, n: nat)
    requires InDependencyOrder(infra, log) && m < |log| && n < |log|
    ensures log[m].resource.Id() == log[n].resource.Id() <==> m == n
    ensures infra.Get(log[n].resource.Id()) == Some(log[n].resource)
  {
    assert EntryInOrder(infra, log, n);
    assert m < n ==> HaveOtherIds(log, m, n);
    assert n < m ==> HaveOtherIds(log, n, m);
  }

  /**
   After a complete program a listed resource is registered exactly when it is the first of its name in its
   list: the namesakes after it, from other namespaces, are silently left out.
   */
  lemma RegisteredIffFirstOfItsName(infra: Infra, log: seq<Registration>, kind: Kind, i: nat)
    requires infra.WellKinded() && InDependencyOrder(infra, log) && i < |infra.ListOf(kind)|
    requires forall id | id in infra.Ids() :: exists n :: 0 <= n < |log| && log[n].resource.Id() == id
    requires forall a, b :: 0 <= a < b < |infra.ListOf(kind)| ==> infra.ListOf(kind)[a] != infra.ListOf(kind)[b]
    ensures (exists n :: 0 <= n < |log| && log[n].resource == infra.ListOf(kind)[i])
       <==> forall j :: 0 <= j < i ==> infra.ListOf(kind)[j].name != infra.ListOf(kind)[i].name
  {
    var list := infra.ListOf(kind);
    var r := list[i];
    WellKindedId(infra, kind, r);
    if n :| 0 <= n < |log| && log[n].resource == r {
      assert EntryInOrder(infra, log, n);
      FoundIsFirst(list, i);
    }
    if forall j :: 0 <= j < i ==> list[j].name != r.name {
      FirstOfItsNameIsFound(list, i);
      var n :| 0 <= n < |log| && log[n].resource.Id() == r.Id();
      assert EntryInOrder(infra, log, n);
    }
  }

  lemma {:induction false} FoundIsFirst(list: seq<Resource>, i: nat)
    requires i < |list| && FindByName(list[i].name, list) == Some(list[i])
    requires forall a, b :: 0 <= a < b < |list| ==> list[a] != list[b]
    ensures forall j :: 0 <= j < i ==> list[j].name != list[i].name
  {
    if i > 0 {
      assert list[0] != list[i];
      FoundIsFirst(list[1..], i - 1);
      forall j | 0 <= j < i ensures list[j].name != list[i].name {
        assert j > 0 ==> list[1..][j - 1] == list[j];
      }
    }
  }

  function EnsureKinds(list: seq<Resource>): (r: seq<Resource>)
    ensures |r| == |list| && forall i :: 0 <= i < |r| ==> r[i] == EnsureKind(list[i])
  {
    seq(|list|, i requires 0 <= i < |list| => EnsureKind(list[i]))
  }

  /** The lists as syncTarget passes them on, every object's kind ensured. */
  function Ensured(lists: map<Kind, seq<Resource>>): Infra {
    Infra(map kind | kind in lists :: EnsureKinds(lists[kind]))
  }

  predicate Typed(list: seq<Resource>, kind: Kind) {
    forall r | r in list :: r.kind == kind && r.declaredKind in {NoKind, kind}
  }

  lemma EnsuredMember(list: seq<Resource>, kind: Kind, r: Resource)
    requires Typed(list, kind) && r in EnsureKinds(list)
    ensures r.kind == kind && r.declaredKind == kind
  {
    var i :| 0 <= i < |list| && r == EnsureKind(list[i]);
    assert list[i] in list;
  }

  lemma EnsuredListOf(lists: map<Kind, seq<Resource>>, kind: Kind)
    ensures Ensured(lists).ListOf(kind) == if kind.Known() && kind in lists then EnsureKinds(lists[kind]) else []
  {
  }

  lemma EnsuredIsFound(lists: map<Kind, seq<Resource>>, kind: Kind, i: nat)
    requires kind in lists && kind.Known() && i < |lists[kind]|
    ensures Ensured(lists).Get(DependencyId(kind, lists[kind][i].name)).Some?
  {
    EnsuredListOf(lists, kind);
    var r := EnsureKinds(lists[kind])[i];
    assert r in EnsureKinds(lists[kind]) && r.name == lists[kind][i].name;
  }

  /** Lists of typed objects that declare their type's kind or, as typed clients return them, none: the walk's precondition. */
  lemma EnsuredListsAreWellKinded(lists: map<Kind, seq<Resource>>)
    requires forall kind :: kind in lists ==> Typed(lists[kind], kind)
    ensures Ensured(lists).WellKinded()
    ensures forall kind, i :: kind in lists && kind.Known() && 0 <= i < |lists[kind]| ==>
              Ensured(lists).Get(DependencyId(kind, lists[kind][i].name)).Some?
  {
    EnsuredAreWellKinded(lists);
    forall kind, i | kind in lists && kind.Known() && 0 <= i < |lists[kind]|
      ensures Ensured(lists).Get(DependencyId(kind, lists[kind][i].name)).Some?
    {
      EnsuredIsFound(lists, kind, i);
    }
  }

  lemma EnsuredAreWellKinded(lists: map<Kind, seq<Resource>>)
    requires forall kind :: kind in lists ==> Typed(lists[kind], kind)
    ensures Ensured(lists).WellKinded()
  {
    forall kind: Kind ensures AllDeclare(Ensured(lists).ListOf(kind), kind) {
      EnsuredListOf(lists, kind);
      forall r | r in Ensured(lists).ListOf(kind) ensures r.kind == kind && r.declaredKind == kind {
        EnsuredMember(lists[kind], kind, r);
      }
    }
  }
}
