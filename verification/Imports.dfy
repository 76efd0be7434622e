/**
 Import mode: stateful resources that exist but are missing from a stack's state are adopted, and a
 second update applies the inputs that had to be ignored while adopting them.
 */
module Imports {
  import opened Common
  import opened Kinds

  /** A resource in the engine's state: its type token and its name. */
  datatype ResourceKey = ResourceKey(typeToken: string, name: string)

  /** A provisioning resource of the stack, with its own import setting. */
  datatype Manifest = Manifest(kind: Kind, importSetting: Option<bool>)

  datatype Owner = StackItself | OwnedBy(manifest: Manifest)

  /**
   One resource a stack's program registers. importable: the deploy function asks shouldImport about it;
   drifting: the inputs it lets differ while importing.
   */
  datatype Registration = Registration(owner: Owner, key: ResourceKey, aliases: seq<string>, importable: bool,
                                       drifting: set<string>, inputs: map<string, string>)
  {
    function Keys(): set<ResourceKey> {
      {key} + set a | a in aliases :: ResourceKey(key.typeToken, a)
    }
  }

  /** The kinds whose lists statefulResourceMetas walks to tell whether the state has to be loaded. */
  const STATEFUL_KINDS := {AzureDatabase, AzureManagedDatabase, MsSqlDatabase, MinioBucket}

  /** The kinds to whose deploy functions the dispatch hands import options. */
  const IMPORTING_KINDS := {MinioBucket, AzureDatabase, AzureManagedDatabase, MsSqlDatabase}

  /** newImportOptions: the tenant's setting over the global one; platforms follow the global one. */
  function StackSetting(globalSetting: bool, tenantSetting: Option<bool>): bool {
    if tenantSetting.Some? then tenantSetting.value else globalSetting
  }

  /** forResource: the resource's own setting over the stack's. */
  function SettingFor(stackSetting: bool, owner: Owner): bool {
    if owner.OwnedBy? && owner.manifest.importSetting.Some? then owner.manifest.importSetting.value else stackSetting
  }

  predicate TakesImportOptions(importing: set<Kind>, owner: Owner) {
    owner.StackItself? || owner.manifest.kind in importing
  }

  /** anyEnabled, for a stack that looks for settings at resources of these kinds only. */
  predicate AnyEnabled(stateful: set<Kind>, stackSetting: bool, manifests: seq<Manifest>) {
    stackSetting || exists m | m in manifests :: m.kind in stateful && m.importSetting == Some(true)
  }

  /** Nothing that a stack or a resource of its manifests registers may import without anyEnabled. */
  ghost predicate LoadsWheneverNeeded(stateful: set<Kind>, importing: set<Kind>) {
    forall setting, manifests: seq<Manifest>, owner: Owner ::
      (owner.OwnedBy? ==> owner.manifest in manifests) && TakesImportOptions(importing, owner) && SettingFor(setting, owner)
      ==> AnyEnabled(stateful, setting, manifests)
  }

  /** The two lists of kinds fit together exactly when every kind that may import is looked at. */
  lemma LoadsWheneverNeededIff(stateful: set<Kind>, importing: set<Kind>)
    ensures LoadsWheneverNeeded(stateful, importing) <==> importing <= stateful
  {
    if LoadsWheneverNeeded(stateful, importing) {
      forall kind | kind in importing ensures kind in stateful {
        var m := Manifest(kind, Some(true));
        assert TakesImportOptions(importing, OwnedBy(m)) && SettingFor(false, OwnedBy(m)) && m in [m];
        assert AnyEnabled(stateful, false, [m]);
      }
    }
  }

  /** shouldImport, as asked about a registration. */
  predicate ShouldImport(stackSetting: bool, managed: set<ResourceKey>, reg: Registration) {
    TakesImportOptions(IMPORTING_KINDS, reg.owner) && reg.importable && SettingFor(stackSetting, reg.owner) && reg.Keys() !! managed
  }

  /**
   The registration is one to import: its deploy function asks, it is the stack's own or of one of the four
   stateful kinds, and its manifest says so or, saying nothing, leaves it to a stack that does.
   */
  predicate IsToImport(stackSetting: bool, reg: Registration) {
    reg.importable &&
    match reg.owner
    case StackItself => stackSetting
    case OwnedBy(Manifest(kind, None)) => stackSetting && Stateful(kind)
    case OwnedBy(Manifest(kind, Some(own))) => own && Stateful(kind)
  }

  predicate Stateful(kind: Kind) {
    kind.AzureDatabase? || kind.AzureManagedDatabase? || kind.MsSqlDatabase? || kind.MinioBucket?
  }

  /** The managed set has the resource under its name or a former one. */
  predicate IsManaged(managed: set<ResourceKey>, reg: Registration) {
    reg.key in managed || exists a :: a in reg.aliases && ResourceKey(reg.key.typeToken, a) in managed
  }

  lemma ShouldImportIff(stackSetting: bool, managed: set<ResourceKey>, reg: Registration)
    ensures ShouldImport(stackSetting, managed, reg) <==> IsToImport(stackSetting, reg) && !IsManaged(managed, reg)
  {
    if !ShouldImport(stackSetting, managed, reg) && IsToImport(stackSetting, reg) {
      var k :| k in reg.Keys() && k in managed;
      assert k != reg.key ==> ResourceKey(reg.key.typeToken, k.name) in managed && k.name in reg.aliases;
    }
  }

  /** Where the state is loaded whenever needed, looking into the managed set is looking into the state. */
  lemma ImportsWhatIsMissingIff(stackSetting: bool, anyEnabled: bool, managed: set<ResourceKey>, state: set<ResourceKey>, reg: Registration)
    requires anyEnabled ==> managed == state
    requires TakesImportOptions(IMPORTING_KINDS, reg.owner) && SettingFor(stackSetting, reg.owner) ==> anyEnabled
    ensures ShouldImport(stackSetting, managed, reg) <==> IsToImport(stackSetting, reg) && !IsManaged(state, reg)
  {
    ShouldImportIff(stackSetting, managed, reg);
  }

  // ---------- The engine ----------

  predicate MatchesExcept(found: map<string, string>, wanted: map<string, string>, ignored: set<string>) {
    found.Keys == wanted.Keys && forall k | k in wanted && k !in ignored :: found[k] == wanted[k]
  }

  /**
   What an update makes of the real resources by a registration; None is a failure. Importing adopts a
   resource that exists and matches, save for ignored inputs, which are not written. Otherwise a resource
   of the previous state gets all its inputs written, and any other one is created.
   */
  function Applied(actual: map<ResourceKey, map<string, string>>, previous: set<ResourceKey>, reg: Registration, importing: bool):
    Option<map<ResourceKey, map<string, string>>>
  {
    if importing then
      if reg.key in actual && MatchesExcept(actual[reg.key], reg.inputs, reg.drifting) then Some(actual) else None
    else if !(reg.Keys() !! previous) then Some(actual[reg.key := reg.inputs])
    else if reg.key in actual then None
    else Some(actual[reg.key := reg.inputs])
  }

  /** Importing what is already managed under another id deletes it first. */
  function DeletedByImport(previous: set<ResourceKey>, reg: Registration): set<ResourceKey> {
    if reg.Keys() !! previous then {} else {reg.key}
  }

  predicate DistinctKeys(program: seq<Registration>) {
    forall i, j :: 0 <= i < j < |program| ==> program[i].key != program[j].key
  }

  /** Every registration belongs to the stack itself or to one of its manifests. */
  predicate ProgramOf(program: seq<Registration>, manifests: seq<Manifest>) {
    forall i :: 0 <= i < |program| ==> program[i].owner.StackItself? || program[i].owner.manifest in manifests
  }

  class StackUpdate {
    const manifests: seq<Manifest>
    const program: seq<Registration>
    const enabled: bool
    /** Some resource of the stack may import, so its state has to be loaded. */
    var anyEnabled: bool
    var managed: set<ResourceKey>
    var driftIgnored: bool

    /** The engine's state and the real resources, by the key of the registration they stand for. */
    var state: set<ResourceKey>
    var actual: map<ResourceKey, map<string, string>>
    /** Resources the engine deleted to import them in their own place. */
    var replaced: set<ResourceKey>
    /** The keys imported by each update so far. */
    var imports: seq<set<ResourceKey>>

    /** newImportOptions, for a stack in the given state. */
    constructor (globalSetting: bool, tenantSetting: Option<bool>, manifests: seq<Manifest>, program: seq<Registration>,
                 state: set<ResourceKey>, actual: map<ResourceKey, map<string, string>>)
      ensures this.manifests == manifests && this.program == program && this.state == state && this.actual == actual
      ensures tenantSetting.Some? ==> enabled == tenantSetting.value
      ensures tenantSetting.None? ==> enabled == globalSetting
      ensures anyEnabled <==> enabled || exists m | m in manifests :: m.importSetting == Some(true) && Stateful(m.kind)
      ensures managed == {} && !driftIgnored && replaced == {} && imports == []
      ensures ProgramOf(program, manifests) ==> LoadsWhenNeeded()
    {
      this.manifests, this.program, this.state, this.actual := manifests, program, state, actual;
      var setting := StackSetting(globalSetting, tenantSetting);
      enabled, managed, driftIgnored, replaced, imports := setting, {}, false, {}, [];
      var any := setting;
      for i := 0 to |manifests|
        invariant any <==> AnyEnabled(STATEFUL_KINDS, setting, manifests[..i])
      {
        assert manifests[..i + 1] == manifests[..i] + [manifests[i]];
        if manifests[i].kind in STATEFUL_KINDS {
          any := any || SettingFor(setting, OwnedBy(manifests[i]));
        }
      }
      assert manifests[..|manifests|] == manifests;
      LoadsWheneverNeededIff(STATEFUL_KINDS, IMPORTING_KINDS);
      anyEnabled := any;
    }

    /** The imported keys are those of the registrations that are to be imported and that the state does not have. */
    ghost predicate ImportsWhatIsMissing(imported: set<ResourceKey>, state: set<ResourceKey>)
    {
      forall i :: 0 <= i < |program| ==>
        (program[i].key in imported <==> IsToImport(enabled, program[i]) && !IsManaged(state, program[i]))
    }

    /** Whatever may import is covered by anyEnabled. */
    ghost predicate LoadsWhenNeeded()
      reads this
    {
      forall i :: 0 <= i < |program| && TakesImportOptions(IMPORTING_KINDS, program[i].owner) && SettingFor(enabled, program[i].owner) ==> anyEnabled
    }

    /** loadManagedResources. */
    method LoadManagedResources(exportFails: bool) returns (ok: bool)
      modifies this`managed
      ensures ok <==> !(anyEnabled && exportFails)
      ensures managed == if ok && anyEnabled then state else old(managed)
    {
      if !anyEnabled {
        return true;
      }
      if exportFails {
        return false;
      }
      managed := state;
      return true;
    }

    predicate Importing(i: nat)
      requires i < |program|
      reads this`managed
    {
      ShouldImport(enabled, managed, program[i])
    }

    /** The inputs left alone when the registration at i goes through. */
    ghost function Ignored(i: nat): set<string>
      requires i < |program|
      reads this`managed
    {
      if Importing(i) then program[i].drifting else {}
    }

    /** The real resource has the registration's inputs, save for the ignored ones. */
    ghost predicate Converged(reg: Registration, ignored: set<string>)
      reads this`actual
    {
      reg.key in actual && MatchesExcept(actual[reg.key], reg.inputs, ignored)
    }

    /** The program registers one resource. */
    method Register(i: nat, engineFails: bool) returns (ok: bool)
      requires i < |program| && (Importing(i) ==> program[i].Keys() !! state)
      modifies this`driftIgnored, this`actual, this`replaced
      ensures replaced == old(replaced)
      ensures driftIgnored <==> old(driftIgnored) || (Importing(i) && program[i].drifting != {})
      ensures ok ==> Converged(program[i], Ignored(i))
      ensures forall k :: k != program[i].key ==> (k in actual <==> k in old(actual)) && (k in actual ==> actual[k] == old(actual[k]))
    {
      var reg, importing := program[i], Importing(i);
      if importing {
        replaced := replaced + DeletedByImport(state, reg);
        driftIgnored := driftIgnored || reg.drifting != {};
      }
      var applied := if engineFails then None else Applied(actual, state, reg, importing);
      ok := applied.Some?;
      if ok {
        actual := applied.value;
      }
    }

    /** One engine update running the program; upFails says which registrations the engine fails anyway. */
    method Up(upFails: nat -> bool) returns (ok: bool)
      requires DistinctKeys(program) && LoadsWhenNeeded() && (anyEnabled ==> managed == state)
      modifies this`driftIgnored, this`state, this`actual, this`replaced, this`imports
      ensures replaced == old(replaced)
      ensures |imports| == |old(imports)| + 1 && imports[..|old(imports)|] == old(imports)
      ensures forall i :: 0 <= i < |program| && program[i].key in imports[|old(imports)|] ==> program[i].Keys() !! old(state)
      ensures ok ==> state == set i | 0 <= i < |program| :: program[i].key
      ensures ok ==> forall i :: 0 <= i < |program| ==> Converged(program[i], Ignored(i))
      ensures ok ==> (driftIgnored <==> old(driftIgnored) || exists i :: 0 <= i < |program| && Importing(i) && program[i].drifting != {})
      ensures ok ==> imports[|old(imports)|] == set i | 0 <= i < |program| && Importing(i) :: program[i].key
      ensures ok ==> ImportsWhatIsMissing(imports[|old(imports)|], old(state))
    {
      forall i | 0 <= i < |program| ensures Importing(i) <==> IsToImport(enabled, program[i]) && !IsManaged(state, program[i]) {
        ImportsWhatIsMissingIff(enabled, anyEnabled, managed, state, program[i]);
      }
      var n;
      ok, n := RegisterAll(upFails);
      imports := imports + [set j | 0 <= j < n && Importing(j) :: program[j].key];
      state := (set j | 0 <= j < n :: program[j].key) + if ok then {} else state;
    }

    /** The program, up to the registration that fails. */
    method RegisterAll(upFails: nat -> bool) returns (ok: bool, i: nat)
      requires DistinctKeys(program) && LoadsWhenNeeded() && (anyEnabled ==> managed == state)
      modifies this`driftIgnored, this`actual, this`replaced
      ensures replaced == old(replaced) && i <= |program| && (ok ==> i == |program|)
      ensures ok ==> forall j :: 0 <= j < |program| ==> Converged(program[j], Ignored(j))
      ensures ok ==> (driftIgnored <==> old(driftIgnored) || exists j :: 0 <= j < |program| && Importing(j) && program[j].drifting != {})
    {
      ok, i := true, 0;
      while i < |program| && ok
        invariant 0 <= i <= |program| && replaced == old(replaced)
        invariant ok ==> forall j :: 0 <= j < i ==> Converged(program[j], Ignored(j))
        invariant ok ==> (driftIgnored <==> old(driftIgnored) || exists j :: 0 <= j < i && Importing(j) && program[j].drifting != {})
        decreases |program| - i, ok
      {
        label before:
        ok := Register(i, upFails(i));
        if ok {
          forall j | 0 <= j < i ensures Converged(program[j], Ignored(j)) {
            assert old@before(Converged(program[j], Ignored(j)));
          }
          i := i + 1;
        }
      }
    }

    /** updateStack, once the stack is selected and refreshed. */
    method UpdateStack(exportFails: nat -> bool, upFails: (nat, nat) -> bool) returns (ok: bool)
      requires DistinctKeys(program) && LoadsWhenNeeded() && !driftIgnored && managed == {} && imports == []
      modifies this`managed, this`driftIgnored, this`state, this`actual, this`replaced, this`imports
      ensures replaced == old(replaced)
      ensures |imports| <= 2
      ensures |imports| > 0 ==>
        forall i :: 0 <= i < |program| && program[i].key in imports[0] ==> program[i].Keys() !! old(state)
      ensures ok ==> |imports| >= 1 && !driftIgnored && ImportsWhatIsMissing(imports[0], old(state))
      ensures ok ==> (|imports| == 2 <==> exists i :: 0 <= i < |program| && program[i].key in imports[0] && program[i].drifting != {})
      ensures ok && |imports| == 2 ==> imports[1] == {}
      ensures ok ==> forall i :: 0 <= i < |program| ==> program[i].key in actual && actual[program[i].key] == program[i].inputs
    {
      ok := LoadAndUp(exportFails(0), (i: nat) => upFails(0, i));
      if !ok {
        return;
      }
      var needsPostImportUpdate := driftIgnored;
      driftIgnored := false;
      if needsPostImportUpdate {
        ok := PostImportUpdate(exportFails(1), (i: nat) => upFails(1, i));
      } else {
        AllConverge();
      }
    }

    /** The update that applies the inputs ignored before: it imports nothing. */
    method PostImportUpdate(exportFails: bool, upFails: nat -> bool) returns (ok: bool)
      requires DistinctKeys(program) && LoadsWhenNeeded() && (managed != {} ==> anyEnabled)
      requires !driftIgnored && state == Registered()
      modifies this`managed, this`driftIgnored, this`state, this`actual, this`replaced, this`imports
      ensures replaced == old(replaced)
      ensures imports == old(imports) || (|imports| == |old(imports)| + 1 && imports[..|old(imports)|] == old(imports))
      ensures ok ==> |imports| == |old(imports)| + 1 && imports[|old(imports)|] == {} && !driftIgnored
      ensures ok ==> forall i :: 0 <= i < |program| ==> program[i].key in actual && actual[program[i].key] == program[i].inputs
    {
      ok := LoadAndUp(exportFails, upFails);
      if ok {
        ManagedImportsNothing();
        AllConverge();
      }
    }

    /** With no inputs ignored, the real resources have all of them. */
    lemma AllConverge()
      requires forall i :: 0 <= i < |program| ==> Converged(program[i], Ignored(i)) && Ignored(i) == {}
      ensures forall i :: 0 <= i < |program| ==> program[i].key in actual && actual[program[i].key] == program[i].inputs
    {
    }

    /** An update, with the state loaded first. */
    method LoadAndUp(exportFails: bool, upFails: nat -> bool) returns (ok: bool)
      requires DistinctKeys(program) && LoadsWhenNeeded() && (managed != {} ==> anyEnabled)
      modifies this`managed, this`driftIgnored, this`state, this`actual, this`replaced, this`imports
      ensures replaced == old(replaced) && (managed != {} ==> anyEnabled)
      ensures imports == old(imports) || (|imports| == |old(imports)| + 1 && imports[..|old(imports)|] == old(imports))
      ensures |imports| > |old(imports)| ==>
        forall i :: 0 <= i < |program| && program[i].key in imports[|old(imports)|] ==> program[i].Keys() !! old(state)
      ensures ok ==> |imports| > |old(imports)| && state == Registered() && managed == Loaded(anyEnabled, old(state))
      ensures ok ==> imports[|old(imports)|] == set i | 0 <= i < |program| && Importing(i) :: program[i].key
      ensures ok ==> ImportsWhatIsMissing(imports[|old(imports)|], old(state))
      ensures ok ==> forall i :: 0 <= i < |program| ==> Converged(program[i], Ignored(i))
      ensures ok ==> (driftIgnored <==> old(driftIgnored) || exists i :: 0 <= i < |program| && Importing(i) && program[i].drifting != {})
    {
      ok := LoadManagedResources(exportFails);
      if ok {
        ok := Up(upFails);
      }
    }

    ghost function Registered(): set<ResourceKey> {
      set i | 0 <= i < |program| :: program[i].key
    }

    /** With the state loaded after an update, the program imports nothing. */
    lemma ManagedImportsNothing()
      requires LoadsWhenNeeded() && managed == Loaded(anyEnabled, Registered())
      ensures forall i :: 0 <= i < |program| ==> !Importing(i)
    {
      forall i | 0 <= i < |program| ensures !Importing(i) {
        ManagedProgramsImportNothing(enabled, program, i);
      }
    }
  }

  /** What loadManagedResources leaves in managed for a stack in the given state. */
  function Loaded(anyEnabled: bool, state: set<ResourceKey>): set<ResourceKey> {
    if anyEnabled then state else {}
  }

  /**
   A registration is never imported over something its stack manages, whatever the state, exactly when
   the state is loaded or the registration's settings keep it from importing.
   */
  lemma NeverReimportedIff(setting: bool, anyEnabled: bool, reg: Registration)
    ensures (forall state :: ShouldImport(setting, Loaded(anyEnabled, state), reg) ==> reg.Keys() !! state)
       <==> (anyEnabled || !ShouldImport(setting, {}, reg))
  {
    if !anyEnabled && ShouldImport(setting, {}, reg) {
      var state := reg.Keys();
      assert reg.key in state;
      assert ShouldImport(setting, Loaded(anyEnabled, state), reg) && !(reg.Keys() !! state);
    }
  }

  /** Once an update has registered a program, no registration of the program imports again. */
  lemma ManagedProgramsImportNothing(setting: bool, program: seq<Registration>, i: nat)
    requires i < |program|
    ensures !ShouldImport(setting, set j | 0 <= j < |program| :: program[j].key, program[i])
  {
    assert program[i].key in program[i].Keys();
  }
}
