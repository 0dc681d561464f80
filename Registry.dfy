/**
 * The AutoMapper's per-VM tables (IronWren/AutoMapper/AutoMapper.cs) as values,
 * the specification of each state-changing operation as a function from the
 * old tables to the new ones, and the three VM callbacks as lookups.
 *
 * The class AutoMapper.AutoMapper holds the same tables in mutable fields and
 * proves its imperative methods against the functions given here.
 */
module Registry {
  import opened Results

  /** A Wren VM, used only as a dictionary key. */
  datatype WrenVM = WrenVM(handle: nat)

  /** WrenVM.InterpetModule, the module `vm.Interpret` runs code in. */
  const InterpretModule: string := "main"

  /** The native function the VM calls for a foreign method (a WrenForeignMethod). */
  datatype Trampoline = Trampoline(token: nat)

  /** The allocator/finalizer pair ForeignClass.Bind() hands to the VM. */
  datatype ForeignClassMethods = ForeignClassMethods(token: nat)

  /** The class descriptor built from one C# type: its Wren source, its method
      table keyed by Wren signature, and the result of binding it. */
  datatype ForeignClass = ForeignClass(source: string, Functions: map<string, Trampoline>, methods: ForeignClassMethods)
  {
    function GetSource(): string { source }
    function Bind(): ForeignClassMethods { methods }
  }

  /** A C# type handed to AutoMap: its name, the name given by its
      WrenClassAttribute if it has one, and the descriptor `new ForeignClass(...)`
      builds from it. */
  datatype Target = Target(typeName: string, classAttributeName: Option<string>, foreignClass: ForeignClass)
  {
    /** `classAttribute?.Name ?? target.Name` */
    function WrenName(): string
    {
      if classAttributeName.Some? then classAttributeName.value else typeName
    }
  }

  /** What ForeignModule.GetSource() renders: the classes the module holds at that moment. */
  datatype ModuleSource = ModuleSource(classes: map<string, ForeignClass>)

  /** A generated module: its classes by Wren name, and whether the VM has loaded it. */
  datatype ForeignModule = ForeignModule(Classes: map<string, ForeignClass>, Used: bool)
  {
    function GetSource(): ModuleSource { ModuleSource(Classes) }
  }

  /** The handlers AutoMapper attaches to a VM's configuration events. */
  datatype Hook = LoadModuleHook | BindForeignMethodHook | BindForeignClassHook

  /** The handlers checkInitialization attaches, in the order it attaches them. */
  const AutoMapperHooks: seq<Hook> := [LoadModuleHook, BindForeignMethodHook, BindForeignClassHook]

  /** One call `vm.Interpret(source)`. */
  datatype Interpretation = Interpretation(vm: WrenVM, source: string)

  /** The exceptions AutoMap lets escape. */
  datatype MapError =
    | LoadedModuleModified(moduleName: string)   // LoadedModuleModifiedException
    | DuplicateClassName(className: string)      // Dictionary.Add on a name already present

  /** The AutoMapper's static state, together with what it has done to the VMs:
      the handlers it attached to each VM and every source it interpreted. */
  datatype MapperState = MapperState(
    generatedModules: map<WrenVM, map<string, ForeignModule>>,
    mainModuleClasses: map<WrenVM, map<string, ForeignClass>>,
    treatModificationAfterLoadAsError: bool,
    hooks: map<WrenVM, seq<Hook>>,
    interpreted: seq<Interpretation>)

  /** The state before any call: empty tables, the strict flag on. */
  const InitialState: MapperState := MapperState(map[], map[], true, map[], [])

  function HooksOf(s: MapperState, vm: WrenVM): seq<Hook>
  {
    if vm in s.hooks then s.hooks[vm] else []
  }

  function MainClassesOf(s: MapperState, vm: WrenVM): map<string, ForeignClass>
  {
    if vm in s.mainModuleClasses then s.mainModuleClasses[vm] else map[]
  }

  /** The interpretations of the given class sources on `vm`, in order. */
  function Interpretations(vm: WrenVM, classes: seq<ForeignClass>): seq<Interpretation>
  {
    seq(|classes|, i requires 0 <= i < |classes| => Interpretation(vm, classes[i].GetSource()))
  }

  // ---------------------------------------------------------------------------
  // Adding classes one by one with Dictionary.Add semantics
  // ---------------------------------------------------------------------------

  /** The table after adding the targets in order, the classes actually added,
      and the name that made an Add throw, if one did. */
  datatype AddResult = AddResult(classes: map<string, ForeignClass>, added: seq<ForeignClass>, failed: Option<string>)

  /** Adds each target under its Wren name, stopping at the first name already
      present (Dictionary.Add throws there). Targets before the failing one stay
      added; `added` lists them in order. */
  function AddClasses(classes: map<string, ForeignClass>, targets: seq<Target>): (r: AddResult)
    ensures |r.added| <= |targets|
    ensures r.failed.None? <==> |r.added| == |targets|
    decreases |targets|
  {
    if targets == [] then AddResult(classes, [], None)
    else
      var name := targets[0].WrenName();
      if name in classes then AddResult(classes, [], Some(name))
      else
        var rest := AddClasses(classes[name := targets[0].foreignClass], targets[1..]);
        AddResult(rest.classes, [targets[0].foreignClass] + rest.added, rest.failed)
  }

  /** The outcome AutoMap reports for an AddClasses run. */
  function OutcomeOf(r: AddResult): Outcome<MapError>
  {
    if r.failed.Some? then Fail(DuplicateClassName(r.failed.value)) else Pass
  }

  // ---------------------------------------------------------------------------
  // The state-changing operations, as functions of the old state
  // ---------------------------------------------------------------------------

  /** checkInitialization(vm): on a VM not seen before, attach the three
      handlers and create its empty module table; otherwise do nothing. */
  function AfterCheckInitialization(s: MapperState, vm: WrenVM): (s': MapperState)
    ensures vm in s'.generatedModules
  {
    if vm in s.generatedModules then s
    else s.(hooks := s.hooks[vm := HooksOf(s, vm) + AutoMapperHooks],
            generatedModules := s.generatedModules[vm := map[]])
  }

  /** Replaces (or inserts) one module of one VM. */
  function WithModule(s: MapperState, vm: WrenVM, name: string, m: ForeignModule): MapperState
    requires vm in s.generatedModules
  {
    s.(generatedModules := s.generatedModules[vm := s.generatedModules[vm][name := m]])
  }

  datatype MapResult = MapResult(state: MapperState, outcome: Outcome<MapError>)

  /** AutoMap(vm, moduleName, targets): initialise the VM, then map into the
      interpret module or into a named module. */
  function AfterAutoMap(s: MapperState, vm: WrenVM, moduleName: string, targets: seq<Target>): (r: MapResult)
    ensures vm in r.state.generatedModules
    ensures r.state.hooks == AfterCheckInitialization(s, vm).hooks
    ensures r.state.treatModificationAfterLoadAsError == s.treatModificationAfterLoadAsError
    ensures moduleName != InterpretModule ==> r.state.mainModuleClasses == s.mainModuleClasses && r.state.interpreted == s.interpreted
  {
    var s1 := AfterCheckInitialization(s, vm);
    if moduleName == InterpretModule then AfterMapIntoInterpretModule(s1, vm, targets)
    else AfterMapIntoNamedModule(s1, vm, moduleName, targets)
  }

  /** Each class is added to the VM's main-module table and interpreted at once. */
  function AfterMapIntoInterpretModule(s: MapperState, vm: WrenVM, targets: seq<Target>): (r: MapResult)
    ensures r.state.generatedModules == s.generatedModules && r.state.hooks == s.hooks
    ensures r.state.treatModificationAfterLoadAsError == s.treatModificationAfterLoadAsError
    ensures vm in r.state.mainModuleClasses
    ensures s.interpreted <= r.state.interpreted
    ensures r.outcome == Pass || r.outcome.error.DuplicateClassName?
  {
    var r := AddClasses(MainClassesOf(s, vm), targets);
    MapResult(s.(mainModuleClasses := s.mainModuleClasses[vm := r.classes],
                 interpreted := s.interpreted + Interpretations(vm, r.added)),
              OutcomeOf(r))
  }

  /** The classes are added to a named module, which is created and registered
      first if it is new; a loaded module is refused while the flag is on. */
  function AfterMapIntoNamedModule(s: MapperState, vm: WrenVM, moduleName: string, targets: seq<Target>): (r: MapResult)
    requires vm in s.generatedModules
    ensures r.state.mainModuleClasses == s.mainModuleClasses && r.state.interpreted == s.interpreted
    ensures r.state.hooks == s.hooks
    ensures vm in r.state.generatedModules && moduleName in r.state.generatedModules[vm]
    ensures r.outcome == Fail(LoadedModuleModified(moduleName)) <==>
      moduleName in s.generatedModules[vm] && s.generatedModules[vm][moduleName].Used && s.treatModificationAfterLoadAsError
    ensures r.outcome.Fail? && r.outcome.error.LoadedModuleModified? ==> r.state == s
  {
    if moduleName in s.generatedModules[vm] then
      var m := s.generatedModules[vm][moduleName];
      if m.Used && s.treatModificationAfterLoadAsError then
        MapResult(s, Fail(LoadedModuleModified(moduleName)))
      else
        var r := AddClasses(m.Classes, targets);
        MapResult(WithModule(s, vm, moduleName, m.(Classes := r.classes)), OutcomeOf(r))
    else
      var r := AddClasses(map[], targets);
      MapResult(WithModule(s, vm, moduleName, ForeignModule(r.classes, false)), OutcomeOf(r))
  }

  datatype LoadResult = LoadResult(state: MapperState, source: Option<ModuleSource>)

  /** loadAutoMapperModule(vm, name): the module's source, which marks it used,
      or `null` when the VM or the module is unknown. */
  function AfterLoadModule(s: MapperState, vm: WrenVM, name: string): (r: LoadResult)
    ensures r.source.None? <==> vm !in s.generatedModules || name !in s.generatedModules[vm]
    ensures r.source.None? ==> r.state == s
    ensures r.source.Some? ==> vm in r.state.generatedModules && name in r.state.generatedModules[vm]
                               && r.state.generatedModules[vm][name].Used
    ensures r.state.mainModuleClasses == s.mainModuleClasses && r.state.hooks == s.hooks && r.state.interpreted == s.interpreted
  {
    if vm !in s.generatedModules || name !in s.generatedModules[vm] then LoadResult(s, None)
    else
      var m := s.generatedModules[vm][name];
      LoadResult(WithModule(s, vm, name, m.(Used := true)), Some(m.GetSource()))
  }

  // ---------------------------------------------------------------------------
  // The binding callbacks: pure lookups
  // ---------------------------------------------------------------------------

  /** bindAutoMapperClass: only the generated modules are consulted. */
  function BindAutoMapperClass(s: MapperState, vm: WrenVM, moduleName: string, className: string): (r: Option<ForeignClassMethods>)
    ensures r.Some? <==> vm in s.generatedModules && moduleName in s.generatedModules[vm]
                         && className in s.generatedModules[vm][moduleName].Classes
    ensures r.Some? ==> r.value == s.generatedModules[vm][moduleName].Classes[className].Bind()
  {
    if vm !in s.generatedModules
      || moduleName !in s.generatedModules[vm]
      || className !in s.generatedModules[vm][moduleName].Classes
    then None
    else Some(s.generatedModules[vm][moduleName].Classes[className].Bind())
  }

  /** bindAutoMapperClass as evidently intended: for the interpret module the
      main-module classes are consulted first, as bindAutoMapperMethod does;
      every other lookup is the one the source performs. */
  function BindAutoMapperClassCorrected(s: MapperState, vm: WrenVM, moduleName: string, className: string): (r: Option<ForeignClassMethods>)
    ensures moduleName == InterpretModule && vm in s.mainModuleClasses && className in s.mainModuleClasses[vm]
        ==> r == Some(s.mainModuleClasses[vm][className].Bind())
    ensures !(moduleName == InterpretModule && vm in s.mainModuleClasses && className in s.mainModuleClasses[vm])
        ==> r == BindAutoMapperClass(s, vm, moduleName, className)
  {
    if moduleName == InterpretModule && vm in s.mainModuleClasses && className in s.mainModuleClasses[vm]
    then Some(s.mainModuleClasses[vm][className].Bind())
    else BindAutoMapperClass(s, vm, moduleName, className)
  }

  /** bindAutoMapperMethod: the main-module classes first (for the interpret
      module only), then the generated modules. `isStatic` is not consulted. */
  function BindAutoMapperMethod(s: MapperState, vm: WrenVM, moduleName: string, className: string, isStatic: bool, signature: string): (r: Option<Trampoline>)
    // a main-module entry wins for the interpret module
    ensures moduleName == InterpretModule && vm in s.mainModuleClasses && className in s.mainModuleClasses[vm]
            && signature in s.mainModuleClasses[vm][className].Functions
        ==> r == Some(s.mainModuleClasses[vm][className].Functions[signature])
    // every answer comes from one of the two tables, under exactly the names asked for
    ensures r.Some? ==>
      || (moduleName == InterpretModule && vm in s.mainModuleClasses && className in s.mainModuleClasses[vm]
          && signature in s.mainModuleClasses[vm][className].Functions
          && r.value == s.mainModuleClasses[vm][className].Functions[signature])
      || (vm in s.generatedModules && moduleName in s.generatedModules[vm]
          && className in s.generatedModules[vm][moduleName].Classes
          && signature in s.generatedModules[vm][moduleName].Classes[className].Functions
          && r.value == s.generatedModules[vm][moduleName].Classes[className].Functions[signature])
    // and a hit in either table is never answered with `null`
    ensures r.None? ==>
      && !(moduleName == InterpretModule && vm in s.mainModuleClasses && className in s.mainModuleClasses[vm]
           && signature in s.mainModuleClasses[vm][className].Functions)
      && !(vm in s.generatedModules && moduleName in s.generatedModules[vm]
           && className in s.generatedModules[vm][moduleName].Classes
           && signature in s.generatedModules[vm][moduleName].Classes[className].Functions)
  {
    if moduleName == InterpretModule
      && vm in s.mainModuleClasses
      && className in s.mainModuleClasses[vm]
      && signature in s.mainModuleClasses[vm][className].Functions
    then Some(s.mainModuleClasses[vm][className].Functions[signature])
    else if vm in s.generatedModules
      && moduleName in s.generatedModules[vm]
      && className in s.generatedModules[vm][moduleName].Classes
      && signature in s.generatedModules[vm][moduleName].Classes[className].Functions
    then Some(s.generatedModules[vm][moduleName].Classes[className].Functions[signature])
    else None
  }

  // ---------------------------------------------------------------------------
  // The invariant every reachable state keeps
  // ---------------------------------------------------------------------------

  /** A class source the VM has interpreted. */
  predicate WasInterpreted(s: MapperState, vm: WrenVM, c: ForeignClass)
  {
    Interpretation(vm, c.GetSource()) in s.interpreted
  }

  ghost predicate WellFormed(s: MapperState)
  {
    // a VM has the three handlers, attached once, exactly when it has a module table
    && (forall vm :: vm in s.hooks <==> vm in s.generatedModules)
    && (forall vm :: vm in s.hooks ==> s.hooks[vm] == AutoMapperHooks)
    // main-module classes exist only for initialised VMs
    && (forall vm :: vm in s.mainModuleClasses ==> vm in s.generatedModules)
    // the interpret module is never a generated module
    && (forall vm :: vm in s.generatedModules ==> InterpretModule !in s.generatedModules[vm])
    // every main-module class has been interpreted on its VM
    && (forall vm, name :: vm in s.mainModuleClasses && name in s.mainModuleClasses[vm] ==>
          WasInterpreted(s, vm, s.mainModuleClasses[vm][name]))
  }
}
