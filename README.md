# IronWren AutoMapper: registry, resolution callbacks and constructor source

This project models two parts of IronWren's automatic C#-to-Wren binding layer.

**The AutoMapper registry** (`IronWren/AutoMapper/AutoMapper.cs`). This static class keeps two per-VM tables:

- `generatedModules`: VM → module name → `ForeignModule`;
- `mainModuleClasses`: VM → class name → `ForeignClass`.

It also keeps the flag `TreatModificationAfterLoadAsError`, which is on by default.

`AutoMap` initialises a VM once. On first use it attaches three handlers to the VM's configuration and creates an empty module table. After that it takes one of two paths:

- For the interpret module, each target is added to the VM's main-module table under its Wren name and its source is interpreted at once.
- For any other module, the targets are added to that module. The module is first created and registered if it is new. A module the VM has already loaded is refused while the flag is on.

The three callbacks the VM calls back into are lookups that return `null` when nothing matches:

- `loadAutoMapperModule`;
- `bindAutoMapperClass`;
- `bindAutoMapperMethod`.

**Constructor source generation** (`IronWren/AutoMapper/StructureMapping/ForeignConstructor.cs`). A `ForeignConstructor` stores the Wren declaration `construct new(a, b) { }` for a C# constructor, built from its ordered parameter names.

Layout:

- `Results.dfy`: `Option` (a `null` result) and `Outcome` (an exception thrown or not).
- `Registry.dfy`: the data model as values.
  - The specification of every state-changing operation is a function from the old state to the new one: `AfterCheckInitialization`, `AfterAutoMap`, `AfterMapIntoInterpretModule`, `AfterMapIntoNamedModule`, `AfterLoadModule`.
  - The two binding callbacks are pure lookups.
  - `WellFormed` is the invariant every reachable state keeps.
  - The state also records what AutoMapper does to the VMs: the handlers attached to each VM (`hooks`) and every source handed to `vm.Interpret` (`interpreted`).
- `AutoMapper.dfy`: the static class as a Dafny `class`.
  - Its fields are the two dictionaries, the flag and the record of effects on the VMs.
  - Its methods do what the C# methods do, step by step: the `foreach` loops become `for` loops.
  - `CheckInitialization`, `AutoMap`, `MapIntoInterpretModule`, `MapIntoNamedModule` and `LoadAutoMapperModule` are each proved to produce exactly the state (and result) their function in `Registry` describes.
  - `CheckInitialization`, `AutoMap` and `LoadAutoMapperModule` also keep `Valid()`, the invariant.
  - `AddAndInterpret` is one iteration of the interpret-module loop; its contract gives its new fields directly.
- `RegistryProperties.dfy`: the properties of those functions.
- `ForeignConstructor.dfy` (module `StructureMapping`): the class, the generated text, a reader for that text and the round-trip proofs.

`Dictionary.Add` throws when the key is present, so adding the targets one by one stops at the first taken name. Targets before that one stay added, and on the interpret path they stay interpreted. `Registry.AddClasses` models this, and the methods return `Fail(DuplicateClassName(name))` at that point.

`bindAutoMapperClass` (`AutoMapper.cs` lines 123-131) looks only in `generatedModules`. So a class mapped into the interpret module never gets an allocator from it; `RegistryProperties.MainModuleClassesNotBound` states this. `Registry.BindAutoMapperClass` models the code as written. "## Findings" explains why this looks unintended, and `Registry.BindAutoMapperClassCorrected` models the corrected lookup.

## Model

| member | source | states |
|---|---|---|
| AutoMapper.AutoMapper.constructor | IronWren/AutoMapper/AutoMapper.cs:18-29 | The program starts with both tables empty, no handler attached, nothing interpreted and `TreatModificationAfterLoadAsError` on; that state satisfies the invariant |
| AutoMapper.AutoMapper.CheckInitialization | IronWren/AutoMapper/AutoMapper.cs:109-119 | The new state is exactly `AfterCheckInitialization` of the old: a known VM changes nothing; a new VM gets the three handlers appended in order and an empty module table. The invariant is kept |
| AutoMapper.AutoMapper.AutoMap | IronWren/AutoMapper/AutoMapper.cs:67-107 | Result and new state are exactly `AfterAutoMap` of the old state (initialise, then the interpret-module or the named-module path); a thrown exception is the `Fail` outcome. The invariant is kept |
| AutoMapper.AutoMapper.MapIntoInterpretModule | IronWren/AutoMapper/AutoMapper.cs:71-87 | The loop adds each target to `mainModuleClasses[vm]` and interprets its source, stopping with `DuplicateClassName` at the first taken name; the outcome and the state are exactly `AfterMapIntoInterpretModule` |
| AutoMapper.AutoMapper.AddAndInterpret | IronWren/AutoMapper/AutoMapper.cs:81-83 | One iteration: the class is stored under its free name and exactly one interpretation of its source is appended; nothing else changes |
| AutoMapper.AutoMapper.MapIntoNamedModule | IronWren/AutoMapper/AutoMapper.cs:89-106 | A loaded module is refused while the flag is on; otherwise the (possibly newly registered) module receives the targets one by one until a name is taken; the outcome and state are exactly `AfterMapIntoNamedModule` |
| AutoMapper.AutoMapper.LoadAutoMapperModule | IronWren/AutoMapper/AutoMapper.cs:150-156 | Returns and leaves exactly what `AfterLoadModule` says: `null` for an unknown VM or module, else the module's source, with the module marked loaded |
| Registry.AddClasses | IronWren/AutoMapper/AutoMapper.cs:76-84 | Adding targets one by one with `Dictionary.Add` adds at most the targets, and stops short of the last exactly when an Add throws (its other properties are the `AddClasses…` lemmas) |
| Registry.AfterAutoMap | IronWren/AutoMapper/AutoMapper.cs:67-107 | The VM always ends with a module table. Handlers change only through initialisation. The flag is never changed. A named module leaves the main-module classes and the interpretation log untouched |
| Registry.AfterMapIntoInterpretModule | IronWren/AutoMapper/AutoMapper.cs:71-87 | The generated modules and handlers are untouched. The VM has a main-module table afterwards. The log only grows. The only failure is a duplicate name |
| Registry.AfterMapIntoNamedModule | IronWren/AutoMapper/AutoMapper.cs:89-106 | The main-module classes, the log and the handlers are untouched. The module is registered afterwards, even on failure. `LoadedModuleModified` is reported exactly for a used module while the flag is on, and then nothing changes |
| Registry.AfterLoadModule | IronWren/AutoMapper/AutoMapper.cs:150-156 | `null` exactly for an unknown VM or module, and then nothing changes. Otherwise the module is marked used. Nothing outside the module tables changes |
| Registry.BindAutoMapperClass | IronWren/AutoMapper/AutoMapper.cs:123-131 | Answers exactly when the VM, the module and the class are all registered in the generated modules, and then with that class's own `Bind()` |
| Registry.BindAutoMapperClassCorrected | IronWren/AutoMapper/AutoMapper.cs:123-131 | Corrected lookup (see Findings): for the interpret module, a main-module class binds to its own `Bind()`; in every other case the answer is that of the lookup as written |
| Registry.BindAutoMapperMethod | IronWren/AutoMapper/AutoMapper.cs:133-148 | For the interpret module a main-module hit wins. Every answer is the entry, in one of the two tables, for exactly the VM, module, class and signature asked. A hit in either table is never answered with `null` |
| Registry.AfterCheckInitialization | IronWren/AutoMapper/AutoMapper.cs:109-119 | After initialisation the VM always has a module table |
| RegistryProperties.InitialStateWellFormed | IronWren/AutoMapper/AutoMapper.cs:18-29 | The starting state satisfies the invariant |
| RegistryProperties.CheckInitializationIdempotent | IronWren/AutoMapper/AutoMapper.cs:109-112 | Initialising a VM a second time changes nothing |
| RegistryProperties.CheckInitializationAttachesOnce | IronWren/AutoMapper/AutoMapper.cs:109-119 | Afterwards the VM carries exactly the three handlers; a known VM is untouched; a new VM gets an empty table and no other field changes; other VMs' handlers are unchanged |
| RegistryProperties.CheckInitializationKeepsWellFormed | IronWren/AutoMapper/AutoMapper.cs:109-119 | Initialisation keeps the invariant |
| RegistryProperties.AddClassesAddsPrefix | IronWren/AutoMapper/AutoMapper.cs:76-84 | The classes added are those of a prefix of the targets, in target order |
| RegistryProperties.AddClassesKeepsExisting | IronWren/AutoMapper/AutoMapper.cs:81 | `Dictionary.Add` never replaces or removes an existing class |
| RegistryProperties.AddClassesPlacesTargets | IronWren/AutoMapper/AutoMapper.cs:79-81 | Each added target sits under its attribute name (or type name), which was free before and is used by no other added target |
| RegistryProperties.AddClassesOnlyTargets | IronWren/AutoMapper/AutoMapper.cs:81 | Every name in the resulting table was there before or belongs to an added target |
| RegistryProperties.AddClassesFailure | IronWren/AutoMapper/AutoMapper.cs:81 | A failure names the first target not added, and that name is taken |
| RegistryProperties.AddClassesSucceedsIff | IronWren/AutoMapper/AutoMapper.cs:76-84 | All targets are added exactly when their names are free and pairwise distinct |
| RegistryProperties.MainModuleAddKeepsWellFormed | IronWren/AutoMapper/AutoMapper.cs:71-87 | After the interpret-module path every main-module class has been interpreted on its VM |
| RegistryProperties.WithModuleKeepsWellFormed | IronWren/AutoMapper/AutoMapper.cs:97-106 | Storing a module under a name other than the interpret module keeps the invariant |
| RegistryProperties.AutoMapKeepsWellFormed | IronWren/AutoMapper/AutoMapper.cs:67-107 | AutoMap keeps the invariant on every path, failing or not |
| RegistryProperties.LoadModuleKeepsWellFormed | IronWren/AutoMapper/AutoMapper.cs:150-156 | Loading keeps the invariant |
| RegistryProperties.MapIntoInterpretModule | IronWren/AutoMapper/AutoMapper.cs:71-87 | For some k: targets 0..k-1 are in the main-module table under their Wren names and exactly their sources were interpreted, in order; the generated modules stay as initialisation left them; success iff k is all targets; a failure is `DuplicateClassName` of target k, whose name is taken; never `LoadedModuleModified` |
| RegistryProperties.MapIntoInterpretModuleSucceedsIff | IronWren/AutoMapper/AutoMapper.cs:76-84 | Mapping into the interpret module succeeds iff every name is new to the VM's main module and the targets' names are distinct |
| RegistryProperties.MainModuleNameTakenFails | IronWren/AutoMapper/AutoMapper.cs:76-84 | Mapping a name already in the main module fails with `DuplicateClassName`, while the targets before it stay added and interpreted |
| RegistryProperties.LoadedModuleIsFrozen | IronWren/AutoMapper/AutoMapper.cs:90-95 | With the flag on, mapping into a loaded module throws `LoadedModuleModified` and changes nothing |
| RegistryProperties.LoadThenMapIsRefused | IronWren/AutoMapper/AutoMapper.cs:90-95 | With the flag on, once the VM has loaded a module any later mapping into it is refused |
| RegistryProperties.LateAddWhenNotStrict | IronWren/AutoMapper/AutoMapper.cs:89-106 | With the flag off, a known module accepts the targets iff their names are free and distinct; it keeps its Used flag and its classes; any failure is a duplicate name |
| RegistryProperties.MapIntoNewModule | IronWren/AutoMapper/AutoMapper.cs:97-106 | An unknown module is registered unused under its name before the Adds, so it holds the added classes even if an Add fails; main-module classes and interpretations are unchanged |
| RegistryProperties.InterpretModuleNeverGenerated | IronWren/AutoMapper/AutoMapper.cs:97-103 | The interpret module's name never becomes a key of a VM's module table |
| RegistryProperties.CheckInitializationExtends | IronWren/AutoMapper/AutoMapper.cs:109-119 | Initialisation removes or changes no registration |
| RegistryProperties.AutoMapExtends | IronWren/AutoMapper/AutoMapper.cs:67-107 | AutoMap removes or changes no VM, module or class, never clears Used, and only appends to the interpretations |
| RegistryProperties.LoadModuleExtends | IronWren/AutoMapper/AutoMapper.cs:150-156 | Loading removes nothing and only ever sets Used |
| RegistryProperties.LoadModuleResult | IronWren/AutoMapper/AutoMapper.cs:150-156 | `null` and no change exactly when the VM or the module is unknown; otherwise the module's current classes, with that module marked loaded and its classes unchanged |
| RegistryProperties.LoadModuleTwice | IronWren/AutoMapper/AutoMapper.cs:150-156 | Loading the same module twice gives the same source and the same state as loading it once |
| RegistryProperties.InterpretModuleMethodLookup | IronWren/AutoMapper/AutoMapper.cs:133-148 | For the interpret module the answer is the main-module entry if the class and signature exist there, else `null` |
| RegistryProperties.NamedModuleMethodLookup | IronWren/AutoMapper/AutoMapper.cs:133-148 | For any other module there is an answer iff the whole VM/module/class/signature chain exists in the generated modules, and it is that entry |
| RegistryProperties.MainModuleClassesNotBound | IronWren/AutoMapper/AutoMapper.cs:123-131 | bindAutoMapperClass answers `null` for every class of the interpret module |
| RegistryProperties.MappedMainModuleClassUnbound | IronWren/AutoMapper/AutoMapper.cs:123-131 | On a fresh VM, mapping one class into the interpret module succeeds, yet the lookup as written gives no allocator for it; the corrected lookup gives that class's own |
| RegistryProperties.MappedClassesResolve | IronWren/AutoMapper/AutoMapper.cs:123-148 | After a successful AutoMap each mapped class's methods resolve to its own functions. With the lookup as written, a class in a named module binds to its own `Bind()`; with the corrected lookup, every mapped class does |
| RegistryProperties.LookupsDependOnOwnEntries | IronWren/AutoMapper/AutoMapper.cs:123-156 | The three callbacks' answers for a VM (and the corrected class lookup's) depend only on that VM's entries |
| RegistryProperties.AutoMapTouchesOwnVM | IronWren/AutoMapper/AutoMapper.cs:67-119 | AutoMap leaves another VM's module table, main-module table and handlers as they were |
| RegistryProperties.AutoMapIsolatesVMs | IronWren/AutoMapper/AutoMapper.cs:123-156 | After AutoMap on one VM, every callback answers on another VM as before |
| RegistryProperties.LoadModuleIsolatesVMs | IronWren/AutoMapper/AutoMapper.cs:150-156 | After a load on one VM, every callback answers on another VM as before |
| StructureMapping.Join | IronWren/AutoMapper/StructureMapping/ForeignConstructor.cs:21 | `string.Join(", ", names)` starts with the first name, ends with the last, and is at least as long as the separators between the names |
| StructureMapping.ConstructorSource | IronWren/AutoMapper/StructureMapping/ForeignConstructor.cs:21 | The declaration starts with `construct new(`, ends with `) { }`, and is as long as the two plus the joined names |
| StructureMapping.ForeignConstructor.constructor | IronWren/AutoMapper/StructureMapping/ForeignConstructor.cs:15-19 | `Constructor` is the constructor value passed in |
| StructureMapping.ForeignConstructor.GetSource | IronWren/AutoMapper/StructureMapping/ForeignConstructor.cs:24-27 | Returns the stored declaration for the constructor's parameter names; it reads no mutable state, so every call gives the same text |
| StructureMapping.EmptyConstructorSource | IronWren/AutoMapper/StructureMapping/ForeignConstructor.cs:21 | A constructor without parameters gives exactly `construct new() { }` |
| StructureMapping.SourceDependsOnlyOnNames | IronWren/AutoMapper/StructureMapping/ForeignConstructor.cs:21 | Two constructors with the same parameter names give identical source |
| StructureMapping.SourceFraming | IronWren/AutoMapper/StructureMapping/ForeignConstructor.cs:21 | The declaration is `construct new(`, then the joined names, then `) { }` |
| StructureMapping.ParseJoin | IronWren/AutoMapper/StructureMapping/ForeignConstructor.cs:21 | Reading names joined by `, ` gives back the same names |
| StructureMapping.JoinParse | IronWren/AutoMapper/StructureMapping/ForeignConstructor.cs:21 | Any list the reader accepts is the `, `-join of valid names |
| StructureMapping.RoundTrip | IronWren/AutoMapper/StructureMapping/ForeignConstructor.cs:21 | Reading the generated declaration gives back exactly the parameter names: all of them, in declaration order, each once |
| StructureMapping.ParsedIsGenerated | IronWren/AutoMapper/StructureMapping/ForeignConstructor.cs:21 | A text the reader accepts as some names is exactly the declaration generated for those names |

## Findings

| source | as written | input that shows it | evidently intended | confidence | as-written member | corrected member |
|---|---|---|---|---|---|---|
| IronWren/AutoMapper/AutoMapper.cs:123-131 | `bindAutoMapperClass` looks only in `generatedModules`, so a class mapped into the interpret module gets no allocator | `vm.AutoMap<WrenVector>()` then `Vector.new(1, 2)` (IronWren.ConsoleTesting/Program.cs:95-96): the VM asks for the allocator of a main-module class and gets `null` | Consult `mainModuleClasses[vm]` first for the interpret module, as `bindAutoMapperMethod` does at lines 135-139 | medium (not executed; depends on the generated class being a `foreign class`, whose source is not part of this model) | Registry.BindAutoMapperClass, RegistryProperties.MappedMainModuleClassUnbound | Registry.BindAutoMapperClassCorrected, RegistryProperties.MappedClassesResolve |

The model keeps `BindAutoMapperClass` as written, because that is what the VM calls. The proofs of resolution and of isolation between VMs are stated for the corrected lookup as well.

## Left out

- The Wren VM is not modelled. A VM is an opaque key. `vm.Config.X += handler` becomes appending a `Hook` to that VM's handler list. `vm.Interpret` becomes appending an `Interpretation` to a log. Event-handler composition with other handlers on the same VM is not modelled.
- Each VM is assumed to have its own configuration object. In IronWren the caller passes the `WrenConfig` to the VM, so two VMs could share one. The handler clauses (`hooks` in `WellFormed`, `SameEntries`, `CheckInitializationAttachesOnce`, `AutoMapIsolatesVMs`) would then not describe the shared configuration. The three callbacks are unaffected, because each is keyed by its `vm` argument.
- A Dafny `string` is a sequence of Unicode scalar values, while a C# string counts UTF-16 code units. The length clauses of `Join` and `ConstructorSource` therefore count differently from C# `Length` for a parameter name with a character outside the Basic Multilingual Plane.
- Reflection is not modelled: `GetTypeInfo`, `GetCustomAttribute<WrenClassAttribute>` and `GetParameters`.
  - A target is its type name, its optional attribute name and the `ForeignClass` built from it.
  - A constructor is its ordered parameter names.
- ForeignModule, ForeignClass and their files are not part of this model. Their behaviour is assumed:
  - `ForeignModule.Add` stores the target's class under its Wren name and throws on a name already present, like `Dictionary.Add`.
  - Every property of a named module's contents (`MapIntoNewModule`, `LateAddWhenNotStrict`, `MappedClassesResolve` for named modules) rests on this assumed `Add`.
  - `ForeignModule.GetSource` returns the module's classes at that moment (`ModuleSource`) instead of rendered text, and marks the module used.
  - `ForeignClass.GetSource`, `Functions` and `Bind` are opaque values.
- `WrenVM.InterpetModule` is defined outside these files; it is taken to be `"main"`. No property depends on the particular string.
- The two convenience overloads of AutoMap (`AutoMap<TTarget>` and `AutoMap(vm, params Type[])`, lines 40-56) are not modelled separately. Both only forward to the modelled `AutoMap(vm, moduleName, targets)` with the interpret module as the default.
- The `moduleName != WrenVM.InterpetModule` guard at line 101 is not a separate branch. It always holds there, because the interpret module returned at line 86.
- The `isStatic` argument of bindAutoMapperMethod is taken but never consulted, as in the source.
- A `ForeignModule` is a reference in C# and a value here. MapIntoNamedModule writes the module back into the table after every Add. Only one reference to a module exists in the source, so no aliasing is lost.
- Thread safety is not modelled. The static dictionaries are unsynchronised in the source, and every operation is modelled as sequential.
- Exceptions other than the two AutoMap lets escape (a `null` argument, reflection failures) are not modelled.
