/**
 * The static class AutoMapper (IronWren/AutoMapper/AutoMapper.cs): the two
 * per-VM dictionaries and the strict flag as fields of one object, and the
 * operations that change them as methods. CheckInitialization, AutoMap,
 * MapIntoInterpretModule, MapIntoNamedModule and LoadAutoMapperModule are
 * proved to leave the fields (and return the result) exactly as their function
 * in module Registry says; AddAndInterpret is one iteration of the
 * interpret-module loop and states its new fields directly.
 *
 * The fields `hooks` and `interpreted` record the effects on the VMs: the
 * handlers attached to `vm.Config` and the sources handed to `vm.Interpret`.
 */
module AutoMapper {
  import opened Results
  import opened Registry
  import RegistryProperties

  class AutoMapper {
    var generatedModules: map<WrenVM, map<string, ForeignModule>>
    var mainModuleClasses: map<WrenVM, map<string, ForeignClass>>
    /** Whether adding to a module that was already loaded throws. On by default. */
    var treatModificationAfterLoadAsError: bool
    var hooks: map<WrenVM, seq<Hook>>
    var interpreted: seq<Interpretation>

    function State(): MapperState
      reads this
    {
      MapperState(generatedModules, mainModuleClasses, treatModificationAfterLoadAsError, hooks, interpreted)
    }

    ghost predicate Valid()
      reads this
    {
      WellFormed(State())
    }

    /** The state of the static fields when the program starts. */
    constructor ()
      ensures Valid()
      ensures State() == InitialState
    {
      generatedModules := map[];
      mainModuleClasses := map[];
      treatModificationAfterLoadAsError := true;
      hooks := map[];
      interpreted := [];
    }

    /** checkInitialization(vm) */
    method CheckInitialization(vm: WrenVM)
      requires Valid()
      modifies this
      ensures Valid()
      ensures State() == AfterCheckInitialization(old(State()), vm)
    {
      ghost var s0 := State();
      RegistryProperties.CheckInitializationKeepsWellFormed(s0, vm);
      if vm in generatedModules {
        return;
      }
      var before := HooksOf(State(), vm);
      hooks := hooks[vm := before + [LoadModuleHook]];
      hooks := hooks[vm := hooks[vm] + [BindForeignMethodHook]];
      hooks := hooks[vm := hooks[vm] + [BindForeignClassHook]];
      assert hooks[vm] == before + AutoMapperHooks;
      assert hooks == s0.hooks[vm := before + AutoMapperHooks];
      generatedModules := generatedModules[vm := map[]];
      assert State() == AfterCheckInitialization(s0, vm);
    }

    /** AutoMap(vm, moduleName, targets): a thrown exception is returned as `Fail`. */
    method AutoMap(vm: WrenVM, moduleName: string, targets: seq<Target>) returns (outcome: Outcome<MapError>)
      requires Valid()
      modifies this
      ensures Valid()
      ensures MapResult(State(), outcome) == AfterAutoMap(old(State()), vm, moduleName, targets)
    {
      RegistryProperties.AutoMapKeepsWellFormed(State(), vm, moduleName, targets);
      CheckInitialization(vm);
      if moduleName == InterpretModule {
        outcome := MapIntoInterpretModule(vm, targets);
      } else {
        outcome := MapIntoNamedModule(vm, moduleName, targets);
      }
    }

    /** The interpret-module branch of AutoMap: add each class to the main-module
        table and interpret its source. */
    method MapIntoInterpretModule(vm: WrenVM, targets: seq<Target>) returns (outcome: Outcome<MapError>)
      modifies this
      ensures MapResult(State(), outcome) == AfterMapIntoInterpretModule(old(State()), vm, targets)
    {
      ghost var s1 := State();
      if vm !in mainModuleClasses {
        mainModuleClasses := mainModuleClasses[vm := map[]];
      }
      ghost var c0 := mainModuleClasses[vm];
      ghost var done: seq<ForeignClass> := [];
      RegistryProperties.AddedSoFarStart(c0, targets);
      for i := 0 to |targets|
        invariant vm in mainModuleClasses
        invariant generatedModules == s1.generatedModules && hooks == s1.hooks
        invariant treatModificationAfterLoadAsError == s1.treatModificationAfterLoadAsError
        invariant mainModuleClasses == s1.mainModuleClasses[vm := mainModuleClasses[vm]]
        invariant interpreted == s1.interpreted + Interpretations(vm, done)
        invariant RegistryProperties.AddedSoFar(c0, targets, i, mainModuleClasses[vm], done)
      {
        var target := targets[i];
        var foreignClass := target.foreignClass;
        var name := target.WrenName();
        RegistryProperties.AddedSoFarStep(c0, targets, i, mainModuleClasses[vm], done);
        if name in mainModuleClasses[vm] {
          return Fail(DuplicateClassName(name));
        }
        RegistryProperties.UpdateTwice(s1.mainModuleClasses, vm, mainModuleClasses[vm], mainModuleClasses[vm][name := foreignClass]);
        AddAndInterpret(vm, name, foreignClass);
        RegistryProperties.InterpretationsAppend(s1.interpreted, vm, done, foreignClass);
        done := done + [foreignClass];
      }
      RegistryProperties.AddedSoFarEnd(c0, targets, mainModuleClasses[vm], done);
      return Pass;
    }

    /** `mainModuleClasses[vm].Add(name, foreignClass)` on a free name, then
        `vm.Interpret(foreignClass.GetSource())`. */
    method AddAndInterpret(vm: WrenVM, name: string, foreignClass: ForeignClass)
      requires vm in mainModuleClasses && name !in mainModuleClasses[vm]
      modifies this
      ensures mainModuleClasses == old(mainModuleClasses[vm := mainModuleClasses[vm][name := foreignClass]])
      ensures interpreted == old(interpreted) + [Interpretation(vm, foreignClass.GetSource())]
      ensures generatedModules == old(generatedModules) && hooks == old(hooks)
      ensures treatModificationAfterLoadAsError == old(treatModificationAfterLoadAsError)
    {
      mainModuleClasses := mainModuleClasses[vm := mainModuleClasses[vm][name := foreignClass]];
      interpreted := interpreted + [Interpretation(vm, foreignClass.GetSource())];
    }

    /** The named-module branch of AutoMap: refuse a loaded module while the
        flag is on, else add each class to the (possibly new) module. */
    method MapIntoNamedModule(vm: WrenVM, moduleName: string, targets: seq<Target>) returns (outcome: Outcome<MapError>)
      requires vm in generatedModules
      modifies this
      ensures MapResult(State(), outcome) == AfterMapIntoNamedModule(old(State()), vm, moduleName, targets)
    {
      ghost var s1 := State();
      var foreignModule: ForeignModule;
      if vm in generatedModules && moduleName in generatedModules[vm] {
        foreignModule := generatedModules[vm][moduleName];
        if foreignModule.Used && treatModificationAfterLoadAsError {
          return Fail(LoadedModuleModified(moduleName));
        }
      } else {
        foreignModule := ForeignModule(map[], false);
        // The source guards this Add with `moduleName != InterpetModule`, which always holds here.
        generatedModules := generatedModules[vm := generatedModules[vm][moduleName := foreignModule]];
      }

      ghost var c0 := foreignModule.Classes;
      ghost var used := foreignModule.Used;
      ghost var done: seq<ForeignClass> := [];
      RegistryProperties.AddedSoFarStart(c0, targets);
      assert generatedModules[vm][moduleName] == foreignModule;
      assert generatedModules[vm][moduleName := foreignModule] == generatedModules[vm];
      assert generatedModules[vm := generatedModules[vm]] == generatedModules;
      for i := 0 to |targets|
        invariant vm in s1.generatedModules
        invariant foreignModule.Used == used
        invariant generatedModules == s1.generatedModules[vm := s1.generatedModules[vm][moduleName := foreignModule]]
        invariant mainModuleClasses == s1.mainModuleClasses && hooks == s1.hooks && interpreted == s1.interpreted
        invariant treatModificationAfterLoadAsError == s1.treatModificationAfterLoadAsError
        invariant RegistryProperties.AddedSoFar(c0, targets, i, foreignModule.Classes, done)
      {
        // module.Add(target)
        var target := targets[i];
        var name := target.WrenName();
        RegistryProperties.AddedSoFarStep(c0, targets, i, foreignModule.Classes, done);
        if name in foreignModule.Classes {
          return Fail(DuplicateClassName(name));
        }
        RegistryProperties.ModuleStoredTwice(s1.generatedModules, vm, moduleName, foreignModule,
          foreignModule.(Classes := foreignModule.Classes[name := target.foreignClass]));
        foreignModule := foreignModule.(Classes := foreignModule.Classes[name := target.foreignClass]);
        generatedModules := generatedModules[vm := generatedModules[vm][moduleName := foreignModule]];
        done := done + [target.foreignClass];
      }
      RegistryProperties.AddedSoFarEnd(c0, targets, foreignModule.Classes, done);
      return Pass;
    }

    /** loadAutoMapperModule(vm, name): `None` is the `null` result. */
    method LoadAutoMapperModule(vm: WrenVM, name: string) returns (source: Option<ModuleSource>)
      requires Valid()
      modifies this
      ensures Valid()
      ensures LoadResult(State(), source) == AfterLoadModule(old(State()), vm, name)
    {
      RegistryProperties.LoadModuleKeepsWellFormed(State(), vm, name);
      if vm !in generatedModules || name !in generatedModules[vm] {
        return None;
      }
      var foreignModule := generatedModules[vm][name];
      source := Some(foreignModule.GetSource());
      generatedModules := generatedModules[vm := generatedModules[vm][name := foreignModule.(Used := true)]];
    }
  }
}
