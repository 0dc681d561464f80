/**
 * What the AutoMapper promises, proved about the functions of module Registry:
 * adding classes, lazy initialisation, the main-module/named-module split, the
 * freeze guard, the lookup order of the callbacks and the isolation of VMs.
 */
module RegistryProperties {
  import opened Results
  import opened Registry

  /** The descriptors of the targets, in order. */
  function ClassesOf(targets: seq<Target>): seq<ForeignClass>
  {
    seq(|targets|, i requires 0 <= i < |targets| => targets[i].foreignClass)
  }

  /** Every target's Wren name is free in `classes`, and no two targets share one. */
  predicate FreshNames(classes: map<string, ForeignClass>, targets: seq<Target>)
  {
    && (forall i :: 0 <= i < |targets| ==> targets[i].WrenName() !in classes)
    && (forall i, j :: 0 <= i < j < |targets| ==> targets[i].WrenName() != targets[j].WrenName())
  }

  /** Interpreting one more class appends one entry to the log. */
  lemma InterpretationsAppend(log: seq<Interpretation>, vm: WrenVM, classes: seq<ForeignClass>, c: ForeignClass)
    ensures (log + Interpretations(vm, classes)) + [Interpretation(vm, c.GetSource())]
         == log + Interpretations(vm, classes + [c])
  {
    assert Interpretations(vm, classes + [c]) == Interpretations(vm, classes) + [Interpretation(vm, c.GetSource())];
  }

  /** Updating one key twice keeps only the second value. */
  lemma UpdateTwice<K, V>(m: map<K, V>, k: K, a: V, b: V)
    ensures m[k := a][k := b] == m[k := b]
  {
  }

  /** Storing a module twice under the same name keeps only the second. */
  lemma ModuleStoredTwice(gm: map<WrenVM, map<string, ForeignModule>>, vm: WrenVM, name: string, a: ForeignModule, b: ForeignModule)
    requires vm in gm
    ensures var g1 := gm[vm := gm[vm][name := a]];
      g1[vm := g1[vm][name := b]] == gm[vm := gm[vm][name := b]]
  {
    var g1 := gm[vm := gm[vm][name := a]];
    assert g1[vm][name := b] == gm[vm][name := b];
  }

  /** The invariant of the Add loops: `done` were added so far, giving `cur`,
      and running on from position `i` completes AddClasses(c0, targets). */
  ghost predicate AddedSoFar(c0: map<string, ForeignClass>, targets: seq<Target>, i: nat,
                             cur: map<string, ForeignClass>, done: seq<ForeignClass>)
  {
    i <= |targets| &&
    var r := AddClasses(cur, targets[i..]);
    AddClasses(c0, targets) == AddResult(r.classes, done + r.added, r.failed)
  }

  lemma AddedSoFarStart(c0: map<string, ForeignClass>, targets: seq<Target>)
    ensures AddedSoFar(c0, targets, 0, c0, [])
  {
    assert targets[0..] == targets;
  }

  /** One Add: it throws on a taken name, ending the run there, or inserts. */
  lemma AddedSoFarStep(c0: map<string, ForeignClass>, targets: seq<Target>, i: nat,
                       cur: map<string, ForeignClass>, done: seq<ForeignClass>)
    requires AddedSoFar(c0, targets, i, cur, done) && i < |targets|
    ensures var name := targets[i].WrenName();
      && (name in cur ==> AddClasses(c0, targets) == AddResult(cur, done, Some(name)))
      && (name !in cur ==> AddedSoFar(c0, targets, i + 1, cur[name := targets[i].foreignClass], done + [targets[i].foreignClass]))
  {
    assert targets[i..][1..] == targets[i + 1..];
    var name := targets[i].WrenName();
    var fc := targets[i].foreignClass;
    if name !in cur {
      var rest := AddClasses(cur[name := fc], targets[i + 1..]);
      assert done + ([fc] + rest.added) == (done + [fc]) + rest.added;
    }
  }

  lemma AddedSoFarEnd(c0: map<string, ForeignClass>, targets: seq<Target>,
                      cur: map<string, ForeignClass>, done: seq<ForeignClass>)
    requires AddedSoFar(c0, targets, |targets|, cur, done)
    ensures AddClasses(c0, targets) == AddResult(cur, done, None)
  {
    assert targets[|targets|..] == [];
    assert done + [] == done;
  }

  // ---------------------------------------------------------------------------
  // AddClasses: Dictionary.Add, target by target
  // ---------------------------------------------------------------------------

  /** The classes added are those of a prefix of the targets, in order. */
  lemma {:induction false} AddClassesAddsPrefix(classes: map<string, ForeignClass>, targets: seq<Target>)
    ensures AddClasses(classes, targets).added == ClassesOf(targets[..|AddClasses(classes, targets).added|])
    decreases |targets|
  {
    if targets != [] && targets[0].WrenName() !in classes {
      var name := targets[0].WrenName();
      var rest := AddClasses(classes[name := targets[0].foreignClass], targets[1..]);
      AddClassesAddsPrefix(classes[name := targets[0].foreignClass], targets[1..]);
      assert targets[1..][..|rest.added|] == targets[..|rest.added| + 1][1..];
    }
  }

  /** Nothing already in the table is replaced or removed. */
  lemma {:induction false} AddClassesKeepsExisting(classes: map<string, ForeignClass>, targets: seq<Target>)
    ensures var r := AddClasses(classes, targets);
      forall k :: k in classes ==> k in r.classes && r.classes[k] == classes[k]
    decreases |targets|
  {
    if targets != [] && targets[0].WrenName() !in classes {
      AddClassesKeepsExisting(classes[targets[0].WrenName() := targets[0].foreignClass], targets[1..]);
    }
  }

  /** Each added target sits under its own Wren name, which was free before and
      which no other added target uses. */
  lemma {:induction false} AddClassesPlacesTargets(classes: map<string, ForeignClass>, targets: seq<Target>)
    ensures var r := AddClasses(classes, targets);
      && (forall i :: 0 <= i < |r.added| ==>
            targets[i].WrenName() !in classes
            && targets[i].WrenName() in r.classes
            && r.classes[targets[i].WrenName()] == targets[i].foreignClass)
      && FreshNames(classes, targets[..|r.added|])
    decreases |targets|
  {
    if targets != [] && targets[0].WrenName() !in classes {
      var name := targets[0].WrenName();
      var next := classes[name := targets[0].foreignClass];
      var rest := AddClasses(next, targets[1..]);
      AddClassesPlacesTargets(next, targets[1..]);
      AddClassesKeepsExisting(next, targets[1..]);
      forall i | 1 <= i < |rest.added| + 1
        ensures targets[i].WrenName() !in classes && targets[i].WrenName() != name
        ensures targets[i].WrenName() in rest.classes
        ensures rest.classes[targets[i].WrenName()] == targets[i].foreignClass
      {
        assert targets[i] == targets[1..][i - 1];
      }
      var pre := targets[..|rest.added| + 1];
      forall i, j | 0 <= i < j < |pre|
        ensures pre[i].WrenName() != pre[j].WrenName()
      {
        assert pre[j] == targets[1..][..|rest.added|][j - 1];
        if i > 0 {
          assert pre[i] == targets[1..][..|rest.added|][i - 1];
        }
      }
    }
  }

  /** Every key of the result was there before or belongs to an added target. */
  lemma {:induction false} AddClassesOnlyTargets(classes: map<string, ForeignClass>, targets: seq<Target>)
    ensures var r := AddClasses(classes, targets);
      forall k :: k in r.classes ==> k in classes || exists i :: 0 <= i < |r.added| && targets[i].WrenName() == k
    decreases |targets|
  {
    if targets != [] && targets[0].WrenName() !in classes {
      var name := targets[0].WrenName();
      var next := classes[name := targets[0].foreignClass];
      var rest := AddClasses(next, targets[1..]);
      AddClassesOnlyTargets(next, targets[1..]);
      forall k | k in rest.classes && k !in classes
        ensures exists i :: 0 <= i < |rest.added| + 1 && targets[i].WrenName() == k
      {
        if k == name {
          assert targets[0].WrenName() == k;
        } else {
          var i :| 0 <= i < |rest.added| && targets[1..][i].WrenName() == k;
          assert targets[i + 1].WrenName() == k;
        }
      }
    }
  }

  /** An Add fails on the first target whose name is already taken. */
  lemma {:induction false} AddClassesFailure(classes: map<string, ForeignClass>, targets: seq<Target>)
    ensures var r := AddClasses(classes, targets);
      r.failed.Some? ==> r.failed.value == targets[|r.added|].WrenName() && r.failed.value in r.classes
    decreases |targets|
  {
    if targets != [] && targets[0].WrenName() !in classes {
      var name := targets[0].WrenName();
      var next := classes[name := targets[0].foreignClass];
      AddClassesFailure(next, targets[1..]);
    }
  }

  /** Every target is added exactly when all their names are free and distinct. */
  lemma AddClassesSucceedsIff(classes: map<string, ForeignClass>, targets: seq<Target>)
    ensures AddClasses(classes, targets).failed.None? <==> FreshNames(classes, targets)
  {
    var r := AddClasses(classes, targets);
    AddClassesPlacesTargets(classes, targets);
    if r.failed.None? {
      assert targets[..|r.added|] == targets;
    } else {
      AddClassesFailure(classes, targets);
      AddClassesOnlyTargets(classes, targets);
      var k := |r.added|;
      var n := r.failed.value;
      if n !in classes {
        var i :| 0 <= i < k && targets[i].WrenName() == n;
        assert targets[i].WrenName() == targets[k].WrenName();
      }
    }
  }

  // ---------------------------------------------------------------------------
  // The invariant is kept by every operation
  // ---------------------------------------------------------------------------

  lemma CheckInitializationKeepsWellFormed(s: MapperState, vm: WrenVM)
    requires WellFormed(s)
    ensures WellFormed(AfterCheckInitialization(s, vm))
  {
  }

  /** Adding to the main-module table and interpreting what was added keeps the invariant. */
  lemma MainModuleAddKeepsWellFormed(s1: MapperState, vm: WrenVM, targets: seq<Target>)
    requires WellFormed(s1) && vm in s1.generatedModules
    ensures var r := AddClasses(MainClassesOf(s1, vm), targets);
      WellFormed(s1.(mainModuleClasses := s1.mainModuleClasses[vm := r.classes],
                     interpreted := s1.interpreted + Interpretations(vm, r.added)))
  {
    var c0 := MainClassesOf(s1, vm);
    var r := AddClasses(c0, targets);
    var t := s1.(mainModuleClasses := s1.mainModuleClasses[vm := r.classes],
                 interpreted := s1.interpreted + Interpretations(vm, r.added));
    AddClassesAddsPrefix(c0, targets);
    AddClassesKeepsExisting(c0, targets);
    AddClassesPlacesTargets(c0, targets);
    AddClassesOnlyTargets(c0, targets);
    forall v, name | v in t.mainModuleClasses && name in t.mainModuleClasses[v]
      ensures WasInterpreted(t, v, t.mainModuleClasses[v][name])
    {
      if v != vm {
        assert WasInterpreted(s1, v, s1.mainModuleClasses[v][name]);
      } else if name in c0 {
        assert WasInterpreted(s1, v, c0[name]);
      } else {
        var i :| 0 <= i < |r.added| && targets[i].WrenName() == name;
        assert t.interpreted[|s1.interpreted| + i] == Interpretation(vm, r.added[i].GetSource());
      }
    }
  }

  /** Replacing or adding a module other than the interpret module keeps the invariant. */
  lemma WithModuleKeepsWellFormed(s1: MapperState, vm: WrenVM, name: string, m: ForeignModule)
    requires WellFormed(s1) && vm in s1.generatedModules && name != InterpretModule
    ensures WellFormed(WithModule(s1, vm, name, m))
  {
    var t := WithModule(s1, vm, name, m);
    assert t.mainModuleClasses == s1.mainModuleClasses && t.interpreted == s1.interpreted;
    assert forall v, n :: v in t.mainModuleClasses && n in t.mainModuleClasses[v] ==>
      WasInterpreted(s1, v, s1.mainModuleClasses[v][n]);
  }

  lemma AutoMapKeepsWellFormed(s: MapperState, vm: WrenVM, moduleName: string, targets: seq<Target>)
    requires WellFormed(s)
    ensures WellFormed(AfterAutoMap(s, vm, moduleName, targets).state)
  {
    var s1 := AfterCheckInitialization(s, vm);
    CheckInitializationKeepsWellFormed(s, vm);
    if moduleName == InterpretModule {
      MainModuleAddKeepsWellFormed(s1, vm, targets);
    } else if moduleName in s1.generatedModules[vm] {
      var m := s1.generatedModules[vm][moduleName];
      if !(m.Used && s1.treatModificationAfterLoadAsError) {
        WithModuleKeepsWellFormed(s1, vm, moduleName, m.(Classes := AddClasses(m.Classes, targets).classes));
      }
    } else {
      WithModuleKeepsWellFormed(s1, vm, moduleName, ForeignModule(AddClasses(map[], targets).classes, false));
    }
  }

  lemma LoadModuleKeepsWellFormed(s: MapperState, vm: WrenVM, name: string)
    requires WellFormed(s)
    ensures WellFormed(AfterLoadModule(s, vm, name).state)
  {
  }

  /** The state the program starts in is well formed. */
  lemma InitialStateWellFormed()
    ensures WellFormed(InitialState)
  {
  }

  // ---------------------------------------------------------------------------
  // checkInitialization
  // ---------------------------------------------------------------------------

  /** A second initialisation of the same VM changes nothing. */
  lemma CheckInitializationIdempotent(s: MapperState, vm: WrenVM)
    ensures var s1 := AfterCheckInitialization(s, vm);
      AfterCheckInitialization(s1, vm) == s1
  {
  }

  /** Initialisation attaches the three handlers exactly once, creates an empty
      module table for a new VM, and touches no other VM. */
  lemma CheckInitializationAttachesOnce(s: MapperState, vm: WrenVM)
    requires WellFormed(s)
    ensures var s1 := AfterCheckInitialization(s, vm);
      && s1.hooks[vm] == AutoMapperHooks
      && (vm in s.generatedModules ==> s1 == s)
      && (vm !in s.generatedModules ==>
            s1.generatedModules[vm] == map[] && HooksOf(s, vm) == []
            && s1 == s.(generatedModules := s1.generatedModules, hooks := s1.hooks))
      && (forall v :: v != vm ==> HooksOf(s1, v) == HooksOf(s, v))
  {
  }

  // ---------------------------------------------------------------------------
  // AutoMap into the interpret module
  // ---------------------------------------------------------------------------

  /** Mapping into the interpret module adds a prefix of the targets to the
      main-module table under their Wren names, interprets exactly their
      sources in order, and leaves the generated modules as initialisation left
      them. It stops at the first name already taken, keeping what it added,
      and it never reports a loaded module. */
  lemma MapIntoInterpretModule(s: MapperState, vm: WrenVM, targets: seq<Target>)
    ensures var res := AfterAutoMap(s, vm, InterpretModule, targets);
      && res.state.generatedModules == AfterCheckInitialization(s, vm).generatedModules
      && !(res.outcome.Fail? && res.outcome.error.LoadedModuleModified?)
      && exists k :: 0 <= k <= |targets|
          && res.state.interpreted == s.interpreted + Interpretations(vm, ClassesOf(targets[..k]))
          && vm in res.state.mainModuleClasses
          && (forall i :: 0 <= i < k ==>
                && targets[i].WrenName() in res.state.mainModuleClasses[vm]
                && res.state.mainModuleClasses[vm][targets[i].WrenName()] == targets[i].foreignClass)
          && (res.outcome == Pass <==> k == |targets|)
          && (res.outcome.Fail? ==>
                && k < |targets|
                && res.outcome == Fail(DuplicateClassName(targets[k].WrenName()))
                && targets[k].WrenName() in res.state.mainModuleClasses[vm])
  {
    var c0 := MainClassesOf(AfterCheckInitialization(s, vm), vm);
    var r := AddClasses(c0, targets);
    AddClassesAddsPrefix(c0, targets);
    AddClassesPlacesTargets(c0, targets);
    AddClassesFailure(c0, targets);
    var k := |r.added|;
    assert 0 <= k <= |targets|;
  }

  /** Mapping into the interpret module succeeds exactly when every target's
      name is new to the VM's main module and no two targets share one. */
  lemma MapIntoInterpretModuleSucceedsIff(s: MapperState, vm: WrenVM, targets: seq<Target>)
    ensures AfterAutoMap(s, vm, InterpretModule, targets).outcome == Pass
        <==> FreshNames(MainClassesOf(s, vm), targets)
  {
    AddClassesSucceedsIff(MainClassesOf(AfterCheckInitialization(s, vm), vm), targets);
  }

  /** A name already in the VM's main module cannot be mapped again, while the
      targets before it stay added and interpreted. */
  lemma MainModuleNameTakenFails(s: MapperState, vm: WrenVM, targets: seq<Target>, k: nat)
    requires k < |targets|
    requires targets[k].WrenName() in MainClassesOf(s, vm)
    requires FreshNames(MainClassesOf(s, vm), targets[..k])
    ensures var res := AfterAutoMap(s, vm, InterpretModule, targets);
      && res.outcome == Fail(DuplicateClassName(targets[k].WrenName()))
      && res.state.interpreted == s.interpreted + Interpretations(vm, ClassesOf(targets[..k]))
      && vm in res.state.mainModuleClasses
      && (forall i :: 0 <= i < k ==>
            && targets[i].WrenName() in res.state.mainModuleClasses[vm]
            && res.state.mainModuleClasses[vm][targets[i].WrenName()] == targets[i].foreignClass)
  {
    var c0 := MainClassesOf(AfterCheckInitialization(s, vm), vm);
    var r := AddClasses(c0, targets);
    AddClassesPlacesTargets(c0, targets);
    AddClassesFailure(c0, targets);
    AddClassesAddsPrefix(c0, targets);
    AddClassesKeepsExisting(c0, targets);
    AddClassesSucceedsIff(c0, targets);
    AddClassesOnlyTargets(c0, targets);
    forall i | 0 <= i < k
      ensures targets[i].WrenName() !in c0
    {
      assert targets[..k][i] == targets[i];
    }
    forall i, j | 0 <= i < j < k
      ensures targets[i].WrenName() != targets[j].WrenName()
    {
      assert targets[..k][i] == targets[i] && targets[..k][j] == targets[j];
    }
    var a := |r.added|;
    assert a == k;
  }

  // ---------------------------------------------------------------------------
  // AutoMap into a named module
  // ---------------------------------------------------------------------------

  /** With the strict flag on, mapping into a module the VM has already loaded
      throws LoadedModuleModified and changes nothing. */
  lemma LoadedModuleIsFrozen(s: MapperState, vm: WrenVM, moduleName: string, targets: seq<Target>)
    requires WellFormed(s)
    requires s.treatModificationAfterLoadAsError
    requires vm in s.generatedModules && moduleName in s.generatedModules[vm]
    requires s.generatedModules[vm][moduleName].Used
    ensures AfterAutoMap(s, vm, moduleName, targets) == MapResult(s, Fail(LoadedModuleModified(moduleName)))
  {
  }

  /** Loading a module and then mapping more into it, with the strict flag on,
      is refused. */
  lemma LoadThenMapIsRefused(s: MapperState, vm: WrenVM, moduleName: string, targets: seq<Target>)
    requires WellFormed(s)
    requires s.treatModificationAfterLoadAsError
    requires AfterLoadModule(s, vm, moduleName).source.Some?
    ensures var loaded := AfterLoadModule(s, vm, moduleName).state;
      AfterAutoMap(loaded, vm, moduleName, targets) == MapResult(loaded, Fail(LoadedModuleModified(moduleName)))
  {
    LoadModuleKeepsWellFormed(s, vm, moduleName);
    LoadedModuleIsFrozen(AfterLoadModule(s, vm, moduleName).state, vm, moduleName, targets);
  }

  /** With the strict flag off, a loaded module accepts further classes; it
      stays marked as loaded and keeps the classes the VM already received.
      That the guard at AutoMapper.cs:94 lets the call through comes from the
      source; which targets are then accepted (the if-and-only-if, and failing
      only on a duplicate name) rests on the assumed ForeignModule.Add, which
      stores a class under its Wren name and throws on a name already taken. */
  lemma LateAddWhenNotStrict(s: MapperState, vm: WrenVM, moduleName: string, targets: seq<Target>)
    requires WellFormed(s)
    requires !s.treatModificationAfterLoadAsError
    requires vm in s.generatedModules && moduleName in s.generatedModules[vm]
    ensures var m := s.generatedModules[vm][moduleName];
      var res := AfterAutoMap(s, vm, moduleName, targets);
      && (res.outcome == Pass <==> FreshNames(m.Classes, targets))
      && (res.outcome.Fail? ==> res.outcome.error.DuplicateClassName?)
      && moduleName in res.state.generatedModules[vm]
      && res.state.generatedModules[vm][moduleName].Used == m.Used
      && (forall c :: c in m.Classes ==>
            c in res.state.generatedModules[vm][moduleName].Classes
            && res.state.generatedModules[vm][moduleName].Classes[c] == m.Classes[c])
  {
    var m := s.generatedModules[vm][moduleName];
    AddClassesSucceedsIff(m.Classes, targets);
    AddClassesKeepsExisting(m.Classes, targets);
  }

  /** Mapping into an unknown named module first registers a fresh, unused
      module under that name, so it is there even when an Add then fails.
      The registration and the untouched main module come from AutoMapper.cs
      lines 97-106; the module's contents and the if-and-only-if for success
      rest on the assumed ForeignModule.Add (stored under the Wren name,
      throwing on a taken name). */
  lemma MapIntoNewModule(s: MapperState, vm: WrenVM, moduleName: string, targets: seq<Target>)
    requires moduleName != InterpretModule
    requires vm !in s.generatedModules || moduleName !in s.generatedModules[vm]
    ensures var s1 := AfterCheckInitialization(s, vm);
      var res := AfterAutoMap(s, vm, moduleName, targets);
      && res.state.generatedModules[vm] == s1.generatedModules[vm][moduleName := ForeignModule(AddClasses(map[], targets).classes, false)]
      && res.state.mainModuleClasses == s.mainModuleClasses
      && res.state.interpreted == s.interpreted
      && (res.outcome == Pass <==> FreshNames(map[], targets))
  {
    AddClassesSucceedsIff(map[], targets);
  }

  /** Whatever is mapped, the interpret module never becomes a generated module. */
  lemma InterpretModuleNeverGenerated(s: MapperState, vm: WrenVM, moduleName: string, targets: seq<Target>)
    requires WellFormed(s)
    ensures forall v :: v in AfterAutoMap(s, vm, moduleName, targets).state.generatedModules ==>
      InterpretModule !in AfterAutoMap(s, vm, moduleName, targets).state.generatedModules[v]
  {
    AutoMapKeepsWellFormed(s, vm, moduleName, targets);
  }

  // ---------------------------------------------------------------------------
  // Registrations only grow; Used never reverts
  // ---------------------------------------------------------------------------

  /** `t` extends `s`: no VM, module or class disappears or changes, a loaded
      module stays loaded, and the interpretation log only grows. */
  ghost predicate Extends(s: MapperState, t: MapperState)
  {
    && (forall v :: v in s.generatedModules ==> v in t.generatedModules)
    && (forall v, n :: v in s.generatedModules && n in s.generatedModules[v] ==>
          && n in t.generatedModules[v]
          && (s.generatedModules[v][n].Used ==> t.generatedModules[v][n].Used)
          && (forall c :: c in s.generatedModules[v][n].Classes ==>
                c in t.generatedModules[v][n].Classes
                && t.generatedModules[v][n].Classes[c] == s.generatedModules[v][n].Classes[c]))
    && (forall v, c :: v in s.mainModuleClasses && c in s.mainModuleClasses[v] ==>
          v in t.mainModuleClasses && c in t.mainModuleClasses[v]
          && t.mainModuleClasses[v][c] == s.mainModuleClasses[v][c])
    && s.interpreted <= t.interpreted
  }

  lemma {:induction false} ExtendsTransitive(s: MapperState, t: MapperState, u: MapperState)
    requires Extends(s, t) && Extends(t, u)
    ensures Extends(s, u)
  {
    forall v, n | v in s.generatedModules && n in s.generatedModules[v]
      ensures n in u.generatedModules[v]
      ensures s.generatedModules[v][n].Used ==> u.generatedModules[v][n].Used
      ensures forall c :: c in s.generatedModules[v][n].Classes ==>
                c in u.generatedModules[v][n].Classes
                && u.generatedModules[v][n].Classes[c] == s.generatedModules[v][n].Classes[c]
    {
      assert v in t.generatedModules && n in t.generatedModules[v];
    }
    forall v, c | v in s.mainModuleClasses && c in s.mainModuleClasses[v]
      ensures v in u.mainModuleClasses && c in u.mainModuleClasses[v]
      ensures u.mainModuleClasses[v][c] == s.mainModuleClasses[v][c]
    {
      assert v in t.mainModuleClasses && c in t.mainModuleClasses[v];
    }
  }

  lemma CheckInitializationExtends(s: MapperState, vm: WrenVM)
    ensures Extends(s, AfterCheckInitialization(s, vm))
  {
  }

  /** Replacing a module by one that keeps its classes and its Used flag (or
      adding a new module) extends the state. */
  lemma WithModuleExtends(s: MapperState, vm: WrenVM, name: string, m: ForeignModule)
    requires vm in s.generatedModules
    requires name in s.generatedModules[vm] ==>
      && (s.generatedModules[vm][name].Used ==> m.Used)
      && (forall c :: c in s.generatedModules[vm][name].Classes ==>
            c in m.Classes && m.Classes[c] == s.generatedModules[vm][name].Classes[c])
    ensures Extends(s, WithModule(s, vm, name, m))
  {
  }

  lemma AutoMapExtends(s: MapperState, vm: WrenVM, moduleName: string, targets: seq<Target>)
    ensures Extends(s, AfterAutoMap(s, vm, moduleName, targets).state)
  {
    var s1 := AfterCheckInitialization(s, vm);
    var t := AfterAutoMap(s, vm, moduleName, targets).state;
    CheckInitializationExtends(s, vm);
    if moduleName == InterpretModule {
      AddClassesKeepsExisting(MainClassesOf(s1, vm), targets);
      assert Extends(s1, t);
    } else if moduleName in s1.generatedModules[vm] {
      var m := s1.generatedModules[vm][moduleName];
      if !(m.Used && s1.treatModificationAfterLoadAsError) {
        AddClassesKeepsExisting(m.Classes, targets);
        WithModuleExtends(s1, vm, moduleName, m.(Classes := AddClasses(m.Classes, targets).classes));
      }
    } else {
      WithModuleExtends(s1, vm, moduleName, ForeignModule(AddClasses(map[], targets).classes, false));
    }
    ExtendsTransitive(s, s1, t);
  }

  lemma LoadModuleExtends(s: MapperState, vm: WrenVM, name: string)
    ensures Extends(s, AfterLoadModule(s, vm, name).state)
  {
  }

  // ---------------------------------------------------------------------------
  // loadAutoMapperModule
  // ---------------------------------------------------------------------------

  /** Loading answers `null` and changes nothing exactly when the VM or the
      module is unknown; otherwise it answers the module's current classes and
      marks it loaded, leaving its classes as they were. */
  lemma LoadModuleResult(s: MapperState, vm: WrenVM, name: string)
    ensures var res := AfterLoadModule(s, vm, name);
      && (res.source.None? <==> vm !in s.generatedModules || name !in s.generatedModules[vm])
      && (res.source.None? ==> res.state == s)
      && (res.source.Some? ==>
            && res.source.value == ModuleSource(s.generatedModules[vm][name].Classes)
            && res.state.generatedModules[vm][name] == s.generatedModules[vm][name].(Used := true))
  {
  }

  /** Loading the same module twice gives the same source and the same state. */
  lemma LoadModuleTwice(s: MapperState, vm: WrenVM, name: string)
    ensures var first := AfterLoadModule(s, vm, name);
      AfterLoadModule(first.state, vm, name) == first
  {
    var first := AfterLoadModule(s, vm, name);
    if first.source.Some? {
      var m := s.generatedModules[vm][name];
      assert first.state.generatedModules[vm][name] == m.(Used := true);
      assert first.state.generatedModules[vm][name := m.(Used := true)] == first.state.generatedModules[vm];
    }
  }

  // ---------------------------------------------------------------------------
  // The binding callbacks
  // ---------------------------------------------------------------------------

  /** For the interpret module only the main-module classes answer a method
      lookup: the generated-module fallback can never hit there. */
  lemma InterpretModuleMethodLookup(s: MapperState, vm: WrenVM, className: string, isStatic: bool, signature: string)
    requires WellFormed(s)
    ensures BindAutoMapperMethod(s, vm, InterpretModule, className, isStatic, signature)
      == (if vm in s.mainModuleClasses && className in s.mainModuleClasses[vm]
            && signature in s.mainModuleClasses[vm][className].Functions
          then Some(s.mainModuleClasses[vm][className].Functions[signature])
          else None)
  {
  }

  /** For any other module only the generated modules answer, and only when the
      whole VM/module/class/signature chain exists. */
  lemma NamedModuleMethodLookup(s: MapperState, vm: WrenVM, moduleName: string, className: string, isStatic: bool, signature: string)
    requires moduleName != InterpretModule
    ensures var r := BindAutoMapperMethod(s, vm, moduleName, className, isStatic, signature);
      && (r.Some? <==> vm in s.generatedModules && moduleName in s.generatedModules[vm]
                       && className in s.generatedModules[vm][moduleName].Classes
                       && signature in s.generatedModules[vm][moduleName].Classes[className].Functions)
      && (r.Some? ==> r.value == s.generatedModules[vm][moduleName].Classes[className].Functions[signature])
  {
  }

  /** bindAutoMapperClass never answers for the interpret module: main-module
      classes are not consulted. */
  lemma MainModuleClassesNotBound(s: MapperState, vm: WrenVM, className: string)
    requires WellFormed(s)
    ensures BindAutoMapperClass(s, vm, InterpretModule, className) == None
  {
  }

  /** The console sample's pattern (IronWren.ConsoleTesting/Program.cs:95-96):
      a class mapped into the interpret module is registered and interpreted,
      yet the lookup as written gives the VM no allocator for it; the corrected
      lookup gives that class's own. */
  lemma MappedMainModuleClassUnbound(vector: ForeignClass)
    ensures var vm := WrenVM(0);
      var res := AfterAutoMap(InitialState, vm, InterpretModule, [Target("WrenVector", Some("Vector"), vector)]);
      && res.outcome == Pass
      && BindAutoMapperClass(res.state, vm, InterpretModule, "Vector") == None
      && BindAutoMapperClassCorrected(res.state, vm, InterpretModule, "Vector") == Some(vector.Bind())
  {
    var vm := WrenVM(0);
    var target := Target("WrenVector", Some("Vector"), vector);
    var s1 := AfterCheckInitialization(InitialState, vm);
    assert s1.generatedModules == map[vm := map[]] && s1.mainModuleClasses == map[];
    assert [target][1..] == [];
    assert AddClasses(map["Vector" := vector], []) == AddResult(map["Vector" := vector], [], None);
    assert AddClasses(map[], [target]) == AddResult(map["Vector" := vector], [vector], None);
    var res := AfterAutoMap(InitialState, vm, InterpretModule, [target]);
    assert res.state.mainModuleClasses == map[vm := map["Vector" := vector]];
    assert res.state.generatedModules == map[vm := map[]];
  }

  /** After a successful AutoMap, every mapped class resolves: its methods by
      their signatures, and (for a named module) the class itself. For the
      interpret module this follows from AutoMapper.cs alone (line 81 stores
      the class under its Wren name); for a named module it rests on the
      assumed ForeignModule.Add storing each class under its Wren name. With
      the corrected class lookup every mapped class also binds. */
  lemma MappedClassesResolve(s: MapperState, vm: WrenVM, moduleName: string, targets: seq<Target>,
                             i: nat, isStatic: bool, signature: string)
    requires WellFormed(s)
    requires AfterAutoMap(s, vm, moduleName, targets).outcome == Pass
    requires i < |targets| && signature in targets[i].foreignClass.Functions
    ensures var t := AfterAutoMap(s, vm, moduleName, targets).state;
      && BindAutoMapperMethod(t, vm, moduleName, targets[i].WrenName(), isStatic, signature)
         == Some(targets[i].foreignClass.Functions[signature])
      && (moduleName != InterpretModule ==>
            BindAutoMapperClass(t, vm, moduleName, targets[i].WrenName()) == Some(targets[i].foreignClass.Bind()))
      && BindAutoMapperClassCorrected(t, vm, moduleName, targets[i].WrenName()) == Some(targets[i].foreignClass.Bind())
  {
    var s1 := AfterCheckInitialization(s, vm);
    var c0 := if moduleName == InterpretModule then MainClassesOf(s1, vm)
              else if moduleName in s1.generatedModules[vm] then s1.generatedModules[vm][moduleName].Classes
              else map[];
    AddClassesPlacesTargets(c0, targets);
  }

  /** `s` and `t` hold the same module table, main-module table and handlers for `vm`. */
  ghost predicate SameEntries(s: MapperState, t: MapperState, vm: WrenVM)
  {
    && (vm in s.generatedModules <==> vm in t.generatedModules)
    && (vm in s.generatedModules ==> s.generatedModules[vm] == t.generatedModules[vm])
    && (vm in s.mainModuleClasses <==> vm in t.mainModuleClasses)
    && (vm in s.mainModuleClasses ==> s.mainModuleClasses[vm] == t.mainModuleClasses[vm])
    && HooksOf(s, vm) == HooksOf(t, vm)
  }

  /** The callbacks' answers for a VM depend only on that VM's own entries. */
  lemma LookupsDependOnOwnEntries(s: MapperState, t: MapperState, vm: WrenVM)
    requires SameEntries(s, t, vm)
    ensures forall m, c :: BindAutoMapperClass(s, vm, m, c) == BindAutoMapperClass(t, vm, m, c)
    ensures forall m, c :: BindAutoMapperClassCorrected(s, vm, m, c) == BindAutoMapperClassCorrected(t, vm, m, c)
    ensures forall m, c, b, sig :: BindAutoMapperMethod(s, vm, m, c, b, sig) == BindAutoMapperMethod(t, vm, m, c, b, sig)
    ensures forall n :: AfterLoadModule(s, vm, n).source == AfterLoadModule(t, vm, n).source
  {
  }

  /** The named-module branch changes one module of its own VM and nothing else. */
  lemma NamedModuleMapChangesOneModule(s: MapperState, vm: WrenVM, moduleName: string, targets: seq<Target>)
    requires vm in s.generatedModules
    ensures var t := AfterMapIntoNamedModule(s, vm, moduleName, targets).state;
      t == s || exists m :: t == WithModule(s, vm, moduleName, m)
  {
    if moduleName in s.generatedModules[vm] {
      var m := s.generatedModules[vm][moduleName];
      if !(m.Used && s.treatModificationAfterLoadAsError) {
        var m' := m.(Classes := AddClasses(m.Classes, targets).classes);
        assert AfterMapIntoNamedModule(s, vm, moduleName, targets).state == WithModule(s, vm, moduleName, m');
      }
    } else {
      var m' := ForeignModule(AddClasses(map[], targets).classes, false);
      assert AfterMapIntoNamedModule(s, vm, moduleName, targets).state == WithModule(s, vm, moduleName, m');
    }
  }

  lemma {:induction false} SameEntriesTransitive(s: MapperState, t: MapperState, u: MapperState, vm: WrenVM)
    requires SameEntries(s, t, vm) && SameEntries(t, u, vm)
    ensures SameEntries(s, u, vm)
  {
  }

  lemma CheckInitializationTouchesOwnVM(s: MapperState, vm: WrenVM, other: WrenVM)
    requires other != vm
    ensures SameEntries(s, AfterCheckInitialization(s, vm), other)
  {
  }

  /** Either branch of AutoMap, after initialisation, leaves other VMs alone. */
  lemma MapIntoTouchesOwnVM(s1: MapperState, vm: WrenVM, moduleName: string, targets: seq<Target>, other: WrenVM)
    requires other != vm && vm in s1.generatedModules
    ensures moduleName == InterpretModule ==> SameEntries(s1, AfterMapIntoInterpretModule(s1, vm, targets).state, other)
    ensures moduleName != InterpretModule ==> SameEntries(s1, AfterMapIntoNamedModule(s1, vm, moduleName, targets).state, other)
  {
    if moduleName != InterpretModule {
      NamedModuleMapChangesOneModule(s1, vm, moduleName, targets);
    }
  }

  /** AutoMap changes the entries of its own VM only. */
  lemma AutoMapTouchesOwnVM(s: MapperState, vm: WrenVM, moduleName: string, targets: seq<Target>, other: WrenVM)
    requires other != vm
    ensures SameEntries(s, AfterAutoMap(s, vm, moduleName, targets).state, other)
  {
    var s1 := AfterCheckInitialization(s, vm);
    CheckInitializationTouchesOwnVM(s, vm, other);
    MapIntoTouchesOwnVM(s1, vm, moduleName, targets, other);
    SameEntriesTransitive(s, s1, AfterAutoMap(s, vm, moduleName, targets).state, other);
  }

  /** Mapping on one VM never changes what the callbacks answer on another. */
  lemma AutoMapIsolatesVMs(s: MapperState, vm: WrenVM, moduleName: string, targets: seq<Target>, other: WrenVM)
    requires other != vm
    ensures var t := AfterAutoMap(s, vm, moduleName, targets).state;
      && HooksOf(t, other) == HooksOf(s, other)
      && (forall m, c :: BindAutoMapperClass(t, other, m, c) == BindAutoMapperClass(s, other, m, c))
      && (forall m, c :: BindAutoMapperClassCorrected(t, other, m, c) == BindAutoMapperClassCorrected(s, other, m, c))
      && (forall m, c, b, sig :: BindAutoMapperMethod(t, other, m, c, b, sig) == BindAutoMapperMethod(s, other, m, c, b, sig))
      && (forall n :: AfterLoadModule(t, other, n).source == AfterLoadModule(s, other, n).source)
  {
    var t := AfterAutoMap(s, vm, moduleName, targets).state;
    AutoMapTouchesOwnVM(s, vm, moduleName, targets, other);
    LookupsDependOnOwnEntries(s, t, other);
  }

  /** Loading a module on one VM never changes what the callbacks answer on another. */
  lemma LoadModuleIsolatesVMs(s: MapperState, vm: WrenVM, name: string, other: WrenVM)
    requires other != vm
    ensures var t := AfterLoadModule(s, vm, name).state;
      && (forall m, c :: BindAutoMapperClass(t, other, m, c) == BindAutoMapperClass(s, other, m, c))
      && (forall m, c :: BindAutoMapperClassCorrected(t, other, m, c) == BindAutoMapperClassCorrected(s, other, m, c))
      && (forall m, c, b, sig :: BindAutoMapperMethod(t, other, m, c, b, sig) == BindAutoMapperMethod(s, other, m, c, b, sig))
      && (forall n :: AfterLoadModule(t, other, n).source == AfterLoadModule(s, other, n).source)
  {
    LookupsDependOnOwnEntries(s, AfterLoadModule(s, vm, name).state, other);
  }
}
