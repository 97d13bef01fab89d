/** src/nomaanos/modules/__init__.py: the `nomaanos.modules` package. It lists plugin
    files (stripping the suffix before sorting) and runs a plugin by delegating to the
    runner when the runner imports, or by importing the plugin itself when it does not.
    Every failure becomes a message string: `run` never raises. */
module ModulesPackage {
  import opened Py
  import opened Text
  import opened Seqs
  import Sorting
  import ModulesRunner

  /** The module name of a file: its last three characters dropped (`f[:-3]`). */
  function DropPy(f: string): string {
    DropLast(f, 3)
  }

  /** `_module_files()`: the eligible files of the package directory (the same test as
      the runner's: a ".py" file other than `__init__.py` and `runner.py`), in listing
      order, with the suffix dropped. A listing that raises yields nothing. */
  function ModuleFiles(dir: Listing): (r: seq<string>)
    ensures !dir.Entries? ==> r == []
    ensures dir.Entries? ==> |r| <= |dir.names|
  {
    if dir.Entries? then Map(DropPy, Filter(ModulesRunner.Eligible, dir.names)) else []
  }

  /** A name is yielded exactly when an eligible file is that name plus ".py". */
  lemma ModuleFilesMembers(names: seq<string>, x: string)
    ensures x in ModuleFiles(Entries(names)) <==> x + ".py" in names && ModulesRunner.Eligible(x + ".py")
  {
    var eligible := Filter(ModulesRunner.Eligible, names);
    FilterMembers(ModulesRunner.Eligible, names);
    MapMembers(DropPy, eligible);
    if x + ".py" in names && ModulesRunner.Eligible(x + ".py") {
      DropPyOf(x);
      assert x + ".py" in eligible;
    }
    if x in ModuleFiles(Entries(names)) {
      var f :| f in eligible && DropPy(f) == x;
      DropPyRestores(f);
    }
  }

  /** `list_modules()`: the module names, sorted. */
  function ListModules(dir: Listing): (r: seq<string>)
    ensures Sorting.Sorted(r)
    ensures multiset(r) == multiset(ModuleFiles(dir))
    ensures !dir.Entries? ==> r == []
  {
    Sorting.Sort(ModuleFiles(dir))
  }

  lemma DropPyOf(x: string)
    ensures DropPy(x + ".py") == x
  {
    assert (x + ".py")[..|x|] == x;
  }

  lemma DropPyRestores(f: string)
    requires EndsWith(f, ".py")
    ensures DropPy(f) + ".py" == f
  {
    assert f == f[..|f| - 3] + f[|f| - 3..];
  }

  /** A name is listed exactly when an eligible file is that name plus ".py". */
  lemma ListModulesMembers(names: seq<string>, x: string)
    ensures x in ListModules(Entries(names)) <==> x + ".py" in names && ModulesRunner.Eligible(x + ".py")
  {
    Sorting.SortMembers(ModuleFiles(Entries(names)));
    ModuleFilesMembers(names, x);
  }

  /** Where no file has ".py" before its suffix, this package and the runner list the
      same names, as multisets: only the order can differ. */
  lemma SameNamesAsRunner(names: seq<string>)
    requires forall f :: f in names && ModulesRunner.Eligible(f) ==> !Occurs(DropPy(f), ".py")
    ensures multiset(ListModules(Entries(names))) == multiset(ModulesRunner.Listed(names))
  {
    var sorted := Sorting.Sort(names);
    MapFilterPermutation(ModulesRunner.StripPy, ModulesRunner.Eligible, sorted, names);
    var eligible := Filter(ModulesRunner.Eligible, names);
    FilterMembers(ModulesRunner.Eligible, names);
    forall i | 0 <= i < |eligible| ensures ModulesRunner.StripPy(eligible[i]) == DropPy(eligible[i]) {
      var f := eligible[i];
      assert f in eligible;
      assert f == DropPy(f) + ".py";
      RemovePySuffix(DropPy(f));
    }
    assert Map(ModulesRunner.StripPy, eligible) == Map(DropPy, eligible);
  }

  /** The order does differ: stripping first puts "a" before "a-b". */
  lemma OrderDiffersFromRunner()
    ensures ListModules(Entries(["a.py", "a-b.py"])) == ["a", "a-b"]
    ensures ModulesRunner.Listed(["a.py", "a-b.py"]) == ["a-b", "a"]
  {
    ModulesRunner.ListedCanBeUnsorted();
    ExampleFiles();
    assert Sorting.Le("a", "a-b") by {
      assert "a"[1..] == "" && "a-b"[1..] == "-b";
    }
    assert Sorting.Sort(["a", "a-b"]) == ["a", "a-b"] by {
      assert ["a", "a-b"][1..] == ["a-b"];
      assert ["a-b"][1..] == [];
    }
  }

  lemma ExampleFiles()
    ensures ModuleFiles(Entries(["a.py", "a-b.py"])) == ["a", "a-b"]
  {
    var names := ["a.py", "a-b.py"];
    assert names[1..][1..] == [];
    assert Filter(ModulesRunner.Eligible, names[1..]) == names[1..];
    assert Filter(ModulesRunner.Eligible, names) == names;
    assert "a.py"[..1] == "a" && "a-b.py"[..3] == "a-b";
  }

  // ---- run ----

  /** The paths `_import_runner` tries, as it writes them: the installed runner, then
      `.runner` relative to this package. */
  const RunnerCandidates := ["nomaanos.modules.runner", ".runner"]

  /** The import table as `_import_runner` sees it: `.runner` resolved against this
      package's name `pkg` (its `__package__`). */
  function RunnerView(imports: Imports, pkg: string): Imports {
    Resolved(imports, pkg, RunnerCandidates)
  }

  /** Which runner candidate imports first; 2 when neither does. */
  function RunnerIndex(imports: Imports, pkg: string): nat {
    FirstImportable(RunnerView(imports, pkg), RunnerCandidates)
  }

  /** The relative runner is `<pkg>.runner`, and it can only be found when the package
      has a name: with an empty `__package__` the relative import raises `TypeError`. */
  lemma RelativeRunner(imports: Imports, pkg: string)
    ensures RunnerIndex(imports, pkg) == 1 ==>
              && pkg != ""
              && ResolvedName(RunnerCandidates[1], pkg) == pkg + ".runner"
              && Importable(imports, pkg + ".runner")
              && !Importable(imports, "nomaanos.modules.runner")
    ensures pkg == "" ==> RunnerIndex(imports, pkg) != 1
  {
    ResolvedImport(imports, pkg, RunnerCandidates, RunnerCandidates[0]);
    ResolvedImport(imports, pkg, RunnerCandidates, RunnerCandidates[1]);
    if pkg != "" {
      assert ".runner" == "." + "runner" && pkg + ".runner" == pkg + "." + "runner";
      ImportModuleChild(imports, pkg, "runner");
    } else {
      assert ImportModule(imports, ".runner", pkg).Raised?;
    }
  }

  /** `run(name)`. With a runner, the runner's outcome is returned and its exceptions
      become "runner.run failed: ..."; without one, the plugin is imported directly. */
  function Run(imports: Imports, pkg: string, name: string): (r: Report)
    ensures r.result.Ok?
  {
    if RunnerIndex(imports, pkg) < |RunnerCandidates| then Delegate(imports, pkg, name)
    else Fallback(imports, name, RunnerCandidates)
  }

  /** The delegating path of `run`, taken when a runner imports. */
  function Delegate(imports: Imports, pkg: string, name: string): (r: Report)
    requires RunnerIndex(imports, pkg) < |RunnerCandidates|
    ensures r.result.Ok?
  {
    var rc := RunnerCandidates;
    var k := RunnerIndex(imports, pkg);
    var delegated := ModulesRunner.RunSpec(imports, ResolvedName(rc[k], pkg), name);
    var result := if delegated.result.Raised?
                  then Ok(StrV("runner.run failed: " + delegated.result.exc.msg))
                  else delegated.result;
    Report(result, Attempted(RunnerView(imports, pkg), rc) + delegated.tried, delegated.calls)
  }

  /** The direct path of `run`, taken when no runner imports. */
  function Fallback(imports: Imports, name: string, runnerTried: seq<string>): (r: Report)
    ensures r.result.Ok?
  {
    var modname := "nomaanos.modules." + name;
    var tried := runnerTried + [modname];
    match Import(imports, modname)
    case Raised(e) => Report(Ok(StrV("Failed to import " + modname + ": " + e.msg)), tried, [])
    case Ok(m) =>
      if "main" in m.attrs then
        var first := Call(m.attrs["main"], []);
        if first.Ok? then Report(first, tried, [Invocation("main", [])])
        else if first.exc.kind == TypeError then
          var second := Call(m.attrs["main"], [StrV(name)]);
          var result := if second.Ok? then second
                        else Ok(StrV("module " + name + " main() failed: " + second.exc.msg));
          Report(result, tried, [Invocation("main", []), Invocation("main", [StrV(name)])])
        else
          Report(Ok(StrV("module " + name + " main() error: " + first.exc.msg)), tried, [Invocation("main", [])])
      else if "run" in m.attrs then
        var out := Call(m.attrs["run"], [StrV(name)]);
        var result := if out.Ok? then out else Ok(StrV("module " + name + " run() error: " + out.exc.msg));
        Report(result, tried, [Invocation("run", [StrV(name)])])
      else
        Report(Ok(StrV("Module " + name + " has no callable main() or run()")), tried, [])
  }

  /** Without a runner, `run` is the direct path after both runner paths were attempted. */
  lemma WithoutRunner(imports: Imports, pkg: string, name: string)
    requires RunnerIndex(imports, pkg) == 2
    ensures Run(imports, pkg, name) == Fallback(imports, name, RunnerCandidates)
  {
  }

  /** With a runner available the plugin's value passes through unchanged, and only the
      runner's exceptions are turned into strings. */
  lemma DelegationKeepsValues(imports: Imports, pkg: string, name: string)
    requires RunnerIndex(imports, pkg) < 2
    ensures var here := ResolvedName(RunnerCandidates[RunnerIndex(imports, pkg)], pkg);
      var inner := ModulesRunner.RunSpec(imports, here, name);
      && (inner.result.Ok? ==> Run(imports, pkg, name).result == inner.result)
      && (inner.result.Raised? ==> Run(imports, pkg, name).result == Ok(StrV("runner.run failed: " + inner.result.exc.msg)))
      && Run(imports, pkg, name).calls == inner.calls
  {
  }

  /** An unknown name with a runner present is reported through the runner's
      `ImportError` ("Failed to import module <name>; last error: ..."), so the
      package's own "Failed to import nomaanos.modules.<name>" message is not used. */
  lemma UnknownNameThroughRunner(imports: Imports, pkg: string, name: string)
    requires RunnerIndex(imports, pkg) < 2
    requires var here := ResolvedName(RunnerCandidates[RunnerIndex(imports, pkg)], pkg);
      ModulesRunner.NoCandidateImports(imports, here, name)
    ensures var here := ResolvedName(RunnerCandidates[RunnerIndex(imports, pkg)], pkg);
      var last := ImportModule(imports, "." + name, here).exc;
      && Run(imports, pkg, name).result == Ok(StrV("runner.run failed: " + ModulesRunner.ImportFailure(name, last).msg))
      && Run(imports, pkg, name).calls == []
  {
    var here := ResolvedName(RunnerCandidates[RunnerIndex(imports, pkg)], pkg);
    ModulesRunner.UnknownNameRaises(imports, here, name);
    DelegationKeepsValues(imports, pkg, name);
  }

  /** Without a runner: `main` is preferred and retried with `name` only after a
      `TypeError`; `run` is called with `name`, never with no arguments; a module with
      neither gets the fixed message. */
  lemma FallbackEntrypoints(imports: Imports, pkg: string, name: string)
    requires RunnerIndex(imports, pkg) == 2
    requires Importable(imports, "nomaanos.modules." + name)
    ensures var m := imports["nomaanos.modules." + name].m;
      var calls := Run(imports, pkg, name).calls;
      && ("main" in m.attrs ==> 1 <= |calls| <= 2 && forall c :: c in calls ==> c.target == "main")
      && ("main" in m.attrs ==> (|calls| == 2 <==> Call(m.attrs["main"], []).Raised?
                                                   && Call(m.attrs["main"], []).exc.kind == TypeError))
      && ("main" !in m.attrs && "run" in m.attrs ==> calls == [Invocation("run", [StrV(name)])])
      && ("main" !in m.attrs && "run" !in m.attrs ==>
            calls == [] && Run(imports, pkg, name).result == Ok(StrV("Module " + name + " has no callable main() or run()")))
  {
    WithoutRunner(imports, pkg, name);
    var m := imports["nomaanos.modules." + name].m;
    assert Import(imports, "nomaanos.modules." + name) == Ok(m);
    if "main" in m.attrs {
      var calls := Run(imports, pkg, name).calls;
      assert calls == [Invocation("main", [])] || calls == [Invocation("main", []), Invocation("main", [StrV(name)])];
    }
  }

  /** Without a runner, failures of the direct path become their fixed messages: an
      import failure names the full module path, an exception other than `TypeError`
      from `main()` is a "main() error", one from the retry `main(name)` is a "main()
      failed" and one from `run(name)` a "run() error"; a returned value passes through
      unchanged. */
  lemma FallbackMessages(imports: Imports, pkg: string, name: string)
    requires RunnerIndex(imports, pkg) == 2
    ensures var modname := "nomaanos.modules." + name;
      var r := Run(imports, pkg, name);
      && r.tried == RunnerCandidates + [modname]
      && (!Importable(imports, modname) ==>
            r.result == Ok(StrV("Failed to import " + modname + ": " + Import(imports, modname).exc.msg)) && r.calls == [])
      && (Importable(imports, modname) && "main" in imports[modname].m.attrs ==>
            var first := Call(imports[modname].m.attrs["main"], []);
            var second := Call(imports[modname].m.attrs["main"], [StrV(name)]);
            && (first.Ok? ==> r.result == first)
            && (first.Raised? && first.exc.kind != TypeError ==>
                  r.result == Ok(StrV("module " + name + " main() error: " + first.exc.msg)))
            && (first.Raised? && first.exc.kind == TypeError && second.Ok? ==> r.result == second)
            && (first.Raised? && first.exc.kind == TypeError && second.Raised? ==>
                  r.result == Ok(StrV("module " + name + " main() failed: " + second.exc.msg))))
      && (Importable(imports, modname) && "main" !in imports[modname].m.attrs
            && "run" in imports[modname].m.attrs ==>
            var out := Call(imports[modname].m.attrs["run"], [StrV(name)]);
            && (out.Ok? ==> r.result == out)
            && (out.Raised? ==> r.result == Ok(StrV("module " + name + " run() error: " + out.exc.msg))))
  {
    WithoutRunner(imports, pkg, name);
  }
}
