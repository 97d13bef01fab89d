/** src/nomaanos/modules/runner.py: the plugin runner that tries several import paths,
    lists the plugin files of a development checkout, and calls a plugin's `main` or
    `run`. Failures raise. */
module ModulesRunner {
  import opened Py
  import opened Text
  import opened Seqs
  import Sorting

  /** The import paths tried for plugin `name`, in order, as the runner writes them:
      the last one is relative. */
  function Candidates(name: string): seq<string> {
    ["nomaanos.modules." + name, "src.nomaanos.modules." + name, "." + name]
  }

  /** The import table as the runner sees it: each candidate imported the way the runner
      imports it, the relative one resolved against the runner's own module name `here`
      (it passes `__name__` as the package). */
  function View(imports: Imports, here: string, name: string): Imports {
    Resolved(imports, here, Candidates(name))
  }

  function ImportFailure(name: string, last: Exc): Exc {
    Exc(ImportError, "Failed to import module " + name + "; last error: " + last.msg)
  }

  /** What `_try_import_module_candidates` returns or raises. */
  function ImportSpec(imports: Imports, here: string, name: string): Result<Module> {
    var cands := Candidates(name);
    match FirstLoaded(View(imports, here, name), cands)
    case Some(m) => Ok(m)
    case None => Raised(ImportFailure(name, ImportModule(imports, cands[2], here).exc))
  }

  /** One attempt of the loop below: a candidate with a leading period is imported
      relative to `here`, any other as it is. */
  method ImportCandidate(imports: Imports, here: string, cand: string) returns (res: Result<Module>)
    ensures res == ImportModule(imports, cand, here)
  {
    StartsWithChar(cand, '.');
    if StartsWith(cand, ".") {
      res := ImportModule(imports, cand, here);
    } else {
      res := Import(imports, cand);
    }
  }

  /** `_try_import_module_candidates`: the first candidate that imports wins; when all
      three fail, `ImportError` carries the last candidate's error. */
  method ImportCandidates(imports: Imports, here: string, name: string)
    returns (r: Result<Module>, tried: seq<string>)
    ensures r == ImportSpec(imports, here, name)
    ensures tried == Attempted(View(imports, here, name), Candidates(name))
  {
    var cands := Candidates(name);
    ghost var view := View(imports, here, name);
    var lastErr: Option<Exc> := None;
    var i := 0;
    tried := [];
    while i < |cands|
      invariant 0 <= i <= |cands|
      invariant tried == cands[..i]
      invariant forall j :: 0 <= j < i ==> !Importable(view, cands[j])
      invariant i == 0 <==> lastErr.None?
      invariant i > 0 ==> lastErr.value == Import(view, cands[i - 1]).exc
    {
      assert cands[..i + 1] == cands[..i] + [cands[i]];
      tried := tried + [cands[i]];
      var res := ImportCandidate(imports, here, cands[i]);
      ResolvedImport(imports, here, cands, cands[i]);
      if res.Ok? {
        FirstImportableIs(view, cands, i);
        r := res;
        return;
      }
      lastErr := Some(res.exc);
      i := i + 1;
    }
    assert tried == cands;
    FirstImportableIs(view, cands, i);
    ResolvedImport(imports, here, cands, cands[2]);
    r := Raised(ImportFailure(name, lastErr.value));
  }

  /** For an ordinary plugin name the relative candidate is the plugin module inside the
      runner's package path: `.<name>` against `here` is `<here>.<name>`. */
  lemma RelativeCandidateIsChild(imports: Imports, here: string, name: string)
    requires here != "" && name != "" && name[0] != '.'
    ensures Import(View(imports, here, name), Candidates(name)[2]) == Import(imports, here + "." + name)
  {
    ResolvedImport(imports, here, Candidates(name), Candidates(name)[2]);
    ImportModuleChild(imports, here, name);
  }

  /** The empty name makes the relative candidate "." and that is the runner itself;
      a name with a leading period climbs: "..hello" next to the development runner is
      its sibling module. */
  lemma RelativeCandidateEdgeCases(imports: Imports)
    ensures Import(View(imports, "src.nomaanos.modules.runner", ""), ".")
            == Import(imports, "src.nomaanos.modules.runner")
    ensures Import(View(imports, "src.nomaanos.modules.runner", ".hello"), "..hello")
            == Import(imports, "src.nomaanos.modules.hello")
  {
    assert Candidates("")[2] == ".";
    ResolvedImport(imports, "src.nomaanos.modules.runner", Candidates(""), ".");
    ResolveLoneDot("src.nomaanos.modules.runner");
    assert Candidates(".hello")[2] == "..hello";
    ResolvedImport(imports, "src.nomaanos.modules.runner", Candidates(".hello"), "..hello");
    ResolveClimbs();
  }

  /** Without a package name (an empty `here`) the relative candidate cannot be tried:
      it raises `TypeError`, which the loop records as the last error. */
  lemma RelativeCandidateNeedsPackage(imports: Imports, name: string)
    ensures Import(View(imports, "", name), Candidates(name)[2]).Raised?
    ensures Import(View(imports, "", name), Candidates(name)[2]).exc.kind == TypeError
  {
    ResolvedImport(imports, "", Candidates(name), Candidates(name)[2]);
  }

  const NoEntrypointMsg := "' has no callable main() or run()."

  /** Calls entrypoint `attr` as `fn()`; only a `TypeError` leads to a second call
      `fn(name)`, and whatever that second call does is the result. */
  function Invoke(attr: string, fn: Obj, name: string, tried: seq<string>): Report {
    var first := Call(fn, []);
    if first.Raised? && first.exc.kind == TypeError then
      Report(Call(fn, [StrV(name)]), tried, [Invocation(attr, []), Invocation(attr, [StrV(name)])])
    else
      Report(first, tried, [Invocation(attr, [])])
  }

  /** What `run(name)` returns or raises. */
  function RunSpec(imports: Imports, here: string, name: string): Report {
    var tried := Attempted(View(imports, here, name), Candidates(name));
    match ImportSpec(imports, here, name)
    case Raised(e) => Report(Raised(e), tried, [])
    case Ok(m) => Dispatch(m, name, tried)
  }

  /** What `run(name)` does with the imported plugin `m`: `main`, else `run`. */
  function Dispatch(m: Module, name: string, tried: seq<string>): Report {
    if "main" in m.attrs then Invoke("main", m.attrs["main"], name, tried)
    else if "run" in m.attrs then Invoke("run", m.attrs["run"], name, tried)
    else Report(Raised(Exc(AttributeError, "Module '" + name + NoEntrypointMsg)), tried, [])
  }

  /** `run(name)`: import the plugin, then try `main` and `run` in that order. */
  method Run(imports: Imports, here: string, name: string) returns (rep: Report)
    ensures rep == RunSpec(imports, here, name)
  {
    var mod, tried := ImportCandidates(imports, here, name);
    if mod.Raised? {
      return Report(Raised(mod.exc), tried, []);
    }
    rep := CallEntrypoint(mod.value, name, tried);
  }

  /** The entrypoint loop of `run(name)` over the imported plugin `m`. */
  method CallEntrypoint(m: Module, name: string, tried: seq<string>) returns (rep: Report)
    ensures rep == Dispatch(m, name, tried)
  {
    var entrypoints := ["main", "run"];
    var i := 0;
    while i < |entrypoints|
      invariant 0 <= i <= |entrypoints|
      invariant i >= 1 ==> "main" !in m.attrs
      invariant i >= 2 ==> "run" !in m.attrs
    {
      var attr := entrypoints[i];
      if attr in m.attrs {
        var fn := m.attrs[attr];
        var first := Call(fn, []);
        if first.Raised? && first.exc.kind == TypeError {
          var second := Call(fn, [StrV(name)]);
          return Report(second, tried, [Invocation(attr, []), Invocation(attr, [StrV(name)])]);
        }
        return Report(first, tried, [Invocation(attr, [])]);
      }
      i := i + 1;
    }
    return Report(Raised(Exc(AttributeError, "Module '" + name + NoEntrypointMsg)), tried, []);
  }


  /** No candidate for `name` imports, the relative one resolved against `here`. */
  predicate NoCandidateImports(imports: Imports, here: string, name: string) {
    && Import(imports, "nomaanos.modules." + name).Raised?
    && Import(imports, "src.nomaanos.modules." + name).Raised?
    && ImportModule(imports, "." + name, here).Raised?
  }

  /** A name no candidate can import raises `ImportError` after all three candidates
      were attempted, carrying the relative candidate's error, and no plugin code runs. */
  lemma UnknownNameRaises(imports: Imports, here: string, name: string)
    requires NoCandidateImports(imports, here, name)
    ensures var rep := RunSpec(imports, here, name);
      && rep.result == Raised(ImportFailure(name, ImportModule(imports, "." + name, here).exc))
      && rep.tried == Candidates(name) && rep.calls == []
  {
    var cands := Candidates(name);
    var view := View(imports, here, name);
    ResolvedImport(imports, here, cands, cands[0]);
    ResolvedImport(imports, here, cands, cands[1]);
    ResolvedImport(imports, here, cands, cands[2]);
    FirstImportableIs(view, cands, |cands|);
  }

  /** Once `main` exists, `run` is never consulted: every call goes to `main`, and there
      are at most two. */
  lemma MainShadowsRun(imports: Imports, here: string, name: string)
    requires ImportSpec(imports, here, name).Ok?
    requires "main" in ImportSpec(imports, here, name).value.attrs
    ensures var rep := RunSpec(imports, here, name);
      && 1 <= |rep.calls| <= 2
      && forall c :: c in rep.calls ==> c.target == "main"
  {
  }

  /** The entrypoint is first called with no arguments; there is a second call, with
      `name`, exactly when the first raised `TypeError`; any other exception of the first
      call is the result as it is. */
  lemma RetryOnlyAfterTypeError(imports: Imports, here: string, name: string)
    requires ImportSpec(imports, here, name).Ok?
    ensures var rep := RunSpec(imports, here, name);
      var m := ImportSpec(imports, here, name).value;
      (("main" in m.attrs || "run" in m.attrs) ==>
        var fn := if "main" in m.attrs then m.attrs["main"] else m.attrs["run"];
        && rep.calls[0].args == []
        && (|rep.calls| == 2 <==> Call(fn, []).Raised? && Call(fn, []).exc.kind == TypeError)
        && (|rep.calls| == 2 ==> rep.calls[1].args == [StrV(name)] && rep.result == Call(fn, [StrV(name)]))
        && (|rep.calls| == 1 ==> rep.result == Call(fn, [])))
      && (!("main" in m.attrs || "run" in m.attrs) ==>
        rep.calls == [] && rep.result == Raised(Exc(AttributeError, "Module '" + name + NoEntrypointMsg)))
  {
  }

  // ---- list_modules ----

  predicate Eligible(f: string) {
    EndsWith(f, ".py") && f != "__init__.py" && f != "runner.py"
  }

  /** The module name of a file: every ".py" deleted, as `str.replace` does. */
  function StripPy(f: string): string {
    RemoveAll(f, ".py")
  }

  /** What `list_modules` returns for a listable directory: eligible files in the
      sorted order of their file names, each with every ".py" deleted. */
  function Listed(names: seq<string>): seq<string> {
    Map(StripPy, Filter(Eligible, Sorting.Sort(names)))
  }

  /** `list_modules()`: a missing or unlistable directory gives `[]`. */
  method ListModules(dir: Listing) returns (files: seq<string>)
    ensures files == if dir.Entries? then Listed(dir.names) else []
  {
    files := [];
    if dir.Entries? {
      var sorted := Sorting.Sort(dir.names);
      var i := 0;
      while i < |sorted|
        invariant 0 <= i <= |sorted|
        invariant files == Map(StripPy, Filter(Eligible, sorted[..i]))
      {
        var f := sorted[i];
        if EndsWith(f, ".py") && f != "__init__.py" && f != "runner.py" {
          files := files + [RemoveAll(f, ".py")];
        }
        MapFilterSnoc(StripPy, Eligible, sorted, i);
        i := i + 1;
      }
      assert sorted[..i] == sorted;
      return files;
    }
    return [];
  }

  /** A name is listed exactly when some eligible file strips to it; `__init__.py` and
      `runner.py` never contribute. */
  lemma {:induction false} ListedMembers(names: seq<string>, x: string)
    ensures x in Listed(names) <==>
              exists f :: f in names && EndsWith(f, ".py") && f != "__init__.py" && f != "runner.py"
                          && RemoveAll(f, ".py") == x
  {
    var sorted := Sorting.Sort(names);
    FilterMembers(Eligible, sorted);
    MapMembers(StripPy, Filter(Eligible, sorted));
    assert forall f :: f in sorted <==> f in names by {
      forall f ensures f in sorted <==> f in names {
        assert f in sorted <==> f in multiset(sorted);
        assert f in names <==> f in multiset(names);
      }
    }
  }

  /** Sorting happens before stripping, so the names can come out of order:
      "a-b.py" sorts before "a.py" but "a" sorts before "a-b". */
  lemma ListedCanBeUnsorted()
    ensures Listed(["a.py", "a-b.py"]) == ["a-b", "a"]
    ensures !Sorting.Sorted(Listed(["a.py", "a-b.py"]))
  {
    Sorting.SortExample();
    ExampleFilter();
    ExampleStrip();
    assert !Sorting.Le("a-b", "a") by {
      assert "a-b"[1..] == "-b" && "a"[1..] == "";
    }
  }

  lemma ExampleFilter()
    ensures Filter(Eligible, ["a-b.py", "a.py"]) == ["a-b.py", "a.py"]
  {
    var sorted := ["a-b.py", "a.py"];
    assert sorted[1..][1..] == [];
    assert Filter(Eligible, sorted[1..]) == sorted[1..];
  }

  lemma ExampleStrip()
    ensures Map(StripPy, ["a-b.py", "a.py"]) == ["a-b", "a"]
  {
    NoPyInShortNames();
    RemovePySuffix("a-b");
    RemovePySuffix("a");
    assert "a-b" + ".py" == "a-b.py" && "a" + ".py" == "a.py";
  }

  lemma NoPyInShortNames()
    ensures !Occurs("a-b", ".py") && !Occurs("a", ".py")
  {
    forall i | 0 <= i <= 3 ensures !OccursAt("a-b", ".py", i) {
      if i == 0 { assert "a-b"[0..3][0] == 'a'; }
    }
  }
}
