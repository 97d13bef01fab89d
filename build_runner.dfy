/** build/lib/nomaanos/runner.py: the runner copy in the build tree. It lists module
    files in directory order and runs a module only after finding its name in that
    list. Nothing is caught. */
module BuildRunner {
  import opened Py
  import opened Text
  import opened Seqs
  import ModulesRunner

  /** Only `__init__.py` is excluded here, so `runner.py` counts as a module. */
  predicate Eligible(f: string) {
    EndsWith(f, ".py") && f != "__init__.py"
  }

  /** `list_modules()`: a missing directory gives `[]`; a directory that exists but
      cannot be listed raises; otherwise the comprehension keeps the listing order and
      deletes every ".py". */
  function ListModules(dir: Listing): (r: Result<seq<string>>)
    ensures dir.Missing? ==> r == Ok([])
    ensures dir.Unlistable? ==> r == Raised(dir.e)
    ensures dir.Entries? ==> r.Ok? && |r.value| <= |dir.names|
    ensures dir.Entries? ==>
              forall x :: x in r.value <==> exists f :: f in dir.names && Eligible(f) && RemoveAll(f, ".py") == x
  {
    match dir
    case Missing => Ok([])
    case Unlistable(e) => Raised(e)
    case Entries(names) =>
      FilterMembers(Eligible, names);
      MapMembers(ModulesRunner.StripPy, Filter(Eligible, names));
      Ok(Map(ModulesRunner.StripPy, Filter(Eligible, names)))
  }

  /** `run_module(name)`. */
  function RunModule(dir: Listing, imports: Imports, name: string): (r: Report)
    ensures ListModules(dir).Raised? ==> r == Report(Raised(ListModules(dir).exc), [], [])
    ensures r.tried == [] || r.tried == ["src.nomaanos.modules." + name]
    ensures r.tried != [] && !Importable(imports, "src.nomaanos.modules." + name) ==>
              r.result == Raised(Import(imports, "src.nomaanos.modules." + name).exc) && r.calls == []
    ensures r.calls == [] || r.calls == [Invocation("main", [])]
    ensures r.calls != [] ==>
              && Importable(imports, "src.nomaanos.modules." + name)
              && "main" in imports["src.nomaanos.modules." + name].m.attrs
              && r.result == Call(imports["src.nomaanos.modules." + name].m.attrs["main"], [])
  {
    match ListModules(dir)
    case Raised(e) => Report(Raised(e), [], [])
    case Ok(names) =>
      if name !in names then Report(Ok(StrV("Module '" + name + "' not found.")), [], [])
      else
        var path := "src.nomaanos.modules." + name;
        match Import(imports, path)
        case Raised(e) => Report(Raised(e), [path], [])
        case Ok(m) =>
          if "main" !in m.attrs then Report(Ok(StrV("Module '" + name + "' has no main() function.")), [path], [])
          else Report(Call(m.attrs["main"], []), [path], [Invocation("main", [])])
  }

  /** With the usual file names (a ".py" suffix and no other ".py"), the names come
      out one per file, in directory order, suffix dropped. */
  lemma {:induction false} KeepsListingOrder(names: seq<string>)
    requires forall i :: 0 <= i < |names| ==> EndsWith(names[i], ".py") && names[i] != "__init__.py"
    requires forall i :: 0 <= i < |names| ==> !Occurs(DropLast(names[i], 3), ".py")
    ensures ListModules(Entries(names)).Ok?
    ensures var r := ListModules(Entries(names)).value;
      |r| == |names| && forall i :: 0 <= i < |names| ==> r[i] == DropLast(names[i], 3)
  {
    FilterKeepsAll(names);
    forall i | 0 <= i < |names| ensures ModulesRunner.StripPy(names[i]) == DropLast(names[i], 3) {
      var f := names[i];
      assert f == f[..|f| - 3] + f[|f| - 3..];
      RemovePySuffix(DropLast(f, 3));
    }
  }

  lemma {:induction false} FilterKeepsAll(names: seq<string>)
    requires forall i :: 0 <= i < |names| ==> Eligible(names[i])
    ensures Filter(Eligible, names) == names
  {
    if names != [] {
      FilterKeepsAll(names[1..]);
    }
  }

  /** The comprehension works file by file: the listing of two runs of directory
      entries is the listing of the first followed by that of the second, so the names
      keep the directory order whatever other entries lie between them. */
  lemma ListModulesAppend(a: seq<string>, b: seq<string>)
    ensures ListModules(Entries(a + b)).value == ListModules(Entries(a)).value + ListModules(Entries(b)).value
  {
    FilterAppend(Eligible, a, b);
    MapAppend(ModulesRunner.StripPy, Filter(Eligible, a), Filter(Eligible, b));
  }

  /** One entry contributes its name with every ".py" deleted when it is eligible, and
      nothing otherwise. */
  lemma ListModulesSingle(f: string)
    ensures ListModules(Entries([f])).value == if Eligible(f) then [RemoveAll(f, ".py")] else []
  {
    assert [f][1..] == [];
  }

  /** `runner.py` itself is listed, and the directory order is kept. */
  lemma RunnerListed()
    ensures ListModules(Entries(["runner.py", "hello.py"])) == Ok(["runner", "hello"])
  {
    var names := ["runner.py", "hello.py"];
    assert DropLast(names[0], 3) == "runner" && DropLast(names[1], 3) == "hello";
    assert names[0] == "runner" + ".py" && names[1] == "hello" + ".py";
    NoDotNoPy("runner");
    NoDotNoPy("hello");
    KeepsListingOrder(names);
    var r := ListModules(Entries(names)).value;
    assert |r| == 2 && r[0] == "runner" && r[1] == "hello";
    assert r == ["runner", "hello"];
  }

  /** No import is attempted unless some eligible file strips to `name`; a name that
      is not listed gets the fixed message. */
  lemma {:induction false} ListIsTheGate(dir: Listing, imports: Imports, name: string)
    ensures var r := RunModule(dir, imports, name);
      r.tried != [] ==> dir.Entries? && exists f :: f in dir.names && Eligible(f) && RemoveAll(f, ".py") == name
    ensures dir.Entries? && (forall f :: f in dir.names && Eligible(f) ==> RemoveAll(f, ".py") != name) ==>
      RunModule(dir, imports, name) == Report(Ok(StrV("Module '" + name + "' not found.")), [], [])
  {
    if dir.Entries? {
      FilterMembers(Eligible, dir.names);
      MapMembers(ModulesRunner.StripPy, Filter(Eligible, dir.names));
    }
  }

  /** A module without `main` gets the fixed message; otherwise `main()` is called
      with no arguments and its outcome, exception included, is the result. */
  lemma MainOrMessage(dir: Listing, imports: Imports, name: string)
    requires ListModules(dir).Ok? && name in ListModules(dir).value
    requires Importable(imports, "src.nomaanos.modules." + name)
    ensures var m := imports["src.nomaanos.modules." + name].m;
      var r := RunModule(dir, imports, name);
      && ("main" !in m.attrs ==> r.result == Ok(StrV("Module '" + name + "' has no main() function.")) && r.calls == [])
      && ("main" in m.attrs ==> r.result == Call(m.attrs["main"], []) && r.calls == [Invocation("main", [])])
  {
  }
}
