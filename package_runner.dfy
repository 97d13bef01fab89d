/** src/nomaanos/runner.py: the package-level runner. It lists the package's public
    modules, builds the `info()` record, and runs a plugin, answering an empty name
    with `info()` and most failures with an error record. */
module PackageRunner {
  import opened Py
  import opened Text
  import opened Seqs
  import Sorting

  predicate Public(name: string) {
    !StartsWith(name, "_")
  }

  /** `list_modules()`. `discovered` is what `pkgutil.iter_modules` yields for the
      package, or `None` when discovery raises; then the hardcoded pair is returned. */
  method ListModules(discovered: Option<seq<string>>) returns (r: seq<string>)
    ensures discovered.None? ==> r == ["hello", "sysinfo"]
    ensures discovered.Some? ==> Sorting.Sorted(r)
    ensures discovered.Some? ==> multiset(r) == multiset(Filter(Public, discovered.value))
    ensures discovered.Some? ==> forall x :: x in r <==> x in discovered.value && !StartsWith(x, "_")
  {
    if discovered.None? {
      return ["hello", "sysinfo"];
    }
    var found := discovered.value;
    var names := [];
    var i := 0;
    while i < |found|
      invariant 0 <= i <= |found|
      invariant names == Filter(Public, found[..i])
    {
      var name := found[i];
      assert found[..i + 1] == found[..i] + [name];
      FilterAppend(Public, found[..i], [name]);
      assert [name][1..] == [];
      if !StartsWith(name, "_") {
        names := names + [name];
      }
      i := i + 1;
    }
    assert found[..i] == found;
    r := Sorting.Sort(names);
    Sorting.SortMembers(names);
    FilterMembers(Public, found);
  }

  /** What the process environment supplies to `info()`: the clock reading and the
      interpreter and platform descriptions. */
  datatype Env = Env(time: string, python: string, platform: string)

  /** `info()`: exactly the keys project, time, user, python and platform. */
  function Info(env: Env): (r: Value)
    ensures r.DictV? && r.entries.Keys == {"project", "time", "user", "python", "platform"}
    ensures r.entries["project"] == StrV("NomaanOS") && r.entries["user"] == StrV("unknown")
    ensures r.entries["time"] == StrV(env.time)
    ensures r.entries["python"] == StrV(env.python) && r.entries["platform"] == StrV(env.platform)
  {
    DictV(map["project" := StrV("NomaanOS"), "time" := StrV(env.time), "user" := StrV("unknown"),
              "python" := StrV(env.python), "platform" := StrV(env.platform)])
  }

  /** `run(name)`. Only a first `main()` that raises something other than `TypeError`
      makes it raise; every other failure is an error record. */
  function Run(imports: Imports, env: Env, name: Option<string>): (r: Report)
    ensures (name.None? || name.value == "") ==> r == Report(Ok(Info(env)), [], [])
    ensures name.Some? && name.value != "" ==> r.tried == ["nomaanos.modules." + name.value]
    ensures r.result.Raised? ==> r.result.exc.kind != TypeError && r.calls == [Invocation("main", [])]
    ensures name.Some? && name.value != "" && Importable(imports, "nomaanos.modules." + name.value) ==>
              var m := imports["nomaanos.modules." + name.value].m;
              HasCallable(m, "main") && !(Call(m.attrs["main"], []).Raised? && Call(m.attrs["main"], []).exc.kind == TypeError) ==>
                r.result == Call(m.attrs["main"], []) && r.calls == [Invocation("main", [])]
  {
    if name.None? || name.value == "" then Report(Ok(Info(env)), [], [])
    else
      var modname := "nomaanos.modules." + name.value;
      match Import(imports, modname)
      case Raised(e) => Report(Ok(ErrorDict("cannot import module " + name.value + ": " + e.msg)), [modname], [])
      case Ok(m) => CallEntrypoint(m, [modname])
  }

  /** The entrypoint search of `run`: a callable `main`, then a callable `run`, then the
      module object itself. */
  function CallEntrypoint(m: Module, tried: seq<string>): (r: Report)
    ensures r.tried == tried
    ensures HasCallable(m, "main") && !(Call(m.attrs["main"], []).Raised? && Call(m.attrs["main"], []).exc.kind == TypeError) ==>
              r.result == Call(m.attrs["main"], []) && r.calls == [Invocation("main", [])]
    ensures r.result.Raised? <==>
              HasCallable(m, "main") && Call(m.attrs["main"], []).Raised? && Call(m.attrs["main"], []).exc.kind != TypeError
    ensures !HasCallable(m, "main") && !HasCallable(m, "run") && m.call.Fn? ==> r.calls == [Invocation("", [])]
  {
    if HasCallable(m, "main") then
      var first := Call(m.attrs["main"], []);
      if first.Raised? && first.exc.kind == TypeError then
        var second := Call(m.attrs["main"], []);
        var result := if second.Ok? then second else Ok(ErrorDict("calling main() failed: " + second.exc.msg));
        Report(result, tried, [Invocation("main", []), Invocation("main", [])])
      else
        Report(first, tried, [Invocation("main", [])])
    else if HasCallable(m, "run") then
      var out := Call(m.attrs["run"], []);
      var result := if out.Ok? then out else Ok(ErrorDict("calling run() failed: " + out.exc.msg));
      Report(result, tried, [Invocation("run", [])])
    else if m.call.Fn? then
      var out := Call(m.call, []);
      var result := if out.Ok? then out else Ok(ErrorDict("calling module failed: " + out.exc.msg));
      Report(result, tried, [Invocation("", [])])
    else
      Report(Ok(ErrorDict("no callable entrypoint in module")), tried, [])
  }

  /** The `TypeError` retry repeats the very same zero-argument call, so it fails the
      same way: the result is always the "calling main() failed" record. */
  lemma TypeErrorRetryIsFutile(imports: Imports, env: Env, name: string)
    requires name != "" && Importable(imports, "nomaanos.modules." + name)
    requires var m := imports["nomaanos.modules." + name].m;
      HasCallable(m, "main") && Call(m.attrs["main"], []).Raised? && Call(m.attrs["main"], []).exc.kind == TypeError
    ensures var main := imports["nomaanos.modules." + name].m.attrs["main"];
      var r := Run(imports, env, Some(name));
      && r.result == Ok(ErrorDict("calling main() failed: " + Call(main, []).exc.msg))
      && r.calls == [Invocation("main", []), Invocation("main", [])]
  {
  }

  /** A callable `main` is preferred, and what its first call does, unless it raises
      `TypeError`, is the result as it is; `run` is considered only when `main` is
      missing or not callable; without either the record says there is no entrypoint. */
  lemma EntrypointChoice(imports: Imports, env: Env, name: string)
    requires name != "" && Importable(imports, "nomaanos.modules." + name)
    ensures var m := imports["nomaanos.modules." + name].m;
      var r := Run(imports, env, Some(name));
      && (HasCallable(m, "main") ==> r.calls != [] && forall c :: c in r.calls ==> c.target == "main")
      && (HasCallable(m, "main") && !(Call(m.attrs["main"], []).Raised? && Call(m.attrs["main"], []).exc.kind == TypeError) ==>
            r.result == Call(m.attrs["main"], []) && r.calls == [Invocation("main", [])])
      && (!HasCallable(m, "main") && HasCallable(m, "run") ==> r.calls == [Invocation("run", [])])
      && (!HasCallable(m, "main") && HasCallable(m, "run") && Call(m.attrs["run"], []).Raised? ==>
            r.result == Ok(ErrorDict("calling run() failed: " + Call(m.attrs["run"], []).exc.msg)))
      && (!HasCallable(m, "main") && !HasCallable(m, "run") && !m.call.Fn? ==>
            r.result == Ok(ErrorDict("no callable entrypoint in module")) && r.calls == [])
  {
  }

  /** A plugin that does not import is reported, not raised. */
  lemma ImportFailureIsRecord(imports: Imports, env: Env, name: string)
    requires name != "" && !Importable(imports, "nomaanos.modules." + name)
    ensures Run(imports, env, Some(name)).result
            == Ok(ErrorDict("cannot import module " + name + ": " + Import(imports, "nomaanos.modules." + name).exc.msg))
    ensures Run(imports, env, Some(name)).calls == []
  {
  }
}
