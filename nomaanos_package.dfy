/** src/nomaanos/__init__.py: the `nomaanos` package shim. At import it binds a main
    module, a runner module and an exported `main`; `run` adapts to the runner's
    `run` signature and `info` searches a fixed list of providers. */
module NomaanosPackage {
  import opened Py

  /** The paths `_try_import(name)` tries, in order. */
  function Candidates(name: string): seq<string> {
    ["nomaanos." + name, name, "src.nomaanos." + name, "src." + name]
  }

  /** What `_try_import(name)` returns. */
  function Found(imports: Imports, name: string): Option<Module> {
    FirstLoaded(imports, Candidates(name))
  }

  /** `_try_import(name)`: the first candidate that imports, or `None`. */
  method TryImport(imports: Imports, name: string) returns (m: Option<Module>)
    ensures m == Found(imports, name)
  {
    var cands := Candidates(name);
    var i := 0;
    while i < |cands|
      invariant 0 <= i <= |cands|
      invariant forall j :: 0 <= j < i ==> !Importable(imports, cands[j])
    {
      var res := Import(imports, cands[i]);
      if res.Ok? {
        return Some(res.value);
      }
      i := i + 1;
    }
    return None;
  }

  /** The callable exported as `nomaanos.main`. */
  datatype MainEntry =
    | MainAttr(f: Obj)        // the main module's own callable `main`
    | ModuleItself(f: Obj)    // the main module object, when it is callable
    | RunWrapper(run: Obj)    // `main_wrapper` around the main module's callable `run`
    | Stub                    // `_main_stub`

  /** The names bound when the package is imported. */
  datatype Bindings = Bindings(mainMod: Option<Module>, runnerMod: Option<Module>, main: MainEntry)

  /** `_main_mod`: the first of main, core and runner that imports. */
  function MainModule(imports: Imports): (r: Option<Module>)
    ensures Found(imports, "main").Some? ==> r == Found(imports, "main")
    ensures Found(imports, "main").None? && Found(imports, "core").Some? ==> r == Found(imports, "core")
    ensures Found(imports, "main").None? && Found(imports, "core").None? ==> r == Found(imports, "runner")
    ensures r.None? <==> forall n :: n in ["main", "core", "runner"] ==> Found(imports, n).None?
  {
    if Found(imports, "main").Some? then Found(imports, "main")
    else if Found(imports, "core").Some? then Found(imports, "core")
    else Found(imports, "runner")
  }

  /** `_runner_mod`: runner if it imports, otherwise the main module. */
  function RunnerModule(imports: Imports): (r: Option<Module>)
    ensures Found(imports, "runner").Some? ==> r == Found(imports, "runner")
    ensures Found(imports, "runner").None? ==> r == MainModule(imports)
    ensures r.None? <==> MainModule(imports).None?
  {
    if Found(imports, "runner").Some? then Found(imports, "runner") else MainModule(imports)
  }

  /** `_get_main_callable()`: a callable `main`, else the callable module itself, else a
      wrapper around a callable `run`, else nothing. */
  function GetMainCallable(mainMod: Option<Module>): (r: Option<MainEntry>)
    ensures r.None? <==> (mainMod.None? || (!HasCallable(mainMod.value, "main") && !mainMod.value.call.Fn?
                                             && !HasCallable(mainMod.value, "run")))
    ensures r.Some? ==> r.value != Stub
    ensures r.Some? && r.value.RunWrapper? ==> r.value.run.Fn?
  {
    match mainMod
    case None => None
    case Some(m) =>
      if HasCallable(m, "main") then Some(MainAttr(m.attrs["main"]))
      else if m.call.Fn? then Some(ModuleItself(m.call))
      else if HasCallable(m, "run") then Some(RunWrapper(m.attrs["run"]))
      else None
  }

  /** The exported `main`: never `None`, the stub takes its place. */
  function ExportedMain(mainMod: Option<Module>): (e: MainEntry)
    ensures mainMod.None? ==> e == Stub
    ensures e == Stub <==> GetMainCallable(mainMod).None?
  {
    match GetMainCallable(mainMod)
    case Some(e) => e
    case None => Stub
  }

  /** The preference of the exported `main` for a bound main module: a callable `main`
      attribute, then the module object when it is callable, then the `run` wrapper,
      and the stub only when none of these exists. */
  lemma MainPreference(m: Module)
    ensures HasCallable(m, "main") ==> ExportedMain(Some(m)) == MainAttr(m.attrs["main"])
    ensures !HasCallable(m, "main") && m.call.Fn? ==> ExportedMain(Some(m)) == ModuleItself(m.call)
    ensures !HasCallable(m, "main") && !m.call.Fn? && HasCallable(m, "run") ==>
              ExportedMain(Some(m)) == RunWrapper(m.attrs["run"])
    ensures !HasCallable(m, "main") && !m.call.Fn? && !HasCallable(m, "run") ==> ExportedMain(Some(m)) == Stub
  {
  }

  /** Executing the package body once. */
  method Load(imports: Imports) returns (b: Bindings)
    ensures b == Bindings(MainModule(imports), RunnerModule(imports), ExportedMain(MainModule(imports)))
  {
    var m := TryImport(imports, "main");
    if m.None? {
      m := TryImport(imports, "core");
    }
    if m.None? {
      m := TryImport(imports, "runner");
    }
    var r := TryImport(imports, "runner");
    if r.None? {
      r := m;
    }
    b := Bindings(m, r, ExportedMain(m));
  }

  /** A runner module is bound exactly when a main module is: runner is the last main
      candidate and the main module is the runner's fallback. */
  lemma RunnerIffMain(imports: Imports)
    ensures RunnerModule(imports).None? <==> MainModule(imports).None?
    ensures MainModule(imports).None? <==>
              forall n :: n in ["main", "core", "runner"] ==> Found(imports, n).None?
  {
  }

  const StubMsg := "no callable main() available in nomaanos package"

  /** Calling the exported `main(*args)`. The wrapper calls `run()` for a
      zero-parameter `run` and `run("")` otherwise, and after any exception calls
      `run()` once more, outside any handler. */
  function CallMain(e: MainEntry, args: seq<Value>): (r: Report)
    ensures e == Stub ==> r.result.Ok? && r.calls == []
    ensures e.RunWrapper? && args == [] ==> 1 <= |r.calls| <= 2
  {
    match e
    case MainAttr(f) => Report(Call(f, args), [], [Invocation("main", args)])
    case ModuleItself(f) => Report(Call(f, args), [], [Invocation("", args)])
    case RunWrapper(run) =>
      if |args| > 0 then Report(Raised(WrongArity), [], [])
      else
        var firstArgs := if run.Fn? && run.params == 0 then [] else [StrV("")];
        var first := Call(run, firstArgs);
        if first.Ok? then Report(first, [], [Invocation("run", firstArgs)])
        else Report(Call(run, []), [], [Invocation("run", firstArgs), Invocation("run", [])])
    case Stub =>
      Report(Ok(DictV(map["error" := StrV(StubMsg), "args" := ListV([ListV(args), DictV(map[])])])), [], [])
  }

  /** The stub answers every call with the error message and echoes its positional
      arguments (and the empty keyword dictionary). */
  lemma StubEchoesArguments(args: seq<Value>)
    ensures var r := CallMain(ExportedMain(None), args).result.value;
      && r.DictV? && r.entries.Keys == {"error", "args"}
      && r.entries["error"] == StrV(StubMsg)
      && r.entries["args"] == ListV([ListV(args), DictV(map[])])
  {
  }

  /** The wrapper's rule for any callable `run`: the first call is `run()` for a
      zero-parameter `run` and `run("")` otherwise; there is a second call exactly when
      the first raised, whatever it raised; the second call is `run()` and its outcome is
      the result. Positional arguments to the wrapper itself raise `TypeError`. */
  lemma WrapperRule(run: Obj, args: seq<Value>)
    requires run.Fn?
    ensures var firstArgs := if run.params == 0 then [] else [StrV("")];
      var r := CallMain(RunWrapper(run), []);
      && 1 <= |r.calls| <= 2
      && r.calls[0] == Invocation("run", firstArgs)
      && (|r.calls| == 2 <==> Call(run, firstArgs).Raised?)
      && (|r.calls| == 2 ==> r.calls[1] == Invocation("run", []) && r.result == Call(run, []))
      && (|r.calls| == 1 ==> r.result == Call(run, firstArgs))
    ensures args != [] ==> CallMain(RunWrapper(run), args) == Report(Raised(WrongArity), [], [])
  {
  }

  /** A one-parameter `run` that raises under the wrapper is called again with no
      arguments, which raises `TypeError`. */
  lemma WrapperRetriesWithoutArguments(run: Obj)
    requires run.Fn? && run.params == 1 && run.defaults == 0 && run.body.Raised?
    ensures CallMain(RunWrapper(run), []).calls == [Invocation("run", [StrV("")]), Invocation("run", [])]
    ensures CallMain(RunWrapper(run), []).result == Raised(WrongArity)
  {
  }

  const NoRunnerMsg := "no runner module found (expected nomaanos.runner or main/core)"

  /** `run(name)`. */
  function Run(b: Bindings, name: string): (r: Report)
    ensures b.runnerMod.None? ==> r == Report(Raised(Exc(RuntimeError, NoRunnerMsg)), [], [])
    ensures b.runnerMod.Some? && !HasCallable(b.runnerMod.value, "run") && !b.runnerMod.value.call.Fn? ==>
              r == Report(Raised(Exc(RuntimeError, "runner has no callable run")), [], [])
  {
    if b.runnerMod.None? then Report(Raised(Exc(RuntimeError, NoRunnerMsg)), [], [])
    else
      var m := b.runnerMod.value;
      if HasCallable(m, "run") then
        var f := m.attrs["run"];
        var firstArgs := if f.params == 0 then [] else [StrV(name)];
        var first := Call(f, firstArgs);
        if first.Ok? then Report(first, [], [Invocation("run", firstArgs)])
        else
          var second := Call(f, [StrV(name)]);
          if second.Raised? && second.exc.kind == TypeError then
            Report(Call(f, []), [], [Invocation("run", firstArgs), Invocation("run", [StrV(name)]), Invocation("run", [])])
          else
            Report(second, [], [Invocation("run", firstArgs), Invocation("run", [StrV(name)])])
      else if m.call.Fn? then
        var first := Call(m.call, [StrV(name)]);
        if first.Raised? && first.exc.kind == TypeError then
          Report(Call(m.call, []), [], [Invocation("", [StrV(name)]), Invocation("", [])])
        else
          Report(first, [], [Invocation("", [StrV(name)])])
      else
        Report(Raised(Exc(RuntimeError, "runner has no callable run")), [], [])
  }

  /** The signature decides the first call: no arguments for a zero-parameter `run`,
      `name` otherwise; a first call that returns ends the dispatch. */
  lemma RunArity(b: Bindings, name: string)
    requires b.runnerMod.Some? && HasCallable(b.runnerMod.value, "run")
    ensures var f := b.runnerMod.value.attrs["run"];
      var r := Run(b, name);
      && r.calls[0] == Invocation("run", if f.params == 0 then [] else [StrV(name)])
      && (|r.calls| == 1 <==> r.result.Ok? && r.result == Call(f, r.calls[0].args))
  {
  }

  /** The last-resort chain of a callable `run`: after the signature-chosen first call
      raises anything, `run(name)` is tried, and only a `TypeError` from that leads to a
      third call `run()`, whose outcome is the result; otherwise the second call's
      outcome, exception included, is the result. */
  lemma RunRetryChain(b: Bindings, name: string)
    requires b.runnerMod.Some? && HasCallable(b.runnerMod.value, "run")
    ensures var f := b.runnerMod.value.attrs["run"];
      var firstArgs := if f.params == 0 then [] else [StrV(name)];
      var second := Call(f, [StrV(name)]);
      var r := Run(b, name);
      && r.tried == [] && 1 <= |r.calls| <= 3
      && r.calls[0] == Invocation("run", firstArgs)
      && (Call(f, firstArgs).Ok? ==> r.calls == [Invocation("run", firstArgs)] && r.result == Call(f, firstArgs))
      && (Call(f, firstArgs).Raised? ==> |r.calls| >= 2 && r.calls[1] == Invocation("run", [StrV(name)]))
      && (|r.calls| == 3 <==> Call(f, firstArgs).Raised? && second.Raised? && second.exc.kind == TypeError)
      && (|r.calls| == 3 ==> r.calls[2] == Invocation("run", []) && r.result == Call(f, []))
      && (|r.calls| == 2 ==> r.result == second)
  {
  }

  /** Without a callable `run`, a callable runner module is called with `name`, and
      called again with no arguments exactly when that raised `TypeError`. */
  lemma RunCallableModule(b: Bindings, name: string)
    requires b.runnerMod.Some? && !HasCallable(b.runnerMod.value, "run") && b.runnerMod.value.call.Fn?
    ensures var c := b.runnerMod.value.call;
      var first := Call(c, [StrV(name)]);
      var r := Run(b, name);
      && r.tried == []
      && (first.Raised? && first.exc.kind == TypeError ==>
            r.calls == [Invocation("", [StrV(name)]), Invocation("", [])] && r.result == Call(c, []))
      && (!(first.Raised? && first.exc.kind == TypeError) ==>
            r.calls == [Invocation("", [StrV(name)])] && r.result == first)
  {
  }

  /** A one-parameter `run` that raises anything is called twice with `name`, and the
      second exception propagates. */
  lemma FailingRunCalledTwice(b: Bindings, name: string)
    requires b.runnerMod.Some? && HasCallable(b.runnerMod.value, "run")
    requires var f := b.runnerMod.value.attrs["run"];
      f.params == 1 && f.body.Raised? && f.body.exc.kind != TypeError
    ensures var f := b.runnerMod.value.attrs["run"];
      && Run(b, name).calls == [Invocation("run", [StrV(name)]), Invocation("run", [StrV(name)])]
      && Run(b, name).result == f.body
  {
  }

  /** A zero-parameter `run` that raises is called three times: `run()`, then
      `run(name)`, which raises `TypeError`, then `run()` again. */
  lemma FailingZeroParameterRunCalledThrice(b: Bindings, name: string)
    requires b.runnerMod.Some? && HasCallable(b.runnerMod.value, "run")
    requires var f := b.runnerMod.value.attrs["run"];
      f.params == 0 && f.body.Raised?
    ensures var f := b.runnerMod.value.attrs["run"];
      && Run(b, name).calls == [Invocation("run", []), Invocation("run", [StrV(name)]), Invocation("run", [])]
      && Run(b, name).result == f.body
  {
  }

  // ---- info ----

  /** Where `info()` got its record from. */
  datatype Provider = FromPlugin(name: string) | FromMain | FromRunner

  const NoProviderRecord := DictV(map["project" := StrV("nomaanos"), "note" := StrV("no info() provider found")])

  /** A provider's outcome as `info()` returns it: exceptions become an error record. */
  function Settle(out: Outcome): Value {
    if out.Ok? then out.value else ErrorDict("info() raised: " + out.exc.msg)
  }

  predicate Provides(m: Option<Module>, attr: string) {
    m.Some? && HasCallable(m.value, attr)
  }

  /** Index of the first of `names` whose module imports with a callable of the same
      name, or `|names|` when there is none. */
  function FirstProvider(imports: Imports, names: seq<string>): (k: nat)
    ensures k <= |names|
    ensures k < |names| ==> Provides(Found(imports, names[k]), names[k])
    ensures forall j :: 0 <= j < k ==> !Provides(Found(imports, names[j]), names[j])
  {
    if names == [] then 0
    else if Provides(Found(imports, names[0]), names[0]) then 0
    else 1 + FirstProvider(imports, names[1..])
  }

  /** The first provider is the one every earlier name fails to provide before. */
  lemma {:induction false} FirstProviderIs(imports: Imports, names: seq<string>, k: nat)
    requires k <= |names|
    requires forall j :: 0 <= j < k ==> !Provides(Found(imports, names[j]), names[j])
    requires k < |names| ==> Provides(Found(imports, names[k]), names[k])
    ensures FirstProvider(imports, names) == k
  {
    if k > 0 {
      assert !Provides(Found(imports, names[0]), names[0]);
      FirstProviderIs(imports, names[1..], k - 1);
    }
  }

  const InfoProviders := ["info", "sysinfo", "get_info"]

  /** What `info()` returns, and which provider answered. */
  function InfoSpec(imports: Imports, b: Bindings): (Value, Option<Provider>) {
    var k := FirstProvider(imports, InfoProviders);
    if k < |InfoProviders| then
      var n := InfoProviders[k];
      (Settle(Call(Found(imports, n).value.attrs[n], [])), Some(FromPlugin(n)))
    else ModuleInfoSpec(b)
  }

  /** What the second loop of `info()` returns: the main module's `info`, else the
      runner module's, else the fixed record. */
  function ModuleInfoSpec(b: Bindings): (Value, Option<Provider>) {
    if Provides(b.mainMod, "info") then (Settle(Call(b.mainMod.value.attrs["info"], [])), Some(FromMain))
    else if Provides(b.runnerMod, "info") then (Settle(Call(b.runnerMod.value.attrs["info"], [])), Some(FromRunner))
    else (NoProviderRecord, None)
  }

  /** `info()`: the providers info, sysinfo and get_info, then the main and the runner
      module's `info`; the first one found is called. */
  method Info(imports: Imports, b: Bindings) returns (v: Value, used: Option<Provider>)
    ensures (v, used) == InfoSpec(imports, b)
  {
    var providers := InfoProviders;
    var i := 0;
    while i < |providers|
      invariant 0 <= i <= |providers|
      invariant forall j :: 0 <= j < i ==> !Provides(Found(imports, providers[j]), providers[j])
    {
      var candidate := providers[i];
      var m := TryImport(imports, candidate);
      if m.Some? && HasCallable(m.value, candidate) {
        var out := Call(m.value.attrs[candidate], []);
        FirstProviderIs(imports, providers, i);
        return Settle(out), Some(FromPlugin(candidate));
      }
      i := i + 1;
    }
    FirstProviderIs(imports, providers, i);
    v, used := ModuleInfo(b);
  }

  /** The second loop of `info()`: the main module, then the runner module. */
  method ModuleInfo(b: Bindings) returns (v: Value, used: Option<Provider>)
    ensures (v, used) == ModuleInfoSpec(b)
  {
    var mods := [b.mainMod, b.runnerMod];
    var tags := [FromMain, FromRunner];
    var j := 0;
    while j < |mods|
      invariant 0 <= j <= |mods|
      invariant j >= 1 ==> !Provides(b.mainMod, "info")
      invariant j >= 2 ==> !Provides(b.runnerMod, "info")
    {
      var mod := mods[j];
      if mod.Some? && HasCallable(mod.value, "info") {
        var out := Call(mod.value.attrs["info"], []);
        return Settle(out), Some(tags[j]);
      }
      j := j + 1;
    }
    return NoProviderRecord, None;
  }

  /** With no provider anywhere, the fixed record is returned. */
  lemma NoProviderFallback(imports: Imports, b: Bindings)
    requires forall n :: n in InfoProviders ==> !Provides(Found(imports, n), n)
    requires !Provides(b.mainMod, "info") && !Provides(b.runnerMod, "info")
    ensures InfoSpec(imports, b) == (NoProviderRecord, None)
  {
    forall j | 0 <= j < |InfoProviders|
      ensures !Provides(Found(imports, InfoProviders[j]), InfoProviders[j])
    {
      assert InfoProviders[j] in InfoProviders;
    }
    FirstProviderIs(imports, InfoProviders, |InfoProviders|);
  }

  /** An `info` plugin with a callable `info` wins over everything else, and a provider
      that raises yields the "info() raised" record. */
  lemma InfoPluginFirst(imports: Imports, b: Bindings)
    requires Provides(Found(imports, "info"), "info")
    ensures var f := Found(imports, "info").value.attrs["info"];
      && InfoSpec(imports, b).1 == Some(FromPlugin("info"))
      && (Call(f, []).Raised? ==> InfoSpec(imports, b).0 == ErrorDict("info() raised: " + Call(f, []).exc.msg))
  {
  }

  /** The main and the runner module are asked only when no plugin provides `info`, and
      the main module comes first. */
  lemma ModulesAfterPlugins(imports: Imports, b: Bindings)
    requires FirstProvider(imports, InfoProviders) == |InfoProviders|
    ensures Provides(b.mainMod, "info") ==> InfoSpec(imports, b).1 == Some(FromMain)
    ensures !Provides(b.mainMod, "info") && Provides(b.runnerMod, "info") ==>
              InfoSpec(imports, b).1 == Some(FromRunner)
  {
  }
}
