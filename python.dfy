/** The slice of Python's object model that the dispatchers observe: values that
    entrypoints return, exceptions, callables with a parameter count, modules with
    attributes, and the import system as an oracle. */
module Py {

  datatype Option<+T> = None | Some(value: T)

  /** What a Python entrypoint can return. Lists stand for lists and tuples. */
  datatype Value =
    | NoneV
    | BoolV(b: bool)
    | IntV(i: int)
    | StrV(s: string)
    | ListV(items: seq<Value>)
    | DictV(entries: map<string, Value>)

  datatype ExcKind = TypeError | ImportError | AttributeError | RuntimeError | OtherError(cls: string)

  /** An exception; `msg` is what `str(e)` renders. */
  datatype Exc = Exc(kind: ExcKind, msg: string)

  /** A computation that either returns or raises. */
  datatype Result<+T> = Ok(value: T) | Raised(exc: Exc)

  type Outcome = Result<Value>

  /** An attribute of a module: a function with `params` parameters of which the last
      `defaults` have default values and whose body ends with `body`, or a plain value
      that cannot be called. */
  datatype Obj = Fn(params: nat, defaults: nat, body: Outcome) | Plain

  /** A module: its attributes by name, and what calling the module object itself does. */
  datatype Module = Module(attrs: map<string, Obj>, call: Obj)

  /** What importing a path does: it loads a module, or executing the module raises. */
  datatype Loading = Loads(m: Module) | Fails(e: Exc)

  /** The import system: a path missing from the map has no module behind it. */
  type Imports = map<string, Loading>

  /** One call into plugin code: the attribute called and its positional arguments. */
  datatype Invocation = Invocation(target: string, args: seq<Value>)

  /** A dispatch: its outcome, the import paths it attempted in order, and the calls it
      made in order. */
  datatype Report = Report(result: Outcome, tried: seq<string>, calls: seq<Invocation>)

  const NotCallable := Exc(TypeError, "object is not callable")
  const WrongArity := Exc(TypeError, "wrong number of positional arguments")

  /** `f` can be called with `n` positional arguments. */
  predicate Accepts(f: Obj, n: nat) {
    f.Fn? && f.params - f.defaults <= n <= f.params
  }

  /** Calling `o(*args)`: only a function accepting that many arguments runs its body;
      anything else raises `TypeError` before the body starts. */
  function Call(o: Obj, args: seq<Value>): (r: Outcome)
    ensures !Accepts(o, |args|) ==> r.Raised? && r.exc.kind == TypeError
    ensures Accepts(o, |args|) ==> r == o.body
  {
    if o.Plain? then Raised(NotCallable)
    else if !Accepts(o, |args|) then Raised(WrongArity)
    else o.body
  }

  predicate HasCallable(m: Module, attr: string) {
    attr in m.attrs && m.attrs[attr].Fn?
  }

  /** `importlib.import_module(path)`. */
  function Import(imports: Imports, path: string): (r: Result<Module>)
    ensures r.Ok? <==> Importable(imports, path)
    ensures r.Ok? ==> imports[path] == Loads(r.value)
  {
    if path !in imports then Raised(Exc(ImportError, "No module named '" + path + "'"))
    else match imports[path]
      case Loads(m) => Ok(m)
      case Fails(e) => Raised(e)
  }

  predicate Importable(imports: Imports, path: string) {
    path in imports && imports[path].Loads?
  }

  // ---- relative imports, as importlib resolves them ----

  /** The number of leading periods of `s`: the level of a relative import. */
  function LeadingDots(s: string): (k: nat)
    ensures k <= |s|
    ensures k < |s| ==> s[k] != '.'
  {
    if s != [] && s[0] == '.' then 1 + LeadingDots(s[1..]) else 0
  }

  /** Everything before the level is a period. */
  lemma {:induction false} LeadingDotsAreDots(s: string)
    ensures forall i :: 0 <= i < LeadingDots(s) ==> s[i] == '.'
  {
    if s != [] && s[0] == '.' {
      LeadingDotsAreDots(s[1..]);
    }
  }

  /** The index of the last period of `s`, if there is one. */
  function LastDot(s: string): (r: Option<nat>)
    ensures r.Some? ==> r.value < |s| && s[r.value] == '.'
  {
    if s == [] then None
    else if s[|s| - 1] == '.' then Some(|s| - 1)
    else LastDot(s[..|s| - 1])
  }

  /** `LastDot` finds the last period, and finds none only where there is none. */
  lemma {:induction false} LastDotIsLast(s: string)
    ensures LastDot(s).None? ==> forall j :: 0 <= j < |s| ==> s[j] != '.'
    ensures LastDot(s).Some? ==> forall j :: LastDot(s).value < j < |s| ==> s[j] != '.'
  {
    if s != [] && s[|s| - 1] != '.' {
      LastDotIsLast(s[..|s| - 1]);
    }
  }

  /** `p.rsplit('.', k)[0]`: `p` without its last `k` dotted components, or `None` when
      `p` has fewer than `k` periods (the split then yields fewer than `k + 1` parts). */
  function RSplitBase(p: string, k: nat): (r: Option<string>)
    ensures k == 0 ==> r == Some(p)
    ensures r.Some? ==> |r.value| <= |p| && r.value == p[..|r.value|]
    decreases k
  {
    if k == 0 then Some(p)
    else match LastDot(p)
      case None => None
      case Some(i) => RSplitBase(p[..i], k - 1)
  }

  /** The number of periods in `s`. */
  function Dots(s: string): nat {
    if s == [] then 0 else Dots(s[..|s| - 1]) + (if s[|s| - 1] == '.' then 1 else 0)
  }

  /** Periods add up over a concatenation. */
  lemma {:induction false} DotsAppend(a: string, b: string)
    ensures Dots(a + b) == Dots(a) + Dots(b)
  {
    if b != [] {
      assert (a + b)[..|a + b| - 1] == a + b[..|b| - 1];
      DotsAppend(a, b[..|b| - 1]);
    } else {
      assert a + b == a;
    }
  }

  /** Without a last period there is no period; cutting at the last period removes one. */
  lemma {:induction false} DotsLastDot(s: string)
    ensures LastDot(s).None? ==> Dots(s) == 0
    ensures LastDot(s).Some? ==> Dots(s) == Dots(s[..LastDot(s).value]) + 1
  {
    if s != [] && s[|s| - 1] != '.' {
      var t := s[..|s| - 1];
      DotsLastDot(t);
      if LastDot(t).Some? {
        assert t[..LastDot(t).value] == s[..LastDot(s).value];
      }
    }
  }

  /** `p.rsplit('.', k)` has `k + 1` parts exactly when `p` has at least `k` periods. */
  lemma {:induction false} RSplitBaseSome(p: string, k: nat)
    ensures RSplitBase(p, k).Some? <==> Dots(p) >= k
    decreases k
  {
    DotsLastDot(p);
    if k > 0 && LastDot(p).Some? {
      RSplitBaseSome(p[..LastDot(p).value], k - 1);
    }
  }

  /** The first part of `p.rsplit('.', k)` ends just before the `k`-th period from the
      right: the part cut off starts with a period and holds exactly `k` of them. */
  lemma {:induction false} RSplitBaseCut(p: string, k: nat)
    requires RSplitBase(p, k).Some?
    ensures var b := RSplitBase(p, k).value;
      && Dots(p[|b|..]) == k
      && (k > 0 ==> |b| < |p| && p[|b|] == '.')
    decreases k
  {
    if k == 0 {
      assert p[|p|..] == [];
    } else {
      var i := LastDot(p).value;
      var q := p[..i];
      assert RSplitBase(p, k) == RSplitBase(q, k - 1);
      RSplitBaseCut(q, k - 1);
      var b := RSplitBase(q, k - 1).value;
      assert |b| <= i;
      LastDotTail(p);
      assert p[|b|..] == q[|b|..] + p[i..];
      DotsAppend(q[|b|..], p[i..]);
      if k == 1 {
        assert b == q;
      } else {
        assert p[|b|] == q[|b|];
      }
    }
  }

  /** The text from the last period on holds exactly one period. */
  lemma LastDotTail(p: string)
    requires LastDot(p).Some?
    ensures Dots(p[LastDot(p).value..]) == 1
  {
    var i := LastDot(p).value;
    DotsLastDot(p);
    assert p[..i] + p[i..] == p;
    DotsAppend(p[..i], p[i..]);
  }

  /** importlib's resolution of the relative name `rel` (it starts with a period)
      against `package`: the leading periods give the level, the package loses
      `level - 1` trailing components, and the rest of `rel`, when there is any, is
      appended after a period. */
  function Resolve(package: string, rel: string): Result<string>
    requires |rel| > 0 && rel[0] == '.'
  {
    if package == "" then
      Raised(Exc(TypeError, "the 'package' argument is required to perform a relative import for '" + rel + "'"))
    else
      var level := LeadingDots(rel);
      var rest := rel[level..];
      match RSplitBase(package, level - 1)
      case None => Raised(Exc(ImportError, "attempted relative import beyond top-level package"))
      case Some(base) => Ok(if rest == "" then base else base + "." + rest)
  }

  /** Resolution without a package raises `TypeError`; it succeeds exactly when the
      package has at least `level - 1` periods, otherwise it raises the "beyond
      top-level package" `ImportError`; and the result ends with the part of `rel`
      after its periods. */
  lemma ResolveOutcome(package: string, rel: string)
    requires |rel| > 0 && rel[0] == '.'
    ensures var r := Resolve(package, rel);
      var rest := rel[LeadingDots(rel)..];
      && (package == "" <==> r.Raised? && r.exc.kind == TypeError)
      && (r.Ok? <==> package != "" && Dots(package) >= LeadingDots(rel) - 1)
      && (package != "" && r.Raised? ==>
            r.exc == Exc(ImportError, "attempted relative import beyond top-level package"))
      && (r.Ok? ==> |rest| <= |r.value| && r.value[|r.value| - |rest|..] == rest)
  {
    RSplitBaseSome(package, LeadingDots(rel) - 1);
    if package != "" {
      ResolveWithPackage(package, rel);
    }
  }

  /** With a package, resolution fails only on the climb, and a success ends with the
      part of `rel` after its periods. */
  lemma ResolveWithPackage(package: string, rel: string)
    requires |rel| > 0 && rel[0] == '.' && package != ""
    ensures var r := Resolve(package, rel);
      var level := LeadingDots(rel);
      var rest := rel[level..];
      && (r.Ok? <==> RSplitBase(package, level - 1).Some?)
      && (r.Raised? ==> r.exc == Exc(ImportError, "attempted relative import beyond top-level package"))
      && (r.Ok? ==> |rest| <= |r.value| && r.value[|r.value| - |rest|..] == rest)
  {
    var level := LeadingDots(rel);
    var rest := rel[level..];
    match RSplitBase(package, level - 1)
    case None =>
    case Some(base) =>
      var full := if rest == "" then base else base + "." + rest;
      assert Resolve(package, rel) == Ok(full);
      assert full[|full| - |rest|..] == rest;
  }

  /** `importlib.import_module(name, package)`: a name with a leading period is first
      resolved against `package`; a failed resolution raises like a failed import. */
  function ImportModule(imports: Imports, name: string, package: string): (r: Result<Module>)
    ensures (name == [] || name[0] != '.') ==> r == Import(imports, name)
  {
    if name != [] && name[0] == '.' then
      match Resolve(package, name)
      case Raised(e) => Raised(e)
      case Ok(path) => Import(imports, path)
    else Import(imports, name)
  }

  function AsLoading(r: Result<Module>): Loading {
    match r
    case Ok(m) => Loads(m)
    case Raised(e) => Fails(e)
  }

  /** The import table as `import_module(c, package)` sees it for each `c` of `cands`:
      relative names already resolved against `package`. */
  function Resolved(imports: Imports, package: string, cands: seq<string>): Imports {
    map c | c in cands :: AsLoading(ImportModule(imports, c, package))
  }

  /** Importing a candidate from the resolved table is importing it with the package. */
  lemma ResolvedImport(imports: Imports, package: string, cands: seq<string>, c: string)
    requires c in cands
    ensures Import(Resolved(imports, package, cands), c) == ImportModule(imports, c, package)
  {
  }

  /** The module name `import_module(name, package)` binds, when it resolves. */
  function ResolvedName(name: string, package: string): string {
    if name != [] && name[0] == '.' && Resolve(package, name).Ok? then Resolve(package, name).value
    else name
  }

  /** One period in front of an ordinary name resolves to that name inside `package`. */
  lemma ResolveChild(package: string, name: string)
    requires package != "" && name != "" && name[0] != '.'
    ensures Resolve(package, "." + name) == Ok(package + "." + name)
  {
    var rel := "." + name;
    assert rel[1..] == name;
    assert LeadingDots(rel) == 1;
  }

  /** So importing "." followed by an ordinary name imports that name inside `package`. */
  lemma ImportModuleChild(imports: Imports, package: string, name: string)
    requires package != "" && name != "" && name[0] != '.'
    ensures ImportModule(imports, "." + name, package) == Import(imports, package + "." + name)
  {
    ResolveChild(package, name);
  }

  /** A lone period resolves to the package itself. */
  lemma ResolveLoneDot(package: string)
    requires package != ""
    ensures Resolve(package, ".") == Ok(package)
  {
    assert "."[1..] == "";
  }

  /** Each further period climbs one package: "..hello" next to the runner names its
      sibling, and climbing past the top raises `ImportError`. */
  lemma ResolveClimbs()
    ensures Resolve("src.nomaanos.modules.runner", "..hello") == Ok("src.nomaanos.modules.hello")
    ensures Resolve("runner", "..hello").Raised? && Resolve("runner", "..hello").exc.kind == ImportError
  {
    var rel := "..hello";
    assert rel[1..] == ".hello" && rel[1..][1..] == "hello";
    assert LeadingDots(rel) == 2;
    assert rel[2..] == "hello";
    var p := "src.nomaanos.modules.runner";
    assert p[20] == '.';
    assert forall j :: 20 < j < |p| ==> p[j] != '.';
    var last := LastDot(p);
    LastDotIsLast(p);
    assert last.Some? && last.value == 20;
    assert p[..20] == "src.nomaanos.modules";
    assert RSplitBase(p, LeadingDots(rel) - 1) == Some("src.nomaanos.modules");
    assert "src.nomaanos.modules" + "." + "hello" == "src.nomaanos.modules.hello";
    assert LastDot("runner") == None;
  }

  /** Index of the first candidate that imports, or `|cands|` when none does. */
  function FirstImportable(imports: Imports, cands: seq<string>): (k: nat)
    ensures k <= |cands|
    ensures k < |cands| ==> Importable(imports, cands[k])
    ensures forall j :: 0 <= j < k ==> !Importable(imports, cands[j])
  {
    if cands == [] then 0
    else if Importable(imports, cands[0]) then 0
    else 1 + FirstImportable(imports, cands[1..])
  }

  /** The first importable candidate is the one every earlier candidate fails before. */
  lemma {:induction false} FirstImportableIs(imports: Imports, cands: seq<string>, k: nat)
    requires k <= |cands|
    requires forall j :: 0 <= j < k ==> !Importable(imports, cands[j])
    requires k < |cands| ==> Importable(imports, cands[k])
    ensures FirstImportable(imports, cands) == k
    ensures Attempted(imports, cands) == if k < |cands| then cands[..k + 1] else cands
    ensures FirstLoaded(imports, cands) == if k < |cands| then Some(imports[cands[k]].m) else None
  {
    if k > 0 {
      assert !Importable(imports, cands[0]);
      FirstImportableIs(imports, cands[1..], k - 1);
    }
  }

  /** The candidates a first-success loop attempts: up to and including the first that
      imports, or all of them. */
  function Attempted(imports: Imports, cands: seq<string>): (t: seq<string>)
    ensures StartsWithAll(cands, t)
    ensures t == cands || (t != [] && Importable(imports, t[|t| - 1]))
    ensures forall j :: 0 <= j < |t| - 1 ==> !Importable(imports, t[j])
  {
    var k := FirstImportable(imports, cands);
    if k < |cands| then cands[..k + 1] else cands
  }

  predicate StartsWithAll(s: seq<string>, prefix: seq<string>) {
    |prefix| <= |s| && s[..|prefix|] == prefix
  }

  /** The module bound by a first-success loop over `cands`, or `None`. */
  function FirstLoaded(imports: Imports, cands: seq<string>): (r: Option<Module>)
    ensures r.None? <==> forall j :: 0 <= j < |cands| ==> !Importable(imports, cands[j])
    ensures r.Some? ==>
              exists k :: 0 <= k < |cands| && Importable(imports, cands[k]) && imports[cands[k]].m == r.value
                          && forall j :: 0 <= j < k ==> !Importable(imports, cands[j])
  {
    var k := FirstImportable(imports, cands);
    if k < |cands| then Some(imports[cands[k]].m) else None
  }

  /** What listing a directory gives: it does not exist, `os.listdir` raises, or the
      entry names in the order the file system returns them. */
  datatype Listing = Missing | Unlistable(e: Exc) | Entries(names: seq<string>)

  /** The error record `{"error": msg}` the dispatchers return instead of raising. */
  function ErrorDict(msg: string): Value {
    DictV(map["error" := StrV(msg)])
  }
}
