/** nomaan.py: the command-line front end. It selects a handler by the first word of
    argv; `set` coerces its value and updates the configuration record, `run` and
    `modules` go through the plugin runner imported from `src.nomaanos.modules.runner`. */
module Cli {
  import opened Py
  import opened Text
  import ModulesRunner

  /** The handler `main()` selects. */
  datatype Command =
    | Usage                     // no command word
    | InfoCmd
    | HelloCmd(args: seq<string>)
    | ConfigCmd
    | SetCmd(args: seq<string>)
    | ModulesCmd
    | RunCmd(args: seq<string>)
    | Unknown(word: string)     // "Unknown command: <word>"

  const Words: seq<string> := ["info", "hello", "config", "set", "modules", "run"]

  /** `main()` on `argv`, whose first element is the program name. */
  function Select(argv: seq<string>): (c: Command)
    requires |argv| >= 1
    ensures |argv| == 1 <==> c == Usage
    ensures |argv| >= 2 ==> (c == InfoCmd <==> argv[1] == "info")
    ensures |argv| >= 2 ==> (c == HelloCmd(argv[2..]) <==> argv[1] == "hello")
    ensures |argv| >= 2 ==> (c == ConfigCmd <==> argv[1] == "config")
    ensures |argv| >= 2 ==> (c == SetCmd(argv[2..]) <==> argv[1] == "set")
    ensures |argv| >= 2 ==> (c == ModulesCmd <==> argv[1] == "modules")
    ensures |argv| >= 2 ==> (c == RunCmd(argv[2..]) <==> argv[1] == "run")
    ensures c.Unknown? <==> |argv| >= 2 && argv[1] !in Words
    ensures c.Unknown? ==> c.word == argv[1]
  {
    if |argv| == 1 then Usage
    else
      var cmd := argv[1];
      var args := argv[2..];
      if cmd == "info" then InfoCmd
      else if cmd == "hello" then HelloCmd(args)
      else if cmd == "config" then ConfigCmd
      else if cmd == "set" then SetCmd(args)
      else if cmd == "modules" then ModulesCmd
      else if cmd == "run" then RunCmd(args)
      else Unknown(cmd)
  }

  /** Two different command words never select the same handler. */
  lemma SelectIsInjective(argv1: seq<string>, argv2: seq<string>)
    requires |argv1| >= 2 && |argv2| >= 2
    requires Select(argv1) == Select(argv2)
    ensures argv1[1] == argv2[1]
  {
  }

  /** The name `hello` greets. */
  function HelloName(args: seq<string>): (name: string)
    ensures args == [] ==> name == "Nomaan"
    ensures args != [] ==> name == args[0]
  {
    if args != [] then args[0] else "Nomaan"
  }

  // ---- set ----

  /** CPython's default bound on the digits `int()` converts from text (since 3.11
      and the 3.7.14, 3.8.14, 3.9.14 and 3.10.7 security releases); longer text
      raises `ValueError`. */
  const IntMaxStrDigits := 4300

  /** The value `set` stores for the command-line text `value`. */
  function Coerce(value: string): (v: Value)
    ensures Lower(value) == "true" <==> v == BoolV(true)
    ensures Lower(value) == "false" <==> v == BoolV(false)
    ensures v.IntV? <==>
              Lower(value) != "true" && Lower(value) != "false" && IsDigits(value) && |value| <= IntMaxStrDigits
    ensures v.IntV? ==> v.i == DigitsValue(value)
    ensures IsDigits(value) && |value| > IntMaxStrDigits ==> v == StrV(value)
    ensures v.StrV? <==> !v.BoolV? && !v.IntV?
    ensures v.StrV? ==> v.s == value
  {
    if Lower(value) == "true" then BoolV(true)
    else if Lower(value) == "false" then BoolV(false)
    else if IsDigits(value) then
      // a refused conversion is swallowed and the text is kept
      if |value| <= IntMaxStrDigits then IntV(DigitsValue(value)) else StrV(value)
    else StrV(value)
  }

  /** Digits are unchanged by case folding, so a digit string is never read as a bool. */
  lemma DigitsNotBool(s: string)
    requires IsDigits(s)
    ensures Lower(s) != "true" && Lower(s) != "false"
  {
    assert Lower(s)[0] == s[0];
  }

  /** The decimal text of any natural number within the conversion bound is stored as
      that number. */
  lemma CoerceDecimal(n: nat)
    requires |Decimal(n)| <= IntMaxStrDigits
    ensures Coerce(Decimal(n)) == IntV(n)
  {
    DigitsNotBool(Decimal(n));
    DigitsValueDecimal(n);
  }

  /** Leading zeros are dropped, while the empty text and a minus sign keep the value a
      string; case does not matter for the two bool words. */
  lemma CoerceExamples()
    ensures Coerce("007") == IntV(7)
    ensures Coerce("") == StrV("")
    ensures Coerce("-5") == StrV("-5")
    ensures Coerce("TRUE") == BoolV(true)
    ensures Coerce("False") == BoolV(false)
  {
    assert DigitsValue("0") == 0;
    assert "007"[..2] == "00" && "00"[..1] == "0";
    assert DigitsValue("007") == 7;
    DigitsNotBool("007");
    assert !IsDigit('-');
    assert Lower("-5")[0] == '-';
    assert Lower("TRUE") == "true";
    assert Lower("False") == "false";
  }

  /** What `set` did. */
  datatype SetOutcome =
    | SetUsage                                        // fewer than two arguments
    | Updated(cfg: map<string, Value>, saveFailure: Option<Exc>)

  /** `set <key> <value>`: `loaded` is what `config.load()` returned or raised, and
      `saveError` what `config.save(cfg)` raised, if anything. */
  method CmdSet(args: seq<string>, loaded: Result<map<string, Value>>, saveError: Option<Exc>)
    returns (out: SetOutcome)
    ensures |args| < 2 <==> out == SetUsage
    ensures |args| >= 2 ==>
              var start := if loaded.Ok? then loaded.value else map[];
              && out.cfg.Keys == start.Keys + {args[0]}
              && out.cfg[args[0]] == Coerce(args[1])
              && (forall k :: k in start && k != args[0] ==> out.cfg[k] == start[k])
              && out.saveFailure == saveError
  {
    if |args| < 2 {
      return SetUsage;
    }
    var key := args[0];
    var raw := args[1];
    var value: Value := StrV(raw);
    if Lower(raw) == "true" {
      value := BoolV(true);
    } else if Lower(raw) == "false" {
      value := BoolV(false);
    } else if IsDigits(raw) {
      if |raw| <= IntMaxStrDigits {
        value := IntV(DigitsValue(raw));
      }
    }
    var cfg: map<string, Value>;
    if loaded.Ok? {
      cfg := loaded.value;
    } else {
      cfg := map[];
    }
    cfg := cfg[key := value];
    out := Updated(cfg, saveError);
  }

  // ---- the runner ----

  const RunnerPath := "src.nomaanos.modules.runner"

  /** What `run <module>` did. */
  datatype RunOutcome =
    | RunUsage                           // no module name
    | RunnerUnavailable(e: Exc)          // importing the runner raised `e`
    | Printed(v: Value)                  // the plugin returned `v`, not None
    | Silent                             // the plugin returned None
    | RunFailed(name: string, e: Exc)    // "[ERROR] running module '<name>': <e>"

  /** `run <module>`: the runner imported from its fixed path is the one of
      src/nomaanos/modules/runner.py, whose module name is that path. The report lists the
      imports attempted, the runner first, and the plugin calls made. */
  method CmdRun(imports: Imports, args: seq<string>) returns (out: RunOutcome, trace: Report)
    ensures args == [] ==> out == RunUsage && trace.tried == [] && trace.calls == []
    ensures args != [] && !Importable(imports, RunnerPath) ==>
              out == RunnerUnavailable(Import(imports, RunnerPath).exc) && trace.tried == [RunnerPath] && trace.calls == []
    ensures args != [] && Importable(imports, RunnerPath) ==>
              var rep := ModulesRunner.RunSpec(imports, RunnerPath, args[0]);
              && trace == Report(rep.result, [RunnerPath] + rep.tried, rep.calls)
              && match rep.result
                 case Raised(e) => out == RunFailed(args[0], e)
                 case Ok(v) => out == if v == NoneV then Silent else Printed(v)
  {
    if args == [] {
      return RunUsage, Report(Ok(NoneV), [], []);
    }
    var name := args[0];
    var runner := Import(imports, RunnerPath);
    if runner.Raised? {
      return RunnerUnavailable(runner.exc), Report(Ok(NoneV), [RunnerPath], []);
    }
    var rep := ModulesRunner.Run(imports, RunnerPath, name);
    trace := Report(rep.result, [RunnerPath] + rep.tried, rep.calls);
    if rep.result.Raised? {
      out := RunFailed(name, rep.result.exc);
    } else if rep.result.value == NoneV {
      out := Silent;
    } else {
      out := Printed(rep.result.value);
    }
  }

  /** A plugin no candidate can import is reported as a failure of that name, after the
      runner and all three plugin candidates were attempted. */
  lemma UnknownPluginReported(imports: Imports, name: string)
    requires Importable(imports, RunnerPath)
    requires ModulesRunner.NoCandidateImports(imports, RunnerPath, name)
    ensures var rep := ModulesRunner.RunSpec(imports, RunnerPath, name);
      && rep.result.Raised? && rep.result.exc.kind == ImportError
      && [RunnerPath] + rep.tried == [RunnerPath] + ModulesRunner.Candidates(name)
  {
    ModulesRunner.UnknownNameRaises(imports, RunnerPath, name);
  }

  /** What `modules` did. */
  datatype ModulesOutcome = NoRunner(e: Exc) | Available(names: seq<string>)

  /** `modules`: the runner's own `list_modules` answers and never raises, so the package
      fallback is not reached. */
  method CmdModules(imports: Imports, dir: Listing) returns (out: ModulesOutcome)
    ensures !Importable(imports, RunnerPath) <==> out.NoRunner?
    ensures out.NoRunner? ==> out.e == Import(imports, RunnerPath).exc
    ensures Importable(imports, RunnerPath) ==>
              out == Available(if dir.Entries? then ModulesRunner.Listed(dir.names) else [])
  {
    var runner := Import(imports, RunnerPath);
    if runner.Raised? {
      return NoRunner(runner.exc);
    }
    var names := ModulesRunner.ListModules(dir);
    out := Available(names);
  }
}
