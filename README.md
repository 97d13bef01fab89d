# NomaanOS plugin dispatch, as a verified model

NomaanOS is a small command-line "OS" shell written in Python. Its `nomaan` command
selects a handler by the first word of argv. `set` coerces a value and stores it in the
configuration record. `modules` and `run` go through a plugin runner. A plugin is a
Python module with a `main` or `run` entrypoint. The repository holds four variants of
plugin listing and dispatch:

- the plugin runner `src/nomaanos/modules/runner.py` (module `ModulesRunner`);
- the package wrapper `src/nomaanos/modules/__init__.py` (module `ModulesPackage`);
- the package-level runner `src/nomaanos/runner.py` (module `PackageRunner`);
- the copy in the build tree, `build/lib/nomaanos/runner.py` (module `BuildRunner`).

The other two modelled files are the package shim `src/nomaanos/__init__.py` (module
`NomaanosPackage`) and the CLI `nomaan.py` (module `Cli`).

These variants differ in several ways, and the model states each of them:

- which files they list;
- whether they delete every ".py" or only the suffix;
- whether they sort, and whether before or after stripping;
- the order in which they try import paths and entrypoints;
- when they retry a call;
- whether a failure raises, becomes a message string or becomes an error record.

Python is abstracted in module `Py` (`python.dfy`):

- A plugin's entrypoint is a function with a parameter count, a count of defaulted
  parameters, and the outcome of its body: it returns a `Value` or raises an `Exc`.
- Calling a non-callable, or calling with an argument count the function does not
  accept, raises `TypeError` before the body runs.
- The import system is an oracle: a map from dotted path to "loads this module" or
  "raises this exception". A path missing from the map raises `ImportError`.
- Every dispatch returns a `Report`. It holds the outcome, the import paths attempted in
  order, and the calls made in order. The report is what makes "later candidates are
  not attempted", "`run` is never consulted" and "called twice" statable.
- A directory listing is an input: missing, raising, or the entry names in file-system
  order.

The remaining modules are `Text` (`str.replace`, slicing, ASCII `lower` and `isdigit`,
`int` and `str` on decimal digits), `Sorting` (Python's `sorted` on strings, an insertion
sort with the uniqueness of sorted permutations proved) and `Seqs` (filter and map).

The repository's own modules are composed, not oracled:

- `ModulesPackage.Run` delegates to `ModulesRunner.RunSpec`.
- `Cli.CmdRun` and `Cli.CmdModules` call `ModulesRunner.Run` and
  `ModulesRunner.ListModules`.
- For these modules the import oracle only says whether the import succeeds.

A reader might expect every listing to be sorted and never to raise, and every dispatch
to answer an unknown name with a "not found" result instead of raising. Where the code
does otherwise, the model follows the code:

- `ModulesRunner.Listed` returns names in the sorted order of the file names. This is
  not the sorted order of the names (`ModulesRunner.ListedCanBeUnsorted`).
- `BuildRunner.ListModules` does not sort, and it raises when the directory exists but
  cannot be listed.
- `ModulesRunner.Run` raises `ImportError` for an unknown name
  (`ModulesRunner.UnknownNameRaises`). `BuildRunner.RunModule` propagates an import
  failure of a listed name.
- The runner's relative candidate `.<name>` is imported with the runner's own module
  name as the package (`src/nomaanos/modules/runner.py:29`), and is resolved the way
  `importlib` resolves relative names (`Py.Resolve`). For an ordinary name it is
  `<runner module name>.<name>`, a child of the runner module, not a sibling
  (`ModulesRunner.RelativeCandidateIsChild`). The empty name gives "." and that is the
  runner itself; a name with a leading period climbs, so ".hello" next to
  `src.nomaanos.modules.runner` is its sibling `src.nomaanos.modules.hello`
  (`ModulesRunner.RelativeCandidateEdgeCases`).
- `BuildRunner.ListModules` keeps the directory order even for listings with ineligible
  entries (`BuildRunner.ListModulesAppend`).
- `set` keeps digit text longer than CPython's default conversion bound (4300 digits)
  as a string, because `int()` raises and the `except` swallows it (`Cli.Coerce`).

## Model

| member | source | states |
|---|---|---|
| Py.Call | src/nomaanos/modules/runner.py:71-76 | calling a non-callable or with an unacceptable argument count raises TypeError; otherwise the function body's outcome |
| Py.Import | src/nomaanos/modules/runner.py:28-31 | an import succeeds exactly when the path loads a module, and yields that module |
| Py.LeadingDots | src/nomaanos/modules/runner.py:27-29 | the number of leading periods of a name, its relative-import level |
| Py.RSplitBase | src/nomaanos/modules/runner.py:29 | dropping k trailing dotted components leaves a prefix of the package, and k = 0 leaves it whole |
| Py.RSplitBaseSome | src/nomaanos/modules/runner.py:29 | `rsplit('.', k)` yields k + 1 parts, so the climb succeeds, exactly when the package has at least k periods |
| Py.RSplitBaseCut | src/nomaanos/modules/runner.py:29 | the base ends just before the k-th period from the right: the part cut off holds exactly k periods and, for k > 0, starts with one |
| Py.DotsAppend | src/nomaanos/modules/runner.py:29 | the period count of a concatenation is the sum of the counts |
| Py.DotsLastDot | src/nomaanos/modules/runner.py:29 | text without a last period has no periods; cutting at the last period removes exactly one |
| Py.ResolveWithPackage | src/nomaanos/modules/runner.py:29 | with a package, resolution fails only on the climb, with ImportError "attempted relative import beyond top-level package", and a success ends with the name's text after its periods |
| Py.ResolveOutcome | src/nomaanos/modules/runner.py:29 | a relative name without a package raises TypeError; resolution succeeds exactly when the package has at least level - 1 periods, and otherwise raises ImportError "attempted relative import beyond top-level package"; the result ends with the name's text after its periods |
| Py.ImportModule | src/nomaanos/modules/runner.py:28-31 | a name without a leading period is imported as it is; a relative one is resolved against the package first |
| Py.Resolved | src/nomaanos/modules/runner.py:25-31 | the import table in which each candidate imports as `import_module(c, package)` would |
| Py.ResolvedImport | src/nomaanos/modules/runner.py:25-31 | looking a candidate up in the resolved table is importing it with the package |
| Py.ResolveChild | src/nomaanos/modules/runner.py:22-29 | "." followed by an ordinary name resolves to that name inside the package |
| Py.ImportModuleChild | src/nomaanos/modules/runner.py:22-29 | importing "." followed by an ordinary name with a package imports that name inside the package |
| Py.LeadingDotsAreDots | src/nomaanos/modules/runner.py:27-29 | every character before the level is a period |
| Py.LastDotIsLast | src/nomaanos/modules/runner.py:29 | the period found is the last one, and none is found only when there is none |
| Py.FirstImportableIs | src/nomaanos/modules/runner.py:25-36 | when every candidate before k fails and the k-th imports (or k is past the end), the first-success loop stops at k, has attempted the candidates up to k, and binds the k-th module |
| Py.ResolveLoneDot | src/nomaanos/modules/runner.py:22-29 | a lone "." resolves to the package itself |
| Py.ResolveClimbs | src/nomaanos/modules/runner.py:22-29 | "..hello" against src.nomaanos.modules.runner is src.nomaanos.modules.hello; against a top-level name it raises ImportError |
| Py.Attempted | src/nomaanos/modules/runner.py:25-36 | a first-success loop attempts a prefix of the candidates: all of them, or up to and including the first that imports, every earlier one failing |
| Py.FirstLoaded | src/nomaanos/__init__.py:23-28 | the result is None exactly when no candidate imports, and otherwise the module of the first candidate that imports |
| Text.RemoveAllAbsent | src/nomaanos/modules/runner.py:52 | deleting a pattern that does not occur leaves the string unchanged |
| Text.RemovePySuffix | src/nomaanos/modules/__init__.py:16 | when ".py" occurs only as the suffix, deleting every ".py" and dropping three characters both give the stem |
| Text.DoubleSuffix | src/nomaanos/modules/runner.py:52 | "a.py.py" becomes "a" when every ".py" is deleted but "a.py" when only the suffix is dropped |
| Text.RemoveAllCanLeaveOccurrence | build/lib/nomaanos/runner.py:9 | deleting every ".py" can leave an occurrence of ".py" behind: "a..pypy" becomes "a.py" |
| Text.NoDotNoPy | src/nomaanos/modules/runner.py:52 | a name without a period contains no ".py" |
| Text.DropLast | src/nomaanos/modules/__init__.py:16 | for a positive n, `s[:-n]` is the prefix of `s` that is n characters shorter, or empty |
| Text.Decimal | nomaan.py:63-65 | `str(n)` is a non-empty digit string without a leading zero |
| Text.DigitsValueDecimal | nomaan.py:63-65 | `int(str(n)) == n` |
| Sorting.Insert | src/nomaanos/modules/runner.py:50 | inserting into a sorted list keeps it sorted and adds exactly one element |
| Sorting.Sort | src/nomaanos/modules/__init__.py:23 | `sorted` returns a sorted permutation of its argument |
| Sorting.SortedPermutationUnique | src/nomaanos/runner.py:22 | two sorted permutations of the same list are equal, so `Sort` is Python's `sorted` |
| Sorting.SortMembers | src/nomaanos/runner.py:22 | sorting keeps exactly the same members |
| Sorting.SortExample | src/nomaanos/modules/runner.py:50 | "a-b.py" sorts before "a.py" |
| Sorting.LeTotal | src/nomaanos/modules/runner.py:50 | string order is total |
| Sorting.LeTransitive | src/nomaanos/modules/runner.py:50 | string order is transitive |
| Sorting.LeAntisymmetric | src/nomaanos/modules/runner.py:50 | string order is antisymmetric |
| ModulesRunner.ImportCandidate | src/nomaanos/modules/runner.py:27-31 | one attempt: a candidate with a leading period is imported relative to the runner's module name, any other as written |
| ModulesRunner.ImportCandidates | src/nomaanos/modules/runner.py:11-38 | tries nomaanos.modules.<name>, src.nomaanos.modules.<name>, then .<name> resolved against the runner's module name; returns the first that imports without attempting later ones; when all fail, raises ImportError carrying the relative candidate's error |
| ModulesRunner.RelativeCandidateIsChild | src/nomaanos/modules/runner.py:22-29 | for a non-empty name without a leading period, the relative candidate imports <runner module name>.<name> |
| ModulesRunner.RelativeCandidateEdgeCases | src/nomaanos/modules/runner.py:22-29 | the empty name's relative candidate "." imports the runner itself; ".hello" gives "..hello", which imports the runner's sibling src.nomaanos.modules.hello |
| ModulesRunner.RelativeCandidateNeedsPackage | src/nomaanos/modules/runner.py:29-34 | with an empty package name the relative candidate raises TypeError, which becomes the last error |
| ModulesRunner.Run | src/nomaanos/modules/runner.py:59-79 | imports the plugin, then calls `main`, else `run`, with no arguments; only a TypeError leads to a second call with the name; no entrypoint raises AttributeError |
| ModulesRunner.CallEntrypoint | src/nomaanos/modules/runner.py:66-79 | picks `main`, else `run`, calls it with no arguments and retries with the name only after a TypeError; a module with neither raises AttributeError |
| ModulesRunner.UnknownNameRaises | src/nomaanos/modules/runner.py:25-38 | a name no candidate imports raises ImportError carrying the relative candidate's error after all three candidates are attempted, and no plugin code runs |
| ModulesRunner.MainShadowsRun | src/nomaanos/modules/runner.py:68-78 | when the plugin has `main`, every call goes to `main` and there are at most two |
| ModulesRunner.RetryOnlyAfterTypeError | src/nomaanos/modules/runner.py:71-79 | the first call takes no arguments; the second call, with the name, happens exactly when the first raised TypeError, and its outcome is the result; no entrypoint raises AttributeError without any call |
| ModulesRunner.ListModules | src/nomaanos/modules/runner.py:40-57 | a listable directory gives the eligible files in sorted file-name order with every ".py" deleted; missing or unlistable gives [] |
| ModulesRunner.ListedMembers | src/nomaanos/modules/runner.py:51-52 | a name is listed exactly when some ".py" file other than __init__.py and runner.py strips to it |
| ModulesRunner.ListedCanBeUnsorted | src/nomaanos/modules/runner.py:50-53 | sorting before stripping lists "a.py", "a-b.py" as ["a-b", "a"], which is not sorted |
| ModulesRunner.ExampleFilter | src/nomaanos/modules/runner.py:51 | two ordinary plugin files both pass the filter, in order |
| ModulesRunner.ExampleStrip | src/nomaanos/modules/runner.py:52 | stripping "a-b.py" and "a.py" gives "a-b" and "a" |
| ModulesPackage.ModuleFiles | src/nomaanos/modules/__init__.py:9-18 | a listing that raises yields nothing; otherwise at most one name per entry |
| ModulesPackage.ModuleFilesMembers | src/nomaanos/modules/__init__.py:11-16 | a name is yielded exactly when that name plus ".py" is an entry other than __init__.py and runner.py |
| ModulesPackage.ListModules | src/nomaanos/modules/__init__.py:9-25 | the result is sorted and is a permutation of the eligible files with their last three characters dropped; a failed listing gives [] |
| ModulesPackage.ListModulesMembers | src/nomaanos/modules/__init__.py:11-16 | a name is listed exactly when that name plus ".py" is an eligible file |
| ModulesPackage.DropPyOf | src/nomaanos/modules/__init__.py:16 | dropping the suffix of x + ".py" gives x |
| ModulesPackage.DropPyRestores | src/nomaanos/modules/__init__.py:16 | a ".py" file is its dropped name plus ".py" |
| ModulesPackage.SameNamesAsRunner | src/nomaanos/modules/__init__.py:20-25 | where no file has ".py" before its suffix, the package and the runner list the same multiset of names |
| ModulesPackage.OrderDiffersFromRunner | src/nomaanos/modules/__init__.py:23 | sorting after stripping gives ["a", "a-b"] where the runner gives ["a-b", "a"] |
| ModulesPackage.ExampleFiles | src/nomaanos/modules/__init__.py:9-16 | "a.py", "a-b.py" yield "a", "a-b" in listing order |
| ModulesPackage.RelativeRunner | src/nomaanos/modules/__init__.py:27-36 | the relative runner is found only when the installed one is not and the package has a name; it is then <package>.runner; with an empty package name it is never found |
| ModulesPackage.Run | src/nomaanos/modules/__init__.py:38-69 | `run` never raises |
| ModulesPackage.Delegate | src/nomaanos/modules/__init__.py:40-45 | the delegating path never raises |
| ModulesPackage.WithoutRunner | src/nomaanos/modules/__init__.py:27-47 | when neither runner path imports, both were attempted and `run` takes the direct path |
| ModulesPackage.Fallback | src/nomaanos/modules/__init__.py:46-69 | the direct path never raises |
| ModulesPackage.DelegationKeepsValues | src/nomaanos/modules/__init__.py:40-45 | with a runner, the runner's value is returned unchanged and only its exceptions become "runner.run failed: ...", with the same plugin calls |
| ModulesPackage.UnknownNameThroughRunner | src/nomaanos/modules/__init__.py:40-45 | with a runner present, an unknown name yields "runner.run failed: " followed by the runner's ImportError message, and no plugin code runs |
| ModulesPackage.FallbackEntrypoints | src/nomaanos/modules/__init__.py:53-69 | without a runner, `main` is preferred and retried with the name exactly after a TypeError; `run` is called once with the name; neither gives the fixed message |
| ModulesPackage.FallbackMessages | src/nomaanos/modules/__init__.py:27-66 | without a runner, both runner paths as written and then nomaanos.modules.<name> are attempted; an import failure gives "Failed to import nomaanos.modules.<name>: ..."; a value from `main()`, from the retry `main(name)` or from `run(name)` passes through unchanged; a non-TypeError from `main()` gives "module <name> main() error: ..."; a failing retry gives "module <name> main() failed: ..."; a failing `run(name)` gives "module <name> run() error: ..." |
| PackageRunner.ListModules | src/nomaanos/runner.py:10-25 | failed discovery gives exactly ["hello", "sysinfo"]; otherwise the result is sorted, a permutation of the names not starting with "_", and has exactly those members |
| PackageRunner.Info | src/nomaanos/runner.py:27-34 | the record has exactly the keys project, time, user, python and platform, with project "NomaanOS" and user "unknown" |
| PackageRunner.Run | src/nomaanos/runner.py:36-70 | an empty or missing name returns `info()` with no import; otherwise exactly nomaanos.modules.<name> is attempted; it raises only when the first `main()` raises something other than TypeError; a callable `main` whose first call does not raise TypeError is called once and its outcome, value or exception, is the result |
| PackageRunner.CallEntrypoint | src/nomaanos/runner.py:49-70 | the result raises exactly when a callable `main` is present and its first call raises something other than TypeError; such a first call is otherwise the result as it is; a callable module is called with no arguments when neither entrypoint is callable |
| PackageRunner.TypeErrorRetryIsFutile | src/nomaanos/runner.py:51-58 | after a TypeError, the same zero-argument call is repeated, fails the same way, and the result is the "calling main() failed" record |
| PackageRunner.EntrypointChoice | src/nomaanos/runner.py:50-70 | a callable `main` is preferred; `run()` is used only without one, and its failure is the "calling run() failed" record; no entrypoint gives "no callable entrypoint in module" |
| PackageRunner.ImportFailureIsRecord | src/nomaanos/runner.py:44-48 | an import failure returns {"error": "cannot import module <name>: ..."} and calls nothing |
| BuildRunner.ListModules | build/lib/nomaanos/runner.py:6-10 | a missing directory gives []; a directory that cannot be listed raises; otherwise at most one name per entry, and a name is listed exactly when some eligible file gives it with every ".py" deleted |
| BuildRunner.ListModulesAppend | build/lib/nomaanos/runner.py:9-10 | the listing of two runs of entries is the listing of the first followed by that of the second, so directory order is kept |
| BuildRunner.ListModulesSingle | build/lib/nomaanos/runner.py:9-10 | one entry contributes its name with every ".py" deleted when eligible, and nothing otherwise |
| BuildRunner.RunModule | build/lib/nomaanos/runner.py:12-21 | a listing that raises propagates with no import; at most the one path src.nomaanos.modules.<name> is imported, and its failure propagates; at most one call, `main()`, whose outcome is the result |
| BuildRunner.KeepsListingOrder | build/lib/nomaanos/runner.py:6-10 | with ordinary file names, one name per file comes out in directory order with the suffix dropped |
| BuildRunner.FilterKeepsAll | build/lib/nomaanos/runner.py:10 | the filter keeps a listing of eligible files whole |
| BuildRunner.RunnerListed | build/lib/nomaanos/runner.py:9-10 | "runner.py" is listed, and the directory order is kept |
| BuildRunner.ListIsTheGate | build/lib/nomaanos/runner.py:12-16 | no import is attempted unless an eligible file strips to the name; an unlisted name gets "Module '<name>' not found." |
| BuildRunner.MainOrMessage | build/lib/nomaanos/runner.py:16-21 | a module without `main` gets "Module '<name>' has no main() function."; otherwise `main()` is called once with no arguments and its outcome is the result |
| NomaanosPackage.TryImport | src/nomaanos/__init__.py:15-28 | tries nomaanos.X, X, src.nomaanos.X, src.X and returns the first module that imports, or None when all fail |
| NomaanosPackage.Load | src/nomaanos/__init__.py:31-67 | binds the main module (main, else core, else runner), the runner module (runner, else the main module) and the exported `main` |
| NomaanosPackage.RunnerIffMain | src/nomaanos/__init__.py:31-32 | a runner module is bound exactly when a main module is, which is exactly when one of main, core and runner imports |
| NomaanosPackage.MainModule | src/nomaanos/__init__.py:31 | the first of main, core and runner that imports, and None exactly when none does |
| NomaanosPackage.RunnerModule | src/nomaanos/__init__.py:32 | runner when it imports, otherwise the main module; None exactly when there is no main module |
| NomaanosPackage.GetMainCallable | src/nomaanos/__init__.py:35-59 | None exactly without a main module, or when the main module has no callable `main`, is not callable and has no callable `run`; never the stub |
| NomaanosPackage.ExportedMain | src/nomaanos/__init__.py:35-67 | the exported `main` is the stub exactly when no callable is found, and always without a main module |
| NomaanosPackage.MainPreference | src/nomaanos/__init__.py:39-67 | a callable `main` attribute is preferred, then the module object when callable, then the `run` wrapper, and the stub only when none exists |
| NomaanosPackage.CallMain | src/nomaanos/__init__.py:48-65 | the stub always returns without calling anything; the `run` wrapper makes one or two calls |
| NomaanosPackage.WrapperRule | src/nomaanos/__init__.py:48-57 | for any callable `run`, the wrapper first calls `run()` for a zero-parameter `run` and `run("")` otherwise; a second call happens exactly when the first raised anything, is `run()`, and its outcome is the result; arguments to the wrapper raise TypeError |
| NomaanosPackage.StubEchoesArguments | src/nomaanos/__init__.py:64-65 | the stub returns a record with exactly the keys error and args, the fixed message, and its positional arguments together with an empty keyword record |
| NomaanosPackage.WrapperRetriesWithoutArguments | src/nomaanos/__init__.py:50-57 | a one-parameter `run` that raises is called with "" and then with no arguments, which raises TypeError |
| NomaanosPackage.Run | src/nomaanos/__init__.py:69-99 | no runner module raises RuntimeError "no runner module found ..."; a runner without a callable `run` that is not callable itself raises "runner has no callable run" |
| NomaanosPackage.RunRetryChain | src/nomaanos/__init__.py:79-92 | a callable `run` is first called as its signature says; a first call that returns is the only one; after any exception `run(name)` follows; a third call `run()` happens exactly when that raised TypeError, and its outcome is the result; otherwise the second call's outcome is |
| NomaanosPackage.RunCallableModule | src/nomaanos/__init__.py:93-98 | without a callable `run`, a callable runner module is called with the name, and called again with no arguments exactly when that raised TypeError, that call's outcome being the result |
| NomaanosPackage.RunArity | src/nomaanos/__init__.py:79-86 | the first call takes no arguments for a zero-parameter `run` and the name otherwise; there is one call exactly when it returns |
| NomaanosPackage.FailingRunCalledTwice | src/nomaanos/__init__.py:87-92 | a one-parameter `run` that raises something other than TypeError is called twice with the name, and that exception propagates |
| NomaanosPackage.FailingZeroParameterRunCalledThrice | src/nomaanos/__init__.py:81-92 | a zero-parameter `run` that raises is called as run(), run(name), run(), and its exception propagates |
| NomaanosPackage.FirstProvider | src/nomaanos/__init__.py:103-105 | the first provider name whose module imports with a callable of that name, every earlier one lacking it |
| NomaanosPackage.Info | src/nomaanos/__init__.py:101-117 | providers info, sysinfo, get_info, then the main and the runner module's `info`; the first found is called |
| NomaanosPackage.ModuleInfo | src/nomaanos/__init__.py:110-117 | the main module's callable `info` is called first, then the runner module's; a raise becomes the "info() raised" record; neither gives the fixed record |
| NomaanosPackage.FirstProviderIs | src/nomaanos/__init__.py:102-108 | when every provider name before k lacks its callable and the k-th has it (or k is past the end), the search stops at k |
| NomaanosPackage.NoProviderFallback | src/nomaanos/__init__.py:117 | with no provider anywhere, {"project": "nomaanos", "note": "no info() provider found"} is returned |
| NomaanosPackage.InfoPluginFirst | src/nomaanos/__init__.py:103-109 | an `info` plugin wins over every other provider, and its exception becomes {"error": "info() raised: ..."} |
| NomaanosPackage.ModulesAfterPlugins | src/nomaanos/__init__.py:111-116 | the modules are asked only when no plugin provides, the main module before the runner module |
| Cli.Select | nomaan.py:118-139 | argv with only the program name prints usage; each of info, hello, config, set, modules and run selects its handler with the remaining words; any other word is Unknown with that word |
| Cli.SelectIsInjective | nomaan.py:126-139 | two different command words never select the same handler |
| Cli.HelloName | nomaan.py:39 | `hello` greets its first argument, or "Nomaan" without one |
| Cli.Coerce | nomaan.py:57-67 | "true" and "false" in any case become booleans; any other non-empty all-digit text of at most 4300 digits becomes its integer; longer digit text and everything else stays the original string |
| Cli.DigitsNotBool | nomaan.py:59-63 | digit text is never read as a boolean |
| Cli.CoerceDecimal | nomaan.py:63-65 | the decimal text of any natural number of at most 4300 digits is stored as that number |
| Cli.CoerceExamples | nomaan.py:57-67 | "007" becomes 7, "" and "-5" stay strings, "TRUE" and "False" become booleans |
| Cli.CmdSet | nomaan.py:51-77 | fewer than two arguments give usage and no update; otherwise the key is bound to the coerced value, every other loaded key is unchanged, a failed load starts from the empty record, and a failed save is reported |
| Cli.CmdRun | nomaan.py:100-116 | no argument gives usage with no import; an unavailable runner is reported; otherwise the runner runs the name, a None result prints nothing and an exception is reported under the name |
| Cli.UnknownPluginReported | nomaan.py:111-116 | an unknown plugin is an ImportError, reported after the runner and all three candidates were attempted |
| Cli.CmdModules | nomaan.py:79-98 | without a runner nothing is listed; with one, the runner's listing is printed |

## Left out

- Printing. Each command's printed text is modelled as an outcome value (`Cli.RunOutcome`, `Cli.SetOutcome`, `Cli.ModulesOutcome`).
- The exact text of wrapped exceptions. A modelled `Exc` carries the message `str(e)` would render, and only the fixed prefixes and the name interpolation are modelled.
- The real file system, `importlib`, `pkgutil`, `os.listdir`, `os.path.isdir` and `inspect.signature`. They are inputs: a `Listing`, an import oracle, and a parameter count on each function.
- Exceptions that do not derive from `Exception`, such as `SystemExit` and `KeyboardInterrupt`, are not modelled. Every `Exc` is caught by `except Exception`. In Python those classes pass through every `except Exception`, so a plugin calling `sys.exit()` ends the dispatch instead of being reported or retried.
- ModulesPackage.Run: "never raises" holds only for exceptions derived from `Exception`. A `SystemExit` raised by a plugin escapes it.
- Py.Call: the outcome of a plugin function's body does not depend on the argument values, only on whether the argument count is accepted. The same function always gives the same outcome.
- Keyword arguments, `*args` parameters and `inspect.signature` raising are not modelled. `len(sig.parameters)` is the parameter count of `Fn`.
- `cmd_info` and `cmd_config` only print the result of `core.info()` and `config.load()`. src/nomaanos/core.py and src/nomaanos/config.py are not part of this model, so neither are those two commands.
- `hello`'s greeting: `Cli.HelloName` models only the choice of name, because the greeting comes from core.py.
- `cmd_run`'s "runner missing run()" branch: the runner imported from `src.nomaanos.modules.runner` is src/nomaanos/modules/runner.py, which always defines `run`.
- `cmd_modules`'s fallback to `src.nomaanos.modules`: that runner's `list_modules` never raises.
- The modules' own import-time side effects, and `get_runner_module`, which only returns the bound runner module.
- `NomaanosPackage.Load` binds the package's names once, from one import oracle. Later changes to `sys.modules` are not modelled.
- Cli.Coerce: the 4300-digit bound is CPython's default since 3.11 and the 3.7.14, 3.8.14, 3.9.14 and 3.10.7 security releases. Older releases convert digit text of any length, and `sys.set_int_max_str_digits` or `PYTHONINTMAXSTRDIGITS` can change the bound; neither is modelled.
- ModulesRunner.RunSpec: for the empty name the relative candidate imports the runner itself, whose `run` then runs again with the empty name. The recursion until Python's stack limit is not modelled: the runner module's `run` is an oracle function like any plugin's.
- Py.ImportModule: whether the resolved path can be imported is left to the import oracle. That covers `<runner module name>.<name>` failing because the runner is a module, not a package.
- Unicode semantics of `str.lower` and `str.isdigit`: the model is ASCII only.
- PackageRunner.Run: a `name` that is falsy but not a string (`0`, `[]`) is not modelled; the name is a string or None.
- src/nomaanos/core.py, config.py and both sysinfo plugins: clock, environment, platform and /proc readings. `PackageRunner.Info` takes the clock and platform strings as parameters.
- test_info.py, build/lib/nomaanos/main.py, build/lib/nomaanos/__init__.py, build/lib/nomaanos/modules/__init__.py and src/nomaanos/modules.py: a subprocess harness, argv glue and one-line forwarding. They are not part of this model.
