# Zuppa: a Dafny model of the command's decision layer

Zuppa ("Zotero URI PDF Property Annotator") writes the Zotero item URI of
each PDF file in a Zotero library into that file: into its Finder comment,
or into its PDF Subject or Producer field. This project models the
decisions the command makes and proves properties about them. The network,
Zotero, file-system and PDF effects around those decisions are modelled
only as given functions.

The model has three parts.

- **The command** (`cli.dfy`, module `Cli`, from `zuppa/__main__.py`).
  - `-V` and `-l` exit early.
  - The `-m` option becomes a list of writer names.
  - The sentinel defaults `A`, `I` and `D` become `None`.
  - A `MainBody` is built and run.
  - The exception it reports selects one of the documented exit codes (module `Errors`).
  - `Cli.Program` is the reference definition of the whole command. `Cli.Execute` is the command written as a method, and it is proved equal to `Program`.
- **The main body** (`main_body.dfy`, module `Body`, from `zuppa/main_body.py`). It is a class, `Body.MainBody`, whose methods update its fields in place.
  - The constructor builds one writer per method name.
  - `DoPreflight` does the following in order:
    - checks the network, then the credentials, then for file arguments that look like options;
    - parses the date;
    - connects to Zotero, which can raise;
    - gathers the PDF files in a loop;
    - when a date was given, filters the raw file arguments by date in a second loop and replaces the gathered list with the result;
    - refuses an empty list.
  - `DoMainWork` and `WriteFile` hand every file to every writer in two nested loops. Each call is appended to a `calls` trace of `WriteCall(file, writer, uri, dryRun)` records.
  - `Run` stores an `Exception` in `exception`. A `KeyboardInterrupt` is not an `Exception`, so it escapes `Run`, and the model returns it.
  - Each method is proved against a specification function: `PreflightSpec`, `DispatchAll`/`WriteAll` and `RunSpec`. The lemmas about those functions state what the source promises.
- **The writer base class** (`base.dfy`, module `Base`, from `zowie/methods/base.py`).
  - `__str__`, `__repr__` and the rich comparison operators are written as functions over the writer's name and its class chain.
  - Python's string `<` is `PyStr.Less` (`pystr.dfy`). It is proved a strict total order.

The machine the command runs on is the value `Host.Env` (`host.dfy`). It supplies:

- whether the network is up;
- `isfile`, `isdir`, the file name extension and the PDF files inside a directory;
- the date parser (a date becomes an integer time);
- each path's modification time or the exception `stat()` raises;
- the exception the Zotero connection raises, if any;
- each file's item URI or the exception the record lookup raises;
- the exception each writer raises on each file, if any.

Three behaviours of the source are modelled as written:

- With `-d`, the date filter walks the raw file arguments (`self.files`), not the gathered PDF files (`self._files`), and its result replaces the gathered list (`Body.PreflightWithDate`, `Body.DateFilterKeepsDirectory`). A PDF file found inside a directory argument is therefore never worked on when a date is given, while the directory itself can be.
- Preflight's unknown-method check can never fire. The constructor already raises `KeyError` when it looks up an unknown name, and `main` turns that into exit code 6 (`Cli.UnknownMethodExit`). In `Body.MainBody.DoPreflight` the branch is a proved-dead `assert false`.
- `__ne__` calls a module-level `__eq__` that does not exist, so it always raises `NameError` (`Base.NeAsWritten`, `Base.NeNeverReturns`).

## Model

| member | source | states |
|---|---|---|
| Errors.Code | zuppa/__main__.py:183-189 | each exit code is an integer from 0 to 6, and 0 means success and nothing else |
| Errors.CodeInjective | zuppa/__main__.py:183-189 | distinct exit codes exit with distinct integers |
| PyStr.Lower | zuppa/__main__.py:218 | `str.lower` keeps the length, turns each upper-case letter into its lower-case partner (code point plus 32), leaves no upper-case letter and changes no other character |
| PyStr.LowerIdempotent | zuppa/__main__.py:218 | lower-casing twice is lower-casing once |
| PyStr.Split | zuppa/__main__.py:218 | `str.split(',')` gives at least one piece, and no piece contains the separator |
| PyStr.JoinSplit | zuppa/__main__.py:218 | joining the pieces of a split with the separator gives back the string |
| PyStr.SplitJoin | zuppa/__main__.py:218 | splitting a join of separator-free pieces gives back the pieces |
| PyStr.LessIrreflexive | zowie/methods/base.py:52-53 | no name is less than itself under string `<` |
| PyStr.LessAsymmetric | zowie/methods/base.py:52-53 | string `<` never holds in both directions |
| PyStr.LessTransitive | zowie/methods/base.py:52-53 | string `<` is transitive |
| PyStr.LessTotal | zowie/methods/base.py:41-45 | two names are equal or one is less than the other |
| Cli.MethodList | zuppa/__main__.py:218 | the sentinel `M` gives `['findercomment']`; otherwise the list joined with `,` is the lower-cased option; the list is never empty and its names hold no comma |
| Cli.MethodListRoundTrip | zuppa/__main__.py:218 | a comma-joined list of lower-case, comma-free names is split back into exactly those names |
| Cli.DefaultMethodKnown | zuppa/__main__.py:218 | the default writer is a known one |
| Cli.SentinelsBecomeNone | zuppa/__main__.py:225-231 | `A`, `I` and `D` become `None` (both directions), other values pass through, `use_keyring` is `not no_keyring`, and files, methods and dry run are passed on unchanged |
| Cli.EarlyExits | zuppa/__main__.py:211-216 | `-V` exits with 0 before anything else; `-l` exits with 0 before a main body is built; neither calls a writer |
| Cli.ExitCodeChoice | zuppa/__main__.py:240-251 | no exception gives success, `CannotProceed` gives its own code, `KeyboardInterrupt` and `UserCancelled` give user interrupt, any other exception gives the exception code |
| Cli.ExitZero | zuppa/__main__.py:240-257 | the exit status is 0 exactly when nothing was raised or a `CannotProceed` carried the success code |
| Cli.ExitCodesDocumented | zuppa/__main__.py:179-189 | whenever the command exits with a code, the code is one of the documented 0 to 6 |
| Cli.UnknownMethodExit | zuppa/__main__.py:224-251 | an unknown writer name raises `KeyError` while the body is built; the command exits with 6 and calls no writer |
| Cli.NoNetworkExit | zuppa/__main__.py:224-244 | without a network the command exits with 3 and calls no writer |
| Cli.MissingCredentialsExit | zuppa/__main__.py:224-244 | with `-K` and with neither credential given, the command exits with 2 and calls no writer |
| Cli.CleanRunSucceeds | zuppa/__main__.py:224-257 | a run that raises nothing exits with 0 after calling every selected writer once per file, files outer and writers inner |
| Cli.InterruptEscapes | zuppa/__main__.py:233-245 | a `KeyboardInterrupt` met by the main body escapes `run` and `main`: the process ends with the uncaught exception, after the writer calls made so far |
| Cli.UserInterruptSources | zuppa/__main__.py:240-247 | exit code 1 comes only from `UserCancelled` or a `CannotProceed` carrying that code, so the `KeyboardInterrupt` test never succeeds |
| Cli.Execute | zuppa/__main__.py:211-263 | the command's flow ends exactly as `Program` says (exit code or uncaught exception, and the writer calls made); `-V` and `-l` exit with 0 and call nothing |
| Body.MainBody.constructor | zuppa/main_body.py:43-59 | the fields hold the keyword arguments, `exception` is `None`, and there is one writer per method name in the same order |
| Body.MainBody.Run | zuppa/main_body.py:62-72 | the new state is what preflight and then the main work leave; an `Exception` is stored in `exception` and not propagated; a `KeyboardInterrupt` escapes |
| Body.MainBody.DoPreflight | zuppa/main_body.py:81-141 | `after_date`, `_files` and the exception raised are those of `PreflightSpec` |
| Body.MainBody.DoMainWork | zuppa/main_body.py:144-156 | the calls appended and the exception raised are those of `DispatchAll` over `_files` and the writers |
| Body.MainBody.WriteFile | zuppa/main_body.py:155-156 | the calls appended and the exception raised are those of `WriteAll` for one file |
| Body.NoNetworkFirst | zuppa/main_body.py:84-86 | without a network, preflight raises `CannotProceed(no_network)` before any other check and changes nothing |
| Body.CredentialsRule | zuppa/main_body.py:95-97 | with a network, no keyring and neither credential, preflight raises `CannotProceed(bad_arg)` whatever the files; without option-like files, the argument checks pass exactly when the keyring is used or an API key or a user id is given |
| Body.OptionLikeRule | zuppa/main_body.py:98-100 | once the credentials pass, preflight raises `CannotProceed(bad_arg)` exactly when some file argument starts with `-` |
| Body.ArgumentErrorChangesNothing | zuppa/main_body.py:84-100 | a failed argument check leaves `_files` unassigned and `after_date` as given |
| Body.GatherOne | zuppa/main_body.py:118-125 | a regular `.pdf` file contributes itself, a directory its PDF files, anything else nothing |
| Body.GatherConcat | zuppa/main_body.py:116-125 | gathering keeps argument order: the list for `a + b` is the list for `a` followed by the list for `b` |
| Body.GatherMembership | zuppa/main_body.py:116-125 | a path is gathered exactly when some argument contributes it |
| Body.KeptIsNotBefore | zuppa/main_body.py:128-137 | the date filter fails exactly when some argument cannot be `stat`ed; otherwise it keeps, in order, the arguments whose modification time is not before the date |
| Body.NotBeforeMembership | zuppa/main_body.py:130-136 | an argument is kept exactly when it can be `stat`ed and its modification time is not before the date |
| Body.PreflightWithoutDate | zuppa/main_body.py:116-141 | without a date, a successful preflight works on the gathered files and leaves `after_date` as given |
| Body.PreflightWithDate | zuppa/main_body.py:102-137 | with a date, a successful preflight stores the parsed date and works on the raw arguments not older than it, replacing the gathered list; every file worked on is a file argument |
| Body.DateFilterKeepsDirectory | zuppa/main_body.py:116-137 | for a directory argument holding one PDF file, the gathered list is that PDF file, but with a date the directory itself becomes the only file worked on |
| Body.PreflightNonEmpty | zuppa/main_body.py:139-141 | when preflight returns normally, `_files` is assigned and non-empty |
| Body.WriteAllClean | zuppa/main_body.py:155-156 | one file's round of writers raises nothing exactly when no writer raises, and then each writer was called once, in list order |
| Body.WriteAllFirstFailure | zuppa/main_body.py:155-156 | when writer `j` is the first to raise, the round has called writers `0` to `j` in list order and ends with that writer's exception |
| Body.WriteAllSound | zuppa/main_body.py:155-156 | every call in a round is for that file and URI, a configured writer and the dry-run flag |
| Body.DispatchClean | zuppa/main_body.py:151-156 | the main work raises nothing exactly when no record lookup and no writer raises, and then its calls are the product: files outer, writers inner |
| Body.DispatchSound | zuppa/main_body.py:151-156 | every call made pairs a file worked on with a configured writer and that file's URI |
| Body.ProductLength | zuppa/main_body.py:151-156 | a clean main work makes one call per file and writer |
| Body.ProductAt | zuppa/main_body.py:151-156 | the call for the `i`th file and `j`th writer is at position `i * len(writers) + j` |
| Body.RunSucceeds | zuppa/main_body.py:62-72 | a run that raises nothing worked on a non-empty file list and called every writer once per file, files outer and writers inner |
| Body.PreflightFailureStopsRun | zuppa/main_body.py:66-68 | when preflight raises, no writer is called and the run reports preflight's exception |
| Base.StrReprAreName | zowie/methods/base.py:33-38 | `str` and `repr` are both the writer's name |
| Base.TypeGuards | zowie/methods/base.py:41-74 | `==`, `>`, `<=` and `>=` return `NotImplemented` exactly for an operand of another type; `<` checks no type and compares the names |
| Base.EqIsNameEquality | zowie/methods/base.py:41-45 | for same-type operands, `==` holds exactly when the names are equal |
| Base.GtIsFlippedLt | zowie/methods/base.py:56-60 | `a > b` is `b < a` |
| Base.LeGeAreNegations | zowie/methods/base.py:63-74 | `a <= b` is `not a > b` and `a >= b` is `not a < b`; each is the strict comparison or equality |
| Base.Trichotomy | zowie/methods/base.py:41-60 | for same-type operands exactly one of `a < b`, `a == b`, `a > b` holds |
| Base.LtStrictOrder | zowie/methods/base.py:52-53 | `<` on writers is irreflexive and transitive |
| Base.NeNeverReturns | zowie/methods/base.py:48-49 | `!=` raises `NameError` for every pair of operands and never returns a value |

## Left out

- Terminal output, colours and messages (`UI`, `inform`, `warn`, `alert_fatal`) are not modelled. They are I/O, and no decision depends on them.
- Argument parsing by `plac` is not modelled. The model starts from the parsed options, `Cli.Options`.
- Debug logging, `faulthandler`, the `SIGUSR1` debugger hook and `config_interrupt` are process plumbing and are not modelled. Because `config_interrupt` is absent, `UserCancelled` reaches the model only as an exception some host function raises.
- `MainBody.stop` does nothing and is not modelled.
- The network check, the Zotero connection, record lookup, `isfile`/`isdir`, `files_in_directory`, `stat()`, `parsed_datetime` and the writers' effects on PDF files and Finder comments are given functions in `Host.Env`, not behaviour. A writer is known by its name. Listing a directory is assumed never to raise.
- Times are integers. Time zones and the `replace(tzinfo=...)` step of the date filter are not modelled.
- Body.MainBody.DoPreflight: a date that cannot be parsed leaves `after_date` as given. If `parsed_datetime` returned `None` instead of raising, the source would store `None` before `strftime` fails. The exit code is the same either way.
- Body.MainBody.DoPreflight: the unreachable unknown-method branch is a proved-dead `assert false`. Its undefined `methods` name and its `exit` call are not modelled.
- Body.MainBody.DoMainWork: the dry-run warning printed at the start of the main work (in every run, dry or not) is output only and is not modelled.
- Body.MainBody.Run: `exception` holds the raised exception, not the `sys.exc_info()` triple.
- Body.MainBody.WriteFile: the inner loop over the writers is a method of its own; in the source it is nested inside `_do_main_work`.
- The set of known writer names is the one the help text lists (`findercomment`, `pdfsubject`, `pdfproducer`). `zuppa/methods/__init__.py` is not part of this model.
- The `ExitCode` enumeration and the exception classes come from `zuppa/exit_codes.py` and `zuppa/exceptions.py`, which are not part of this model. The exit code values follow the help text.
- Errors.IsException: assumes `CannotProceed` and `UserCancelled` derive from `Exception`, so `run` catches them, and that only `KeyboardInterrupt` does not. If `UserCancelled` derived from `KeyboardInterrupt` or `BaseException` instead, it would escape `run` and `main` uncaught rather than exit with 1.
- Body.MainBody.constructor: its `requires` that every method name is known stands for the `KeyError` that `KNOWN_METHODS[name]` raises on an unknown name. `Cli.Execute` models that `KeyError` where the constructor is called.
- PyStr.Lower: lower-cases ASCII letters only. Python's `str.lower` also folds other upper-case characters.
- Base.Eq: Python's fallback to the reflected operator after `NotImplemented` is not modelled. The class chain assumes single inheritance.
- Base.NeAsWritten: `!=` is modelled only as raising `NameError`, not as an operator.
- The abstract `name`, `description` and `write_link` declarations have no behaviour and are not modelled. Callers use `write_uri(file, uri, dry_run)` while the base class declares `write_link(file, uri, dry_run, overwrite)`. The model follows the callers.
- `zuppa/methods/pdfproducer.py` only sets the Producer field through a PDF library and writes the file unless in dry-run mode. It is not modelled beyond the writer calls in the trace.
