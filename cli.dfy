/** The `zuppa` command: turns the command line into the arguments of a
    `MainBody`, runs it, and turns what happened into an exit code. */
module Cli {
  import opened Wrappers
  import opened Errors
  import opened PyStr
  import opened Host
  import opened Body

  /** The command line as the argument parser delivers it. Options that were
      not given hold their sentinel defaults: `A` for the API key, `I` for
      the user id, `D` for the date and `M` for the methods. */
  datatype Options = Options(
    apiKey: string,
    noColor: bool,
    afterDate: string,
    identifier: string,
    noKeyring: bool,
    list: bool,
    methods: string,
    dryRun: bool,
    quiet: bool,
    version: bool,
    debug: string,
    files: seq<string>)

  /** The writer names selected by `-m`: the default writer when the option
      was not given, else the lower-cased option split at commas. */
  function MethodList(methods: string): (r: seq<string>)
    ensures methods == "M" ==> r == ["findercomment"]
    ensures methods != "M" ==> Join(r, ',') == Lower(methods)
    ensures |r| >= 1
    ensures forall k :: 0 <= k < |r| ==> ',' !in r[k]
  {
    if methods == "M" then ["findercomment"]
    else
      JoinSplit(Lower(methods), ',');
      Split(Lower(methods), ',')
  }

  /** `None` for the sentinel, the value itself otherwise. */
  function NoneIf(value: string, sentinel: string): Option<string>
  {
    if value == sentinel then None else Some(value)
  }

  /** The keyword arguments `main` builds its `MainBody` with. */
  function BodyArgs(opts: Options, methods: seq<string>): Args
  {
    Args(opts.files,
         NoneIf(opts.apiKey, "A"),
         NoneIf(opts.identifier, "I"),
         !opts.noKeyring,
         NoneIf(opts.afterDate, "D"),
         methods,
         opts.dryRun)
  }

  /** The exit code for what the main body reported. */
  function ExitCodeFor(exception: Option<Exc>): ExitCode
  {
    if exception.None? then Success
    else
      match exception.value
      case CannotProceed(code) => code
      case KeyboardInterrupt => UserInterrupt
      case UserCancelled => UserInterrupt
      case Other(_) => Exception
  }

  /** How the process ends: with an exit code, or with an exception that
      nothing caught. */
  datatype Termination = Exit(code: int) | Uncaught(exc: Exc)

  /** How the process ends and the writer calls it made. */
  datatype Outcome = Outcome(termination: Termination, calls: seq<WriteCall>)

  /** The whole command, from the command line and the machine to how the
      process ends. */
  function Program(opts: Options, env: Env): Outcome
  {
    if opts.version then Outcome(Exit(Code(Success)), [])
    else if opts.list then Outcome(Exit(Code(Success)), [])
    else
      var methods := MethodList(opts.methods);
      if !AllKnown(methods) then Outcome(Exit(Code(ExitCodeFor(Some(Other("KeyError"))))), [])
      else
        var r := RunSpec(BodyArgs(opts, methods), env);
        if r.error.Some? && !IsException(r.error.value) then Outcome(Uncaught(r.error.value), r.calls)
        else Outcome(Exit(Code(ExitCodeFor(r.error))), r.calls)
  }

  /** `main`: early exits for `-V` and `-l`, then a main body run whose
      exception, if any, selects the exit code. */
  method Execute(opts: Options, env: Env) returns (termination: Termination, calls: seq<WriteCall>)
    ensures Outcome(termination, calls) == Program(opts, env)
    ensures opts.version || opts.list ==> termination == Exit(0) && calls == []
  {
    if opts.version {
      return Exit(Code(Success)), [];
    }
    if opts.list {
      return Exit(Code(Success)), [];
    }
    var methods := MethodList(opts.methods);
    var exception: Option<Exc> := None;
    calls := [];
    if !AllKnown(methods) {
      // The constructor's lookup of an unknown name raises KeyError, which
      // the handler around it catches.
      exception := Some(Other("KeyError"));
    } else {
      var body := new MainBody(BodyArgs(opts, methods));
      var escaped := body.Run(env);
      calls := body.calls;
      if escaped.Some? {
        return Uncaught(escaped.value), calls;
      }
      exception := body.exception;
    }
    termination := Exit(Code(ExitCodeFor(exception)));
  }

  // ---------------------------------------------------------------------
  // Properties

  /** Splitting a comma-joined list of lower-case, comma-free names gives
      the names back (unless the join is the sentinel itself). */
  lemma MethodListRoundTrip(names: seq<string>)
    requires |names| >= 1
    requires forall k :: 0 <= k < |names| ==> ',' !in names[k]
    requires forall k, c :: 0 <= k < |names| && c in names[k] ==> !IsUpper(c)
    requires Join(names, ',') != "M"
    ensures MethodList(Join(names, ',')) == names
  {
    var s := Join(names, ',');
    forall c | c in s ensures !IsUpper(c) {
      JoinChars(names, ',', c);
    }
    LowerOfLower(s);
    SplitJoin(names, ',');
  }

  /** The sentinels become `None`, any other value passes through, and the
      keyring is used unless `-K` was given. */
  lemma SentinelsBecomeNone(opts: Options, methods: seq<string>)
    ensures BodyArgs(opts, methods).apiKey == None <==> opts.apiKey == "A"
    ensures BodyArgs(opts, methods).userId == None <==> opts.identifier == "I"
    ensures BodyArgs(opts, methods).afterDate == None <==> opts.afterDate == "D"
    ensures opts.apiKey != "A" ==> BodyArgs(opts, methods).apiKey == Some(opts.apiKey)
    ensures opts.identifier != "I" ==> BodyArgs(opts, methods).userId == Some(opts.identifier)
    ensures opts.afterDate != "D" ==> BodyArgs(opts, methods).afterDate == Some(opts.afterDate)
    ensures BodyArgs(opts, methods).useKeyring == !opts.noKeyring
    ensures BodyArgs(opts, methods).files == opts.files
    ensures BodyArgs(opts, methods).methods == methods
    ensures BodyArgs(opts, methods).dryRun == opts.dryRun
  {
  }

  /** No exception is success; `CannotProceed` exits with its own code; an
      interrupt is a user interrupt; anything else is an exception. */
  lemma ExitCodeChoice(exception: Option<Exc>)
    ensures exception.None? ==> ExitCodeFor(exception) == Success
    ensures exception.Some? && exception.value.CannotProceed? ==> ExitCodeFor(exception) == exception.value.code
    ensures exception == Some(KeyboardInterrupt) || exception == Some(UserCancelled) ==> ExitCodeFor(exception) == UserInterrupt
    ensures exception.Some? && exception.value.Other? ==> ExitCodeFor(exception) == Exception
  {
  }

  /** The process exits with 0 exactly when nothing was raised, or when a
      `CannotProceed` carried the success code itself. */
  lemma ExitZero(exception: Option<Exc>)
    ensures Code(ExitCodeFor(exception)) == 0 <==> exception == None || exception == Some(CannotProceed(Success))
  {
  }

  /** `-V` wins over everything; `-l` alone exits before a main body is
      built. Both exit with 0 and call no writer. */
  lemma EarlyExits(opts: Options, env: Env)
    ensures opts.version ==> Program(opts, env) == Outcome(Exit(0), [])
    ensures opts.list ==> Program(opts, env) == Outcome(Exit(0), [])
  {
  }

  /** The default writer is a known one. */
  lemma DefaultMethodKnown()
    ensures AllKnown(MethodList("M"))
  {
  }

  /** An unknown writer name ends the command with the exception code 6
      before any work is done. */
  lemma UnknownMethodExit(opts: Options, env: Env)
    requires !opts.version && !opts.list && !AllKnown(MethodList(opts.methods))
    ensures Program(opts, env) == Outcome(Exit(6), [])
  {
  }

  /** Without a network the command exits with 3 and calls no writer. */
  lemma NoNetworkExit(opts: Options, env: Env)
    requires !opts.version && !opts.list && AllKnown(MethodList(opts.methods))
    requires !env.networkUp
    ensures Program(opts, env) == Outcome(Exit(3), [])
  {
  }

  /** Without the keyring and with neither credential, the command exits
      with 2 and calls no writer. */
  lemma MissingCredentialsExit(opts: Options, env: Env)
    requires !opts.version && !opts.list && AllKnown(MethodList(opts.methods))
    requires env.networkUp && opts.noKeyring
    requires opts.apiKey in {"A", ""} && opts.identifier in {"I", ""}
    ensures Program(opts, env) == Outcome(Exit(2), [])
  {
  }

  /** A run that meets no exception exits with 0 after calling every
      selected writer once on every file to work on, files outer and
      writers inner. */
  lemma CleanRunSucceeds(opts: Options, env: Env)
    requires !opts.version && !opts.list && AllKnown(MethodList(opts.methods))
    requires RunSpec(BodyArgs(opts, MethodList(opts.methods)), env).error == None
    ensures var a := BodyArgs(opts, MethodList(opts.methods));
      && PreflightSpec(a, env).files.Some? && PreflightSpec(a, env).files.value != []
      && Clean(PreflightSpec(a, env).files.value, a.methods, env)
      && Program(opts, env)
         == Outcome(Exit(0), Product(PreflightSpec(a, env).files.value, MethodList(opts.methods), opts.dryRun, env))
  {
    RunSucceeds(BodyArgs(opts, MethodList(opts.methods)), env);
  }

  /** A `KeyboardInterrupt` met by the main body escapes both `run` and
      `main`: the process ends with the uncaught exception, never with an
      exit code. */
  lemma InterruptEscapes(opts: Options, env: Env)
    requires !opts.version && !opts.list && AllKnown(MethodList(opts.methods))
    requires RunSpec(BodyArgs(opts, MethodList(opts.methods)), env).error == Some(KeyboardInterrupt)
    ensures Program(opts, env)
         == Outcome(Uncaught(KeyboardInterrupt), RunSpec(BodyArgs(opts, MethodList(opts.methods)), env).calls)
  {
  }

  /** The exit code for a user interrupt comes only from `UserCancelled` or
      from a `CannotProceed` carrying that code: the `KeyboardInterrupt` test
      of the exit-code selection can never succeed. */
  lemma UserInterruptSources(opts: Options, env: Env)
    ensures Program(opts, env).termination == Exit(1) ==>
      && !opts.version && !opts.list && AllKnown(MethodList(opts.methods))
      && RunSpec(BodyArgs(opts, MethodList(opts.methods)), env).error
         in {Some(UserCancelled), Some(CannotProceed(UserInterrupt))}
  {
  }

  /** Whatever happens, an exit code is one of the documented ones. */
  lemma ExitCodesDocumented(opts: Options, env: Env)
    ensures Program(opts, env).termination.Exit? ==> 0 <= Program(opts, env).termination.code <= 6
  {
  }
}
