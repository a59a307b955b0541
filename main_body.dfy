/** `MainBody`: checks the options, gathers the PDF files to work on and
    hands every file to every URI writer. */
module Body {
  import opened Wrappers
  import opened Errors
  import opened PyStr
  import opened Host

  /** The names of the URI writers the command knows, as the help text lists
      them. */
  const KnownMethods: set<string> := {"findercomment", "pdfsubject", "pdfproducer"}

  /** Every name has a writer. */
  predicate AllKnown(methods: seq<string>)
  {
    forall m :: m in methods ==> m in KnownMethods
  }

  /** The value of `after_date`: the user's text, until preflight replaces
      it with the parsed time. */
  datatype DateArg = Given(text: string) | Parsed(time: int)

  /** The keyword arguments a `MainBody` is built with. */
  datatype Args = Args(
    files: seq<string>,
    apiKey: Option<string>,
    userId: Option<string>,
    useKeyring: bool,
    afterDate: Option<string>,
    methods: seq<string>,
    dryRun: bool)

  /** One call `writer.write_uri(file, uri, dry_run)`. */
  datatype WriteCall = WriteCall(file: string, writer: string, uri: string, dryRun: bool)

  /** Python truthiness of an optional string: neither `None` nor empty. */
  predicate Truthy(s: Option<string>)
  {
    s.Some? && s.value != ""
  }

  /** Python truthiness of `after_date`; a parsed date is always true. */
  predicate DateTruthy(d: Option<DateArg>)
  {
    d.Some? && (d.value.Given? ==> d.value.text != "")
  }

  function AsDateArg(d: Option<string>): Option<DateArg>
  {
    if d.None? then None else Some(Given(d.value))
  }

  // ---------------------------------------------------------------------
  // Preflight

  /** Some file argument looks like a command-line option. */
  predicate HasOptionLike(files: seq<string>)
  {
    exists i :: 0 <= i < |files| && StartsWith(files[i], "-")
  }

  /** The checks preflight makes before it changes anything, in order:
      network, credentials, option-like file arguments. */
  function ArgumentError(a: Args, env: Env): Option<Exc>
  {
    if !env.networkUp then Some(CannotProceed(NoNetwork))
    else if !a.useKeyring && !Truthy(a.apiKey) && !Truthy(a.userId) then Some(CannotProceed(BadArg))
    else if HasOptionLike(a.files) then Some(CannotProceed(BadArg))
    else None
  }

  /** What one file argument contributes to the gathered list. */
  function Contribution(item: string, env: Env): seq<string>
  {
    if env.isFile(item) && env.extension(item) == ".pdf" then [item]
    else if env.isDir(item) then env.dirPdfs(item)
    else []
  }

  /** The gathered list, argument by argument. */
  function Gather(items: seq<string>, env: Env): seq<string>
    decreases |items|
  {
    if items == [] then []
    else Gather(items[..|items| - 1], env) + Contribution(items[|items| - 1], env)
  }

  /** The date filter over `items`, argument by argument: an argument is
      kept when its modification time is not before `after`; the first
      `stat()` that fails ends the filter with its exception. */
  function Kept(items: seq<string>, after: int, env: Env): Result<seq<string>, Exc>
    decreases |items|
  {
    if items == [] then Ok([])
    else
      match Kept(items[..|items| - 1], after, env)
      case Err(e) => Err(e)
      case Ok(k) =>
        var last := items[|items| - 1];
        match env.mtime(last)
        case Err(e) => Err(e)
        case Ok(t) => Ok(if t >= after then k + [last] else k)
  }

  /** The files with a known modification time not before `after`, in
      argument order: a reference definition for `Kept`. */
  function NotBefore(items: seq<string>, after: int, env: Env): seq<string>
    decreases |items|
  {
    if items == [] then []
    else
      (if env.mtime(items[0]).Ok? && env.mtime(items[0]).value >= after then [items[0]] else [])
      + NotBefore(items[1..], after, env)
  }

  /** What preflight leaves behind: `after_date`, `_files` (`None` while it
      has not been assigned) and the exception it raises, if any. */
  datatype Preflight = Preflight(afterDate: Option<DateArg>, files: Option<seq<string>>, error: Option<Exc>)

  function PreflightSpec(a: Args, env: Env): Preflight
  {
    var given := AsDateArg(a.afterDate);
    if ArgumentError(a, env).Some? then Preflight(given, None, ArgumentError(a, env))
    else if Truthy(a.afterDate) && env.parseDate(a.afterDate.value).None? then
      Preflight(given, None, Some(CannotProceed(BadArg)))
    else
      var date := if Truthy(a.afterDate) then Some(Parsed(env.parseDate(a.afterDate.value).value)) else given;
      if env.zoteroError.Some? then Preflight(date, None, env.zoteroError)
      else
        var gathered := Gather(a.files, env);
        if Truthy(a.afterDate) then
          match Kept(a.files, date.value.time, env)
          case Err(e) => Preflight(date, Some(gathered), Some(e))
          case Ok(k) => Preflight(date, Some(k), if k == [] then Some(CannotProceed(BadArg)) else None)
        else
          Preflight(date, Some(gathered), if gathered == [] then Some(CannotProceed(BadArg)) else None)
  }

  // ---------------------------------------------------------------------
  // Main work

  /** The writer calls made and the exception raised, if any. */
  datatype Dispatch = Dispatch(calls: seq<WriteCall>, error: Option<Exc>)

  /** Every writer in turn writes `uri` into `file`; the first writer that
      raises ends the round. */
  function WriteAll(file: string, uri: string, writers: seq<string>, dryRun: bool, env: Env): Dispatch
    decreases |writers|
  {
    if writers == [] then Dispatch([], None)
    else
      var d := WriteAll(file, uri, writers[..|writers| - 1], dryRun, env);
      if d.error.Some? then d
      else
        var w := writers[|writers| - 1];
        Dispatch(d.calls + [WriteCall(file, w, uri, dryRun)], env.writeError(file, w))
  }

  /** One file of the main work: its Zotero record is looked up and it is
      handed to every writer, unless an exception was already raised. */
  function FileStep(d: Dispatch, file: string, writers: seq<string>, dryRun: bool, env: Env): Dispatch
  {
    if d.error.Some? then d
    else
      match env.link(file)
      case Err(e) => Dispatch(d.calls, Some(e))
      case Ok(uri) =>
        var w := WriteAll(file, uri, writers, dryRun, env);
        Dispatch(d.calls + w.calls, w.error)
  }

  /** Every file in turn goes through `FileStep`; the first exception ends
      the work. */
  function DispatchAll(files: seq<string>, writers: seq<string>, dryRun: bool, env: Env): Dispatch
    decreases |files|
  {
    if files == [] then Dispatch([], None)
    else FileStep(DispatchAll(files[..|files| - 1], writers, dryRun, env), files[|files| - 1], writers, dryRun, env)
  }

  /** No record lookup and no writer raises for these files. */
  predicate Clean(files: seq<string>, writers: seq<string>, env: Env)
  {
    forall i :: 0 <= i < |files| ==>
      env.link(files[i]).Ok? && forall j :: 0 <= j < |writers| ==> env.writeError(files[i], writers[j]).None?
  }

  /** The calls for one file: each writer once, in list order. */
  function Row(file: string, uri: string, writers: seq<string>, dryRun: bool): seq<WriteCall>
  {
    seq(|writers|, j requires 0 <= j < |writers| => WriteCall(file, writers[j], uri, dryRun))
  }

  /** Files in the outer loop, writers in the inner loop. */
  function Product(files: seq<string>, writers: seq<string>, dryRun: bool, env: Env): seq<WriteCall>
    requires forall i :: 0 <= i < |files| ==> env.link(files[i]).Ok?
    decreases |files|
  {
    if files == [] then []
    else Row(files[0], env.link(files[0]).value, writers, dryRun) + Product(files[1..], writers, dryRun, env)
  }

  // ---------------------------------------------------------------------
  // The whole run

  /** What `run` leaves behind and the exception it met, if any. */
  datatype RunOutcome = RunOutcome(afterDate: Option<DateArg>, files: Option<seq<string>>, calls: seq<WriteCall>, error: Option<Exc>)

  function RunSpec(a: Args, env: Env): RunOutcome
  {
    var p := PreflightSpec(a, env);
    if p.error.Some? then RunOutcome(p.afterDate, p.files, [], p.error)
    else
      var d := DispatchAll(p.files.value, a.methods, a.dryRun, env);
      RunOutcome(p.afterDate, p.files, d.calls, d.error)
  }

  // ---------------------------------------------------------------------
  // The main body object

  class MainBody {
    var files: seq<string>
    var apiKey: Option<string>
    var userId: Option<string>
    var useKeyring: bool
    var afterDate: Option<DateArg>
    var methods: seq<string>
    var dryRun: bool
    /** Set when `run` meets an exception. */
    var exception: Option<Exc>
    /** `_writers`: one writer per method name; a writer is known by its name. */
    var writers: seq<string>
    /** `_files`: the PDF files to work on. */
    var pdfFiles: seq<string>
    /** The writer calls made so far, in order. */
    var calls: seq<WriteCall>

    ghost predicate Valid()
      reads this
    {
      AllKnown(methods) && writers == methods
    }

    /** `after_date` still holds the user's text (preflight has not run). */
    predicate RawDate()
      reads this
    {
      afterDate.None? || afterDate.value.Given?
    }

    /** The keyword arguments as the fields now hold them. */
    function Kwargs(): Args
      reads this
      requires RawDate()
    {
      Args(files, apiKey, userId, useKeyring,
           if afterDate.None? then None else Some(afterDate.value.text),
           methods, dryRun)
    }

    /** Looking up an unknown name in the table of writers raises
        `KeyError`, so a body exists only for known method names. */
    constructor (args: Args)
      requires AllKnown(args.methods)
      ensures Valid() && RawDate() && Kwargs() == args
      ensures exception == None && pdfFiles == [] && calls == []
    {
      files := args.files;
      apiKey := args.apiKey;
      userId := args.userId;
      useKeyring := args.useKeyring;
      afterDate := AsDateArg(args.afterDate);
      methods := args.methods;
      dryRun := args.dryRun;
      exception := None;
      writers := [];
      pdfFiles := [];
      calls := [];
      new;
      var i := 0;
      while i < |methods|
        modifies this`writers
        invariant 0 <= i <= |methods|
        invariant writers == methods[..i]
      {
        writers := writers + [methods[i]];
        i := i + 1;
      }
    }

    /** Runs preflight and then the main work. An exception that derives
        from `Exception` is stored in `exception` and not propagated; one
        that does not (`KeyboardInterrupt`) escapes, and is returned. */
    method Run(env: Env) returns (escaped: Option<Exc>)
      requires Valid() && RawDate()
      modifies this`afterDate, this`pdfFiles, this`calls, this`exception
      ensures var r := RunSpec(old(Kwargs()), env);
        && afterDate == r.afterDate
        && pdfFiles == (if r.files.Some? then r.files.value else old(pdfFiles))
        && calls == old(calls) + r.calls
        && exception == (if r.error.Some? && IsException(r.error.value) then r.error else old(exception))
        && escaped == (if r.error.Some? && !IsException(r.error.value) then r.error else None)
    {
      var err := DoPreflight(env);
      if err.None? {
        err := DoMainWork(env);
      }
      if err.Some? && IsException(err.value) {
        exception := err;
        escaped := None;
      } else {
        escaped := err;
      }
    }

    /** The option checks, then gathering and date filtering of the files. */
    method DoPreflight(env: Env) returns (err: Option<Exc>)
      requires Valid() && RawDate()
      modifies this`afterDate, this`pdfFiles
      ensures var p := PreflightSpec(old(Kwargs()), env);
        && afterDate == p.afterDate
        && pdfFiles == (if p.files.Some? then p.files.value else old(pdfFiles))
        && err == p.error
    {
      ghost var args := Kwargs();
      var files := files;
      if !env.networkUp {
        return Some(CannotProceed(NoNetwork));
      }
      if !AllKnown(methods) {
        // The constructor already refused unknown names: this check can
        // never fire.
        assert false;
      }
      if !useKeyring && !Truthy(apiKey) && !Truthy(userId) {
        return Some(CannotProceed(BadArg));
      }
      if HasOptionLike(files) {
        return Some(CannotProceed(BadArg));
      }
      if DateTruthy(afterDate) {
        var parsed := env.parseDate(afterDate.value.text);
        if parsed.None? {
          return Some(CannotProceed(BadArg));
        }
        afterDate := Some(Parsed(parsed.value));
      }
      assert DateTruthy(afterDate) <==> Truthy(args.afterDate);
      assert DateTruthy(afterDate) ==> afterDate.value.Parsed?;
      if env.zoteroError.Some? {
        return env.zoteroError;
      }

      pdfFiles := [];
      var i := 0;
      while i < |files|
        modifies this`pdfFiles
        invariant 0 <= i <= |files|
        invariant pdfFiles == Gather(files[..i], env)
      {
        var item := files[i];
        GatherStep(files, env, i);
        if env.isFile(item) && env.extension(item) == ".pdf" {
          pdfFiles := pdfFiles + [item];
        } else if env.isDir(item) {
          pdfFiles := pdfFiles + env.dirPdfs(item);
        }
        i := i + 1;
      }
      assert files[..i] == files;

      if DateTruthy(afterDate) {
        var after := afterDate.value.time;
        var kept := [];
        var j := 0;
        err := None;
        while j < |files| && err.None?
          modifies {}
          invariant 0 <= j <= |files|
          invariant err.None? ==> Kept(files[..j], after, env) == Ok(kept)
          invariant err.Some? ==> Kept(files[..j], after, env) == Err(err.value)
        {
          KeptStep(files, after, env, j);
          var t := env.mtime(files[j]);
          if t.Err? {
            err := Some(t.error);
          } else if t.value >= after {
            kept := kept + [files[j]];
          }
          j := j + 1;
        }
        if err.Some? {
          KeptStops(files, after, env, j);
          return;
        }
        assert files[..j] == files;
        pdfFiles := kept;
      }

      if pdfFiles == [] {
        return Some(CannotProceed(BadArg));
      }
      err := None;
    }

    /** Hands every gathered file to every writer: files in the outer loop,
        writers in the inner loop (`WriteFile`). */
    method DoMainWork(env: Env) returns (err: Option<Exc>)
      modifies this`calls
      ensures var d := DispatchAll(pdfFiles, writers, dryRun, env);
        calls == old(calls) + d.calls && err == d.error
    {
      var files, ws, dr := pdfFiles, writers, dryRun;
      err := None;
      var i := 0;
      while i < |files| && err.None?
        invariant 0 <= i <= |files|
        invariant files == pdfFiles && ws == writers && dr == dryRun
        invariant err == DispatchAll(files[..i], ws, dr, env).error
        invariant calls == old(calls) + DispatchAll(files[..i], ws, dr, env).calls
      {
        var file := files[i];
        ghost var done := DispatchAll(files[..i], ws, dr, env);
        DispatchStep(files, ws, dr, env, i);
        var record := env.link(file);
        if record.Err? {
          err := Some(record.error);
        } else {
          err := WriteFile(file, record.value, env);
        }
        assert calls == old(calls) + FileStep(done, file, ws, dr, env).calls;
        i := i + 1;
      }
      if err.Some? {
        DispatchStops(files, ws, dr, env, i);
      } else {
        assert files[..i] == files;
      }
    }

    /** Every writer in turn writes `uri` into `file`. */
    method WriteFile(file: string, uri: string, env: Env) returns (err: Option<Exc>)
      modifies this`calls
      ensures var w := WriteAll(file, uri, writers, dryRun, env);
        calls == old(calls) + w.calls && err == w.error
    {
      var ws := writers;
      err := None;
      var j := 0;
      while j < |ws| && err.None?
        invariant 0 <= j <= |ws|
        invariant ws == writers
        invariant err == WriteAll(file, uri, ws[..j], dryRun, env).error
        invariant calls == old(calls) + WriteAll(file, uri, ws[..j], dryRun, env).calls
      {
        WriteStep(file, uri, ws, dryRun, env, j);
        calls := calls + [WriteCall(file, ws[j], uri, dryRun)];
        err := env.writeError(file, ws[j]);
        j := j + 1;
      }
      if err.Some? {
        WriteAllStops(file, uri, ws, dryRun, env, j);
      } else {
        assert ws[..j] == ws;
      }
    }
  }

  /** One more file argument gathered. */
  lemma GatherStep(items: seq<string>, env: Env, i: nat)
    requires i < |items|
    ensures Gather(items[..i + 1], env) == Gather(items[..i], env) + Contribution(items[i], env)
  {
    assert items[..i + 1][..i] == items[..i];
  }

  /** One more file argument through the date filter. */
  lemma KeptStep(items: seq<string>, after: int, env: Env, i: nat)
    requires i < |items|
    ensures Kept(items[..i], after, env).Err? ==> Kept(items[..i + 1], after, env) == Kept(items[..i], after, env)
    ensures Kept(items[..i], after, env).Ok? && env.mtime(items[i]).Err? ==>
      Kept(items[..i + 1], after, env) == Err(env.mtime(items[i]).error)
    ensures Kept(items[..i], after, env).Ok? && env.mtime(items[i]).Ok? ==>
      Kept(items[..i + 1], after, env)
        == Ok(if env.mtime(items[i]).value >= after then Kept(items[..i], after, env).value + [items[i]]
              else Kept(items[..i], after, env).value)
  {
    assert items[..i + 1][..i] == items[..i];
  }

  /** One more writer, when none has raised yet. */
  lemma WriteStep(file: string, uri: string, writers: seq<string>, dryRun: bool, env: Env, j: nat)
    requires j < |writers| && WriteAll(file, uri, writers[..j], dryRun, env).error == None
    ensures WriteAll(file, uri, writers[..j + 1], dryRun, env)
         == Dispatch(WriteAll(file, uri, writers[..j], dryRun, env).calls + [WriteCall(file, writers[j], uri, dryRun)],
                     env.writeError(file, writers[j]))
  {
    assert writers[..j + 1][..j] == writers[..j];
  }

  /** One more file. */
  lemma DispatchStep(files: seq<string>, writers: seq<string>, dryRun: bool, env: Env, i: nat)
    requires i < |files|
    ensures DispatchAll(files[..i + 1], writers, dryRun, env)
         == FileStep(DispatchAll(files[..i], writers, dryRun, env), files[i], writers, dryRun, env)
  {
    assert files[..i + 1][..i] == files[..i];
  }

  // ---------------------------------------------------------------------
  // Once an exception is raised, nothing further happens

  lemma {:induction false} KeptStops(items: seq<string>, after: int, env: Env, k: nat)
    requires k <= |items| && Kept(items[..k], after, env).Err?
    ensures Kept(items, after, env) == Kept(items[..k], after, env)
    decreases |items|
  {
    if k < |items| {
      var init := items[..|items| - 1];
      assert init[..k] == items[..k];
      KeptStops(init, after, env, k);
    } else {
      assert items[..k] == items;
    }
  }

  lemma {:induction false} WriteAllStops(file: string, uri: string, writers: seq<string>, dryRun: bool, env: Env, k: nat)
    requires k <= |writers| && WriteAll(file, uri, writers[..k], dryRun, env).error.Some?
    ensures WriteAll(file, uri, writers, dryRun, env) == WriteAll(file, uri, writers[..k], dryRun, env)
    decreases |writers|
  {
    if k < |writers| {
      var init := writers[..|writers| - 1];
      assert init[..k] == writers[..k];
      WriteAllStops(file, uri, init, dryRun, env, k);
    } else {
      assert writers[..k] == writers;
    }
  }

  lemma {:induction false} DispatchStops(files: seq<string>, writers: seq<string>, dryRun: bool, env: Env, k: nat)
    requires k <= |files| && DispatchAll(files[..k], writers, dryRun, env).error.Some?
    ensures DispatchAll(files, writers, dryRun, env) == DispatchAll(files[..k], writers, dryRun, env)
    decreases |files|
  {
    if k < |files| {
      var init := files[..|files| - 1];
      assert init[..k] == files[..k];
      DispatchStops(init, writers, dryRun, env, k);
    } else {
      assert files[..k] == files;
    }
  }

  // ---------------------------------------------------------------------
  // Gathering

  /** Gathering works argument by argument and keeps argument order: the
      gathered list of a concatenation is the concatenation of the lists. */
  lemma {:induction false} GatherConcat(a: seq<string>, b: seq<string>, env: Env)
    ensures Gather(a + b, env) == Gather(a, env) + Gather(b, env)
    decreases |b|
  {
    if b == [] {
      assert a + b == a;
    } else {
      var init := b[..|b| - 1];
      assert (a + b)[..|a + b| - 1] == a + init;
      assert (a + b)[|a + b| - 1] == b[|b| - 1];
      GatherConcat(a, init, env);
    }
  }

  /** A single argument contributes itself when it is a regular `.pdf`
      file, its PDF files when it is a directory, and nothing otherwise. */
  lemma GatherOne(item: string, env: Env)
    ensures env.isFile(item) && env.extension(item) == ".pdf" ==> Gather([item], env) == [item]
    ensures !(env.isFile(item) && env.extension(item) == ".pdf") && env.isDir(item) ==> Gather([item], env) == env.dirPdfs(item)
    ensures !(env.isFile(item) && env.extension(item) == ".pdf") && !env.isDir(item) ==> Gather([item], env) == []
  {
    assert [item][..0] == [];
  }

  /** A path is gathered exactly when some argument contributes it. */
  lemma {:induction false} GatherMembership(items: seq<string>, env: Env, x: string)
    ensures x in Gather(items, env) <==> exists i :: 0 <= i < |items| && x in Contribution(items[i], env)
    decreases |items|
  {
    if items != [] {
      var init := items[..|items| - 1];
      GatherMembership(init, env, x);
      if x in Gather(items, env) {
        if x in Gather(init, env) {
          var i :| 0 <= i < |init| && x in Contribution(init[i], env);
          assert items[i] == init[i];
        } else {
          assert x in Contribution(items[|items| - 1], env);
        }
      }
      if exists i :: 0 <= i < |items| && x in Contribution(items[i], env) {
        var i :| 0 <= i < |items| && x in Contribution(items[i], env);
        if i < |items| - 1 {
          assert init[i] == items[i];
        }
      }
    }
  }

  // ---------------------------------------------------------------------
  // The date filter

  lemma {:induction false} NotBeforeSnoc(items: seq<string>, x: string, after: int, env: Env)
    ensures NotBefore(items + [x], after, env) == NotBefore(items, after, env) + NotBefore([x], after, env)
    decreases |items|
  {
    if items == [] {
      assert items + [x] == [x];
    } else {
      assert (items + [x])[0] == items[0];
      assert (items + [x])[1..] == items[1..] + [x];
      NotBeforeSnoc(items[1..], x, after, env);
    }
  }

  /** The filter fails exactly when some argument cannot be `stat`ed, and
      otherwise keeps, in argument order, the arguments whose modification
      time is not before `after`. */
  lemma {:induction false} KeptIsNotBefore(items: seq<string>, after: int, env: Env)
    ensures Kept(items, after, env).Ok? <==> forall i :: 0 <= i < |items| ==> env.mtime(items[i]).Ok?
    ensures Kept(items, after, env).Ok? ==> Kept(items, after, env).value == NotBefore(items, after, env)
    decreases |items|
  {
    if items != [] {
      var init := items[..|items| - 1];
      var x := items[|items| - 1];
      KeptIsNotBefore(init, after, env);
      assert items == init + [x];
      NotBeforeSnoc(init, x, after, env);
      assert NotBefore([x], after, env)
          == (if env.mtime(x).Ok? && env.mtime(x).value >= after then [x] else []) + NotBefore([], after, env);
      if !(forall i :: 0 <= i < |init| ==> env.mtime(init[i]).Ok?) {
        var i :| 0 <= i < |init| && !env.mtime(init[i]).Ok?;
        assert items[i] == init[i];
      }
      if forall i :: 0 <= i < |items| ==> env.mtime(items[i]).Ok? {
        forall i | 0 <= i < |init| ensures env.mtime(init[i]).Ok? {
          assert init[i] == items[i];
        }
      }
    }
  }

  /** An argument passes the filter exactly when it is `stat`able and its
      modification time is not before `after`. */
  lemma {:induction false} NotBeforeMembership(items: seq<string>, after: int, env: Env, x: string)
    ensures x in NotBefore(items, after, env)
      <==> x in items && env.mtime(x).Ok? && env.mtime(x).value >= after
    decreases |items|
  {
    if items != [] {
      NotBeforeMembership(items[1..], after, env, x);
      assert items == [items[0]] + items[1..];
    }
  }

  // ---------------------------------------------------------------------
  // Preflight

  /** With no network, preflight raises `CannotProceed(no_network)` before
      any other check and before it changes anything. */
  lemma NoNetworkFirst(a: Args, env: Env)
    requires !env.networkUp
    ensures PreflightSpec(a, env) == Preflight(AsDateArg(a.afterDate), None, Some(CannotProceed(NoNetwork)))
  {
  }

  /** Without the keyring, either an API key or a user id is enough; with
      neither, preflight raises `CannotProceed(bad_arg)`. */
  lemma CredentialsRule(a: Args, env: Env)
    requires env.networkUp
    ensures !a.useKeyring && !Truthy(a.apiKey) && !Truthy(a.userId) ==>
      ArgumentError(a, env) == Some(CannotProceed(BadArg))
    ensures !HasOptionLike(a.files) ==>
      (ArgumentError(a, env) == None <==> a.useKeyring || Truthy(a.apiKey) || Truthy(a.userId))
  {
  }

  /** Once the credentials pass, a file argument starting with `-` makes
      preflight raise `CannotProceed(bad_arg)`, and only such an argument. */
  lemma OptionLikeRule(a: Args, env: Env)
    requires env.networkUp && (a.useKeyring || Truthy(a.apiKey) || Truthy(a.userId))
    ensures ArgumentError(a, env) == Some(CannotProceed(BadArg)) <==> exists i :: 0 <= i < |a.files| && a.files[i] != [] && a.files[i][0] == '-'
    ensures ArgumentError(a, env) != Some(CannotProceed(BadArg)) ==> ArgumentError(a, env) == None
  {
    if HasOptionLike(a.files) {
      var i :| 0 <= i < |a.files| && StartsWith(a.files[i], "-");
      assert a.files[i][..1][0] == a.files[i][0];
    }
    if exists i :: 0 <= i < |a.files| && a.files[i] != [] && a.files[i][0] == '-' {
      var i :| 0 <= i < |a.files| && a.files[i] != [] && a.files[i][0] == '-';
      assert a.files[i][..1] == "-";
    }
  }

  /** An argument error leaves `_files` unassigned and `after_date` as given. */
  lemma ArgumentErrorChangesNothing(a: Args, env: Env)
    requires ArgumentError(a, env).Some?
    ensures PreflightSpec(a, env).files == None
    ensures PreflightSpec(a, env).afterDate == AsDateArg(a.afterDate)
    ensures PreflightSpec(a, env).error == ArgumentError(a, env)
  {
  }

  /** When preflight returns normally there is at least one file to work on. */
  lemma PreflightNonEmpty(a: Args, env: Env)
    requires PreflightSpec(a, env).error == None
    ensures PreflightSpec(a, env).files.Some? && PreflightSpec(a, env).files.value != []
  {
  }

  /** Without a date, the files to work on are the gathered files. */
  lemma PreflightWithoutDate(a: Args, env: Env)
    requires PreflightSpec(a, env).error == None && !Truthy(a.afterDate)
    ensures PreflightSpec(a, env).files == Some(Gather(a.files, env))
    ensures PreflightSpec(a, env).afterDate == AsDateArg(a.afterDate)
  {
  }

  /** With a date, the files to work on are the raw file arguments whose
      modification time is not before it, in argument order; the gathered
      list is thrown away. So a PDF file found inside a directory argument
      is never worked on, and a directory argument can be. */
  lemma {:induction false} PreflightWithDate(a: Args, env: Env)
    requires PreflightSpec(a, env).error == None && Truthy(a.afterDate)
    ensures env.parseDate(a.afterDate.value).Some?
    ensures PreflightSpec(a, env).afterDate == Some(Parsed(env.parseDate(a.afterDate.value).value))
    ensures PreflightSpec(a, env).files == Some(NotBefore(a.files, env.parseDate(a.afterDate.value).value, env))
    ensures forall x :: x in PreflightSpec(a, env).files.value ==> x in a.files
  {
    var t := env.parseDate(a.afterDate.value).value;
    KeptIsNotBefore(a.files, t, env);
    forall x | x in PreflightSpec(a, env).files.value ensures x in a.files {
      NotBeforeMembership(a.files, t, env, x);
    }
  }

  /** A machine where `papers` is a directory holding `papers/a.pdf`,
      every path was last modified at time 10 and every date parses as 0. */
  function PapersEnv(): Env
  {
    Env(true, f => false, f => f == "papers", f => "", f => ["papers/a.pdf"],
        d => Some(0), f => Ok(10), None, f => Ok("zotero://select"), (f, w) => None)
  }

  /** `zuppa -d 2020-01-01 papers` */
  function PapersArgs(): Args
  {
    Args(["papers"], None, None, true, Some("2020-01-01"), ["findercomment"], false)
  }

  /** A directory holding one PDF file, given with a date both pass: the
      directory itself becomes the only file to work on, and the PDF file
      gathered from it is dropped. */
  lemma DateFilterKeepsDirectory()
    ensures Gather(PapersArgs().files, PapersEnv()) == ["papers/a.pdf"]
    ensures PreflightSpec(PapersArgs(), PapersEnv()) == Preflight(Some(Parsed(0)), Some(["papers"]), None)
  {
    var env, a := PapersEnv(), PapersArgs();
    assert a.files[..0] == [];
    assert !HasOptionLike(a.files) by {
      assert "papers"[..1] == "p";
    }
    assert Gather(a.files, env) == ["papers/a.pdf"];
    assert env.mtime("papers") == Ok(10);
    assert Kept([], 0, env) == Ok([]);
    assert Kept(a.files, 0, env) == Ok([] + ["papers"]);
    assert ArgumentError(a, env) == None;
    assert Truthy(a.afterDate) && env.parseDate(a.afterDate.value) == Some(0);
    assert env.zoteroError.None?;
    assert [] + ["papers"] == ["papers"];
    assert PreflightSpec(a, env).afterDate == Some(Parsed(0));
    assert PreflightSpec(a, env).files == Some(["papers"]);
    assert PreflightSpec(a, env).error == None;
  }

  // ---------------------------------------------------------------------
  // Main work

  /** Every writer writes the file once, in list order, exactly when none
      of them raises. */
  lemma {:induction false} WriteAllClean(file: string, uri: string, writers: seq<string>, dryRun: bool, env: Env)
    ensures WriteAll(file, uri, writers, dryRun, env).error.None?
      <==> forall j :: 0 <= j < |writers| ==> env.writeError(file, writers[j]).None?
    ensures WriteAll(file, uri, writers, dryRun, env).error.None? ==>
      WriteAll(file, uri, writers, dryRun, env).calls == Row(file, uri, writers, dryRun)
    decreases |writers|
  {
    if writers != [] {
      var init := writers[..|writers| - 1];
      WriteAllClean(file, uri, init, dryRun, env);
      assert Row(file, uri, writers, dryRun)
          == Row(file, uri, init, dryRun) + [WriteCall(file, writers[|writers| - 1], uri, dryRun)];
      if !(forall j :: 0 <= j < |init| ==> env.writeError(file, init[j]).None?) {
        var j :| 0 <= j < |init| && !env.writeError(file, init[j]).None?;
        assert writers[j] == init[j];
      }
    }
  }

  /** When writer `j` is the first to raise, the round has called writers
      `0` to `j` in list order, and ends with that writer's exception. */
  lemma {:induction false} WriteAllFirstFailure(file: string, uri: string, writers: seq<string>, dryRun: bool, env: Env, j: nat)
    requires j < |writers|
    requires forall k :: 0 <= k < j ==> env.writeError(file, writers[k]).None?
    requires env.writeError(file, writers[j]).Some?
    ensures WriteAll(file, uri, writers, dryRun, env)
         == Dispatch(Row(file, uri, writers[..j + 1], dryRun), env.writeError(file, writers[j]))
    decreases |writers|
  {
    var init := writers[..|writers| - 1];
    if j == |writers| - 1 {
      WriteAllClean(file, uri, init, dryRun, env);
      assert writers[..j + 1] == writers;
      assert Row(file, uri, writers, dryRun)
          == Row(file, uri, init, dryRun) + [WriteCall(file, writers[j], uri, dryRun)];
    } else {
      WriteAllFirstFailure(file, uri, init, dryRun, env, j);
      assert init[..j + 1] == writers[..j + 1];
    }
  }

  lemma {:induction false} ProductSnoc(files: seq<string>, writers: seq<string>, dryRun: bool, env: Env)
    requires files != [] && forall i :: 0 <= i < |files| ==> env.link(files[i]).Ok?
    ensures Product(files, writers, dryRun, env)
         == Product(files[..|files| - 1], writers, dryRun, env)
            + Row(files[|files| - 1], env.link(files[|files| - 1]).value, writers, dryRun)
    decreases |files|
  {
    if |files| > 1 {
      ProductSnoc(files[1..], writers, dryRun, env);
      assert files[1..][..|files[1..]| - 1] == files[..|files| - 1][1..];
    } else {
      assert files[..0] == [];
    }
  }

  /** The main work ends normally exactly when no record lookup and no
      writer raises, and then it has made exactly the calls of the product:
      files in the outer loop, writers in the inner loop. */
  lemma {:induction false} DispatchClean(files: seq<string>, writers: seq<string>, dryRun: bool, env: Env)
    ensures DispatchAll(files, writers, dryRun, env).error.None? <==> Clean(files, writers, env)
    ensures Clean(files, writers, env) ==>
      DispatchAll(files, writers, dryRun, env).calls == Product(files, writers, dryRun, env)
    decreases |files|
  {
    if files != [] {
      var init := files[..|files| - 1];
      var last := files[|files| - 1];
      DispatchClean(init, writers, dryRun, env);
      if env.link(last).Ok? {
        WriteAllClean(last, env.link(last).value, writers, dryRun, env);
      }
      if !Clean(init, writers, env) {
        var i :| 0 <= i < |init| && !(env.link(init[i]).Ok? && forall j :: 0 <= j < |writers| ==> env.writeError(init[i], writers[j]).None?);
        assert files[i] == init[i];
      }
      if Clean(files, writers, env) {
        assert Clean(init, writers, env) by {
          forall i | 0 <= i < |init|
            ensures env.link(init[i]).Ok? && forall j :: 0 <= j < |writers| ==> env.writeError(init[i], writers[j]).None?
          {
            assert init[i] == files[i];
          }
        }
        ProductSnoc(files, writers, dryRun, env);
      }
    }
  }

  lemma MulStep(n: nat, m: nat)
    ensures (n + 1) * m == m + n * m
    ensures n * m >= 0
  {
  }

  lemma {:induction false} ProductLength(files: seq<string>, writers: seq<string>, dryRun: bool, env: Env)
    requires forall k :: 0 <= k < |files| ==> env.link(files[k]).Ok?
    ensures |Product(files, writers, dryRun, env)| == |files| * |writers|
    decreases |files|
  {
    if files != [] {
      ProductLength(files[1..], writers, dryRun, env);
      MulStep(|files| - 1, |writers|);
    }
  }

  /** The product has one call per file and writer, and the call for the
      `i`th file and the `j`th writer is at position `i * |writers| + j`. */
  lemma {:induction false} ProductAt(files: seq<string>, writers: seq<string>, dryRun: bool, env: Env, i: nat, j: nat)
    requires forall k :: 0 <= k < |files| ==> env.link(files[k]).Ok?
    requires i < |files| && j < |writers|
    ensures |Product(files, writers, dryRun, env)| == |files| * |writers|
    ensures i * |writers| + j < |files| * |writers|
    ensures Product(files, writers, dryRun, env)[i * |writers| + j]
         == WriteCall(files[i], writers[j], env.link(files[i]).value, dryRun)
    decreases |files|
  {
    var m := |writers|;
    var rest := files[1..];
    ProductLength(files, writers, dryRun, env);
    MulStep(|rest|, m);
    var row := Row(files[0], env.link(files[0]).value, writers, dryRun);
    assert Product(files, writers, dryRun, env) == row + Product(rest, writers, dryRun, env);
    if i == 0 {
      assert 0 * m + j == j;
    } else {
      ProductAt(rest, writers, dryRun, env, i - 1, j);
      MulStep(i - 1, m);
      assert files[i] == rest[i - 1];
    }
  }

  /** Every call made pairs a file to work on with a configured writer and
      that file's URI. */
  lemma {:induction false} DispatchSound(files: seq<string>, writers: seq<string>, dryRun: bool, env: Env)
    ensures forall c :: c in DispatchAll(files, writers, dryRun, env).calls ==>
      c.file in files && c.writer in writers && env.link(c.file) == Ok(c.uri) && c.dryRun == dryRun
    decreases |files|
  {
    if files != [] {
      var init := files[..|files| - 1];
      var last := files[|files| - 1];
      DispatchSound(init, writers, dryRun, env);
      if env.link(last).Ok? {
        WriteAllSound(last, env.link(last).value, writers, dryRun, env);
      }
      forall c | c in DispatchAll(init, writers, dryRun, env).calls ensures c.file in files {
        assert c.file in init;
      }
    }
  }

  lemma {:induction false} WriteAllSound(file: string, uri: string, writers: seq<string>, dryRun: bool, env: Env)
    ensures forall c :: c in WriteAll(file, uri, writers, dryRun, env).calls ==>
      c.file == file && c.writer in writers && c.uri == uri && c.dryRun == dryRun
    decreases |writers|
  {
    if writers != [] {
      var init := writers[..|writers| - 1];
      WriteAllSound(file, uri, init, dryRun, env);
      forall c | c in WriteAll(file, uri, init, dryRun, env).calls ensures c.writer in writers {
        assert c.writer in init;
      }
    }
  }

  // ---------------------------------------------------------------------
  // The whole run

  /** A run that meets no exception worked on a non-empty list of files and
      called every writer once per file, files outer and writers inner. */
  lemma RunSucceeds(a: Args, env: Env)
    requires RunSpec(a, env).error == None
    ensures RunSpec(a, env).files.Some? && RunSpec(a, env).files.value != []
    ensures Clean(RunSpec(a, env).files.value, a.methods, env)
    ensures RunSpec(a, env).calls == Product(RunSpec(a, env).files.value, a.methods, a.dryRun, env)
  {
    PreflightNonEmpty(a, env);
    DispatchClean(PreflightSpec(a, env).files.value, a.methods, a.dryRun, env);
  }

  /** When preflight raises, no writer is called and the run's exception is
      preflight's. */
  lemma PreflightFailureStopsRun(a: Args, env: Env)
    requires PreflightSpec(a, env).error.Some?
    ensures RunSpec(a, env).calls == [] && RunSpec(a, env).error == PreflightSpec(a, env).error
  {
  }
}
