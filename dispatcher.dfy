/** The `__main__` block of the entry script: one run from the interpreter
    check to the single `sys.exit`. Everything the block consults outside
    itself (configuration, the sub-command module, the file system, the
    argument decoder, the sub-command's own behaviour) is an input of the
    `World` record; what the block prints is recorded as a list of events.

    `Dispatch` states the outcome of a run as a function of the world: the
    try-body stages, then the handler table. `RunScript` is the block
    written step by step, and is proved to produce exactly `Dispatch`. */
module Dispatcher {
  import opened Wrappers
  import opened Errors
  import opened PyString
  import PyVersion
  import AliasResolver

  // ---------------------------------------------------------------- inputs

  /** Importing `ansible.constants` and `ansible.utils.display`: either the
      two settings the block reads, or the exception the import raised. */
  datatype ConfigLoad =
    | Config(debug: bool, controllerPythonWarning: bool)  // C.DEFAULT_DEBUG, C.CONTROLLER_PYTHON_WARNING
    | ConfigRaises(e: Exc)

  /** `getattr(__import__("ansible.cli.<sub>"), cls)`. */
  datatype Load =
    | Loaded                    // the class was found
    | NoSuchClass               // the module has no such attribute
    | LoadRaises(e: Exc)        // the import raised this (an `ImportError` among others)

  /** `os.mkdir(~/.ansible, 0o700)`. */
  datatype Mkdir = Made | MkdirFailed(errno: int, reason: string)

  /** `cli.run()`. */
  datatype RunResult = Returns(code: int) | Raises(e: Exc)

  /** `context.CLIARGS` as the generic handler sees it: empty, filled but
      without a `verbosity` key, or with one. */
  datatype CliArgs = NoCliArgs | WithoutVerbosity | CliArgs(verbosity: int)

  datatype World = World(
    version: PyVersion.Version,
    config: ConfigLoad,
    me: string,                                  // os.path.basename(sys.argv[0])
    load: (string, string) -> Load,              // by module name and class name
    mkdir: Mkdir,
    argv: seq<Option<string>>,                   // each entry decoded, or None where decoding fails
    construct: seq<string> -> Option<Exc>,       // mycli(args) raises this, if anything
    run: RunResult,
    cliargs: CliArgs)

  /** `errno.EEXIST` (Linux). */
  const EEXIST: int := 17

  // --------------------------------------------------------------- outputs

  /** The two sinks `display` is bound to: `LastResort` until the display
      subsystem is constructed, `Display` from then on. */
  datatype Sink = LastResort | Display

  datatype Event =
    | Error(sink: Sink, msg: string)  // display.error
    | DeprecationNotice               // display.deprecated about Python 3.8
    | Debug(msg: string)              // display.debug
    | StateDirCreated                 // debug note: the directory was created
    | StateDirWarning(reason: string) // warning: the directory could not be created
    | Traceback(logOnly: bool)        // "the full traceback was: ..."
    | VerboseHint                     // "to see the full traceback, use -vvv"
    | Vvv(msg: string)                // display.vvv
    | PrintHelp                       // cli.parser.print_help()

  /** What ends the process: the code given to `sys.exit`, or an exception
      that escapes the block. */
  datatype Outcome = Exit(code: int) | Escaped(e: Exc)

  /** A finished run: the outcome, what was emitted, and whether `mycli(args)`
      returned (so that `cli` is no longer `None`) and `run()` was entered. */
  datatype Final = Final(outcome: Outcome, events: seq<Event>, cliBuilt: bool, runCalled: bool)

  const VersionGateMsg: string := "ERROR: Ansible requires a minimum of Python2 version 2.6 or Python3 version 3.5."
  const NotImplementedPrefix: string := "Ansible sub-program not implemented: "
  const NotUtf8Msg: string := "Command line args are not in utf-8, unable to continue.  Ansible currently only understands utf-8"
  const InterruptedMsg: string := "User interrupted execution"
  const UnexpectedPrefix: string := "Unexpected Exception, this is probably a bug: "
  const NoParserMsg: string := "'NoneType' object has no attribute 'parser'"

  function NoClassMsg(sub: string, cls: string): string {
    "module 'ansible.cli." + sub + "' has no attribute '" + cls + "'"
  }

  // ------------------------------------------------------- specification

  /** Every argument decodes. */
  predicate AllDecode(argv: seq<Option<string>>) {
    forall i :: 0 <= i < |argv| ==> argv[i].Some?
  }

  /** The decoded argument list handed to the sub-command. */
  function Texts(argv: seq<Option<string>>): seq<string>
    requires AllDecode(argv)
  {
    seq(|argv|, i requires 0 <= i < |argv| => argv[i].value)
  }

  /** What the state-directory step emits: at most one note, and none
      exactly when the directory already existed. */
  function StateDirNote(m: Mkdir): (note: seq<Event>)
    ensures |note| <= 1
    ensures note == [] <==> m.MkdirFailed? && m.errno == EEXIST
  {
    match m
    case Made => [StateDirCreated]
    case MkdirFailed(errno, reason) => if errno != EEXIST then [StateDirWarning(reason)] else []
  }

  /** The exception the loading step raises, if any: an `ImportError` whose
      message names the missing sub-command becomes "not implemented", any
      other is raised again as it was. No `ImportError` naming the
      sub-command gets past this step. */
  function LoadFailure(me: string, t: AliasResolver.Target, l: Load): (raised: Option<Exc>)
    ensures raised.None? <==> l.Loaded?
    ensures raised.Some? && raised.value.ImportError? ==> !EndsWith(raised.value.msg, " " + t.sub)
  {
    match l
    case Loaded => None
    case NoSuchClass => Some(AttributeError(NoClassMsg(t.sub, t.cls)))
    case LoadRaises(e) =>
      if e.ImportError? && EndsWith(e.msg, " " + t.sub) then Some(AnsibleError(NotImplementedPrefix + me))
      else Some(e)
  }

  /** How the body of the main `try` ends. */
  datatype BodyEnd = Finished(code: int) | Raised(e: Exc)

  datatype Body = Body(events: seq<Event>, cliBuilt: bool, runCalled: bool, end: BodyEnd)

  /** What the body emits before resolving the alias: the deprecation notice
      first when it is due, and the debug line last. */
  function Opening(v: PyVersion.Version, controllerPythonWarning: bool): (opening: seq<Event>)
    ensures |opening| >= 1 && opening[|opening| - 1] == Debug("starting run")
    ensures opening[0] == DeprecationNotice <==> PyVersion.DeprecationDue(controllerPythonWarning, v)
  {
    (if PyVersion.DeprecationDue(controllerPythonWarning, v) then [DeprecationNotice] else [])
      + [Debug("starting run")]
  }

  /** The body of the main `try`, stage by stage. It starts with the opening;
      `cli` is bound exactly when `run()` is entered; and it finishes only
      with 6 or with what `run()` returned. */
  function TryBody(w: World, controllerPythonWarning: bool): (b: Body)
    ensures var opening := Opening(w.version, controllerPythonWarning);
      |opening| <= |b.events| && b.events[..|opening|] == opening
    ensures b.cliBuilt == b.runCalled
    ensures b.end.Finished? ==> b.end.code == 6 || (b.runCalled && w.run == Returns(b.end.code))
  {
    var opening := Opening(w.version, controllerPythonWarning);
    match AliasResolver.Resolve(w.me)
    case Err(e) => Body(opening, false, false, Raised(e))
    case Ok(t) =>
      match LoadFailure(w.me, t, w.load(t.sub, t.cls))
      case Some(e) => Body(opening, false, false, Raised(e))
      case None =>
        var rest := Invoke(w);
        var events := opening + StateDirNote(w.mkdir) + rest.events;
        assert events[..|opening|] == opening;
        Body(events, rest.cliBuilt, rest.runCalled, rest.end)
  }

  /** The rest of the body once the class is loaded and the state directory
      prepared: decode the arguments, construct the sub-command, run it. */
  function Invoke(w: World): (b: Body)
    ensures b.cliBuilt == b.runCalled
    ensures b.runCalled <==> AllDecode(w.argv) && w.construct(Texts(w.argv)).None?
    ensures b.end.Finished? ==>
      (b.end.code == 6 && !b.runCalled) || (b.runCalled && w.run == Returns(b.end.code))
  {
    if !AllDecode(w.argv) then
      Body([Error(Display, NotUtf8Msg), Traceback(false)], false, false, Finished(6))
    else
      match w.construct(Texts(w.argv))
      case Some(e) => Body([], false, false, Raised(e))
      case None =>
        match w.run
        case Returns(c) => Body([], true, true, Finished(c))
        case Raises(e) => Body([], true, true, Raised(e))
  }

  /** The verbose detail the generic handler adds for a wrapped cause. */
  function CauseDetail(e: Exc): seq<Event> {
    if e.OtherError? && e.orig.Some? then
      [Vvv("\nexception type: " + e.orig.value.typeName)]
      + (if Text(e) != e.orig.value.msg then [Vvv("\noriginal msg: " + e.orig.value.msg)] else [])
    else []
  }

  /** The `except Exception` clause: exit 250, or the exception escapes (as
      it was in debug mode, as a `KeyError` when `CLIARGS` has no
      verbosity); outside debug mode the report comes first. */
  function Generic(e: Exc, debug: bool, cliargs: CliArgs): (r: (Outcome, seq<Event>))
    ensures r.0 in {Exit(250), Escaped(e), Escaped(KeyError("verbosity"))}
    ensures debug <==> r.1 == []
    ensures !debug ==> r.1[0] == Error(Display, UnexpectedPrefix + Text(e))
  {
    if debug then (Escaped(e), [])
    else
      var report := [Error(Display, UnexpectedPrefix + Text(e))];
      match cliargs
      case NoCliArgs => (Exit(250), report + CauseDetail(e) + [Traceback(false)])
      case WithoutVerbosity => (Escaped(KeyError("verbosity")), report)
      case CliArgs(v) =>
        if v > 2 then (Exit(250), report + CauseDetail(e) + [Traceback(false)])
        else (Exit(250), report + [VerboseHint, Traceback(true)])
  }

  /** The handler table, by kind of exception. It exits only with 1, 4, 5,
      99 or 250, and with 5 only for an options error once `cli` is bound,
      after printing the help. */
  function Handle(e: Exc, cliBuilt: bool, debug: bool, cliargs: CliArgs): (r: (Outcome, seq<Event>))
    ensures r.0.Exit? ==> r.0.code in {1, 4, 5, 99, 250}
    ensures r.0 == Exit(5) ==> e.OptionsError? && cliBuilt && PrintHelp in r.1
  {
    match e
    case OptionsError(m) =>
      if cliBuilt then (Exit(5), [PrintHelp, Error(Display, m)])
      else (Escaped(AttributeError(NoParserMsg)), [])
    case ParserError(m) => (Exit(4), [Error(Display, m)])
    case AnsibleError(m) => (Exit(1), [Error(Display, m)])
    case KeyboardInterrupt => (Exit(99), [Error(Display, InterruptedMsg)])
    case SystemExit(_) => (Escaped(e), [])
    case _ => Generic(e, debug, cliargs)
  }

  /** One run of the block, as a function of the world. Every exit code is
      one of the handler table's, the encoding gate's 6, or the value `run()`
      returned; `cli` is bound exactly when `run()` was entered. */
  function Dispatch(w: World): (f: Final)
    ensures f.outcome.Exit? ==>
      f.outcome.code in {1, 4, 5, 6, 99, 250} || (f.runCalled && w.run == Returns(f.outcome.code))
    ensures f.cliBuilt == f.runCalled
  {
    if !PyVersion.PyMin(w.version) then
      Final(Escaped(SystemExit(VersionGateMsg)), [], false, false)
    else
      match w.config
      case ConfigRaises(e) =>
        if e.OptionsError? then Final(Exit(5), [Error(LastResort, Text(e))], false, false)
        else Final(Escaped(e), [], false, false)
      case Config(debug, warning) =>
        var b := TryBody(w, warning);
        match b.end
        case Finished(c) => Final(Exit(c), b.events, b.cliBuilt, b.runCalled)
        case Raised(e) =>
          var (o, handled) := Handle(e, b.cliBuilt, debug, w.cliargs);
          Final(o, b.events + handled, b.cliBuilt, b.runCalled)
  }

  // ------------------------------------------------------ implementation

  /** `[to_text(a, errors='surrogate_or_strict') for a in sys.argv]`: the
      decoded list, or `None` when some entry raises `UnicodeError`. */
  method DecodeArgs(argv: seq<Option<string>>) returns (args: Option<seq<string>>)
    ensures args.Some? <==> AllDecode(argv)
    ensures args.Some? ==> |args.value| == |argv|
    ensures args.Some? ==> forall i :: 0 <= i < |argv| ==> args.value[i] == argv[i].value
  {
    var decoded: seq<string> := [];
    var i := 0;
    while i < |argv|
      invariant 0 <= i <= |argv|
      invariant forall j :: 0 <= j < i ==> argv[j].Some?
      invariant |decoded| == i
      invariant forall j :: 0 <= j < i ==> decoded[j] == argv[j].value
    {
      if argv[i].None? {
        return None;
      }
      decoded := decoded + [argv[i].value];
      i := i + 1;
    }
    return Some(decoded);
  }

  /** The block, statement by statement: the interpreter check, the guarded
      configuration import, then the main `try` and its `except` clauses. */
  method RunScript(w: World) returns (f: Final)
    ensures f == Dispatch(w)
  {
    if !PyVersion.PyMin(w.version) {
      return Final(Escaped(SystemExit(VersionGateMsg)), [], false, false);
    }
    var display := LastResort;
    if w.config.ConfigRaises? {
      var e := w.config.e;
      if e.OptionsError? {
        return Final(Exit(5), [Error(display, Text(e))], false, false);
      }
      return Final(Escaped(e), [], false, false);
    }
    var b := RunTryBody(w, w.config.controllerPythonWarning);
    if b.end.Finished? {
      return Final(Exit(b.end.code), b.events, b.cliBuilt, b.runCalled);
    }
    var outcome, handled := RunHandlers(b.end.e, b.cliBuilt, w.config.debug, w.cliargs);
    return Final(outcome, b.events + handled, b.cliBuilt, b.runCalled);
  }

  /** The body of the main `try`: the events it emits, whether `cli` was
      bound, and the exit code it set or the exception it raised. */
  method RunTryBody(w: World, controllerPythonWarning: bool) returns (b: Body)
    ensures b == TryBody(w, controllerPythonWarning)
  {
    var raised: Option<Exc> := None;
    var events: seq<Event> := [];
    if PyVersion.DeprecationDue(controllerPythonWarning, w.version) {
      events := events + [DeprecationNotice];
    }
    events := events + [Debug("starting run")];
    assert events == Opening(w.version, controllerPythonWarning);
    var resolved := AliasResolver.Resolve(w.me);
    if resolved.Err? {
      return Body(events, false, false, Raised(resolved.error));
    }
    var sub, myclass := resolved.value.sub, resolved.value.cls;
    var loaded := w.load(sub, myclass);
    if loaded.LoadRaises? {
      var e := loaded.e;
      if e.ImportError? && EndsWith(e.msg, " " + sub) {
        raised := Some(AnsibleError(NotImplementedPrefix + w.me));
      } else {
        raised := Some(e);
      }
    } else if loaded.NoSuchClass? {
      raised := Some(AttributeError(NoClassMsg(sub, myclass)));
    }
    assert raised == LoadFailure(w.me, resolved.value, loaded);
    if raised.Some? {
      return Body(events, false, false, Raised(raised.value));
    }
    ghost var opening := events;
    match w.mkdir {
      case Made =>
        events := events + [StateDirCreated];
      case MkdirFailed(errno, reason) =>
        if errno != EEXIST {
          events := events + [StateDirWarning(reason)];
        }
    }
    assert events == opening + StateDirNote(w.mkdir);
    var rest := RunInvoke(w);
    return Body(events + rest.events, rest.cliBuilt, rest.runCalled, rest.end);
  }

  /** Decoding the arguments, constructing the sub-command and running it:
      what this part emits, whether `cli` was bound, and how it ends. */
  method RunInvoke(w: World) returns (b: Body)
    ensures b == Invoke(w)
  {
    var args := DecodeArgs(w.argv);
    if args.None? {
      return Body([Error(Display, NotUtf8Msg), Traceback(false)], false, false, Finished(6));
    }
    assert args.value == Texts(w.argv);
    var failure := w.construct(args.value);
    if failure.Some? {
      // mycli(args) raised: cli is still None
      return Body([], false, false, Raised(failure.value));
    }
    // mycli(args) returned: cli is no longer None, and run() is entered
    match w.run {
      case Returns(c) => b := Body([], true, true, Finished(c));
      case Raises(e) => b := Body([], true, true, Raised(e));
    }
  }

  /** The `except` clauses of the main `try`, tried in order: the outcome and
      what they emit. */
  method RunHandlers(e: Exc, cli: bool, debug: bool, cliargs: CliArgs) returns (outcome: Outcome, events: seq<Event>)
    ensures outcome == Handle(e, cli, debug, cliargs).0
    ensures events == Handle(e, cli, debug, cliargs).1
  {
    events := [];
    var exitCode: int;
    if e.OptionsError? {
      if !cli {
        // cli.parser on None raises inside the handler and escapes
        return Escaped(AttributeError(NoParserMsg)), events;
      }
      events := events + [PrintHelp, Error(Display, Text(e))];
      exitCode := 5;
    } else if e.ParserError? {
      events := events + [Error(Display, Text(e))];
      exitCode := 4;
    } else if IsAnsibleError(e) {
      events := events + [Error(Display, Text(e))];
      exitCode := 1;
    } else if e.KeyboardInterrupt? {
      events := events + [Error(Display, InterruptedMsg)];
      exitCode := 99;
    } else if IsException(e) {
      if debug {
        // bare raise: the exception leaves the block unchanged
        return Escaped(e), events;
      }
      assert Handle(e, cli, debug, cliargs) == Generic(e, debug, cliargs);
      var haveCliOptions := !cliargs.NoCliArgs?;
      events := [Error(Display, UnexpectedPrefix + Text(e))];
      if haveCliOptions && cliargs.WithoutVerbosity? {
        // CLIARGS['verbosity'] raises inside the handler and escapes
        return Escaped(KeyError("verbosity")), events;
      }
      var logOnly: bool;
      if !haveCliOptions || cliargs.verbosity > 2 {
        logOnly := false;
        if e.OtherError? && e.orig.Some? {
          var why := e.orig.value.msg;
          events := events + [Vvv("\nexception type: " + e.orig.value.typeName)];
          if Text(e) != why {
            events := events + [Vvv("\noriginal msg: " + why)];
          }
        }
      } else {
        events := events + [VerboseHint];
        logOnly := true;
      }
      assert events == [Error(Display, UnexpectedPrefix + Text(e))] + (if logOnly then [VerboseHint] else CauseDetail(e));
      events := events + [Traceback(logOnly)];
      exitCode := 250;
    } else {
      // not an Exception: no clause matches
      return Escaped(e), events;
    }
    return Exit(exitCode), events;
  }
}
