/** What one run of the entry script guarantees, stated over every world:
    where each exit code comes from, the order of the handlers, the options
    handler's dependence on `cli`, the debug and verbosity gates, the
    encoding gate and the state directory's lack of influence. */
module DispatcherFacts {
  import opened Wrappers
  import opened Errors
  import opened PyString
  import opened Dispatcher
  import PyVersion
  import AliasResolver

  /** The interpreter check passed and the configuration loaded: the main
      `try` is entered. */
  predicate Started(w: World) {
    PyVersion.PyMin(w.version) && w.config.Config?
  }

  /** Alias resolution and class loading succeed. */
  predicate Loads(w: World) {
    AliasResolver.Resolve(w.me).Ok?
    && var t := AliasResolver.Resolve(w.me).value;
       w.load(t.sub, t.cls).Loaded?
  }

  /** The main `try` got past alias resolution and class loading. */
  predicate ClassLoaded(w: World) {
    Started(w) && Loads(w)
  }

  /** How the main `try` ends in this world. */
  function BodyOf(w: World): Body
    requires w.config.Config?
  {
    TryBody(w, w.config.controllerPythonWarning)
  }

  // ------------------------------------------------------------- startup

  /** The gate as written: when `_PY_MIN` is false the block stops with
      `SystemExit` before anything else. No interpreter that can parse the
      script gets here (`PyVersion.GateUnreachable`). */
  lemma UnsupportedInterpreter(w: World)
    requires !PyVersion.PyMin(w.version)
    ensures Dispatch(w) == Final(Escaped(SystemExit(VersionGateMsg)), [], false, false)
  {
  }

  /** An options error while importing the configuration exits with 5 through
      the last-resort sink before anything else runs; any other exception
      there escapes unchanged. */
  lemma ConfigFailure(w: World)
    requires PyVersion.PyMin(w.version) && w.config.ConfigRaises?
    ensures w.config.e.OptionsError? ==>
      Dispatch(w) == Final(Exit(5), [Error(LastResort, w.config.e.msg)], false, false)
    ensures !w.config.e.OptionsError? ==>
      Dispatch(w) == Final(Escaped(w.config.e), [], false, false)
  {
  }

  /** The deprecation notice is emitted first, and exactly when the warning
      flag is set and the interpreter is older than 3.8. */
  lemma DeprecationNoticeIff(w: World)
    requires Started(w)
    ensures |Dispatch(w).events| > 0
    ensures Dispatch(w).events[0] == DeprecationNotice <==>
      w.config.controllerPythonWarning && !PyVersion.Py38Min(w.version)
  {
    var b := BodyOf(w);
    assert b.events[..|Opening(w.version, w.config.controllerPythonWarning)|]
      == Opening(w.version, w.config.controllerPythonWarning);
  }

  // ------------------------------------------------- the handler table

  /** The handlers are tried in order and the first that matches wins,
      whether or not `cli` is bound: an options error and a parser error are
      kinds of `AnsibleError`, yet give 5 and 4, not 1; an interrupt is not
      an `Exception` and gives 99. Only the options handler looks at `cli`:
      with `cli` still `None`, its `cli.parser` raises `AttributeError`. */
  lemma HandlerOrder(e: Exc, cliBuilt: bool, debug: bool, cliargs: CliArgs)
    ensures e.OptionsError? ==>
      Handle(e, cliBuilt, debug, cliargs) ==
        if cliBuilt then (Exit(5), [PrintHelp, Error(Display, e.msg)])
        else (Escaped(AttributeError(NoParserMsg)), [])
    ensures e.ParserError? ==> Handle(e, cliBuilt, debug, cliargs) == (Exit(4), [Error(Display, e.msg)])
    ensures e.AnsibleError? ==> Handle(e, cliBuilt, debug, cliargs) == (Exit(1), [Error(Display, e.msg)])
    ensures e.KeyboardInterrupt? ==> Handle(e, cliBuilt, debug, cliargs) == (Exit(99), [Error(Display, InterruptedMsg)])
    ensures e.SystemExit? ==> Handle(e, cliBuilt, debug, cliargs) == (Escaped(e), [])
    ensures IsException(e) && !IsAnsibleError(e) ==>
      Handle(e, cliBuilt, debug, cliargs) == Generic(e, debug, cliargs)
  {
  }

  /** Exit code 5 from the main `try` needs `cli` bound: either `run()`
      returned 5, or it raised an options error and the help was printed
      before the message. */
  lemma Exit5NeedsCli(w: World)
    requires Started(w) && Dispatch(w).outcome == Exit(5)
    ensures Dispatch(w).cliBuilt && Dispatch(w).runCalled
    ensures w.run == Returns(5) || (w.run.Raises? && w.run.e.OptionsError? && PrintHelp in Dispatch(w).events)
  {
    var b := BodyOf(w);
    BodyCases(w, w.config.controllerPythonWarning);
    if b.end.Raised? {
      assert Dispatch(w).events == b.events + Handle(b.end.e, b.cliBuilt, w.config.debug, w.cliargs).1;
    }
  }

  /** An options error raised before `mycli(args)` returned reaches the
      options handler with `cli` still `None`: `cli.parser` raises
      `AttributeError`, which escapes instead of exiting with 5. */
  lemma OptionsErrorBeforeCliEscapes(w: World)
    requires Started(w)
    requires BodyOf(w).end.Raised? && BodyOf(w).end.e.OptionsError?
    ensures Dispatch(w).outcome == (if Dispatch(w).cliBuilt then Exit(5) else Escaped(AttributeError(NoParserMsg)))
    ensures !Dispatch(w).cliBuilt <==> !(ClassLoaded(w) && AllDecode(w.argv) && w.construct(Texts(w.argv)).None?)
  {
  }

  /** The same, for the two ways the script itself can get there: the
      sub-command module raising the error while it is imported, and its
      constructor raising it. */
  lemma EarlyOptionsError(w: World, m: string)
    requires Started(w) && AliasResolver.Resolve(w.me).Ok?
    requires var t := AliasResolver.Resolve(w.me).value;
      w.load(t.sub, t.cls) == LoadRaises(OptionsError(m))
      || (w.load(t.sub, t.cls).Loaded? && AllDecode(w.argv) && w.construct(Texts(w.argv)) == Some(OptionsError(m)))
    ensures Dispatch(w).outcome == Escaped(AttributeError(NoParserMsg))
    ensures !Dispatch(w).cliBuilt && !Dispatch(w).runCalled
  {
  }

  // -------------------------------------------- the generic handler

  /** In debug mode an unexpected exception is raised again: no exit code,
      and the handler emits nothing. */
  lemma DebugReraises(w: World)
    requires Started(w) && w.config.debug
    requires BodyOf(w).end.Raised?
    requires IsException(BodyOf(w).end.e) && !IsAnsibleError(BodyOf(w).end.e)
    ensures Dispatch(w).outcome == Escaped(BodyOf(w).end.e)
    ensures Dispatch(w).events == BodyOf(w).events
  {
  }

  /** Without debug mode an unexpected exception exits with 250 after a
      one-line report; the traceback goes to the log only, and the hint to
      use -vvv is shown, exactly when `CLIARGS` is filled and the verbosity
      is at most 2. A filled `CLIARGS` without a verbosity makes the handler
      itself fail with `KeyError`. */
  lemma LogOnlyGate(w: World)
    requires Started(w) && !w.config.debug
    requires BodyOf(w).end.Raised?
    requires IsException(BodyOf(w).end.e) && !IsAnsibleError(BodyOf(w).end.e)
    ensures var e := BodyOf(w).end.e;
      Dispatch(w).events[|BodyOf(w).events|] == Error(Display, UnexpectedPrefix + Text(e))
    ensures w.cliargs.WithoutVerbosity? ==> Dispatch(w).outcome == Escaped(KeyError("verbosity"))
    ensures !w.cliargs.WithoutVerbosity? ==>
      && Dispatch(w).outcome == Exit(250)
      && var logOnly := w.cliargs.CliArgs? && w.cliargs.verbosity <= 2;
      && Dispatch(w).events[|Dispatch(w).events| - 1] == Traceback(logOnly)
      && (VerboseHint in Dispatch(w).events <==> logOnly)
  {
    var b := BodyOf(w);
    var e := b.end.e;
    RaisedBody(w, b);
    HandleUnexpected(e, b.cliBuilt, false, w.cliargs);
    var handled := Generic(e, false, w.cliargs).1;
    assert Dispatch(w).events == b.events + handled;
    BodyHasNoHint(w);
    GenericGate(e, w.cliargs);
  }

  /** The generic handler outside debug mode, on its own. */
  lemma GenericGate(e: Exc, cliargs: CliArgs)
    ensures cliargs.WithoutVerbosity? ==> Generic(e, false, cliargs).0 == Escaped(KeyError("verbosity"))
    ensures var (o, handled) := Generic(e, false, cliargs);
      !cliargs.WithoutVerbosity? ==>
      && o == Exit(250)
      && var logOnly := cliargs.CliArgs? && cliargs.verbosity <= 2;
      && handled[|handled| - 1] == Traceback(logOnly)
      && (VerboseHint in handled <==> logOnly)
  {
    assert VerboseHint !in CauseDetail(e);
  }

  /** The main `try` never shows the -vvv hint itself. */
  lemma BodyHasNoHint(w: World)
    requires w.config.Config?
    ensures VerboseHint !in BodyOf(w).events
  {
    var opening := Opening(w.version, w.config.controllerPythonWarning);
    assert VerboseHint !in opening;
    assert VerboseHint !in StateDirNote(w.mkdir);
    assert VerboseHint !in Invoke(w).events;
  }

  // ---------------------------------------------------- loading

  /** An alias that resolves to nothing known exits with 1 after reporting
      the basename; nothing is loaded or run. */
  lemma UnknownAliasExits1(w: World)
    requires Started(w)
    requires AliasResolver.Resolve(w.me).Err? && AliasResolver.Resolve(w.me).error.AnsibleError?
    ensures Dispatch(w).outcome == Exit(1)
    ensures Dispatch(w).events[|Dispatch(w).events| - 1] == Error(Display, AliasResolver.UnknownAliasPrefix + w.me)
    ensures !Dispatch(w).cliBuilt && !Dispatch(w).runCalled
  {
  }

  /** A basename that is empty, ends with `-` or is a lone version token
      makes resolution raise `IndexError`, which the generic handler takes. */
  lemma AliasIndexError(w: World)
    requires Started(w)
    requires |w.me| == 0 || w.me[|w.me| - 1] == '-' || ('-' !in w.me && IsDigit(w.me[0]))
    ensures AliasResolver.Resolve(w.me).Err? && AliasResolver.Resolve(w.me).error.IndexError?
    ensures Dispatch(w).outcome == Generic(AliasResolver.Resolve(w.me).error, w.config.debug, w.cliargs).0
    ensures !Dispatch(w).cliBuilt && !Dispatch(w).runCalled
  {
    AliasResolver.IndexErrorIff(w.me);
  }

  /** An `ImportError` raised while importing the sub-command, whatever
      raised it, is reported as "not implemented" and exits with 1 when its
      message ends with the sub-command's name; any other goes to the generic
      handler unchanged. */
  lemma ImportDiscrimination(w: World, t: AliasResolver.Target, msg: string)
    requires Started(w) && AliasResolver.Resolve(w.me) == Ok(t)
    requires w.load(t.sub, t.cls) == LoadRaises(ImportError(msg))
    ensures EndsWith(msg, " " + t.sub) ==>
      Dispatch(w).outcome == Exit(1)
      && Dispatch(w).events[|Dispatch(w).events| - 1] == Error(Display, NotImplementedPrefix + w.me)
    ensures !EndsWith(msg, " " + t.sub) ==>
      Dispatch(w).outcome == Generic(ImportError(msg), w.config.debug, w.cliargs).0
    ensures !Dispatch(w).cliBuilt && !Dispatch(w).runCalled
  {
    var e := LoadFailure(w.me, t, LoadRaises(ImportError(msg))).value;
    LoadFailureHandled(w, t, e);
    var handled := Handle(e, false, w.config.debug, w.cliargs);
    if EndsWith(msg, " " + t.sub) {
      assert handled == (Exit(1), [Error(Display, NotImplementedPrefix + w.me)]);
    } else {
      HandleUnexpected(e, false, w.config.debug, w.cliargs);
    }
  }

  /** An `Exception` that is no `AnsibleError` goes to the generic handler. */
  lemma HandleUnexpected(e: Exc, cliBuilt: bool, debug: bool, cliargs: CliArgs)
    requires IsException(e) && !IsAnsibleError(e)
    ensures Handle(e, cliBuilt, debug, cliargs) == Generic(e, debug, cliargs)
  {
  }

  /** A run that stops at loading: the opening, then what the handler table
      makes of the loading step's exception. */
  lemma LoadFailureHandled(w: World, t: AliasResolver.Target, e: Exc)
    requires Started(w) && AliasResolver.Resolve(w.me) == Ok(t)
    requires LoadFailure(w.me, t, w.load(t.sub, t.cls)) == Some(e)
    ensures Dispatch(w) == Final(Handle(e, false, w.config.debug, w.cliargs).0,
                                 Opening(w.version, w.config.controllerPythonWarning) + Handle(e, false, w.config.debug, w.cliargs).1,
                                 false, false)
  {
    var opening := Opening(w.version, w.config.controllerPythonWarning);
    LoadFails(w, w.config.controllerPythonWarning, t, e);
    RaisedBody(w, Body(opening, false, false, Raised(e)));
  }

  /** A body that stops at loading emits only its opening and raises what
      the loading step raised. */
  lemma LoadFails(w: World, warning: bool, t: AliasResolver.Target, e: Exc)
    requires AliasResolver.Resolve(w.me) == Ok(t)
    requires LoadFailure(w.me, t, w.load(t.sub, t.cls)) == Some(e)
    ensures TryBody(w, warning) == Body(Opening(w.version, warning), false, false, Raised(e))
  {
  }

  /** A body that raises hands its exception to the handler table, whose
      outcome and events close the run. */
  lemma RaisedBody(w: World, b: Body)
    requires Started(w) && BodyOf(w) == b && b.end.Raised?
    ensures Dispatch(w) == Final(Handle(b.end.e, b.cliBuilt, w.config.debug, w.cliargs).0,
                                 b.events + Handle(b.end.e, b.cliBuilt, w.config.debug, w.cliargs).1,
                                 b.cliBuilt, b.runCalled)
  {
  }

  // ------------------------------------------------ running the sub-command

  /** `run()` is entered exactly when the class loaded, every argument
      decoded and the constructor returned (and `cli` is bound exactly then,
      by the contract of `Dispatch`). */
  lemma RunReachedIff(w: World)
    requires Started(w)
    ensures Dispatch(w).runCalled <==> ClassLoaded(w) && AllDecode(w.argv) && w.construct(Texts(w.argv)).None?
  {
  }

  /** When `run()` returns, its value is the exit code. */
  lemma RunReturnIsExitCode(w: World)
    requires Started(w) && Dispatch(w).runCalled && w.run.Returns?
    ensures Dispatch(w).outcome == Exit(w.run.code)
  {
  }

  /** An argument that does not decode stops the run with 6: the
      sub-command is neither constructed nor run. */
  lemma EncodingGate(w: World)
    requires ClassLoaded(w) && !AllDecode(w.argv)
    ensures Dispatch(w).outcome == Exit(6)
    ensures !Dispatch(w).cliBuilt && !Dispatch(w).runCalled
    ensures var evs := Dispatch(w).events;
      |evs| >= 2 && evs[|evs| - 2..] == [Error(Display, NotUtf8Msg), Traceback(false)]
  {
  }

  // -------------------------------------------------- the state directory

  predicate IsDirNote(ev: Event) {
    ev.StateDirCreated? || ev.StateDirWarning?
  }

  /** The events of `evs` that are state-directory notes (`notes`) or that
      are not (`!notes`), in order. */
  function Filter(evs: seq<Event>, notes: bool): seq<Event> {
    if evs == [] then []
    else (if IsDirNote(evs[0]) == notes then [evs[0]] else []) + Filter(evs[1..], notes)
  }

  function DirNotes(evs: seq<Event>): seq<Event> {
    Filter(evs, true)
  }

  function OtherEvents(evs: seq<Event>): seq<Event> {
    Filter(evs, false)
  }

  lemma {:induction false} FilterAppend(a: seq<Event>, b: seq<Event>, notes: bool)
    ensures Filter(a + b, notes) == Filter(a, notes) + Filter(b, notes)
  {
    if a == [] {
      assert a + b == b;
    } else {
      var head := if IsDirNote(a[0]) == notes then [a[0]] else [];
      calc {
        Filter(a + b, notes);
        { assert (a + b)[0] == a[0]; assert (a + b)[1..] == a[1..] + b; }
        head + Filter(a[1..] + b, notes);
        { FilterAppend(a[1..], b, notes); }
        head + (Filter(a[1..], notes) + Filter(b, notes));
        Filter(a, notes) + Filter(b, notes);
      }
    }
  }

  lemma FiltersAppend(a: seq<Event>, b: seq<Event>)
    ensures DirNotes(a + b) == DirNotes(a) + DirNotes(b)
    ensures OtherEvents(a + b) == OtherEvents(a) + OtherEvents(b)
  {
    FilterAppend(a, b, true);
    FilterAppend(a, b, false);
  }

  lemma {:induction false} NoDirNotes(evs: seq<Event>)
    requires forall i :: 0 <= i < |evs| ==> !IsDirNote(evs[i])
    ensures DirNotes(evs) == [] && OtherEvents(evs) == evs
  {
    if evs != [] {
      NoDirNotes(evs[1..]);
      assert [evs[0]] + evs[1..] == evs;
    }
  }

  /** What the directory step emits: one debug note when it was created,
      nothing when it already existed, one warning on any other error. */
  lemma StateDirNoteCases(m: Mkdir)
    ensures m.Made? ==> StateDirNote(m) == [StateDirCreated]
    ensures m.MkdirFailed? && m.errno == EEXIST ==> StateDirNote(m) == []
    ensures m.MkdirFailed? && m.errno != EEXIST ==> StateDirNote(m) == [StateDirWarning(m.reason)]
    ensures DirNotes(StateDirNote(m)) == StateDirNote(m) && OtherEvents(StateDirNote(m)) == []
  {
    var note := StateDirNote(m);
    if note != [] {
      assert |note| == 1 && IsDirNote(note[0]);
      assert note[1..] == [];
      assert Filter(note, true) == [note[0]] + Filter([], true);
      assert Filter(note, false) == [] + Filter([], false);
    }
  }

  /** The events of a run, with the directory step's apart. */
  lemma EventsSplit(w: World)
    requires Started(w)
    ensures DirNotes(Dispatch(w).events) == if ClassLoaded(w) then StateDirNote(w.mkdir) else []
  {
    var b := BodyOf(w);
    var handled := Handled(w);
    assert Dispatch(w).events == b.events + handled;
    FiltersAppend(b.events, handled);
    HandledHasNoDirNote(w);
    NoDirNotes(handled);
    BodyDirNotes(w, w.config.controllerPythonWarning);
  }

  /** What the `except` clauses add to the body's events. */
  function Handled(w: World): seq<Event>
    requires w.config.Config?
  {
    var b := BodyOf(w);
    if b.end.Raised? then Handle(b.end.e, b.cliBuilt, w.config.debug, w.cliargs).1 else []
  }

  lemma HandledHasNoDirNote(w: World)
    requires w.config.Config?
    ensures forall i :: 0 <= i < |Handled(w)| ==> !IsDirNote(Handled(w)[i])
  {
    var b := BodyOf(w);
    if b.end.Raised? {
      HandleHasNoDirNote(b.end.e, b.cliBuilt, w.config.debug, w.cliargs);
    }
  }

  lemma HandleHasNoDirNote(e: Exc, cliBuilt: bool, debug: bool, cliargs: CliArgs)
    ensures var evs := Handle(e, cliBuilt, debug, cliargs).1;
      forall i :: 0 <= i < |evs| ==> !IsDirNote(evs[i])
  {
    assert forall i :: 0 <= i < |CauseDetail(e)| ==> !IsDirNote(CauseDetail(e)[i]);
  }

  /** The body in two cases: it stops before the directory step, having
      emitted only its opening events, or it goes through it. */
  lemma BodyCases(w: World, warning: bool)
    ensures var b := TryBody(w, warning);
      !Loads(w) ==>
        b.events == Opening(w.version, warning) && !b.cliBuilt && !b.runCalled && b.end.Raised?
    ensures var b := TryBody(w, warning);
      Loads(w) ==>
        b == Body(Opening(w.version, warning) + StateDirNote(w.mkdir) + Invoke(w).events,
                  Invoke(w).cliBuilt, Invoke(w).runCalled, Invoke(w).end)
  {
  }

  /** The body emits the directory note once it got past loading, and no
      other note. */
  lemma BodyDirNotes(w: World, warning: bool)
    ensures DirNotes(TryBody(w, warning).events) == if Loads(w) then StateDirNote(w.mkdir) else []
  {
    var opening := Opening(w.version, warning);
    BodyCases(w, warning);
    OpeningAndInvokeHaveNoDirNote(w, warning);
    if Loads(w) {
      var rest := Invoke(w).events;
      assert TryBody(w, warning).events == opening + StateDirNote(w.mkdir) + rest;
      OpeningThenNote(opening, w.mkdir, rest);
    } else {
      NoDirNotes(opening);
    }
  }

  /** Invoking the sub-command does not look at the directory step. */
  lemma InvokeIgnoresDir(w: World, m: Mkdir)
    ensures Invoke(w.(mkdir := m)) == Invoke(w)
  {
  }

  /** The directory step changes nothing in the body but its own note. */
  lemma BodyIgnoresDir(w: World, warning: bool, m: Mkdir)
    ensures var b, b' := TryBody(w, warning), TryBody(w.(mkdir := m), warning);
      && b'.end == b.end && b'.cliBuilt == b.cliBuilt && b'.runCalled == b.runCalled
      && OtherEvents(b'.events) == OtherEvents(b.events)
  {
    BodyEndIgnoresDir(w, warning, m);
    BodyEventsIgnoreDir(w, warning, m);
  }

  lemma BodyEndIgnoresDir(w: World, warning: bool, m: Mkdir)
    ensures var b, b' := TryBody(w, warning), TryBody(w.(mkdir := m), warning);
      && b'.end == b.end && b'.cliBuilt == b.cliBuilt && b'.runCalled == b.runCalled
  {
    var w' := w.(mkdir := m);
    BodyCases(w, warning);
    BodyCases(w', warning);
    assert Loads(w') == Loads(w);
    if Loads(w) {
      InvokeIgnoresDir(w, m);
    }
  }

  lemma BodyEventsIgnoreDir(w: World, warning: bool, m: Mkdir)
    ensures OtherEvents(TryBody(w.(mkdir := m), warning).events) == OtherEvents(TryBody(w, warning).events)
  {
    var w' := w.(mkdir := m);
    assert Loads(w') == Loads(w);
    BodyCases(w, warning);
    BodyCases(w', warning);
    if Loads(w) {
      var opening, rest := Opening(w.version, warning), Invoke(w).events;
      InvokeIgnoresDir(w, m);
      OpeningAndInvokeHaveNoDirNote(w, warning);
      assert TryBody(w, warning).events == opening + StateDirNote(w.mkdir) + rest;
      assert TryBody(w', warning).events == opening + StateDirNote(m) + rest;
      OpeningThenNote(opening, w.mkdir, rest);
      OpeningThenNote(opening, m, rest);
    }
  }

  /** Neither the opening nor the invocation emits a directory note. */
  lemma OpeningAndInvokeHaveNoDirNote(w: World, warning: bool)
    ensures forall i :: 0 <= i < |Opening(w.version, warning)| ==> !IsDirNote(Opening(w.version, warning)[i])
    ensures forall i :: 0 <= i < |Invoke(w).events| ==> !IsDirNote(Invoke(w).events[i])
  {
  }

  /** The directory note between an opening and a rest that hold none: it is
      the only note, and removing it leaves the other two. */
  lemma OpeningThenNote(opening: seq<Event>, m: Mkdir, rest: seq<Event>)
    requires forall i :: 0 <= i < |opening| ==> !IsDirNote(opening[i])
    requires forall i :: 0 <= i < |rest| ==> !IsDirNote(rest[i])
    ensures DirNotes(opening + StateDirNote(m) + rest) == StateDirNote(m)
    ensures OtherEvents(opening + StateDirNote(m) + rest) == opening + rest
  {
    StateDirNoteCases(m);
    NoDirNotes(opening);
    NoDirNotes(rest);
    FiltersAppend(opening, StateDirNote(m));
    FiltersAppend(opening + StateDirNote(m), rest);
  }

  /** Whatever `mkdir` does, the run ends the same way, binds `cli` and calls
      `run()` the same way, and emits the same events apart from the
      directory step's own note. */
  lemma StateDirNeverDecides(w: World, m: Mkdir)
    requires Started(w)
    ensures Dispatch(w.(mkdir := m)).outcome == Dispatch(w).outcome
    ensures Dispatch(w.(mkdir := m)).cliBuilt == Dispatch(w).cliBuilt
    ensures Dispatch(w.(mkdir := m)).runCalled == Dispatch(w).runCalled
    ensures OtherEvents(Dispatch(w.(mkdir := m)).events) == OtherEvents(Dispatch(w).events)
  {
    var w' := w.(mkdir := m);
    BodyIgnoresDir(w, w.config.controllerPythonWarning, m);
    var b, b' := BodyOf(w), BodyOf(w');
    assert Handled(w') == Handled(w);
    assert Dispatch(w).events == b.events + Handled(w);
    assert Dispatch(w').events == b'.events + Handled(w);
    FiltersAppend(b.events, Handled(w));
    FiltersAppend(b'.events, Handled(w));
  }

  // ---------------------------------------------------- end to end

  /** `ansible-playbook-2.9` whose `run()` raises a parser error exits with 4
      and reports the error's text. */
  lemma PlaybookParserError(w: World, first: string, sub: string, version: string, m: string)
    requires first == "ansible" && sub == "playbook" && version == "2.9"
    requires Started(w) && w.me == first + "-" + sub + "-" + version
    requires w.load("playbook", "PlaybookCLI").Loaded? && AllDecode(w.argv) && w.construct(Texts(w.argv)).None?
    requires w.run == Raises(ParserError(m))
    ensures Dispatch(w).outcome == Exit(4)
    ensures Error(Display, m) in Dispatch(w).events
  {
    AliasResolver.PlaybookExample(first, sub, version);
    var evs := Dispatch(w).events;
    assert evs[|evs| - 1] == Error(Display, m);
  }

  /** `ansible` alone whose `AdHocCLI.run()` returns 0 exits with 0. */
  lemma AdHocSucceeds(w: World)
    requires Started(w) && w.me == AliasResolver.Primary
    requires w.load("adhoc", "AdHocCLI").Loaded? && AllDecode(w.argv) && w.construct(Texts(w.argv)).None?
    requires w.run == Returns(0)
    ensures Dispatch(w).outcome == Exit(0)
    ensures Dispatch(w).cliBuilt && Dispatch(w).runCalled
  {
    AliasResolver.PrimaryExample();
  }
}
