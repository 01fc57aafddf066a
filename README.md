# The `ansible` multi-call entry script, modelled in Dafny

`lib/ansible/cli/scripts/ansible_cli_stub.py` is the single executable that
is installed under many names (`ansible`, `ansible-playbook`,
`ansible-playbook-2.9`, ...). It works out from the name it was invoked
under which sub-command module to import and which class to load. It then
prepares the `~/.ansible` state directory, decodes the argument vector,
constructs the sub-command and runs it. Every failure is translated into one
process exit code by an ordered table of `except` clauses.

The project models that script:

- `pystring.dfy` (module `PyString`): the Python string methods the script
  relies on. These are `split('-')` (with `Join` as its inverse),
  `isdigit` on one character, `capitalize` and `endswith`.
- `pyversion.dfy` (module `PyVersion`): the interpreter-version predicates.
  Python's lexicographic tuple comparison is written out, and closed forms
  are proved from it.
- `errors.dfy` (module `Errors`): the exception kinds that reach the
  handlers. `AnsibleOptionsError` and `AnsibleParserError` are kinds of
  `AnsibleError`. `KeyboardInterrupt` and `SystemExit` are not
  `Exception`s.
- `alias.dfy` (module `AliasResolver`): alias resolution. It maps the
  basename to the sub-command and class name, or to the exception the
  script raises.
- `dispatcher.dfy` (module `Dispatcher`): the `__main__` block.
  - `World` holds everything the block consults outside itself.
  - `Dispatch` is the outcome of one run as a function of the world: the
    stages of the main `try` (`TryBody`, `Invoke`), then the handler table
    (`Handle`, `Generic`).
  - `RunScript` and its parts (`RunTryBody`, `RunInvoke`, `DecodeArgs`,
    `RunHandlers`) are the block written statement by statement, and are
    proved to produce exactly `Dispatch`.
  - A run ends in one `Final` record: an exit code or an escaping
    exception, the emitted events, and whether `cli` was bound and `run()`
    entered. So there is exactly one outcome per run by construction.
- `dispatcher_facts.dfy` (module `DispatcherFacts`): the properties of a
  run, proved over every world.

A few behaviours of the code shape the model:

- Any last token whose first character is a digit (`2.9`, `3x`) is dropped
  as a version suffix, and only once.
- When `~/.ansible` already exists nothing is emitted. The debug note is
  emitted only when the directory was created.
- The options handler prints help through `cli.parser`. When `cli` is still
  `None`, that raises `AttributeError` inside the handler, and it escapes
  instead of exit 5.
- Every `ImportError` raised by the import at line 101 goes through the
  `endswith` test at line 105, whatever raised it.

## Model

| member | source | states |
|---|---|---|
| PyString.Split | lib/ansible/cli/scripts/ansible_cli_stub.py:85 | `me.split('-')`: never an empty list, and no part holds `-` |
| PyString.JoinSplit | lib/ansible/cli/scripts/ansible_cli_stub.py:85 | joining the parts of `me.split('-')` with `-` gives back `me`: nothing is lost or added |
| PyString.SplitJoin | lib/ansible/cli/scripts/ansible_cli_stub.py:85 | splitting undoes joining parts that hold no `-`; with JoinSplit, split and join are inverse |
| PyString.SplitNoSep | lib/ansible/cli/scripts/ansible_cli_stub.py:85 | a string without `-` splits into itself alone |
| PyString.SplitAfterPart | lib/ansible/cli/scripts/ansible_cli_stub.py:85 | a leading part without `-` comes off as the first token |
| PyString.SinglePart | lib/ansible/cli/scripts/ansible_cli_stub.py:85 | the split has one token exactly when the string holds no `-` |
| PyString.LastPartEmpty | lib/ansible/cli/scripts/ansible_cli_stub.py:86 | the last token, whose first character is tested, is empty exactly when the basename is empty or ends with `-` |
| PyString.Capitalize | lib/ansible/cli/scripts/ansible_cli_stub.py:93 | `sub.capitalize()` keeps the length, upper-cases the first character and lower-cases every later one |
| PyString.IsDigit | lib/ansible/cli/scripts/ansible_cli_stub.py:86 | `isdigit()` on the first character of the last token (a definition: the ASCII digits) |
| PyString.EndsWith | lib/ansible/cli/scripts/ansible_cli_stub.py:105 | `msg.endswith(...)` (a definition: the last characters are the suffix) |
| PyVersion.Py38Min | lib/ansible/cli/scripts/ansible_cli_stub.py:39 | `_PY38_MIN` as written, as a tuple comparison; its closed form is Py38MinIff |
| PyVersion.Py3Min | lib/ansible/cli/scripts/ansible_cli_stub.py:40 | `_PY3_MIN` as written; its closed form is Py3MinIff |
| PyVersion.Py2Min | lib/ansible/cli/scripts/ansible_cli_stub.py:41 | the chained comparison `_PY2_MIN` as written; its closed form is Py2MinIff |
| PyVersion.PyMin | lib/ansible/cli/scripts/ansible_cli_stub.py:42 | `_PY_MIN` as written; its closed form is in SupportedVersions |
| PyVersion.DeprecationDue | lib/ansible/cli/scripts/ansible_cli_stub.py:76 | the deprecation condition; its closed form is in SupportedVersions and GateUnreachable |
| PyVersion.PairLess | lib/ansible/cli/scripts/ansible_cli_stub.py:39-41 | tuple `<` on two pairs compares majors, then minors |
| PyVersion.PairLessSingle | lib/ansible/cli/scripts/ansible_cli_stub.py:41 | `(a, b) < (c,)` exactly when `a < c`, so `(3, 0) < (3,)` is false |
| PyVersion.Py38MinIff | lib/ansible/cli/scripts/ansible_cli_stub.py:39 | `_PY38_MIN` holds exactly for 3.8 and later |
| PyVersion.Py3MinIff | lib/ansible/cli/scripts/ansible_cli_stub.py:40 | `_PY3_MIN` holds exactly for 3.5 and later |
| PyVersion.Py2MinIff | lib/ansible/cli/scripts/ansible_cli_stub.py:41 | `_PY2_MIN` holds exactly for 2.6 to 2.x |
| PyVersion.SupportedVersions | lib/ansible/cli/scripts/ansible_cli_stub.py:39-46 | `_PY_MIN` accepts exactly 2.6–2.x and 3.5 and later; with the warning flag set, the deprecation condition holds of exactly 2.6–2.x and 3.5–3.7 among them; 3.8 and later pass and are never warned |
| PyVersion.GateUnreachable | lib/ansible/cli/scripts/ansible_cli_stub.py:39-46 | every interpreter that accepts the file's f-strings (3.6 and later) passes `_PY_MIN`, so the `SystemExit` branch is never taken; among them the deprecation concerns exactly 3.6 and 3.7 |
| AliasResolver.Resolve | lib/ansible/cli/scripts/ansible_cli_stub.py:84-98 | a resolved sub-command holds no `-` and is `adhoc`/`AdHocCLI` or has class `capitalize(sub)+"CLI"`; a failure is an `IndexError` or `AnsibleError("Unknown Ansible alias: <me>")` |
| AliasResolver.Decide | lib/ansible/cli/scripts/ansible_cli_stub.py:86-98 | the decision on the tokens of `me`: the sub-command it picks holds no `-` |
| AliasResolver.Kept | lib/ansible/cli/scripts/ansible_cli_stub.py:86-89 | the tokens left after the version check: a prefix of the tokens, one shorter exactly when the last token starts with a digit |
| AliasResolver.ClassFor | lib/ansible/cli/scripts/ansible_cli_stub.py:93 | the class name: the capitalized sub-command followed by `CLI` |
| AliasResolver.IndexErrorIff | lib/ansible/cli/scripts/ansible_cli_stub.py:85-94 | resolution raises `IndexError` exactly when the basename is empty, ends with `-`, or is one token starting with a digit (dropped, leaving nothing for `target[0]`) |
| AliasResolver.SecondToken | lib/ansible/cli/scripts/ansible_cli_stub.py:85-93 | with three or more tokens the sub-command is the second token, whatever the first and the rest are; the version token is dropped once only (`ansible-3-2` gives `3`) |
| AliasResolver.TwoTokens | lib/ansible/cli/scripts/ansible_cli_stub.py:85-93 | with two tokens, the second not digit-led, the sub-command is the second token |
| AliasResolver.SoleToken | lib/ansible/cli/scripts/ansible_cli_stub.py:94-98 | a lone `ansible` resolves to `adhoc`/`AdHocCLI`; any other lone name is an unknown alias |
| AliasResolver.SoleTokenVersioned | lib/ansible/cli/scripts/ansible_cli_stub.py:85-98 | after the one drop of the version token, the lone-token rule decides on `<name>`: `adhoc` for `ansible`, otherwise an unknown alias naming the full basename, even when `<name>` is empty or digit-led (where `<name>` alone would raise `IndexError`) |
| AliasResolver.PlaybookExample | lib/ansible/cli/scripts/ansible_cli_stub.py:85-93 | `ansible-playbook-2.9` gives `playbook`/`PlaybookCLI` |
| AliasResolver.PrimaryExample | lib/ansible/cli/scripts/ansible_cli_stub.py:94-96 | `ansible` gives `adhoc`/`AdHocCLI` |
| AliasResolver.AdhocAliasExample | lib/ansible/cli/scripts/ansible_cli_stub.py:91-96 | `ansible-adhoc` gives `adhoc` with class `AdhocCLI`, not the `AdHocCLI` of bare `ansible` |
| Dispatcher.Dispatch | lib/ansible/cli/scripts/ansible_cli_stub.py:39-167 | one run: every exit code is 1, 4, 5, 6, 99 or 250, or the value `run()` returned; `cli` is bound exactly when `run()` was entered |
| Dispatcher.Opening | lib/ansible/cli/scripts/ansible_cli_stub.py:75-82 | the body's first events: the deprecation notice first exactly when it is due, and the `starting run` debug line last |
| Dispatcher.TryBody | lib/ansible/cli/scripts/ansible_cli_stub.py:74-129 | the main `try`: it starts with the opening, binds `cli` exactly when `run()` is entered, and finishes only with 6 or with what `run()` returned |
| Dispatcher.LoadFailure | lib/ansible/cli/scripts/ansible_cli_stub.py:100-108 | the loading step raises nothing exactly when the class loaded, and never lets through an `ImportError` whose message ends with `" " + sub` |
| Dispatcher.StateDirNote | lib/ansible/cli/scripts/ansible_cli_stub.py:110-119 | the directory step emits at most one note, and none exactly when the directory already existed |
| Dispatcher.Invoke | lib/ansible/cli/scripts/ansible_cli_stub.py:121-129 | `run()` is entered, and `cli` bound, exactly when every argument decodes and the constructor returns; finishing means 6 before construction or `run()`'s value |
| Dispatcher.Handle | lib/ansible/cli/scripts/ansible_cli_stub.py:131-165 | the handler table exits only with 1, 4, 5, 99 or 250, and with 5 only for an options error once `cli` is bound, after printing the help |
| Dispatcher.Generic | lib/ansible/cli/scripts/ansible_cli_stub.py:144-165 | the `except Exception` clause exits 250 or lets the exception, or a `KeyError`, escape; outside debug mode the report comes first, in debug mode it emits nothing |
| Dispatcher.DecodeArgs | lib/ansible/cli/scripts/ansible_cli_stub.py:121-123 | the argument list decodes exactly when every entry decodes, and is then the entries' texts in order |
| Dispatcher.RunScript | lib/ansible/cli/scripts/ansible_cli_stub.py:39-167 | the block run statement by statement ends exactly as `Dispatch` says: same outcome, same events, same `cli` |
| Dispatcher.RunTryBody | lib/ansible/cli/scripts/ansible_cli_stub.py:74-129 | the main `try` body emits, binds and raises exactly what `TryBody` says |
| Dispatcher.RunInvoke | lib/ansible/cli/scripts/ansible_cli_stub.py:121-129 | decoding, construction and `run()` end exactly as `Invoke` says |
| Dispatcher.RunHandlers | lib/ansible/cli/scripts/ansible_cli_stub.py:131-165 | the `except` clauses tried in order give exactly the outcome and events of the table `Handle` |
| DispatcherFacts.UnsupportedInterpreter | lib/ansible/cli/scripts/ansible_cli_stub.py:43-46 | the gate as written: when `_PY_MIN` is false the block stops with `SystemExit` before anything is emitted (never reached in practice, see GateUnreachable) |
| DispatcherFacts.ConfigFailure | lib/ansible/cli/scripts/ansible_cli_stub.py:60-67 | an options error importing the configuration exits 5 with one message on the last-resort sink; any other exception there escapes unchanged |
| DispatcherFacts.DeprecationNoticeIff | lib/ansible/cli/scripts/ansible_cli_stub.py:75-82 | the first event is the Python 3.8 deprecation notice exactly when `CONTROLLER_PYTHON_WARNING` is set and the interpreter is below 3.8 |
| DispatcherFacts.HandlerOrder | lib/ansible/cli/scripts/ansible_cli_stub.py:131-165 | first match wins, whether or not `cli` is bound: options error 5 with help first when `cli` is bound and otherwise an escaping `AttributeError`, parser error 4, other `AnsibleError` 1, interrupt 99, `SystemExit` uncaught, any other exception the generic handler |
| DispatcherFacts.Exit5NeedsCli | lib/ansible/cli/scripts/ansible_cli_stub.py:128-134 | exit 5 from the main `try` means `cli` was bound and `run()` entered: it returned 5, or raised an options error and help was printed |
| DispatcherFacts.OptionsErrorBeforeCliEscapes | lib/ansible/cli/scripts/ansible_cli_stub.py:73-134 | an options error reaching the handler exits 5 if `cli` is bound and otherwise escapes as `AttributeError`; `cli` is unbound exactly when the constructor was not reached or raised |
| DispatcherFacts.EarlyOptionsError | lib/ansible/cli/scripts/ansible_cli_stub.py:100-134 | an options error raised while importing the sub-command or by its constructor escapes as `AttributeError`, with nothing run |
| DispatcherFacts.DebugReraises | lib/ansible/cli/scripts/ansible_cli_stub.py:144-148 | with `DEFAULT_DEBUG` an unexpected exception escapes unchanged and the handler emits nothing |
| DispatcherFacts.LogOnlyGate | lib/ansible/cli/scripts/ansible_cli_stub.py:149-165 | without debug: the report comes first; exit 250 with the traceback log-only, and the -vvv hint shown, exactly when `CLIARGS` is filled and verbosity ≤ 2; a filled `CLIARGS` without verbosity raises `KeyError` |
| DispatcherFacts.AliasIndexError | lib/ansible/cli/scripts/ansible_cli_stub.py:85-94 | an empty basename, one ending in `-`, or a lone version token raises `IndexError` into the generic handler, with nothing loaded or run |
| DispatcherFacts.UnknownAliasExits1 | lib/ansible/cli/scripts/ansible_cli_stub.py:94-98 | an unknown alias exits 1 after reporting the basename; nothing is loaded or run |
| DispatcherFacts.ImportDiscrimination | lib/ansible/cli/scripts/ansible_cli_stub.py:100-108 | any `ImportError` raised by the import, whatever raised it, exits 1 as "sub-program not implemented" when its message ends with `" " + sub`; otherwise it goes to the generic handler unchanged |
| DispatcherFacts.RunReachedIff | lib/ansible/cli/scripts/ansible_cli_stub.py:121-129 | `run()` is entered exactly when the class loaded, every argument decoded and the constructor returned |
| DispatcherFacts.RunReturnIsExitCode | lib/ansible/cli/scripts/ansible_cli_stub.py:128-129 | when `run()` returns, its value is the exit code |
| DispatcherFacts.EncodingGate | lib/ansible/cli/scripts/ansible_cli_stub.py:121-127 | an argument that does not decode ends the run with 6 after the error and traceback; nothing is constructed or run |
| DispatcherFacts.StateDirNoteCases | lib/ansible/cli/scripts/ansible_cli_stub.py:110-119 | creating the directory emits one debug note, `EEXIST` nothing, any other error one warning |
| DispatcherFacts.EventsSplit | lib/ansible/cli/scripts/ansible_cli_stub.py:110-119 | a run's directory notes are exactly the directory step's, once the class is loaded, and none otherwise |
| DispatcherFacts.StateDirNeverDecides | lib/ansible/cli/scripts/ansible_cli_stub.py:110-119 | whatever `mkdir` does, outcome, `cli` and `run()` are the same, and so is every event but the directory note |
| DispatcherFacts.PlaybookParserError | lib/ansible/cli/scripts/ansible_cli_stub.py:85-137 | `ansible-playbook-2.9` whose `run()` raises a parser error exits 4 and reports the error's text |
| DispatcherFacts.AdHocSucceeds | lib/ansible/cli/scripts/ansible_cli_stub.py:94-129 | bare `ansible` whose `AdHocCLI.run()` returns 0 exits 0 |

## Left out

- Output is a list of events, not printing. This covers `LastResort`, the
  `Display` methods, `traceback.format_exc` and the wording beyond each
  message's fixed part. The interpreter's report of an escaping exception
  and its exit status are outside the model.
- `initialize_locale()` (:69), `Display()` (:75), `display.deprecated` and
  `display.debug` are taken never to raise. They belong to the display
  subsystem, which is not part of this model.
- The dynamic import (`__import__` and `getattr`, :101) is the input
  `World.load`, keyed by module and class name. Every exception it raises,
  an `ImportError` among them, is given as `LoadRaises`. Which `ImportError` message
  an interpreter produces is part of that input. The `e.msg`/`e.message`
  split between Python 2 and 3, and a `None` message, are not modelled.
- The file system (`expanduser`, `expandvars`, `os.mkdir`, :110-112) is the
  input `World.mkdir`, with `errno.EEXIST` taken as 17 (its Linux value).
  Whether a second run sees `EEXIST` is a property of the file system, so
  it is not modelled.
- `os.path.basename(sys.argv[0])` (:71) is the input `World.me`.
- `to_text` decoding (:122) is a per-argument input: the decoded text, or
  none when it raises `UnicodeError`.
- The sub-command's constructor, `run()`, `context.CLIARGS` and
  `ansible.constants` are inputs. Only `run()` returning an integer is
  modelled, not a `None` return.
- `cli.parser.print_help()` (:132) is taken never to raise. It is recorded
  as one event.
- `orig_exc` is carried only by the exception kind `OtherError`. The type
  name is shown as given.
- The exception class hierarchy is flattened into one datatype. Exceptions
  that are neither an `Exception` nor `KeyboardInterrupt` are represented
  by `SystemExit` alone.
- The version gate at :43-46 is modelled as written, but no interpreter
  reaches its `SystemExit`. The file's f-strings (:45, :78, :93 and others)
  are a syntax error before Python 3.6, and every 3.6 or later passes
  `_PY_MIN`. The interpreter's own `SyntaxError` on older versions is not
  modelled.
- `sys.version`'s text is left out of the version-gate and deprecation
  messages.
- PyString.IsDigit: only the ASCII digits count. Python's `isdigit` also
  accepts other Unicode digits, such as superscripts.
- PyString.Capitalize: only ASCII letters change case. Python's
  `capitalize` title-cases and lower-cases by Unicode rules.
