/** The exceptions that can reach the entry script's handlers. Python's class
    hierarchy is flattened: `AnsibleOptionsError` and `AnsibleParserError`
    are kinds of `AnsibleError`, `KeyboardInterrupt` and `SystemExit` are
    not kinds of `Exception`, and everything else is an `Exception`. */
module Errors {
  import opened Wrappers

  /** The `orig_exc` attribute some exceptions carry: the wrapped cause. */
  datatype Cause = Cause(typeName: string, msg: string)

  datatype Exc =
    | OptionsError(msg: string)       // AnsibleOptionsError
    | ParserError(msg: string)        // AnsibleParserError
    | AnsibleError(msg: string)       // AnsibleError itself
    | KeyboardInterrupt
    | SystemExit(msg: string)
    | ImportError(msg: string)
    | AttributeError(msg: string)
    | IndexError(msg: string)
    | KeyError(key: string)
    | OtherError(msg: string, orig: Option<Cause>)  // any other Exception

  /** `isinstance(e, AnsibleError)`. */
  predicate IsAnsibleError(e: Exc) {
    e.OptionsError? || e.ParserError? || e.AnsibleError?
  }

  /** `isinstance(e, Exception)`. */
  predicate IsException(e: Exc) {
    !e.KeyboardInterrupt? && !e.SystemExit?
  }

  /** `to_text(e)`. */
  function Text(e: Exc): string {
    match e
    case OptionsError(m) => m
    case ParserError(m) => m
    case AnsibleError(m) => m
    case KeyboardInterrupt => ""
    case SystemExit(m) => m
    case ImportError(m) => m
    case AttributeError(m) => m
    case IndexError(m) => m
    case KeyError(k) => "'" + k + "'"
    case OtherError(m, _) => m
  }
}
