/** The structured validation issue the schema reports for each violated rule. */
module Issues {

  /** One step of an issue's path: an object key or an array index. */
  datatype PathElem = Key(name: string) | Index(i: nat)

  /** The issue codes the schema can produce. */
  datatype IssueCode = InvalidType | InvalidString | TooSmall | TooBig | Custom | UnrecognizedKeys {
    /** The code as it appears in a serialised issue. */
    function Name(): string {
      match this
      case InvalidType => "invalid_type"
      case InvalidString => "invalid_string"
      case TooSmall => "too_small"
      case TooBig => "too_big"
      case Custom => "custom"
      case UnrecognizedKeys => "unrecognized_keys"
    }
  }

  /** An issue: its code, message, path, and the offending keys (only for unrecognised keys). */
  datatype Issue = Issue(code: IssueCode, message: string, path: seq<PathElem>, keys: seq<string>)
}
