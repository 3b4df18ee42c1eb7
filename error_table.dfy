/**
 * The error-code table of the standard library: every code that has a
 * message text, and the lookup that falls back to the text of `UNKNOWN`.
 */
module ErrorTable {

  datatype Option<T> = None | Some(value: T)

  datatype ErrorCode =
    | BAD_LOAD
    | CLS_METHOD_DEFINED
    | CLS_METHOD_UNDEFINED
    | CLS_UNDEFINED
    | CLS_VAR_UNDEFINED
    | CONST_DEFINED
    | CONV_ERR
    | CREATE_FILE_FAIL
    | DIR_EXISTS
    | DIR_NOT_FOUND
    | DIVIDED_BY_ZERO
    | FILE_EXISTS
    | FILE_NOT_FOUND
    | INVALID_OP
    | INVALID_OPERATOR
    | INVALID_RANGE_SEP
    | INVALID_SEQ_SEP
    | INVALID_SEQ
    | INVALID_VAR_DECL
    | IS_EMPTY
    | IS_NULL
    | LIST_DEFINED
    | LIST_UNDEFINED
    | MAKE_DIR_FAIL
    | METHOD_DEFINED
    | METHOD_UNDEFINED
    | NULL_NUMBER
    | NULL_STRING
    | OUT_OF_BOUNDS
    | READ_FAIL
    | REMOVE_DIR_FAIL
    | REMOVE_FILE_FAIL
    | TARGET_UNDEFINED
    | UNDEFINED
    | UNKNOWN
    | VAR_DEFINED
    | VAR_UNDEFINED

  /** The message table, as an entry per code; CLS_METHOD_DEFINED and LIST_DEFINED have none. */
  function Entry(code: ErrorCode): Option<string>
  {
    match code
    case BAD_LOAD => Some("bad load")
    case CLS_METHOD_DEFINED => None
    case CLS_METHOD_UNDEFINED => Some("class method undefined")
    case CLS_UNDEFINED => Some("class undefined")
    case CLS_VAR_UNDEFINED => Some("class variable undefined")
    case CONST_DEFINED => Some("constant defined")
    case CONV_ERR => Some("conversion error")
    case CREATE_FILE_FAIL => Some("could not create file")
    case DIR_EXISTS => Some("directory already exists")
    case DIR_NOT_FOUND => Some("directory does not exist")
    case DIVIDED_BY_ZERO => Some("cannot divide by zero")
    case FILE_EXISTS => Some("file already exists")
    case FILE_NOT_FOUND => Some("file does not exist")
    case INVALID_OP => Some("invalid operation")
    case INVALID_OPERATOR => Some("invalid operator")
    case INVALID_RANGE_SEP => Some("invalid range separator")
    case INVALID_SEQ_SEP => Some("invalid sequence separator")
    case INVALID_SEQ => Some("invalid sequence")
    case INVALID_VAR_DECL => Some("invalid variable declaration")
    case IS_EMPTY => Some("is empty")
    case IS_NULL => Some("is null")
    case LIST_DEFINED => None
    case LIST_UNDEFINED => Some("list undefined")
    case MAKE_DIR_FAIL => Some("could not create directory")
    case METHOD_DEFINED => Some("method defined")
    case METHOD_UNDEFINED => Some("method undefined")
    case NULL_NUMBER => Some("null number")
    case NULL_STRING => Some("null string")
    case OUT_OF_BOUNDS => Some("index out of bounds")
    case READ_FAIL => Some("read failure")
    case REMOVE_DIR_FAIL => Some("could not remove directory")
    case REMOVE_FILE_FAIL => Some("could not remove file")
    case TARGET_UNDEFINED => Some("target undefined")
    case UNDEFINED => Some("undefined")
    case UNKNOWN => Some("unknown error")
    case VAR_DEFINED => Some("variable defined")
    case VAR_UNDEFINED => Some("variable undefined")
  }

  /**
   * The message for a code. The lookup is total: a code without an entry
   * gets the text of UNKNOWN, which is always present.
   */
  function GetErrorString(code: ErrorCode): (s: string)
    ensures Entry(code).Some? ==> s == Entry(code).value
    ensures Entry(code).None? ==> s == "unknown error"
  {
    match Entry(code)
    case Some(text) => text
    case None => Entry(UNKNOWN).value
  }

  /** Exactly two codes lack a table entry. */
  lemma MissingEntries(code: ErrorCode)
    ensures Entry(code).None? <==> code == CLS_METHOD_DEFINED || code == LIST_DEFINED
  {
  }

  /** "unknown error" is produced by UNKNOWN and by the two codes without an entry, and by nothing else. */
  lemma UnknownErrorOnlyFrom(code: ErrorCode)
    ensures GetErrorString(code) == "unknown error" <==>
            code == UNKNOWN || code == CLS_METHOD_DEFINED || code == LIST_DEFINED
  {
    // one case per code, so that each text is compared with "unknown error" on its own
    match code {
      case BAD_LOAD =>
      case CLS_METHOD_DEFINED =>
      case CLS_METHOD_UNDEFINED =>
      case CLS_UNDEFINED =>
      case CLS_VAR_UNDEFINED =>
      case CONST_DEFINED =>
      case CONV_ERR =>
      case CREATE_FILE_FAIL =>
      case DIR_EXISTS =>
      case DIR_NOT_FOUND =>
      case DIVIDED_BY_ZERO =>
      case FILE_EXISTS =>
      case FILE_NOT_FOUND =>
      case INVALID_OP =>
      case INVALID_OPERATOR =>
      case INVALID_RANGE_SEP =>
      case INVALID_SEQ_SEP =>
      case INVALID_SEQ =>
      case INVALID_VAR_DECL =>
      case IS_EMPTY =>
      case IS_NULL =>
      case LIST_DEFINED =>
      case LIST_UNDEFINED =>
      case MAKE_DIR_FAIL =>
      case METHOD_DEFINED =>
      case METHOD_UNDEFINED =>
      case NULL_NUMBER =>
      case NULL_STRING =>
      case OUT_OF_BOUNDS =>
      case READ_FAIL =>
      case REMOVE_DIR_FAIL =>
      case REMOVE_FILE_FAIL =>
      case TARGET_UNDEFINED =>
      case UNDEFINED =>
      case UNKNOWN =>
      case VAR_DEFINED =>
      case VAR_UNDEFINED =>
    }
  }

  /** A code with an entry gets exactly that entry; a code without one reads like UNKNOWN. */
  lemma EntryExamples()
    ensures GetErrorString(DIVIDED_BY_ZERO) == "cannot divide by zero"
    ensures GetErrorString(CLS_METHOD_DEFINED) == GetErrorString(UNKNOWN)
    ensures GetErrorString(LIST_DEFINED) == GetErrorString(UNKNOWN)
  {
  }
}
