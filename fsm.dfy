/** The state-machine framework header: framework state ids, the error record
    that handlers fill in place, and the helpers that reset or overwrite it. */
module Fsm {
  import opened Wrappers

  /** The framework's own state ids (`fsm_state`). Application states are
      numbered from FSM_USER_START upwards. */
  const FSM_IGNORE: int := -1
  const FSM_INIT: int := 0
  const FSM_EXIT: int := 1
  const FSM_USER_START: int := 2

  /** The value held by a `struct fsm_error`; a NULL pointer field is None. */
  datatype ErrorRecord = ErrorRecord(
    errMsg: Option<string>,
    functionName: Option<string>,
    fileName: Option<string>,
    errorLine: int)

  /** The record as `fsm_error_init` and `fsm_error_clear` leave it. */
  function Cleared(): ErrorRecord {
    ErrorRecord(None, None, None, 0)
  }

  /** `fsm_strdup_or_null`: NULL for NULL, otherwise a copy equal to the input.
      Strings are values here, so the fresh allocation is not visible. */
  function StrdupOrNull(s: Option<string>): (d: Option<string>)
    ensures d.None? <==> s.None?
    ensures s.Some? ==> d.value == s.value
  {
    match s
    case None => None
    case Some(text) => Some(text)
  }

  /** The record as SET_ERROR leaves it: a copy of the message, and the line,
      function and file name of the place that raised the error. */
  function Raised(msg: Option<string>, line: int, func: string, file: string): ErrorRecord {
    ErrorRecord(StrdupOrNull(msg), Some(func), Some(file), line)
  }

  /** A caller-owned `struct fsm_error`, updated in place through a pointer.
      `initialised` records whether `err_msg` holds a pointer `free` may be
      given: NULL or a copy made by `fsm_strdup_or_null`. Storage that no
      helper has touched holds an indeterminate pointer. */
  class FsmError {
    var errMsg: Option<string>
    var functionName: Option<string>
    var fileName: Option<string>
    var errorLine: int
    ghost var initialised: bool

    /** The record's current value. */
    function Record(): ErrorRecord
      reads this
    {
      ErrorRecord(errMsg, functionName, fileName, errorLine)
    }

    /** A record holding whatever its storage held before any helper touched
        it; its message pointer is not yet safe to free. */
    constructor (initial: ErrorRecord)
      ensures Record() == initial && !initialised
    {
      errMsg := initial.errMsg;
      functionName := initial.functionName;
      fileName := initial.fileName;
      errorLine := initial.errorLine;
      initialised := false;
    }
  }

  /** `fsm_error_init`: on NULL nothing happens; otherwise every field is reset. */
  method ErrorInit(e: FsmError?)
    modifies e
    ensures e != null ==> e.Record() == Cleared() && e.initialised
  {
    if e == null {
      return;
    }
    e.errMsg := None;
    e.errorLine := 0;
    e.functionName := None;
    e.fileName := None;
    e.initialised := true;
  }

  /** `fsm_error_clear`: frees the old message, so the record must hold a
      pointer that may be freed, and reaches the same cleared record as
      `fsm_error_init`; since the result does not depend on the old record,
      clearing twice equals clearing once. */
  method ErrorClear(e: FsmError?)
    requires e != null ==> e.initialised
    modifies e
    ensures e != null ==> e.Record() == Cleared() && e.initialised
  {
    if e == null {
      return;
    }
    e.errMsg := None;
    e.errorLine := 0;
    e.functionName := None;
    e.fileName := None;
  }

  /** The SET_ERROR macro: on a non-NULL record, frees the old message,
      replaces it with a copy of `msg` and records where the error was
      raised; on NULL, nothing. */
  method SetError(e: FsmError?, msg: Option<string>, line: int, func: string, file: string)
    requires e != null ==> e.initialised
    modifies e
    ensures e != null ==> e.Record() == Raised(msg, line, func, file) && e.initialised
  {
    if e != null {
      e.errMsg := StrdupOrNull(msg);
      e.errorLine := line;
      e.functionName := Some(func);
      e.fileName := Some(file);
    }
  }
}
