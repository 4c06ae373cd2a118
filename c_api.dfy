/**
 * The C binding of the library: errors become a message and an integer
 * code, and handles are boxes the caller holds by address. A C address is a
 * nullable reference here; a `T **` out-parameter is a nullable reference to
 * an object whose one field is the caller's `T *` variable. The allocator's
 * live boxes are kept in an `Allocations` object so that the free functions
 * have an effect to state.
 */
module CApi {
  import opened Common
  import opened Errors
  import Event
  import SdJournal

  const PERIPETY_OK: int := 0
  const PERIPETY_ERR_LOG_SEVERITY_PARSE_ERROR: int := 1
  const PERIPETY_ERR_CONF_ERROR: int := 2
  const PERIPETY_ERR_JSON_SERIALIZE_ERROR: int := 3
  const PERIPETY_ERR_JSON_DESERIALIZE_ERROR: int := 4
  const PERIPETY_ERR_NO_SUPPORT: int := 5
  const PERIPETY_ERR_INTERNAL_BUG: int := 6
  const PERIPETY_ERR_BLOCK_NO_EXISTS: int := 7
  const PERIPETY_ERR_STORAGE_SUBSYSTEM_PARSE_ERROR: int := 8
  const PERIPETY_ERR_INVALID_ARGUMENT: int := 9
  const PERIPETY_ERR_LOG_ACCESS_ERROR: int := 10

  /** The code of each kind of error. */
  function Code(e: PeripetyError): (c: int)
    ensures PERIPETY_ERR_LOG_SEVERITY_PARSE_ERROR <= c <= PERIPETY_ERR_LOG_ACCESS_ERROR
  {
    match e
      case LogSeverityParseError(_) => PERIPETY_ERR_LOG_SEVERITY_PARSE_ERROR
      case ConfError(_) => PERIPETY_ERR_CONF_ERROR
      case JsonSerializeError(_) => PERIPETY_ERR_JSON_SERIALIZE_ERROR
      case JsonDeserializeError(_) => PERIPETY_ERR_JSON_DESERIALIZE_ERROR
      case NoSupport(_) => PERIPETY_ERR_NO_SUPPORT
      case InternalBug(_) => PERIPETY_ERR_INTERNAL_BUG
      case BlockNoExists(_) => PERIPETY_ERR_BLOCK_NO_EXISTS
      case StorageSubSystemParseError(_) => PERIPETY_ERR_STORAGE_SUBSYSTEM_PARSE_ERROR
      case InvalidArgument(_) => PERIPETY_ERR_INVALID_ARGUMENT
      case LogAccessError(_) => PERIPETY_ERR_LOG_ACCESS_ERROR
  }

  /** The error a C caller reads back from a code and a message; none for a code outside 1..10. */
  function ErrorOfCode(code: int, msg: string): (r: Option<PeripetyError>)
    ensures r.Some? <==> PERIPETY_ERR_LOG_SEVERITY_PARSE_ERROR <= code <= PERIPETY_ERR_LOG_ACCESS_ERROR
    ensures r.Some? ==> r.value.msg == msg
  {
    if code == PERIPETY_ERR_LOG_SEVERITY_PARSE_ERROR then Some(LogSeverityParseError(msg))
    else if code == PERIPETY_ERR_CONF_ERROR then Some(ConfError(msg))
    else if code == PERIPETY_ERR_JSON_SERIALIZE_ERROR then Some(JsonSerializeError(msg))
    else if code == PERIPETY_ERR_JSON_DESERIALIZE_ERROR then Some(JsonDeserializeError(msg))
    else if code == PERIPETY_ERR_NO_SUPPORT then Some(NoSupport(msg))
    else if code == PERIPETY_ERR_INTERNAL_BUG then Some(InternalBug(msg))
    else if code == PERIPETY_ERR_BLOCK_NO_EXISTS then Some(BlockNoExists(msg))
    else if code == PERIPETY_ERR_STORAGE_SUBSYSTEM_PARSE_ERROR then Some(StorageSubSystemParseError(msg))
    else if code == PERIPETY_ERR_INVALID_ARGUMENT then Some(InvalidArgument(msg))
    else if code == PERIPETY_ERR_LOG_ACCESS_ERROR then Some(LogAccessError(msg))
    else None
  }

  /**
   * The mapping is one-to-one between the ten kinds and the codes 1..10:
   * the kind comes back from its code, and every code in range is the code
   * of the kind read back from it.
   */
  lemma CodeBijective(e: PeripetyError, code: int, msg: string)
    ensures ErrorOfCode(Code(e), e.msg) == Some(e)
    ensures PERIPETY_ERR_LOG_SEVERITY_PARSE_ERROR <= code <= PERIPETY_ERR_LOG_ACCESS_ERROR ==>
      Code(ErrorOfCode(code, msg).value) == code
  {
  }

  /** Two errors share a code exactly when they are of the same kind. */
  lemma CodeIdentifiesKind(e1: PeripetyError, e2: PeripetyError)
    ensures Code(e1) == Code(e2) <==> e1.(msg := "") == e2.(msg := "")
  {
    CodeBijective(e1, 0, "");
    CodeBijective(e2, 0, "");
    assert ErrorOfCode(Code(e1), "") == Some(e1.(msg := ""));
    assert ErrorOfCode(Code(e2), "") == Some(e2.(msg := ""));
  }

  const BUG_MSG: string := "BUG: error msg contain null in the middle"

  /** `CString::new` of the message: refused when it holds a NUL, and then the fixed message stands in. */
  function CMessage(text: string): (r: string)
    ensures '\0' !in r
    ensures '\0' !in text ==> r == text
    ensures '\0' in text ==> r == BUG_MSG
  {
    if '\0' in text then BUG_MSG else text
  }

  datatype CError = CError(msg: string, code: int)

  /** `peripety_error_to_c`. */
  function ErrorToC(e: PeripetyError): (r: CError)
  {
    CError(CMessage(Display(e)), Code(e))
  }

  /**
   * A C caller reads back the error exactly when its message holds no NUL;
   * otherwise it reads back the kind with the fixed message.
   */
  lemma ErrorToCRecovers(e: PeripetyError)
    ensures '\0' !in e.msg ==> ErrorOfCode(ErrorToC(e).code, ErrorToC(e).msg) == Some(e)
    ensures '\0' in e.msg ==> ErrorOfCode(ErrorToC(e).code, ErrorToC(e).msg) == Some(e.(msg := BUG_MSG))
    ensures '\0' !in ErrorToC(e).msg
  {
    CodeBijective(e, 0, "");
    CodeBijective(e.(msg := BUG_MSG), 0, "");
  }

  // ---------------------------------------------------------------------
  // Boxes, out-parameters and the allocator

  /** `struct _PeripetyError`. */
  class ErrorBox {
    const error: CError
    constructor (e: CError)
      ensures error == e
    {
      error := e;
    }
  }

  /** `struct _PeripetyEventIter`. */
  class IterBox {
    const iter: Event.StorageEventIter
    constructor (it: Event.StorageEventIter)
      ensures iter == it
    {
      iter := it;
    }
  }

  /** `struct _PeripetyEvent`. */
  class EventBox {
    const event: Event.StorageEvent
    constructor (se: Event.StorageEvent)
      ensures event == se
    {
      event := se;
    }
  }

  /** The caller's `peripety_error *` variable, whose address is passed as `peripety_error **`. */
  class ErrorOut {
    var target: ErrorBox?
    constructor ()
      ensures target == null
    {
      target := null;
    }
  }

  /** The caller's `peripety_event *` variable, whose address is passed as `peripety_event **`. */
  class EventOut {
    var target: EventBox?
    constructor ()
      ensures target == null
    {
      target := null;
    }
  }

  /** The boxes handed out and not yet freed. */
  class Allocations {
    var errors: set<ErrorBox>
    var iters: set<IterBox>
    var events: set<EventBox>
    constructor ()
      ensures errors == {} && iters == {} && events == {}
    {
      errors, iters, events := {}, {}, {};
    }
  }

  /** Boxes an error for the caller and records it as live. */
  method NewErrorBox(heap: Allocations, e: PeripetyError) returns (b: ErrorBox)
    modifies heap
    ensures fresh(b) && b.error == ErrorToC(e)
    ensures heap.errors == old(heap.errors) + {b} && heap.iters == old(heap.iters) && heap.events == old(heap.events)
  {
    b := new ErrorBox(ErrorToC(e));
    heap.errors := heap.errors + {b};
  }

  // ---------------------------------------------------------------------
  // The exported functions

  /**
   * `peripety_event_iter_new`: nothing at all without an error out-parameter;
   * otherwise the caller's error variable is cleared and then exactly one of
   * the returned iterator and the error variable is set.
   */
  method IterNew(heap: Allocations, error: ErrorOut?, openRc: int, matchRc: int, strerror: int -> string,
                 describe: SdJournal.SdJournalError -> string)
    returns (it: IterBox?)
    modifies heap, error
    ensures error == null ==> it == null && unchanged(heap)
    ensures error != null ==> (it != null <==> error.target == null)
    ensures it != null <==> error != null && openRc == 0 && matchRc >= 0
    ensures it != null ==> fresh(it) && heap.iters == old(heap.iters) + {it}
                           && heap.errors == old(heap.errors) && heap.events == old(heap.events)
    ensures error != null && error.target != null ==>
      fresh(error.target) && error.target.error.code == PERIPETY_ERR_LOG_ACCESS_ERROR
      && heap.errors == old(heap.errors) + {error.target} && heap.iters == old(heap.iters) && heap.events == old(heap.events)
  {
    if error == null {
      return null;
    }
    error.target := null;
    var created := Event.StorageEventIter.New(openRc, matchRc, strerror, describe);
    match created {
      case Ok(iter) =>
        it := new IterBox(iter);
        heap.iters := heap.iters + {it};
      case Err(e) =>
        var b := NewErrorBox(heap, e);
        error.target := b;
        it := null;
    }
  }

  /** `peripety_event_iter_free`: a null iterator is ignored; any other is released. */
  method IterFree(heap: Allocations, it: IterBox?)
    modifies heap
    ensures it == null ==> unchanged(heap)
    ensures it != null ==> heap.iters == old(heap.iters) - {it}
    ensures heap.errors == old(heap.errors) && heap.events == old(heap.events)
  {
    if it == null {
      return;
    }
    heap.iters := heap.iters - {it};
  }

  /** `peripety_error_free`: a null error is ignored; any other is released with its message. */
  method ErrorFree(heap: Allocations, error: ErrorBox?)
    modifies heap
    ensures error == null ==> unchanged(heap)
    ensures error != null ==> heap.errors == old(heap.errors) - {error}
    ensures heap.iters == old(heap.iters) && heap.events == old(heap.events)
  {
    if error == null {
      return;
    }
    heap.errors := heap.errors - {error};
  }

  /** `peripety_error_msg_get`: the message, or a null string for a null error. */
  function ErrorMsgGet(error: ErrorBox?): (r: Option<string>)
    ensures r.None? <==> error == null
    ensures r.Some? ==> r.value == error.error.msg
  {
    if error == null then None else Some(error.error.msg)
  }

  /** `peripety_error_code_get`: the code, or the invalid-argument code for a null error. */
  function ErrorCodeGet(error: ErrorBox?): (r: int)
    ensures error == null ==> r == PERIPETY_ERR_INVALID_ARGUMENT
    ensures error != null ==> r == error.error.code
  {
    if error == null then PERIPETY_ERR_INVALID_ARGUMENT else error.error.code
  }

  /** Codes read from a boxed library error are the library's codes, and a null error reads as an invalid argument. */
  lemma ErrorGetters(e: PeripetyError, b: ErrorBox?)
    requires b != null ==> b.error == ErrorToC(e)
    ensures b != null ==> ErrorOfCode(ErrorCodeGet(b), e.msg) == Some(e) && ErrorMsgGet(b) == Some(CMessage(e.msg))
    ensures b == null ==> ErrorCodeGet(b) == PERIPETY_ERR_INVALID_ARGUMENT && ErrorMsgGet(b).None?
  {
    CodeBijective(e, 0, "");
  }

  // ---------------------------------------------------------------------
  // peripety_event_get_next

  /** What a call reports: the return code and what the two out-parameters end up holding. */
  datatype Reply = Reply(rc: int, event: Option<Event.StorageEvent>, error: Option<CError>)

  /** The reply as the function is written: an event read is dropped and never stored through `pe`. */
  function GetNextAsWritten(next: Option<Result<Event.StorageEvent, PeripetyError>>): (r: Reply)
    ensures r.event.None?
  {
    match next
      case Some(Ok(_)) => Reply(PERIPETY_OK, None, None)
      case Some(Err(e)) => Reply(Code(e), None, Some(ErrorToC(e)))
      case None => Reply(PERIPETY_OK, None, None)
  }

  /** The reply that evidently was meant: the event read is handed to the caller. */
  function GetNextIntended(next: Option<Result<Event.StorageEvent, PeripetyError>>): (r: Reply)
  {
    match next
      case Some(Ok(se)) => Reply(PERIPETY_OK, Some(se), None)
      case Some(Err(e)) => Reply(Code(e), None, Some(ErrorToC(e)))
      case None => Reply(PERIPETY_OK, None, None)
  }

  /** As written, a call that read an event replies exactly as one that found the journal exhausted. */
  lemma EventLostAsWritten(se: Event.StorageEvent)
    ensures GetNextAsWritten(Some(Ok(se))) == GetNextAsWritten(None)
    ensures GetNextIntended(Some(Ok(se))) != GetNextIntended(None)
  {
  }

  /**
   * With the event stored, the caller can tell the three outcomes apart:
   * an event, with OK; the end, with OK and nothing; a failure, with its
   * code and the error boxed.
   */
  lemma GetNextIntendedReports(next: Option<Result<Event.StorageEvent, PeripetyError>>)
    ensures var r := GetNextIntended(next);
      && (r.rc == PERIPETY_OK <==> !(next.Some? && next.value.Err?))
      && (r.event.Some? <==> next.Some? && next.value.Ok?)
      && (r.event.Some? ==> r.event.value == next.value.value)
      && (r.error.Some? <==> next.Some? && next.value.Err?)
      && (r.error.Some? ==> r.rc == r.error.value.code
                            && ErrorOfCode(r.rc, next.value.error.msg) == Some(next.value.error))
      && !(r.event.Some? && r.error.Some?)
    ensures GetNextAsWritten(next) == GetNextIntended(next).(event := None)
  {
    if next.Some? && next.value.Err? {
      CodeBijective(next.value.error, 0, "");
    }
  }

  /**
   * `peripety_event_get_next` as written: the invalid-argument code when
   * either out-parameter is null; otherwise both are cleared, the iterator is
   * advanced, and only a failure is stored.
   */
  method EventGetNext(heap: Allocations, it: IterBox, pe: EventOut?, error: ErrorOut?,
                      pulls: seq<Event.Pull>, json: Event.JsonDecoder, describe: SdJournal.SdJournalError -> string)
    returns (rc: int)
    modifies heap, pe, error
    ensures pe == null || error == null ==>
      rc == PERIPETY_ERR_INVALID_ARGUMENT && unchanged(heap)
      && (pe != null ==> unchanged(pe)) && (error != null ==> unchanged(error))
    ensures pe != null && error != null ==>
      var r := GetNextAsWritten(Event.NextEvent(pulls, json, describe));
      && rc == r.rc && pe.target == null
      && (error.target == null <==> r.error.None?)
      && (error.target != null ==> fresh(error.target) && error.target.error == r.error.value
                                   && heap.errors == old(heap.errors) + {error.target})
      && (error.target == null ==> heap.errors == old(heap.errors))
      && heap.iters == old(heap.iters) && heap.events == old(heap.events)
  {
    if pe == null || error == null {
      return PERIPETY_ERR_INVALID_ARGUMENT;
    }
    pe.target := null;
    error.target := null;
    var next := it.iter.Next(pulls, json, describe);
    match next {
      case Some(Ok(_)) =>
        rc := PERIPETY_OK;
      case Some(Err(e)) =>
        var b := NewErrorBox(heap, e);
        error.target := b;
        rc := b.error.code;
      case None =>
        rc := PERIPETY_OK;
    }
  }

  /** `peripety_event_get_next` with the event read stored through `pe`. */
  method EventGetNextIntended(heap: Allocations, it: IterBox, pe: EventOut?, error: ErrorOut?,
                              pulls: seq<Event.Pull>, json: Event.JsonDecoder, describe: SdJournal.SdJournalError -> string)
    returns (rc: int)
    modifies heap, pe, error
    ensures pe == null || error == null ==>
      rc == PERIPETY_ERR_INVALID_ARGUMENT && unchanged(heap)
      && (pe != null ==> unchanged(pe)) && (error != null ==> unchanged(error))
    ensures pe != null && error != null ==>
      var r := GetNextIntended(Event.NextEvent(pulls, json, describe));
      && rc == r.rc
      && (pe.target == null <==> r.event.None?)
      && (pe.target != null ==> fresh(pe.target) && pe.target.event == r.event.value
                                && heap.events == old(heap.events) + {pe.target})
      && (pe.target == null ==> heap.events == old(heap.events))
      && (error.target == null <==> r.error.None?)
      && (error.target != null ==> fresh(error.target) && error.target.error == r.error.value
                                   && heap.errors == old(heap.errors) + {error.target})
      && (error.target == null ==> heap.errors == old(heap.errors))
      && heap.iters == old(heap.iters)
  {
    if pe == null || error == null {
      return PERIPETY_ERR_INVALID_ARGUMENT;
    }
    pe.target := null;
    error.target := null;
    var next := it.iter.Next(pulls, json, describe);
    match next {
      case Some(Ok(se)) =>
        var b := new EventBox(se);
        heap.events := heap.events + {b};
        pe.target := b;
        rc := PERIPETY_OK;
      case Some(Err(e)) =>
        var b := NewErrorBox(heap, e);
        error.target := b;
        rc := b.error.code;
      case None =>
        rc := PERIPETY_OK;
    }
  }
}
