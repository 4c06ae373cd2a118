/**
 * `PeripetyError`, the one error type of the peripety library: ten kinds,
 * each carrying a human readable message.
 */
module Errors {
  import SdJournal

  datatype PeripetyError =
    | LogSeverityParseError(msg: string)
    | ConfError(msg: string)
    | JsonSerializeError(msg: string)
    | JsonDeserializeError(msg: string)
    | NoSupport(msg: string)
    | InternalBug(msg: string)
    | BlockNoExists(msg: string)
    | StorageSubSystemParseError(msg: string)
    | InvalidArgument(msg: string)
    | LogAccessError(msg: string)

  /** `Display`: the message alone, whatever the kind. */
  function Display(e: PeripetyError): (r: string)
    ensures r == e.msg
  {
    match e
      case LogSeverityParseError(x) => x
      case ConfError(x) => x
      case JsonSerializeError(x) => x
      case JsonDeserializeError(x) => x
      case NoSupport(x) => x
      case InternalBug(x) => x
      case BlockNoExists(x) => x
      case StorageSubSystemParseError(x) => x
      case InvalidArgument(x) => x
      case LogAccessError(x) => x
  }

  /** Two errors of different kinds carrying the same text print identically. */
  lemma DisplayForgetsKind(e1: PeripetyError, e2: PeripetyError)
    requires e1.msg == e2.msg
    ensures Display(e1) == Display(e2)
  {
  }

  /**
   * `From<SdJournalError>`: every journal failure becomes a `LogAccessError`;
   * `text` is the journal error's own rendering.
   */
  function FromSdJournal(e: SdJournal.SdJournalError, text: string): (r: PeripetyError)
    ensures r.LogAccessError? && Display(r) == text
  {
    LogAccessError(text)
  }
}
