/**
 * `LogSeverity`, the eight message severities of section 6.2.1 of RFC 5424
 * plus `Unknown`. Both library snapshots declare the same enumeration with
 * the same `u8` discriminants; the model declares it once.
 */
module Severity {

  /** `Ctritical` keeps the library's own spelling of the variant. */
  datatype LogSeverity = Emergency | Alert | Ctritical | Error | Warning | Notice | Info | Debug | Unknown

  /** The `#[repr(u8)]` discriminant: the RFC 5424 numeric severity, 255 for `Unknown`. */
  function Level(s: LogSeverity): (n: nat)
    ensures n <= 7 <==> s != Unknown
    ensures s == Unknown <==> n == 255
  {
    match s
      case Emergency => 0
      case Alert => 1
      case Ctritical => 2
      case Error => 3
      case Warning => 4
      case Notice => 5
      case Info => 6
      case Debug => 7
      case Unknown => 255
  }

  /** The severity whose discriminant is `n` (`mem::transmute::<u8, LogSeverity>`). */
  function FromLevel(n: nat): (s: LogSeverity)
    requires n <= 7 || n == 255
    ensures Level(s) == n
  {
    if n == 0 then Emergency
    else if n == 1 then Alert
    else if n == 2 then Ctritical
    else if n == 3 then Error
    else if n == 4 then Warning
    else if n == 5 then Notice
    else if n == 6 then Info
    else if n == 7 then Debug
    else Unknown
  }

  /** Distinct severities have distinct discriminants, so the discriminant identifies the severity. */
  lemma LevelRoundTrip(s: LogSeverity)
    ensures FromLevel(Level(s)) == s
  {
  }

  /** The derived `PartialOrd`: severities compare by discriminant, `Emergency` lowest. */
  predicate Below(a: LogSeverity, b: LogSeverity)
  {
    Level(a) < Level(b)
  }

  /** `Below` is a strict total order, and `Unknown` lies above every RFC severity. */
  lemma BelowIsStrictTotalOrder(a: LogSeverity, b: LogSeverity, c: LogSeverity)
    ensures !Below(a, a)
    ensures Below(a, b) && Below(b, c) ==> Below(a, c)
    ensures a != b ==> Below(a, b) || Below(b, a)
    ensures a != Unknown ==> Below(a, Unknown)
  {
    if a != b {
      LevelRoundTrip(a);
      LevelRoundTrip(b);
    }
  }
}
