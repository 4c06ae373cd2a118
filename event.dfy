/**
 * The newer event library: severity and subsystem codecs, the storage event
 * record and its decoding from a datagram, the journal-backed event iterator
 * with its filters, and the "since" time conversion.
 *
 * serde_json is an oracle (`json`: text to event, or the decoder's error
 * text); UTF-8 validation of a datagram is an oracle (`utf8`); chrono's
 * local-time parsing and `Local::now` are the `Clock` oracle; each libsystemd
 * call is its return code, as in `SdJournal`; `describe` stands for the
 * `Display` text of a journal error.
 */
module Event {
  import opened Common
  import opened Errors
  import opened Severity
  import SdJournal
  import Blk

  // ---------------------------------------------------------------------
  // LogSeverity::from_str

  /** The upper-case word for each RFC 5424 severity. */
  function SeverityWord(sev: LogSeverity): string
  {
    match sev
      case Emergency => "EMERGENCY"
      case Alert => "ALERT"
      case Ctritical => "CRITICAL"
      case Error => "ERROR"
      case Warning => "WARNING"
      case Notice => "NOTICE"
      case Info => "INFO"
      case Debug => "DEBUG"
      case Unknown => "UNKNOWN"
  }

  /**
   * The arms of the `match` on the upper-cased text. The library writes the
   * word of the fifth arm as `noticeWord`; every other arm is its digit or
   * its upper-case word.
   */
  function SeverityArm(u: string, noticeWord: string): Option<LogSeverity>
  {
    if u == "0" || u == "EMERGENCY" then Some(Emergency)
    else if u == "1" || u == "ALERT" then Some(Alert)
    else if u == "2" || u == "CRITICAL" then Some(Ctritical)
    else if u == "3" || u == "ERROR" then Some(Error)
    else if u == "4" || u == "WARNING" then Some(Warning)
    else if u == "5" || u == noticeWord then Some(Notice)
    else if u == "6" || u == "INFO" then Some(Info)
    else if u == "7" || u == "DEBUG" then Some(Debug)
    else None
  }

  function SeverityResult(arm: Option<LogSeverity>, s: string): Result<LogSeverity, PeripetyError>
  {
    match arm
      case Some(sev) => Ok(sev)
      case None => Err(LogSeverityParseError("Invalid severity string " + s))
  }

  /** `LogSeverity::from_str` as written: the fifth arm compares upper-cased text with "Notice". */
  function ParseSeverity(s: string): (r: Result<LogSeverity, PeripetyError>)
    ensures r.Ok? ==> r.value != LogSeverity.Unknown
    ensures r.Err? ==> r.error == LogSeverityParseError("Invalid severity string " + s)
  {
    SeverityResult(SeverityArm(ToUpper(s), "Notice"), s)
  }

  /** `LogSeverity::from_str` with the fifth arm spelled "NOTICE", as the other arms are. */
  function ParseSeverityIntended(s: string): (r: Result<LogSeverity, PeripetyError>)
    ensures r.Ok? ==> r.value != LogSeverity.Unknown
    ensures r.Err? ==> r.error == LogSeverityParseError("Invalid severity string " + s)
  {
    SeverityResult(SeverityArm(ToUpper(s), "NOTICE"), s)
  }

  /** Upper-cased text never holds a lower-case letter. */
  lemma UpperHasNoLowerLetter(s: string, i: nat)
    requires i < |s|
    ensures !IsLowerLetter(ToUpper(s)[i])
  {
  }

  /** Only the digit text upper-cases to a digit text. */
  lemma UpperOfDigitText(s: string, d: char)
    requires IsDigit(d)
    ensures ToUpper(s) == [d] <==> s == [d]
  {
    if ToUpper(s) == [d] {
      assert ToUpper(s)[0] == UpperChar(s[0]);
    }
  }

  /**
   * The severity quirk: the only text that parses to `Notice` is "5"; "notice",
   * "NOTICE" and "Notice" itself are all rejected.
   */
  lemma OnlyDigitParsesToNotice(s: string)
    ensures ParseSeverity(s) == Ok(Notice) <==> s == "5"
    ensures ParseSeverity("notice").Err? && ParseSeverity("NOTICE").Err? && ParseSeverity("Notice").Err?
  {
    if |s| == 6 {
      UpperHasNoLowerLetter(s, 1);
      assert ToUpper(s) != "Notice";
    }
    UpperOfDigitText(s, '5');
    assert ToUpper("notice") == "NOTICE";
    assert ToUpper("NOTICE") == "NOTICE";
    assert ToUpper("Notice") == "NOTICE";
  }

  /** The digits "0".."7" parse to the severity with that discriminant. */
  lemma ParseSeverityLevels(sev: LogSeverity)
    requires sev != LogSeverity.Unknown
    ensures ParseSeverity(NatToString(Level(sev))) == Ok(sev)
    ensures ParseSeverityIntended(NatToString(Level(sev))) == Ok(sev)
  {
    var t := NatToString(Level(sev));
    assert t == [DigitChar(Level(sev))];
    UpperOfDigitText(t, t[0]);
  }

  /**
   * Parsing ignores case: a text and its lower-cased form parse alike (only
   * the message of the error keeps the text as given).
   */
  lemma ParseSeverityIgnoresCase(s: string)
    ensures ParseSeverity(ToLower(s)).Ok? == ParseSeverity(s).Ok?
    ensures ParseSeverity(s).Ok? ==> ParseSeverity(ToLower(s)).value == ParseSeverity(s).value
    ensures ParseSeverityIntended(ToLower(s)).Ok? == ParseSeverityIntended(s).Ok?
    ensures ParseSeverityIntended(s).Ok? ==> ParseSeverityIntended(ToLower(s)).value == ParseSeverityIntended(s).value
  {
    UpperOfLower(s);
  }

  /** Every word but "NOTICE" is accepted in any case by the parser as written. */
  lemma ParseSeverityWords(sev: LogSeverity, s: string)
    requires sev != LogSeverity.Unknown && sev != Notice
    requires ToUpper(s) == SeverityWord(sev)
    ensures ParseSeverity(s) == Ok(sev)
  {
  }

  /** The intended parser accepts every severity word in any case: the round trip the arms promise. */
  lemma ParseSeverityIntendedWords(sev: LogSeverity, s: string)
    requires sev != LogSeverity.Unknown
    requires ToUpper(s) == SeverityWord(sev)
    ensures ParseSeverityIntended(s) == Ok(sev)
  {
  }

  /** Conversely, the intended parser accepts nothing but a severity's digit or word. */
  lemma ParseSeverityIntendedOnlyWords(s: string)
    requires ParseSeverityIntended(s).Ok?
    ensures var sev := ParseSeverityIntended(s).value;
      s == NatToString(Level(sev)) || ToUpper(s) == SeverityWord(sev)
  {
    var sev := ParseSeverityIntended(s).value;
    var u := ToUpper(s);
    if u != SeverityWord(sev) {
      var t := NatToString(Level(sev));
      assert t == [DigitChar(Level(sev))];
      assert u == t;
      UpperOfDigitText(s, t[0]);
    }
  }

  // ---------------------------------------------------------------------
  // StorageSubSystem

  datatype StorageSubSystem =
    | Unknown
    | Other
    | Scsi
    | DmDirtyLog
    | LvmThin
    | Multipath
    | FsExt4
    | FsJbd2
    | FsXfs
    | Nvme
    | Peripety

  /** `Display for StorageSubSystem`. */
  function SubSystemName(sub: StorageSubSystem): string
  {
    match sub
      case Unknown => "Unknown"
      case Other => "Other"
      case Scsi => "SCSI"
      case DmDirtyLog => "DM-DirtyLog"
      case LvmThin => "LVM-ThinProvisioning"
      case Multipath => "Multipath"
      case FsExt4 => "ext4"
      case FsJbd2 => "jbd2"
      case FsXfs => "xfs"
      case Nvme => "NVMe"
      case Peripety => "Peripety"
  }

  /** `StorageSubSystem::from_str`: the upper-cased text against nine fixed names. */
  function ParseSubSystem(s: string): (r: Result<StorageSubSystem, PeripetyError>)
    ensures r.Ok? ==> r.value != StorageSubSystem.Unknown && r.value != Other
    ensures r.Err? ==> r.error == StorageSubSystemParseError("Invalid StorageSubSystem string " + s)
  {
    var u := ToUpper(s);
    if u == "SCSI" then Ok(Scsi)
    else if u == "DM-DIRTYLOG" then Ok(DmDirtyLog)
    else if u == "LVM-THINPROVISIONING" then Ok(LvmThin)
    else if u == "MULTIPATH" then Ok(Multipath)
    else if u == "EXT4" then Ok(FsExt4)
    else if u == "XFS" then Ok(FsXfs)
    else if u == "NVME" then Ok(Nvme)
    else if u == "JBD2" then Ok(FsJbd2)
    else if u == "PERIPETY" then Ok(Peripety)
    else Err(StorageSubSystemParseError("Invalid StorageSubSystem string " + s))
  }

  /** The upper-case form of each printed name, the text `from_str` compares with. */
  function UpperName(sub: StorageSubSystem): string
  {
    match sub
      case Unknown => "UNKNOWN"
      case Other => "OTHER"
      case Scsi => "SCSI"
      case DmDirtyLog => "DM-DIRTYLOG"
      case LvmThin => "LVM-THINPROVISIONING"
      case Multipath => "MULTIPATH"
      case FsExt4 => "EXT4"
      case FsJbd2 => "JBD2"
      case FsXfs => "XFS"
      case Nvme => "NVME"
      case Peripety => "PERIPETY"
  }

  lemma UpperNameIsUpper(sub: StorageSubSystem)
    ensures ToUpper(SubSystemName(sub)) == UpperName(sub)
  {
    match sub {
      case Unknown => UpperOf("Unknown", "UNKNOWN");
      case Other => UpperOf("Other", "OTHER");
      case Scsi => UpperOf("SCSI", "SCSI");
      case DmDirtyLog => UpperOf("DM-DirtyLog", "DM-DIRTYLOG");
      case LvmThin => UpperOf("LVM-ThinProvisioning", "LVM-THINPROVISIONING");
      case Multipath => UpperOf("Multipath", "MULTIPATH");
      case FsExt4 => UpperOf("ext4", "EXT4");
      case FsJbd2 => UpperOf("jbd2", "JBD2");
      case FsXfs => UpperOf("xfs", "XFS");
      case Nvme => UpperOf("NVMe", "NVME");
      case Peripety => UpperOf("Peripety", "PERIPETY");
    }
  }

  /** `from_str` accepts a text exactly when it upper-cases to the upper-case name it returns. */
  lemma ParseSubSystemUpper(s: string)
    requires ParseSubSystem(s).Ok?
    ensures ToUpper(s) == UpperName(ParseSubSystem(s).value)
  {
  }

  /** Printing a subsystem other than `Unknown` and `Other` and parsing the text gives it back. */
  lemma SubSystemRoundTrip(sub: StorageSubSystem)
    requires sub != StorageSubSystem.Unknown && sub != Other
    ensures ParseSubSystem(SubSystemName(sub)) == Ok(sub)
  {
    UpperNameIsUpper(sub);
  }

  /** Conversely, an accepted text is its subsystem's printed name up to case. */
  lemma ParseSubSystemReadsName(s: string)
    requires ParseSubSystem(s).Ok?
    ensures ToUpper(s) == ToUpper(SubSystemName(ParseSubSystem(s).value))
  {
    ParseSubSystemUpper(s);
    UpperNameIsUpper(ParseSubSystem(s).value);
  }

  /** The eleven printed names are pairwise distinct. */
  lemma SubSystemNameInjective(a: StorageSubSystem, b: StorageSubSystem)
    ensures SubSystemName(a) == SubSystemName(b) ==> a == b
  {
  }

  // ---------------------------------------------------------------------
  // StorageEvent

  /**
   * `StorageEvent`. The library declares the block descriptor as the pair
   * `cur_blk_info`/`hierarchy_blk_info`, while every reader and writer of an
   * event in this snapshot uses a single `blk_info`; the model keeps that one.
   */
  datatype StorageEvent = StorageEvent(
    hostname: string,
    severity: LogSeverity,
    subSystem: StorageSubSystem,
    timestamp: string,
    eventId: string,
    eventType: string,
    blkInfo: Blk.BlkInfo,
    kdev: string,
    msg: string,
    rawMsg: string,
    extension: map<string, string>)

  /** `StorageEvent::default`. */
  function DefaultEvent(): (e: StorageEvent)
    ensures e.severity == LogSeverity.Unknown && e.subSystem == StorageSubSystem.Unknown
    ensures e.hostname == [] && e.timestamp == [] && e.eventId == [] && e.eventType == []
    ensures e.kdev == [] && e.msg == [] && e.rawMsg == [] && e.extension == map[]
    ensures e.blkInfo == Blk.Default()
  {
    StorageEvent([], LogSeverity.Unknown, StorageSubSystem.Unknown, [], [], [], Blk.Default(), [], [], [], map[])
  }

  /** The JSON decoder: an event, or the decoder's error text. */
  type JsonDecoder = string -> Result<StorageEvent, string>

  /** `StorageEvent::from_json_string`. */
  function FromJsonString(text: string, json: JsonDecoder): (r: Result<StorageEvent, PeripetyError>)
    ensures r.Ok? <==> json(text).Ok?
    ensures r.Ok? ==> r.value == json(text).value
    ensures r.Err? ==> r.error == JsonDeserializeError(json(text).error)
  {
    match json(text)
      case Ok(e) => Ok(e)
      case Err(t) => Err(JsonDeserializeError(t))
  }

  /**
   * `StorageEvent::from_slice`: the datagram is checked to be UTF-8, every
   * trailing NUL is dropped, and the rest is decoded as JSON.
   */
  function FromSlice(buff: seq<bv8>, utf8: seq<bv8> -> Result<string, string>, json: JsonDecoder)
    : (r: Result<StorageEvent, PeripetyError>)
    ensures r.Err? ==> r.error.JsonDeserializeError?
    ensures utf8(buff).Err? ==> r == Err(JsonDeserializeError(utf8(buff).error))
    ensures utf8(buff).Ok? ==> r == FromJsonString(TrimEndChar(utf8(buff).value, '\0'), json)
  {
    match utf8(buff)
      case Err(t) => Err(JsonDeserializeError(t))
      case Ok(s) => FromJsonString(TrimEndChar(s, '\0'), json)
  }

  /** NUL padding after the text makes no difference to the decoded event. */
  lemma FromSliceIgnoresNulPadding(b1: seq<bv8>, b2: seq<bv8>, pad: string,
                                   utf8: seq<bv8> -> Result<string, string>, json: JsonDecoder)
    requires utf8(b1).Ok? && utf8(b2) == Ok(utf8(b1).value + pad)
    requires forall i :: 0 <= i < |pad| ==> pad[i] == '\0'
    ensures FromSlice(b1, utf8, json) == FromSlice(b2, utf8, json)
  {
    TrimEndCharAppend(utf8(b1).value, pad, '\0');
  }

  // ---------------------------------------------------------------------
  // "Since" time stamps

  /** A local date as `Local::now()` reports it. */
  datatype Date = Date(year: nat, month: nat, day: nat)

  /** A parsed local time: seconds since the epoch and the sub-second microseconds. */
  datatype LocalTime = LocalTime(secs: int, micros: nat)

  /**
   * chrono, as far as the library uses it: today's and yesterday's local date,
   * and `Local.datetime_from_str(_, "%F %H:%M:%S")`.
   */
  datatype Clock = Clock(today: Date, yesterday: Date, parseLocal: string -> Option<LocalTime>)

  const USEC_PER_SEC: nat := 1000000

  /** `as u64` and the `u64` arithmetic after it: everything modulo 2^64. */
  function WrapU64(x: int): (r: SdJournal.U64)
  {
    x % (SdJournal.U64_MAX + 1)
  }

  /** `time_str_to_u64`: the time in microseconds since the epoch. */
  function TimeStrToU64(t: string, clock: Clock): (r: Result<SdJournal.U64, PeripetyError>)
    ensures r.Ok? <==> clock.parseLocal(t).Some?
    ensures r.Err? ==> r.error == InvalidArgument("Invalid format of since time string")
  {
    match clock.parseLocal(t)
      case Some(lt) => Ok(WrapU64(lt.secs * USEC_PER_SEC + lt.micros))
      case None => Err(InvalidArgument("Invalid format of since time string"))
  }

  /**
   * Within the range of `u64` the time stamp decodes back into the parsed
   * seconds and microseconds.
   */
  lemma TimeStrToU64Decodes(t: string, clock: Clock)
    requires clock.parseLocal(t).Some?
    requires var lt := clock.parseLocal(t).value;
      0 <= lt.secs && lt.micros < USEC_PER_SEC && lt.secs * USEC_PER_SEC + lt.micros <= SdJournal.U64_MAX
    ensures var lt := clock.parseLocal(t).value;
      TimeStrToU64(t, clock).value / USEC_PER_SEC == lt.secs
      && TimeStrToU64(t, clock).value % USEC_PER_SEC == lt.micros
  {
    var lt := clock.parseLocal(t).value;
    var x := lt.secs * USEC_PER_SEC + lt.micros;
    assert WrapU64(x) == x;
  }

  /** `format!("{}-{}-{} 00:00:00", year, month, day)`. */
  function Midnight(d: Date): string
  {
    NatToString(d.year) + "-" + NatToString(d.month) + "-" + NatToString(d.day) + " 00:00:00"
  }

  /** `since_str_to_jourald_timestamp`. */
  function SinceToTimestamp(since: string, clock: Clock): (r: Result<SdJournal.U64, PeripetyError>)
    ensures r.Err? ==> r.error == InvalidArgument("Invalid format of since time string")
  {
    if ToUpper(since) == "TODAY" then TimeStrToU64(Midnight(clock.today), clock)
    else if ToUpper(since) == "YESTERDAY" then TimeStrToU64(Midnight(clock.yesterday), clock)
    else if ':' in since then TimeStrToU64(since, clock)
    else TimeStrToU64(since + " 00:00:00", clock)
  }

  /** The two keywords are recognised in any case. */
  lemma SinceKeywordsIgnoreCase(since: string, clock: Clock)
    ensures ToUpper(since) == "TODAY" ==> SinceToTimestamp(since, clock) == SinceToTimestamp("today", clock)
    ensures ToUpper(since) == "YESTERDAY" ==> SinceToTimestamp(since, clock) == SinceToTimestamp("yesterday", clock)
  {
    assert ToUpper("today") == "TODAY";
    assert ToUpper("yesterday") == "YESTERDAY";
  }

  /** A text with a ':' is parsed as given; any other date gets midnight appended. */
  lemma SinceDateGetsMidnight(since: string, clock: Clock)
    requires ToUpper(since) != "TODAY" && ToUpper(since) != "YESTERDAY"
    ensures ':' in since ==> SinceToTimestamp(since, clock) == TimeStrToU64(since, clock)
    ensures ':' !in since ==> SinceToTimestamp(since, clock) == SinceToTimestamp(since + " 00:00:00", clock)
  {
    var full := since + " 00:00:00";
    assert full[|since| + 3] == ':';
    assert ToUpper(full)[|since| + 3] == ':';
    assert ToUpper(full) != "TODAY" && ToUpper(full) != "YESTERDAY" by {
      if |full| == 5 || |full| == 9 {
        assert |since| == 0;
        assert ToUpper(full)[3] == ':';
      }
    }
  }

  // ---------------------------------------------------------------------
  // Filters

  /** `StorageEventFilterType`. */
  datatype StorageEventFilterType = Wwid | EventType | Severity | SubSystem | Since | EventId

  /** `StorageEventFilter`. */
  datatype StorageEventFilter = StorageEventFilter(filterType: StorageEventFilterType, value: string)

  /** What the iterator keeps: the journal's matches and read position, and the filters left for later. */
  datatype IterState = IterState(matches: seq<string>, cursor: SdJournal.Cursor, extra: seq<StorageEventFilter>)

  /** The journal error `e` as the library reports it. */
  function JournalError(e: SdJournal.SdJournalError, describe: SdJournal.SdJournalError -> string): PeripetyError
  {
    FromSdJournal(e, describe(e))
  }

  /** `add_match` on the state, as `SdJournal.Journal.AddMatch` does it. */
  function AddMatchStep(st: IterState, m: string, rc: int, strerror: int -> string,
                        describe: SdJournal.SdJournalError -> string): (IterState, Result<(), PeripetyError>)
  {
    if '\0' in m then (st, Err(JournalError(SdJournal.NulError, describe)))
    else if rc < 0 then (st, Err(JournalError(SdJournal.CFailure("Error on sd_journal_add_match", rc, strerror), describe)))
    else (st.(matches := st.matches + [m]), Ok(()))
  }

  /**
   * `apply_filter` on the state: `rc` is the return code of the one
   * libsystemd call the filter makes.
   */
  function FilterStep(st: IterState, f: StorageEventFilter, rc: int, clock: Clock, strerror: int -> string,
                      describe: SdJournal.SdJournalError -> string): (r: (IterState, Result<(), PeripetyError>))
    ensures r.1.Err? ==> r.0 == st
    ensures r.0.extra == st.extra + KeptOne(f)
    ensures f.filterType != Since ==> r.0.cursor == st.cursor
    ensures f.filterType in {Wwid, Severity, Since} ==> r.0.matches == st.matches
    ensures r.1.Ok? ==> r.0.matches == st.matches + MatchOf(f)
    ensures IsKept(f) ==> r.1.Ok?
    ensures |MatchOf(f)| == 1 ==> (r.1.Ok? <==> '\0' !in MatchOf(f)[0] && rc >= 0)
    ensures |MatchOf(f)| == 1 && '\0' in MatchOf(f)[0] ==> r.1 == Err(JournalError(SdJournal.NulError, describe))
    ensures |MatchOf(f)| == 1 && '\0' !in MatchOf(f)[0] && rc < 0 ==>
      r.1 == Err(JournalError(SdJournal.CFailure("Error on sd_journal_add_match", rc, strerror), describe))
    ensures f.filterType == Since ==> (r.1.Ok? <==> SinceToTimestamp(f.value, clock).Ok? && rc >= 0)
    ensures f.filterType == Since && r.1.Ok? ==> r.0.cursor == SdJournal.Realtime(SinceToTimestamp(f.value, clock).value)
    ensures f.filterType == Since && SinceToTimestamp(f.value, clock).Err? ==> r.1 == Err(SinceToTimestamp(f.value, clock).error)
    ensures f.filterType == Since && SinceToTimestamp(f.value, clock).Ok? && rc < 0 ==>
      r.1 == Err(JournalError(SdJournal.CFailure("Error on sd_journal_seek_realtime_usec", rc, strerror), describe))
  {
    match f.filterType
      case Wwid => (st.(extra := st.extra + [f]), Ok(()))
      case Severity => (st.(extra := st.extra + [f]), Ok(()))
      case EventType => AddMatchStep(st, "EVENT_TYPE=" + f.value, rc, strerror, describe)
      case SubSystem => AddMatchStep(st, "SUB_SYSTEM=" + f.value, rc, strerror, describe)
      case EventId => AddMatchStep(st, "EVENT_ID=" + f.value, rc, strerror, describe)
      case Since =>
        match SinceToTimestamp(f.value, clock)
          case Err(e) => (st, Err(e))
          case Ok(usec) =>
            if rc < 0
            then (st, Err(JournalError(SdJournal.CFailure("Error on sd_journal_seek_realtime_usec", rc, strerror), describe)))
            else (st.(cursor := SdJournal.Realtime(usec)), Ok(()))
  }

  /**
   * `apply_filters` on the state: the filters in order, stopping at the first
   * failure; `rcOf(k)` is the return code for the filter at position `k`.
   */
  function FiltersStep(st: IterState, fs: seq<StorageEventFilter>, rcOf: nat -> int, k: nat, clock: Clock,
                       strerror: int -> string, describe: SdJournal.SdJournalError -> string)
    : (IterState, Result<(), PeripetyError>)
    decreases |fs|
  {
    if |fs| == 0 then (st, Ok(()))
    else
      var (st1, r) := FilterStep(st, fs[0], rcOf(k), clock, strerror, describe);
      if r.Err? then (st1, r) else FiltersStep(st1, fs[1..], rcOf, k + 1, clock, strerror, describe)
  }

  /** A filter that `apply_filter` keeps for the iterator to check: a wwid or severity one. */
  predicate IsKept(f: StorageEventFilter)
  {
    f.filterType == Wwid || f.filterType == Severity
  }

  function KeptOne(f: StorageEventFilter): seq<StorageEventFilter>
  {
    if IsKept(f) then [f] else []
  }

  /** The filters that `apply_filter` keeps for later: the wwid and severity ones. */
  function Kept(fs: seq<StorageEventFilter>): seq<StorageEventFilter>
  {
    if |fs| == 0 then []
    else KeptOne(fs[0]) + Kept(fs[1..])
  }

  /** The journal match expression a filter adds, if any. */
  function MatchOf(f: StorageEventFilter): seq<string>
  {
    match f.filterType
      case EventType => ["EVENT_TYPE=" + f.value]
      case SubSystem => ["SUB_SYSTEM=" + f.value]
      case EventId => ["EVENT_ID=" + f.value]
      case _ => []
  }

  function Matches(fs: seq<StorageEventFilter>): seq<string>
  {
    if |fs| == 0 then [] else MatchOf(fs[0]) + Matches(fs[1..])
  }

  /** One filter applied, then the rest. */
  lemma FiltersStepCons(st: IterState, fs: seq<StorageEventFilter>, rcOf: nat -> int, k: nat, clock: Clock,
                        strerror: int -> string, describe: SdJournal.SdJournalError -> string)
    requires |fs| > 0 && FilterStep(st, fs[0], rcOf(k), clock, strerror, describe).1.Ok?
    ensures FiltersStep(st, fs, rcOf, k, clock, strerror, describe)
         == FiltersStep(FilterStep(st, fs[0], rcOf(k), clock, strerror, describe).0, fs[1..], rcOf, k + 1, clock, strerror, describe)
  {
  }

  /**
   * When every filter applies, the kept filters and the journal matches are
   * the old ones followed by those the filters contribute, in filter order.
   */
  lemma {:induction false} FiltersStepSuccess(st: IterState, fs: seq<StorageEventFilter>, rcOf: nat -> int, k: nat,
                                              clock: Clock, strerror: int -> string,
                                              describe: SdJournal.SdJournalError -> string)
    requires FiltersStep(st, fs, rcOf, k, clock, strerror, describe).1.Ok?
    ensures FiltersStep(st, fs, rcOf, k, clock, strerror, describe).0.extra == st.extra + Kept(fs)
    ensures FiltersStep(st, fs, rcOf, k, clock, strerror, describe).0.matches == st.matches + Matches(fs)
    decreases |fs|
  {
    if |fs| > 0 {
      var p := FilterStep(st, fs[0], rcOf(k), clock, strerror, describe);
      var st1 := p.0;
      assert p.1.Ok?;
      FiltersStepCons(st, fs, rcOf, k, clock, strerror, describe);
      FiltersStepSuccess(st1, fs[1..], rcOf, k + 1, clock, strerror, describe);
      KeptCons(st.extra, st1.extra, fs);
      MatchesCons(st.matches, st1.matches, fs);
    }
  }

  /** The filters one filter keeps go in front of those the rest keep. */
  lemma KeptCons(extra: seq<StorageEventFilter>, extra1: seq<StorageEventFilter>, fs: seq<StorageEventFilter>)
    requires |fs| > 0 && extra1 == extra + KeptOne(fs[0])
    ensures extra + Kept(fs) == extra1 + Kept(fs[1..])
  {
    assert Kept(fs) == KeptOne(fs[0]) + Kept(fs[1..]);
    AppendAssoc(extra, KeptOne(fs[0]), Kept(fs[1..]));
  }

  /** The matches one filter adds go in front of those the rest add. */
  lemma MatchesCons(matches: seq<string>, matches1: seq<string>, fs: seq<StorageEventFilter>)
    requires |fs| > 0 && matches1 == matches + MatchOf(fs[0])
    ensures matches + Matches(fs) == matches1 + Matches(fs[1..])
  {
    assert Matches(fs) == MatchOf(fs[0]) + Matches(fs[1..]);
    AppendAssoc(matches, MatchOf(fs[0]), Matches(fs[1..]));
  }

  lemma AppendAssoc<T>(a: seq<T>, b: seq<T>, c: seq<T>)
    ensures a + (b + c) == a + b + c
  {
  }

  /**
   * On failure, the state is what the filters before the failing one made of
   * it: they all succeeded, the failing one changed nothing, and nothing done
   * earlier is undone.
   */
  lemma {:induction false} FiltersStepStopsAtFailure(st: IterState, fs: seq<StorageEventFilter>, rcOf: nat -> int,
                                                     k: nat, clock: Clock, strerror: int -> string,
                                                     describe: SdJournal.SdJournalError -> string)
    returns (j: nat)
    requires FiltersStep(st, fs, rcOf, k, clock, strerror, describe).1.Err?
    ensures j < |fs|
    ensures FiltersStep(st, fs[..j], rcOf, k, clock, strerror, describe).1.Ok?
    ensures var before := FiltersStep(st, fs[..j], rcOf, k, clock, strerror, describe).0;
      FilterStep(before, fs[j], rcOf(k + j), clock, strerror, describe).1.Err?
      && FiltersStep(st, fs, rcOf, k, clock, strerror, describe)
         == (before, FilterStep(before, fs[j], rcOf(k + j), clock, strerror, describe).1)
    decreases |fs|
  {
    var p := FilterStep(st, fs[0], rcOf(k), clock, strerror, describe);
    if p.1.Err? {
      j := 0;
      assert fs[..0] == [];
    } else {
      FiltersStepCons(st, fs, rcOf, k, clock, strerror, describe);
      var j1 := FiltersStepStopsAtFailure(p.0, fs[1..], rcOf, k + 1, clock, strerror, describe);
      j := j1 + 1;
      var head := fs[..j];
      var rest := fs[1..][..j1];
      assert head[1..] == rest && head[0] == fs[0];
      FiltersStepCons(st, head, rcOf, k, clock, strerror, describe);
      var before := FiltersStep(p.0, rest, rcOf, k + 1, clock, strerror, describe).0;
      assert FiltersStep(st, head, rcOf, k, clock, strerror, describe).0 == before;
      assert fs[1..][j1] == fs[j] && k + 1 + j1 == k + j;
    }
  }

  // ---------------------------------------------------------------------
  // The iterator

  /** One `journal.next()`: an entry, a journal error, or `None` once the journal has nothing more. */
  type Pull = Option<Result<map<string, string>, SdJournal.SdJournalError>>

  /** An entry the iterator hands out: it has a JSON field the decoder accepts. */
  predicate Decodes(p: Pull, json: JsonDecoder)
  {
    p.Some? && p.value.Ok? && "JSON" in p.value.value && json(p.value.value["JSON"]).Ok?
  }

  /** An entry the iterator passes over: no JSON field, or one the decoder refuses. */
  predicate Skipped(p: Pull, json: JsonDecoder)
  {
    p.Some? && p.value.Ok? && !Decodes(p, json)
  }

  /**
   * `StorageEventIter::next` over the successive answers of the journal; a
   * journal that runs out of answers has nothing more.
   */
  function NextEvent(pulls: seq<Pull>, json: JsonDecoder, describe: SdJournal.SdJournalError -> string)
    : (r: Option<Result<StorageEvent, PeripetyError>>)
    ensures r.Some? && r.value.Err? ==> r.value.error.LogAccessError?
  {
    if |pulls| == 0 then None
    else match pulls[0]
      case None => None
      case Some(Err(e)) => Some(Err(JournalError(e, describe)))
      case Some(Ok(entry)) =>
        if "JSON" in entry && json(entry["JSON"]).Ok? then Some(Ok(json(entry["JSON"]).value))
        else NextEvent(pulls[1..], json, describe)
  }

  /** Leading entries without a decodable JSON field are passed over. */
  lemma {:induction false} NextEventSkips(pulls: seq<Pull>, k: nat, json: JsonDecoder,
                                          describe: SdJournal.SdJournalError -> string)
    requires k <= |pulls|
    requires forall i :: 0 <= i < k ==> Skipped(pulls[i], json)
    ensures NextEvent(pulls, json, describe) == NextEvent(pulls[k..], json, describe)
    decreases k
  {
    if k > 0 {
      NextEventSkips(pulls[1..], k - 1, json, describe);
      assert pulls[1..][k - 1..] == pulls[k..];
    }
  }

  /**
   * An event handed out is the decoded JSON of the first entry that decodes,
   * and every entry before it was one to pass over.
   */
  lemma {:induction false} NextEventIsFirstDecodable(pulls: seq<Pull>, json: JsonDecoder,
                                                     describe: SdJournal.SdJournalError -> string)
    returns (k: nat)
    requires NextEvent(pulls, json, describe).Some? && NextEvent(pulls, json, describe).value.Ok?
    ensures k < |pulls| && Decodes(pulls[k], json)
    ensures NextEvent(pulls, json, describe).value.value == json(pulls[k].value.value["JSON"]).value
    ensures forall i :: 0 <= i < k ==> Skipped(pulls[i], json)
    decreases |pulls|
  {
    if Decodes(pulls[0], json) {
      k := 0;
    } else {
      var k1 := NextEventIsFirstDecodable(pulls[1..], json, describe);
      k := k1 + 1;
      forall i | 0 <= i < k
        ensures Skipped(pulls[i], json)
      {
        if i > 0 {
          assert pulls[i] == pulls[1..][i - 1];
        }
      }
    }
  }

  /** The journal matches every iterator starts with. */
  const PERIPETY_MATCH: string := "IS_PERIPETY=TRUE"

  /** The error `StorageEventIter::new` stops at, if any: opening the journal, then adding peripety's match. */
  function OpenError(openRc: int, matchRc: int, strerror: int -> string, describe: SdJournal.SdJournalError -> string)
    : Option<PeripetyError>
  {
    if openRc != 0 then Some(JournalError(SdJournal.CFailure("Error on sd_journal_open", openRc, strerror), describe))
    else if matchRc < 0 then Some(JournalError(SdJournal.CFailure("Error on sd_journal_add_match", matchRc, strerror), describe))
    else None
  }

  /**
   * The error `monitor` returns, if any: that of the first of its steps to
   * fail, in the order `new`, `apply_filters`, `seek_tail`.
   */
  function MonitorError(filters: Option<seq<StorageEventFilter>>, openRc: int, matchRc: int, rcOf: nat -> int,
                        seekRc: int, skipRc: int, clock: Clock, strerror: int -> string,
                        describe: SdJournal.SdJournalError -> string): Option<PeripetyError>
  {
    var fs := if filters.Some? then filters.value else [];
    var applied := FiltersStep(IterState([PERIPETY_MATCH], SdJournal.Head, []), fs, rcOf, 0, clock, strerror, describe).1;
    if OpenError(openRc, matchRc, strerror, describe).Some? then OpenError(openRc, matchRc, strerror, describe)
    else if applied.Err? then Some(applied.error)
    else if seekRc < 0 then Some(JournalError(SdJournal.CFailure("Error on sd_journal_seek_tail", seekRc, strerror), describe))
    else if skipRc < 0 then Some(JournalError(SdJournal.CFailure("Error on sd_journal_previous_skip", skipRc, strerror), describe))
    else None
  }

  /**
   * `monitor` succeeds exactly when the journal opens, the match is added,
   * every filter applies and both seek calls succeed; any failure is a
   * journal access error or the filter's own error.
   */
  lemma MonitorSucceedsExactly(filters: Option<seq<StorageEventFilter>>, openRc: int, matchRc: int, rcOf: nat -> int,
                               seekRc: int, skipRc: int, clock: Clock, strerror: int -> string,
                               describe: SdJournal.SdJournalError -> string)
    ensures var fs := if filters.Some? then filters.value else [];
      MonitorError(filters, openRc, matchRc, rcOf, seekRc, skipRc, clock, strerror, describe).None?
      <==> openRc == 0 && matchRc >= 0 && seekRc >= 0 && skipRc >= 0
           && FiltersStep(IterState([PERIPETY_MATCH], SdJournal.Head, []), fs, rcOf, 0, clock, strerror, describe).1.Ok?
    ensures var e := MonitorError(filters, openRc, matchRc, rcOf, seekRc, skipRc, clock, strerror, describe);
      var fs := if filters.Some? then filters.value else [];
      e.Some? && !FiltersStep(IterState([PERIPETY_MATCH], SdJournal.Head, []), fs, rcOf, 0, clock, strerror, describe).1.Err?
      ==> e.value.LogAccessError?
  {
  }

  /**
   * `StorageEventIter`: an open journal and the filters the journal cannot
   * apply itself (wwid and severity), which are kept but never consulted.
   */
  class StorageEventIter {
    var journal: SdJournal.Journal
    var extraFilters: seq<StorageEventFilter>

    constructor Wrap(j: SdJournal.Journal)
      ensures journal == j && extraFilters == []
    {
      journal := j;
      extraFilters := [];
    }

    function State(): IterState
      reads this, journal
    {
      IterState(journal.matches, journal.cursor, extraFilters)
    }

    /**
     * `StorageEventIter::new`: opens the journal, turns waiting off and
     * restricts it to peripety's own entries.
     */
    static method New(openRc: int, matchRc: int, strerror: int -> string,
                      describe: SdJournal.SdJournalError -> string)
      returns (r: Result<StorageEventIter, PeripetyError>)
      ensures r.Ok? <==> openRc == 0 && matchRc >= 0
      ensures r.Err? ==> r.error.LogAccessError?
      ensures r.Err? ==> Some(r.error) == OpenError(openRc, matchRc, strerror, describe)
      ensures r.Ok? ==> fresh(r.value) && fresh(r.value.journal)
      ensures r.Ok? ==> r.value.journal.timeoutUs == 0
                        && r.value.State() == IterState([PERIPETY_MATCH], SdJournal.Head, [])
    {
      var openResult := SdJournal.Journal.Open(openRc, strerror);
      if openResult.Err? {
        return Err(JournalError(openResult.error, describe));
      }
      var journal := openResult.value;
      journal.timeoutUs := 0;
      assert '\0' !in PERIPETY_MATCH;
      var added := journal.AddMatch(PERIPETY_MATCH, matchRc, strerror);
      if added.Err? {
        return Err(JournalError(added.error, describe));
      }
      var it := new StorageEventIter.Wrap(journal);
      r := Ok(it);
    }

    /** `apply_filter`. */
    method ApplyFilter(f: StorageEventFilter, rc: int, clock: Clock, strerror: int -> string,
                       describe: SdJournal.SdJournalError -> string)
      returns (r: Result<(), PeripetyError>)
      modifies this`extraFilters, journal`matches, journal`cursor
      ensures (State(), r) == FilterStep(old(State()), f, rc, clock, strerror, describe)
    {
      match f.filterType {
        case Wwid =>
          extraFilters := extraFilters + [f];
          r := Ok(());
        case Severity =>
          extraFilters := extraFilters + [f];
          r := Ok(());
        case EventType =>
          var added := journal.AddMatch("EVENT_TYPE=" + f.value, rc, strerror);
          r := if added.Err? then Err(JournalError(added.error, describe)) else Ok(());
        case SubSystem =>
          var added := journal.AddMatch("SUB_SYSTEM=" + f.value, rc, strerror);
          r := if added.Err? then Err(JournalError(added.error, describe)) else Ok(());
        case EventId =>
          var added := journal.AddMatch("EVENT_ID=" + f.value, rc, strerror);
          r := if added.Err? then Err(JournalError(added.error, describe)) else Ok(());
        case Since =>
          var usec := SinceToTimestamp(f.value, clock);
          if usec.Err? {
            return Err(usec.error);
          }
          var sought := journal.SeekRealtimeUsec(usec.value, rc, strerror);
          r := if sought.Err? then Err(JournalError(sought.error, describe)) else Ok(());
      }
    }

    /** `apply_filters`: `rcOf(k)` is the return code the filter at position `k` meets. */
    method ApplyFilters(fs: seq<StorageEventFilter>, rcOf: nat -> int, clock: Clock, strerror: int -> string,
                        describe: SdJournal.SdJournalError -> string)
      returns (r: Result<(), PeripetyError>)
      modifies this`extraFilters, journal`matches, journal`cursor
      ensures (State(), r) == FiltersStep(old(State()), fs, rcOf, 0, clock, strerror, describe)
    {
      var i := 0;
      while i < |fs|
        invariant 0 <= i <= |fs|
        invariant FiltersStep(old(State()), fs, rcOf, 0, clock, strerror, describe)
               == FiltersStep(State(), fs[i..], rcOf, i, clock, strerror, describe)
      {
        assert fs[i..][0] == fs[i] && fs[i..][1..] == fs[i + 1..];
        r := ApplyFilter(fs[i], rcOf(i), clock, strerror, describe);
        if r.Err? {
          return;
        }
        i := i + 1;
      }
      r := Ok(());
    }

    /**
     * `next`: pulls entries until one carries JSON that decodes, the journal
     * fails, or it has nothing more. The kept filters play no part.
     */
    method Next(pulls: seq<Pull>, json: JsonDecoder, describe: SdJournal.SdJournalError -> string)
      returns (r: Option<Result<StorageEvent, PeripetyError>>)
      ensures r == NextEvent(pulls, json, describe)
    {
      var i := 0;
      while i < |pulls|
        invariant 0 <= i <= |pulls|
        invariant NextEvent(pulls, json, describe) == NextEvent(pulls[i..], json, describe)
      {
        assert pulls[i..][0] == pulls[i] && pulls[i..][1..] == pulls[i + 1..];
        match pulls[i] {
          case None => return None;
          case Some(Err(e)) => return Some(Err(JournalError(e, describe)));
          case Some(Ok(entry)) =>
            if "JSON" in entry {
              var decoded := FromJsonString(entry["JSON"], json);
              if decoded.Ok? {
                return Some(Ok(decoded.value));
              }
            }
        }
        i := i + 1;
      }
      r := None;
    }

    /**
     * `StorageEvent::monitor`: a new iterator, the filters applied, then the
     * journal positioned at its last entry.
     */
    static method Monitor(filters: Option<seq<StorageEventFilter>>, openRc: int, matchRc: int, rcOf: nat -> int,
                          seekRc: int, skipRc: int, clock: Clock, strerror: int -> string,
                          describe: SdJournal.SdJournalError -> string)
      returns (r: Result<StorageEventIter, PeripetyError>)
      ensures r.Ok? ==> openRc == 0 && matchRc >= 0 && seekRc >= 0 && skipRc >= 0
      ensures r.Ok? <==> MonitorError(filters, openRc, matchRc, rcOf, seekRc, skipRc, clock, strerror, describe).None?
      ensures r.Err? ==> Some(r.error) == MonitorError(filters, openRc, matchRc, rcOf, seekRc, skipRc, clock, strerror, describe)
      ensures r.Ok? ==> fresh(r.value) && r.value.journal.cursor == SdJournal.Tail && r.value.journal.timeoutUs == 0
      ensures r.Ok? ==>
        var start := IterState([PERIPETY_MATCH], SdJournal.Head, []);
        var fs := if filters.Some? then filters.value else [];
        FiltersStep(start, fs, rcOf, 0, clock, strerror, describe).1.Ok?
        && r.value.extraFilters == Kept(fs)
        && r.value.journal.matches == [PERIPETY_MATCH] + Matches(fs)
    {
      var created := New(openRc, matchRc, strerror, describe);
      if created.Err? {
        return created;
      }
      var it := created.value;
      var fs := if filters.Some? then filters.value else [];
      var applied := it.ApplyFilters(fs, rcOf, clock, strerror, describe);
      if applied.Err? {
        return Err(applied.error);
      }
      FiltersStepSuccess(IterState([PERIPETY_MATCH], SdJournal.Head, []), fs, rcOf, 0, clock, strerror, describe);
      var sought := it.journal.SeekTail(seekRc, skipRc, strerror);
      if sought.Err? {
        return Err(JournalError(sought.error, describe));
      }
      r := Ok(it);
    }
  }
}
