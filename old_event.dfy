/**
 * The older event library snapshot: its subsystem codec (ten subsystems,
 * no `Peripety`), its flat `StorageEvent` record and `from_slice`.
 *
 * Its `LogSeverity` and `LogSeverity::from_str` are the same, arm for arm,
 * as the newer library's, so the model uses `Severity.LogSeverity` and
 * `Event.ParseSeverity` for both.
 *
 * The older daemon and plugins also read and write `dev_name`,
 * `owners_names` and `extention` on an event, which this snapshot's record
 * does not declare; the record below carries them (`devName`,
 * `ownersNames`, and the one `extension` map).
 */
module OldEvent {
  import opened Common
  import opened Errors
  import opened Severity

  datatype StorageSubSystem =
    | Unknown
    | Other
    | Scsi
    | DmDirtyLog
    | LvmThin
    | Multipath
    | FsExt4
    | FsJbd2
    | FsXfs
    | Nvme

  /** `Display for StorageSubSystem`. */
  function SubSystemName(sub: StorageSubSystem): string
  {
    match sub
      case Unknown => "Unknown"
      case Other => "Other"
      case Scsi => "SCSI"
      case DmDirtyLog => "DM-DirtyLog"
      case LvmThin => "LVM-ThinProvisioning"
      case Multipath => "Multipath"
      case FsExt4 => "ext4"
      case FsJbd2 => "jbd2"
      case FsXfs => "xfs"
      case Nvme => "NVMe"
  }

  /** `StorageSubSystem::from_str`: seven fixed names, and none for `jbd2`. */
  function ParseSubSystem(s: string): (r: Result<StorageSubSystem, PeripetyError>)
    ensures r.Ok? ==> r.value !in {StorageSubSystem.Unknown, Other, FsJbd2}
    ensures r.Err? ==> r.error == StorageSubSystemParseError("Invalid StorageSubSystem string " + s)
  {
    var u := ToUpper(s);
    if u == "SCSI" then Ok(Scsi)
    else if u == "DM-DIRTYLOG" then Ok(DmDirtyLog)
    else if u == "LVM-THINPROVISIONING" then Ok(LvmThin)
    else if u == "MULTIPATH" then Ok(Multipath)
    else if u == "EXT4" then Ok(FsExt4)
    else if u == "XFS" then Ok(FsXfs)
    else if u == "NVME" then Ok(Nvme)
    else Err(StorageSubSystemParseError("Invalid StorageSubSystem string " + s))
  }

  /**
   * The printed name parses back for every subsystem but `Unknown`, `Other`
   * and `FsJbd2`; "jbd2" is refused.
   */
  lemma SubSystemRoundTrip(sub: StorageSubSystem)
    ensures sub !in {StorageSubSystem.Unknown, Other, FsJbd2} ==> ParseSubSystem(SubSystemName(sub)) == Ok(sub)
    ensures sub == FsJbd2 ==> ParseSubSystem(SubSystemName(sub)).Err?
  {
    match sub {
      case Unknown =>
      case Other =>
      case Scsi => UpperOf("SCSI", "SCSI");
      case DmDirtyLog => UpperOf("DM-DirtyLog", "DM-DIRTYLOG");
      case LvmThin => UpperOf("LVM-ThinProvisioning", "LVM-THINPROVISIONING");
      case Multipath => UpperOf("Multipath", "MULTIPATH");
      case FsExt4 => UpperOf("ext4", "EXT4");
      case FsJbd2 => UpperOf("jbd2", "JBD2");
      case FsXfs => UpperOf("xfs", "XFS");
      case Nvme => UpperOf("NVMe", "NVME");
    }
  }

  /** The older `StorageEvent`: the device and its owners as flat strings and lists. */
  datatype StorageEvent = StorageEvent(
    hostname: string,
    severity: LogSeverity,
    subSystem: StorageSubSystem,
    timestamp: string,
    eventId: string,
    eventType: string,
    devWwid: string,
    devName: string,
    devPath: string,
    ownersWwids: seq<string>,
    ownersNames: seq<string>,
    ownersPaths: seq<string>,
    kdev: string,
    msg: string,
    rawMsg: string,
    extension: map<string, string>)

  /** `StorageEvent::default`. */
  function DefaultEvent(): (e: StorageEvent)
    ensures e.severity == LogSeverity.Unknown && e.subSystem == StorageSubSystem.Unknown
    ensures e.hostname == [] && e.timestamp == [] && e.eventId == [] && e.eventType == []
    ensures e.devWwid == [] && e.devName == [] && e.devPath == []
    ensures e.ownersWwids == [] && e.ownersNames == [] && e.ownersPaths == []
    ensures e.kdev == [] && e.msg == [] && e.rawMsg == [] && e.extension == map[]
  {
    StorageEvent([], LogSeverity.Unknown, StorageSubSystem.Unknown, [], [], [], [], [], [], [], [], [], [], [], [], map[])
  }

  /** The JSON decoder: an event, or the decoder's error text. */
  type JsonDecoder = string -> Result<StorageEvent, string>

  /** `StorageEvent::from_slice`: UTF-8 check, trailing NULs dropped, JSON decoding. */
  function FromSlice(buff: seq<bv8>, utf8: seq<bv8> -> Result<string, string>, json: JsonDecoder)
    : (r: Result<StorageEvent, PeripetyError>)
    ensures r.Err? ==> r.error.JsonDeserializeError?
    ensures utf8(buff).Err? ==> r == Err(JsonDeserializeError(utf8(buff).error))
    ensures utf8(buff).Ok? ==> (r.Ok? <==> json(TrimEndChar(utf8(buff).value, '\0')).Ok?)
    ensures r.Ok? ==> r.value == json(TrimEndChar(utf8(buff).value, '\0')).value
  {
    match utf8(buff)
      case Err(t) => Err(JsonDeserializeError(t))
      case Ok(s) =>
        match json(TrimEndChar(s, '\0'))
          case Ok(e) => Ok(e)
          case Err(t) => Err(JsonDeserializeError(t))
  }

  /** NUL padding after the text makes no difference to the decoded event. */
  lemma FromSliceIgnoresNulPadding(b1: seq<bv8>, b2: seq<bv8>, pad: string,
                                   utf8: seq<bv8> -> Result<string, string>, json: JsonDecoder)
    requires utf8(b1).Ok? && utf8(b2) == Ok(utf8(b1).value + pad)
    requires forall i :: 0 <= i < |pad| ==> pad[i] == '\0'
    ensures FromSlice(b1, utf8, json) == FromSlice(b2, utf8, json)
  {
    TrimEndCharAppend(utf8(b1).value, pad, '\0');
  }
}
