/**
 * The older daemon's event handling: the journal record `send_to_journald`
 * writes, the three parsers (SCSI, file system, multipath) that enrich a raw
 * event with what the block lookup finds, and the subscriptions they
 * declare. An event the parser drops is `None`; the channel send is left
 * out. Block lookups use the SCSI address pattern as written, which also
 * takes doubled colons; `DaemonBlk.AsWrittenTakesEveryAddress` shows it
 * still routes every real address as the intended one does.
 */
module OldDaemon {
  import opened Common
  import opened Severity
  import opened OldEvent
  import opened JournalRecord
  import Routing
  import ScsiText
  import DaemonBlk

  // ---------------------------------------------------------------------
  // send_to_journald

  /** The six fixed fields that open the record. */
  function Head(e: StorageEvent): seq<(string, string)>
  {
    [("IS_PERIPETY", "TRUE"), ("PRIORITY", NatToString(Level(e.severity))), ("MESSAGE", e.msg),
     ("DEV_WWID", e.devWwid), ("DEV_NAME", e.devName), ("DEV_PATH", e.devPath)]
  }

  /** The three fixed fields that close the record. */
  function Tail(e: StorageEvent): seq<(string, string)>
  {
    [("EVENT_TYPE", e.eventType), ("EVENT_ID", e.eventId), ("SUB_SYSTEM", SubSystemName(e.subSystem))]
  }

  /** The record `send_to_journald` hands to the journal, given the extension's iteration order. */
  function JournalFields(e: StorageEvent, keys: seq<string>): seq<(string, string)>
    requires KeyOrder(keys, e.extension)
  {
    Head(e) + Tagged("OWNERS_WWIDS", e.ownersWwids) + Tagged("OWNERS_NAMES", e.ownersNames)
    + Tagged("OWNERS_PATHS", e.ownersPaths) + ExtFields(keys, e.extension) + Tail(e)
  }

  /**
   * The record holds 9 + |owners_wwids| + |owners_names| + |owners_paths| +
   * |extension| fields: IS_PERIPETY, the numeric PRIORITY, MESSAGE (even
   * when empty) and the device fields first, then all owner wwids, all owner
   * names and all owner paths as three groups, one field per extension
   * entry, and EVENT_TYPE, EVENT_ID, SUB_SYSTEM last.
   */
  lemma JournalShape(e: StorageEvent, keys: seq<string>)
    requires KeyOrder(keys, e.extension)
    ensures var r := JournalFields(e, keys);
      |r| == 9 + |e.ownersWwids| + |e.ownersNames| + |e.ownersPaths| + |e.extension|
    ensures var r := JournalFields(e, keys);
      r[0] == ("IS_PERIPETY", "TRUE") && r[1] == ("PRIORITY", NatToString(Level(e.severity)))
      && r[2] == ("MESSAGE", e.msg)
    ensures var r := JournalFields(e, keys);
      forall i :: 0 <= i < |e.ownersWwids| ==> r[6 + i] == ("OWNERS_WWIDS", e.ownersWwids[i])
    ensures var r := JournalFields(e, keys);
      forall i :: 0 <= i < |e.ownersNames| ==> r[6 + |e.ownersWwids| + i] == ("OWNERS_NAMES", e.ownersNames[i])
    ensures var r := JournalFields(e, keys);
      forall i :: 0 <= i < |e.ownersPaths| ==>
        r[6 + |e.ownersWwids| + |e.ownersNames| + i] == ("OWNERS_PATHS", e.ownersPaths[i])
    ensures var r := JournalFields(e, keys);
      forall i :: 0 <= i < |keys| ==>
        r[6 + |e.ownersWwids| + |e.ownersNames| + |e.ownersPaths| + i] == ("EXT_" + ToUpper(keys[i]), e.extension[keys[i]])
    ensures var r := JournalFields(e, keys);
      |r| >= 3 && r[|r| - 3..] == [("EVENT_TYPE", e.eventType), ("EVENT_ID", e.eventId),
                                   ("SUB_SYSTEM", SubSystemName(e.subSystem))]
  {
    KeyOrderLength(keys, e.extension);
    var r := JournalFields(e, keys);
    var h := Head(e);
    var a := h + Tagged("OWNERS_WWIDS", e.ownersWwids);
    var b := a + Tagged("OWNERS_NAMES", e.ownersNames);
    var c := b + Tagged("OWNERS_PATHS", e.ownersPaths);
    var d := c + ExtFields(keys, e.extension);
    assert r == d + Tail(e);
    assert r[0] == d[0] == c[0] == b[0] == a[0] == h[0];
    assert r[1] == d[1] == c[1] == b[1] == a[1] == h[1];
    assert r[2] == d[2] == c[2] == b[2] == a[2] == h[2];
    JournalWwids(e, keys);
    JournalNames(e, keys);
    JournalPaths(e, keys);
    JournalExtension(e, keys);
  }

  lemma JournalWwids(e: StorageEvent, keys: seq<string>)
    requires KeyOrder(keys, e.extension)
    ensures var r := JournalFields(e, keys);
      forall i :: 0 <= i < |e.ownersWwids| ==> r[6 + i] == ("OWNERS_WWIDS", e.ownersWwids[i])
  {
    var r := JournalFields(e, keys);
    var ws := Tagged("OWNERS_WWIDS", e.ownersWwids);
    var a := Head(e) + ws;
    var b := a + Tagged("OWNERS_NAMES", e.ownersNames);
    var c := b + Tagged("OWNERS_PATHS", e.ownersPaths);
    var d := c + ExtFields(keys, e.extension);
    assert r == d + Tail(e);
    forall i | 0 <= i < |ws| ensures r[6 + i] == ws[i] {
      assert r[6 + i] == d[6 + i] == c[6 + i] == b[6 + i] == a[6 + i];
    }
  }

  lemma JournalNames(e: StorageEvent, keys: seq<string>)
    requires KeyOrder(keys, e.extension)
    ensures var r := JournalFields(e, keys);
      forall i :: 0 <= i < |e.ownersNames| ==> r[6 + |e.ownersWwids| + i] == ("OWNERS_NAMES", e.ownersNames[i])
  {
    var r := JournalFields(e, keys);
    var a := Head(e) + Tagged("OWNERS_WWIDS", e.ownersWwids);
    var ns := Tagged("OWNERS_NAMES", e.ownersNames);
    var b := a + ns;
    var c := b + Tagged("OWNERS_PATHS", e.ownersPaths);
    var d := c + ExtFields(keys, e.extension);
    assert r == d + Tail(e);
    forall i | 0 <= i < |ns| ensures r[|a| + i] == ns[i] {
      assert r[|a| + i] == d[|a| + i] == c[|a| + i] == b[|a| + i];
    }
  }

  lemma JournalPaths(e: StorageEvent, keys: seq<string>)
    requires KeyOrder(keys, e.extension)
    ensures var r := JournalFields(e, keys);
      forall i :: 0 <= i < |e.ownersPaths| ==>
        r[6 + |e.ownersWwids| + |e.ownersNames| + i] == ("OWNERS_PATHS", e.ownersPaths[i])
  {
    var r := JournalFields(e, keys);
    var b := Head(e) + Tagged("OWNERS_WWIDS", e.ownersWwids) + Tagged("OWNERS_NAMES", e.ownersNames);
    var ps := Tagged("OWNERS_PATHS", e.ownersPaths);
    var c := b + ps;
    var d := c + ExtFields(keys, e.extension);
    assert r == d + Tail(e);
    forall i | 0 <= i < |ps| ensures r[|b| + i] == ps[i] {
      assert r[|b| + i] == d[|b| + i] == c[|b| + i];
    }
  }

  lemma JournalExtension(e: StorageEvent, keys: seq<string>)
    requires KeyOrder(keys, e.extension)
    ensures var r := JournalFields(e, keys);
      forall i :: 0 <= i < |keys| ==>
        r[6 + |e.ownersWwids| + |e.ownersNames| + |e.ownersPaths| + i] == ("EXT_" + ToUpper(keys[i]), e.extension[keys[i]])
  {
    var r := JournalFields(e, keys);
    var c := Head(e) + Tagged("OWNERS_WWIDS", e.ownersWwids) + Tagged("OWNERS_NAMES", e.ownersNames)
             + Tagged("OWNERS_PATHS", e.ownersPaths);
    var ex := ExtFields(keys, e.extension);
    var d := c + ex;
    assert r == d + Tail(e);
    forall i | 0 <= i < |keys| ensures r[|c| + i] == ex[i] {
      assert r[|c| + i] == d[|c| + i];
    }
  }

  /** `send_to_journald`: the record built push by push. */
  method SendToJournald(e: StorageEvent, keys: seq<string>) returns (logs: seq<(string, string)>)
    requires KeyOrder(keys, e.extension)
    ensures logs == JournalFields(e, keys)
  {
    logs := [("IS_PERIPETY", "TRUE")];
    logs := logs + [("PRIORITY", NatToString(Level(e.severity)))];
    logs := logs + [("MESSAGE", e.msg)];
    logs := logs + [("DEV_WWID", e.devWwid)];
    logs := logs + [("DEV_NAME", e.devName)];
    logs := logs + [("DEV_PATH", e.devPath)];
    logs := PushAll(logs, "OWNERS_WWIDS", e.ownersWwids);
    logs := PushAll(logs, "OWNERS_NAMES", e.ownersNames);
    logs := PushAll(logs, "OWNERS_PATHS", e.ownersPaths);
    logs := PushExtension(logs, keys, e.extension);
    logs := logs + [("EVENT_TYPE", e.eventType)];
    logs := logs + [("EVENT_ID", e.eventId)];
    logs := logs + [("SUB_SYSTEM", SubSystemName(e.subSystem))];
  }

  // ---------------------------------------------------------------------
  // Subscriptions

  const ScsiParser: Routing.ParserInfo<StorageSubSystem> :=
    Routing.ParserInfo("scsi", [Routing.Raw], Some([StorageSubSystem.Scsi]))
  const FsParser: Routing.ParserInfo<StorageSubSystem> :=
    Routing.ParserInfo("fs", [Routing.Raw], Some([FsExt4, FsXfs]))
  const MpathParser: Routing.ParserInfo<StorageSubSystem> :=
    Routing.ParserInfo("mpath", [Routing.Raw], Some([Multipath]))

  /** Each parser takes raw events only: SCSI from `SCSI`, fs from ext4 and xfs, mpath from multipath. */
  lemma Subscriptions(kind: Routing.EventType, sub: StorageSubSystem)
    ensures Routing.Required(ScsiParser, kind, sub) <==> kind == Routing.Raw && sub == StorageSubSystem.Scsi
    ensures Routing.Required(FsParser, kind, sub) <==> kind == Routing.Raw && (sub == FsExt4 || sub == FsXfs)
    ensures Routing.Required(MpathParser, kind, sub) <==> kind == Routing.Raw && sub == Multipath
    ensures !Routing.Required(FsParser, kind, FsJbd2)
  {
  }

  // ---------------------------------------------------------------------
  // The SCSI parser

  /**
   * `scsi::parse_event`: the device is looked up under its kernel name with
   * one `+scsi:` taken off; the event then carries the device's path and
   * wwid, the name it was looked up under as `scsi_id`, and the sense-key
   * rewrite of its type.
   */
  function ScsiParse(h: DaemonBlk.Host, e: StorageEvent): (r: Option<StorageEvent>)
  {
    var kdev := ScsiText.StripScsiPrefix(e.kdev);
    match DaemonBlk.GetScsi(h, kdev)
      case None => None
      case Some(b) =>
        var ext := e.extension["scsi_id" := kdev];
        Some(e.(devPath := b.blkPath, devWwid := b.wwid, extension := ext,
                eventType := ScsiText.SenseRewrite(e.eventType, ext)))
  }

  /**
   * An event is passed on exactly when its device resolves. Only the path,
   * wwid, extension and type change; the extension gains `scsi_id` and keeps
   * every other entry; the type changes only for a medium or hardware error
   * sense key.
   */
  lemma ScsiParseEffect(h: DaemonBlk.Host, e: StorageEvent)
    ensures var kdev := ScsiText.StripScsiPrefix(e.kdev);
      ScsiParse(h, e).Some? <==> DaemonBlk.GetScsi(h, kdev).Some?
    ensures ScsiParse(h, e).Some? ==>
      var kdev := ScsiText.StripScsiPrefix(e.kdev);
      var b := DaemonBlk.GetScsi(h, kdev).value;
      var r := ScsiParse(h, e).value;
      && r.devPath == b.blkPath && r.devWwid == b.wwid
      && r.extension["scsi_id"] == kdev
      && (forall k :: k in e.extension && k != "scsi_id" ==> k in r.extension && r.extension[k] == e.extension[k])
      && r.extension.Keys == e.extension.Keys + {"scsi_id"}
      && (r.eventType != e.eventType ==>
            e.eventType == "SCSI_SENSE_KEY"
            && (r.eventType == "SCSI_MEDIUM_ERROR" || r.eventType == "SCSI_HARDWARE_ERROR"))
      && r.(devPath := e.devPath, devWwid := e.devWwid, extension := e.extension, eventType := e.eventType) == e
  {
  }

  /** `parse_event` as written: the clone's fields overwritten one after another. */
  method ParseScsiEvent(h: DaemonBlk.Host, event: StorageEvent) returns (r: Option<StorageEvent>)
    ensures r == ScsiParse(h, event)
  {
    var kdev := event.kdev;
    if StartsWith(event.kdev, "+scsi:") {
      kdev := event.kdev[6..];
    }
    var b := DaemonBlk.GetScsi(h, kdev);
    if b.None? {
      return None;
    }
    var e := event;
    e := e.(devPath := b.value.blkPath);
    e := e.(devWwid := b.value.wwid);
    e := e.(extension := e.extension["scsi_id" := kdev]);
    if e.eventType == "SCSI_SENSE_KEY" && "sense_key" in e.extension {
      if e.extension["sense_key"] == "Medium Error" {
        e := e.(eventType := "SCSI_MEDIUM_ERROR");
      } else if e.extension["sense_key"] == "Hardware Error" {
        e := e.(eventType := "SCSI_HARDWARE_ERROR");
      }
    }
    r := Some(e);
  }

  // ---------------------------------------------------------------------
  // The file-system parser

  /**
   * The block lookup and the two answers `fs.rs` computes itself: the uuid
   * of a block path ("" when none) and its mount point ("" when none).
   */
  datatype FsHost = FsHost(blk: DaemonBlk.Host, uuidOf: string -> string, mountPointOf: string -> string)

  /**
   * `fs::parse_event`: the device's uuid becomes the event's wwid (no uuid,
   * no event), the device's own wwid and path are put in front of its owner
   * lists, and a known mount point goes into the extension.
   */
  function FsParse(h: FsHost, e: StorageEvent, fuel: nat): (r: Option<StorageEvent>)
  {
    match DaemonBlk.New(h.blk, e.kdev, DaemonBlk.AsWritten, fuel)
      case None => None
      case Some(b) =>
        var uuid := h.uuidOf(b.blkPath);
        if uuid == "" then None
        else
          var mount := h.mountPointOf(b.blkPath);
          var ext := if mount != "" then e.extension["mount_point" := mount] else e.extension;
          Some(e.(devWwid := uuid, devPath := b.blkPath, ownersWwids := [b.wwid] + b.ownersWwids,
                  ownersPaths := [b.blkPath] + b.ownersPaths, extension := ext))
  }

  /**
   * An event is passed on exactly when the device resolves and has a uuid;
   * the owner lists then start with the device itself followed by its own
   * owners, and so stay of one length; `mount_point` is added exactly when
   * the mount point is known; nothing else changes.
   */
  lemma FsParseEffect(h: FsHost, e: StorageEvent, fuel: nat)
    ensures var b := DaemonBlk.New(h.blk, e.kdev, DaemonBlk.AsWritten, fuel);
      FsParse(h, e, fuel).Some? <==> b.Some? && h.uuidOf(b.value.blkPath) != ""
    ensures FsParse(h, e, fuel).Some? ==>
      var b := DaemonBlk.New(h.blk, e.kdev, DaemonBlk.AsWritten, fuel).value;
      var r := FsParse(h, e, fuel).value;
      && r.devWwid == h.uuidOf(b.blkPath) && r.devWwid != "" && r.devPath == b.blkPath
      && r.ownersWwids[0] == b.wwid && r.ownersWwids[1..] == b.ownersWwids
      && r.ownersPaths[0] == b.blkPath && r.ownersPaths[1..] == b.ownersPaths
      && |r.ownersWwids| == |r.ownersPaths|
      && ("mount_point" in r.extension && "mount_point" !in e.extension ==> h.mountPointOf(b.blkPath) != "")
      && (h.mountPointOf(b.blkPath) != "" ==> r.extension == e.extension["mount_point" := h.mountPointOf(b.blkPath)])
      && (h.mountPointOf(b.blkPath) == "" ==> r.extension == e.extension)
      && r.(devWwid := e.devWwid, devPath := e.devPath, ownersWwids := e.ownersWwids,
            ownersPaths := e.ownersPaths, extension := e.extension) == e
  {
    var b := DaemonBlk.New(h.blk, e.kdev, DaemonBlk.AsWritten, fuel);
    if b.Some? {
      DaemonBlk.NewWellFormed(h.blk, e.kdev, DaemonBlk.AsWritten, fuel);
    }
  }

  /** `parse_event` as written, with its two `insert(0, …)` calls. */
  method ParseFsEvent(h: FsHost, event: StorageEvent, fuel: nat) returns (r: Option<StorageEvent>)
    ensures r == FsParse(h, event, fuel)
  {
    var e := event;
    var found := DaemonBlk.New(h.blk, e.kdev, DaemonBlk.AsWritten, fuel);
    if found.None? {
      return None;
    }
    var b := found.value;
    e := e.(devWwid := h.uuidOf(b.blkPath));
    if |e.devWwid| == 0 {
      return None;
    }
    e := e.(devPath := b.blkPath);
    e := e.(ownersWwids := b.ownersWwids);
    e := e.(ownersPaths := b.ownersPaths);
    e := e.(ownersWwids := [b.wwid] + e.ownersWwids);
    var mount := h.mountPointOf(b.blkPath);
    if |mount| != 0 {
      e := e.(extension := e.extension["mount_point" := mount]);
    }
    e := e.(ownersPaths := [b.blkPath] + e.ownersPaths);
    r := Some(e);
  }

  // ---------------------------------------------------------------------
  // The multipath parser

  /**
   * `get_mpath_info_from_blk`: the name and wwid of the multipath device
   * holding a path. Only the first holder is looked at, and only a dm uuid
   * starting with `mpath-` is taken, with that prefix removed.
   */
  function MpathInfo(h: DaemonBlk.Host, majorMinor: string): (r: Option<(string, string)>)
    ensures var l := h.listDir("/sys/dev/block/" + majorMinor + "/holders");
      r.Some? ==> l.Listing? && |l.entries| > 0 && l.entries[0].Some?
    ensures var l := h.listDir("/sys/dev/block/" + majorMinor + "/holders");
      l.Listing? && |l.entries| > 0 && l.entries[0].Some? ==>
        var dm := "/sys/dev/block/" + majorMinor + "/holders/" + l.entries[0].value;
        var uuid := DaemonBlk.SysfsRead(h, dm + "/dm/uuid");
        && (r.Some? <==> StartsWith(uuid, "mpath-"))
        && (r.Some? ==> "mpath-" + r.value.1 == uuid && r.value.0 == DaemonBlk.SysfsRead(h, dm + "/dm/name"))
  {
    var dir := "/sys/dev/block/" + majorMinor + "/holders";
    match h.listDir(dir)
      case Unreadable(_) => None
      case Listing(es) =>
        if |es| == 0 || es[0].None? then None
        else
          var dm := dir + "/" + es[0].value;
          assert dm == "/sys/dev/block/" + majorMinor + "/holders/" + es[0].value;
          var uuid := DaemonBlk.SysfsRead(h, dm + "/dm/uuid");
          if StartsWith(uuid, "mpath-") then
            assert uuid == "mpath-" + uuid[6..];
            Some((DaemonBlk.SysfsRead(h, dm + "/dm/name"), uuid[6..]))
          else None
  }

  predicate IsPathEvent(eventType: string)
  {
    eventType == "DM_MPATH_PATH_FAILED" || eventType == "DM_MPATH_PATH_REINSTATED"
  }

  /** `mpath::parse_event`. */
  function MpathParse(h: DaemonBlk.Host, e: StorageEvent): (r: Option<StorageEvent>)
  {
    if !IsPathEvent(e.eventType) then None
    else match MpathInfo(h, e.kdev)
      case None => None
      case Some((name, uuid)) =>
        var n := DaemonBlk.MajorMinorToBlkName(h.readLink, e.kdev);
        var ext := if n.Some? then e.extension["blk_name" := n.value] else e.extension;
        Some(e.(devPath := "/dev/mapper/" + name, devName := name, devWwid := uuid,
                extension := ext["blk_major_minor" := e.kdev]))
  }

  /**
   * Only path-failed and path-reinstated events are handled, and only when
   * the path's holder is a multipath device. The event then names that
   * device under `/dev/mapper`, its wwid is the dm uuid without `mpath-`,
   * `blk_major_minor` is always the event's kernel device and `blk_name` is
   * added exactly when the number resolves; every other extension entry,
   * and a `blk_name` already present when the number does not resolve, is
   * kept as it was.
   */
  lemma MpathParseEffect(h: DaemonBlk.Host, e: StorageEvent)
    ensures MpathParse(h, e).Some? <==> IsPathEvent(e.eventType) && MpathInfo(h, e.kdev).Some?
    ensures MpathParse(h, e).Some? ==>
      var (name, uuid) := MpathInfo(h, e.kdev).value;
      var n := DaemonBlk.MajorMinorToBlkName(h.readLink, e.kdev);
      var r := MpathParse(h, e).value;
      && r.devPath == "/dev/mapper/" + name && r.devName == name && r.devWwid == uuid
      && r.extension["blk_major_minor"] == e.kdev
      && ("blk_name" in r.extension <==> n.Some? || "blk_name" in e.extension)
      && (n.Some? ==> r.extension["blk_name"] == n.value)
      && r.extension.Keys == e.extension.Keys + {"blk_major_minor"} + (if n.Some? then {"blk_name"} else {})
      && (forall k :: k in e.extension && k != "blk_major_minor" && (k != "blk_name" || n.None?) ==>
            r.extension[k] == e.extension[k])
      && r.(devPath := e.devPath, devName := e.devName, devWwid := e.devWwid, extension := e.extension) == e
  {
  }

  /** `parse_event` as written. */
  method ParseMpathEvent(h: DaemonBlk.Host, event: StorageEvent) returns (r: Option<StorageEvent>)
    ensures r == MpathParse(h, event)
  {
    if event.eventType != "DM_MPATH_PATH_FAILED" && event.eventType != "DM_MPATH_PATH_REINSTATED" {
      return None;
    }
    var info := MpathInfo(h, event.kdev);
    if info.None? {
      return None;
    }
    var (name, uuid) := info.value;
    var e := event;
    e := e.(devPath := "/dev/mapper/" + name);
    e := e.(devName := name);
    e := e.(devWwid := uuid);
    var n := DaemonBlk.MajorMinorToBlkName(h.readLink, e.kdev);
    if n.Some? {
      e := e.(extension := e.extension["blk_name" := n.value]);
    }
    e := e.(extension := e.extension["blk_major_minor" := e.kdev]);
    r := Some(e);
  }
}
