/**
 * The older daemon's own block descriptor and its lookup: `BlkInfo::new`
 * (dispatch on the kernel name), `blk_info_get_scsi` (whole disks, SCSI
 * addresses and partitions), `blk_info_get_dm` (device-mapper devices with
 * four parallel owner lists) and the `Sysfs` helpers they use.
 *
 * sysfs is seen through a `Host` of oracle functions. `BlkInfo::new` and
 * `blk_info_get_dm` call each other, and a major:minor name is resolved and
 * dispatched again, so the lookup carries a `fuel` bound: with no fuel left
 * the recursive step finds nothing.
 */
module DaemonBlk {
  import opened Common
  import ScsiText
  import Blk

  datatype BlkType = Scsi | Dm | DmMultipath | DmLvm | Partition

  datatype BlkInfo = BlkInfo(
    wwid: string,
    blkType: BlkType,
    name: string,
    blkPath: string,
    ownersWwids: seq<string>,
    ownersTypes: seq<BlkType>,
    ownersNames: seq<string>,
    ownersPaths: seq<string>)

  /**
   * What the daemon asks of the machine. `fileContent` is what
   * `read_to_string` leaves in the buffer, or `None` when the file cannot be
   * opened; `canonicalName` is `canonicalize()` followed by `file_name()`.
   */
  datatype Host = Host(
    pathExists: string -> bool,
    fileContent: string -> Option<string>,
    listDir: string -> Blk.Listing,
    readLink: string -> Blk.Link,
    canonicalName: string -> Option<string>)

  // ---------------------------------------------------------------------
  // Sysfs

  /** `Sysfs::read`: the file's text without one trailing newline, or "" when it cannot be opened. */
  function SysfsRead(h: Host, path: string): (r: string)
    ensures h.fileContent(path).None? ==> r == ""
    ensures h.fileContent(path).Some? ==>
      var t := h.fileContent(path).value;
      (r == t && !EndsWith(t, "\n")) || r + "\n" == t
  {
    match h.fileContent(path)
      case None => ""
      case Some(t) => if EndsWith(t, "\n") then t[..|t| - 1] else t
  }

  /** Only one newline goes: a text ending in two keeps the first of them. */
  lemma SysfsReadKeepsInnerNewline(h: Host, path: string)
    requires h.fileContent(path).Some? && EndsWith(h.fileContent(path).value, "\n\n")
    ensures EndsWith(SysfsRead(h, path), "\n")
  {
    var t := h.fileContent(path).value;
    var r := SysfsRead(h, path);
    assert t[|t| - 1] == '\n' && t[|t| - 2] == '\n';
    assert r == t[..|t| - 1];
    assert r[|r| - 1..] == "\n";
  }

  /** `Sysfs::read` as written: read into a buffer, then pop a final newline. */
  method Read(h: Host, path: string) returns (contents: string)
    ensures contents == SysfsRead(h, path)
  {
    contents := "";
    var file := h.fileContent(path);
    if file.Some? {
      contents := file.value;
      if EndsWith(contents, "\n") {
        contents := contents[..|contents| - 1];
      }
    }
  }

  /** `Sysfs::major_minor_to_blk_name`: the name the `/sys/dev/block` link points at. */
  function MajorMinorToBlkName(readLink: string -> Blk.Link, majorMinor: string): (r: Option<string>)
    ensures readLink("/sys/dev/block/" + majorMinor).LinkFailed? ==> r.None?
    ensures readLink("/sys/dev/block/" + majorMinor).Link? ==> r == readLink("/sys/dev/block/" + majorMinor).name
  {
    match readLink("/sys/dev/block/" + majorMinor)
      case LinkFailed(_) => None
      case Link(n) => n
  }

  /** `Sysfs::scsi_id_to_blk_name`: the first block under the SCSI disk's directory, or "". */
  function ScsiIdToBlkName(listDir: string -> Blk.Listing, scsiId: string): (r: string)
    ensures var l := listDir("/sys/class/scsi_disk/" + scsiId + "/device/block");
      r != "" ==> l.Listing? && |l.entries| > 0 && l.entries[0] == Some(r)
    ensures var l := listDir("/sys/class/scsi_disk/" + scsiId + "/device/block");
      l.Listing? && |l.entries| > 0 && l.entries[0].Some? ==> r == l.entries[0].value
  {
    match listDir("/sys/class/scsi_disk/" + scsiId + "/device/block")
      case Unreadable(_) => ""
      case Listing(es) => if |es| > 0 && es[0].Some? then es[0].value else ""
  }

  // ---------------------------------------------------------------------
  // Owner lists

  /** The four owner lists describe the same owners position by position. */
  predicate Parallel(wwids: seq<string>, types: seq<BlkType>, names: seq<string>, paths: seq<string>)
  {
    |wwids| == |types| == |names| == |paths|
  }

  predicate WellFormed(b: BlkInfo)
  {
    Parallel(b.ownersWwids, b.ownersTypes, b.ownersNames, b.ownersPaths)
  }

  // ---------------------------------------------------------------------
  // blk_info_get_scsi

  /**
   * `blk_info_get_scsi`. A name `sd<letters><digits>` is a partition of the
   * disk `sd<letters>`. Any other name is a SCSI address when
   * `/sys/class/scsi_disk/<name>` has a wwid, and a disk name otherwise.
   * Both descriptor literals in the source, the partition's and the whole
   * disk's, leave `name` and `owners_names` out; the model fills `name` with
   * the kernel name the path is built from (the partition, the disk found
   * for an address, or the disk name itself) and a partition's
   * `owners_names` with its disk's name.
   */
  function GetScsi(h: Host, kdev: string): (r: Option<BlkInfo>)
    ensures r.Some? ==> WellFormed(r.value) && StartsWith(r.value.blkPath, "/dev/")
    ensures r.Some? && ScsiText.SplitPartition(kdev).None? ==>
      r.value.blkType == Scsi && r.value.ownersWwids == [] && r.value.ownersPaths == []
    ensures ScsiText.SplitPartition(kdev).None? ==>
      var addressPath := "/sys/class/scsi_disk/" + kdev + "/device/wwid";
      var diskPath := "/sys/block/" + kdev + "/device/wwid";
      && (r.Some? <==> h.pathExists(addressPath) || h.pathExists(diskPath))
      && (r.Some? ==>
            && r.value.wwid == ScsiText.PrettyWwid(SysfsRead(h, if h.pathExists(addressPath) then addressPath else diskPath))
            && r.value.name == (if h.pathExists(addressPath) then ScsiIdToBlkName(h.listDir, kdev) else kdev)
            && r.value.blkPath == "/dev/" + r.value.name
            && r.value.ownersTypes == [] && r.value.ownersNames == [])
    decreases |kdev|
  {
    var split := ScsiText.SplitPartition(kdev);
    if split.Some? then
      ScsiText.SplitPartitionSound(kdev);
      var disk := split.value.0;
      var part := split.value.1;
      match GetScsi(h, disk)
        case None => None
        case Some(b) =>
          assert ("/dev/" + kdev)[..5] == "/dev/";
          Some(BlkInfo(b.wwid + "-part" + part, Partition, kdev, "/dev/" + kdev,
                       [b.wwid], [Scsi], [b.name], [b.blkPath]))
    else
      var addressPath := "/sys/class/scsi_disk/" + kdev + "/device/wwid";
      var path := if h.pathExists(addressPath) then addressPath else "/sys/block/" + kdev + "/device/wwid";
      var name := if h.pathExists(addressPath) then ScsiIdToBlkName(h.listDir, kdev) else kdev;
      if h.pathExists(path) then
        assert ("/dev/" + name)[..5] == "/dev/";
        Some(BlkInfo(ScsiText.PrettyWwid(SysfsRead(h, path)), Scsi, name, "/dev/" + name, [], [], [], []))
      else None
  }

  /**
   * A partition `<disk><n>` resolves exactly when its disk does, to the wwid
   * `<disk wwid>-part<n>`, type `Partition`, path `/dev/<kdev>` and the disk
   * as its single owner.
   */
  lemma GetScsiPartition(h: Host, disk: string, part: string)
    requires ScsiText.IsDiskName(disk) && |part| > 0 && AllDigits(part)
    ensures GetScsi(h, disk + part).Some? <==> GetScsi(h, disk).Some?
    ensures GetScsi(h, disk).Some? ==>
      var d := GetScsi(h, disk).value;
      var r := GetScsi(h, disk + part).value;
      && r.wwid == d.wwid + "-part" + part && r.blkType == Partition && r.blkPath == "/dev/" + disk + part
      && r.ownersWwids == [d.wwid] && r.ownersTypes == [Scsi] && r.ownersPaths == [d.blkPath]
      && r.name == disk + part && r.ownersNames == [d.name]
      && d.blkType == Scsi
  {
    ScsiText.SplitPartitionComplete(disk, part);
    ScsiText.DiskNameIsWhole(disk);
    var kdev := disk + part;
    if GetScsi(h, disk).Some? {
      var d := GetScsi(h, disk).value;
      assert GetScsi(h, kdev) == Some(BlkInfo(d.wwid + "-part" + part, Partition, kdev, "/dev/" + kdev,
                                              [d.wwid], [Scsi], [d.name], [d.blkPath]));
      assert "/dev/" + kdev == "/dev/" + disk + part;
    }
  }

  /** A whole disk's wwid is a pretty wwid: no blank, no trailing backslash-zero padding. */
  lemma GetScsiWwidIsClean(h: Host, kdev: string)
    requires GetScsi(h, kdev).Some? && ScsiText.SplitPartition(kdev).None?
    ensures var w := GetScsi(h, kdev).value.wwid;
      (forall i :: 0 <= i < |w| ==> !ScsiText.IsBlank(w[i])) && !EndsWith(w, "\\0")
  {
    var addressPath := "/sys/class/scsi_disk/" + kdev + "/device/wwid";
    var path := if h.pathExists(addressPath) then addressPath else "/sys/block/" + kdev + "/device/wwid";
    ScsiText.PrettyWwidIsClean(SysfsRead(h, path));
  }

  // ---------------------------------------------------------------------
  // BlkInfo::new

  /** Which SCSI address pattern the dispatch applies: the one in the source, or the one it means. */
  datatype Pattern = AsWritten | Intended

  predicate ScsiIdMatch(p: Pattern, s: string)
  {
    match p
      case AsWritten => ScsiText.IsScsiIdAsWritten(s)
      case Intended => ScsiText.IsScsiId(s)
  }

  /**
   * `BlkInfo::new`: `dm-*` names are device-mapper devices, `sd*` names and
   * SCSI addresses go to the SCSI lookup, and a `major:minor` number is
   * resolved to its kernel name and dispatched again.
   */
  function New(h: Host, kdev: string, p: Pattern, fuel: nat): (r: Option<BlkInfo>)
    decreases fuel, 0, 0
  {
    if StartsWith(kdev, "dm-") then
      if fuel == 0 then None else GetDm(h, kdev, p, fuel - 1)
    else if StartsWith(kdev, "sd") then GetScsi(h, kdev)
    else if ScsiIdMatch(p, kdev) then GetScsi(h, kdev)
    else if ScsiText.IsMajorMinor(kdev) then
      match MajorMinorToBlkName(h.readLink, kdev)
        case None => None
        case Some(n) => if fuel == 0 then None else New(h, n, p, fuel - 1)
    else None
  }

  /** One owner pushed: all four lists grow together unless its wwid is already held. */
  datatype OwnerLists = OwnerLists(wwids: seq<string>, types: seq<BlkType>, names: seq<string>, paths: seq<string>)

  predicate Sound(acc: OwnerLists)
  {
    Parallel(acc.wwids, acc.types, acc.names, acc.paths) && NoDuplicates(acc.wwids)
  }

  function AddOwner(acc: OwnerLists, info: BlkInfo): (r: OwnerLists)
    ensures Sound(acc) ==> Sound(r)
    ensures info.wwid in r.wwids
    ensures forall w :: w in r.wwids <==> w in acc.wwids || w == info.wwid
    ensures info.wwid in acc.wwids ==> r == acc
    ensures info.wwid !in acc.wwids ==>
      r == OwnerLists(acc.wwids + [info.wwid], acc.types + [info.blkType], acc.names + [info.name], acc.paths + [info.blkPath])
  {
    if info.wwid in acc.wwids then acc
    else OwnerLists(acc.wwids + [info.wwid], acc.types + [info.blkType], acc.names + [info.name], acc.paths + [info.blkPath])
  }

  /** Paths are kept apart only through their wwids: two wwids naming one path both get it. */
  lemma PathsRepeatUnderTwoWwids(a: BlkInfo, b: BlkInfo)
    requires a.wwid != b.wwid && a.blkPath == b.blkPath
    ensures var r := AddOwner(AddOwner(OwnerLists([], [], [], []), a), b);
      r.paths == [a.blkPath, a.blkPath] && !NoDuplicates(r.paths)
  {
    var r := AddOwner(AddOwner(OwnerLists([], [], [], []), a), b);
    assert r.paths[0] == r.paths[1];
  }

  predicate IsDmKind(t: BlkType)
  {
    t == DmLvm || t == Dm || t == DmMultipath
  }

  /** The inner loop: each owner path of a device-mapper slave, canonicalised and looked up. */
  function SubAcc(h: Host, paths: seq<string>, p: Pattern, fuel: nat, acc: OwnerLists): (r: OwnerLists)
    decreases fuel, 1, |paths|
  {
    if |paths| == 0 then acc
    else
      var next :=
        if h.canonicalName(paths[0]).Some? && New(h, h.canonicalName(paths[0]).value, p, fuel).Some?
        then AddOwner(acc, New(h, h.canonicalName(paths[0]).value, p, fuel).value)
        else acc;
      SubAcc(h, paths[1..], p, fuel, next)
  }

  /** One slave entry: pushed when it resolves, and expanded once more when it is a device-mapper kind. */
  function AddSlave(h: Host, entry: Option<string>, p: Pattern, fuel: nat, acc: OwnerLists): (r: OwnerLists)
    decreases fuel, 2, 0
  {
    if entry.None? || New(h, entry.value, p, fuel).None? then acc
    else
      var info := New(h, entry.value, p, fuel).value;
      var added := AddOwner(acc, info);
      if IsDmKind(info.blkType) then SubAcc(h, info.ownersPaths, p, fuel, added) else added
  }

  /** The outer loop over the slave directory. */
  function DmOwnersAcc(h: Host, entries: seq<Option<string>>, p: Pattern, fuel: nat, acc: OwnerLists): (r: OwnerLists)
    decreases fuel, 3, |entries|
  {
    if |entries| == 0 then acc else DmOwnersAcc(h, entries[1..], p, fuel, AddSlave(h, entries[0], p, fuel, acc))
  }

  /** The daemon's device-mapper type rule: `Dm`, overridden by the `LVM-` and `mpath-` prefixes only. */
  function DmTypeOf(wwid: string): (t: BlkType)
    ensures t == DmLvm <==> StartsWith(wwid, "LVM-")
    ensures t == DmMultipath <==> StartsWith(wwid, "mpath-")
    ensures t == Dm <==> !StartsWith(wwid, "LVM-") && !StartsWith(wwid, "mpath-")
    ensures IsDmKind(t)
  {
    assert StartsWith(wwid, "LVM-") ==> wwid[0] == 'L';
    assert StartsWith(wwid, "mpath-") ==> wwid[0] == 'm';
    if StartsWith(wwid, "LVM-") then DmLvm
    else if StartsWith(wwid, "mpath-") then DmMultipath
    else Dm
  }

  /** `blk_info_get_dm`: `None` without a dm uuid, with an unreadable slave directory or with no owner. */
  function GetDm(h: Host, kdev: string, p: Pattern, fuel: nat): (r: Option<BlkInfo>)
    ensures !h.pathExists("/sys/block/" + kdev + "/dm/uuid") ==> r.None?
    ensures h.listDir("/sys/block/" + kdev + "/slaves").Unreadable? ==> r.None?
    ensures r.Some? ==>
      && r.value.blkType == DmTypeOf(r.value.wwid) && r.value.ownersWwids != []
      && r.value.blkPath == "/dev/mapper/" + r.value.name
    ensures r.Some? ==>
      && r.value.wwid == SysfsRead(h, "/sys/block/" + kdev + "/dm/uuid")
      && r.value.name == SysfsRead(h, "/sys/block/" + kdev + "/dm/name")
    ensures var listing := h.listDir("/sys/block/" + kdev + "/slaves");
      r.Some? <==>
        && h.pathExists("/sys/block/" + kdev + "/dm/uuid") && listing.Listing?
        && DmOwnersAcc(h, listing.entries, p, fuel, OwnerLists([], [], [], [])).wwids != []
    ensures var listing := h.listDir("/sys/block/" + kdev + "/slaves");
      r.Some? ==>
        var acc := DmOwnersAcc(h, listing.entries, p, fuel, OwnerLists([], [], [], []));
        && listing.Listing?
        && r.value.ownersWwids == acc.wwids && r.value.ownersTypes == acc.types
        && r.value.ownersNames == acc.names && r.value.ownersPaths == acc.paths
    decreases fuel, 4, 0
  {
    var uuidPath := "/sys/block/" + kdev + "/dm/uuid";
    if !h.pathExists(uuidPath) then None
    else
      var name := SysfsRead(h, "/sys/block/" + kdev + "/dm/name");
      var wwid := SysfsRead(h, uuidPath);
      var listing := h.listDir("/sys/block/" + kdev + "/slaves");
      if listing.Unreadable? then None
      else
        var acc := DmOwnersAcc(h, listing.entries, p, fuel, OwnerLists([], [], [], []));
        if acc.wwids == [] then None
        else Some(BlkInfo(wwid, DmTypeOf(wwid), name, "/dev/mapper/" + name, acc.wwids, acc.types, acc.names, acc.paths))
  }

  // ---------------------------------------------------------------------
  // The finding: the SCSI address pattern as written

  /**
   * With the pattern as written, `1::2:3:4` is sent to the SCSI lookup; the
   * intended pattern refuses it, and as it is no `major:minor` number either
   * the lookup finds nothing, whatever the machine holds.
   */
  lemma ScsiIdRouteAsWritten(h: Host, fuel: nat)
    ensures New(h, "1::2:3:4", AsWritten, fuel) == GetScsi(h, "1::2:3:4")
    ensures New(h, "1::2:3:4", Intended, fuel).None?
  {
    ScsiText.ScsiIdPatternAsWrittenTakesDoubleColon();
    DoubleColonIsNoDeviceNumber();
    NotDmNorDisk("1::2:3:4");
  }

  lemma NotDmNorDisk(s: string)
    requires |s| > 0 && s[0] == '1'
    ensures !StartsWith(s, "dm-") && !StartsWith(s, "sd")
  {
  }

  lemma DoubleColonIsNoDeviceNumber()
    ensures !ScsiText.IsMajorMinor("1::2:3:4")
  {
    var s := "1::2:3:4";
    IndexOfAt(s, ':', 1);
    assert s[2..][0] == ':' && !IsDigit(s[2..][0]);
  }

  /**
   * The intended dispatch: a name that is neither `dm-*` nor `sd*` reaches the
   * SCSI lookup exactly when it is a SCSI address `H:C:T:L`, and a
   * `major:minor` number is never taken for one.
   */
  lemma DispatchIntended(h: Host, kdev: string, fuel: nat)
    requires !StartsWith(kdev, "dm-") && !StartsWith(kdev, "sd")
    ensures ScsiText.IsScsiId(kdev) ==> New(h, kdev, Intended, fuel) == GetScsi(h, kdev)
    ensures ScsiText.IsMajorMinor(kdev) ==> !ScsiText.IsScsiId(kdev)
    ensures !ScsiText.IsScsiId(kdev) && !ScsiText.IsMajorMinor(kdev) ==> New(h, kdev, Intended, fuel).None?
  {
    if ScsiText.IsMajorMinor(kdev) && ScsiText.IsScsiId(kdev) {
      ScsiText.DigitGroupsUnique(kdev, 1, 3);
    }
  }

  /** The pattern as written takes every SCSI address the intended one does. */
  lemma AsWrittenTakesEveryAddress(h: Host, kdev: string, fuel: nat)
    requires !StartsWith(kdev, "dm-") && !StartsWith(kdev, "sd") && ScsiText.IsScsiId(kdev)
    ensures New(h, kdev, AsWritten, fuel) == New(h, kdev, Intended, fuel) == GetScsi(h, kdev)
  {
    ScsiText.StrictGroupsAreLoose(kdev, 3);
  }

  // ---------------------------------------------------------------------
  // Owner list properties

  /** The lists only grow, and stay parallel and free of repeated wwids. */
  predicate Grows(acc: OwnerLists, r: OwnerLists)
  {
    && acc.wwids <= r.wwids && acc.types <= r.types && acc.names <= r.names && acc.paths <= r.paths
    && (Sound(acc) ==> Sound(r))
  }

  lemma GrowsTrans(a: OwnerLists, b: OwnerLists, c: OwnerLists)
    requires Grows(a, b) && Grows(b, c)
    ensures Grows(a, c)
  {
  }

  lemma {:induction false} SubAccGrows(h: Host, paths: seq<string>, p: Pattern, fuel: nat, acc: OwnerLists)
    ensures Grows(acc, SubAcc(h, paths, p, fuel, acc))
    decreases |paths|
  {
    if |paths| > 0 {
      var next :=
        if h.canonicalName(paths[0]).Some? && New(h, h.canonicalName(paths[0]).value, p, fuel).Some?
        then AddOwner(acc, New(h, h.canonicalName(paths[0]).value, p, fuel).value)
        else acc;
      SubAccGrows(h, paths[1..], p, fuel, next);
      GrowsTrans(acc, next, SubAcc(h, paths, p, fuel, acc));
    }
  }

  lemma AddSlaveGrows(h: Host, entry: Option<string>, p: Pattern, fuel: nat, acc: OwnerLists)
    ensures Grows(acc, AddSlave(h, entry, p, fuel, acc))
  {
    if entry.Some? && New(h, entry.value, p, fuel).Some? {
      var info := New(h, entry.value, p, fuel).value;
      var added := AddOwner(acc, info);
      if IsDmKind(info.blkType) {
        SubAccGrows(h, info.ownersPaths, p, fuel, added);
        GrowsTrans(acc, added, SubAcc(h, info.ownersPaths, p, fuel, added));
      }
    }
  }

  lemma {:induction false} DmOwnersAccGrows(h: Host, entries: seq<Option<string>>, p: Pattern, fuel: nat, acc: OwnerLists)
    ensures Grows(acc, DmOwnersAcc(h, entries, p, fuel, acc))
    decreases |entries|
  {
    if |entries| > 0 {
      var next := AddSlave(h, entries[0], p, fuel, acc);
      AddSlaveGrows(h, entries[0], p, fuel, acc);
      DmOwnersAccGrows(h, entries[1..], p, fuel, next);
      GrowsTrans(acc, next, DmOwnersAcc(h, entries, p, fuel, acc));
    }
  }

  /** An owner path that canonicalises and resolves has its wwid in the list. */
  predicate PathHeld(h: Host, path: string, p: Pattern, fuel: nat, r: OwnerLists)
  {
    h.canonicalName(path).Some? && New(h, h.canonicalName(path).value, p, fuel).Some? ==>
      New(h, h.canonicalName(path).value, p, fuel).value.wwid in r.wwids
  }

  /** The owners reached from a device-mapper slave's own owner paths, one level down. */
  predicate SubSlavesHeld(h: Host, paths: seq<string>, p: Pattern, fuel: nat, r: OwnerLists)
  {
    forall i :: 0 <= i < |paths| ==> PathHeld(h, paths[i], p, fuel, r)
  }

  lemma PathHeldStays(h: Host, path: string, p: Pattern, fuel: nat, a: OwnerLists, b: OwnerLists)
    requires PathHeld(h, path, p, fuel, a) && a.wwids <= b.wwids
    ensures PathHeld(h, path, p, fuel, b)
  {
  }

  lemma {:induction false} SubAccHolds(h: Host, paths: seq<string>, p: Pattern, fuel: nat, acc: OwnerLists)
    ensures SubSlavesHeld(h, paths, p, fuel, SubAcc(h, paths, p, fuel, acc))
    decreases |paths|
  {
    if |paths| > 0 {
      var next :=
        if h.canonicalName(paths[0]).Some? && New(h, h.canonicalName(paths[0]).value, p, fuel).Some?
        then AddOwner(acc, New(h, h.canonicalName(paths[0]).value, p, fuel).value)
        else acc;
      var r := SubAcc(h, paths, p, fuel, acc);
      assert r == SubAcc(h, paths[1..], p, fuel, next);
      SubAccHolds(h, paths[1..], p, fuel, next);
      SubAccGrows(h, paths[1..], p, fuel, next);
      assert PathHeld(h, paths[0], p, fuel, next);
      PathHeldStays(h, paths[0], p, fuel, next, r);
      forall i | 0 <= i < |paths|
        ensures PathHeld(h, paths[i], p, fuel, r)
      {
        if i > 0 {
          assert paths[1..][i - 1] == paths[i];
        }
      }
    }
  }

  /**
   * What a slave entry brings in: its own wwid when it resolves, and for a
   * device-mapper slave the wwid of every owner path that resolves.
   */
  predicate SlaveHeld(h: Host, entry: Option<string>, p: Pattern, fuel: nat, r: OwnerLists)
  {
    entry.Some? && New(h, entry.value, p, fuel).Some? ==>
      var info := New(h, entry.value, p, fuel).value;
      info.wwid in r.wwids && (IsDmKind(info.blkType) ==> SubSlavesHeld(h, info.ownersPaths, p, fuel, r))
  }

  lemma AddSlaveHolds(h: Host, entry: Option<string>, p: Pattern, fuel: nat, acc: OwnerLists)
    ensures SlaveHeld(h, entry, p, fuel, AddSlave(h, entry, p, fuel, acc))
  {
    if entry.Some? && New(h, entry.value, p, fuel).Some? {
      var info := New(h, entry.value, p, fuel).value;
      var added := AddOwner(acc, info);
      if IsDmKind(info.blkType) {
        SubAccGrows(h, info.ownersPaths, p, fuel, added);
        SubAccHolds(h, info.ownersPaths, p, fuel, added);
      }
    }
  }

  lemma HeldStays(h: Host, entry: Option<string>, p: Pattern, fuel: nat, a: OwnerLists, b: OwnerLists)
    requires SlaveHeld(h, entry, p, fuel, a) && a.wwids <= b.wwids
    ensures SlaveHeld(h, entry, p, fuel, b)
  {
    if entry.Some? && New(h, entry.value, p, fuel).Some? {
      var info := New(h, entry.value, p, fuel).value;
      if IsDmKind(info.blkType) {
        forall i | 0 <= i < |info.ownersPaths|
          ensures PathHeld(h, info.ownersPaths[i], p, fuel, b)
        {
          PathHeldStays(h, info.ownersPaths[i], p, fuel, a, b);
        }
      }
    }
  }

  lemma {:induction false} DmOwnersAccHolds(h: Host, entries: seq<Option<string>>, p: Pattern, fuel: nat,
                                            acc: OwnerLists, i: nat)
    requires i < |entries|
    ensures SlaveHeld(h, entries[i], p, fuel, DmOwnersAcc(h, entries, p, fuel, acc))
    decreases |entries|
  {
    var next := AddSlave(h, entries[0], p, fuel, acc);
    var r := DmOwnersAcc(h, entries, p, fuel, acc);
    assert r == DmOwnersAcc(h, entries[1..], p, fuel, next);
    if i == 0 {
      AddSlaveHolds(h, entries[0], p, fuel, acc);
      DmOwnersAccGrows(h, entries[1..], p, fuel, next);
      HeldStays(h, entries[0], p, fuel, next, r);
    } else {
      DmOwnersAccHolds(h, entries[1..], p, fuel, next, i - 1);
      assert entries[1..][i - 1] == entries[i];
    }
  }

  /** The descriptors the owner paths of a device-mapper slave resolve to. */
  function SubSources(h: Host, paths: seq<string>, p: Pattern, fuel: nat): set<BlkInfo>
  {
    set q | q in paths && h.canonicalName(q).Some? && New(h, h.canonicalName(q).value, p, fuel).Some?
      :: New(h, h.canonicalName(q).value, p, fuel).value
  }

  /** What one slave entry may bring in: the slave, and for a device-mapper slave its resolved owners. */
  function SlaveSources(h: Host, entry: Option<string>, p: Pattern, fuel: nat): set<BlkInfo>
  {
    if entry.None? || New(h, entry.value, p, fuel).None? then {}
    else
      var info := New(h, entry.value, p, fuel).value;
      {info} + (if IsDmKind(info.blkType) then SubSources(h, info.ownersPaths, p, fuel) else {})
  }

  /** What a slave directory may bring in: the union over its entries. */
  function Sources(h: Host, entries: seq<Option<string>>, p: Pattern, fuel: nat): set<BlkInfo>
  {
    if |entries| == 0 then {} else SlaveSources(h, entries[0], p, fuel) + Sources(h, entries[1..], p, fuel)
  }

  function WwidsOf(src: set<BlkInfo>): set<string>
  {
    set b | b in src :: b.wwid
  }

  function PathsOf(src: set<BlkInfo>): set<string>
  {
    set b | b in src :: b.blkPath
  }

  /** Going from `acc` to `r` added only wwids and paths of descriptors in `src`. */
  predicate From(acc: OwnerLists, r: OwnerLists, src: set<BlkInfo>)
  {
    && (forall w :: w in r.wwids ==> w in acc.wwids || w in WwidsOf(src))
    && (forall q :: q in r.paths ==> q in acc.paths || q in PathsOf(src))
  }

  lemma FromTrans(a: OwnerLists, b: OwnerLists, c: OwnerLists, s1: set<BlkInfo>, s2: set<BlkInfo>)
    requires From(a, b, s1) && From(b, c, s2)
    ensures From(a, c, s1 + s2)
  {
    forall w | w in c.wwids ensures w in a.wwids || w in WwidsOf(s1 + s2) {
      if w in WwidsOf(s2) {
        var x :| x in s2 && x.wwid == w;
        assert x in s1 + s2;
      } else if w !in a.wwids {
        var x :| x in s1 && x.wwid == w;
        assert x in s1 + s2;
      }
    }
    forall q | q in c.paths ensures q in a.paths || q in PathsOf(s1 + s2) {
      if q in PathsOf(s2) {
        var x :| x in s2 && x.blkPath == q;
        assert x in s1 + s2;
      } else if q !in a.paths {
        var x :| x in s1 && x.blkPath == q;
        assert x in s1 + s2;
      }
    }
  }

  lemma FromWider(a: OwnerLists, b: OwnerLists, s1: set<BlkInfo>, s2: set<BlkInfo>)
    requires From(a, b, s1) && s1 <= s2
    ensures From(a, b, s2)
  {
    forall w | w in b.wwids && w !in a.wwids ensures w in WwidsOf(s2) {
      var x :| x in s1 && x.wwid == w;
      assert x in s2;
    }
    forall q | q in b.paths && q !in a.paths ensures q in PathsOf(s2) {
      var x :| x in s1 && x.blkPath == q;
      assert x in s2;
    }
  }

  lemma AddOwnerFrom(acc: OwnerLists, info: BlkInfo)
    ensures From(acc, AddOwner(acc, info), {info})
  {
    assert info in {info};
  }

  lemma {:induction false} SubAccFrom(h: Host, paths: seq<string>, p: Pattern, fuel: nat, acc: OwnerLists)
    ensures From(acc, SubAcc(h, paths, p, fuel, acc), SubSources(h, paths, p, fuel))
    decreases |paths|
  {
    if |paths| == 0 {
    } else {
      var q := paths[0];
      var ok := h.canonicalName(q).Some? && New(h, h.canonicalName(q).value, p, fuel).Some?;
      var here: set<BlkInfo> := if ok then {New(h, h.canonicalName(q).value, p, fuel).value} else {};
      var next := if ok then AddOwner(acc, New(h, h.canonicalName(q).value, p, fuel).value) else acc;
      if ok {
        AddOwnerFrom(acc, New(h, h.canonicalName(q).value, p, fuel).value);
      }
      assert From(acc, next, here);
      SubAccFrom(h, paths[1..], p, fuel, next);
      assert SubAcc(h, paths, p, fuel, acc) == SubAcc(h, paths[1..], p, fuel, next);
      FromTrans(acc, next, SubAcc(h, paths, p, fuel, acc), here, SubSources(h, paths[1..], p, fuel));
      assert here + SubSources(h, paths[1..], p, fuel) <= SubSources(h, paths, p, fuel) by {
        forall x | x in paths[1..] ensures x in paths {
          var k :| 0 <= k < |paths[1..]| && paths[1..][k] == x;
          assert paths[k + 1] == x;
        }
      }
      FromWider(acc, SubAcc(h, paths, p, fuel, acc), here + SubSources(h, paths[1..], p, fuel), SubSources(h, paths, p, fuel));
    }
  }

  lemma AddSlaveFrom(h: Host, entry: Option<string>, p: Pattern, fuel: nat, acc: OwnerLists)
    ensures From(acc, AddSlave(h, entry, p, fuel, acc), SlaveSources(h, entry, p, fuel))
  {
    if entry.Some? && New(h, entry.value, p, fuel).Some? {
      var info := New(h, entry.value, p, fuel).value;
      var added := AddOwner(acc, info);
      AddOwnerFrom(acc, info);
      if IsDmKind(info.blkType) {
        SubAccFrom(h, info.ownersPaths, p, fuel, added);
        FromTrans(acc, added, SubAcc(h, info.ownersPaths, p, fuel, added), {info}, SubSources(h, info.ownersPaths, p, fuel));
      } else {
        FromWider(acc, added, {info}, SlaveSources(h, entry, p, fuel));
      }
    }
  }

  lemma {:induction false} DmOwnersAccFrom(h: Host, entries: seq<Option<string>>, p: Pattern, fuel: nat, acc: OwnerLists)
    ensures From(acc, DmOwnersAcc(h, entries, p, fuel, acc), Sources(h, entries, p, fuel))
    decreases |entries|
  {
    if |entries| > 0 {
      var next := AddSlave(h, entries[0], p, fuel, acc);
      AddSlaveFrom(h, entries[0], p, fuel, acc);
      DmOwnersAccFrom(h, entries[1..], p, fuel, next);
      FromTrans(acc, next, DmOwnersAcc(h, entries, p, fuel, acc), SlaveSources(h, entries[0], p, fuel), Sources(h, entries[1..], p, fuel));
    }
  }

  /**
   * The owners of a device-mapper device: the four lists have one length,
   * no wwid repeats, and every slave that resolves is held, together with
   * the owners one level below a device-mapper slave; conversely every wwid
   * and path held comes from one of those.
   */
  lemma GetDmOwners(h: Host, kdev: string, p: Pattern, fuel: nat)
    requires GetDm(h, kdev, p, fuel).Some?
    ensures var r := GetDm(h, kdev, p, fuel).value;
      var es := h.listDir("/sys/block/" + kdev + "/slaves").entries;
      && WellFormed(r) && NoDuplicates(r.ownersWwids)
      && (forall i :: 0 <= i < |es| ==>
           SlaveHeld(h, es[i], p, fuel, OwnerLists(r.ownersWwids, r.ownersTypes, r.ownersNames, r.ownersPaths)))
    ensures var r := GetDm(h, kdev, p, fuel).value;
      var es := h.listDir("/sys/block/" + kdev + "/slaves").entries;
      && (forall w :: w in r.ownersWwids ==> w in WwidsOf(Sources(h, es, p, fuel)))
      && (forall q :: q in r.ownersPaths ==> q in PathsOf(Sources(h, es, p, fuel)))
  {
    var es := h.listDir("/sys/block/" + kdev + "/slaves").entries;
    var empty := OwnerLists([], [], [], []);
    var acc := DmOwnersAcc(h, es, p, fuel, empty);
    DmOwnersAccGrows(h, es, p, fuel, empty);
    DmOwnersAccFrom(h, es, p, fuel, empty);
    forall i | 0 <= i < |es|
      ensures SlaveHeld(h, es[i], p, fuel, acc)
    {
      DmOwnersAccHolds(h, es, p, fuel, empty, i);
    }
  }

  /** Every descriptor `new` returns has four owner lists of one length. */
  lemma {:induction false} NewWellFormed(h: Host, kdev: string, p: Pattern, fuel: nat)
    requires New(h, kdev, p, fuel).Some?
    ensures WellFormed(New(h, kdev, p, fuel).value)
    decreases fuel
  {
    if StartsWith(kdev, "dm-") {
      GetDmOwners(h, kdev, p, fuel - 1);
    } else if !StartsWith(kdev, "sd") && !ScsiIdMatch(p, kdev) && ScsiText.IsMajorMinor(kdev) {
      NewWellFormed(h, MajorMinorToBlkName(h.readLink, kdev).value, p, fuel - 1);
    }
  }

  // ---------------------------------------------------------------------
  // blk_info_get_dm as loops

  /** One slave pushed into the four lists under the wwid guard. */
  method PushOwner(acc: OwnerLists, info: BlkInfo) returns (r: OwnerLists)
    ensures r == AddOwner(acc, info)
  {
    r := acc;
    if info.wwid !in r.wwids {
      r := r.(wwids := r.wwids + [info.wwid]);
      r := r.(types := r.types + [info.blkType]);
      r := r.(names := r.names + [info.name]);
      r := r.(paths := r.paths + [info.blkPath]);
    }
  }

  lemma SubAccStep(h: Host, paths: seq<string>, i: nat, p: Pattern, fuel: nat, acc: OwnerLists)
    requires i < |paths|
    ensures SubAcc(h, paths[i..], p, fuel, acc)
         == SubAcc(h, paths[i + 1..], p, fuel,
                   if h.canonicalName(paths[i]).Some? && New(h, h.canonicalName(paths[i]).value, p, fuel).Some?
                   then AddOwner(acc, New(h, h.canonicalName(paths[i]).value, p, fuel).value)
                   else acc)
  {
    assert paths[i..][0] == paths[i] && paths[i..][1..] == paths[i + 1..];
  }

  /** The inner loop over a device-mapper slave's owner paths. */
  method ExpandSlave(h: Host, paths: seq<string>, p: Pattern, fuel: nat, acc: OwnerLists) returns (r: OwnerLists)
    ensures r == SubAcc(h, paths, p, fuel, acc)
  {
    r := acc;
    var i := 0;
    while i < |paths|
      invariant 0 <= i <= |paths|
      invariant SubAcc(h, paths, p, fuel, acc) == SubAcc(h, paths[i..], p, fuel, r)
    {
      SubAccStep(h, paths, i, p, fuel, r);
      var name := h.canonicalName(paths[i]);
      if name.Some? {
        var sub := New(h, name.value, p, fuel);
        if sub.Some? {
          r := PushOwner(r, sub.value);
        }
      }
      i := i + 1;
    }
  }

  /** One turn of the outer loop. */
  method PushSlave(h: Host, entry: Option<string>, p: Pattern, fuel: nat, acc: OwnerLists) returns (r: OwnerLists)
    ensures r == AddSlave(h, entry, p, fuel, acc)
  {
    r := acc;
    if entry.Some? {
      var slave := New(h, entry.value, p, fuel);
      if slave.Some? {
        r := PushOwner(r, slave.value);
        if IsDmKind(slave.value.blkType) {
          r := ExpandSlave(h, slave.value.ownersPaths, p, fuel, r);
        }
      }
    }
  }

  lemma DmOwnersAccStep(h: Host, es: seq<Option<string>>, i: nat, p: Pattern, fuel: nat, acc: OwnerLists)
    requires i < |es|
    ensures DmOwnersAcc(h, es[i..], p, fuel, acc) == DmOwnersAcc(h, es[i + 1..], p, fuel, AddSlave(h, es[i], p, fuel, acc))
  {
    assert es[i..][0] == es[i] && es[i..][1..] == es[i + 1..];
  }

  /** The outer loop over the slave directory. */
  method CollectOwners(h: Host, es: seq<Option<string>>, p: Pattern, fuel: nat) returns (r: OwnerLists)
    ensures r == DmOwnersAcc(h, es, p, fuel, OwnerLists([], [], [], []))
  {
    r := OwnerLists([], [], [], []);
    var i := 0;
    while i < |es|
      invariant 0 <= i <= |es|
      invariant DmOwnersAcc(h, es, p, fuel, OwnerLists([], [], [], [])) == DmOwnersAcc(h, es[i..], p, fuel, r)
    {
      DmOwnersAccStep(h, es, i, p, fuel, r);
      r := PushSlave(h, es[i], p, fuel, r);
      i := i + 1;
    }
  }

  /** `blk_info_get_dm` itself: the type set by prefix after the fact, then the owner loops. */
  method BlkInfoGetDm(h: Host, kdev: string, p: Pattern, fuel: nat) returns (r: Option<BlkInfo>)
    ensures r == GetDm(h, kdev, p, fuel)
  {
    var uuidPath := "/sys/block/" + kdev + "/dm/uuid";
    if !h.pathExists(uuidPath) {
      return None;
    }
    var name := Read(h, "/sys/block/" + kdev + "/dm/name");
    var wwid := Read(h, uuidPath);
    var ret := BlkInfo(wwid, Dm, name, "/dev/mapper/" + name, [], [], [], []);
    if StartsWith(wwid, "LVM-") {
      ret := ret.(blkType := DmLvm);
    } else if StartsWith(wwid, "mpath-") {
      ret := ret.(blkType := DmMultipath);
    }
    var listing := h.listDir("/sys/block/" + kdev + "/slaves");
    if listing.Unreadable? {
      return None;
    }
    var owners := CollectOwners(h, listing.entries, p, fuel);
    if owners.wwids == [] {
      return None;
    }
    ret := ret.(ownersWwids := owners.wwids, ownersTypes := owners.types,
                ownersNames := owners.names, ownersPaths := owners.paths);
    r := Some(ret);
  }
}
