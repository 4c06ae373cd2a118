/**
 * The older library's block lookup: the name dispatch of `BlkInfo::_new`,
 * `new` and `new_skip_extra`, `blk_info_get_scsi` (which looks a partition's
 * disk up through `new`), and `blk_info_get_dm`, which gathers a
 * device-mapper device's owners into parallel, de-duplicated lists and
 * expands device-mapper slaves one level further.
 *
 * These functions call each other; each redirection spends one unit of
 * `fuel`, and running out gives `InternalBug`.
 */
module OldBlk {
  import opened Common
  import opened Errors
  import ScsiText
  import Blk
  import opened OldBlkData
  import opened OldScsi

  function NotSupported(blk: string): PeripetyError
  {
    NoSupport("Block path '" + blk + "' is not supported yet")
  }

  // ---------------------------------------------------------------------
  // _new, new, new_skip_extra

  /** `BlkInfo::_new(blk, skip_holder_check)`. */
  function Resolve(h: Host, blk: string, skip: bool, fuel: nat): (r: Result<BlkInfo, PeripetyError>)
    decreases fuel, 0, 0
  {
    if fuel == 0 then Err(InternalBug("Block path '" + blk + "' is nested too deeply"))
    else if StartsWith(blk, "/") then
      if h.pathExists(blk) then
        match h.canonicalName(blk)
          case Some(s) => Resolve(h, s, skip, fuel - 1)
          case None => Err(NotSupported(blk))
      else Err(BlockNoExists("Block path '" + blk + "' does not exists"))
    else if StartsWith(blk, "sd") then
      if !skip && Blk.HolderDmName(h.listDir, blk).Some? then GetDm(h, Blk.HolderDmName(h.listDir, blk).value, fuel - 1)
      else GetScsi(h, blk, fuel - 1)
    else if ScsiText.IsScsiId(blk) then
      match ScsiIdToBlkName(h, blk)
        case Err(e) => Err(e)
        case Ok(name) => Resolve(h, name, skip, fuel - 1)
    else if StartsWith(blk, "dm-") then GetDm(h, blk, fuel - 1)
    else if ScsiText.IsMajorMinor(blk) then
      match Blk.MajorMinorToBlkName(h.readLink, blk)
        case Err(e) => Err(e)
        case Ok(name) => Resolve(h, name, skip, fuel - 1)
    else if h.pathExists("/dev/disk/by-uuid/" + blk) then Resolve(h, "/dev/disk/by-uuid/" + blk, skip, fuel - 1)
    else
      var listing := h.listDir("/sys/class/scsi_disk");
      if listing.Unreadable? then Err(NotSupported(blk))
      else WwidScan(h, blk, listing.entries, fuel - 1)
  }

  /**
   * The last resort of `_new`: the first SCSI disk whose pretty WWID is
   * `blk`, resolved with `new`. A failing read ends the scan with its error.
   */
  function WwidScan(h: Host, blk: string, entries: seq<Option<string>>, fuel: nat): (r: Result<BlkInfo, PeripetyError>)
    decreases fuel, 2, |entries|
  {
    if |entries| == 0 then Err(NotSupported(blk))
    else if entries[0].None? then WwidScan(h, blk, entries[1..], fuel)
    else
      var name := entries[0].value;
      var p := "/sys/class/scsi_disk/" + name + "/device/wwid";
      if !h.pathExists(p) then WwidScan(h, blk, entries[1..], fuel)
      else match h.readFile(p)
        case Err(e) => Err(e)
        case Ok(c) => if blk == ScsiText.PrettyWwid(c) then New(h, name, fuel) else WwidScan(h, blk, entries[1..], fuel)
  }

  /** The SCSI disk `name` has a readable WWID file whose pretty form is `blk`. */
  predicate WwidIs(h: Host, name: string, blk: string)
  {
    var p := "/sys/class/scsi_disk/" + name + "/device/wwid";
    h.pathExists(p) && h.readFile(p).Ok? && ScsiText.PrettyWwid(h.readFile(p).value) == blk
  }

  /** A disk the scan finds is a listed entry whose WWID is `blk`, resolved with `new`. */
  lemma {:induction false} WwidScanFound(h: Host, blk: string, entries: seq<Option<string>>, fuel: nat)
    requires WwidScan(h, blk, entries, fuel).Ok?
    ensures exists n :: Some(n) in entries && WwidIs(h, n, blk) && New(h, n, fuel) == WwidScan(h, blk, entries, fuel)
    decreases |entries|
  {
    if entries[0].Some? && WwidIs(h, entries[0].value, blk) {
      assert Some(entries[0].value) in entries;
    } else {
      WwidScanFound(h, blk, entries[1..], fuel);
      var n :| Some(n) in entries[1..] && WwidIs(h, n, blk) && New(h, n, fuel) == WwidScan(h, blk, entries[1..], fuel);
      assert Some(n) in entries;
    }
  }

  /** `BlkInfo::new`: `_new`, then the uuid and, when there is one, the mount point. */
  function New(h: Host, blk: string, fuel: nat): (r: Result<BlkInfo, PeripetyError>)
    ensures r.Ok? <==> Resolve(h, blk, false, fuel).Ok?
    ensures r.Ok? ==>
      var bi := Resolve(h, blk, false, fuel).value;
      && (h.uuidOf(bi.blkPath).Err? ==> r.value == bi)
      && (h.uuidOf(bi.blkPath).Ok? ==>
            r.value == bi.(uuid := Some(h.uuidOf(bi.blkPath).value), mountPoint := h.mountPointOf(bi.blkPath)))
    decreases fuel, 1, 0
  {
    match Resolve(h, blk, false, fuel)
      case Err(e) => Err(e)
      case Ok(bi) =>
        match h.uuidOf(bi.blkPath)
          case Err(_) => Ok(bi)
          case Ok(u) => Ok(bi.(uuid := Some(u), mountPoint := h.mountPointOf(bi.blkPath)))
  }

  /** `BlkInfo::new_skip_extra`. */
  function NewSkipExtra(h: Host, blk: string, fuel: nat): (r: Result<BlkInfo, PeripetyError>)
    decreases fuel, 0, 1
  {
    Resolve(h, blk, true, fuel)
  }

  /** `new` itself, setting the uuid and mount point on what `_new` found. */
  method NewBlkInfo(h: Host, blk: string, fuel: nat) returns (r: Result<BlkInfo, PeripetyError>)
    ensures r == New(h, blk, fuel)
  {
    var found := Resolve(h, blk, false, fuel);
    if found.Err? {
      return Err(found.error);
    }
    var bi := found.value;
    var uuid := h.uuidOf(bi.blkPath);
    if uuid.Ok? {
      bi := bi.(uuid := Some(uuid.value));
      bi := bi.(mountPoint := h.mountPointOf(bi.blkPath));
    }
    r := Ok(bi);
  }

  /** `blk_info_get_scsi`: a partition is described through its disk, anything else as a whole disk. */
  function GetScsi(h: Host, blk: string, fuel: nat): (r: Result<BlkInfo, PeripetyError>)
    decreases fuel, 2, 0
  {
    var split := ScsiText.SplitPartition(blk);
    if split.Some? then
      match New(h, split.value.0, fuel)
        case Err(e) => Err(e)
        case Ok(d) => PartitionFrom(h, blk, d, split.value.1)
    else WholeDisk(h, blk)
  }

  /**
   * A partition is described through its disk: the disk's failure is the
   * partition's, and the disk heads its owners; a whole disk has none.
   */
  lemma GetScsiShape(h: Host, blk: string, fuel: nat)
    ensures var r := GetScsi(h, blk, fuel);
      r.Ok? ==> (r.value.blkType == Partition <==> ScsiText.SplitPartition(blk).Some?)
    ensures ScsiText.SplitPartition(blk).Some? ==>
      var r := GetScsi(h, blk, fuel);
      var disk := New(h, ScsiText.SplitPartition(blk).value.0, fuel);
      && (disk.Err? ==> r == Err(disk.error))
      && (r.Ok? ==> disk.Ok? && |r.value.ownersWwids| > 0 && r.value.ownersWwids[0] == disk.value.wwid)
    ensures ScsiText.SplitPartition(blk).None? && GetScsi(h, blk, fuel).Ok? ==> GetScsi(h, blk, fuel).value.ownersWwids == []
  {
  }

  // ---------------------------------------------------------------------
  // Dispatch properties

  /** A missing path gives `BlockNoExists`; one that cannot be canonicalised gives `NoSupport`. */
  lemma ResolveAbsolutePath(h: Host, blk: string, skip: bool, fuel: nat)
    requires fuel > 0 && StartsWith(blk, "/")
    ensures !h.pathExists(blk) ==> Resolve(h, blk, skip, fuel) == Err(BlockNoExists("Block path '" + blk + "' does not exists"))
    ensures h.pathExists(blk) && h.canonicalName(blk).None? ==> Resolve(h, blk, skip, fuel) == Err(NotSupported(blk))
    ensures h.pathExists(blk) && h.canonicalName(blk).Some? ==>
              Resolve(h, blk, skip, fuel) == Resolve(h, h.canonicalName(blk).value, skip, fuel - 1)
  {
  }

  /**
   * A SCSI disk name goes to the device-mapper device holding it unless the
   * holder check is skipped; a partition name is described through its disk.
   */
  lemma ResolveDiskName(h: Host, blk: string, fuel: nat)
    requires fuel > 0 && StartsWith(blk, "sd")
    ensures Blk.HolderDmName(h.listDir, blk).Some? ==>
              Resolve(h, blk, false, fuel) == GetDm(h, Blk.HolderDmName(h.listDir, blk).value, fuel - 1)
    ensures Resolve(h, blk, true, fuel) == GetScsi(h, blk, fuel - 1)
    ensures forall d, p :: ScsiText.IsDiskName(d) && |p| > 0 && AllDigits(p) && blk == d + p ==>
              GetScsi(h, blk, fuel - 1) == (if New(h, d, fuel - 1).Ok? then PartitionFrom(h, blk, New(h, d, fuel - 1).value, p)
                                            else Err(New(h, d, fuel - 1).error))
  {
    assert !StartsWith(blk, "/") by { assert blk[0] == 's'; }
    forall d, p | ScsiText.IsDiskName(d) && |p| > 0 && AllDigits(p) && blk == d + p
      ensures GetScsi(h, blk, fuel - 1) == (if New(h, d, fuel - 1).Ok? then PartitionFrom(h, blk, New(h, d, fuel - 1).value, p)
                                            else Err(New(h, d, fuel - 1).error))
    {
      ScsiText.SplitPartitionComplete(d, p);
    }
  }

  /** `H:C:T:L` addresses are looked up as SCSI addresses before any other rule after `sd`. */
  lemma ResolveScsiAddress(h: Host, blk: string, skip: bool, fuel: nat)
    requires fuel > 0 && ScsiText.IsScsiId(blk)
    ensures ScsiIdToBlkName(h, blk).Err? ==> Resolve(h, blk, skip, fuel) == Err(ScsiIdToBlkName(h, blk).error)
    ensures ScsiIdToBlkName(h, blk).Ok? ==> Resolve(h, blk, skip, fuel) == Resolve(h, ScsiIdToBlkName(h, blk).value, skip, fuel - 1)
  {
    ScsiText.DigitGroupsStartWithDigit(blk, 3);
    assert !StartsWith(blk, "/") && !StartsWith(blk, "sd");
  }

  /** `dm-N` names go to the device-mapper lookup. */
  lemma ResolveDmName(h: Host, blk: string, skip: bool, fuel: nat)
    requires fuel > 0 && StartsWith(blk, "dm-")
    ensures Resolve(h, blk, skip, fuel) == GetDm(h, blk, fuel - 1)
  {
    assert blk[0] == 'd';
    assert !StartsWith(blk, "/") && !StartsWith(blk, "sd");
    assert !ScsiText.IsScsiId(blk) by {
      if ScsiText.IsScsiId(blk) {
        ScsiText.DigitGroupsStartWithDigit(blk, 3);
      }
    }
  }

  /** `major:minor` numbers are resolved through `/sys/dev/block`; they are never taken for a SCSI address. */
  lemma ResolveMajorMinor(h: Host, blk: string, skip: bool, fuel: nat)
    requires fuel > 0 && ScsiText.IsMajorMinor(blk)
    ensures Blk.MajorMinorToBlkName(h.readLink, blk).Err? ==>
              Resolve(h, blk, skip, fuel) == Err(Blk.MajorMinorToBlkName(h.readLink, blk).error)
    ensures Blk.MajorMinorToBlkName(h.readLink, blk).Ok? ==>
              Resolve(h, blk, skip, fuel) == Resolve(h, Blk.MajorMinorToBlkName(h.readLink, blk).value, skip, fuel - 1)
  {
    ScsiText.DigitGroupsStartWithDigit(blk, 1);
    assert !StartsWith(blk, "/") && !StartsWith(blk, "sd") && !StartsWith(blk, "dm-") by {
      assert IsDigit(blk[0]);
    }
    assert !ScsiText.IsScsiId(blk) by {
      if ScsiText.IsScsiId(blk) {
        ScsiText.DigitGroupsUnique(blk, 1, 3);
      }
    }
  }

  /**
   * A name of no other form that has a `/dev/disk/by-uuid` link is resolved
   * as that link, which, being a path that exists, is canonicalised next.
   */
  lemma ResolveUuidLink(h: Host, blk: string, skip: bool, fuel: nat)
    requires fuel > 0
    requires !StartsWith(blk, "/") && !StartsWith(blk, "sd") && !StartsWith(blk, "dm-")
    requires !ScsiText.IsScsiId(blk) && !ScsiText.IsMajorMinor(blk)
    requires h.pathExists("/dev/disk/by-uuid/" + blk)
    ensures Resolve(h, blk, skip, fuel) == Resolve(h, "/dev/disk/by-uuid/" + blk, skip, fuel - 1)
    ensures var link := "/dev/disk/by-uuid/" + blk;
      fuel > 1 ==>
        && (h.canonicalName(link).None? ==> Resolve(h, blk, skip, fuel) == Err(NotSupported(link)))
        && (h.canonicalName(link).Some? ==> Resolve(h, blk, skip, fuel) == Resolve(h, h.canonicalName(link).value, skip, fuel - 2))
  {
    var link := "/dev/disk/by-uuid/" + blk;
    if fuel > 1 {
      assert link[0] == '/';
      ResolveAbsolutePath(h, link, skip, fuel - 1);
    }
  }

  /** A name of no known form, without a uuid link or a readable SCSI disk list, is not supported. */
  lemma ResolveFallsThrough(h: Host, blk: string, skip: bool, fuel: nat)
    requires fuel > 0
    requires !StartsWith(blk, "/") && !StartsWith(blk, "sd") && !StartsWith(blk, "dm-")
    requires !ScsiText.IsScsiId(blk) && !ScsiText.IsMajorMinor(blk)
    requires !h.pathExists("/dev/disk/by-uuid/" + blk)
    ensures h.listDir("/sys/class/scsi_disk").Unreadable? ==> Resolve(h, blk, skip, fuel) == Err(NotSupported(blk))
    ensures h.listDir("/sys/class/scsi_disk").Listing? ==>
              Resolve(h, blk, skip, fuel) == WwidScan(h, blk, h.listDir("/sys/class/scsi_disk").entries, fuel - 1)
  {
  }

  /**
   * When no disk is held by a device-mapper device, skipping the holder
   * check changes nothing: `new_skip_extra` then finds what `_new` finds.
   */
  lemma {:induction false} SkipWithoutHolders(h: Host, blk: string, fuel: nat)
    requires forall n :: Blk.HolderDmName(h.listDir, n).None?
    ensures Resolve(h, blk, true, fuel) == Resolve(h, blk, false, fuel)
    decreases fuel, 2
  {
    if fuel > 0 {
      if StartsWith(blk, "/") {
        if h.pathExists(blk) && h.canonicalName(blk).Some? {
          SkipWithoutHolders(h, h.canonicalName(blk).value, fuel - 1);
        }
      } else if StartsWith(blk, "sd") {
        assert Blk.HolderDmName(h.listDir, blk).None?;
      } else {
        SkipWithoutHoldersLate(h, blk, fuel);
      }
    }
  }

  /** The cases of `SkipWithoutHolders` past the `sd` check. */
  lemma {:induction false} SkipWithoutHoldersLate(h: Host, blk: string, fuel: nat)
    requires forall n :: Blk.HolderDmName(h.listDir, n).None?
    requires fuel > 0 && !StartsWith(blk, "/") && !StartsWith(blk, "sd")
    ensures Resolve(h, blk, true, fuel) == Resolve(h, blk, false, fuel)
    decreases fuel, 1
  {
    if ScsiText.IsScsiId(blk) {
      if ScsiIdToBlkName(h, blk).Ok? {
        SkipWithoutHolders(h, ScsiIdToBlkName(h, blk).value, fuel - 1);
      }
    } else if !StartsWith(blk, "dm-") {
      SkipWithoutHoldersLast(h, blk, fuel);
    }
  }

  /** The cases of `SkipWithoutHolders` past the `dm-` check. */
  lemma {:induction false} SkipWithoutHoldersLast(h: Host, blk: string, fuel: nat)
    requires forall n :: Blk.HolderDmName(h.listDir, n).None?
    requires fuel > 0 && !StartsWith(blk, "/") && !StartsWith(blk, "sd") && !ScsiText.IsScsiId(blk)
    requires !StartsWith(blk, "dm-")
    ensures Resolve(h, blk, true, fuel) == Resolve(h, blk, false, fuel)
    decreases fuel, 0
  {
    if ScsiText.IsMajorMinor(blk) {
      if Blk.MajorMinorToBlkName(h.readLink, blk).Ok? {
        SkipWithoutHolders(h, Blk.MajorMinorToBlkName(h.readLink, blk).value, fuel - 1);
      }
    } else if h.pathExists("/dev/disk/by-uuid/" + blk) {
      SkipWithoutHolders(h, "/dev/disk/by-uuid/" + blk, fuel - 1);
    }
  }

  // ---------------------------------------------------------------------
  // blk_info_get_dm: owner accumulation

  /** The three owner lists `blk_info_get_dm` fills in. */
  datatype OwnerLists = OwnerLists(wwids: seq<string>, types: seq<BlkType>, paths: seq<string>)

  /**
   * One push of the loop: the wwid and type go in together unless the wwid
   * is already there, the path unless it is already there.
   */
  function AddOwner(acc: OwnerLists, info: BlkInfo): (r: OwnerLists)
    ensures Aligned(acc.wwids, acc.types, acc.paths) ==> Aligned(r.wwids, r.types, r.paths)
    ensures info.wwid in r.wwids && info.blkPath in r.paths
    ensures forall w :: w in r.wwids <==> w in acc.wwids || w == info.wwid
    ensures forall p :: p in r.paths <==> p in acc.paths || p == info.blkPath
    ensures acc.wwids <= r.wwids && acc.types <= r.types && acc.paths <= r.paths
    ensures |r.wwids| - |acc.wwids| == |r.types| - |acc.types|
  {
    var wt := if info.wwid in acc.wwids then (acc.wwids, acc.types)
              else (acc.wwids + [info.wwid], acc.types + [info.blkType]);
    var paths := if info.blkPath in acc.paths then acc.paths else acc.paths + [info.blkPath];
    OwnerLists(wt.0, wt.1, paths)
  }

  /** Device-mapper kinds whose own owners are expanded one level further. */
  predicate IsDmKind(t: BlkType)
  {
    t == DmLvm || t == Dm || t == DmMultipath
  }

  /** The inner loop: each owner path of a device-mapper slave, canonicalised and resolved. */
  function SubAcc(h: Host, paths: seq<string>, fuel: nat, acc: OwnerLists): (r: OwnerLists)
    decreases fuel, 1, |paths|
  {
    if |paths| == 0 then acc
    else
      var next :=
        if h.canonicalName(paths[0]).Some? && NewSkipExtra(h, h.canonicalName(paths[0]).value, fuel).Ok?
        then AddOwner(acc, NewSkipExtra(h, h.canonicalName(paths[0]).value, fuel).value)
        else acc;
      SubAcc(h, paths[1..], fuel, next)
  }

  /** One slave directory entry: pushed when it resolves, then expanded when it is a device-mapper kind. */
  function AddSlave(h: Host, entry: Option<string>, fuel: nat, acc: OwnerLists): (r: OwnerLists)
    decreases fuel, 2, 0
  {
    if entry.None? || NewSkipExtra(h, entry.value, fuel).Err? then acc
    else
      var info := NewSkipExtra(h, entry.value, fuel).value;
      var added := AddOwner(acc, info);
      if IsDmKind(info.blkType) then SubAcc(h, info.ownersPaths, fuel, added) else added
  }

  /** The outer loop over the slave directory. */
  function DmOwnersAcc(h: Host, entries: seq<Option<string>>, fuel: nat, acc: OwnerLists): (r: OwnerLists)
    decreases fuel, 3, |entries|
  {
    if |entries| == 0 then acc else DmOwnersAcc(h, entries[1..], fuel, AddSlave(h, entries[0], fuel, acc))
  }

  /** The older device-mapper type rule: `Dm`, overridden by the `LVM-`, `mpath-` and `part` prefixes. */
  function DmTypeOf(wwid: string): (t: BlkType)
    ensures t == DmLvm <==> StartsWith(wwid, "LVM-")
    ensures t == DmMultipath <==> StartsWith(wwid, "mpath-")
    ensures t == Partition <==> StartsWith(wwid, "part")
    ensures t != Scsi
  {
    assert StartsWith(wwid, "LVM-") ==> wwid[0] == 'L';
    assert StartsWith(wwid, "mpath-") ==> wwid[0] == 'm';
    assert StartsWith(wwid, "part") ==> wwid[0] == 'p';
    if StartsWith(wwid, "LVM-") then DmLvm
    else if StartsWith(wwid, "mpath-") then DmMultipath
    else if StartsWith(wwid, "part") then Partition
    else Dm
  }

  /** `blk_info_get_dm`. */
  function GetDm(h: Host, blk: string, fuel: nat): (r: Result<BlkInfo, PeripetyError>)
    ensures !h.pathExists("/sys/block/" + blk + "/dm/uuid") ==> r.Err? && r.error.InternalBug?
    ensures r.Ok? ==>
      && r.value.blkPath == r.value.preferredBlkPath && StartsWith(r.value.blkPath, "/dev/mapper/")
      && r.value.blkType == DmTypeOf(r.value.wwid) && |r.value.ownersWwids| > 0
      && r.value.ownersTransportIds == [] && r.value.uuid.None? && r.value.mountPoint.None?
    ensures r.Ok? ==>
      && h.readFile("/sys/block/" + blk + "/dm/name").Ok? && h.readFile("/sys/block/" + blk + "/dm/uuid").Ok?
      && r.value.wwid == h.readFile("/sys/block/" + blk + "/dm/uuid").value
      && r.value.blkPath == "/dev/mapper/" + h.readFile("/sys/block/" + blk + "/dm/name").value
    ensures h.pathExists("/sys/block/" + blk + "/dm/uuid") && h.readFile("/sys/block/" + blk + "/dm/name").Err? ==>
      r == Err(h.readFile("/sys/block/" + blk + "/dm/name").error)
    ensures h.pathExists("/sys/block/" + blk + "/dm/uuid") && h.readFile("/sys/block/" + blk + "/dm/name").Ok?
            && h.readFile("/sys/block/" + blk + "/dm/uuid").Err? ==>
      r == Err(h.readFile("/sys/block/" + blk + "/dm/uuid").error)
    ensures h.pathExists("/sys/block/" + blk + "/dm/uuid") && h.readFile("/sys/block/" + blk + "/dm/name").Ok?
            && h.readFile("/sys/block/" + blk + "/dm/uuid").Ok? && h.listDir("/sys/block/" + blk + "/slaves").Unreadable? ==>
      r.Err? && r.error.InternalBug?
    ensures h.pathExists("/sys/block/" + blk + "/dm/uuid") && h.readFile("/sys/block/" + blk + "/dm/name").Ok?
            && h.readFile("/sys/block/" + blk + "/dm/uuid").Ok? && h.listDir("/sys/block/" + blk + "/slaves").Listing?
            && DmOwnersAcc(h, h.listDir("/sys/block/" + blk + "/slaves").entries, fuel, OwnerLists([], [], [])).wwids == [] ==>
      r == Err(InternalBug("dm::blk_info_get_dm() not supported blk " + blk))
    decreases fuel, 4, 0
  {
    var uuidPath := "/sys/block/" + blk + "/dm/uuid";
    if !h.pathExists(uuidPath) then
      Err(InternalBug("dm::blk_info_get_dm() not supported blk " + blk + " as path " + uuidPath + " not exists"))
    else match h.readFile("/sys/block/" + blk + "/dm/name")
      case Err(e) => Err(e)
      case Ok(name) =>
        match h.readFile(uuidPath)
          case Err(e) => Err(e)
          case Ok(wwid) =>
            var slaveDir := "/sys/block/" + blk + "/slaves";
            var listing := h.listDir(slaveDir);
            if listing.Unreadable? then
              Err(InternalBug("dm::blk_info_get_dm(): Failed to read_dir " + slaveDir + ": " + listing.reason))
            else
              var acc := DmOwnersAcc(h, listing.entries, fuel, OwnerLists([], [], []));
              if acc.wwids == [] then Err(InternalBug("dm::blk_info_get_dm() not supported blk " + blk))
              else
                var path := "/dev/mapper/" + name;
                assert StartsWith(path, "/dev/mapper/") by { assert path[..|"/dev/mapper/"|] == "/dev/mapper/"; }
                Ok(BlkInfo(wwid, DmTypeOf(wwid), path, path, acc.wwids, acc.types, acc.paths, [], None, None, ""))
  }

  // ---------------------------------------------------------------------
  // Owner list properties

  /** The accumulated lists only grow, and stay parallel and free of repeats. */
  predicate Grows(acc: OwnerLists, r: OwnerLists)
  {
    && acc.wwids <= r.wwids && acc.types <= r.types && acc.paths <= r.paths
    && (Aligned(acc.wwids, acc.types, acc.paths) ==> Aligned(r.wwids, r.types, r.paths))
  }

  lemma GrowsTrans(a: OwnerLists, b: OwnerLists, c: OwnerLists)
    requires Grows(a, b) && Grows(b, c)
    ensures Grows(a, c)
  {
  }

  lemma {:induction false} SubAccGrows(h: Host, paths: seq<string>, fuel: nat, acc: OwnerLists)
    ensures Grows(acc, SubAcc(h, paths, fuel, acc))
    decreases |paths|
  {
    if |paths| > 0 {
      var next :=
        if h.canonicalName(paths[0]).Some? && NewSkipExtra(h, h.canonicalName(paths[0]).value, fuel).Ok?
        then AddOwner(acc, NewSkipExtra(h, h.canonicalName(paths[0]).value, fuel).value)
        else acc;
      SubAccGrows(h, paths[1..], fuel, next);
      GrowsTrans(acc, next, SubAcc(h, paths, fuel, acc));
    }
  }

  lemma AddSlaveGrows(h: Host, entry: Option<string>, fuel: nat, acc: OwnerLists)
    ensures Grows(acc, AddSlave(h, entry, fuel, acc))
  {
    if entry.Some? && NewSkipExtra(h, entry.value, fuel).Ok? {
      var info := NewSkipExtra(h, entry.value, fuel).value;
      var added := AddOwner(acc, info);
      if IsDmKind(info.blkType) {
        SubAccGrows(h, info.ownersPaths, fuel, added);
        GrowsTrans(acc, added, SubAcc(h, info.ownersPaths, fuel, added));
      }
    }
  }

  lemma {:induction false} DmOwnersAccGrows(h: Host, entries: seq<Option<string>>, fuel: nat, acc: OwnerLists)
    ensures Grows(acc, DmOwnersAcc(h, entries, fuel, acc))
    decreases |entries|
  {
    if |entries| > 0 {
      var next := AddSlave(h, entries[0], fuel, acc);
      AddSlaveGrows(h, entries[0], fuel, acc);
      DmOwnersAccGrows(h, entries[1..], fuel, next);
      GrowsTrans(acc, next, DmOwnersAcc(h, entries, fuel, acc));
    }
  }

  /** What an owner contributes to the lists: its wwid and its path. */
  predicate Holds(acc: OwnerLists, info: BlkInfo)
  {
    info.wwid in acc.wwids && info.blkPath in acc.paths
  }

  /** An owner path that canonicalises and resolves is held. */
  predicate PathHeld(h: Host, path: string, fuel: nat, r: OwnerLists)
  {
    h.canonicalName(path).Some? && NewSkipExtra(h, h.canonicalName(path).value, fuel).Ok? ==>
      Holds(r, NewSkipExtra(h, h.canonicalName(path).value, fuel).value)
  }

  /** The sub-slaves that `SubAcc` reaches from a list of owner paths. */
  predicate SubSlavesHeld(h: Host, paths: seq<string>, fuel: nat, r: OwnerLists)
  {
    forall i :: 0 <= i < |paths| ==> PathHeld(h, paths[i], fuel, r)
  }

  lemma PathHeldStays(h: Host, path: string, fuel: nat, a: OwnerLists, b: OwnerLists)
    requires PathHeld(h, path, fuel, a) && a.wwids <= b.wwids && a.paths <= b.paths
    ensures PathHeld(h, path, fuel, b)
  {
  }

  lemma {:induction false} SubAccHolds(h: Host, paths: seq<string>, fuel: nat, acc: OwnerLists)
    ensures SubSlavesHeld(h, paths, fuel, SubAcc(h, paths, fuel, acc))
    decreases |paths|
  {
    if |paths| > 0 {
      var next :=
        if h.canonicalName(paths[0]).Some? && NewSkipExtra(h, h.canonicalName(paths[0]).value, fuel).Ok?
        then AddOwner(acc, NewSkipExtra(h, h.canonicalName(paths[0]).value, fuel).value)
        else acc;
      var r := SubAcc(h, paths, fuel, acc);
      assert r == SubAcc(h, paths[1..], fuel, next);
      SubAccHolds(h, paths[1..], fuel, next);
      SubAccGrows(h, paths[1..], fuel, next);
      assert PathHeld(h, paths[0], fuel, next);
      PathHeldStays(h, paths[0], fuel, next, r);
      forall i | 0 <= i < |paths|
        ensures PathHeld(h, paths[i], fuel, r)
      {
        if i > 0 {
          assert paths[1..][i - 1] == paths[i];
        }
      }
    }
  }

  /**
   * Everything a slave entry brings in is held afterwards: the slave itself
   * when it resolves, and, for a device-mapper slave, every one of its owner
   * paths that canonicalises and resolves.
   */
  predicate SlaveHeld(h: Host, entry: Option<string>, fuel: nat, r: OwnerLists)
  {
    entry.Some? && NewSkipExtra(h, entry.value, fuel).Ok? ==>
      var info := NewSkipExtra(h, entry.value, fuel).value;
      Holds(r, info) && (IsDmKind(info.blkType) ==> SubSlavesHeld(h, info.ownersPaths, fuel, r))
  }

  lemma AddSlaveHolds(h: Host, entry: Option<string>, fuel: nat, acc: OwnerLists)
    ensures SlaveHeld(h, entry, fuel, AddSlave(h, entry, fuel, acc))
  {
    if entry.Some? && NewSkipExtra(h, entry.value, fuel).Ok? {
      var info := NewSkipExtra(h, entry.value, fuel).value;
      var added := AddOwner(acc, info);
      if IsDmKind(info.blkType) {
        SubAccGrows(h, info.ownersPaths, fuel, added);
        SubAccHolds(h, info.ownersPaths, fuel, added);
      }
    }
  }

  /** Once held, an owner stays held as the lists grow. */
  lemma HeldStays(h: Host, entry: Option<string>, fuel: nat, a: OwnerLists, b: OwnerLists)
    requires SlaveHeld(h, entry, fuel, a) && a.wwids <= b.wwids && a.paths <= b.paths
    ensures SlaveHeld(h, entry, fuel, b)
  {
    if entry.Some? && NewSkipExtra(h, entry.value, fuel).Ok? {
      var info := NewSkipExtra(h, entry.value, fuel).value;
      if IsDmKind(info.blkType) {
        forall i | 0 <= i < |info.ownersPaths|
          ensures PathHeld(h, info.ownersPaths[i], fuel, b)
        {
          PathHeldStays(h, info.ownersPaths[i], fuel, a, b);
        }
      }
    }
  }

  lemma {:induction false} DmOwnersAccHolds(h: Host, entries: seq<Option<string>>, fuel: nat, acc: OwnerLists, i: nat)
    requires i < |entries|
    ensures SlaveHeld(h, entries[i], fuel, DmOwnersAcc(h, entries, fuel, acc))
    decreases |entries|
  {
    var next := AddSlave(h, entries[0], fuel, acc);
    var r := DmOwnersAcc(h, entries, fuel, acc);
    assert r == DmOwnersAcc(h, entries[1..], fuel, next);
    if i == 0 {
      AddSlaveHolds(h, entries[0], fuel, acc);
      DmOwnersAccGrows(h, entries[1..], fuel, next);
      HeldStays(h, entries[0], fuel, next, r);
    } else {
      DmOwnersAccHolds(h, entries[1..], fuel, next, i - 1);
      assert entries[1..][i - 1] == entries[i];
    }
  }

  /** The descriptors the owner paths of a device-mapper slave resolve to. */
  function SubSources(h: Host, paths: seq<string>, fuel: nat): set<BlkInfo>
  {
    set p | p in paths && h.canonicalName(p).Some? && NewSkipExtra(h, h.canonicalName(p).value, fuel).Ok?
      :: NewSkipExtra(h, h.canonicalName(p).value, fuel).value
  }

  /** What one slave entry may bring in: the slave, and for a device-mapper slave its resolved owners. */
  function SlaveSources(h: Host, entry: Option<string>, fuel: nat): set<BlkInfo>
  {
    if entry.None? || NewSkipExtra(h, entry.value, fuel).Err? then {}
    else
      var info := NewSkipExtra(h, entry.value, fuel).value;
      {info} + (if IsDmKind(info.blkType) then SubSources(h, info.ownersPaths, fuel) else {})
  }

  /** What a slave directory may bring in: the union over its entries. */
  function Sources(h: Host, entries: seq<Option<string>>, fuel: nat): set<BlkInfo>
  {
    if |entries| == 0 then {} else SlaveSources(h, entries[0], fuel) + Sources(h, entries[1..], fuel)
  }

  function WwidsOf(src: set<BlkInfo>): set<string>
  {
    set b | b in src :: b.wwid
  }

  function PathsOf(src: set<BlkInfo>): set<string>
  {
    set b | b in src :: b.blkPath
  }

  /** Going from `acc` to `r` added only wwids and paths of descriptors in `src`. */
  predicate From(acc: OwnerLists, r: OwnerLists, src: set<BlkInfo>)
  {
    && (forall w :: w in r.wwids ==> w in acc.wwids || w in WwidsOf(src))
    && (forall p :: p in r.paths ==> p in acc.paths || p in PathsOf(src))
  }

  lemma FromTrans(a: OwnerLists, b: OwnerLists, c: OwnerLists, s1: set<BlkInfo>, s2: set<BlkInfo>)
    requires From(a, b, s1) && From(b, c, s2)
    ensures From(a, c, s1 + s2)
  {
    forall w | w in c.wwids ensures w in a.wwids || w in WwidsOf(s1 + s2) {
      if w in WwidsOf(s2) {
        var x :| x in s2 && x.wwid == w;
        assert x in s1 + s2;
      } else if w !in a.wwids {
        var x :| x in s1 && x.wwid == w;
        assert x in s1 + s2;
      }
    }
    forall p | p in c.paths ensures p in a.paths || p in PathsOf(s1 + s2) {
      if p in PathsOf(s2) {
        var x :| x in s2 && x.blkPath == p;
        assert x in s1 + s2;
      } else if p !in a.paths {
        var x :| x in s1 && x.blkPath == p;
        assert x in s1 + s2;
      }
    }
  }

  lemma FromWider(a: OwnerLists, b: OwnerLists, s1: set<BlkInfo>, s2: set<BlkInfo>)
    requires From(a, b, s1) && s1 <= s2
    ensures From(a, b, s2)
  {
    forall w | w in b.wwids && w !in a.wwids ensures w in WwidsOf(s2) {
      var x :| x in s1 && x.wwid == w;
      assert x in s2;
    }
    forall p | p in b.paths && p !in a.paths ensures p in PathsOf(s2) {
      var x :| x in s1 && x.blkPath == p;
      assert x in s2;
    }
  }

  lemma AddOwnerFrom(acc: OwnerLists, info: BlkInfo)
    ensures From(acc, AddOwner(acc, info), {info})
  {
    assert info in {info};
  }

  lemma {:induction false} SubAccFrom(h: Host, paths: seq<string>, fuel: nat, acc: OwnerLists)
    ensures From(acc, SubAcc(h, paths, fuel, acc), SubSources(h, paths, fuel))
    decreases |paths|
  {
    if |paths| == 0 {
    } else {
      var p := paths[0];
      var ok := h.canonicalName(p).Some? && NewSkipExtra(h, h.canonicalName(p).value, fuel).Ok?;
      var here: set<BlkInfo> := if ok then {NewSkipExtra(h, h.canonicalName(p).value, fuel).value} else {};
      var next := if ok then AddOwner(acc, NewSkipExtra(h, h.canonicalName(p).value, fuel).value) else acc;
      if ok {
        AddOwnerFrom(acc, NewSkipExtra(h, h.canonicalName(p).value, fuel).value);
      }
      assert From(acc, next, here);
      SubAccFrom(h, paths[1..], fuel, next);
      assert SubAcc(h, paths, fuel, acc) == SubAcc(h, paths[1..], fuel, next);
      FromTrans(acc, next, SubAcc(h, paths, fuel, acc), here, SubSources(h, paths[1..], fuel));
      assert here + SubSources(h, paths[1..], fuel) <= SubSources(h, paths, fuel) by {
        forall q | q in paths[1..] ensures q in paths {
          var k :| 0 <= k < |paths[1..]| && paths[1..][k] == q;
          assert paths[k + 1] == q;
        }
      }
      FromWider(acc, SubAcc(h, paths, fuel, acc), here + SubSources(h, paths[1..], fuel), SubSources(h, paths, fuel));
    }
  }

  lemma AddSlaveFrom(h: Host, entry: Option<string>, fuel: nat, acc: OwnerLists)
    ensures From(acc, AddSlave(h, entry, fuel, acc), SlaveSources(h, entry, fuel))
  {
    if entry.Some? && NewSkipExtra(h, entry.value, fuel).Ok? {
      var info := NewSkipExtra(h, entry.value, fuel).value;
      var added := AddOwner(acc, info);
      AddOwnerFrom(acc, info);
      if IsDmKind(info.blkType) {
        SubAccFrom(h, info.ownersPaths, fuel, added);
        FromTrans(acc, added, SubAcc(h, info.ownersPaths, fuel, added), {info}, SubSources(h, info.ownersPaths, fuel));
      } else {
        FromWider(acc, added, {info}, SlaveSources(h, entry, fuel));
      }
    }
  }

  lemma {:induction false} DmOwnersAccFrom(h: Host, entries: seq<Option<string>>, fuel: nat, acc: OwnerLists)
    ensures From(acc, DmOwnersAcc(h, entries, fuel, acc), Sources(h, entries, fuel))
    decreases |entries|
  {
    if |entries| > 0 {
      var next := AddSlave(h, entries[0], fuel, acc);
      AddSlaveFrom(h, entries[0], fuel, acc);
      DmOwnersAccFrom(h, entries[1..], fuel, next);
      FromTrans(acc, next, DmOwnersAcc(h, entries, fuel, acc), SlaveSources(h, entries[0], fuel), Sources(h, entries[1..], fuel));
    }
  }

  /**
   * The owners of a device-mapper device: the wwid and type lists are
   * parallel, neither wwids nor paths repeat, every slave that resolves is
   * held, and so is every owner of a device-mapper slave that resolves;
   * conversely every wwid and path held comes from one of those: exactly one
   * level of expansion.
   */
  lemma GetDmOwners(h: Host, blk: string, fuel: nat)
    requires GetDm(h, blk, fuel).Ok?
    ensures var r := GetDm(h, blk, fuel).value;
      var es := h.listDir("/sys/block/" + blk + "/slaves").entries;
      && h.listDir("/sys/block/" + blk + "/slaves").Listing?
      && Aligned(r.ownersWwids, r.ownersTypes, r.ownersPaths)
      && (forall i :: 0 <= i < |es| ==> SlaveHeld(h, es[i], fuel, OwnerLists(r.ownersWwids, r.ownersTypes, r.ownersPaths)))
    ensures var r := GetDm(h, blk, fuel).value;
      var es := h.listDir("/sys/block/" + blk + "/slaves").entries;
      && (forall w :: w in r.ownersWwids ==> w in WwidsOf(Sources(h, es, fuel)))
      && (forall p :: p in r.ownersPaths ==> p in PathsOf(Sources(h, es, fuel)))
  {
    var es := h.listDir("/sys/block/" + blk + "/slaves").entries;
    var empty := OwnerLists([], [], []);
    var acc := DmOwnersAcc(h, es, fuel, empty);
    DmOwnersAccGrows(h, es, fuel, empty);
    DmOwnersAccFrom(h, es, fuel, empty);
    forall i | 0 <= i < |es|
      ensures SlaveHeld(h, es[i], fuel, acc)
    {
      DmOwnersAccHolds(h, es, fuel, empty, i);
    }
  }

  // ---------------------------------------------------------------------
  // blk_info_get_dm as loops

  /** One owner pushed under the two `contains` guards. */
  method PushOwner(acc: OwnerLists, info: BlkInfo) returns (r: OwnerLists)
    ensures r == AddOwner(acc, info)
  {
    r := acc;
    if info.wwid !in r.wwids {
      r := r.(wwids := r.wwids + [info.wwid]);
      r := r.(types := r.types + [info.blkType]);
    }
    if info.blkPath !in r.paths {
      r := r.(paths := r.paths + [info.blkPath]);
    }
  }

  lemma SubAccStep(h: Host, paths: seq<string>, i: nat, fuel: nat, acc: OwnerLists)
    requires i < |paths|
    ensures SubAcc(h, paths[i..], fuel, acc)
         == SubAcc(h, paths[i + 1..], fuel,
                   if h.canonicalName(paths[i]).Some? && NewSkipExtra(h, h.canonicalName(paths[i]).value, fuel).Ok?
                   then AddOwner(acc, NewSkipExtra(h, h.canonicalName(paths[i]).value, fuel).value)
                   else acc)
  {
    assert paths[i..][0] == paths[i] && paths[i..][1..] == paths[i + 1..];
  }

  /** The inner loop over a device-mapper slave's owner paths. */
  method ExpandSlave(h: Host, paths: seq<string>, fuel: nat, acc: OwnerLists) returns (r: OwnerLists)
    ensures r == SubAcc(h, paths, fuel, acc)
  {
    r := acc;
    var i := 0;
    while i < |paths|
      invariant 0 <= i <= |paths|
      invariant SubAcc(h, paths, fuel, acc) == SubAcc(h, paths[i..], fuel, r)
    {
      SubAccStep(h, paths, i, fuel, r);
      var name := h.canonicalName(paths[i]);
      if name.Some? {
        var sub := NewSkipExtra(h, name.value, fuel);
        if sub.Ok? {
          r := PushOwner(r, sub.value);
        }
      }
      i := i + 1;
    }
  }

  /** One turn of the outer loop. */
  method PushSlave(h: Host, entry: Option<string>, fuel: nat, acc: OwnerLists) returns (r: OwnerLists)
    ensures r == AddSlave(h, entry, fuel, acc)
  {
    r := acc;
    if entry.Some? {
      var slave := NewSkipExtra(h, entry.value, fuel);
      if slave.Ok? {
        r := PushOwner(r, slave.value);
        if IsDmKind(slave.value.blkType) {
          r := ExpandSlave(h, slave.value.ownersPaths, fuel, r);
        }
      }
    }
  }

  lemma DmOwnersAccStep(h: Host, es: seq<Option<string>>, i: nat, fuel: nat, acc: OwnerLists)
    requires i < |es|
    ensures DmOwnersAcc(h, es[i..], fuel, acc) == DmOwnersAcc(h, es[i + 1..], fuel, AddSlave(h, es[i], fuel, acc))
  {
    assert es[i..][0] == es[i] && es[i..][1..] == es[i + 1..];
  }

  /** The outer loop over the slave directory. */
  method CollectOwners(h: Host, es: seq<Option<string>>, fuel: nat) returns (r: OwnerLists)
    ensures r == DmOwnersAcc(h, es, fuel, OwnerLists([], [], []))
  {
    r := OwnerLists([], [], []);
    var i := 0;
    while i < |es|
      invariant 0 <= i <= |es|
      invariant DmOwnersAcc(h, es, fuel, OwnerLists([], [], [])) == DmOwnersAcc(h, es[i..], fuel, r)
    {
      DmOwnersAccStep(h, es, i, fuel, r);
      r := PushSlave(h, es[i], fuel, r);
      i := i + 1;
    }
  }

  /** `blk_info_get_dm` itself. */
  method BlkInfoGetDm(h: Host, blk: string, fuel: nat) returns (r: Result<BlkInfo, PeripetyError>)
    ensures r == GetDm(h, blk, fuel)
  {
    var uuidPath := "/sys/block/" + blk + "/dm/uuid";
    if !h.pathExists(uuidPath) {
      return Err(InternalBug("dm::blk_info_get_dm() not supported blk " + blk + " as path " + uuidPath + " not exists"));
    }
    var name := h.readFile("/sys/block/" + blk + "/dm/name");
    if name.Err? {
      return Err(name.error);
    }
    var wwid := h.readFile(uuidPath);
    if wwid.Err? {
      return Err(wwid.error);
    }
    var path := "/dev/mapper/" + name.value;
    var ret := BlkInfo(wwid.value, Dm, path, path, [], [], [], [], None, None, "");
    if StartsWith(wwid.value, "LVM-") {
      ret := ret.(blkType := DmLvm);
    } else if StartsWith(wwid.value, "mpath-") {
      ret := ret.(blkType := DmMultipath);
    } else if StartsWith(wwid.value, "part") {
      ret := ret.(blkType := Partition);
    }
    var slaveDir := "/sys/block/" + blk + "/slaves";
    var listing := h.listDir(slaveDir);
    if listing.Unreadable? {
      return Err(InternalBug("dm::blk_info_get_dm(): Failed to read_dir " + slaveDir + ": " + listing.reason));
    }
    var owners := CollectOwners(h, listing.entries, fuel);
    if owners.wwids == [] {
      return Err(InternalBug("dm::blk_info_get_dm() not supported blk " + blk));
    }
    ret := ret.(ownersWwids := owners.wwids, ownersTypes := owners.types, ownersPaths := owners.paths);
    r := Ok(ret);
  }
}
