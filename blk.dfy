/**
 * Block device descriptors of the newer peripety library: `BlkType`,
 * `BlkInfo`, the name dispatch of `BlkInfo::_new`, the device-mapper lookup
 * of `dm.rs`, owner flattening, `BlkInfo::new` and `BlkInfo::list`.
 *
 * The two source files call each other (`_new` hands `dm-N` names to
 * `blk_info_get_dm`, which resolves every slave through `_new` again), so
 * they share this module. Everything the code learns from sysfs, /dev and the
 * mount table comes from a `Host`, a bundle of oracle functions.
 */
module Blk {
  import opened Common
  import opened Errors
  import ScsiText

  datatype BlkType = Unknown | Other | Scsi | Dm | DmMultipath | DmLvm | Partition

  /** `Display for BlkType`. */
  function TypeName(t: BlkType): string
  {
    match t
      case Unknown => "Unknown"
      case Other => "Other"
      case Scsi => "SCSI"
      case Dm => "Device Mapper"
      case DmMultipath => "Device Mapper Multipath"
      case DmLvm => "Device Mapper LVM"
      case Partition => "Partition"
  }

  /** The seven display strings are pairwise distinct. */
  lemma TypeNameInjective(a: BlkType, b: BlkType)
    ensures TypeName(a) == TypeName(b) ==> a == b
  {
    if TypeName(a) == TypeName(b) {
      assert |TypeName(a)| == |TypeName(b)|;
      assert TypeName(a)[0] == TypeName(b)[0];
      if TypeName(a)[0] == 'D' {
        assert TypeName(a)[|TypeName(a)| - 1] == TypeName(b)[|TypeName(b)| - 1];
      }
    }
  }

  datatype BlkInfo = BlkInfo(
    wwid: string,
    blkType: BlkType,
    blkPath: string,
    preferredBlkPath: string,
    uuid: Option<string>,
    mountPoint: Option<string>,
    transportId: string,
    owners: seq<BlkInfo>)

  /** `Default for BlkInfo`. */
  function Default(): (b: BlkInfo)
    ensures b.blkType == Unknown && b.uuid.None? && b.mountPoint.None?
    ensures b.wwid == b.blkPath == b.preferredBlkPath == b.transportId == [] && b.owners == []
  {
    BlkInfo([], Unknown, [], [], None, None, [], [])
  }

  // ---------------------------------------------------------------------
  // The host

  /** A directory listing: one entry per directory entry, `None` for one that cannot be read or named. */
  datatype Listing = Listing(entries: seq<Option<string>>) | Unreadable(reason: string)

  /** `fs::read_link` followed by `file_name().to_str()`. */
  datatype Link = Link(name: Option<string>) | LinkFailed(reason: string)

  /**
   * What the block code asks of the machine. `readFile` is `Sysfs::read`; the
   * SCSI lookups belong to a `scsi.rs` that is not part of this model.
   */
  datatype Host = Host(
    pathExists: string -> bool,
    canonicalName: string -> Option<string>,
    readFile: string -> Result<string, PeripetyError>,
    listDir: string -> Listing,
    readLink: string -> Link,
    scsiIdToBlkName: string -> Result<string, PeripetyError>,
    blkInfoGetScsi: string -> Result<BlkInfo, PeripetyError>,
    prettyWwid: string -> string,
    uuidOf: string -> Result<string, PeripetyError>,
    mountPointOf: string -> Option<string>)

  function NotSupported(blk: string): PeripetyError
  {
    NoSupport("Block path '" + blk + "' is not supported yet")
  }

  // ---------------------------------------------------------------------
  // dm.rs

  /** `get_holder_dm_name`: the first holder of a disk, when it is a device-mapper device. */
  function HolderDmName(listDir: string -> Listing, blk: string): (r: Option<string>)
    ensures r.Some? <==> (listDir("/sys/block/" + blk + "/holders").Listing?
                          && |listDir("/sys/block/" + blk + "/holders").entries| > 0
                          && listDir("/sys/block/" + blk + "/holders").entries[0].Some?
                          && StartsWith(listDir("/sys/block/" + blk + "/holders").entries[0].value, "dm-"))
    ensures r.Some? ==> r.value == listDir("/sys/block/" + blk + "/holders").entries[0].value
  {
    match listDir("/sys/block/" + blk + "/holders")
      case Unreadable(_) => None
      case Listing(es) =>
        if |es| > 0 && es[0].Some? && StartsWith(es[0].value, "dm-") then Some(es[0].value) else None
  }

  /**
   * The device-mapper type named by a dm uuid. The three prefixes begin with
   * different letters, so at most one applies and the order of the tests
   * does not matter.
   */
  function DmTypeOf(wwid: string): (t: BlkType)
    ensures t == DmLvm <==> StartsWith(wwid, "LVM-")
    ensures t == DmMultipath <==> StartsWith(wwid, "mpath-")
    ensures t == Partition <==> StartsWith(wwid, "part")
    ensures t in {Dm, DmLvm, DmMultipath, Partition}
  {
    assert StartsWith(wwid, "LVM-") ==> wwid[0] == 'L';
    assert StartsWith(wwid, "mpath-") ==> wwid[0] == 'm';
    assert StartsWith(wwid, "part") ==> wwid[0] == 'p';
    if StartsWith(wwid, "LVM-") then DmLvm
    else if StartsWith(wwid, "mpath-") then DmMultipath
    else if StartsWith(wwid, "part") then Partition
    else Dm
  }

  /** The slaves of a dm device that resolve, in directory order (`new_skip_extra` on each). */
  function DmOwners(h: Host, entries: seq<Option<string>>, fuel: nat): (r: seq<BlkInfo>)
    ensures |r| <= |entries|
    ensures forall b :: b in r ==> exists i :: 0 <= i < |entries| && Slave(h, entries[i], fuel) == Some(b)
    ensures forall i :: 0 <= i < |entries| && Slave(h, entries[i], fuel).Some? ==> Slave(h, entries[i], fuel).value in r
    decreases fuel, 1, |entries|
  {
    if |entries| == 0 then []
    else
      var rest := DmOwners(h, entries[1..], fuel);
      assert forall i :: 1 <= i < |entries| ==> entries[i] == entries[1..][i - 1];
      SlaveOwner(h, entries[0], fuel) + rest
  }

  /** The descriptor of one slave entry, when the entry is readable and resolves without the holder redirect. */
  function Slave(h: Host, entry: Option<string>, fuel: nat): Option<BlkInfo>
    decreases fuel, 0, 1
  {
    if entry.Some? && Resolve(h, entry.value, true, fuel).Ok? then Some(Resolve(h, entry.value, true, fuel).value) else None
  }

  /** One slave entry: its descriptor when the name is readable and resolves, nothing otherwise. */
  function SlaveOwner(h: Host, entry: Option<string>, fuel: nat): (r: seq<BlkInfo>)
    ensures |r| <= 1
    ensures |r| == 1 <==> entry.Some? && Resolve(h, entry.value, true, fuel).Ok?
    ensures |r| == 1 ==> r[0] == Resolve(h, entry.value, true, fuel).value
    decreases fuel, 0, 2
  {
    match Slave(h, entry, fuel)
      case None => []
      case Some(b) => [b]
  }

  lemma DmOwnersStep(h: Host, entries: seq<Option<string>>, i: nat, fuel: nat)
    requires i < |entries|
    ensures DmOwners(h, entries[i..], fuel) == SlaveOwner(h, entries[i], fuel) + DmOwners(h, entries[i + 1..], fuel)
  {
    assert entries[i..][0] == entries[i] && entries[i..][1..] == entries[i + 1..];
  }

  /** `blk_info_get_dm`. */
  function GetDm(h: Host, blk: string, fuel: nat): (r: Result<BlkInfo, PeripetyError>)
    ensures r.Ok? ==> h.pathExists("/sys/block/" + blk + "/dm/uuid")
    ensures r.Ok? ==> (r.value.blkPath == r.value.preferredBlkPath
                       && StartsWith(r.value.blkPath, "/dev/mapper/")
                       && r.value.blkType == DmTypeOf(r.value.wwid)
                       && |r.value.owners| > 0
                       && r.value.uuid.None? && r.value.mountPoint.None? && r.value.transportId == [])
    ensures !h.pathExists("/sys/block/" + blk + "/dm/uuid") ==> r.Err? && r.error.InternalBug?
    ensures var slaves := h.listDir("/sys/block/" + blk + "/slaves");
      r.Ok? <==> h.pathExists("/sys/block/" + blk + "/dm/uuid") && h.readFile("/sys/block/" + blk + "/dm/name").Ok?
                 && h.readFile("/sys/block/" + blk + "/dm/uuid").Ok?
                 && slaves.Listing? && DmOwners(h, slaves.entries, fuel) != []
    ensures r.Ok? ==> r.value.owners == DmOwners(h, h.listDir("/sys/block/" + blk + "/slaves").entries, fuel)
    ensures r.Ok? ==> r.value.wwid == h.readFile("/sys/block/" + blk + "/dm/uuid").value
                      && r.value.blkPath == "/dev/mapper/" + h.readFile("/sys/block/" + blk + "/dm/name").value
    ensures var slaves := h.listDir("/sys/block/" + blk + "/slaves");
      h.pathExists("/sys/block/" + blk + "/dm/uuid") && h.readFile("/sys/block/" + blk + "/dm/name").Ok?
      && h.readFile("/sys/block/" + blk + "/dm/uuid").Ok? && slaves.Listing? && DmOwners(h, slaves.entries, fuel) == []
      ==> r == Err(InternalBug("dm::blk_info_get_dm() not supported blk " + blk))
    decreases fuel, 2, 0
  {
    var uuidPath := "/sys/block/" + blk + "/dm/uuid";
    if !h.pathExists(uuidPath) then
      Err(InternalBug("dm::blk_info_get_dm() not supported blk " + blk + " as path " + uuidPath + " not exists"))
    else match h.readFile("/sys/block/" + blk + "/dm/name")
      case Err(e) => Err(e)
      case Ok(name) =>
        match h.readFile(uuidPath)
          case Err(e) => Err(e)
          case Ok(wwid) =>
            var slaveDir := "/sys/block/" + blk + "/slaves";
            match h.listDir(slaveDir)
              case Unreadable(reason) =>
                Err(InternalBug("dm::blk_info_get_dm(): Failed to read_dir " + slaveDir + ": " + reason))
              case Listing(es) =>
                var owners := DmOwners(h, es, fuel);
                if owners == [] then Err(InternalBug("dm::blk_info_get_dm() not supported blk " + blk))
                else
                  var path := "/dev/mapper/" + name;
                  assert StartsWith(path, "/dev/mapper/") by { assert path[..|"/dev/mapper/"|] == "/dev/mapper/"; }
                  Ok(BlkInfo(wwid, DmTypeOf(wwid), path, path, None, None, [], owners))
  }

  // ---------------------------------------------------------------------
  // blk_info.rs: name dispatch

  /** `major_minor_to_blk_name`: the name the `/sys/dev/block` link points at. */
  function MajorMinorToBlkName(readLink: string -> Link, majorMinor: string): (r: Result<string, PeripetyError>)
    ensures r.Err? ==> r.error.InternalBug?
  {
    var path := "/sys/dev/block/" + majorMinor;
    match readLink(path)
      case LinkFailed(reason) =>
        Err(InternalBug("major_minor_to_blk_name(): Failed to read link " + path + ": " + reason))
      case Link(None) => Err(InternalBug("major_minor_to_blk_name():  Got non-utf8 path " + path))
      case Link(Some(name)) => Ok(name)
  }

  /**
   * `BlkInfo::_new(blk, skip)`: resolves a block name given in any of the
   * accepted forms. Every redirection to another name spends one unit of
   * `fuel`; running out gives `InternalBug`.
   */
  function Resolve(h: Host, blk: string, skip: bool, fuel: nat): (r: Result<BlkInfo, PeripetyError>)
    decreases fuel, 0, 0
  {
    if fuel == 0 then Err(InternalBug("Block path '" + blk + "' is nested too deeply"))
    else if StartsWith(blk, "/") then
      if h.pathExists(blk) then
        match h.canonicalName(blk)
          case Some(s) => Resolve(h, s, skip, fuel - 1)
          case None => Err(NotSupported(blk))
      else Err(BlockNoExists("Block path '" + blk + "' does not exists"))
    else if StartsWith(blk, "sd") then
      if !skip && HolderDmName(h.listDir, blk).Some? then GetDm(h, HolderDmName(h.listDir, blk).value, fuel - 1)
      else h.blkInfoGetScsi(blk)
    else if ScsiText.IsScsiId(blk) then
      match h.scsiIdToBlkName(blk)
        case Err(e) => Err(e)
        case Ok(name) => Resolve(h, name, skip, fuel - 1)
    else if StartsWith(blk, "dm-") then GetDm(h, blk, fuel - 1)
    else if ScsiText.IsMajorMinor(blk) then
      match MajorMinorToBlkName(h.readLink, blk)
        case Err(e) => Err(e)
        case Ok(name) => Resolve(h, name, skip, fuel - 1)
    else if h.pathExists("/dev/disk/by-uuid/" + blk) then Resolve(h, "/dev/disk/by-uuid/" + blk, skip, fuel - 1)
    else match h.listDir("/sys/class/scsi_disk")
      case Unreadable(_) => Err(NotSupported(blk))
      case Listing(es) => WwidScan(h, blk, es, fuel - 1)
  }

  /**
   * The last resort of `_new`: the first SCSI disk whose pretty WWID is `blk`,
   * resolved with `BlkInfo::new`. A failing read of a WWID file ends the scan
   * with that error.
   */
  function WwidScan(h: Host, blk: string, entries: seq<Option<string>>, fuel: nat): (r: Result<BlkInfo, PeripetyError>)
    decreases fuel, 2, |entries|
  {
    if |entries| == 0 then Err(NotSupported(blk))
    else if entries[0].None? then WwidScan(h, blk, entries[1..], fuel)
    else
      var name := entries[0].value;
      var p := "/sys/class/scsi_disk/" + name + "/device/wwid";
      if !h.pathExists(p) then WwidScan(h, blk, entries[1..], fuel)
      else match h.readFile(p)
        case Err(e) => Err(e)
        case Ok(c) => if blk == h.prettyWwid(c) then New(h, name, fuel) else WwidScan(h, blk, entries[1..], fuel)
  }

  /** The SCSI disk `name` has a readable WWID file whose pretty form is `blk`. */
  predicate WwidIs(h: Host, name: string, blk: string)
  {
    var p := "/sys/class/scsi_disk/" + name + "/device/wwid";
    h.pathExists(p) && h.readFile(p).Ok? && h.prettyWwid(h.readFile(p).value) == blk
  }

  /** A disk the scan finds is a listed entry whose WWID is `blk`, resolved with `new`. */
  lemma {:induction false} WwidScanFound(h: Host, blk: string, entries: seq<Option<string>>, fuel: nat)
    requires WwidScan(h, blk, entries, fuel).Ok?
    ensures exists n :: Some(n) in entries && WwidIs(h, n, blk) && New(h, n, fuel) == WwidScan(h, blk, entries, fuel)
    decreases |entries|
  {
    if entries[0].Some? && WwidIs(h, entries[0].value, blk) {
      assert Some(entries[0].value) in entries;
    } else {
      WwidScanFound(h, blk, entries[1..], fuel);
      var n :| Some(n) in entries[1..] && WwidIs(h, n, blk) && New(h, n, fuel) == WwidScan(h, blk, entries[1..], fuel);
      assert Some(n) in entries;
    }
  }

  /** A path that is missing gives `BlockNoExists`; one that cannot be canonicalised gives `NoSupport`. */
  lemma ResolveAbsolutePath(h: Host, blk: string, skip: bool, fuel: nat)
    requires fuel > 0 && StartsWith(blk, "/")
    ensures !h.pathExists(blk) ==> Resolve(h, blk, skip, fuel).Err? && Resolve(h, blk, skip, fuel).error.BlockNoExists?
    ensures h.pathExists(blk) && h.canonicalName(blk).None? ==> Resolve(h, blk, skip, fuel).Err? && Resolve(h, blk, skip, fuel).error.NoSupport?
    ensures h.pathExists(blk) && h.canonicalName(blk).Some? ==>
              Resolve(h, blk, skip, fuel) == Resolve(h, h.canonicalName(blk).value, skip, fuel - 1)
  {
  }

  /**
   * A SCSI disk name goes to the device-mapper device holding it, unless the
   * holder check is skipped or there is none; the holder check never applies
   * to other names.
   */
  lemma ResolveDiskName(h: Host, blk: string, fuel: nat)
    requires fuel > 0 && StartsWith(blk, "sd")
    ensures HolderDmName(h.listDir, blk).Some? ==> Resolve(h, blk, false, fuel) == GetDm(h, HolderDmName(h.listDir, blk).value, fuel - 1)
    ensures HolderDmName(h.listDir, blk).None? ==> Resolve(h, blk, false, fuel) == h.blkInfoGetScsi(blk)
    ensures Resolve(h, blk, true, fuel) == h.blkInfoGetScsi(blk)
  {
    assert !StartsWith(blk, "/") by { assert blk[0] == 's'; }
  }

  /** `H:C:T:L` addresses are looked up as SCSI addresses before any other rule after `sd`. */
  lemma ResolveScsiAddress(h: Host, blk: string, skip: bool, fuel: nat)
    requires fuel > 0 && ScsiText.IsScsiId(blk)
    ensures h.scsiIdToBlkName(blk).Err? ==> Resolve(h, blk, skip, fuel) == Err(h.scsiIdToBlkName(blk).error)
    ensures h.scsiIdToBlkName(blk).Ok? ==> Resolve(h, blk, skip, fuel) == Resolve(h, h.scsiIdToBlkName(blk).value, skip, fuel - 1)
  {
    ScsiText.DigitGroupsStartWithDigit(blk, 3);
    assert !StartsWith(blk, "/") && !StartsWith(blk, "sd");
  }

  /** `dm-N` names go to the device-mapper lookup. */
  lemma ResolveDmName(h: Host, blk: string, skip: bool, fuel: nat)
    requires fuel > 0 && StartsWith(blk, "dm-")
    ensures Resolve(h, blk, skip, fuel) == GetDm(h, blk, fuel - 1)
  {
    assert blk[0] == 'd';
    assert !StartsWith(blk, "/") && !StartsWith(blk, "sd");
    assert !ScsiText.IsScsiId(blk) by {
      if ScsiText.IsScsiId(blk) {
        ScsiText.DigitGroupsStartWithDigit(blk, 3);
      }
    }
  }

  /** `major:minor` numbers are resolved through `/sys/dev/block`; they are never taken for a SCSI address. */
  lemma ResolveMajorMinor(h: Host, blk: string, skip: bool, fuel: nat)
    requires fuel > 0 && ScsiText.IsMajorMinor(blk)
    ensures MajorMinorToBlkName(h.readLink, blk).Err? ==> Resolve(h, blk, skip, fuel) == Err(MajorMinorToBlkName(h.readLink, blk).error)
    ensures MajorMinorToBlkName(h.readLink, blk).Ok? ==>
              Resolve(h, blk, skip, fuel) == Resolve(h, MajorMinorToBlkName(h.readLink, blk).value, skip, fuel - 1)
  {
    ScsiText.DigitGroupsStartWithDigit(blk, 1);
    assert !StartsWith(blk, "/") && !StartsWith(blk, "sd") && !StartsWith(blk, "dm-") by {
      assert IsDigit(blk[0]);
    }
    assert !ScsiText.IsScsiId(blk) by {
      if ScsiText.IsScsiId(blk) {
        ScsiText.DigitGroupsUnique(blk, 1, 3);
      }
    }
  }

  /**
   * A name of no other form that has a `/dev/disk/by-uuid` link is resolved
   * as that link, which, being a path that exists, is canonicalised next.
   */
  lemma ResolveUuidLink(h: Host, blk: string, skip: bool, fuel: nat)
    requires fuel > 0
    requires !StartsWith(blk, "/") && !StartsWith(blk, "sd") && !StartsWith(blk, "dm-")
    requires !ScsiText.IsScsiId(blk) && !ScsiText.IsMajorMinor(blk)
    requires h.pathExists("/dev/disk/by-uuid/" + blk)
    ensures Resolve(h, blk, skip, fuel) == Resolve(h, "/dev/disk/by-uuid/" + blk, skip, fuel - 1)
    ensures var link := "/dev/disk/by-uuid/" + blk;
      fuel > 1 ==>
        && (h.canonicalName(link).None? ==> Resolve(h, blk, skip, fuel) == Err(NotSupported(link)))
        && (h.canonicalName(link).Some? ==> Resolve(h, blk, skip, fuel) == Resolve(h, h.canonicalName(link).value, skip, fuel - 2))
  {
    var link := "/dev/disk/by-uuid/" + blk;
    if fuel > 1 {
      assert link[0] == '/';
      ResolveAbsolutePath(h, link, skip, fuel - 1);
    }
  }

  /** A name of no known form, with no uuid link and no readable SCSI disk list, is not supported. */
  lemma ResolveFallsThrough(h: Host, blk: string, skip: bool, fuel: nat)
    requires fuel > 0
    requires !StartsWith(blk, "/") && !StartsWith(blk, "sd") && !StartsWith(blk, "dm-")
    requires !ScsiText.IsScsiId(blk) && !ScsiText.IsMajorMinor(blk)
    requires !h.pathExists("/dev/disk/by-uuid/" + blk)
    ensures h.listDir("/sys/class/scsi_disk").Unreadable? ==> Resolve(h, blk, skip, fuel) == Err(NotSupported(blk))
    ensures h.listDir("/sys/class/scsi_disk").Listing? ==>
              Resolve(h, blk, skip, fuel) == WwidScan(h, blk, h.listDir("/sys/class/scsi_disk").entries, fuel - 1)
  {
  }

  /** A WWID scan that finds nothing, and reads nothing that fails, ends in `NoSupport`. */
  lemma {:induction false} WwidScanMiss(h: Host, blk: string, entries: seq<Option<string>>, fuel: nat)
    requires forall i :: 0 <= i < |entries| && entries[i].Some? ==>
               var p := "/sys/class/scsi_disk/" + entries[i].value + "/device/wwid";
               h.pathExists(p) ==> h.readFile(p).Ok? && h.prettyWwid(h.readFile(p).value) != blk
    ensures WwidScan(h, blk, entries, fuel) == Err(NotSupported(blk))
    decreases |entries|
  {
    if |entries| > 0 {
      WwidScanMiss(h, blk, entries[1..], fuel);
    }
  }

  // ---------------------------------------------------------------------
  // Owner flattening

  /** `flat_blk_info_owners`: a pre-order walk of the owner forest. */
  function Flat(owners: seq<BlkInfo>): (r: seq<BlkInfo>)
    ensures |r| >= |owners|
    ensures forall b :: b in owners ==> b in r
    decreases owners
  {
    if |owners| == 0 then []
    else [owners[0]] + Flat(owners[0].owners) + Flat(owners[1..])
  }

  /** The number of descriptors in an owner forest, each counted with all its nested owners. */
  function Nodes(owners: seq<BlkInfo>): nat
    decreases owners
  {
    if |owners| == 0 then 0 else 1 + Nodes(owners[0].owners) + Nodes(owners[1..])
  }

  /** Flattening emits one descriptor per node of the owner forest. */
  lemma {:induction false} FlatCountsNodes(owners: seq<BlkInfo>)
    ensures |Flat(owners)| == Nodes(owners)
    decreases owners
  {
    if |owners| > 0 {
      FlatCountsNodes(owners[0].owners);
      FlatCountsNodes(owners[1..]);
    }
  }

  lemma {:induction false} FlatAppend(a: seq<BlkInfo>, b: seq<BlkInfo>)
    ensures Flat(a + b) == Flat(a) + Flat(b)
    decreases a
  {
    if |a| > 0 {
      assert (a + b)[0] == a[0] && (a + b)[1..] == a[1..] + b;
      FlatAppend(a[1..], b);
    } else {
      assert a + b == b;
    }
  }

  /**
   * Pre-order: the `i`th top-level owner appears at the position after all
   * nodes of the owners before it, still carrying its own owners, and is
   * followed at once by the flattening of those owners. Top-level order is
   * therefore kept, and every owner precedes all of its transitive owners.
   */
  lemma FlatPreOrder(owners: seq<BlkInfo>, i: nat)
    requires i < |owners|
    ensures var p := |Flat(owners[..i])|;
      var sub := Flat(owners[i].owners);
      p + 1 + |sub| <= |Flat(owners)|
      && Flat(owners)[p] == owners[i]
      && Flat(owners)[p + 1..p + 1 + |sub|] == sub
  {
    assert owners == owners[..i] + owners[i..];
    FlatAppend(owners[..i], owners[i..]);
    assert owners[i..][0] == owners[i];
  }

  /** Top-level owners keep their relative order in the flattened list. */
  lemma FlatKeepsTopLevelOrder(owners: seq<BlkInfo>, i: nat, j: nat)
    requires i < j < |owners|
    ensures |Flat(owners[..i])| < |Flat(owners[..j])|
  {
    assert owners[..j] == owners[..i] + owners[i..j];
    FlatAppend(owners[..i], owners[i..j]);
  }

  /** The source's loop: push each owner, then append its own flattening. */
  method FlattenOwners(owners: seq<BlkInfo>) returns (r: seq<BlkInfo>)
    ensures r == Flat(owners)
    decreases owners
  {
    r := [];
    var i := 0;
    while i < |owners|
      invariant 0 <= i <= |owners|
      invariant r == Flat(owners[..i])
    {
      var sub := FlattenOwners(owners[i].owners);
      assert owners[..i + 1] == owners[..i] + [owners[i]];
      FlatAppend(owners[..i], [owners[i]]);
      assert [owners[i]][1..] == [];
      r := r + [owners[i]] + sub;
      i := i + 1;
    }
    assert owners[..i] == owners;
  }

  // ---------------------------------------------------------------------
  // BlkInfo::new

  /** The uuid, mount point and owner updates `new` makes to what `_new` found. */
  function Enrich(h: Host, bi: BlkInfo): BlkInfo
  {
    var uuid :=
      if bi.uuid.None? && h.uuidOf(bi.blkPath).Ok? then Some(h.uuidOf(bi.blkPath).value) else bi.uuid;
    var mountPoint := if uuid.Some? then h.mountPointOf(bi.blkPath) else bi.mountPoint;
    bi.(uuid := uuid, mountPoint := mountPoint, owners := Flat(bi.owners))
  }

  /** `BlkInfo::new`. */
  function New(h: Host, blk: string, fuel: nat): (r: Result<BlkInfo, PeripetyError>)
    decreases fuel, 1, 0
  {
    match Resolve(h, blk, false, fuel)
      case Err(e) => Err(e)
      case Ok(bi) => Ok(Enrich(h, bi))
  }

  /**
   * `new` keeps what `_new` found except that a missing uuid is looked up,
   * the mount table is consulted exactly when a uuid is known, and the owners
   * are flattened.
   */
  lemma NewEnriches(h: Host, blk: string, fuel: nat)
    requires Resolve(h, blk, false, fuel).Ok?
    ensures var bi := Resolve(h, blk, false, fuel).value;
      var r := New(h, blk, fuel).value;
      New(h, blk, fuel).Ok?
      && r.wwid == bi.wwid && r.blkType == bi.blkType && r.blkPath == bi.blkPath
      && r.preferredBlkPath == bi.preferredBlkPath && r.transportId == bi.transportId
      && (bi.uuid.Some? ==> r.uuid == bi.uuid)
      && (bi.uuid.None? ==> (r.uuid.Some? <==> h.uuidOf(bi.blkPath).Ok?))
      && (r.uuid.Some? ==> r.mountPoint == h.mountPointOf(bi.blkPath))
      && (r.uuid.None? ==> r.mountPoint == bi.mountPoint)
      && r.owners == Flat(bi.owners)
  {
  }

  /** `new` itself, updating the descriptor field by field. */
  method NewBlkInfo(h: Host, blk: string, fuel: nat) returns (r: Result<BlkInfo, PeripetyError>)
    ensures r == New(h, blk, fuel)
  {
    var found := Resolve(h, blk, false, fuel);
    if found.Err? {
      return Err(found.error);
    }
    var bi := found.value;
    if bi.uuid.None? {
      var uuid := h.uuidOf(bi.blkPath);
      if uuid.Ok? {
        bi := bi.(uuid := Some(uuid.value));
      }
    }
    if bi.uuid.Some? {
      bi := bi.(mountPoint := h.mountPointOf(bi.blkPath));
    }
    var owners := FlattenOwners(bi.owners);
    bi := bi.(owners := owners);
    r := Ok(bi);
  }

  /** One turn of the slave loop: the slave is pushed when its name resolves. */
  method PushSlave(h: Host, owners: seq<BlkInfo>, entry: Option<string>, fuel: nat) returns (r: seq<BlkInfo>)
    ensures r == owners + SlaveOwner(h, entry, fuel)
  {
    r := owners;
    if entry.Some? {
      var slave := Resolve(h, entry.value, true, fuel);
      if slave.Ok? {
        r := r + [slave.value];
      }
    }
  }

  /** The slave loop of `blk_info_get_dm`: pushes each slave that resolves. */
  method ResolveSlaves(h: Host, es: seq<Option<string>>, fuel: nat) returns (owners: seq<BlkInfo>)
    ensures owners == DmOwners(h, es, fuel)
  {
    owners := [];
    var i := 0;
    while i < |es|
      invariant 0 <= i <= |es|
      invariant DmOwners(h, es, fuel) == owners + DmOwners(h, es[i..], fuel)
    {
      DmOwnersStep(h, es, i, fuel);
      var slave := SlaveOwner(h, es[i], fuel);
      var later := DmOwners(h, es[i + 1..], fuel);
      assert owners + (slave + later) == owners + slave + later;
      owners := PushSlave(h, owners, es[i], fuel);
      i := i + 1;
    }
    assert es[i..] == [] && owners + [] == owners;
  }

  /** `blk_info_get_dm` itself. */
  method BlkInfoGetDm(h: Host, blk: string, fuel: nat) returns (r: Result<BlkInfo, PeripetyError>)
    ensures r == GetDm(h, blk, fuel)
  {
    var uuidPath := "/sys/block/" + blk + "/dm/uuid";
    if !h.pathExists(uuidPath) {
      return Err(InternalBug("dm::blk_info_get_dm() not supported blk " + blk + " as path " + uuidPath + " not exists"));
    }
    var name := h.readFile("/sys/block/" + blk + "/dm/name");
    if name.Err? {
      return Err(name.error);
    }
    var wwid := h.readFile(uuidPath);
    if wwid.Err? {
      return Err(wwid.error);
    }
    var path := "/dev/mapper/" + name.value;
    var slaveDir := "/sys/block/" + blk + "/slaves";
    var listing := h.listDir(slaveDir);
    if listing.Unreadable? {
      return Err(InternalBug("dm::blk_info_get_dm(): Failed to read_dir " + slaveDir + ": " + listing.reason));
    }
    var owners := ResolveSlaves(h, listing.entries, fuel);
    if owners == [] {
      return Err(InternalBug("dm::blk_info_get_dm() not supported blk " + blk));
    }
    var ret := BlkInfo(wwid.value, DmTypeOf(wwid.value), path, path, None, None, [], owners);
    r := Ok(ret);
  }

  // ---------------------------------------------------------------------
  // BlkInfo::list

  /** The readable entry names of a listing, in order. */
  function Names(entries: seq<Option<string>>): (r: seq<string>)
    ensures |r| <= |entries|
    ensures forall n :: n in r <==> Some(n) in entries
  {
    if |entries| == 0 then []
    else (if entries[0].Some? then [entries[0].value] else []) + Names(entries[1..])
  }

  function DmNames(names: seq<string>): (r: seq<string>)
  {
    if |names| == 0 then []
    else (if StartsWith(names[0], "dm-") then [names[0]] else []) + DmNames(names[1..])
  }

  function OtherNames(names: seq<string>): (r: seq<string>)
  {
    if |names| == 0 then []
    else (if StartsWith(names[0], "dm-") then [] else [names[0]]) + OtherNames(names[1..])
  }

  /** Every name goes to exactly one of the two lists, in order, according to its `dm-` prefix. */
  lemma {:induction false} NamesPartition(names: seq<string>)
    ensures |DmNames(names)| + |OtherNames(names)| == |names|
    ensures forall n :: n in DmNames(names) <==> n in names && StartsWith(n, "dm-")
    ensures forall n :: n in OtherNames(names) <==> n in names && !StartsWith(n, "dm-")
  {
    if |names| > 0 {
      NamesPartition(names[1..]);
      assert names == [names[0]] + names[1..];
    }
  }

  /** `BlkInfo::new` on each name in turn; the first failure aborts. */
  function NewAll(h: Host, names: seq<string>, fuel: nat): (r: Result<seq<BlkInfo>, PeripetyError>)
    ensures r.Err? ==> exists n :: n in names && New(h, n, fuel) == Err(r.error)
  {
    if |names| == 0 then Ok([])
    else match New(h, names[0], fuel)
      case Err(e) => Err(e)
      case Ok(bi) =>
        match NewAll(h, names[1..], fuel)
          case Err(e) => Err(e)
          case Ok(rest) => Ok([bi] + rest)
  }

  lemma {:induction false} NewAllLength(h: Host, names: seq<string>, fuel: nat)
    requires NewAll(h, names, fuel).Ok?
    ensures |NewAll(h, names, fuel).value| == |names|
  {
    if |names| > 0 {
      NewAllLength(h, names[1..], fuel);
    }
  }

  /** `infos` are the descriptors `BlkInfo::new` gives for `names`, one for one. */
  predicate Describes(h: Host, names: seq<string>, infos: seq<BlkInfo>, fuel: nat)
  {
    |infos| == |names| && forall i :: 0 <= i < |names| ==> New(h, names[i], fuel) == Ok(infos[i])
  }

  lemma {:induction false} NewAllPointwise(h: Host, names: seq<string>, fuel: nat)
    requires NewAll(h, names, fuel).Ok?
    ensures Describes(h, names, NewAll(h, names, fuel).value, fuel)
  {
    if |names| > 0 {
      NewAllPointwise(h, names[1..], fuel);
      var r := NewAll(h, names, fuel).value;
      assert r[1..] == NewAll(h, names[1..], fuel).value;
      forall i | 0 <= i < |names| ensures New(h, names[i], fuel) == Ok(r[i]) {
        if i > 0 {
          assert names[i] == names[1..][i - 1];
        }
      }
    }
  }

  /** A failure anywhere makes the whole of `NewAll` fail. */
  lemma {:induction false} NewAllFails(h: Host, names: seq<string>, fuel: nat, i: nat)
    requires i < |names| && New(h, names[i], fuel).Err?
    ensures NewAll(h, names, fuel).Err?
  {
    if i > 0 && New(h, names[0], fuel).Ok? {
      NewAllFails(h, names[1..], fuel, i - 1);
    }
  }

  /** The kernel names of the paths of the owners of one descriptor, when it is a multipath device. */
  function ClaimedBy(info: BlkInfo): seq<string>
  {
    if info.blkType == DmMultipath then OwnerBasenames(info.owners) else []
  }

  function OwnerBasenames(owners: seq<BlkInfo>): (r: seq<string>)
    ensures |r| == |owners|
  {
    if |owners| == 0 then [] else [Basename(owners[0].blkPath)] + OwnerBasenames(owners[1..])
  }

  /** The names claimed by all multipath devices among `infos`. */
  function Claimed(infos: seq<BlkInfo>): seq<string>
  {
    if |infos| == 0 then [] else Claimed(infos[..|infos| - 1]) + ClaimedBy(infos[|infos| - 1])
  }

  lemma {:induction false} RetainedNothing(names: seq<string>)
    ensures Retained(names, []) == names
  {
    if |names| > 0 {
      RetainedNothing(names[1..]);
      assert names == [names[0]] + names[1..];
    }
  }

  /** `Vec::retain(|x| x != name)` for every claimed name: the order of the survivors is kept. */
  function Retained(names: seq<string>, claimed: seq<string>): (r: seq<string>)
    ensures forall n :: n in r <==> n in names && n !in claimed
    ensures |r| <= |names|
  {
    if |names| == 0 then []
    else (if names[0] in claimed then [] else [names[0]]) + Retained(names[1..], claimed)
  }

  lemma {:induction false} RetainedTwice(names: seq<string>, c1: seq<string>, c2: seq<string>)
    ensures Retained(Retained(names, c1), c2) == Retained(names, c1 + c2)
  {
    if |names| > 0 {
      RetainedTwice(names[1..], c1, c2);
      var r1 := Retained(names, c1);
      assert names[0] in c1 + c2 <==> names[0] in c1 || names[0] in c2;
      if names[0] !in c1 {
        assert r1 == [names[0]] + Retained(names[1..], c1);
        assert r1[0] == names[0] && r1[1..] == Retained(names[1..], c1);
        assert Retained(r1, c2) == (if names[0] in c2 then [] else [names[0]]) + Retained(r1[1..], c2);
      } else {
        assert r1 == Retained(names[1..], c1);
      }
    }
  }

  /** The readable names under `/sys/class/block`, in directory order. */
  function BlockNames(h: Host): seq<string>
  {
    match h.listDir("/sys/class/block")
      case Unreadable(_) => []
      case Listing(es) => Names(es)
  }

  /** The non-dm names that survive the removal of the paths `dms` claim. */
  function KeptOthers(h: Host, dms: seq<BlkInfo>): seq<string>
  {
    Retained(OtherNames(BlockNames(h)), Claimed(dms))
  }

  /** A successful list of descriptors with `prefix` put in front. */
  function Prefixed(prefix: seq<BlkInfo>, r: Result<seq<BlkInfo>, PeripetyError>): Result<seq<BlkInfo>, PeripetyError>
  {
    match r
      case Err(e) => Err(e)
      case Ok(rest) => Ok(prefix + rest)
  }

  /** `BlkInfo::list`: the dm devices first, then the other devices no multipath device claims. */
  function ListSpec(h: Host, fuel: nat): (r: Result<seq<BlkInfo>, PeripetyError>)
  {
    if h.listDir("/sys/class/block").Unreadable? then
      Err(InternalBug("Failed to read dir /sys/class/block: " + h.listDir("/sys/class/block").reason))
    else match NewAll(h, DmNames(BlockNames(h)), fuel)
      case Err(e) => Err(e)
      case Ok(dms) => Prefixed(dms, NewAll(h, KeptOthers(h, dms), fuel))
  }

  /**
   * A listing holds the descriptor of every dm device in directory order,
   * then that of every other device that no listed multipath device claims,
   * in directory order.
   */
  lemma ListShape(h: Host, fuel: nat)
    requires ListSpec(h, fuel).Ok?
    ensures h.listDir("/sys/class/block").Listing?
    ensures var dmNames := DmNames(BlockNames(h));
      var r := ListSpec(h, fuel).value;
      |dmNames| <= |r|
      && Describes(h, dmNames, r[..|dmNames|], fuel)
      && Describes(h, KeptOthers(h, r[..|dmNames|]), r[|dmNames|..], fuel)
  {
    var dmNames := DmNames(BlockNames(h));
    var dms, others := ListSpecParts(h, fuel);
    NewAllPointwise(h, dmNames, fuel);
    NewAllPointwise(h, KeptOthers(h, dms), fuel);
    var r := ListSpec(h, fuel).value;
    assert r[..|dmNames|] == dms && r[|dmNames|..] == others;
  }

  lemma ListSpecParts(h: Host, fuel: nat) returns (dms: seq<BlkInfo>, others: seq<BlkInfo>)
    requires ListSpec(h, fuel).Ok?
    ensures h.listDir("/sys/class/block").Listing?
    ensures NewAll(h, DmNames(BlockNames(h)), fuel) == Ok(dms)
    ensures NewAll(h, KeptOthers(h, dms), fuel) == Ok(others)
    ensures ListSpec(h, fuel).value == dms + others
  {
    dms := NewAll(h, DmNames(BlockNames(h)), fuel).value;
    others := NewAll(h, KeptOthers(h, dms), fuel).value;
  }

  /**
   * No device listed after the dm devices is a path (by kernel name) of a
   * listed multipath device.
   */
  lemma ListDropsMultipathPaths(h: Host, fuel: nat, i: nat, k: nat)
    requires ListSpec(h, fuel).Ok?
    requires i < |DmNames(BlockNames(h))| <= |ListSpec(h, fuel).value|
    requires ListSpec(h, fuel).value[i].blkType == DmMultipath
    requires k < |ListSpec(h, fuel).value[i].owners|
    ensures Basename(ListSpec(h, fuel).value[i].owners[k].blkPath)
            !in KeptOthers(h, ListSpec(h, fuel).value[..|DmNames(BlockNames(h))|])
  {
    var dms, others := ListSpecParts(h, fuel);
    NewAllLength(h, DmNames(BlockNames(h)), fuel);
    var r := ListSpec(h, fuel).value;
    assert r[..|DmNames(BlockNames(h))|] == dms;
    assert r[i] == dms[i];
    ClaimedContains(dms, i, k);
  }

  /** The devices listed after the dm devices are no dm devices. */
  lemma KeptOthersAreNotDm(h: Host, dms: seq<BlkInfo>, n: string)
    requires n in KeptOthers(h, dms)
    ensures n in BlockNames(h) && !StartsWith(n, "dm-")
  {
    NamesPartition(BlockNames(h));
  }

  lemma {:induction false} ClaimedContains(infos: seq<BlkInfo>, i: nat, k: nat)
    requires i < |infos| && infos[i].blkType == DmMultipath && k < |infos[i].owners|
    ensures Basename(infos[i].owners[k].blkPath) in Claimed(infos)
    decreases |infos|
  {
    if i < |infos| - 1 {
      ClaimedContains(infos[..|infos| - 1], i, k);
      assert infos[..|infos| - 1][i] == infos[i];
    } else {
      OwnerBasenamesAt(infos[i].owners, k);
      assert ClaimedBy(infos[i])[k] == Basename(infos[i].owners[k].blkPath);
    }
  }

  lemma NewAllStep(h: Host, names: seq<string>, d: nat, fuel: nat, prefix: seq<BlkInfo>)
    requires d < |names|
    ensures New(h, names[d], fuel).Err? ==> Prefixed(prefix, NewAll(h, names[d..], fuel)) == Err(New(h, names[d], fuel).error)
    ensures New(h, names[d], fuel).Ok? ==>
              Prefixed(prefix, NewAll(h, names[d..], fuel))
              == Prefixed(prefix + [New(h, names[d], fuel).value], NewAll(h, names[d + 1..], fuel))
  {
    assert names[d..][0] == names[d] && names[d..][1..] == names[d + 1..];
    if New(h, names[d], fuel).Ok? {
      var bi := New(h, names[d], fuel).value;
      match NewAll(h, names[d + 1..], fuel)
      case Err(e) =>
      case Ok(rest) => assert prefix + ([bi] + rest) == (prefix + [bi]) + rest;
    }
  }

  lemma NamesStep(es: seq<Option<string>>, i: nat)
    requires i < |es|
    ensures Names(es[i..]) == (if es[i].Some? then [es[i].value] else []) + Names(es[i + 1..])
  {
    assert es[i..][0] == es[i] && es[i..][1..] == es[i + 1..];
  }

  lemma SplitStep(name: string, rest: seq<string>)
    ensures DmNames([name] + rest) == (if StartsWith(name, "dm-") then [name] else []) + DmNames(rest)
    ensures OtherNames([name] + rest) == (if StartsWith(name, "dm-") then [] else [name]) + OtherNames(rest)
  {
    assert ([name] + rest)[0] == name && ([name] + rest)[1..] == rest;
  }

  lemma {:induction false} OwnerBasenamesAppend(a: seq<BlkInfo>, b: seq<BlkInfo>)
    ensures OwnerBasenames(a + b) == OwnerBasenames(a) + OwnerBasenames(b)
  {
    if |a| > 0 {
      assert (a + b)[0] == a[0] && (a + b)[1..] == a[1..] + b;
      OwnerBasenamesAppend(a[1..], b);
    } else {
      assert a + b == b;
    }
  }

  lemma {:induction false} OwnerBasenamesAt(owners: seq<BlkInfo>, k: nat)
    requires k < |owners|
    ensures OwnerBasenames(owners)[k] == Basename(owners[k].blkPath)
  {
    var rest := OwnerBasenames(owners[1..]);
    assert OwnerBasenames(owners) == [Basename(owners[0].blkPath)] + rest;
    if k > 0 {
      OwnerBasenamesAt(owners[1..], k - 1);
      assert owners[1..][k - 1] == owners[k];
    }
  }

  lemma OwnerBasenamesSnoc(owners: seq<BlkInfo>, k: nat)
    requires k < |owners|
    ensures OwnerBasenames(owners[..k + 1]) == OwnerBasenames(owners[..k]) + [Basename(owners[k].blkPath)]
  {
    assert owners[..k + 1] == owners[..k] + [owners[k]];
    OwnerBasenamesAppend(owners[..k], [owners[k]]);
    assert OwnerBasenames([owners[k]]) == [Basename(owners[k].blkPath)];
  }

  /** The first loop of `list`: dm device names to one list, all other names to the other. */
  method SplitBlockNames(es: seq<Option<string>>) returns (dmDevs: seq<string>, otherDevs: seq<string>)
    ensures dmDevs == DmNames(Names(es)) && otherDevs == OtherNames(Names(es))
  {
    dmDevs := [];
    otherDevs := [];
    var i := 0;
    while i < |es|
      invariant 0 <= i <= |es|
      invariant DmNames(Names(es)) == dmDevs + DmNames(Names(es[i..]))
      invariant OtherNames(Names(es)) == otherDevs + OtherNames(Names(es[i..]))
    {
      NamesStep(es, i);
      if es[i].Some? {
        var name := es[i].value;
        var rest := Names(es[i + 1..]);
        SplitStep(name, rest);
        if StartsWith(name, "dm-") {
          assert dmDevs + ([name] + DmNames(rest)) == dmDevs + [name] + DmNames(rest);
          assert OtherNames(Names(es[i..])) == OtherNames(rest);
          dmDevs := dmDevs + [name];
        } else {
          assert otherDevs + ([name] + OtherNames(rest)) == otherDevs + [name] + OtherNames(rest);
          assert DmNames(Names(es[i..])) == DmNames(rest);
          otherDevs := otherDevs + [name];
        }
      } else {
        assert Names(es[i..]) == Names(es[i + 1..]);
      }
      i := i + 1;
    }
    assert es[i..] == [];
  }

  /** The `retain` calls for the paths of one multipath device. */
  method RetainUnclaimed(names: seq<string>, owners: seq<BlkInfo>) returns (r: seq<string>)
    ensures r == Retained(names, OwnerBasenames(owners))
  {
    r := names;
    var k := 0;
    RetainedNothing(names);
    assert owners[..0] == [];
    while k < |owners|
      invariant 0 <= k <= |owners|
      invariant r == Retained(names, OwnerBasenames(owners[..k]))
    {
      var blkName := Basename(owners[k].blkPath);
      RetainedTwice(names, OwnerBasenames(owners[..k]), [blkName]);
      OwnerBasenamesSnoc(owners, k);
      r := Retained(r, [blkName]);
      k := k + 1;
    }
    assert owners[..k] == owners;
  }

  lemma PrefixedNothing(r: Result<seq<BlkInfo>, PeripetyError>)
    ensures Prefixed([], r) == r
  {
    if r.Ok? {
      assert [] + r.value == r.value;
    }
  }

  lemma ListSpecAfterDms(h: Host, fuel: nat)
    requires h.listDir("/sys/class/block").Listing?
    ensures NewAll(h, DmNames(BlockNames(h)), fuel).Err? ==>
              ListSpec(h, fuel) == Err(NewAll(h, DmNames(BlockNames(h)), fuel).error)
    ensures NewAll(h, DmNames(BlockNames(h)), fuel).Ok? ==>
              var dms := NewAll(h, DmNames(BlockNames(h)), fuel).value;
              ListSpec(h, fuel) == Prefixed(dms, NewAll(h, KeptOthers(h, dms), fuel))
  {
  }

  /** The last loop of `list`: `BlkInfo::new` on each remaining name, stopping at the first error. */
  method NewEach(h: Host, names: seq<string>, fuel: nat, prefix: seq<BlkInfo>) returns (r: Result<seq<BlkInfo>, PeripetyError>)
    ensures r == Prefixed(prefix, NewAll(h, names, fuel))
  {
    var ret := prefix;
    var o := 0;
    assert names[0..] == names;
    while o < |names|
      invariant 0 <= o <= |names|
      invariant Prefixed(prefix, NewAll(h, names, fuel)) == Prefixed(ret, NewAll(h, names[o..], fuel))
    {
      NewAllStep(h, names, o, fuel, ret);
      var info := New(h, names[o], fuel);
      if info.Err? {
        return Err(info.error);
      }
      ret := ret + [info.value];
      o := o + 1;
    }
    assert names[o..] == [] && ret + [] == ret;
    r := Ok(ret);
  }

  /**
   * The second loop of `list`: each dm device resolved with `BlkInfo::new`,
   * and the paths of each multipath device removed from the other names.
   */
  method ResolveDms(h: Host, dmDevs: seq<string>, others: seq<string>, fuel: nat)
    returns (r: Result<seq<BlkInfo>, PeripetyError>, kept: seq<string>)
    ensures r == NewAll(h, dmDevs, fuel)
    ensures r.Ok? ==> kept == Retained(others, Claimed(r.value))
  {
    kept := others;
    var ret: seq<BlkInfo> := [];
    RetainedNothing(others);
    assert dmDevs[0..] == dmDevs;
    PrefixedNothing(NewAll(h, dmDevs, fuel));
    var d := 0;
    while d < |dmDevs|
      invariant 0 <= d <= |dmDevs|
      invariant NewAll(h, dmDevs, fuel) == Prefixed(ret, NewAll(h, dmDevs[d..], fuel))
      invariant kept == Retained(others, Claimed(ret))
    {
      NewAllStep(h, dmDevs, d, fuel, ret);
      var info := New(h, dmDevs[d], fuel);
      if info.Err? {
        return Err(info.error), kept;
      }
      assert (ret + [info.value])[..|ret|] == ret;
      assert Claimed(ret + [info.value]) == Claimed(ret) + ClaimedBy(info.value);
      if info.value.blkType == DmMultipath {
        kept := RetainUnclaimed(kept, info.value.owners);
        RetainedTwice(others, Claimed(ret), OwnerBasenames(info.value.owners));
      } else {
        assert Claimed(ret) + ClaimedBy(info.value) == Claimed(ret);
      }
      ret := ret + [info.value];
      d := d + 1;
    }
    assert dmDevs[d..] == [] && ret + [] == ret;
    r := Ok(ret);
  }

  /** `BlkInfo::list`. */
  method List(h: Host, fuel: nat) returns (r: Result<seq<BlkInfo>, PeripetyError>)
    ensures r == ListSpec(h, fuel)
  {
    var listing := h.listDir("/sys/class/block");
    if listing.Unreadable? {
      return Err(InternalBug("Failed to read dir /sys/class/block: " + listing.reason));
    }
    var dmDevs, otherDevs := SplitBlockNames(listing.entries);
    assert dmDevs == DmNames(BlockNames(h)) && otherDevs == OtherNames(BlockNames(h));
    ListSpecAfterDms(h, fuel);
    var dms, kept := ResolveDms(h, dmDevs, otherDevs, fuel);
    if dms.Err? {
      return Err(dms.error);
    }
    r := NewEach(h, kept, fuel, dms.value);
  }
}
