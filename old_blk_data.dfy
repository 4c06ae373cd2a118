/**
 * The block descriptor of the older peripety library: five block types and
 * a flat `BlkInfo` whose owners are parallel lists (wwids, types, paths,
 * transport ids), plus the `Host` of oracle functions through which the
 * older block code sees sysfs, /dev and the mount table.
 *
 * The older `blk_info.rs` declares the record without `preferred_blk_path`,
 * `owners_transport_ids` and `transport_id`, while its `dm.rs` and `scsi.rs`
 * fill those three in; the record below carries all of them.
 */
module OldBlkData {
  import opened Common
  import opened Errors
  import Blk

  datatype BlkType = Scsi | Dm | DmMultipath | DmLvm | Partition

  /** `Display for BlkType`. */
  function TypeName(t: BlkType): string
  {
    match t
      case Scsi => "SCSI"
      case Dm => "Device Mapper"
      case DmMultipath => "Device Mapper Multipath"
      case DmLvm => "Device Mapper LVM"
      case Partition => "Partition"
  }

  /** The five display strings are pairwise distinct. */
  lemma TypeNameInjective(a: BlkType, b: BlkType)
    ensures TypeName(a) == TypeName(b) ==> a == b
  {
    if TypeName(a) == TypeName(b) {
      assert |TypeName(a)| == |TypeName(b)|;
      assert TypeName(a)[0] == TypeName(b)[0];
      if TypeName(a)[0] == 'D' {
        assert TypeName(a)[|TypeName(a)| - 1] == TypeName(b)[|TypeName(b)| - 1];
      }
    }
  }

  datatype BlkInfo = BlkInfo(
    wwid: string,
    blkType: BlkType,
    blkPath: string,
    preferredBlkPath: string,
    ownersWwids: seq<string>,
    ownersTypes: seq<BlkType>,
    ownersPaths: seq<string>,
    ownersTransportIds: seq<string>,
    uuid: Option<string>,
    mountPoint: Option<string>,
    transportId: string)

  /**
   * What the older block code asks of the machine. `canonicalName` is
   * `canonicalize()` followed by `file_name().to_str()`, `canonicalPath` the
   * canonical path itself; `readFile` is `Sysfs::read`; `uuidOf` is
   * `BlkInfo::uuid`, `mountPointOf` is `get_mount_point`; `iscsiSessionOf`
   * is `iscsi_session_id_of_host`.
   */
  datatype Host = Host(
    pathExists: string -> bool,
    canonicalName: string -> Option<string>,
    canonicalPath: string -> Option<string>,
    readFile: string -> Result<string, PeripetyError>,
    listDir: string -> Blk.Listing,
    readLink: string -> Blk.Link,
    uuidOf: string -> Result<string, PeripetyError>,
    mountPointOf: string -> Option<string>,
    iscsiSessionOf: string -> Result<string, PeripetyError>)

  /** The wwid and type lists are parallel; neither wwids nor paths repeat. */
  predicate Aligned(wwids: seq<string>, types: seq<BlkType>, paths: seq<string>)
  {
    |wwids| == |types| && NoDuplicates(wwids) && NoDuplicates(paths)
  }
}
