/**
 * The SCSI half of the older library's block lookup (`scsi.rs`): SCSI
 * address to disk name, the preferred `/dev/disk/by-id` alias, the iSCSI and
 * FC transport attributes and the transport id built from them, and the two
 * descriptors `blk_info_get_scsi` builds, for a partition and for a whole
 * disk. Looking up a partition's disk goes through `BlkInfo::new` and lives
 * with the rest of the dispatch in `OldBlk`.
 */
module OldScsi {
  import opened Common
  import opened Errors
  import ScsiText
  import Blk
  import opened OldBlkData

  const BY_ID := "/dev/disk/by-id"

  // ---------------------------------------------------------------------
  // scsi_id_to_blk_name

  /** `scsi_id_to_blk_name`: the first entry of the address's `device/block` folder. */
  function ScsiIdToBlkName(h: Host, scsiId: string): (r: Result<string, PeripetyError>)
    ensures var path := "/sys/class/scsi_disk/" + scsiId + "/device/block";
      && (!h.pathExists(path) <==> r == Err(BlockNoExists("SCSI ID " + scsiId + " does not exists")))
      && (r.Ok? <==> h.pathExists(path) && h.listDir(path).Listing? && |h.listDir(path).entries| > 0
                     && h.listDir(path).entries[0].Some?)
      && (r.Ok? ==> r.value == h.listDir(path).entries[0].value)
  {
    var path := "/sys/class/scsi_disk/" + scsiId + "/device/block";
    if !h.pathExists(path) then Err(BlockNoExists("SCSI ID " + scsiId + " does not exists"))
    else
      var listing := h.listDir(path);
      if listing.Unreadable? then
        Err(InternalBug("scsi_id_to_blk_name(): Failed to read_dir " + path + ": " + listing.reason))
      else if |listing.entries| > 0 && listing.entries[0].Some? then Ok(listing.entries[0].value)
      else Err(InternalBug("scsi::scsi_id_to_blk_name(): Folder " + path + " is empty"))
  }

  // ---------------------------------------------------------------------
  // get_prefered_blk_path

  /** A `/dev/disk/by-id` entry, read as a name, whose link resolves to `raw`. */
  predicate Aliases(h: Host, e: Option<string>, raw: string)
  {
    e.Some? && h.canonicalPath(BY_ID + "/" + e.value) == Some(raw)
  }

  /** The `/dev/disk/by-id` entry names whose link resolves to `raw`, in directory order. */
  function ByIdMatches(h: Host, entries: seq<Option<string>>, raw: string): (r: seq<string>)
    ensures forall i :: 0 <= i < |r| ==> h.canonicalPath(BY_ID + "/" + r[i]) == Some(raw)
    ensures forall i :: 0 <= i < |entries| && Aliases(h, entries[i], raw) ==> entries[i].value in r
    ensures forall x :: x in r ==> Some(x) in entries
    ensures |r| <= |entries|
  {
    if |entries| == 0 then []
    else
      var last := entries[|entries| - 1];
      var init := entries[..|entries| - 1];
      assert forall i :: 0 <= i < |init| ==> init[i] == entries[i];
      ByIdMatches(h, init, raw) + (if Aliases(h, last, raw) then [last.value] else [])
  }

  /** Collecting the aliases keeps directory order: the matches of a split listing are those of its halves. */
  lemma {:induction false} ByIdMatchesAppend(h: Host, a: seq<Option<string>>, b: seq<Option<string>>, raw: string)
    ensures ByIdMatches(h, a + b, raw) == ByIdMatches(h, a, raw) + ByIdMatches(h, b, raw)
    decreases |b|
  {
    if |b| > 0 {
      var b' := b[..|b| - 1];
      assert (a + b)[..|a + b| - 1] == a + b';
      assert (a + b)[|a + b| - 1] == b[|b| - 1];
      ByIdMatchesAppend(h, a, b', raw);
    } else {
      assert a + b == a;
    }
  }

  /** The first entry that resolves to `raw` is the first match. */
  lemma ByIdMatchesFirst(h: Host, entries: seq<Option<string>>, raw: string, k: nat)
    requires k < |entries| && Aliases(h, entries[k], raw)
    requires forall j :: 0 <= j < k ==> !Aliases(h, entries[j], raw)
    ensures |ByIdMatches(h, entries, raw)| > 0 && ByIdMatches(h, entries, raw)[0] == entries[k].value
  {
    var before, rest := entries[..k], entries[k + 1..];
    assert entries == before + ([entries[k]] + rest);
    ByIdMatchesAppend(h, before, [entries[k]] + rest, raw);
    ByIdMatchesAppend(h, [entries[k]], rest, raw);
    assert [entries[k]][..0] == [];
    ByIdMatchesNone(h, before, raw);
  }

  /** A listing in which no entry resolves to `raw` yields no match. */
  lemma {:induction false} ByIdMatchesNone(h: Host, entries: seq<Option<string>>, raw: string)
    requires forall j :: 0 <= j < |entries| ==> !Aliases(h, entries[j], raw)
    ensures ByIdMatches(h, entries, raw) == []
    decreases |entries|
  {
    if |entries| > 0 {
      var init := entries[..|entries| - 1];
      assert forall j :: 0 <= j < |init| ==> init[j] == entries[j];
      ByIdMatchesNone(h, init, raw);
    }
  }

  /** The position of the first name starting with `wwn-`. */
  function FirstWwn(names: seq<string>): (r: Option<nat>)
    ensures r.Some? ==> r.value < |names| && StartsWith(names[r.value], "wwn-")
    ensures r.Some? ==> forall j :: 0 <= j < r.value ==> !StartsWith(names[j], "wwn-")
    ensures r.None? ==> forall j :: 0 <= j < |names| ==> !StartsWith(names[j], "wwn-")
  {
    if |names| == 0 then None
    else if StartsWith(names[0], "wwn-") then Some(0)
    else match FirstWwn(names[1..])
      case None => None
      case Some(k) => Some(k + 1)
  }

  /** The choice among the matches: the first `wwn-` alias, else the first alias, else `raw`. */
  function PickPreferred(matches: seq<string>, raw: string): (r: string)
    ensures |matches| == 0 ==> r == raw
    ensures |matches| > 0 ==>
      exists k :: 0 <= k < |matches| && r == BY_ID + "/" + matches[k]
        && (forall j :: 0 <= j < k ==> !StartsWith(matches[j], "wwn-"))
        && (StartsWith(matches[k], "wwn-")
            || (k == 0 && forall j :: 0 <= j < |matches| ==> !StartsWith(matches[j], "wwn-")))
  {
    match FirstWwn(matches)
      case Some(k) => BY_ID + "/" + matches[k]
      case None => if |matches| > 0 then BY_ID + "/" + matches[0] else raw
  }

  /** When some match starts with `wwn-`, so does the chosen alias. */
  lemma PickWwn(matches: seq<string>, raw: string, p: nat)
    requires p < |matches| && StartsWith(matches[p], "wwn-")
    ensures StartsWith(PickPreferred(matches, raw), BY_ID + "/wwn-")
  {
    var k := FirstWwn(matches).value;
    assert matches[k][..4] == "wwn-";
    assert (BY_ID + "/" + matches[k])[..|BY_ID + "/wwn-"|] == BY_ID + "/" + matches[k][..4];
  }

  /** Among the aliases of `raw` found in `es`, the choice is an alias, and a `wwn-` one when there is one. */
  lemma PickAlias(h: Host, es: seq<Option<string>>, raw: string, i: nat)
    requires i < |es| && Aliases(h, es[i], raw)
    ensures var r := PickPreferred(ByIdMatches(h, es, raw), raw);
      && StartsWith(r, BY_ID + "/") && h.canonicalPath(r) == Some(raw)
      && (StartsWith(es[i].value, "wwn-") ==> StartsWith(r, BY_ID + "/wwn-"))
  {
    var matches := ByIdMatches(h, es, raw);
    var r := PickPreferred(matches, raw);
    assert es[i].value in matches;
    var k :| 0 <= k < |matches| && r == BY_ID + "/" + matches[k];
    assert r[..|BY_ID + "/"|] == BY_ID + "/";
    if StartsWith(es[i].value, "wwn-") {
      var p :| 0 <= p < |matches| && matches[p] == es[i].value;
      PickWwn(matches, raw, p);
    }
  }

  /**
   * `get_prefered_blk_path`: what `PickPreferred` chooses among the aliases
   * of `raw`. When some readable `/dev/disk/by-id` entry resolves to `raw`
   * the answer is one of those aliases, and a `wwn-` one whenever a `wwn-`
   * entry resolves to `raw`.
   */
  function PreferredPath(h: Host, raw: string): (r: string)
    ensures r == raw || (StartsWith(r, BY_ID + "/") && h.canonicalPath(r) == Some(raw))
    ensures h.listDir(BY_ID).Listing?
            && (exists i :: 0 <= i < |h.listDir(BY_ID).entries| && Aliases(h, h.listDir(BY_ID).entries[i], raw))
            ==> StartsWith(r, BY_ID + "/") && h.canonicalPath(r) == Some(raw)
    ensures h.listDir(BY_ID).Listing?
            && (exists i :: 0 <= i < |h.listDir(BY_ID).entries| && Aliases(h, h.listDir(BY_ID).entries[i], raw)
                             && StartsWith(h.listDir(BY_ID).entries[i].value, "wwn-"))
            ==> StartsWith(r, BY_ID + "/wwn-") && h.canonicalPath(r) == Some(raw)
    ensures !h.listDir(BY_ID).Listing? ==> r == raw
  {
    var listing := h.listDir(BY_ID);
    var matches := if listing.Listing? then ByIdMatches(h, listing.entries, raw) else [];
    var r := PickPreferred(matches, raw);
    assert |matches| > 0 ==> exists k :: 0 <= k < |matches| && r == BY_ID + "/" + matches[k];
    assert r != raw ==> StartsWith(r, BY_ID + "/") by {
      if |matches| > 0 {
        var k :| 0 <= k < |matches| && r == BY_ID + "/" + matches[k];
        assert r[..|BY_ID + "/"|] == BY_ID + "/";
      }
    }
    assert forall i :: listing.Listing? && 0 <= i < |listing.entries| && Aliases(h, listing.entries[i], raw) ==>
      && StartsWith(r, BY_ID + "/") && h.canonicalPath(r) == Some(raw)
      && (StartsWith(listing.entries[i].value, "wwn-") ==> StartsWith(r, BY_ID + "/wwn-")) by {
      forall i | listing.Listing? && 0 <= i < |listing.entries| && Aliases(h, listing.entries[i], raw)
        ensures StartsWith(r, BY_ID + "/") && h.canonicalPath(r) == Some(raw)
        ensures StartsWith(listing.entries[i].value, "wwn-") ==> StartsWith(r, BY_ID + "/wwn-")
      {
        PickAlias(h, listing.entries, raw, i);
      }
    }
    r
  }

  /**
   * With no `wwn-` alias among the entries, the preferred path is the first
   * entry, in directory order, that resolves to `raw`.
   */
  lemma PreferredPathFirstAlias(h: Host, raw: string, k: nat)
    requires h.listDir(BY_ID).Listing?
    requires var es := h.listDir(BY_ID).entries;
      && k < |es| && Aliases(h, es[k], raw)
      && (forall j :: 0 <= j < k ==> !Aliases(h, es[j], raw))
      && (forall j :: 0 <= j < |es| && Aliases(h, es[j], raw) ==> !StartsWith(es[j].value, "wwn-"))
    ensures PreferredPath(h, raw) == BY_ID + "/" + h.listDir(BY_ID).entries[k].value
  {
    var es := h.listDir(BY_ID).entries;
    var matches := ByIdMatches(h, es, raw);
    ByIdMatchesFirst(h, es, raw, k);
    forall j | 0 <= j < |matches|
      ensures !StartsWith(matches[j], "wwn-")
    {
      assert Some(matches[j]) in es;
      var p :| 0 <= p < |es| && es[p] == Some(matches[j]);
      assert Aliases(h, es[p], raw);
    }
  }

  /** `get_prefered_blk_path` itself: collect the matching aliases, then look for a `wwn-` one. */
  method GetPreferredBlkPath(h: Host, raw: string) returns (r: string)
    ensures r == PreferredPath(h, raw)
  {
    var listing := h.listDir(BY_ID);
    var matches: seq<string> := [];
    if listing.Listing? {
      var es := listing.entries;
      var i := 0;
      while i < |es|
        invariant 0 <= i <= |es|
        invariant matches == ByIdMatches(h, es[..i], raw)
      {
        assert es[..i + 1][..i] == es[..i];
        if es[i].Some? && h.canonicalPath(BY_ID + "/" + es[i].value) == Some(raw) {
          matches := matches + [es[i].value];
        }
        i := i + 1;
      }
      assert es[..i] == es;
    }
    var j := 0;
    while j < |matches|
      invariant 0 <= j <= |matches|
      invariant forall k :: 0 <= k < j ==> !StartsWith(matches[k], "wwn-")
    {
      if StartsWith(matches[j], "wwn-") {
        return BY_ID + "/" + matches[j];
      }
      j := j + 1;
    }
    if |matches| > 0 {
      return BY_ID + "/" + matches[0];
    }
    return raw;
  }

  // ---------------------------------------------------------------------
  // Transport attributes

  /** `scsi_id_of_disk`: the SCSI address the disk's `device` link points at. */
  function ScsiIdOfDisk(h: Host, sd: string): (r: Result<string, PeripetyError>)
    ensures r.Err? ==> r.error.InternalBug?
    ensures r.Ok? <==> h.readLink("/sys/block/" + sd + "/device").Link? && h.readLink("/sys/block/" + sd + "/device").name.Some?
  {
    var path := "/sys/block/" + sd + "/device";
    match h.readLink(path)
      case LinkFailed(reason) =>
        Err(InternalBug("scsi_host_id_of_disk(): Failed to read link " + path + ": " + reason))
      case Link(None) => Err(InternalBug("Failed to query scsi_id of disk " + sd))
      case Link(Some(s)) => Ok(s)
  }

  /**
   * A run of `Sysfs::read` calls inserting each value under its key, in
   * order; the first failing read ends the run with its error.
   */
  function ReadAll(h: Host, pairs: seq<(string, string)>): (r: Result<map<string, string>, PeripetyError>)
    ensures r.Ok? <==> forall i :: 0 <= i < |pairs| ==> h.readFile(pairs[i].1).Ok?
    ensures r.Ok? ==> r.value.Keys == KeysOf(pairs)
  {
    if |pairs| == 0 then Ok(map[])
    else match h.readFile(pairs[0].1)
      case Err(e) => Err(e)
      case Ok(v) =>
        match ReadAll(h, pairs[1..])
          case Err(e) => Err(e)
          case Ok(m) =>
            Ok(map[pairs[0].0 := v] + m)
  }

  /** The keys a run of reads inserts. */
  function KeysOf(pairs: seq<(string, string)>): set<string>
  {
    if |pairs| == 0 then {} else {pairs[0].0} + KeysOf(pairs[1..])
  }

  lemma KeysOfStep(pairs: seq<(string, string)>, i: nat)
    requires i < |pairs|
    ensures KeysOf(pairs[i..]) == {pairs[i].0} + KeysOf(pairs[i + 1..])
  {
    assert pairs[i..][1..] == pairs[i + 1..];
  }

  function IscsiPairs(connDir: string, sessionDir: string): seq<(string, string)>
  {
    [("address", connDir + "/address"), ("port", connDir + "/port"), ("tpgt", sessionDir + "/tpgt"),
     ("target_name", sessionDir + "/targetname"), ("iface_name", sessionDir + "/ifacename")]
  }

  lemma IscsiKeys(connDir: string, sessionDir: string)
    ensures KeysOf(IscsiPairs(connDir, sessionDir)) == {"address", "port", "tpgt", "target_name", "iface_name"}
  {
    var pairs := IscsiPairs(connDir, sessionDir);
    KeysOfStep(pairs, 4); KeysOfStep(pairs, 3); KeysOfStep(pairs, 2);
    KeysOfStep(pairs, 1); KeysOfStep(pairs, 0);
    assert pairs[0..] == pairs && pairs[5..] == [];
  }

  /** `get_iscsi_info`: the five connection and session attributes of the host's iSCSI session. */
  function IscsiInfo(h: Host, hostId: string): (r: Result<map<string, string>, PeripetyError>)
    ensures r.Ok? ==> r.value.Keys == {"address", "port", "tpgt", "target_name", "iface_name"}
    ensures h.iscsiSessionOf(hostId).Err? ==> r == Err(h.iscsiSessionOf(hostId).error)
  {
    match h.iscsiSessionOf(hostId)
      case Err(e) => Err(e)
      case Ok(sid) =>
        var sessionDir := "/sys/class/iscsi_session/session" + sid;
        var connDir := "/sys/class/iscsi_connection/connection" + sid + ":0";
        if !h.pathExists(sessionDir) then
          Err(InternalBug("iSCSI Session dir " + sessionDir + " does not exists"))
        else if !h.pathExists(connDir) then
          Err(InternalBug("iSCSI connection dir " + connDir + " does not exists"))
        else
          IscsiKeys(connDir, sessionDir);
          ReadAll(h, IscsiPairs(connDir, sessionDir))
  }

  function FcPairs(targetDir: string, hostDir: string): seq<(string, string)>
  {
    [("target_wwpn", targetDir + "/port_name"), ("host_wwpn", hostDir + "/port_name"),
     ("speed", hostDir + "/speed"), ("port_state", hostDir + "/port_state")]
  }

  lemma FcKeys(targetDir: string, hostDir: string)
    ensures KeysOf(FcPairs(targetDir, hostDir)) == {"target_wwpn", "host_wwpn", "speed", "port_state"}
  {
    var pairs := FcPairs(targetDir, hostDir);
    KeysOfStep(pairs, 3); KeysOfStep(pairs, 2); KeysOfStep(pairs, 1); KeysOfStep(pairs, 0);
    assert pairs[0..] == pairs && pairs[4..] == [];
  }

  /**
   * `get_fc_info`: the FC host and target attributes. The target is named by
   * the SCSI address up to its last colon; an address without a colon is
   * refused.
   */
  function FcInfo(h: Host, hostId: string, scsiId: string): (r: Result<map<string, string>, PeripetyError>)
    ensures r.Ok? ==> r.value.Keys == {"target_wwpn", "host_wwpn", "speed", "port_state"}
    ensures ':' !in scsiId ==> r == Err(InternalBug("Got invalid scsi_id " + scsiId))
  {
    match ScsiText.FcTargetId(scsiId)
      case None => Err(InternalBug("Got invalid scsi_id " + scsiId))
      case Some(targetId) =>
        var targetDir := "/sys/class/fc_transport/target" + targetId;
        var hostDir := "/sys/class/fc_host/host" + hostId;
        if !h.pathExists(hostDir) then Err(InternalBug("FC host dir " + hostDir + " does not exists"))
        else if !h.pathExists(targetDir) then Err(InternalBug("FC transport dir " + targetDir + " does not exists"))
        else
          FcKeys(targetDir, hostDir);
          ReadAll(h, FcPairs(targetDir, hostDir))
  }

  /** The keys the transport id is formatted from are there for the transport the map names. */
  predicate WellFormedInfo(info: map<string, string>)
  {
    && ("transport" in info && info["transport"] == "iSCSI" ==>
          {"address", "port", "tpgt", "target_name", "iface_name"} <= info.Keys)
    && ("transport" in info && info["transport"] == "FC" ==> {"host_wwpn", "target_wwpn"} <= info.Keys)
  }

  /** The iSCSI or FC attributes added to the driver name, under the transport's name. */
  function WithTransport(driver: string, transport: string, attrs: map<string, string>): (r: map<string, string>)
    requires transport == "iSCSI" ==> attrs.Keys == {"address", "port", "tpgt", "target_name", "iface_name"}
    requires transport == "FC" ==> attrs.Keys == {"target_wwpn", "host_wwpn", "speed", "port_state"}
    requires transport in {"iSCSI", "FC"}
    ensures WellFormedInfo(r) && "driver_name" in r && "transport" in r && r["transport"] == transport
  {
    map["driver_name" := driver, "transport" := transport] + attrs
  }

  /**
   * `get_scsi_transport_info`: the driver name, then the iSCSI or FC
   * attributes when the host is one of those.
   */
  function TransportInfo(h: Host, sd: string): (r: Result<map<string, string>, PeripetyError>)
    ensures r.Ok? ==> WellFormedInfo(r.value) && "driver_name" in r.value
  {
    match ScsiIdOfDisk(h, sd)
      case Err(e) => Err(e)
      case Ok(scsiId) =>
        match ScsiText.ScsiHostId(scsiId)
          case None => Err(InternalBug("Failed to query scsi_host_id of disk " + sd))
          case Some(hostId) =>
            match h.readFile("/sys/class/scsi_host/host" + hostId + "/proc_name")
              case Err(e) => Err(e)
              case Ok(driver) =>
                if h.pathExists("/sys/class/iscsi_host/host" + hostId) then
                  match IscsiInfo(h, hostId)
                    case Err(e) => Err(e)
                    case Ok(m) => Ok(WithTransport(driver, "iSCSI", m))
                else if h.pathExists("/sys/class/fc_host/host" + hostId) then
                  match FcInfo(h, hostId, scsiId)
                    case Err(e) => Err(e)
                    case Ok(m) => Ok(WithTransport(driver, "FC", m))
                else Ok(map["driver_name" := driver])
  }

  /** The `format!` arms of `get_transport_id`. */
  function FormatTransportId(info: map<string, string>): string
    requires WellFormedInfo(info)
  {
    if "transport" !in info then ""
    else if info["transport"] == "iSCSI" then
      Join([info["address"], info["port"], info["tpgt"], info["target_name"], info["iface_name"]], ",")
    else if info["transport"] == "FC" then Join([info["host_wwpn"], info["target_wwpn"]], ",")
    else ""
  }

  /** `get_transport_id`. */
  function GetTransportId(h: Host, sd: string): (r: Result<string, PeripetyError>)
    ensures r.Err? <==> TransportInfo(h, sd).Err?
  {
    match TransportInfo(h, sd)
      case Err(e) => Err(e)
      case Ok(info) => Ok(FormatTransportId(info))
  }

  /**
   * An iSCSI transport id splits at its commas back into address, port,
   * tpgt, target name and interface name, and an FC one into the host and
   * target port names, when no value holds a comma; a host of neither kind
   * has the empty id.
   */
  lemma TransportIdFields(info: map<string, string>)
    requires WellFormedInfo(info)
    ensures "transport" in info && info["transport"] == "iSCSI"
            && (forall k :: k in info ==> ',' !in info[k]) ==>
              Split(FormatTransportId(info), ',')
                == [info["address"], info["port"], info["tpgt"], info["target_name"], info["iface_name"]]
    ensures "transport" in info && info["transport"] == "FC"
            && (forall k :: k in info ==> ',' !in info[k]) ==>
              Split(FormatTransportId(info), ',') == [info["host_wwpn"], info["target_wwpn"]]
    ensures ("transport" !in info || info["transport"] !in {"iSCSI", "FC"}) ==> FormatTransportId(info) == ""
  {
    if "transport" in info && (forall k :: k in info ==> ',' !in info[k]) {
      if info["transport"] == "iSCSI" {
        var parts := [info["address"], info["port"], info["tpgt"], info["target_name"], info["iface_name"]];
        SplitJoin(parts, ',');
      } else if info["transport"] == "FC" {
        SplitJoin([info["host_wwpn"], info["target_wwpn"]], ',');
      }
    }
  }

  // ---------------------------------------------------------------------
  // blk_info_get_scsi: the two descriptors

  /** Where a partition's block file is: under `/dev`, or beside its multipath device. */
  function PartitionPath(h: Host, blk: string, disk: BlkInfo, part: string): (r: Result<string, PeripetyError>)
    ensures disk.blkType != DmMultipath ==> r == Ok("/dev/" + blk)
    ensures disk.blkType == DmMultipath ==>
      (r.Ok? <==> h.pathExists(disk.blkPath + "-part" + part) || h.pathExists(disk.blkPath + part))
      && (r.Ok? ==> h.pathExists(r.value) && r.value in {disk.blkPath + "-part" + part, disk.blkPath + part})
      && (h.pathExists(disk.blkPath + "-part" + part) ==> r == Ok(disk.blkPath + "-part" + part))
    ensures r.Err? ==> r.error.BlockNoExists?
  {
    if disk.blkType != DmMultipath then Ok("/dev/" + blk)
    else if h.pathExists(disk.blkPath + "-part" + part) then Ok(disk.blkPath + "-part" + part)
    else if h.pathExists(disk.blkPath + part) then Ok(disk.blkPath + part)
    else Err(BlockNoExists("Multipath partition file of " + disk.blkPath + " partition " + part
                           + " is missing, please use kpartx to create them"))
  }

  /**
   * The partition descriptor `blk_info_get_scsi` builds from its disk's
   * descriptor: the disk is put in front of the owner lists (the transport
   * ids are left as they are), and the preferred path is the uuid alias when
   * the partition has a uuid.
   */
  function PartitionFrom(h: Host, blk: string, disk: BlkInfo, part: string): (r: Result<BlkInfo, PeripetyError>)
    ensures r.Ok? <==> PartitionPath(h, blk, disk, part).Ok?
    ensures r.Ok? ==>
      && r.value.wwid == disk.wwid + "-part" + part && r.value.blkType == Partition
      && r.value.blkPath == PartitionPath(h, blk, disk, part).value
      && r.value.ownersWwids == [disk.wwid] + disk.ownersWwids
      && r.value.ownersTypes == [disk.blkType] + disk.ownersTypes
      && r.value.ownersPaths == [disk.blkPath] + disk.ownersPaths
      && r.value.ownersTransportIds == disk.ownersTransportIds
      && r.value.mountPoint.None? && r.value.transportId == []
      && (r.value.uuid.Some? <==> h.uuidOf("/dev/" + blk).Ok?)
      && (r.value.uuid.Some? ==> r.value.preferredBlkPath == "/dev/disk/by-uuid/" + r.value.uuid.value)
      && (r.value.uuid.None? ==> r.value.preferredBlkPath == PreferredPath(h, r.value.blkPath))
  {
    var uuid := if h.uuidOf("/dev/" + blk).Ok? then Some(h.uuidOf("/dev/" + blk).value) else None;
    match PartitionPath(h, blk, disk, part)
      case Err(e) => Err(e)
      case Ok(path) =>
        var preferred := if uuid.Some? then "/dev/disk/by-uuid/" + uuid.value else PreferredPath(h, path);
        Ok(BlkInfo(disk.wwid + "-part" + part, Partition, path, preferred,
                   [disk.wwid] + disk.ownersWwids, [disk.blkType] + disk.ownersTypes,
                   [disk.blkPath] + disk.ownersPaths, disk.ownersTransportIds, uuid, None, ""))
  }

  /** Putting the disk in front of its owner lists keeps the wwid and type lists the same length. */
  lemma PartitionKeepsListsParallel(h: Host, blk: string, disk: BlkInfo, part: string)
    requires |disk.ownersWwids| == |disk.ownersTypes| == |disk.ownersPaths|
    requires PartitionFrom(h, blk, disk, part).Ok?
    ensures var p := PartitionFrom(h, blk, disk, part).value;
      |p.ownersWwids| == |p.ownersTypes| == |p.ownersPaths| == |disk.ownersWwids| + 1
      && p.ownersWwids[0] == disk.wwid && p.ownersWwids[1..] == disk.ownersWwids
      && p.ownersPaths[0] == disk.blkPath && p.ownersPaths[1..] == disk.ownersPaths
  {
    var p := PartitionFrom(h, blk, disk, part).value;
    assert p.ownersWwids[1..] == disk.ownersWwids;
    assert p.ownersPaths[1..] == disk.ownersPaths;
  }

  /** The partition branch step by step: the descriptor is filled in, then the disk inserted at index 0. */
  method PartitionInfo(h: Host, blk: string, disk: BlkInfo, part: string) returns (r: Result<BlkInfo, PeripetyError>)
    ensures r == PartitionFrom(h, blk, disk, part)
  {
    var blkPath := "/dev/" + blk;
    var uuidOf := h.uuidOf(blkPath);
    var uuid := if uuidOf.Ok? then Some(uuidOf.value) else None;
    if disk.blkType == DmMultipath {
      blkPath := disk.blkPath + "-part" + part;
      if !h.pathExists(blkPath) {
        blkPath := disk.blkPath + part;
        if !h.pathExists(blkPath) {
          return Err(BlockNoExists("Multipath partition file of " + disk.blkPath + " partition " + part
                                   + " is missing, please use kpartx to create them"));
        }
      }
    }
    var preferred;
    if uuid.Some? {
      preferred := "/dev/disk/by-uuid/" + uuid.value;
    } else {
      preferred := GetPreferredBlkPath(h, blkPath);
    }
    var ret := BlkInfo(disk.wwid + "-part" + part, Partition, blkPath, preferred,
                       disk.ownersWwids, disk.ownersTypes, disk.ownersPaths, disk.ownersTransportIds,
                       uuid, None, "");
    ret := ret.(ownersWwids := [disk.wwid] + ret.ownersWwids);
    ret := ret.(ownersTypes := [disk.blkType] + ret.ownersTypes);
    ret := ret.(ownersPaths := [disk.blkPath] + ret.ownersPaths);
    r := Ok(ret);
  }

  /**
   * The whole-disk branch of `blk_info_get_scsi`: a SCSI address whose
   * `scsi_disk` entry has a wwid is first turned into its disk name, a disk
   * name is used as it is; the wwid file must exist.
   */
  function WholeDisk(h: Host, blk: string): (r: Result<BlkInfo, PeripetyError>)
    ensures r.Ok? ==>
      && r.value.blkType == Scsi
      && r.value.ownersWwids == [] && r.value.ownersTypes == [] && r.value.ownersPaths == []
      && r.value.ownersTransportIds == [] && r.value.uuid.None? && r.value.mountPoint.None?
      && StartsWith(r.value.blkPath, "/dev/")
      && (forall i :: 0 <= i < |r.value.wwid| ==> !ScsiText.IsBlank(r.value.wwid[i]))
      && !EndsWith(r.value.wwid, "\\0")
    ensures !h.pathExists("/sys/class/scsi_disk/" + blk + "/device/wwid") && !h.pathExists("/sys/block/" + blk + "/device/wwid")
            ==> r == Err(InternalBug("scsi::blk_info_get_scsi(): Got invalid scsi blk " + blk))
    ensures h.pathExists("/sys/class/scsi_disk/" + blk + "/device/wwid") && ScsiIdToBlkName(h, blk).Err?
            ==> r == Err(ScsiIdToBlkName(h, blk).error)
    ensures var scsi := h.pathExists("/sys/class/scsi_disk/" + blk + "/device/wwid");
            var path := if scsi then "/sys/class/scsi_disk/" + blk + "/device/wwid" else "/sys/block/" + blk + "/device/wwid";
            (!scsi || ScsiIdToBlkName(h, blk).Ok?) && h.pathExists(path) ==>
              var name := if scsi then ScsiIdToBlkName(h, blk).value else blk;
              && (h.readFile(path).Err? ==> r == Err(h.readFile(path).error))
              && (h.readFile(path).Ok? && GetTransportId(h, name).Err? ==> r == Err(GetTransportId(h, name).error))
              && (h.readFile(path).Ok? && GetTransportId(h, name).Ok? ==>
                    && r.Ok?
                    && r.value.wwid == ScsiText.PrettyWwid(h.readFile(path).value)
                    && r.value.blkPath == "/dev/" + name
                    && r.value.preferredBlkPath == PreferredPath(h, "/dev/" + name)
                    && r.value.transportId == GetTransportId(h, name).value)
  {
    var scsiPath := "/sys/class/scsi_disk/" + blk + "/device/wwid";
    var found: Result<(string, string), PeripetyError> :=
      if h.pathExists(scsiPath) then
        match ScsiIdToBlkName(h, blk)
          case Err(e) => Err(e)
          case Ok(n) => Ok((scsiPath, n))
      else Ok(("/sys/block/" + blk + "/device/wwid", blk));
    match found
      case Err(e) => Err(e)
      case Ok((path, name)) =>
        if !h.pathExists(path) then Err(InternalBug("scsi::blk_info_get_scsi(): Got invalid scsi blk " + blk))
        else match h.readFile(path)
          case Err(e) => Err(e)
          case Ok(raw) =>
            var blkPath := "/dev/" + name;
            match GetTransportId(h, name)
              case Err(e) => Err(e)
              case Ok(tid) =>
                ScsiText.PrettyWwidIsClean(raw);
                assert blkPath[..5] == "/dev/";
                Ok(BlkInfo(ScsiText.PrettyWwid(raw), Scsi, blkPath, PreferredPath(h, blkPath),
                           [], [], [], [], None, None, tid))
  }
}
