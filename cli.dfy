/**
 * The `prpt` command line tool of the newer snapshot: which journal events
 * it shows (`handle_event`), how a `--blk` argument is found (`is_match`,
 * `get_blk_info`), how `--since` is turned into a journal time stamp, and
 * the lines `info` prints for a block. A failure the tool reports with
 * `quit_with_msg` is an `Err` carrying that message.
 */
module Cli {
  import opened Common
  import opened Severity
  import opened Errors
  import opened Event
  import Blk
  import SdJournal

  /** The parsed command line; the time stamp is already in journal microseconds. */
  datatype CliOpt = CliOpt(
    severity: Option<LogSeverity>,
    subSystems: Option<seq<StorageSubSystem>>,
    eventTypes: Option<seq<string>>,
    since: Option<SdJournal.U64>,
    blkInfo: Option<Blk.BlkInfo>,
    isJson: bool,
    needNotify: bool)

  // ---------------------------------------------------------------------
  // handle_event

  /** A threshold admits every severity up to it: `l < severity` rejects. */
  predicate SeverityPasses(threshold: Option<LogSeverity>, s: LogSeverity)
  {
    threshold.None? || !Below(threshold.value, s)
  }

  /** An absent or empty list admits everything; otherwise the value must be listed. */
  predicate ListPasses<T(==)>(list: Option<seq<T>>, x: T)
  {
    list.None? || |list.value| == 0 || x in list.value
  }

  /** The block filter: the event is about the block itself or about one of its owners. */
  predicate BlkPasses(b: Blk.BlkInfo, e: StorageEvent)
  {
    e.blkInfo.wwid == b.wwid || exists k :: 0 <= k < |b.owners| && b.owners[k].wwid == e.blkInfo.wwid
  }

  /** The severity, subsystem and event type filters together. */
  predicate FiltersPass(e: StorageEvent, opt: CliOpt)
  {
    SeverityPasses(opt.severity, e.severity)
    && ListPasses(opt.subSystems, e.subSystem)
    && ListPasses(opt.eventTypes, e.eventType)
  }

  /**
   * The verdict of `handle_event` as written: with a block filter, the flag
   * is reset and decided by the block alone, whatever the earlier filters
   * said.
   */
  predicate MatchAsWritten(e: StorageEvent, opt: CliOpt)
  {
    if opt.blkInfo.Some? then BlkPasses(opt.blkInfo.value, e) else FiltersPass(e, opt)
  }

  /** The evidently intended verdict: every filter given must pass. */
  predicate Selected(e: StorageEvent, opt: CliOpt)
  {
    FiltersPass(e, opt) && (opt.blkInfo.None? || BlkPasses(opt.blkInfo.value, e))
  }

  /** The threshold admits exactly the severities whose level is not above its own; `Unknown` never passes one. */
  lemma SeverityThreshold(l: LogSeverity, s: LogSeverity)
    ensures SeverityPasses(Some(l), s) <==> Level(s) <= Level(l)
    ensures s == LogSeverity.Unknown && l != LogSeverity.Unknown ==> !SeverityPasses(Some(l), s)
  {
    BelowIsStrictTotalOrder(l, s, s);
  }

  /**
   * As written, the block filter overrides the others: asking for errors of
   * a block still shows that block's debug messages.
   */
  lemma BlkFilterOverrides(e: StorageEvent, b: Blk.BlkInfo)
    requires e.severity == Debug && e.blkInfo.wwid == b.wwid
    ensures var opt := CliOpt(Some(Error), None, None, None, Some(b), false, false);
      MatchAsWritten(e, opt) && !Selected(e, opt)
  {
  }

  /** With a block filter the written verdict ignores severity, subsystem and type altogether. */
  lemma AsWrittenIgnoresFilters(e: StorageEvent, opt: CliOpt)
    requires opt.blkInfo.Some?
    ensures MatchAsWritten(e, opt) <==> MatchAsWritten(e, opt.(severity := None, subSystems := None, eventTypes := None))
  {
  }

  /**
   * The intended verdict never shows more than the written one, agrees with
   * it without a block filter, and only narrows when a filter is added.
   */
  lemma SelectedNarrows(e: StorageEvent, opt: CliOpt)
    ensures Selected(e, opt) ==> MatchAsWritten(e, opt)
    ensures opt.blkInfo.None? ==> (Selected(e, opt) <==> MatchAsWritten(e, opt))
    ensures Selected(e, opt) ==> Selected(e, opt.(blkInfo := None))
    ensures Selected(e, opt) ==> Selected(e, opt.(severity := None))
    ensures Selected(e, opt) ==> Selected(e, opt.(subSystems := None)) && Selected(e, opt.(eventTypes := None))
    ensures opt.blkInfo.Some? ==>
      (Selected(e, opt) <==> Selected(e, opt.(blkInfo := None)) && Selected(e, opt.(severity := None, subSystems := None, eventTypes := None)))
  {
  }

  /** The text shown and notified: the parsed message, or the raw one when there is none. */
  function DisplayMessage(e: StorageEvent): (r: string)
    ensures r == e.msg || r == e.rawMsg
    ensures r == "" ==> e.msg == "" && e.rawMsg == ""
    ensures e.msg != "" ==> r == e.msg
  {
    if e.msg != "" then e.msg else e.rawMsg
  }

  /**
   * `handle_event` as written: the flag cleared filter by filter, then reset
   * and re-decided by the block filter, whose owner search stops at the first
   * owner with the event's wwid. The text of a shown event is returned;
   * printing and notification are left out.
   */
  method HandleEvent(e: StorageEvent, opt: CliOpt) returns (shown: Option<string>)
    ensures shown.Some? <==> MatchAsWritten(e, opt)
    ensures shown.Some? ==> shown.value == DisplayMessage(e)
  {
    var isMatch := true;
    if opt.severity.Some? {
      if Below(opt.severity.value, e.severity) {
        isMatch := false;
      }
    }
    if opt.subSystems.Some? {
      if |opt.subSystems.value| != 0 && e.subSystem !in opt.subSystems.value {
        isMatch := false;
      }
    }
    if opt.eventTypes.Some? {
      if |opt.eventTypes.value| != 0 && e.eventType !in opt.eventTypes.value {
        isMatch := false;
      }
    }
    assert opt.blkInfo.None? ==> (isMatch <==> FiltersPass(e, opt));
    if opt.blkInfo.Some? {
      var b := opt.blkInfo.value;
      isMatch := false;
      if e.blkInfo.wwid == b.wwid {
        isMatch := true;
      } else {
        var k := 0;
        while k < |b.owners|
          invariant 0 <= k <= |b.owners|
          invariant !isMatch
          invariant forall j :: 0 <= j < k ==> b.owners[j].wwid != e.blkInfo.wwid
        {
          if b.owners[k].wwid == e.blkInfo.wwid {
            isMatch := true;
            break;
          }
          k := k + 1;
        }
      }
    }
    if isMatch {
      var msg := if e.msg != "" then e.msg else e.rawMsg;
      shown := Some(msg);
    } else {
      shown := None;
    }
  }

  // ---------------------------------------------------------------------
  // --since

  /** `time_str_to_u64`: the parsed local time in microseconds, or nothing. */
  function TimeStr(t: string, clock: Clock): (r: Option<SdJournal.U64>)
    ensures r.Some? <==> clock.parseLocal(t).Some?
    ensures r.Some? ==> Event.TimeStrToU64(t, clock) == Ok(r.value)
  {
    match clock.parseLocal(t)
      case Some(lt) => Some(WrapU64(lt.secs * USEC_PER_SEC + lt.micros))
      case None => None
  }

  /**
   * `since_cliopt_to_journald_timestamp`: the lower-case keywords give
   * midnight of today or yesterday, a text with a ':' is parsed as given,
   * and any other text is taken as a date at midnight.
   */
  function SinceToTimestamp(since: string, clock: Clock): (r: Option<SdJournal.U64>)
  {
    if since == "today" then TimeStr(Midnight(clock.today), clock)
    else if since == "yesterday" then TimeStr(Midnight(clock.yesterday), clock)
    else if ':' in since then TimeStr(since, clock)
    else TimeStr(since + " 00:00:00", clock)
  }

  /**
   * The keywords are exact: any other spelling is read as a date. Each text
   * is parsed once, with midnight appended unless it holds a ':'; the result
   * agrees with the library's own reading of the same text.
   */
  lemma SinceRules(since: string, clock: Clock)
    ensures since == "today" ==> SinceToTimestamp(since, clock) == TimeStr(Midnight(clock.today), clock)
    ensures since == "yesterday" ==> SinceToTimestamp(since, clock) == TimeStr(Midnight(clock.yesterday), clock)
    ensures since == "TODAY" ==> SinceToTimestamp(since, clock) == TimeStr("TODAY 00:00:00", clock)
    ensures since != "today" && since != "yesterday" && ':' in since ==>
      SinceToTimestamp(since, clock) == TimeStr(since, clock)
    ensures since != "today" && since != "yesterday" && ':' !in since ==>
      SinceToTimestamp(since, clock) == SinceToTimestamp(since + " 00:00:00", clock)
    ensures since == "today" ==> (SinceToTimestamp(since, clock).Some? <==> Event.SinceToTimestamp(since, clock).Ok?)
  {
    var full := since + " 00:00:00";
    assert full[|since| + 3] == ':';
    assert full != "today" && full != "yesterday" by {
      assert full[|full| - 1] == '0';
    }
    if since == "today" {
      assert ToUpper(since) == "TODAY";
    }
    if since == "TODAY" {
      assert forall i :: 0 <= i < |since| ==> since[i] != ':';
      assert full == "TODAY 00:00:00";
    }
  }

  // ---------------------------------------------------------------------
  // --blk

  /** `is_match`: the argument is the block's wwid or its mount point. */
  predicate IsMatch(blk: string, info: Blk.BlkInfo)
  {
    info.wwid == blk || info.mountPoint == Some(blk)
  }

  /** A listed block answers the argument itself or through one of its direct owners. */
  predicate Answers(blk: string, info: Blk.BlkInfo)
  {
    IsMatch(blk, info) || exists k :: 0 <= k < |info.owners| && IsMatch(blk, info.owners[k])
  }

  /** The search over the listing: the first block that answers, as listed (never the owner itself). */
  function FindBlk(blk: string, infos: seq<Blk.BlkInfo>): Option<Blk.BlkInfo>
  {
    if |infos| == 0 then None
    else if Answers(blk, infos[0]) then Some(infos[0])
    else FindBlk(blk, infos[1..])
  }

  /**
   * The search finds a block exactly when some listed block answers, and
   * then it is the first such block.
   */
  lemma {:induction false} FindBlkFirst(blk: string, infos: seq<Blk.BlkInfo>)
    ensures FindBlk(blk, infos).None? <==> forall i :: 0 <= i < |infos| ==> !Answers(blk, infos[i])
    ensures FindBlk(blk, infos).Some? ==>
      exists i :: 0 <= i < |infos| && FindBlk(blk, infos).value == infos[i] && Answers(blk, infos[i])
                  && forall j :: 0 <= j < i ==> !Answers(blk, infos[j])
  {
    if |infos| > 0 && !Answers(blk, infos[0]) {
      FindBlkFirst(blk, infos[1..]);
      var rest := infos[1..];
      if FindBlk(blk, rest).Some? {
        var i :| 0 <= i < |rest| && FindBlk(blk, rest).value == rest[i] && Answers(blk, rest[i])
                 && forall j :: 0 <= j < i ==> !Answers(blk, rest[j]);
        assert infos[i + 1] == rest[i];
        forall j | 0 <= j < i + 1
          ensures !Answers(blk, infos[j])
        {
          if j > 0 {
            assert infos[j] == rest[j - 1];
          }
        }
      }
      forall i | 1 <= i < |infos|
        ensures infos[i] == rest[i - 1]
      {
      }
    }
  }

  /**
   * `get_blk_info`: a "/dev" path is resolved with `BlkInfo::new`; anything
   * else is searched for in `BlkInfo::list`. Every failure ends the tool
   * with a message.
   */
  function GetBlkInfo(h: Blk.Host, blk: string, fuel: nat): (r: Result<Blk.BlkInfo, string>)
  {
    if StartsWith(blk, "/dev") then
      match Blk.New(h, blk, fuel)
        case Ok(i) => Ok(i)
        case Err(e) => Err(Display(e))
    else
      match Blk.ListSpec(h, fuel)
        case Err(e) => Err(Display(e))
        case Ok(infos) =>
          match FindBlk(blk, infos)
            case Some(i) => Ok(i)
            case None => Err("Specified block not found")
  }

  /**
   * A found block is either the resolved "/dev" path or a listed block that
   * answers the argument; "Specified block not found" means no listed block
   * answers it.
   */
  lemma GetBlkInfoFinds(h: Blk.Host, blk: string, fuel: nat)
    ensures !StartsWith(blk, "/dev") && GetBlkInfo(h, blk, fuel).Ok? ==>
      Blk.ListSpec(h, fuel).Ok? && GetBlkInfo(h, blk, fuel).value in Blk.ListSpec(h, fuel).value
      && Answers(blk, GetBlkInfo(h, blk, fuel).value)
    ensures !StartsWith(blk, "/dev") && GetBlkInfo(h, blk, fuel) == Err("Specified block not found") ==>
      (Blk.ListSpec(h, fuel).Ok? && forall i :: 0 <= i < |Blk.ListSpec(h, fuel).value| ==> !Answers(blk, Blk.ListSpec(h, fuel).value[i]))
      || (Blk.ListSpec(h, fuel).Err? && Blk.ListSpec(h, fuel).error.msg == "Specified block not found")
    ensures StartsWith(blk, "/dev") ==> (GetBlkInfo(h, blk, fuel).Ok? <==> Blk.New(h, blk, fuel).Ok?)
  {
    if !StartsWith(blk, "/dev") && Blk.ListSpec(h, fuel).Ok? {
      FindBlkFirst(blk, Blk.ListSpec(h, fuel).value);
    }
  }

  /** The loop over the listing and each listed block's owners, returning at the first match. */
  method SearchListing(blk: string, infos: seq<Blk.BlkInfo>) returns (r: Option<Blk.BlkInfo>)
    ensures r == FindBlk(blk, infos)
  {
    var i := 0;
    while i < |infos|
      invariant 0 <= i <= |infos|
      invariant FindBlk(blk, infos) == FindBlk(blk, infos[i..])
    {
      var info := infos[i];
      assert infos[i..][0] == info && infos[i..][1..] == infos[i + 1..];
      if info.wwid == blk || (info.mountPoint.Some? && info.mountPoint.value == blk) {
        return Some(info);
      }
      var k := 0;
      while k < |info.owners|
        invariant 0 <= k <= |info.owners|
        invariant forall j :: 0 <= j < k ==> !IsMatch(blk, info.owners[j])
      {
        var o := info.owners[k];
        if o.wwid == blk || (o.mountPoint.Some? && o.mountPoint.value == blk) {
          return Some(info);
        }
        k := k + 1;
      }
      i := i + 1;
    }
    r := None;
  }

  /** `get_blk_info` itself. */
  method GetBlkInfoOf(h: Blk.Host, blk: string, fuel: nat) returns (r: Result<Blk.BlkInfo, string>)
    ensures r == GetBlkInfo(h, blk, fuel)
  {
    if StartsWith(blk, "/dev") {
      var found := Blk.NewBlkInfo(h, blk, fuel);
      if found.Ok? {
        return Ok(found.value);
      }
      return Err(Display(found.error));
    }
    var listed := Blk.List(h, fuel);
    if listed.Err? {
      return Err(Display(listed.error));
    }
    var found := SearchListing(blk, listed.value);
    if found.Some? {
      return Ok(found.value);
    }
    r := Err("Specified block not found");
  }

  // ---------------------------------------------------------------------
  // The `info` listing

  /** The position of the last '/', if any. */
  function LastSlash(s: string): (r: Option<nat>)
    ensures r.None? <==> '/' !in s
    ensures r.Some? ==> r.value < |s| && s[r.value] == '/' && '/' !in s[r.value + 1..]
  {
    if |s| == 0 then None
    else if s[|s| - 1] == '/' then Some(|s| - 1)
    else
      var init := s[..|s| - 1];
      var r := LastSlash(init);
      assert s == init + [s[|s| - 1]];
      if r.None? then None
      else
        assert s[r.value] == init[r.value];
        assert s[r.value + 1..] == init[r.value + 1..] + [s[|s| - 1]];
        r
  }

  /** The name a simple listing shows: the text after the last '/', or nothing without one. */
  function Basename(path: string): (r: Option<string>)
    ensures r.None? <==> '/' !in path
    ensures r.Some? ==> '/' !in r.value && exists k :: 0 <= k < |path| && path[k] == '/' && path[k + 1..] == r.value
  {
    match LastSlash(path)
      case None => None
      case Some(l) => Some(path[l + 1..])
  }

  /** The block's own lines: one line in a simple listing (none without a '/'), seven otherwise. */
  function OwnLines(i: Blk.BlkInfo, isSimple: bool, prefix: string): (r: seq<string>)
    ensures isSimple ==> |r| <= 1 && (|r| == 1 <==> '/' in i.blkPath)
    ensures !isSimple ==> |r| == 7
  {
    if isSimple then
      match Basename(i.blkPath)
        case None => []
        case Some(b) =>
          if i.mountPoint.Some? then [prefix + b + " : " + i.wwid + " : " + i.mountPoint.value]
          else [prefix + b + " : " + i.wwid]
    else
      [prefix + "blk_path     : " + i.blkPath,
       prefix + "preferred    : " + i.preferredBlkPath,
       prefix + "blk_type     : " + Blk.TypeName(i.blkType),
       prefix + "wwid         : " + i.wwid,
       prefix + "transport_id : " + i.transportId,
       prefix + "uuid         : " + (if i.uuid.Some? then i.uuid.value else ""),
       prefix + "mount_point  : " + (if i.mountPoint.Some? then i.mountPoint.value else "")]
  }

  /**
   * `to_stdout_blk_info` as text lines (JSON text comes from the
   * serialiser): owners are listed, indented, only below a block printed
   * without prefix.
   */
  function ShowBlk(i: Blk.BlkInfo, isJson: bool, isSimple: bool, prefix: string, toJson: Blk.BlkInfo -> string)
    : seq<string>
    decreases i, 1
  {
    if isJson then [toJson(i)]
    else
      OwnLines(i, isSimple, prefix)
      + if prefix == "" && |i.owners| > 0 then
          (if isSimple then [] else ["owners       :"]) + ShowOwners(i, i.owners, isSimple, toJson)
        else []
  }

  function ShowOwners(parent: Blk.BlkInfo, owners: seq<Blk.BlkInfo>, isSimple: bool, toJson: Blk.BlkInfo -> string)
    : seq<string>
    requires forall k :: 0 <= k < |owners| ==> owners[k] in parent.owners
    decreases parent, 0, |owners|
  {
    if |owners| == 0 then []
    else
      ShowOwners(parent, owners[..|owners| - 1], isSimple, toJson)
      + ShowBlk(owners[|owners| - 1], false, isSimple, "  ", toJson)
      + (if isSimple then [] else [""])
  }

  /**
   * Recursion stops at depth one: below a top-level block each owner prints
   * only its own lines, indented by two spaces, so a simple listing has at
   * most one line per block and per direct owner.
   */
  lemma {:induction false} ShowOwnersLines(parent: Blk.BlkInfo, owners: seq<Blk.BlkInfo>, isSimple: bool,
                                           toJson: Blk.BlkInfo -> string)
    requires forall k :: 0 <= k < |owners| ==> owners[k] in parent.owners
    ensures isSimple ==> |ShowOwners(parent, owners, isSimple, toJson)| <= |owners|
    ensures !isSimple ==> |ShowOwners(parent, owners, isSimple, toJson)| == 8 * |owners|
    ensures forall l :: l in ShowOwners(parent, owners, isSimple, toJson) ==> l == "" || StartsWith(l, "  ")
    decreases |owners|
  {
    if |owners| > 0 {
      var init := owners[..|owners| - 1];
      var o := owners[|owners| - 1];
      ShowOwnersLines(parent, init, isSimple, toJson);
      var own := OwnLines(o, isSimple, "  ");
      assert ShowBlk(o, false, isSimple, "  ", toJson) == own;
      forall l | l in own
        ensures StartsWith(l, "  ")
      {
        var j :| 0 <= j < |own| && own[j] == l;
        OwnLinesPrefixed(o, isSimple, "  ", j);
      }
    }
  }

  lemma OwnLinesPrefixed(i: Blk.BlkInfo, isSimple: bool, prefix: string, j: nat)
    requires j < |OwnLines(i, isSimple, prefix)|
    ensures StartsWith(OwnLines(i, isSimple, prefix)[j], prefix)
  {
    var l := OwnLines(i, isSimple, prefix)[j];
    assert l[..|prefix|] == prefix;
  }

  /** The simple listing of a top-level block: at most one line for it and one per direct owner. */
  lemma SimpleListingSize(i: Blk.BlkInfo, toJson: Blk.BlkInfo -> string)
    ensures |ShowBlk(i, false, true, "", toJson)| <= 1 + |i.owners|
    ensures |ShowBlk(i, false, false, "", toJson)| == 7 + (if |i.owners| > 0 then 1 + 8 * |i.owners| else 0)
  {
    ShowOwnersLines(i, i.owners, true, toJson);
    ShowOwnersLines(i, i.owners, false, toJson);
  }
}
