/**
 * The `prpt` tool of the older snapshot: which journal events it shows.
 * Unlike the newer tool, every filter here only ever clears the verdict, and
 * the block filter asks whether the event is about the block or lists it
 * among its owners. The `--since` rewriting is the newer tool's, word for
 * word (`Cli.SinceToTimestamp`).
 */
module OldCli {
  import opened Common
  import opened Severity
  import opened OldEvent
  import OldBlkData
  import Cli
  import SdJournal

  datatype CliOpt = CliOpt(
    severity: Option<LogSeverity>,
    subSystems: Option<seq<StorageSubSystem>>,
    eventTypes: Option<seq<string>>,
    since: Option<SdJournal.U64>,
    blkInfo: Option<OldBlkData.BlkInfo>,
    isJson: bool)

  /** The block filter: the event's device is the block, or the block is among the event's owners. */
  predicate BlkPasses(b: OldBlkData.BlkInfo, e: StorageEvent)
  {
    e.devWwid == b.wwid || b.wwid in e.ownersWwids
  }

  /** The verdict of `handle_event`: all four filters pass. */
  predicate Match(e: StorageEvent, opt: CliOpt)
  {
    Cli.SeverityPasses(opt.severity, e.severity)
    && Cli.ListPasses(opt.subSystems, e.subSystem)
    && Cli.ListPasses(opt.eventTypes, e.eventType)
    && (opt.blkInfo.None? || BlkPasses(opt.blkInfo.value, e))
  }

  const NoFilter: CliOpt := CliOpt(None, None, None, None, None, false)

  /**
   * The verdict is the conjunction of the four one-filter verdicts, so the
   * order of the checks does not matter; with no filter everything is
   * shown, and adding a filter never shows more.
   */
  lemma MatchIsConjunction(e: StorageEvent, opt: CliOpt)
    ensures Match(e, opt) <==>
      Match(e, NoFilter.(severity := opt.severity))
      && Match(e, NoFilter.(subSystems := opt.subSystems))
      && Match(e, NoFilter.(eventTypes := opt.eventTypes))
      && Match(e, NoFilter.(blkInfo := opt.blkInfo))
    ensures Match(e, NoFilter)
    ensures Match(e, opt) ==> Match(e, opt.(severity := None)) && Match(e, opt.(subSystems := None))
                              && Match(e, opt.(eventTypes := None)) && Match(e, opt.(blkInfo := None))
  {
  }

  /** The block filter admits the block's own events and the events that name it as an owner, and no others. */
  lemma BlkFilter(e: StorageEvent, b: OldBlkData.BlkInfo)
    ensures Match(e, NoFilter.(blkInfo := Some(b))) <==>
      e.devWwid == b.wwid || exists k :: 0 <= k < |e.ownersWwids| && e.ownersWwids[k] == b.wwid
  {
  }

  function DisplayMessage(e: StorageEvent): (r: string)
    ensures r == e.msg || r == e.rawMsg
    ensures e.msg != "" ==> r == e.msg
    ensures e.msg == "" ==> r == e.rawMsg
  {
    if e.msg != "" then e.msg else e.rawMsg
  }

  /** `handle_event`: the flag starts set and each failing filter clears it. */
  method HandleEvent(e: StorageEvent, opt: CliOpt) returns (shown: Option<string>)
    ensures shown.Some? <==> Match(e, opt)
    ensures shown.Some? ==> shown.value == DisplayMessage(e)
  {
    var isMatch := true;
    if opt.severity.Some? {
      if Below(opt.severity.value, e.severity) {
        isMatch := false;
      }
    }
    if opt.subSystems.Some? {
      if |opt.subSystems.value| != 0 && e.subSystem !in opt.subSystems.value {
        isMatch := false;
      }
    }
    if opt.eventTypes.Some? {
      if |opt.eventTypes.value| != 0 && e.eventType !in opt.eventTypes.value {
        isMatch := false;
      }
    }
    if opt.blkInfo.Some? {
      var b := opt.blkInfo.value;
      if e.devWwid != b.wwid && b.wwid !in e.ownersWwids {
        isMatch := false;
      }
    }
    if isMatch {
      var msg := if e.msg != "" then e.msg else e.rawMsg;
      shown := Some(msg);
    } else {
      shown := None;
    }
  }
}
