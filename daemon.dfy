/**
 * The newer daemon: the journal record `send_to_journald` writes, the
 * settings loop of `handle_events_from_parsers`, the events
 * `dump_blk_infos` announces at start, and the SCSI and file-system
 * parsers, which now work on the library's `BlkInfo`. Block lookups are the
 * library's `new_skip_extra` (the SCSI parser) and `new` (the file-system
 * parser) over a `Blk.Host`. An event a parser drops is `None`.
 */
module Daemon {
  import opened Common
  import opened Severity
  import opened Errors
  import opened Event
  import opened JournalRecord
  import Blk
  import Routing
  import ScsiText

  // ---------------------------------------------------------------------
  // send_to_journald

  /** Two fields per owner, its wwid and then its path, owner after owner. */
  function OwnerFields(owners: seq<Blk.BlkInfo>): (r: seq<(string, string)>)
    ensures |r| == 2 * |owners|
  {
    if |owners| == 0 then []
    else
      var last := owners[|owners| - 1];
      OwnerFields(owners[..|owners| - 1]) + [("OWNERS_WWIDS", last.wwid), ("OWNERS_PATHS", last.blkPath)]
  }

  /** The `k`-th owner's fields sit at positions `2k` and `2k + 1`. */
  lemma {:induction false} OwnerFieldsAt(owners: seq<Blk.BlkInfo>, k: nat)
    requires k < |owners|
    ensures OwnerFields(owners)[2 * k] == ("OWNERS_WWIDS", owners[k].wwid)
    ensures OwnerFields(owners)[2 * k + 1] == ("OWNERS_PATHS", owners[k].blkPath)
    decreases |owners|
  {
    var init := owners[..|owners| - 1];
    if k < |owners| - 1 {
      OwnerFieldsAt(init, k);
      assert init[k] == owners[k];
    }
  }

  /** 1 when the record carries a MESSAGE field, 0 otherwise. */
  function MessageCount(e: StorageEvent): nat
  {
    if e.msg != "" then 1 else 0
  }

  /** The fields before the owners: MESSAGE only when there is a message. */
  function Head(e: StorageEvent): seq<(string, string)>
  {
    [("IS_PERIPETY", "TRUE"), ("PRIORITY", NatToString(Level(e.severity)))]
    + (if e.msg != "" then [("MESSAGE", e.msg)] else [])
    + [("DEV_WWID", e.blkInfo.wwid), ("DEV_PATH", e.blkInfo.blkPath)]
  }

  function Tail(e: StorageEvent, json: string): seq<(string, string)>
  {
    [("EVENT_TYPE", e.eventType), ("EVENT_ID", e.eventId), ("SUB_SYSTEM", SubSystemName(e.subSystem)), ("JSON", json)]
  }

  /**
   * The record `send_to_journald` hands to the journal, given the
   * extension's iteration order and the event's JSON text.
   */
  function JournalFields(e: StorageEvent, keys: seq<string>, json: string): seq<(string, string)>
    requires KeyOrder(keys, e.extension)
  {
    Head(e) + OwnerFields(e.blkInfo.owners) + ExtFields(keys, e.extension) + Tail(e, json)
  }

  /**
   * The record holds 8 + [msg ≠ ""] + 2·|owners| + |extension| fields. It
   * opens with IS_PERIPETY and the numeric PRIORITY; MESSAGE comes third
   * exactly when the message is not empty; each owner gives an OWNERS_WWIDS
   * field directly followed by its OWNERS_PATHS field; the extension follows,
   * and EVENT_TYPE, EVENT_ID, SUB_SYSTEM and JSON close it.
   */
  lemma JournalShape(e: StorageEvent, keys: seq<string>, json: string)
    requires KeyOrder(keys, e.extension)
    ensures var r := JournalFields(e, keys, json);
      |r| == 8 + MessageCount(e) + 2 * |e.blkInfo.owners| + |e.extension|
    ensures var r := JournalFields(e, keys, json);
      r[0] == ("IS_PERIPETY", "TRUE") && r[1] == ("PRIORITY", NatToString(Level(e.severity)))
    ensures var r := JournalFields(e, keys, json);
      (e.msg != "" ==> r[2] == ("MESSAGE", e.msg)) && (e.msg == "" ==> r[2] == ("DEV_WWID", e.blkInfo.wwid))
    ensures var r := JournalFields(e, keys, json); var o := e.blkInfo.owners;
      forall k :: 0 <= k < |o| ==>
        r[4 + MessageCount(e) + 2 * k] == ("OWNERS_WWIDS", o[k].wwid)
        && r[4 + MessageCount(e) + 2 * k + 1] == ("OWNERS_PATHS", o[k].blkPath)
    ensures var r := JournalFields(e, keys, json);
      forall i :: 0 <= i < |keys| ==>
        r[4 + MessageCount(e) + 2 * |e.blkInfo.owners| + i] == ("EXT_" + ToUpper(keys[i]), e.extension[keys[i]])
    ensures var r := JournalFields(e, keys, json);
      |r| >= 4 && r[|r| - 4..] == Tail(e, json)
  {
    KeyOrderLength(keys, e.extension);
    var r := JournalFields(e, keys, json);
    var h := Head(e);
    var d := h + OwnerFields(e.blkInfo.owners) + ExtFields(keys, e.extension);
    assert r == d + Tail(e, json);
    assert |h| == 4 + MessageCount(e);
    assert r[0] == d[0] == h[0] && r[1] == d[1] == h[1] && r[2] == d[2] == h[2];
    JournalOwners(e, keys, json);
    JournalExtension(e, keys, json);
  }

  lemma JournalOwners(e: StorageEvent, keys: seq<string>, json: string)
    requires KeyOrder(keys, e.extension)
    ensures var r := JournalFields(e, keys, json); var o := e.blkInfo.owners;
      forall k :: 0 <= k < |o| ==>
        r[4 + MessageCount(e) + 2 * k] == ("OWNERS_WWIDS", o[k].wwid)
        && r[4 + MessageCount(e) + 2 * k + 1] == ("OWNERS_PATHS", o[k].blkPath)
  {
    var r := JournalFields(e, keys, json);
    var o := e.blkInfo.owners;
    var h := Head(e);
    var ow := OwnerFields(o);
    var a := h + ow;
    assert r == a + (ExtFields(keys, e.extension) + Tail(e, json));
    assert |h| == 4 + MessageCount(e);
    forall k | 0 <= k < |o|
      ensures r[|h| + 2 * k] == ("OWNERS_WWIDS", o[k].wwid)
      ensures r[|h| + 2 * k + 1] == ("OWNERS_PATHS", o[k].blkPath)
    {
      OwnerFieldsAt(o, k);
      assert r[|h| + 2 * k] == a[|h| + 2 * k] == ow[2 * k];
      assert r[|h| + 2 * k + 1] == a[|h| + 2 * k + 1] == ow[2 * k + 1];
    }
  }

  lemma JournalExtension(e: StorageEvent, keys: seq<string>, json: string)
    requires KeyOrder(keys, e.extension)
    ensures var r := JournalFields(e, keys, json);
      forall i :: 0 <= i < |keys| ==>
        r[4 + MessageCount(e) + 2 * |e.blkInfo.owners| + i] == ("EXT_" + ToUpper(keys[i]), e.extension[keys[i]])
  {
    var r := JournalFields(e, keys, json);
    var a := Head(e) + OwnerFields(e.blkInfo.owners);
    var ex := ExtFields(keys, e.extension);
    var d := a + ex;
    assert r == d + Tail(e, json);
    assert |a| == 4 + MessageCount(e) + 2 * |e.blkInfo.owners|;
    forall i | 0 <= i < |keys|
      ensures r[|a| + i] == ("EXT_" + ToUpper(keys[i]), e.extension[keys[i]])
    {
      assert r[|a| + i] == d[|a| + i] == ex[i];
    }
  }

  predicate HasMessage(fields: seq<(string, string)>)
  {
    exists i :: 0 <= i < |fields| && fields[i].0 == "MESSAGE"
  }

  lemma {:induction false} OwnerFieldsNames(owners: seq<Blk.BlkInfo>)
    ensures forall i :: 0 <= i < |OwnerFields(owners)| ==>
      OwnerFields(owners)[i].0 == "OWNERS_WWIDS" || OwnerFields(owners)[i].0 == "OWNERS_PATHS"
  {
    if |owners| > 0 {
      OwnerFieldsNames(owners[..|owners| - 1]);
    }
  }

  /** MESSAGE is among the fields exactly when the message is not empty. */
  lemma JournalMessage(e: StorageEvent, keys: seq<string>, json: string)
    requires KeyOrder(keys, e.extension)
    ensures HasMessage(JournalFields(e, keys, json)) <==> e.msg != ""
  {
    var r := JournalFields(e, keys, json);
    if e.msg != "" {
      assert r[2].0 == "MESSAGE";
    } else {
      var ow := OwnerFields(e.blkInfo.owners);
      var ex := ExtFields(keys, e.extension);
      OwnerFieldsNames(e.blkInfo.owners);
      forall i | 0 <= i < |ex|
        ensures ex[i].0 != "MESSAGE"
      {
        assert ex[i].0[1] == 'X';
      }
      assert !HasMessage(Head(e));
      assert !HasMessage(ow);
      assert !HasMessage(ex);
      assert !HasMessage(Tail(e, json));
      NoMessageConcat(Head(e), ow);
      NoMessageConcat(Head(e) + ow, ex);
      NoMessageConcat(Head(e) + ow + ex, Tail(e, json));
    }
  }

  lemma NoMessageConcat(a: seq<(string, string)>, b: seq<(string, string)>)
    requires !HasMessage(a) && !HasMessage(b)
    ensures !HasMessage(a + b)
  {
    forall i | 0 <= i < |a + b|
      ensures (a + b)[i].0 != "MESSAGE"
    {
      if i >= |a| {
        assert (a + b)[i] == b[i - |a|];
      }
    }
  }

  /** `send_to_journald`: the record built push by push. */
  method SendToJournald(e: StorageEvent, keys: seq<string>, json: string) returns (logs: seq<(string, string)>)
    requires KeyOrder(keys, e.extension)
    ensures logs == JournalFields(e, keys, json)
  {
    logs := [("IS_PERIPETY", "TRUE")];
    logs := logs + [("PRIORITY", NatToString(Level(e.severity)))];
    if e.msg != "" {
      logs := logs + [("MESSAGE", e.msg)];
    }
    logs := logs + [("DEV_WWID", e.blkInfo.wwid)];
    logs := logs + [("DEV_PATH", e.blkInfo.blkPath)];
    assert logs == Head(e);
    var owners := e.blkInfo.owners;
    var i := 0;
    while i < |owners|
      invariant 0 <= i <= |owners|
      invariant logs == Head(e) + OwnerFields(owners[..i])
    {
      assert owners[..i + 1][..i] == owners[..i];
      logs := logs + [("OWNERS_WWIDS", owners[i].wwid)];
      logs := logs + [("OWNERS_PATHS", owners[i].blkPath)];
      i := i + 1;
    }
    assert owners[..i] == owners;
    logs := PushExtension(logs, keys, e.extension);
    logs := logs + [("EVENT_TYPE", e.eventType)];
    logs := logs + [("EVENT_ID", e.eventId)];
    logs := logs + [("SUB_SYSTEM", SubSystemName(e.subSystem))];
    logs := logs + [("JSON", json)];
  }

  // ---------------------------------------------------------------------
  // Settings and forwarding

  /** The `[main]` settings a configuration reload delivers. */
  datatype ConfMain = ConfMain(notifyStdout: Option<bool>, saveToJournald: Option<bool>)

  datatype Flags = Flags(notifyStdout: bool, saveToJournald: bool)

  /** A reload: each setting takes the configured value, or its default when absent. */
  function ApplyConf(conf: ConfMain): (r: Flags)
    ensures r.notifyStdout <==> conf.notifyStdout == Some(true)
    ensures !r.saveToJournald <==> conf.saveToJournald == Some(false)
  {
    Flags(if conf.notifyStdout.Some? then conf.notifyStdout.value else false,
          if conf.saveToJournald.Some? then conf.saveToJournald.value else true)
  }

  /** The loop starts from the defaults: no stdout, and journald on. */
  const InitialFlags: Flags := Flags(false, true)

  lemma InitialFlagsAreDefaults()
    ensures ApplyConf(ConfMain(None, None)) == InitialFlags
  {
  }

  /** One turn of the loop: perhaps a reload, then an event or a receive error. */
  datatype Step = Step(conf: Option<ConfMain>, event: Option<StorageEvent>)

  /** What the loop does with one event: where it is written and which parsers are sent it. */
  datatype Delivery = Delivery(event: StorageEvent, toStdout: bool, toJournal: bool, parsers: seq<nat>)

  function Settle(flags: Flags, s: Step): Flags
  {
    if s.conf.Some? then ApplyConf(s.conf.value) else flags
  }

  /** What one step delivers under the settings `f` it leaves in force. */
  function Deliver(parsers: seq<Routing.ParserInfo<StorageSubSystem>>, f: Flags, s: Step): seq<Delivery>
  {
    match s.event
      case None => []
      case Some(ev) => [Delivery(ev, f.notifyStdout, f.saveToJournald, Routing.Targets(parsers, Routing.Synthetic, ev.subSystem))]
  }

  /** The deliveries of the steps, in order, under the settings current at each event. */
  function Deliveries(parsers: seq<Routing.ParserInfo<StorageSubSystem>>, steps: seq<Step>, flags: Flags)
    : (r: seq<Delivery>)
    ensures |r| <= |steps|
  {
    if |steps| == 0 then []
    else
      var f := Settle(flags, steps[0]);
      Deliver(parsers, f, steps[0]) + Deliveries(parsers, steps[1..], f)
  }

  /**
   * A reload forgets what was set before: after a step carrying
   * configuration, what happens next depends only on that configuration.
   */
  lemma ReloadForgets(parsers: seq<Routing.ParserInfo<StorageSubSystem>>, steps: seq<Step>, f1: Flags, f2: Flags)
    requires |steps| > 0 && steps[0].conf.Some?
    ensures Deliveries(parsers, steps, f1) == Deliveries(parsers, steps, f2)
  {
  }

  /**
   * Every event received is delivered once, in order, to stdout only when
   * the last reload asked for it, to the journal unless the last reload
   * turned it off, and to every parser that takes synthetic events of its
   * subsystem.
   */
  lemma {:induction false} DeliveriesOfEvents(parsers: seq<Routing.ParserInfo<StorageSubSystem>>, steps: seq<Step>, flags: Flags)
    requires forall i :: 0 <= i < |steps| ==> steps[i].event.Some? && steps[i].conf.None?
    ensures |Deliveries(parsers, steps, flags)| == |steps|
    ensures forall i :: 0 <= i < |steps| ==>
      var d := Deliveries(parsers, steps, flags)[i];
      d.event == steps[i].event.value && d.toStdout == flags.notifyStdout && d.toJournal == flags.saveToJournald
      && d.parsers == Routing.Targets(parsers, Routing.Synthetic, steps[i].event.value.subSystem)
  {
    if |steps| > 0 {
      DeliveriesOfEvents(parsers, steps[1..], flags);
      var r := Deliveries(parsers, steps, flags);
      assert r == Deliver(parsers, flags, steps[0]) + Deliveries(parsers, steps[1..], flags);
      forall i | 1 <= i < |steps|
        ensures r[i] == Deliveries(parsers, steps[1..], flags)[i - 1]
      {
      }
    }
  }

  lemma DeliveriesStep(parsers: seq<Routing.ParserInfo<StorageSubSystem>>, steps: seq<Step>, i: nat, flags: Flags)
    requires i < |steps|
    ensures Deliveries(parsers, steps[i..], flags)
         == Deliver(parsers, Settle(flags, steps[i]), steps[i]) + Deliveries(parsers, steps[i + 1..], Settle(flags, steps[i]))
  {
    assert steps[i..][0] == steps[i] && steps[i..][1..] == steps[i + 1..];
  }

  /** One turn of the loop: take a pending reload, then write and forward the event received. */
  method Turn(parsers: seq<Routing.ParserInfo<StorageSubSystem>>, notifyStdout: bool, saveToJournald: bool, step: Step)
    returns (notify: bool, save: bool, out: seq<Delivery>)
    ensures Flags(notify, save) == Settle(Flags(notifyStdout, saveToJournald), step)
    ensures out == Deliver(parsers, Flags(notify, save), step)
  {
    notify, save := notifyStdout, saveToJournald;
    if step.conf.Some? {
      var conf := step.conf.value;
      notify := if conf.notifyStdout.Some? then conf.notifyStdout.value else false;
      save := if conf.saveToJournald.Some? then conf.saveToJournald.value else true;
    }
    out := [];
    if step.event.Some? {
      var ev := step.event.value;
      var sent := Routing.Route(parsers, Routing.Synthetic, ev.subSystem);
      out := [Delivery(ev, notify, save, sent)];
    }
  }

  /** `handle_events_from_parsers`, over a finite run of its loop. */
  method HandleEvents(parsers: seq<Routing.ParserInfo<StorageSubSystem>>, steps: seq<Step>) returns (out: seq<Delivery>)
    ensures out == Deliveries(parsers, steps, InitialFlags)
  {
    var notifyStdout := false;
    var saveToJournald := true;
    out := [];
    var i := 0;
    while i < |steps|
      invariant 0 <= i <= |steps|
      invariant Deliveries(parsers, steps, InitialFlags)
             == out + Deliveries(parsers, steps[i..], Flags(notifyStdout, saveToJournald))
    {
      DeliveriesStep(parsers, steps, i, Flags(notifyStdout, saveToJournald));
      var delivered;
      notifyStdout, saveToJournald, delivered := Turn(parsers, notifyStdout, saveToJournald, steps[i]);
      out := out + delivered;
      i := i + 1;
    }
    assert steps[i..] == [];
  }

  // ---------------------------------------------------------------------
  // dump_blk_infos

  /** The text announcing a block: its path and wwid, and its mount point when known. */
  function FoundMessage(bi: Blk.BlkInfo): (r: string)
    ensures StartsWith(r, "Found block '" + bi.blkPath + "' '" + bi.wwid + "'")
    ensures bi.mountPoint.None? ==> r == "Found block '" + bi.blkPath + "' '" + bi.wwid + "'"
    ensures bi.mountPoint.Some? ==>
      r == "Found block '" + bi.blkPath + "' '" + bi.wwid + "'" + " mounted at '" + bi.mountPoint.value + "'"
  {
    var base := "Found block '" + bi.blkPath + "' '" + bi.wwid + "'";
    var r := match bi.mountPoint
      case Some(mp) => "Found block '" + bi.blkPath + "' '" + bi.wwid + "' mounted at '" + mp + "'"
      case None => base;
    assert r[..|base|] == base;
    r
  }

  /** The event announcing one block; host name, time stamp and id come from the machine. */
  function BlkInfoEvent(bi: Blk.BlkInfo, hostname: string, timestamp: string, eventId: string): (e: StorageEvent)
    ensures e.severity == Info && e.subSystem == Peripety && e.eventType == "PERIPETY_BLK_INFO"
    ensures e.blkInfo == bi && e.msg == e.rawMsg == FoundMessage(bi)
    ensures e.hostname == hostname && e.timestamp == timestamp && e.eventId == eventId
    ensures e.kdev == "" && e.extension == map[]
  {
    DefaultEvent().(hostname := hostname, severity := Info, subSystem := Peripety, timestamp := timestamp,
                    eventId := eventId, eventType := "PERIPETY_BLK_INFO", blkInfo := bi,
                    msg := FoundMessage(bi), rawMsg := FoundMessage(bi))
  }

  /** One iteration of `dump_blk_infos`: the text in one of its two formats, then the event field by field. */
  method Announce(bi: Blk.BlkInfo, hostname: string, timestamp: string, eventId: string) returns (se: StorageEvent)
    ensures se == BlkInfoEvent(bi, hostname, timestamp, eventId)
  {
    var msg: string;
    match bi.mountPoint {
      case Some(mountPoint) =>
        msg := "Found block '" + bi.blkPath + "' '" + bi.wwid + "' mounted at '" + mountPoint + "'";
      case None =>
        msg := "Found block '" + bi.blkPath + "' '" + bi.wwid + "'";
    }
    se := DefaultEvent().(hostname := hostname, severity := Info, subSystem := Peripety,
                          timestamp := timestamp, eventId := eventId, eventType := "PERIPETY_BLK_INFO",
                          blkInfo := bi, msg := msg, rawMsg := msg);
  }

  /** `dump_blk_infos`: one announcement per listed block, in list order. */
  method DumpBlkInfos(infos: seq<Blk.BlkInfo>, hostname: string, clock: nat -> string, ids: nat -> string)
    returns (events: seq<StorageEvent>)
    ensures |events| == |infos|
    ensures forall i :: 0 <= i < |infos| ==> events[i] == BlkInfoEvent(infos[i], hostname, clock(i), ids(i))
  {
    events := [];
    var i := 0;
    while i < |infos|
      invariant 0 <= i <= |infos|
      invariant |events| == i
      invariant forall k :: 0 <= k < i ==> events[k] == BlkInfoEvent(infos[k], hostname, clock(k), ids(k))
    {
      var se := Announce(infos[i], hostname, clock(i), ids(i));
      events := events + [se];
      i := i + 1;
    }
  }

  // ---------------------------------------------------------------------
  // Subscriptions

  const ScsiParser: Routing.ParserInfo<StorageSubSystem> :=
    Routing.ParserInfo("scsi", [Routing.Raw], Some([StorageSubSystem.Scsi]))
  const FsParser: Routing.ParserInfo<StorageSubSystem> :=
    Routing.ParserInfo("fs", [Routing.Raw], Some([FsExt4, FsXfs, FsJbd2]))

  /** The SCSI parser takes raw SCSI events; the file-system parser raw ext4, xfs and jbd2 events. */
  lemma Subscriptions(kind: Routing.EventType, sub: StorageSubSystem)
    ensures Routing.Required(ScsiParser, kind, sub) <==> kind == Routing.Raw && sub == StorageSubSystem.Scsi
    ensures Routing.Required(FsParser, kind, sub) <==> kind == Routing.Raw && (sub == FsExt4 || sub == FsXfs || sub == FsJbd2)
  {
  }

  // ---------------------------------------------------------------------
  // The SCSI parser

  /**
   * `scsi::parse_event`: host events are dropped; the device is looked up
   * without the dm-holder redirect under its name with one `+scsi:` taken
   * off; the event then carries the descriptor, the sense-key rewrite of its
   * type and a message naming the wwid.
   */
  function ScsiParse(h: Blk.Host, e: StorageEvent, fuel: nat): (r: Option<StorageEvent>)
  {
    if StartsWith(e.kdev, "+scsi:host") then None
    else match Blk.Resolve(h, ScsiText.StripScsiPrefix(e.kdev), true, fuel)
      case Err(_) => None
      case Ok(b) =>
        Some(e.(blkInfo := b, eventType := ScsiText.SenseRewrite(e.eventType, e.extension),
                msg := e.rawMsg + ", wwid: '" + b.wwid + "'"))
  }

  /**
   * Host events and failed lookups send nothing; otherwise the event carries
   * the descriptor found, a type changed only for a medium or hardware error
   * sense key, and the message `<raw_msg>, wwid: '<wwid>'`; nothing else
   * changes.
   */
  lemma ScsiParseEffect(h: Blk.Host, e: StorageEvent, fuel: nat)
    ensures var b := Blk.Resolve(h, ScsiText.StripScsiPrefix(e.kdev), true, fuel);
      ScsiParse(h, e, fuel).Some? <==> !StartsWith(e.kdev, "+scsi:host") && b.Ok?
    ensures ScsiParse(h, e, fuel).Some? ==>
      var b := Blk.Resolve(h, ScsiText.StripScsiPrefix(e.kdev), true, fuel).value;
      var r := ScsiParse(h, e, fuel).value;
      && r.blkInfo == b
      && r.msg == e.rawMsg + ", wwid: '" + b.wwid + "'"
      && (r.eventType != e.eventType ==>
            e.eventType == "SCSI_SENSE_KEY"
            && (r.eventType == "SCSI_MEDIUM_ERROR" || r.eventType == "SCSI_HARDWARE_ERROR"))
      && r.(blkInfo := e.blkInfo, eventType := e.eventType, msg := e.msg) == e
  {
  }

  /** A host event is dropped before any lookup; a `+scsi:` device is looked up without that prefix. */
  lemma ScsiParseKdev(h: Blk.Host, e: StorageEvent, fuel: nat, rest: string)
    ensures StartsWith(e.kdev, "+scsi:host") ==> ScsiParse(h, e, fuel).None?
    ensures e.kdev == "+scsi:" + rest && !StartsWith(rest, "host") ==>
      (ScsiParse(h, e, fuel).Some? <==> Blk.Resolve(h, rest, true, fuel).Ok?)
  {
    if e.kdev == "+scsi:" + rest {
      assert e.kdev[..6] == "+scsi:" && e.kdev[6..] == rest;
      if |e.kdev| >= 10 {
        assert e.kdev[6..10] == rest[..4];
      }
    }
  }

  /** `parse_event` as written. */
  method ParseScsiEvent(h: Blk.Host, event: StorageEvent, fuel: nat) returns (r: Option<StorageEvent>)
    ensures r == ScsiParse(h, event, fuel)
  {
    var kdev := event.kdev;
    if StartsWith(event.kdev, "+scsi:host") {
      return None;
    }
    if StartsWith(event.kdev, "+scsi:") {
      kdev := event.kdev[6..];
    }
    var found := Blk.Resolve(h, kdev, true, fuel);
    if found.Err? {
      return None;
    }
    var e := event;
    e := e.(blkInfo := found.value);
    if e.eventType == "SCSI_SENSE_KEY" && "sense_key" in e.extension {
      if e.extension["sense_key"] == "Medium Error" {
        e := e.(eventType := "SCSI_MEDIUM_ERROR");
      } else if e.extension["sense_key"] == "Hardware Error" {
        e := e.(eventType := "SCSI_HARDWARE_ERROR");
      }
    }
    e := e.(msg := e.rawMsg + ", wwid: '" + e.blkInfo.wwid + "'");
    r := Some(e);
  }

  // ---------------------------------------------------------------------
  // The file-system parser

  /** The ext4 `data_mode` capture, named. */
  function DataMode(capture: string): (r: string)
    ensures r in {"journalled", "ordered", "writeback", "no_journal", "unknown"}
    ensures r == "journalled" <==> capture == " journalled data mode"
    ensures r == "ordered" <==> capture == " ordered data mode"
    ensures r == "writeback" <==> capture == " writeback data mode"
    ensures r == "no_journal" <==> capture == "out journal"
  {
    if capture == " journalled data mode" then "journalled"
    else if capture == " ordered data mode" then "ordered"
    else if capture == " writeback data mode" then "writeback"
    else if capture == "out journal" then "no_journal"
    else "unknown"
  }

  predicate IsExt4Mount(e: StorageEvent)
  {
    e.subSystem == FsExt4 && e.eventType == "FS_MOUNTED"
  }

  /**
   * `fs::parse_event` up to its last loop: the descriptor `new` finds (no
   * uuid, no event), the message prefix, and the extension with the mount
   * point when known, the uuid, and an ext4 mount's data mode named. An
   * ext4 mount event without a data mode capture stops the parser; no event
   * is sent.
   */
  function FsEnrich(h: Blk.Host, e: StorageEvent, fuel: nat): (r: Option<StorageEvent>)
  {
    match Blk.New(h, e.kdev, fuel)
      case Err(_) => None
      case Ok(bi) =>
        if bi.uuid.None? then None
        else
          var ext1 := if bi.mountPoint.Some? then e.extension["mount_point" := bi.mountPoint.value] else e.extension;
          var ext2 := ext1["uuid" := bi.uuid.value];
          if IsExt4Mount(e) && "data_mode" !in ext2 then None
          else
            var ext3 := if IsExt4Mount(e) then ext2["data_mode" := DataMode(ext2["data_mode"])] else ext2;
            Some(e.(msg := e.rawMsg + ", blk_wwid: '" + bi.wwid + "', blk_path: '" + bi.blkPath + "'",
                    blkInfo := bi, extension := ext3))
  }

  /** One `, <key>: '<value>'` piece per extension entry. */
  function Piece(key: string, value: string): string
  {
    ", " + key + ": '" + value + "'"
  }

  /** The message after the extension loop: the pieces appended in iteration order. */
  function WithPieces(msg: string, keys: seq<string>, ext: map<string, string>): (r: string)
    requires forall i :: 0 <= i < |keys| ==> keys[i] in ext
    ensures StartsWith(r, msg)
  {
    if |keys| == 0 then msg
    else
      var init := WithPieces(msg, keys[..|keys| - 1], ext);
      var r := init + Piece(keys[|keys| - 1], ext[keys[|keys| - 1]]);
      assert r[..|msg|] == init[..|msg|];
      r
  }

  /** `WithPieces` appends exactly the concatenation of one piece per key, in order. */
  lemma {:induction false} WithPiecesSplit(msg: string, keys: seq<string>, ext: map<string, string>, j: nat)
    requires forall i :: 0 <= i < |keys| ==> keys[i] in ext
    requires j <= |keys|
    ensures WithPieces(msg, keys, ext) == WithPieces(WithPieces(msg, keys[..j], ext), keys[j..], ext)
    decreases |keys| - j
  {
    if j < |keys| {
      WithPiecesSplit(msg, keys, ext, j + 1);
      var m := WithPieces(msg, keys[..j], ext);
      assert keys[..j + 1][..j] == keys[..j];
      assert WithPieces(msg, keys[..j + 1], ext) == m + Piece(keys[j], ext[keys[j]]);
      WithPiecesPrepend(m, keys[j..], ext);
      assert keys[j..][1..] == keys[j + 1..];
    } else {
      assert keys[..j] == keys;
      assert keys[j..] == [];
    }
  }

  /** Appending the first key's piece up front is the same as starting the rest from it. */
  lemma {:induction false} WithPiecesPrepend(msg: string, keys: seq<string>, ext: map<string, string>)
    requires forall i :: 0 <= i < |keys| ==> keys[i] in ext
    requires |keys| > 0
    ensures WithPieces(msg, keys, ext) == WithPieces(msg + Piece(keys[0], ext[keys[0]]), keys[1..], ext)
    decreases |keys|
  {
    if |keys| > 1 {
      var init := keys[..|keys| - 1];
      WithPiecesPrepend(msg, init, ext);
      assert init[1..] == keys[1..][..|keys[1..]| - 1];
      assert init[0] == keys[0];
    } else {
      assert keys[1..] == [];
    }
  }

  /** `fs::parse_event`, given the iteration order of the final extension. */
  function FsParse(h: Blk.Host, e: StorageEvent, fuel: nat, keys: seq<string>): (r: Option<StorageEvent>)
    requires FsEnrich(h, e, fuel).Some? ==> KeyOrder(keys, FsEnrich(h, e, fuel).value.extension)
  {
    match FsEnrich(h, e, fuel)
      case None => None
      case Some(x) => Some(x.(msg := WithPieces(x.msg, keys, x.extension)))
  }

  /**
   * An event comes out exactly when the block resolves with a uuid and, for
   * an ext4 mount, a data mode was captured.
   */
  lemma FsEnrichSent(h: Blk.Host, e: StorageEvent, fuel: nat)
    ensures var b := Blk.New(h, e.kdev, fuel);
      FsEnrich(h, e, fuel).Some? <==> b.Ok? && b.value.uuid.Some? && (IsExt4Mount(e) ==> "data_mode" in e.extension)
  {
  }

  /**
   * The enriched event carries the descriptor and the message
   * `<raw_msg>, blk_wwid: '<w>', blk_path: '<p>'`. Its extension holds the
   * uuid, the mount point when one is known, an ext4 mount's data mode
   * named, every other entry unchanged (a `mount_point` when none is known,
   * a `data_mode` outside an ext4 mount), and no new key besides these.
   */
  lemma FsEnrichEffect(h: Blk.Host, e: StorageEvent, fuel: nat)
    requires FsEnrich(h, e, fuel).Some?
    ensures var bi := Blk.New(h, e.kdev, fuel).value;
      var r := FsEnrich(h, e, fuel).value;
      && r.blkInfo == bi
      && r.msg == e.rawMsg + ", blk_wwid: '" + bi.wwid + "', blk_path: '" + bi.blkPath + "'"
      && "uuid" in r.extension && r.extension["uuid"] == bi.uuid.value
      && (bi.mountPoint.Some? ==> "mount_point" in r.extension && r.extension["mount_point"] == bi.mountPoint.value)
      && (IsExt4Mount(e) ==> "data_mode" in e.extension && r.extension["data_mode"] == DataMode(e.extension["data_mode"]))
      && (forall k :: k in e.extension && k != "uuid" && k != "mount_point" && k != "data_mode" ==>
            k in r.extension && r.extension[k] == e.extension[k])
      && (bi.mountPoint.None? && "mount_point" in e.extension ==> r.extension["mount_point"] == e.extension["mount_point"])
      && (!IsExt4Mount(e) && "data_mode" in e.extension ==> r.extension["data_mode"] == e.extension["data_mode"])
      && r.extension.Keys == e.extension.Keys + {"uuid"} + (if bi.mountPoint.Some? then {"mount_point"} else {})
      && r.(msg := e.msg, blkInfo := e.blkInfo, extension := e.extension) == e
  {
    var bi := Blk.New(h, e.kdev, fuel).value;
    var ext1 := if bi.mountPoint.Some? then e.extension["mount_point" := bi.mountPoint.value] else e.extension;
    var ext2 := ext1["uuid" := bi.uuid.value];
    var ext3 := if IsExt4Mount(e) then ext2["data_mode" := DataMode(ext2["data_mode"])] else ext2;
    assert FsEnrich(h, e, fuel).value.extension == ext3;
    EnrichedExtension(e.extension, bi.mountPoint, bi.uuid.value, IsExt4Mount(e));
  }

  /** The extension arithmetic of `FsEnrich`, on maps alone. */
  lemma EnrichedExtension(ext: map<string, string>, mountPoint: Option<string>, uuid: string, ext4: bool)
    requires ext4 ==> "data_mode" in ext
    ensures var ext1 := if mountPoint.Some? then ext["mount_point" := mountPoint.value] else ext;
      var ext2 := ext1["uuid" := uuid];
      var r := if ext4 then ext2["data_mode" := DataMode(ext2["data_mode"])] else ext2;
      && "uuid" in r && r["uuid"] == uuid
      && (mountPoint.Some? ==> "mount_point" in r && r["mount_point"] == mountPoint.value)
      && (ext4 ==> r["data_mode"] == DataMode(ext["data_mode"]))
      && (forall k :: k in ext && k != "uuid" && k != "mount_point" && k != "data_mode" ==> k in r && r[k] == ext[k])
      && (mountPoint.None? && "mount_point" in ext ==> r["mount_point"] == ext["mount_point"])
      && (!ext4 && "data_mode" in ext ==> r["data_mode"] == ext["data_mode"])
      && r.Keys == ext.Keys + {"uuid"} + (if mountPoint.Some? then {"mount_point"} else {})
  {
    var ext1 := if mountPoint.Some? then ext["mount_point" := mountPoint.value] else ext;
    var ext2 := ext1["uuid" := uuid];
    assert ext2.Keys == ext.Keys + {"uuid"} + (if mountPoint.Some? then {"mount_point"} else {});
  }

  /**
   * The parser's event is the enriched one with one `, k: 'v'` piece per
   * extension entry appended to its message, in iteration order.
   */
  lemma FsParseEffect(h: Blk.Host, e: StorageEvent, fuel: nat, keys: seq<string>)
    requires FsEnrich(h, e, fuel).Some? ==> KeyOrder(keys, FsEnrich(h, e, fuel).value.extension)
    ensures FsParse(h, e, fuel, keys).Some? <==> FsEnrich(h, e, fuel).Some?
    ensures FsParse(h, e, fuel, keys).Some? ==>
      var x := FsEnrich(h, e, fuel).value;
      var r := FsParse(h, e, fuel, keys).value;
      && r.(msg := x.msg) == x
      && StartsWith(r.msg, x.msg)
      && |keys| == |r.extension|
      && (|keys| > 0 ==> r.msg == WithPieces(x.msg + Piece(keys[0], x.extension[keys[0]]), keys[1..], x.extension))
  {
    if FsEnrich(h, e, fuel).Some? {
      var x := FsEnrich(h, e, fuel).value;
      KeyOrderLength(keys, x.extension);
      if |keys| > 0 {
        WithPiecesPrepend(x.msg, keys, x.extension);
      }
    }
  }

  /** The first half of `parse_event` as written: the block lookup, the inserts and the rename. */
  method Enrich(h: Blk.Host, event: StorageEvent, fuel: nat) returns (r: Option<StorageEvent>)
    ensures r == FsEnrich(h, event, fuel)
  {
    var e := event;
    var found := Blk.New(h, e.kdev, fuel);
    if found.Err? {
      return None;
    }
    var blkInfo := found.value;
    if blkInfo.uuid.None? {
      return None;
    }
    var uuid := blkInfo.uuid.value;
    e := e.(msg := e.rawMsg + ", blk_wwid: '" + blkInfo.wwid + "', blk_path: '" + blkInfo.blkPath + "'");
    if blkInfo.mountPoint.Some? {
      e := e.(extension := e.extension["mount_point" := blkInfo.mountPoint.value]);
    }
    e := e.(blkInfo := blkInfo);
    e := e.(extension := e.extension["uuid" := uuid]);
    if e.subSystem == FsExt4 && e.eventType == "FS_MOUNTED" {
      if "data_mode" !in e.extension {
        return None;
      }
      e := e.(extension := e.extension["data_mode" := DataMode(e.extension["data_mode"])]);
    }
    r := Some(e);
  }

  /** `parse_event` as written: the enrichment, then the message loop over the extension keys. */
  method ParseFsEvent(h: Blk.Host, event: StorageEvent, fuel: nat, keys: seq<string>) returns (r: Option<StorageEvent>)
    requires FsEnrich(h, event, fuel).Some? ==> KeyOrder(keys, FsEnrich(h, event, fuel).value.extension)
    ensures r == FsParse(h, event, fuel, keys)
  {
    var enriched := Enrich(h, event, fuel);
    if enriched.None? {
      return None;
    }
    var e := enriched.value;
    var msg0 := e.msg;
    var i := 0;
    while i < |keys|
      invariant 0 <= i <= |keys|
      invariant Some(e.(msg := msg0)) == FsEnrich(h, event, fuel)
      invariant e.msg == WithPieces(msg0, keys[..i], e.extension)
    {
      assert keys[..i + 1][..i] == keys[..i];
      e := e.(msg := e.msg + Piece(keys[i], e.extension[keys[i]]));
      i := i + 1;
    }
    assert keys[..i] == keys;
    r := Some(e);
  }
}
