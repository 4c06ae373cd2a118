/**
 * The kernel-log plugin: `gen_kmsg` reads one `/dev/kmsg` record (a header
 * line `<prefix>;<message>` whose prefix starts with the syslog PRI, then
 * ` KEY=value` lines) and `kmsg_to_storage_event` classifies it into an
 * older-snapshot storage event. The PRI is split as in section 6.2.1 of
 * RFC 5424: facility * 8 + severity. An `unwrap` that fails stops the
 * plugin; that outcome is `Aborted`.
 */
module Kmsg {
  import opened Common
  import opened Severity
  import opened OldEvent
  import opened ScsiText
  import SdJournal

  const FACILITY_KERNEL: nat := 0

  datatype Kmsg = Kmsg(
    severity: nat,
    facility: nat,
    sequence: nat,
    monotonicMicroseconds: nat,
    flag: char,
    msg: string,
    dict: map<string, string>)

  /** `Default for Kmsg`: debug severity, kernel facility, flag '-', nothing else. */
  function DefaultKmsg(): (k: Kmsg)
    ensures k.severity == Level(Debug) && k.facility == FACILITY_KERNEL
    ensures k.sequence == 0 && k.monotonicMicroseconds == 0 && k.flag == '-' && k.msg == [] && k.dict == map[]
  {
    Kmsg(7, 0, 0, 0, '-', [], map[])
  }

  // ---------------------------------------------------------------------
  // The two line patterns

  /** `^(?P<prefix>[^;]+);(?P<msg>.+)$`: the text before the first ';' and the rest, both non-empty. */
  function Header(line: string): (r: Option<(string, string)>)
    ensures r.Some? ==> line == r.value.0 + ";" + r.value.1
    ensures r.Some? ==> |r.value.0| > 0 && ';' !in r.value.0 && |r.value.1| > 0
  {
    match IndexOf(line, ';')
      case None => None
      case Some(p) =>
        if 0 < p && p + 1 < |line| then
          assert line == line[..p] + ";" + line[p + 1..];
          Some((line[..p], line[p + 1..]))
        else None
  }

  /** Every line of that shape matches, with exactly those two parts. */
  lemma HeaderComplete(prefix: string, msg: string)
    requires |prefix| > 0 && ';' !in prefix && |msg| > 0
    ensures Header(prefix + ";" + msg) == Some((prefix, msg))
  {
    var line := prefix + ";" + msg;
    assert line[..|prefix|] == prefix;
    IndexOfAt(line, ';', |prefix|);
    assert line[|prefix| + 1..] == msg;
  }

  /** `^\s(?P<key>[^=]+)=(?P<value>.+)$`: one white-space character, a key up to the first '=', a non-empty value. */
  function Subline(line: string): (r: Option<(string, string)>)
    ensures r.Some? ==> |line| > 0 && IsSpace(line[0]) && line[1..] == r.value.0 + "=" + r.value.1
    ensures r.Some? ==> |r.value.0| > 0 && '=' !in r.value.0 && |r.value.1| > 0
  {
    if |line| == 0 || !IsSpace(line[0]) then None
    else
      var rest := line[1..];
      match IndexOf(rest, '=')
        case None => None
        case Some(q) =>
          if 0 < q && q + 1 < |rest| then
            assert rest == rest[..q] + "=" + rest[q + 1..];
            Some((rest[..q], rest[q + 1..]))
          else None
  }

  lemma SublineComplete(space: char, key: string, value: string)
    requires IsSpace(space) && |key| > 0 && '=' !in key && |value| > 0
    ensures Subline([space] + key + "=" + value) == Some((key, value))
  {
    var line := [space] + key + "=" + value;
    var rest := line[1..];
    assert rest == key + "=" + value;
    assert rest[..|key|] == key;
    IndexOfAt(rest, '=', |key|);
    assert rest[|key| + 1..] == value;
  }

  // ---------------------------------------------------------------------
  // The header prefix

  /** `prefix & 0b111`: the three low bits of the PRI, which are its remainder by 8 (`PriBits`). */
  function SeverityBits(p: nat): nat
    requires p < 256
  {
    p % 8
  }

  /** `(prefix & 0b1111_1000) >> 3`: the five high bits of the PRI, which are its quotient by 8 (`PriBits`). */
  function FacilityBits(p: nat): nat
    requires p < 256
  {
    p / 8
  }

  /**
   * On a byte, the mask `0b111` keeps the remainder by 8, the mask
   * `0b1111_1000` followed by a shift by 3 gives the quotient by 8, and the
   * two parts give the byte back.
   */
  lemma PriBits(b: bv8)
    ensures b & 7 == b % 8 && (b & 0xF8) >> 3 == b / 8
    ensures ((b & 0xF8) >> 3) * 8 + (b & 7) == b
    ensures (b & 7) <= 7 && ((b & 0xF8) >> 3) <= 31
  {
  }

  /** The two parts give the PRI back: facility * 8 + severity, with a severity of at most 7. */
  lemma PriSplit(p: nat)
    requires p < 256
    ensures FacilityBits(p) * 8 + SeverityBits(p) == p
    ensures SeverityBits(p) <= 7 && FacilityBits(p) <= 31
  {
  }

  /** `str::parse::<char>()`: a text of exactly one character. */
  function ParseChar(s: string): (r: Option<char>)
    ensures r.Some? <==> |s| == 1
  {
    if |s| == 1 then Some(s[0]) else None
  }

  /**
   * The header's effect: the message is kept; with at least four
   * comma-separated fields the PRI, sequence number, time stamp and flag are
   * parsed (a field that does not parse stops the plugin); with fewer the
   * defaults stay.
   */
  function ApplyHeader(k: Kmsg, prefix: string, msg: string): (r: Option<Kmsg>)
  {
    var entries := Split(prefix, ',');
    var k1 := k.(msg := msg);
    if |entries| < 4 then Some(k1)
    else
      var pri := ParseUnsigned(entries[0], 255);
      var sequence := ParseUnsigned(entries[1], SdJournal.U64_MAX);
      var time := ParseUnsigned(entries[2], SdJournal.U64_MAX);
      var flag := ParseChar(entries[3]);
      if pri.None? || sequence.None? || time.None? || flag.None? then None
      else Some(k1.(severity := SeverityBits(pri.value), facility := FacilityBits(pri.value),
                    sequence := sequence.value, monotonicMicroseconds := time.value, flag := flag.value))
  }

  /** The header never touches the dictionary, and its outcome does not depend on it. */
  lemma ApplyHeaderKeepsDict(k: Kmsg, d: map<string, string>, prefix: string, msg: string)
    ensures ApplyHeader(k.(dict := d), prefix, msg)
         == (match ApplyHeader(k, prefix, msg) case None => None case Some(x) => Some(x.(dict := d)))
  {
  }

  // ---------------------------------------------------------------------
  // gen_kmsg

  datatype ScanState = ScanState(parsed: bool, kmsg: Kmsg)

  /** One line of the loop: the first header line, or else a possible ` KEY=value` line. */
  function Step(st: ScanState, line: string): Option<ScanState>
  {
    if !st.parsed && Header(line).Some? then
      match ApplyHeader(st.kmsg, Header(line).value.0, Header(line).value.1)
        case None => None
        case Some(k) => Some(ScanState(true, k))
    else
      match Subline(line)
        case None => Some(st)
        case Some(kv) => Some(st.(kmsg := st.kmsg.(dict := st.kmsg.dict[kv.0 := kv.1])))
  }

  /** The state after the loop has taken `lines`; `None` once an `unwrap` has failed. */
  function Scan(lines: seq<string>): Option<ScanState>
  {
    if |lines| == 0 then Some(ScanState(false, DefaultKmsg()))
    else match Scan(lines[..|lines| - 1])
      case None => None
      case Some(st) => Step(st, lines[|lines| - 1])
  }

  /** Taking one more line is one more `Step` from the state so far. */
  lemma ScanSnoc(lines: seq<string>, i: nat, st: ScanState)
    requires i < |lines| && Scan(lines[..i]) == Some(st)
    ensures Scan(lines[..i + 1]) == Step(st, lines[i])
  {
    assert lines[..i + 1][..i] == lines[..i];
  }

  datatype Parsed = Kept(kmsg: Kmsg) | Dropped | Aborted

  /** `gen_kmsg`: a record when a header was read and the facility is the kernel's. */
  function GenKmsg(text: string): Parsed
  {
    match Scan(Lines(text))
      case None => Aborted
      case Some(st) => if st.parsed && st.kmsg.facility == FACILITY_KERNEL then Kept(st.kmsg) else Dropped
  }

  // An independent reading of the same loop.

  /** The first line that has the header's shape. */
  function FirstHeader(lines: seq<string>): (r: Option<nat>)
    ensures r.Some? ==> r.value < |lines| && Header(lines[r.value]).Some?
    ensures r.Some? ==> forall j :: 0 <= j < r.value ==> Header(lines[j]).None?
    ensures r.None? ==> forall j :: 0 <= j < |lines| ==> Header(lines[j]).None?
  {
    if |lines| == 0 then None
    else
      var init := lines[..|lines| - 1];
      var r := FirstHeader(init);
      assert forall j :: 0 <= j < |init| ==> init[j] == lines[j];
      if r.Some? then r
      else if Header(lines[|lines| - 1]).Some? then Some(|lines| - 1)
      else None
  }

  /** The ` KEY=value` lines other than the line at `skip`, later lines overwriting earlier ones. */
  function Sublines(lines: seq<string>, skip: Option<nat>): map<string, string>
  {
    if |lines| == 0 then map[]
    else
      var m := Sublines(lines[..|lines| - 1], skip);
      if skip == Some(|lines| - 1) then m
      else match Subline(lines[|lines| - 1])
        case None => m
        case Some(kv) => m[kv.0 := kv.1]
  }

  /** What the loop computes, stated without the loop. */
  function Reading(lines: seq<string>): Option<ScanState>
  {
    match FirstHeader(lines)
      case None => Some(ScanState(false, DefaultKmsg().(dict := Sublines(lines, None))))
      case Some(h) =>
        var hd := Header(lines[h]).value;
        match ApplyHeader(DefaultKmsg(), hd.0, hd.1)
          case None => None
          case Some(k) => Some(ScanState(true, k.(dict := Sublines(lines, Some(h)))))
  }

  /**
   * Only the first header-shaped line is the header: the message and the
   * prefix fields come from it alone, and every other line, before or after
   * it, is read as a possible ` KEY=value` line.
   */
  lemma {:induction false} ScanIsReading(lines: seq<string>)
    ensures Scan(lines) == Reading(lines)
  {
    if |lines| > 0 {
      var init := lines[..|lines| - 1];
      ScanIsReading(init);
      if FirstHeader(init).None? {
        ReadingBeforeHeader(lines);
      } else {
        ReadingAfterHeader(lines);
      }
    }
  }

  /** The inductive step of `ScanIsReading` while no header has been seen. */
  lemma ReadingBeforeHeader(lines: seq<string>)
    requires |lines| > 0
    requires FirstHeader(lines[..|lines| - 1]).None?
    requires Scan(lines[..|lines| - 1]) == Reading(lines[..|lines| - 1])
    ensures Scan(lines) == Reading(lines)
  {
    var init := lines[..|lines| - 1];
    var st := ScanState(false, DefaultKmsg().(dict := Sublines(init, None)));
    assert Scan(init) == Some(st);
    assert Scan(lines) == Step(st, lines[|lines| - 1]);
    if Header(lines[|lines| - 1]).Some? {
      HeaderAtLast(lines, st);
    } else {
      NoHeaderYet(lines, st);
    }
  }

  /** The last line is the first header: it sets the fields and every earlier line was a ` KEY=value` line. */
  lemma HeaderAtLast(lines: seq<string>, st: ScanState)
    requires |lines| > 0
    requires FirstHeader(lines[..|lines| - 1]).None? && Header(lines[|lines| - 1]).Some?
    requires st == ScanState(false, DefaultKmsg().(dict := Sublines(lines[..|lines| - 1], None)))
    requires Scan(lines) == Step(st, lines[|lines| - 1])
    ensures Scan(lines) == Reading(lines)
  {
    var init := lines[..|lines| - 1];
    var last := lines[|lines| - 1];
    var h := |lines| - 1;
    assert FirstHeader(lines) == Some(h);
    SublinesSkipOutside(init, None, Some(h));
    assert Sublines(lines, Some(h)) == Sublines(init, None);
    ApplyHeaderKeepsDict(DefaultKmsg(), Sublines(init, None), Header(last).value.0, Header(last).value.1);
    assert DefaultKmsg().(dict := map[]) == DefaultKmsg();
    ApplyHeaderKeepsDict(DefaultKmsg(), map[], Header(last).value.0, Header(last).value.1);
  }

  /** Neither the earlier lines nor the last one is a header: the last line is one more ` KEY=value` line. */
  lemma NoHeaderYet(lines: seq<string>, st: ScanState)
    requires |lines| > 0
    requires FirstHeader(lines[..|lines| - 1]).None? && Header(lines[|lines| - 1]).None?
    requires st == ScanState(false, DefaultKmsg().(dict := Sublines(lines[..|lines| - 1], None)))
    requires Scan(lines) == Step(st, lines[|lines| - 1])
    ensures Scan(lines) == Reading(lines)
  {
    assert FirstHeader(lines).None?;
  }

  /** The inductive step of `ScanIsReading` once the header has been seen. */
  lemma ReadingAfterHeader(lines: seq<string>)
    requires |lines| > 0
    requires FirstHeader(lines[..|lines| - 1]).Some?
    requires Scan(lines[..|lines| - 1]) == Reading(lines[..|lines| - 1])
    ensures Scan(lines) == Reading(lines)
  {
    var init := lines[..|lines| - 1];
    var h := FirstHeader(init).value;
    assert FirstHeader(lines) == Some(h);
    assert lines[h] == init[h];
    var hd := Header(lines[h]).value;
    var applied := ApplyHeader(DefaultKmsg(), hd.0, hd.1);
    if applied.Some? {
      var k := applied.value;
      assert Scan(init) == Some(ScanState(true, k.(dict := Sublines(init, Some(h)))));
      AfterHeaderStep(lines, h, k);
    }
  }

  /** After the header only the ` KEY=value` reading of the last line is added. */
  lemma AfterHeaderStep(lines: seq<string>, h: nat, k: Kmsg)
    requires h < |lines| - 1
    requires Scan(lines[..|lines| - 1]) == Some(ScanState(true, k.(dict := Sublines(lines[..|lines| - 1], Some(h)))))
    ensures Scan(lines) == Some(ScanState(true, k.(dict := Sublines(lines, Some(h)))))
  {
    var init := lines[..|lines| - 1];
    var last := lines[|lines| - 1];
    var st := ScanState(true, k.(dict := Sublines(init, Some(h))));
    assert Scan(lines) == Step(st, last);
    assert Sublines(lines, Some(h)) == (match Subline(last) case None => Sublines(init, Some(h))
                                                            case Some(kv) => Sublines(init, Some(h))[kv.0 := kv.1]);
  }

  /** The skipped index matters only when it is one of the lines. */
  lemma {:induction false} SublinesSkipOutside(lines: seq<string>, s1: Option<nat>, s2: Option<nat>)
    requires s1.None? || s1.value >= |lines|
    requires s2.None? || s2.value >= |lines|
    ensures Sublines(lines, s1) == Sublines(lines, s2)
  {
    if |lines| > 0 {
      SublinesSkipOutside(lines[..|lines| - 1], s1, s2);
    }
  }

  /** Line `j` is not the header and is a ` KEY=value` line for `key`. */
  predicate Gives(lines: seq<string>, skip: Option<nat>, j: nat, key: string)
    requires j < |lines|
  {
    skip != Some(j) && Subline(lines[j]).Some? && Subline(lines[j]).value.0 == key
  }

  /** What the last line does to the dictionary of the lines before it. */
  lemma SublinesLast(lines: seq<string>, skip: Option<nat>, key: string)
    requires |lines| > 0
    ensures var n := |lines| - 1;
      && (Gives(lines, skip, n, key) ==>
            key in Sublines(lines, skip) && Sublines(lines, skip)[key] == Subline(lines[n]).value.1)
      && (!Gives(lines, skip, n, key) ==>
            (key in Sublines(lines, skip) <==> key in Sublines(lines[..n], skip))
            && (key in Sublines(lines, skip) ==> Sublines(lines, skip)[key] == Sublines(lines[..n], skip)[key]))
  {
  }

  /** The dictionary holds a key exactly when some line other than the header gives it. */
  lemma {:induction false} SublinesHas(lines: seq<string>, skip: Option<nat>, key: string)
    ensures key in Sublines(lines, skip) <==> exists j: nat :: j < |lines| && Gives(lines, skip, j, key)
  {
    if |lines| > 0 {
      var n := |lines| - 1;
      var init := lines[..n];
      SublinesHas(init, skip, key);
      SublinesLast(lines, skip, key);
      assert forall j: nat :: j < n ==> init[j] == lines[j];
      assert forall j: nat :: j < n ==> (Gives(init, skip, j, key) <==> Gives(lines, skip, j, key));
    }
  }

  /** It then holds the value of the last line that gives it. */
  lemma {:induction false} SublinesLastWins(lines: seq<string>, skip: Option<nat>, key: string, j: nat)
    requires j < |lines| && Gives(lines, skip, j, key)
    requires forall i: nat :: j < i < |lines| ==> !Gives(lines, skip, i, key)
    ensures key in Sublines(lines, skip) && Sublines(lines, skip)[key] == Subline(lines[j]).value.1
  {
    var n := |lines| - 1;
    SublinesLast(lines, skip, key);
    if j < n {
      var init := lines[..n];
      assert forall i: nat :: i < n ==> init[i] == lines[i];
      assert forall i: nat :: j < i < n ==> !Gives(init, skip, i, key) by {
        forall i: nat | j < i < n ensures !Gives(init, skip, i, key) {
          assert !Gives(lines, skip, i, key);
        }
      }
      assert Gives(init, skip, j, key);
      SublinesLastWins(init, skip, key, j);
    }
  }

  /**
   * A kept record's message is the first header line's; its severity is
   * the PRI's low three bits when the prefix has four fields (the facility
   * being zero, the severity is then the PRI itself) and 7 otherwise.
   */
  lemma GenKmsgKept(text: string)
    requires GenKmsg(text).Kept?
    ensures var lines := Lines(text);
      FirstHeader(lines).Some?
      && var hd := Header(lines[FirstHeader(lines).value]).value;
      var k := GenKmsg(text).kmsg;
      var entries := Split(hd.0, ',');
      && k.msg == hd.1
      && k.facility == FACILITY_KERNEL && k.severity <= 7
      && (|entries| < 4 ==> k.severity == Level(Debug))
      && (|entries| >= 4 ==> ParseUnsigned(entries[0], 255) == Some(k.severity))
      && k.dict == Sublines(lines, FirstHeader(lines))
  {
    var lines := Lines(text);
    ScanIsReading(lines);
    var h := FirstHeader(lines).value;
    var hd := Header(lines[h]).value;
    var k := ApplyHeader(DefaultKmsg(), hd.0, hd.1).value;
    assert GenKmsg(text).kmsg == k.(dict := Sublines(lines, Some(h)));
    KernelHeader(hd.0, hd.1);
  }

  /** A header read into the default record, with the kernel's facility. */
  lemma KernelHeader(prefix: string, msg: string)
    requires ApplyHeader(DefaultKmsg(), prefix, msg).Some?
    requires ApplyHeader(DefaultKmsg(), prefix, msg).value.facility == FACILITY_KERNEL
    ensures var k := ApplyHeader(DefaultKmsg(), prefix, msg).value;
      var entries := Split(prefix, ',');
      && k.msg == msg && k.severity <= 7
      && (|entries| < 4 ==> k.severity == Level(Debug))
      && (|entries| >= 4 ==> ParseUnsigned(entries[0], 255) == Some(k.severity))
  {
    var entries := Split(prefix, ',');
    if |entries| >= 4 {
      PriSplit(ParseUnsigned(entries[0], 255).value);
    }
  }

  /** Without a header line there is no record. */
  lemma GenKmsgNeedsHeader(text: string)
    requires forall j :: 0 <= j < |Lines(text)| ==> Header(Lines(text)[j]).None?
    ensures GenKmsg(text) == Dropped
  {
    ScanIsReading(Lines(text));
  }

  /** `gen_kmsg` as written: one pass over the lines with the `parsed` flag. */
  method GenKmsgOf(text: string) returns (r: Parsed)
    ensures r == GenKmsg(text)
  {
    var lines := Lines(text);
    var parsed := false;
    var kmsg := DefaultKmsg();
    var i := 0;
    while i < |lines|
      invariant 0 <= i <= |lines|
      invariant Scan(lines[..i]) == Some(ScanState(parsed, kmsg))
    {
      var line := lines[i];
      ScanSnoc(lines, i, ScanState(parsed, kmsg));
      if !parsed {
        var cap := Header(line);
        if cap.Some? {
          var next := ApplyHeader(kmsg, cap.value.0, cap.value.1);
          if next.None? {
            assert Scan(lines[..i + 1]).None?;
            ScanAbortStays(lines, i + 1);
            assert lines[..|lines|] == lines;
            return Aborted;
          }
          kmsg := next.value;
          parsed := true;
          i := i + 1;
          continue;
        }
      }
      var sub := Subline(line);
      if sub.Some? {
        kmsg := kmsg.(dict := kmsg.dict[sub.value.0 := sub.value.1]);
      }
      i := i + 1;
    }
    assert lines[..i] == lines;
    if parsed && kmsg.facility == FACILITY_KERNEL {
      r := Kept(kmsg);
    } else {
      r := Dropped;
    }
  }

  /** Once an `unwrap` has failed, no later line brings the loop back. */
  lemma {:induction false} ScanAbortStays(lines: seq<string>, i: nat)
    requires i <= |lines| && Scan(lines[..i]).None?
    ensures Scan(lines).None?
    decreases |lines| - i
  {
    if i < |lines| {
      assert lines[..i + 1][..i] == lines[..i];
      ScanAbortStays(lines, i + 1);
    } else {
      assert lines[..i] == lines;
    }
  }

  // ---------------------------------------------------------------------
  // kmsg_to_storage_event

  const THIN_PREFIX: string := "device-mapper: thin: "

  /** Two runs of digits joined by a ':' form a device number. */
  lemma MajorMinorOf(major: string, minor: string)
    requires |major| > 0 && AllDigits(major) && |minor| > 0 && AllDigits(minor)
    ensures IsMajorMinor(major + ":" + minor)
  {
    var mm := major + ":" + minor;
    assert mm[..|major|] == major;
    assert ':' !in major by {
      forall i | 0 <= i < |major| ensures major[i] != ':' { assert IsDigit(major[i]); }
    }
    IndexOfAt(mm, ':', |major|);
    assert mm[|major| + 1..] == minor;
  }

  /** `^device-mapper: thin: (\d+:\d+):`: the device number after the prefix, closed by a ':'. */
  function ThinDevice(msg: string): (r: Option<string>)
    ensures r.Some? ==> IsMajorMinor(r.value) && StartsWith(msg, THIN_PREFIX)
  {
    if !StartsWith(msg, THIN_PREFIX) then None
    else
      var rest := msg[|THIN_PREFIX|..];
      match IndexOf(rest, ':')
        case None => None
        case Some(i) =>
          var tail := rest[i + 1..];
          match IndexOf(tail, ':')
            case None => None
            case Some(j) =>
              if i > 0 && AllDigits(rest[..i]) && j > 0 && AllDigits(tail[..j]) then
                MajorMinorOf(rest[..i], tail[..j]);
                Some(rest[..i] + ":" + tail[..j])
              else None
  }

  /** A run of digits and a ':' at the head of `s` are found by the first ':'. */
  lemma DigitsThenColon(digits: string, tail: string)
    requires |digits| > 0 && AllDigits(digits)
    ensures IndexOf(digits + ":" + tail, ':') == Some(|digits|)
    ensures (digits + ":" + tail)[..|digits|] == digits && (digits + ":" + tail)[|digits| + 1..] == tail
  {
    var s := digits + ":" + tail;
    assert s[..|digits|] == digits;
    assert ':' !in digits by {
      forall i | 0 <= i < |digits| ensures digits[i] != ':' { assert IsDigit(digits[i]); }
    }
    IndexOfAt(s, ':', |digits|);
    assert s[|digits| + 1..] == tail;
  }

  /** Every "device-mapper: thin: M:m:…" message yields `M:m`. */
  lemma ThinDeviceComplete(major: string, minor: string, tail: string)
    requires |major| > 0 && AllDigits(major) && |minor| > 0 && AllDigits(minor)
    ensures ThinDevice(THIN_PREFIX + major + ":" + minor + ":" + tail) == Some(major + ":" + minor)
  {
    var msg := THIN_PREFIX + major + ":" + minor + ":" + tail;
    var rest := major + ":" + (minor + ":" + tail);
    assert msg == THIN_PREFIX + rest;
    assert msg[..|THIN_PREFIX|] == THIN_PREFIX && msg[|THIN_PREFIX|..] == rest;
    DigitsThenColon(major, minor + ":" + tail);
    DigitsThenColon(minor, tail);
  }

  /** The device number found is followed, in the message, by a ':'. */
  lemma ThinDeviceSound(msg: string)
    requires ThinDevice(msg).Some?
    ensures StartsWith(msg, THIN_PREFIX + ThinDevice(msg).value + ":")
  {
    var rest := msg[|THIN_PREFIX|..];
    var i := IndexOf(rest, ':').value;
    var tail := rest[i + 1..];
    var j := IndexOf(tail, ':').value;
    var n := |THIN_PREFIX| + i + 1 + j + 1;
    assert rest[..i + 1 + j + 1] == rest[..i] + ":" + tail[..j] + ":";
    assert msg[..n] == msg[..|THIN_PREFIX|] + rest[..i + 1 + j + 1];
  }

  /** `\spath\s(\d+:\d+).$` after the action word: the device number, and one last character other than a line feed. */
  function PathDevice(r: string): (d: Option<string>)
    ensures d.Some? ==> IsMajorMinor(d.value)
  {
    if |r| >= 7 && IsSpace(r[0]) && r[1..5] == "path" && IsSpace(r[5]) && IsMajorMinor(r[6..|r| - 1]) && r[|r| - 1] != '\n'
    then Some(r[6..|r| - 1]) else None
  }

  lemma PathDeviceComplete(mm: string, last: char)
    requires IsMajorMinor(mm) && last != '\n'
    ensures PathDevice(" path " + mm + [last]) == Some(mm)
  {
    var r := " path " + mm + [last];
    assert |mm| >= 3 by {
      assert DigitGroups(mm, 1);
      var i := IndexOf(mm, ':').value;
      assert DigitGroups(mm[i + 1..], 0);
    }
    assert r[1..5] == "path" && r[6..|r| - 1] == mm;
  }

  /** `device-mapper:\smultipath:\s`, with any white-space character in the two gaps. */
  predicate MpathHead(msg: string)
  {
    |msg| >= 26 && msg[..14] == "device-mapper:" && IsSpace(msg[14]) && msg[15..25] == "multipath:" && IsSpace(msg[25])
  }

  /** `(Failing|Reinstating)` and the rest of the pattern. */
  function ActionDevice(rest: string): (r: Option<(string, string)>)
    ensures r.Some? ==> (r.value.0 == "Failing" || r.value.0 == "Reinstating") && IsMajorMinor(r.value.1)
  {
    if StartsWith(rest, "Failing") then
      match PathDevice(rest[7..]) case None => None case Some(d) => Some(("Failing", d))
    else if StartsWith(rest, "Reinstating") then
      match PathDevice(rest[11..]) case None => None case Some(d) => Some(("Reinstating", d))
    else None
  }

  /**
   * `^device-mapper:\smultipath:\s(Failing|Reinstating)\spath\s(\d+:\d+).$`:
   * the action word and the device number.
   */
  function MpathPath(msg: string): (r: Option<(string, string)>)
    ensures r.Some? ==> (r.value.0 == "Failing" || r.value.0 == "Reinstating") && IsMajorMinor(r.value.1)
  {
    if MpathHead(msg) then ActionDevice(msg[26..]) else None
  }

  lemma ActionDeviceComplete(action: string, mm: string, last: char)
    requires action == "Failing" || action == "Reinstating"
    requires IsMajorMinor(mm) && last != '\n'
    ensures ActionDevice(action + " path " + mm + [last]) == Some((action, mm))
  {
    var p := " path " + mm + [last];
    assert action + " path " + mm + [last] == action + p;
    PathDeviceComplete(mm, last);
    if action == "Failing" { FailingDevice(p, mm); } else { ReinstatingDevice(p, mm); }
  }

  lemma FailingDevice(p: string, mm: string)
    requires PathDevice(p) == Some(mm)
    ensures ActionDevice("Failing" + p) == Some(("Failing", mm))
  {
    var rest := "Failing" + p;
    assert rest[..7] == "Failing" && rest[7..] == p;
  }

  lemma ReinstatingDevice(p: string, mm: string)
    requires PathDevice(p) == Some(mm)
    ensures ActionDevice("Reinstating" + p) == Some(("Reinstating", mm))
  {
    var rest := "Reinstating" + p;
    assert rest[0] == 'R' && rest[..11] == "Reinstating" && rest[11..] == p;
    assert !StartsWith(rest, "Failing");
  }

  /** The two messages the plugin looks for, each closed by one more character (a '.' in the kernel's text). */
  lemma MpathPathComplete(action: string, mm: string, last: char)
    requires action == "Failing" || action == "Reinstating"
    requires IsMajorMinor(mm) && last != '\n'
    ensures MpathPath("device-mapper: multipath: " + (action + " path " + mm + [last])) == Some((action, mm))
  {
    var tail := action + " path " + mm + [last];
    assert "device-mapper: multipath: " + tail == "device-mapper:" + [' '] + "multipath: " + tail;
    MpathGap(' ', tail);
    ActionDeviceComplete(action, mm, last);
  }

  /** Without its closing character the pattern takes the last digit for it: "…path 8:16" names 8:1. */
  lemma MpathPathTakesLastDigit(msg: string)
    requires msg == "device-mapper: multipath: " + ("Failing path " + "8:16")
    ensures MpathPath(msg) == Some(("Failing", "8:1"))
  {
    assert IsDigit('8') && IsDigit('1');
    MajorMinorOf("8", "1");
    var mm := "8" + ":" + "1";
    assert mm == "8:1";
    MpathPathComplete("Failing", mm, '6');
    var tail := "Failing" + " path " + mm + ['6'];
    assert "Failing path " == "Failing" + " path " && "8:16" == mm + ['6'];
    assert tail == "Failing path " + "8:16";
  }

  /** The subsystem, device name and event type the classification finds. */
  datatype Class = Class(subSystem: StorageSubSystem, devName: string, eventType: string)

  const Unclassified: Class := Class(StorageSubSystem.Unknown, "", "")

  function Classify(k: Kmsg): (c: Class)
    ensures c.subSystem == StorageSubSystem.Scsi <==>
      "SUBSYSTEM" in k.dict && k.dict["SUBSYSTEM"] == "scsi" && "DEVICE" in k.dict && StartsWith(k.dict["DEVICE"], "+scsi:")
    ensures c.subSystem == LvmThin <==>
      "SUBSYSTEM" !in k.dict && StartsWith(k.msg, "device-mapper: thin:") && ThinDevice(k.msg).Some?
    ensures c.subSystem == Multipath <==>
      "SUBSYSTEM" !in k.dict && !StartsWith(k.msg, "device-mapper: thin:")
      && StartsWith(k.msg, "device-mapper: multipath:") && MpathPath(k.msg).Some?
    ensures c.subSystem == Multipath ==> c.eventType == "DM_MPATH_PATH_FAILED" || c.eventType == "DM_MPATH_PATH_REINSTATED"
    ensures c.subSystem != Multipath ==> c.eventType == ""
    ensures c.subSystem == StorageSubSystem.Unknown ==> c == Unclassified
  {
    if "SUBSYSTEM" in k.dict then
      if k.dict["SUBSYSTEM"] == "scsi" && "DEVICE" in k.dict && StartsWith(k.dict["DEVICE"], "+scsi:") then
        Class(StorageSubSystem.Scsi, TrimLeftMatches(k.dict["DEVICE"], "+scsi:"), "")
      else Unclassified
    else if StartsWith(k.msg, "device-mapper: thin:") then
      match ThinDevice(k.msg)
        case None => Unclassified
        case Some(d) => Class(LvmThin, d, "")
    else if StartsWith(k.msg, "device-mapper: multipath:") then
      match MpathPath(k.msg)
        case None => Unclassified
        case Some(ad) =>
          Class(Multipath, ad.1, if ad.0 == "Failing" then "DM_MPATH_PATH_FAILED" else "DM_MPATH_PATH_REINSTATED")
    else Unclassified
  }

  /**
   * `kmsg_to_storage_event`: nothing while the subsystem is unknown;
   * otherwise an event with the class found, the record's severity and
   * message, and the time stamp given.
   */
  function ToEvent(k: Kmsg, now: string): (r: Option<StorageEvent>)
    requires k.severity <= 7
  {
    var c := Classify(k);
    if c.subSystem == StorageSubSystem.Unknown then None
    else Some(DefaultEvent().(subSystem := c.subSystem, devName := c.devName, eventType := c.eventType,
                              severity := FromLevel(k.severity), msg := k.msg, timestamp := now))
  }

  /** A thin-pool device number implies the thin guard, and rules out the multipath one. */
  lemma ThinGuard(msg: string)
    requires ThinDevice(msg).Some?
    ensures StartsWith(msg, "device-mapper: thin:") && !StartsWith(msg, "device-mapper: multipath:")
  {
    var head := msg[..|THIN_PREFIX|];
    assert head == THIN_PREFIX;
    assert msg[..20] == head[..20] == "device-mapper: thin:";
    assert msg[15] == head[15] == 't';
  }

  /**
   * Which records become events: a SCSI record with a "+scsi:" device, a
   * thin-pool message naming a device, or a multipath path failure or
   * reinstatement whose first gap is a plain space; nothing else.
   */
  lemma ToEventWhen(k: Kmsg, now: string)
    requires k.severity <= 7
    ensures ToEvent(k, now).Some? <==>
      ("SUBSYSTEM" in k.dict && k.dict["SUBSYSTEM"] == "scsi" && "DEVICE" in k.dict && StartsWith(k.dict["DEVICE"], "+scsi:"))
      || ("SUBSYSTEM" !in k.dict && ThinDevice(k.msg).Some?)
      || ("SUBSYSTEM" !in k.dict && StartsWith(k.msg, "device-mapper: multipath:") && MpathPath(k.msg).Some?)
  {
    assert ToEvent(k, now).Some? <==> Classify(k).subSystem != StorageSubSystem.Unknown;
    if "SUBSYSTEM" !in k.dict {
      if ThinDevice(k.msg).Some? {
        ThinGuard(k.msg);
      } else if StartsWith(k.msg, "device-mapper: multipath:") {
        MpathGuard(k.msg);
      }
    }
  }

  /** The multipath guard rules out the thin one. */
  lemma MpathGuard(msg: string)
    requires StartsWith(msg, "device-mapper: multipath:")
    ensures !StartsWith(msg, "device-mapper: thin:")
  {
    assert msg[15] == 'm';
  }

  /**
   * The event keeps the record's severity and message, sets no wwid, and
   * names the device as the class found it: a SCSI name with every leading
   * "+scsi:" removed, a `major:minor` for the device-mapper messages.
   */
  lemma ToEventFields(k: Kmsg, now: string)
    requires k.severity <= 7 && ToEvent(k, now).Some?
    ensures var e := ToEvent(k, now).value;
      && Level(e.severity) == k.severity && e.msg == k.msg && e.timestamp == now
      && e.devWwid == "" && e.subSystem != StorageSubSystem.Unknown
      && (e.subSystem == StorageSubSystem.Scsi ==> !StartsWith(e.devName, "+scsi:") && e.eventType == "")
      && (e.subSystem == Multipath ==>
            (e.eventType == "DM_MPATH_PATH_FAILED" || e.eventType == "DM_MPATH_PATH_REINSTATED") && IsMajorMinor(e.devName))
      && (e.subSystem == LvmThin ==> IsMajorMinor(e.devName) && e.eventType == "")
  {
  }

  /** The pattern's first gap is any white-space character. */
  lemma MpathGap(gap: char, tail: string)
    requires IsSpace(gap)
    ensures MpathPath("device-mapper:" + [gap] + "multipath: " + tail) == ActionDevice(tail)
  {
    var msg := "device-mapper:" + [gap] + "multipath: " + tail;
    assert msg[..14] == "device-mapper:" && msg[14] == gap;
    assert msg[15..25] == "multipath:" && msg[25] == ' ' && msg[26..] == tail;
  }

  /**
   * A gap other than a plain space satisfies the pattern but not the guard
   * before it, so a "device-mapper:<tab>multipath: …" message is dropped
   * even when the pattern would name a path.
   */
  lemma MpathOtherGapIsDropped(k: Kmsg, now: string, gap: char, tail: string)
    requires k.severity <= 7 && "SUBSYSTEM" !in k.dict
    requires gap != ' ' && k.msg == "device-mapper:" + [gap] + "multipath: " + tail
    ensures ToEvent(k, now).None?
  {
    assert k.msg[14] == gap;
    assert !StartsWith(k.msg, "device-mapper: thin:") by {
      assert "device-mapper: thin:"[14] == ' ';
    }
    assert !StartsWith(k.msg, "device-mapper: multipath:") by {
      assert "device-mapper: multipath:"[14] == ' ';
    }
    assert Classify(k) == Unclassified;
  }

  /** `kmsg_to_storage_event` as written, filling a default event field by field. */
  method KmsgToStorageEvent(k: Kmsg, now: string) returns (r: Option<StorageEvent>)
    requires k.severity <= 7
    ensures r == ToEvent(k, now)
  {
    var se := DefaultEvent();
    if "SUBSYSTEM" in k.dict {
      if k.dict["SUBSYSTEM"] == "scsi" {
        var name := "";
        if "DEVICE" in k.dict && StartsWith(k.dict["DEVICE"], "+scsi:") {
          se := se.(subSystem := StorageSubSystem.Scsi);
          name := TrimLeftMatches(k.dict["DEVICE"], "+scsi:");
        }
        se := se.(devName := name);
      }
    } else if StartsWith(k.msg, "device-mapper: thin:") {
      var cap := ThinDevice(k.msg);
      if cap.Some? {
        se := se.(subSystem := LvmThin, devName := cap.value);
      }
    } else if StartsWith(k.msg, "device-mapper: multipath:") {
      var cap := MpathPath(k.msg);
      if cap.Some? {
        se := se.(devName := cap.value.1, subSystem := Multipath);
        if cap.value.0 == "Failing" {
          se := se.(eventType := "DM_MPATH_PATH_FAILED");
        } else {
          se := se.(eventType := "DM_MPATH_PATH_REINSTATED");
        }
      }
    }
    if se.subSystem != StorageSubSystem.Unknown {
      se := se.(severity := FromLevel(k.severity), msg := k.msg, timestamp := now);
      r := Some(se);
    } else {
      r := None;
    }
  }
  // ---------------------------------------------------------------------
  // The plugin's loop

  datatype Outcome = Emit(event: StorageEvent) | Skip | Stop

  /** One record read: parsed, classified and stamped with the host name; `Stop` when an `unwrap` failed. */
  function Forward(text: string, hostname: string, now: string): (r: Outcome)
    ensures r.Emit? ==> r.event.hostname == hostname && r.event.subSystem != StorageSubSystem.Unknown
  {
    match GenKmsg(text)
      case Aborted => Stop
      case Dropped => Skip
      case Kept(k) =>
        GenKmsgKept(text);
        match ToEvent(k, now)
          case None => Skip
          case Some(e) =>
            ToEventFields(k, now);
            Emit(e.(hostname := hostname))
  }

  /** The events sent for the records read, in order, up to the first record that stops the plugin. */
  function Emitted(records: seq<string>, hostname: string, nows: seq<string>): seq<StorageEvent>
    requires |nows| == |records|
  {
    if |records| == 0 then []
    else match Forward(records[0], hostname, nows[0])
      case Stop => []
      case Skip => Emitted(records[1..], hostname, nows[1..])
      case Emit(e) => [e] + Emitted(records[1..], hostname, nows[1..])
  }

  /** Every event sent carries the host name and a known subsystem, and there is at most one per record. */
  lemma {:induction false} EmittedEvents(records: seq<string>, hostname: string, nows: seq<string>)
    requires |nows| == |records|
    ensures |Emitted(records, hostname, nows)| <= |records|
    ensures forall e :: e in Emitted(records, hostname, nows) ==>
      e.hostname == hostname && e.subSystem != StorageSubSystem.Unknown
  {
    if |records| > 0 {
      EmittedEvents(records[1..], hostname, nows[1..]);
    }
  }

  /** One turn of `main`'s loop: `gen_kmsg`, then `kmsg_to_storage_event`, then the host name. */
  method Handle(text: string, hostname: string, now: string) returns (r: Outcome)
    ensures r == Forward(text, hostname, now)
  {
    var parsed := GenKmsgOf(text);
    if parsed.Aborted? {
      return Stop;
    }
    r := Skip;
    if parsed.Kept? {
      GenKmsgKept(text);
      var event := KmsgToStorageEvent(parsed.kmsg, now);
      if event.Some? {
        r := Emit(event.value.(hostname := hostname));
      }
    }
  }

  /** `main`'s loop over the records read, with the clock's readings given. */
  method Run(records: seq<string>, hostname: string, nows: seq<string>) returns (sent: seq<StorageEvent>)
    requires |nows| == |records|
    ensures sent == Emitted(records, hostname, nows)
  {
    sent := [];
    var i := 0;
    while i < |records|
      invariant 0 <= i <= |records|
      invariant sent + Emitted(records[i..], hostname, nows[i..]) == Emitted(records, hostname, nows)
    {
      assert records[i..][1..] == records[i + 1..] && nows[i..][1..] == nows[i + 1..];
      var outcome := Handle(records[i], hostname, nows[i]);
      if outcome.Stop? {
        return;
      }
      if outcome.Emit? {
        sent := sent + [outcome.event];
      }
      i := i + 1;
    }
  }
}
