/**
 * The text rules the SCSI code applies to kernel names and sysfs strings:
 * the partition name pattern `^(sd[a-z]+)([0-9]+)$`, the SCSI address
 * patterns `H:C:T:L` and `major:minor`, the host and target prefixes of a
 * SCSI address, and `pretty_wwid`. The older library and the older daemon
 * carry identical copies of these helpers; the model states them once.
 */
module ScsiText {
  import opened Common

  // ---------------------------------------------------------------------
  // Partition names

  predicate AllLowerLetters(s: string) { forall i :: 0 <= i < |s| ==> IsLowerLetter(s[i]) }

  /** The length of the leading run of lower-case letters. */
  function LetterRun(s: string): (n: nat)
    ensures n <= |s| && AllLowerLetters(s[..n])
    ensures n < |s| ==> !IsLowerLetter(s[n])
  {
    if |s| > 0 && IsLowerLetter(s[0]) then
      var n := 1 + LetterRun(s[1..]);
      assert s[..n] == [s[0]] + s[1..][..n - 1];
      n
    else 0
  }

  /**
   * `^(sd[a-z]+)([0-9]+)$`: a partition of a SCSI disk split into the disk
   * name and the partition number.
   */
  function SplitPartition(blk: string): (r: Option<(string, string)>)
  {
    if !StartsWith(blk, "sd") then None
    else
      var n := 2 + LetterRun(blk[2..]);
      if n > 2 && n < |blk| && AllDigits(blk[n..]) then Some((blk[..n], blk[n..])) else None
  }

  predicate IsDiskName(d: string)
  {
    StartsWith(d, "sd") && |d| > 2 && AllLowerLetters(d[2..])
  }

  /** A successful split gives back a disk name and a digit string that make up the input. */
  lemma SplitPartitionSound(blk: string)
    requires SplitPartition(blk).Some?
    ensures var (d, p) := SplitPartition(blk).value;
      IsDiskName(d) && |p| > 0 && AllDigits(p) && d + p == blk
  {
    var n := 2 + LetterRun(blk[2..]);
    assert blk[..n][2..] == blk[2..][..n - 2];
    assert blk[..n] + blk[n..] == blk;
  }

  /** Every disk name followed by a partition number is split back into the two. */
  lemma {:induction false} SplitPartitionComplete(d: string, p: string)
    requires IsDiskName(d) && |p| > 0 && AllDigits(p)
    ensures SplitPartition(d + p) == Some((d, p))
  {
    var blk := d + p;
    assert blk[..2] == d[..2];
    LetterRunOfWord(d[2..], p);
    assert blk[2..] == d[2..] + p;
    assert blk[..|d|] == d && blk[|d|..] == p;
  }

  /** A disk name has no partition number to split off. */
  lemma DiskNameIsWhole(d: string)
    requires IsDiskName(d)
    ensures SplitPartition(d).None?
  {
    LetterRunOfLetters(d[2..]);
  }

  lemma {:induction false} LetterRunOfLetters(w: string)
    requires AllLowerLetters(w)
    ensures LetterRun(w) == |w|
  {
    if |w| > 0 {
      LetterRunOfLetters(w[1..]);
    }
  }

  lemma {:induction false} LetterRunOfWord(w: string, p: string)
    requires AllLowerLetters(w) && |p| > 0 && AllDigits(p)
    ensures LetterRun(w + p) == |w|
  {
    if |w| > 0 {
      assert (w + p)[1..] == w[1..] + p;
      LetterRunOfWord(w[1..], p);
    } else {
      assert (w + p)[0] == p[0];
    }
  }

  // ---------------------------------------------------------------------
  // SCSI addresses and major:minor numbers

  /** `(?:[0-9]+:){k}[0-9]+` matched against the whole of `s`. */
  predicate DigitGroups(s: string, k: nat)
    decreases |s|
  {
    if k == 0 then |s| > 0 && AllDigits(s)
    else match IndexOf(s, ':')
      case None => false
      case Some(i) => i > 0 && AllDigits(s[..i]) && DigitGroups(s[i + 1..], k - 1)
  }

  /** `^(?:[0-9]+:){3}[0-9]+$`: a SCSI address `host:channel:target:lun`. */
  predicate IsScsiId(s: string) { DigitGroups(s, 3) }

  /** `^[0-9]+:[0-9]+$`: a block device number `major:minor`. */
  predicate IsMajorMinor(s: string) { DigitGroups(s, 1) }

  /**
   * `(:?[0-9]+:){k}[0-9]+` matched against the whole of `s`: each group may
   * begin with an extra colon. The older daemon's SCSI address pattern is
   * written this way.
   */
  predicate LooseDigitGroups(s: string, k: nat)
    decreases |s|
  {
    if k == 0 then |s| > 0 && AllDigits(s)
    else
      var t := if |s| > 0 && s[0] == ':' then s[1..] else s;
      match IndexOf(t, ':')
        case None => false
        case Some(i) => i > 0 && AllDigits(t[..i]) && LooseDigitGroups(t[i + 1..], k - 1)
  }

  /** `^(:?[0-9]+:){3}[0-9]+$`, the older daemon's SCSI address pattern as written. */
  predicate IsScsiIdAsWritten(s: string) { LooseDigitGroups(s, 3) }

  /** The pattern as written accepts every SCSI address the intended one does. */
  lemma {:induction false} StrictGroupsAreLoose(s: string, k: nat)
    requires DigitGroups(s, k)
    ensures LooseDigitGroups(s, k)
    decreases |s|
  {
    if k > 0 {
      var i := IndexOf(s, ':').value;
      assert s[0] != ':' by { assert IsDigit(s[..i][0]); }
      StrictGroupsAreLoose(s[i + 1..], k - 1);
    }
  }

  /** No accepted SCSI address holds two colons in a row or begins with one. */
  lemma {:induction false} StrictGroupsHaveNoEmptyField(s: string, k: nat)
    requires DigitGroups(s, k)
    ensures |s| > 0 && s[0] != ':'
    ensures forall j :: 0 <= j < |s| - 1 ==> !(s[j] == ':' && s[j + 1] == ':')
    decreases |s|
  {
    if k == 0 {
      assert forall j :: 0 <= j < |s| ==> s[j] != ':' by {
        forall j | 0 <= j < |s| ensures s[j] != ':' { assert IsDigit(s[j]); }
      }
    } else {
      var i := IndexOf(s, ':').value;
      assert IsDigit(s[..i][0]);
      var rest := s[i + 1..];
      StrictGroupsHaveNoEmptyField(rest, k - 1);
      forall j | 0 <= j < |s| - 1 ensures !(s[j] == ':' && s[j + 1] == ':') {
        if j < i - 1 {
          assert IsDigit(s[..i][j]);
        } else if j == i - 1 {
          assert IsDigit(s[..i][j]);
        } else if j == i {
          assert s[j + 1] == rest[0];
        } else {
          assert s[j] == rest[j - i - 1] && s[j + 1] == rest[j - i];
        }
      }
    }
  }

  /** Every group pattern match begins with a digit. */
  lemma DigitGroupsStartWithDigit(s: string, k: nat)
    requires DigitGroups(s, k)
    ensures |s| > 0 && IsDigit(s[0])
  {
    if k > 0 {
      var i := IndexOf(s, ':').value;
      assert IsDigit(s[..i][0]);
    }
  }

  /**
   * A string matches the group pattern for at most one group count: in
   * particular no SCSI address is a `major:minor` number.
   */
  lemma {:induction false} DigitGroupsUnique(s: string, j: nat, k: nat)
    requires DigitGroups(s, j) && DigitGroups(s, k)
    ensures j == k
    decreases |s|
  {
    if j > 0 && k > 0 {
      var i := IndexOf(s, ':').value;
      DigitGroupsUnique(s[i + 1..], j - 1, k - 1);
    }
  }

  /** The text before the first colon of a SCSI address: its host number. */
  function ScsiHostId(scsiId: string): (r: Option<string>)
    ensures r.Some? ==> ':' !in r.value && StartsWith(scsiId, r.value + ":")
    ensures r.None? <==> ':' !in scsiId
  {
    match IndexOf(scsiId, ':')
      case None => None
      case Some(i) =>
        assert scsiId[..i + 1] == scsiId[..i] + ":";
        Some(scsiId[..i])
  }

  /** The text before the last colon of a SCSI address: its `host:channel:target` part. */
  function FcTargetId(scsiId: string): (r: Option<string>)
    ensures r.Some? ==> StartsWith(scsiId, r.value + ":") && ':' !in scsiId[|r.value| + 1..]
    ensures r.None? <==> ':' !in scsiId
  {
    match LastIndexOf(scsiId, ':')
      case None => None
      case Some(i) =>
        assert scsiId[..i + 1] == scsiId[..i] + ":";
        Some(scsiId[..i])
  }

  /** For `H:C:T:L` the host is `H` and the target is `H:C:T`. */
  lemma ScsiAddressParts(h: string, c: string, t: string, l: string)
    requires ':' !in h && ':' !in c && ':' !in t && ':' !in l
    ensures ScsiHostId(h + ":" + c + ":" + t + ":" + l) == Some(h)
    ensures FcTargetId(h + ":" + c + ":" + t + ":" + l) == Some(h + ":" + c + ":" + t)
  {
    var s := h + ":" + c + ":" + t + ":" + l;
    var i := IndexOf(s, ':').value;
    assert s[|h|] == ':' && s[..|h|] == h;
    assert i == |h|;
    var k := LastIndexOf(s, ':').value;
    var m := |h| + |c| + |t| + 2;
    assert s[m] == ':' && s[m + 1..] == l;
    assert k == m;
    assert s[..m] == h + ":" + c + ":" + t;
  }

  // ---------------------------------------------------------------------
  // pretty_wwid

  predicate IsBlank(c: char) { c == ' ' || c == '\t' }

  function DropBlanks(s: string): (r: string)
    ensures |r| <= |s| && (|s| > 0 && IsBlank(s[0]) ==> |r| < |s|)
    ensures r == s[|s| - |r|..]
  {
    if |s| > 0 && IsBlank(s[0]) then
      var r := DropBlanks(s[1..]);
      assert s[1..][|s| - 1 - |r|..] == s[|s| - |r|..];
      r
    else s
  }

  /** `Regex::new(r"[ \t]+").replace_all(s, "-")`: each run of blanks becomes one dash. */
  function CollapseBlanks(s: string): (r: string)
    ensures forall i :: 0 <= i < |r| ==> !IsBlank(r[i])
    decreases |s|
  {
    if |s| == 0 then []
    else if IsBlank(s[0]) then "-" + CollapseBlanks(DropBlanks(s))
    else [s[0]] + CollapseBlanks(s[1..])
  }

  /**
   * `Regex::new(r"(\\0)+$").replace_all(s, "")`: the trailing run of the
   * two-character sequence backslash, zero removed.
   */
  function StripBackslashZeros(s: string): (r: string)
    ensures !EndsWith(r, "\\0")
    ensures |r| <= |s| && r == s[..|r|]
  {
    if EndsWith(s, "\\0") then StripBackslashZeros(s[..|s| - 2]) else s
  }

  /** `pretty_wwid`: a sysfs WWID trimmed, blanks collapsed to dashes, padding removed. */
  function PrettyWwid(wwid: string): string
  {
    StripBackslashZeros(CollapseBlanks(Trim(wwid)))
  }

  /** A pretty WWID holds no blank and never ends in the padding sequence. */
  lemma PrettyWwidIsClean(wwid: string)
    ensures forall i :: 0 <= i < |PrettyWwid(wwid)| ==> !IsBlank(PrettyWwid(wwid)[i])
    ensures !EndsWith(PrettyWwid(wwid), "\\0")
  {
    var c := CollapseBlanks(Trim(wwid));
    var r := StripBackslashZeros(c);
    assert forall i :: 0 <= i < |r| ==> r[i] == c[i];
  }

  /**
   * The older daemon's pattern takes `1::2:3:4`, which is no SCSI address:
   * the intended pattern refuses it.
   */
  lemma ScsiIdPatternAsWrittenTakesDoubleColon()
    ensures IsScsiIdAsWritten("1::2:3:4")
    ensures !IsScsiId("1::2:3:4")
  {
    LooseDoubleColon();
    StrictRefusesDoubleColon();
  }

  lemma LooseDoubleColon()
    ensures LooseDigitGroups("1::2:3:4", 3)
  {
    var s := "1::2:3:4";
    assert s[0] == '1';
    IndexOfAt(s, ':', 1);
    assert s[..1] == "1" && s[2..] == ":2:3:4";
    assert AllDigits(s[..1]);
    LooseSuffix();
  }

  lemma StrictRefusesDoubleColon()
    ensures !DigitGroups("1::2:3:4", 3)
  {
    var s := "1::2:3:4";
    IndexOfAt(s, ':', 1);
    assert s[2..] == ":2:3:4";
    IndexOfAt(":2:3:4", ':', 0);
  }

  lemma LooseSuffix()
    ensures LooseDigitGroups(":2:3:4", 2)
  {
    assert ":2:3:4"[1..] == "2:3:4";
    IndexOfAt("2:3:4", ':', 1);
    assert "2:3:4"[..1] == "2" && "2:3:4"[2..] == "3:4";
    LooseLastTwo();
  }

  lemma LooseLastTwo()
    ensures LooseDigitGroups("3:4", 1)
  {
    IndexOfAt("3:4", ':', 1);
    assert "3:4"[..1] == "3" && "3:4"[2..] == "4";
    assert LooseDigitGroups("4", 0);
  }

  // ---------------------------------------------------------------------
  // The SCSI parser's event rules

  /** One leading `+scsi:` taken off a kernel device name. */
  function StripScsiPrefix(kdev: string): (r: string)
    ensures StartsWith(kdev, "+scsi:") ==> "+scsi:" + r == kdev
    ensures !StartsWith(kdev, "+scsi:") ==> r == kdev
  {
    if StartsWith(kdev, "+scsi:") then
      assert kdev == kdev[..6] + kdev[6..];
      kdev[6..]
    else kdev
  }

  /**
   * The sense-key rewrite: a `SCSI_SENSE_KEY` event whose `sense_key` is a
   * medium or hardware error is renamed after it.
   */
  function SenseRewrite(eventType: string, extension: map<string, string>): (r: string)
    ensures r != eventType <==>
      eventType == "SCSI_SENSE_KEY" && "sense_key" in extension
      && (extension["sense_key"] == "Medium Error" || extension["sense_key"] == "Hardware Error")
    ensures r != eventType ==>
      (r == "SCSI_MEDIUM_ERROR" <==> extension["sense_key"] == "Medium Error")
      && (r == "SCSI_HARDWARE_ERROR" <==> extension["sense_key"] == "Hardware Error")
  {
    if eventType == "SCSI_SENSE_KEY" && "sense_key" in extension then
      if extension["sense_key"] == "Medium Error" then "SCSI_MEDIUM_ERROR"
      else if extension["sense_key"] == "Hardware Error" then "SCSI_HARDWARE_ERROR"
      else eventType
    else eventType
  }
}
