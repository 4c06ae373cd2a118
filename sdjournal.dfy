/**
 * The sdjournal crate: a thin binding over libsystemd's journal API.
 *
 * Every call into libsystemd is replaced by the return code (and, where the
 * call hands data back, the data) it gives, passed in as a parameter.
 * `strerror` stands for `error_string`, the C library's text for an errno.
 * The state the C library keeps for an open journal (its match list and its
 * read position) is kept as fields of `Journal` so that what each call
 * changes can be stated.
 */
module SdJournal {
  import opened Common

  const U64_MAX: nat := 0xFFFF_FFFF_FFFF_FFFF

  type U64 = x: nat | x <= U64_MAX

  /** The key under which `get_log_entry_map` stores the entry's time stamp. */
  const REALTIME_KEY: string := "__REALTIME_TIMESTAMP"

  datatype ClibraryError = ClibraryError(message: string, returnCode: int, errReason: string)

  /** `ClibraryError::new`: libsystemd reports errors as negated errno values. */
  function NewClibraryError(message: string, rc: int, strerror: int -> string): (e: ClibraryError)
    ensures e.message == message && e.returnCode == rc
    ensures e.errReason == strerror(-rc)
  {
    ClibraryError(message, rc, strerror(-rc))
  }

  function CFailure(message: string, rc: int, strerror: int -> string): SdJournalError
  {
    CError(NewClibraryError(message, rc, strerror))
  }

  datatype SdJournalError =
    | CError(cerr: ClibraryError)
    | NulError
    | Utf8Error

  /** `SdJournalWait`: the values `sd_journal_wait` returns on success. */
  const WAIT_NOP: int := 0
  const WAIT_APPEND: int := 1
  const WAIT_INVALIDATE: int := 2

  // ---------------------------------------------------------------------
  // Reading one entry: sd_journal_enumerate_data and sd_journal_get_realtime_usec

  /**
   * One reply of `sd_journal_enumerate_data`: its return code and, when the
   * code is positive, the field bytes decoded as UTF-8 (`None` when they are
   * not valid UTF-8).
   */
  datatype EnumItem = EnumItem(rc: int, data: Option<string>)

  /** A journal field `KEY=value` split at its first `=`; `None` without one. */
  function SplitField(s: string): (r: Option<(string, string)>)
    ensures r.Some? ==> r.value.0 + "=" + r.value.1 == s && '=' !in r.value.0
    ensures r.None? <==> '=' !in s
  {
    match IndexOf(s, '=')
      case None => None
      case Some(m) =>
        assert s == s[..m] + "=" + s[m + 1..];
        Some((s[..m], s[m + 1..]))
  }

  /** The text `send_journal_list` hands to journald for one pair. */
  function FieldText(kv: (string, string)): string
  {
    kv.0 + "=" + kv.1
  }

  /** What journald stores from `send_journal_list` reads back as the pair it was given. */
  lemma FieldRoundTrip(key: string, value: string)
    requires '=' !in key
    ensures SplitField(FieldText((key, value))) == Some((key, value))
  {
    var s := FieldText((key, value));
    assert s[..|key|] == key;
    assert s[|key|] == '=';
    assert '=' !in s[..|key|];
    assert IndexOf(s, '=').value == |key|;
    assert s[|key| + 1..] == value;
  }

  /**
   * The enumeration loop of `get_log_entry_map`, from the given point on: a
   * positive code adds the field (when it holds a `=`), zero ends the
   * enumeration, a negative code is an error. Running out of replies reads as
   * the terminating zero.
   */
  function Enumerate(items: seq<EnumItem>, acc: map<string, string>, strerror: int -> string)
    : Result<map<string, string>, SdJournalError>
    decreases |items|
  {
    if |items| == 0 then Ok(acc)
    else if items[0].rc > 0 then
      match items[0].data
        case None => Err(Utf8Error)
        case Some(s) =>
          var acc' := match SplitField(s)
            case None => acc
            case Some(kv) => acc[kv.0 := kv.1];
          Enumerate(items[1..], acc', strerror)
    else if items[0].rc == 0 then Ok(acc)
    else Err(CFailure("Error on sd_journal_enumerate_data", items[0].rc, strerror))
  }

  /** `get_log_entry_map`: the fields of the current entry plus its time stamp. */
  function EntryMap(items: seq<EnumItem>, realtimeRc: int, usec: U64, strerror: int -> string)
    : Result<map<string, string>, SdJournalError>
  {
    match Enumerate(items, map[], strerror)
      case Err(e) => Err(e)
      case Ok(m) =>
        if realtimeRc == 0 then Ok(m[REALTIME_KEY := NatToString(usec)])
        else Err(CFailure("Error on sd_journal_get_realtime_usec", realtimeRc, strerror))
  }

  /** The key a reply contributes, if it is a field with a `=`. */
  function KeyOf(item: EnumItem): Option<string>
  {
    if item.data.Some? && SplitField(item.data.value).Some?
    then Some(SplitField(item.data.value).value.0) else None
  }

  /**
   * A later field overwrites an earlier one of the same name: the value the
   * map holds for a key is the one of the last reply carrying that key.
   */
  lemma {:induction false} EnumerateLastWins(items: seq<EnumItem>, acc: map<string, string>,
                                             strerror: int -> string, j: nat, key: string, value: string)
    requires j < |items|
    requires forall i :: 0 <= i <= j ==> items[i].rc > 0
    requires items[j].data.Some? && SplitField(items[j].data.value) == Some((key, value))
    requires forall i :: j < i < |items| ==> KeyOf(items[i]) != Some(key)
    requires Enumerate(items, acc, strerror).Ok?
    ensures key in Enumerate(items, acc, strerror).value
    ensures Enumerate(items, acc, strerror).value[key] == value
  {
    var s := items[0].data.value;
    var acc' := match SplitField(s) case None => acc case Some(kv) => acc[kv.0 := kv.1];
    if j == 0 {
      EnumerateKeeps(items[1..], acc', strerror, key);
    } else {
      EnumerateLastWins(items[1..], acc', strerror, j - 1, key, value);
    }
  }

  /** A key that no reply carries keeps the value it had before enumeration. */
  lemma {:induction false} EnumerateKeeps(items: seq<EnumItem>, acc: map<string, string>,
                                          strerror: int -> string, key: string)
    requires key in acc
    requires forall i :: 0 <= i < |items| ==> KeyOf(items[i]) != Some(key)
    requires Enumerate(items, acc, strerror).Ok?
    ensures key in Enumerate(items, acc, strerror).value
    ensures Enumerate(items, acc, strerror).value[key] == acc[key]
  {
    if |items| > 0 && items[0].rc > 0 {
      assert KeyOf(items[0]) != Some(key);
      var s := items[0].data.value;
      var acc' := match SplitField(s) case None => acc case Some(kv) => acc[kv.0 := kv.1];
      EnumerateKeeps(items[1..], acc', strerror, key);
    }
  }

  /** Every key of the map is the time stamp or comes from some field reply. */
  lemma {:induction false} EnumerateKeysFromFields(items: seq<EnumItem>, acc: map<string, string>,
                                                   strerror: int -> string, key: string)
    requires Enumerate(items, acc, strerror).Ok?
    requires key in Enumerate(items, acc, strerror).value
    ensures key in acc || exists i :: 0 <= i < |items| && KeyOf(items[i]) == Some(key)
  {
    if |items| > 0 && items[0].rc > 0 {
      var s := items[0].data.value;
      var acc' := match SplitField(s) case None => acc case Some(kv) => acc[kv.0 := kv.1];
      EnumerateKeysFromFields(items[1..], acc', strerror, key);
      if key !in acc' {
        var i :| 0 <= i < |items[1..]| && KeyOf(items[1..][i]) == Some(key);
        assert KeyOf(items[i + 1]) == Some(key);
      } else if key !in acc {
        assert KeyOf(items[0]) == Some(key);
      }
    }
  }

  // ---------------------------------------------------------------------
  // Moving to the next entry: sd_journal_next and sd_journal_wait

  /**
   * One turn of the `get_next_entry` loop: the code of `sd_journal_next` and,
   * consulted only when that code is zero, the code of `sd_journal_wait`.
   */
  datatype Poll = Poll(nextRc: int, waitRc: int)

  /** A turn after which the loop goes round again. */
  predicate IsRetry(p: Poll)
  {
    p.nextRc == 0 && (p.waitRc == WAIT_APPEND || p.waitRc == WAIT_INVALIDATE)
  }

  /**
   * `get_next_entry`: waits past appends and invalidations; `None` when the
   * wait reports nothing new. Running out of turns reads as `sd_journal_next`
   * giving zero and `sd_journal_wait` giving `Nop`.
   */
  function NextEntry(polls: seq<Poll>, items: seq<EnumItem>, realtimeRc: int, usec: U64,
                     strerror: int -> string): Option<Result<map<string, string>, SdJournalError>>
    decreases |polls|
  {
    if |polls| == 0 then None
    else if polls[0].nextRc < 0 then Some(Err(CFailure("Error on sd_journal_next", polls[0].nextRc, strerror)))
    else if polls[0].nextRc == 0 then
      if polls[0].waitRc == WAIT_NOP then None
      else if IsRetry(polls[0]) then NextEntry(polls[1..], items, realtimeRc, usec, strerror)
      else Some(Err(CFailure("Error on sd_journal_wait", polls[0].waitRc, strerror)))
    else Some(EntryMap(items, realtimeRc, usec, strerror))
  }

  /** Retries are invisible: the outcome is decided by the first turn that is not a retry. */
  lemma {:induction false} NextEntrySkipsRetries(polls: seq<Poll>, k: nat, items: seq<EnumItem>,
                                                 realtimeRc: int, usec: U64, strerror: int -> string)
    requires k <= |polls|
    requires forall i :: 0 <= i < k ==> IsRetry(polls[i])
    ensures NextEntry(polls, items, realtimeRc, usec, strerror)
         == NextEntry(polls[k..], items, realtimeRc, usec, strerror)
  {
    if k > 0 {
      assert polls[1..][k - 1..] == polls[k..];
      NextEntrySkipsRetries(polls[1..], k - 1, items, realtimeRc, usec, strerror);
    }
  }

  /** An entry is read exactly when the first turn that is not a retry finds one. */
  lemma {:induction false} NextEntryReadsOnlyAfterNext(polls: seq<Poll>, items: seq<EnumItem>,
                                                       realtimeRc: int, usec: U64, strerror: int -> string)
    requires NextEntry(polls, items, realtimeRc, usec, strerror).Some?
    requires NextEntry(polls, items, realtimeRc, usec, strerror).value.Ok?
    ensures NextEntry(polls, items, realtimeRc, usec, strerror) == Some(EntryMap(items, realtimeRc, usec, strerror))
    ensures exists k :: 0 <= k < |polls| && polls[k].nextRc > 0 && forall i :: 0 <= i < k ==> IsRetry(polls[i])
  {
    if polls[0].nextRc <= 0 {
      NextEntryReadsOnlyAfterNext(polls[1..], items, realtimeRc, usec, strerror);
      var k :| 0 <= k < |polls[1..]| && polls[1..][k].nextRc > 0 && forall i :: 0 <= i < k ==> IsRetry(polls[1..][i]);
      assert forall i :: 0 <= i < k + 1 ==> IsRetry(polls[i]) by {
        forall i | 0 <= i < k + 1 ensures IsRetry(polls[i]) {
          if i > 0 { assert polls[i] == polls[1..][i - 1]; } else { assert IsRetry(polls[0]); }
        }
      }
      assert polls[k + 1].nextRc > 0;
    } else {
      assert polls[0].nextRc > 0;
    }
  }

  // ---------------------------------------------------------------------
  // The open journal

  /** Where the next `sd_journal_next` starts reading. */
  datatype Cursor = Head | Tail | Realtime(usec: U64)

  class Journal {
    var timeoutUs: U64
    /** The match expressions libsystemd holds for this journal. */
    var matches: seq<string>
    var cursor: Cursor

    constructor Opened()
      ensures timeoutUs == U64_MAX && matches == [] && cursor == Head
    {
      timeoutUs := U64_MAX;
      matches := [];
      cursor := Head;
    }

    /** `Journal::new`: any non-zero code of `sd_journal_open` is an error. */
    static method Open(openRc: int, strerror: int -> string) returns (r: Result<Journal, SdJournalError>)
      ensures openRc != 0 ==> r == Err(CFailure("Error on sd_journal_open", openRc, strerror))
      ensures openRc == 0 ==> r.Ok? && fresh(r.value)
      ensures openRc == 0 ==> r.value.timeoutUs == U64_MAX && r.value.matches == [] && r.value.cursor == Head
    {
      if openRc != 0 {
        r := Err(CFailure("Error on sd_journal_open", openRc, strerror));
      } else {
        var j := new Journal.Opened();
        r := Ok(j);
      }
    }

    /**
     * `add_match`: a filter holding a NUL cannot become a C string and never
     * reaches libsystemd; otherwise a negative code is an error.
     */
    method AddMatch(filter: string, rc: int, strerror: int -> string) returns (r: Result<(), SdJournalError>)
      modifies this`matches
      ensures '\0' in filter ==> r == Err(NulError)
      ensures '\0' !in filter && rc < 0 ==> r == Err(CFailure("Error on sd_journal_add_match", rc, strerror))
      ensures r.Ok? <==> '\0' !in filter && rc >= 0
      ensures matches == if r.Ok? then old(matches) + [filter] else old(matches)
    {
      if '\0' in filter {
        return Err(NulError);
      }
      if rc < 0 {
        return Err(CFailure("Error on sd_journal_add_match", rc, strerror));
      }
      matches := matches + [filter];
      r := Ok(());
    }

    /** `seek_realtime_usec`. */
    method SeekRealtimeUsec(usec: U64, rc: int, strerror: int -> string) returns (r: Result<(), SdJournalError>)
      modifies this`cursor
      ensures r.Ok? <==> rc >= 0
      ensures rc < 0 ==> r == Err(CFailure("Error on sd_journal_seek_realtime_usec", rc, strerror))
      ensures cursor == if rc >= 0 then Realtime(usec) else old(cursor)
    {
      if rc < 0 {
        return Err(CFailure("Error on sd_journal_seek_realtime_usec", rc, strerror));
      }
      cursor := Realtime(usec);
      r := Ok(());
    }

    /**
     * `seek_tail`: seeks to the end and steps back one entry; the step back is
     * only tried when the seek succeeded.
     */
    method SeekTail(seekRc: int, skipRc: int, strerror: int -> string) returns (r: Result<(), SdJournalError>)
      modifies this`cursor
      ensures seekRc < 0 ==> r == Err(CFailure("Error on sd_journal_seek_tail", seekRc, strerror))
      ensures seekRc >= 0 && skipRc < 0 ==> r == Err(CFailure("Error on sd_journal_previous_skip", skipRc, strerror))
      ensures r.Ok? <==> seekRc >= 0 && skipRc >= 0
      ensures cursor == if seekRc >= 0 then Tail else old(cursor)
    {
      if seekRc < 0 {
        return Err(CFailure("Error on sd_journal_seek_tail", seekRc, strerror));
      }
      cursor := Tail;
      if skipRc < 0 {
        return Err(CFailure("Error on sd_journal_previous_skip", skipRc, strerror));
      }
      r := Ok(());
    }

    /** `get_log_entry_map`, the enumeration loop. */
    method GetLogEntryMap(items: seq<EnumItem>, realtimeRc: int, usec: U64, strerror: int -> string)
      returns (r: Result<map<string, string>, SdJournalError>)
      ensures r == EntryMap(items, realtimeRc, usec, strerror)
      ensures r.Ok? ==> REALTIME_KEY in r.value && r.value[REALTIME_KEY] == NatToString(usec)
    {
      var result: map<string, string> := map[];
      var i := 0;
      while i < |items|
        invariant 0 <= i <= |items|
        invariant Enumerate(items, map[], strerror) == Enumerate(items[i..], result, strerror)
      {
        var item := items[i];
        assert items[i..][0] == item && items[i..][1..] == items[i + 1..];
        if item.rc > 0 {
          if item.data.None? {
            return Err(Utf8Error);
          }
          match SplitField(item.data.value) {
            case Some(kv) => result := result[kv.0 := kv.1];
            case None =>
          }
        } else if item.rc == 0 {
          break;
        } else {
          return Err(CFailure("Error on sd_journal_enumerate_data", item.rc, strerror));
        }
        i := i + 1;
      }
      if realtimeRc == 0 {
        result := result[REALTIME_KEY := NatToString(usec)];
      } else {
        return Err(CFailure("Error on sd_journal_get_realtime_usec", realtimeRc, strerror));
      }
      r := Ok(result);
    }

    /** `get_next_entry`, the wait loop. */
    method GetNextEntry(polls: seq<Poll>, items: seq<EnumItem>, realtimeRc: int, usec: U64,
                        strerror: int -> string)
      returns (r: Option<Result<map<string, string>, SdJournalError>>)
      ensures r == NextEntry(polls, items, realtimeRc, usec, strerror)
      ensures r.Some? && r.value.Ok? ==> exists k :: 0 <= k < |polls| && polls[k].nextRc > 0
    {
      var i := 0;
      while i < |polls|
        invariant 0 <= i <= |polls|
        invariant NextEntry(polls, items, realtimeRc, usec, strerror)
               == NextEntry(polls[i..], items, realtimeRc, usec, strerror)
        invariant forall k :: 0 <= k < i ==> polls[k].nextRc == 0
      {
        assert polls[i..][0] == polls[i] && polls[i..][1..] == polls[i + 1..];
        var logEntry := polls[i].nextRc;
        if logEntry < 0 {
          return Some(Err(CFailure("Error on sd_journal_next", logEntry, strerror)));
        }
        if logEntry == 0 {
          var waitRc := polls[i].waitRc;
          if waitRc == WAIT_NOP {
            return None;
          } else if waitRc == WAIT_APPEND || waitRc == WAIT_INVALIDATE {
            i := i + 1;
            continue;
          } else {
            return Some(Err(CFailure("Error on sd_journal_wait", waitRc, strerror)));
          }
        }
        var result := GetLogEntryMap(items, realtimeRc, usec, strerror);
        return Some(result);
      }
      r := None;
    }
  }

  /**
   * `send_journal_list`: each pair becomes one `KEY=value` C string; a string
   * holding a NUL stops the send before libsystemd is called. `sent` is what is
   * handed to `sd_journal_sendv`.
   */
  method SendJournalList(logs: seq<(string, string)>, sendRc: int, strerror: int -> string)
    returns (r: Result<(), SdJournalError>, sent: seq<string>)
    ensures (exists i :: 0 <= i < |logs| && '\0' in FieldText(logs[i])) ==> r == Err(NulError) && sent == []
    ensures (forall i :: 0 <= i < |logs| ==> '\0' !in FieldText(logs[i])) ==>
              |sent| == |logs| && (forall i :: 0 <= i < |logs| ==> sent[i] == FieldText(logs[i]))
              && (r.Ok? <==> sendRc >= 0)
              && (sendRc < 0 ==> r == Err(CFailure("Error on sd_journal_sendv", sendRc, strerror)))
  {
    var msgs: seq<string> := [];
    var i := 0;
    while i < |logs|
      invariant 0 <= i <= |logs|
      invariant |msgs| == i
      invariant forall k :: 0 <= k < i ==> msgs[k] == FieldText(logs[k]) && '\0' !in msgs[k]
    {
      var msg := logs[i].0 + "=" + logs[i].1;
      if '\0' in msg {
        return Err(NulError), [];
      }
      msgs := msgs + [msg];
      i := i + 1;
    }
    sent := msgs;
    if sendRc < 0 {
      return Err(CFailure("Error on sd_journal_sendv", sendRc, strerror)), sent;
    }
    r := Ok(());
  }
}
