/**
 * Shared vocabulary of the model: option and result wrappers standing in for
 * Rust's `Option` and `Result`, and the handful of `str` operations the
 * peripety crates rely on (prefix tests, `find`/`rfind`, ASCII upper-casing,
 * `trim`, `trim_right_matches`, `lines`, unsigned `parse`, decimal rendering).
 */
module Common {

  datatype Option<+T> = None | Some(value: T)

  datatype Result<+T, +E> = Ok(value: T) | Err(error: E)

  // ---------------------------------------------------------------------
  // Prefixes

  predicate StartsWith(s: string, p: string)
  {
    |p| <= |s| && s[..|p|] == p
  }

  predicate EndsWith(s: string, p: string)
  {
    |p| <= |s| && s[|s| - |p|..] == p
  }

  /** `s.trim_left_matches(p)`: every leading copy of `p` removed. */
  function TrimLeftMatches(s: string, p: string): (r: string)
    requires p != []
    ensures !StartsWith(r, p)
    ensures |r| <= |s| && r == s[|s| - |r|..]
    decreases |s|
  {
    if StartsWith(s, p) then TrimLeftMatches(s[|p|..], p) else s
  }

  // ---------------------------------------------------------------------
  // Characters

  /** An ASCII digit: also the regex class `\d` narrowed to ASCII. */
  predicate IsDigit(c: char) { '0' <= c <= '9' }

  predicate IsLowerLetter(c: char) { 'a' <= c <= 'z' }

  predicate AllDigits(s: string) { forall i :: 0 <= i < |s| ==> IsDigit(s[i]) }

  /** ASCII white space: `char::is_whitespace` and the regex class `\s` narrowed to ASCII. */
  predicate IsSpace(c: char)
  {
    c == ' ' || c == '\t' || c == '\n' || c == '\r' || c == 11 as char || c == 12 as char
  }

  function UpperChar(c: char): char
  {
    if 'a' <= c <= 'z' then (c as int - 32) as char else c
  }

  /** `str::to_uppercase`, restricted to ASCII letters. */
  function ToUpper(s: string): (r: string)
    ensures |r| == |s|
    ensures forall i :: 0 <= i < |s| ==> r[i] == UpperChar(s[i])
  {
    seq(|s|, i requires 0 <= i < |s| => UpperChar(s[i]))
  }

  /** The upper-case form of a text, given character by character. */
  lemma UpperOf(n: string, u: string)
    requires |n| == |u| && forall i :: 0 <= i < |n| ==> UpperChar(n[i]) == u[i]
    ensures ToUpper(n) == u
  {
  }

  function LowerChar(c: char): char
  {
    if 'A' <= c <= 'Z' then (c as int + 32) as char else c
  }

  /** `str::to_lowercase`, restricted to ASCII letters. */
  function ToLower(s: string): (r: string)
    ensures |r| == |s|
    ensures forall i :: 0 <= i < |s| ==> r[i] == LowerChar(s[i])
  {
    seq(|s|, i requires 0 <= i < |s| => LowerChar(s[i]))
  }

  /** Upper-casing forgets whatever case the text was in before. */
  lemma UpperOfLower(s: string)
    ensures ToUpper(ToLower(s)) == ToUpper(s)
  {
    var l := ToLower(s);
    forall i | 0 <= i < |s|
      ensures ToUpper(l)[i] == ToUpper(s)[i]
    {
      assert l[i] == LowerChar(s[i]);
    }
  }

  // ---------------------------------------------------------------------
  // Searching

  /** `s.find(c)`: the first index holding `c`. */
  function IndexOf(s: string, c: char): (r: Option<nat>)
    ensures r.Some? ==> r.value < |s| && s[r.value] == c && c !in s[..r.value]
    ensures r.None? <==> c !in s
  {
    if |s| == 0 then None
    else if s[0] == c then Some(0)
    else match IndexOf(s[1..], c)
      case None => None
      case Some(k) => assert s[1..][..k] == s[1..k + 1]; Some(k + 1)
  }

  /** The first occurrence of `c` is found wherever it is. */
  lemma IndexOfAt(s: string, c: char, i: nat)
    requires i < |s| && s[i] == c && c !in s[..i]
    ensures IndexOf(s, c) == Some(i)
  {
    var r := IndexOf(s, c);
    assert r.Some?;
  }

  /** `s.rfind(c)`: the last index holding `c`. */
  function LastIndexOf(s: string, c: char): (r: Option<nat>)
    ensures r.Some? ==> r.value < |s| && s[r.value] == c && c !in s[r.value + 1..]
    ensures r.None? <==> c !in s
  {
    if |s| == 0 then None
    else if s[|s| - 1] == c then Some(|s| - 1)
    else
      assert s == s[..|s| - 1] + [s[|s| - 1]];
      LastIndexOf(s[..|s| - 1], c)
  }

  /** The text after the last `/`, or all of `s` when it holds none. */
  function Basename(s: string): (r: string)
    ensures '/' !in r
    ensures EndsWith(s, r)
  {
    match LastIndexOf(s, '/')
      case None => s
      case Some(k) => s[k + 1..]
  }

  // ---------------------------------------------------------------------
  // Trimming

  /** `s.trim_right_matches(c)`: every trailing `c` removed. */
  function TrimEndChar(s: string, c: char): (r: string)
    ensures |r| <= |s| && r == s[..|r|]
    ensures forall i :: |r| <= i < |s| ==> s[i] == c
    ensures |r| > 0 ==> r[|r| - 1] != c
  {
    if |s| > 0 && s[|s| - 1] == c then TrimEndChar(s[..|s| - 1], c) else s
  }

  /** Trailing copies of `c` appended to `s` are trimmed away with the rest. */
  lemma {:induction false} TrimEndCharAppend(s: string, tail: string, c: char)
    requires forall i :: 0 <= i < |tail| ==> tail[i] == c
    ensures TrimEndChar(s + tail, c) == TrimEndChar(s, c)
    decreases |tail|
  {
    if |tail| > 0 {
      var t := s + tail;
      assert t[|t| - 1] == tail[|tail| - 1] == c;
      assert t[..|t| - 1] == s + tail[..|tail| - 1];
      TrimEndCharAppend(s, tail[..|tail| - 1], c);
    } else {
      assert s + tail == s;
    }
  }

  function TrimStartSpace(s: string): (r: string)
    ensures |r| <= |s| && r == s[|s| - |r|..]
    ensures |r| > 0 ==> !IsSpace(r[0])
  {
    if |s| > 0 && IsSpace(s[0]) then TrimStartSpace(s[1..]) else s
  }

  function TrimEndSpace(s: string): (r: string)
    ensures |r| <= |s| && r == s[..|r|]
    ensures |r| > 0 ==> !IsSpace(r[|r| - 1])
  {
    if |s| > 0 && IsSpace(s[|s| - 1]) then TrimEndSpace(s[..|s| - 1]) else s
  }

  /** `str::trim`: white space removed at both ends. */
  function Trim(s: string): (r: string)
    ensures |r| > 0 ==> !IsSpace(r[0]) && !IsSpace(r[|r| - 1])
  {
    TrimEndSpace(TrimStartSpace(s))
  }

  // ---------------------------------------------------------------------
  // Lines

  /** Splits off the first line of `s`: the text before the first `\n` and the rest after it. */
  function FirstLine(s: string): (r: (string, string))
    requires |s| > 0
    ensures '\n' !in r.0 && |r.1| < |s|
  {
    match IndexOf(s, '\n')
      case None => (s, [])
      case Some(k) => (s[..k], s[k + 1..])
  }

  /** `str::lines`: split at `\n`, one trailing `\r` dropped per line, no empty last line. */
  function Lines(s: string): (r: seq<string>)
    ensures forall i :: 0 <= i < |r| ==> '\n' !in r[i]
    decreases |s|
  {
    if |s| == 0 then []
    else
      var (line, rest) := FirstLine(s);
      var clean := if EndsWith(line, "\r") then line[..|line| - 1] else line;
      [clean] + Lines(rest)
  }

  // ---------------------------------------------------------------------
  // Numbers

  function DigitsValue(s: string): (n: nat)
    requires AllDigits(s)
  {
    if |s| == 0 then 0 else DigitsValue(s[..|s| - 1]) * 10 + (s[|s| - 1] as int - '0' as int)
  }

  /**
   * `s.parse::<uN>()` for an unsigned type whose largest value is `max`: an
   * optional `+`, then at least one ASCII digit, and a value within range.
   */
  function ParseUnsigned(s: string, max: nat): (r: Option<nat>)
    ensures r.Some? ==> r.value <= max
    ensures r.Some? ==> |s| > 0 && (IsDigit(s[0]) || s[0] == '+')
  {
    var digits := if |s| > 0 && s[0] == '+' then s[1..] else s;
    if |digits| > 0 && AllDigits(digits) && DigitsValue(digits) <= max
    then Some(DigitsValue(digits)) else None
  }

  function DigitChar(d: nat): char
    requires d < 10
  {
    ('0' as int + d) as char
  }

  /** Decimal rendering of a natural number (`to_string` / `format!("{}")`). */
  function NatToString(n: nat): (r: string)
    ensures |r| > 0 && AllDigits(r)
  {
    if n < 10 then [DigitChar(n)] else NatToString(n / 10) + [DigitChar(n % 10)]
  }

  lemma {:induction false} NatToStringRoundTrip(n: nat)
    ensures DigitsValue(NatToString(n)) == n
  {
    if n >= 10 {
      var s := NatToString(n);
      NatToStringRoundTrip(n / 10);
      assert s[..|s| - 1] == NatToString(n / 10);
    }
  }

  // ---------------------------------------------------------------------
  // Collections

  predicate NoDuplicates<T(==)>(s: seq<T>)
  {
    forall i, j :: 0 <= i < j < |s| ==> s[i] != s[j]
  }

  /** Joins the parts with `sep` between consecutive parts (`[..].join(sep)`). */
  function Join(parts: seq<string>, sep: string): string
  {
    if |parts| == 0 then []
    else if |parts| == 1 then parts[0]
    else parts[0] + sep + Join(parts[1..], sep)
  }

  /** `s.split(c)`: the pieces between occurrences of `c`, always at least one. */
  function Split(s: string, c: char): (r: seq<string>)
    ensures |r| > 0
    ensures forall i :: 0 <= i < |r| ==> c !in r[i]
    decreases |s|
  {
    match IndexOf(s, c)
      case None => [s]
      case Some(k) => [s[..k]] + Split(s[k + 1..], c)
  }

  /** Splitting a join at its separator gives the parts back when no part holds the separator. */
  lemma {:induction false} SplitJoin(parts: seq<string>, c: char)
    requires |parts| > 0
    requires forall i :: 0 <= i < |parts| ==> c !in parts[i]
    ensures Split(Join(parts, [c]), c) == parts
  {
    if |parts| == 1 {
      assert Join(parts, [c]) == parts[0];
    } else {
      var tail := parts[1..];
      var rest := Join(tail, [c]);
      assert Join(parts, [c]) == parts[0] + [c] + rest;
      SplitAtFirst(parts[0], c, rest);
      SplitJoin(tail, c);
      assert parts == [parts[0]] + tail;
    }
  }

  /** Splitting at the first separator: the text before it, then the pieces of the rest. */
  lemma SplitAtFirst(a: string, c: char, b: string)
    requires c !in a
    ensures Split(a + [c] + b, c) == [a] + Split(b, c)
  {
    var s := a + [c] + b;
    assert s[|a|] == c && s[..|a|] == a;
    IndexOfAt(s, c, |a|);
    assert s[|a| + 1..] == b;
  }

  /**
   * `keys` lists the keys of `m` once each: the order in which iterating a
   * `HashMap` visits them, which the model takes as given.
   */
  predicate KeyOrder<V>(keys: seq<string>, m: map<string, V>)
  {
    && NoDuplicates(keys)
    && (forall i :: 0 <= i < |keys| ==> keys[i] in m)
    && (forall k :: k in m ==> k in keys)
  }

  /** An iteration order visits as many keys as the map holds. */
  lemma KeyOrderLength<V>(keys: seq<string>, m: map<string, V>)
    requires KeyOrder(keys, m)
    ensures |keys| == |m|
  {
    SeqSetLength(keys, m.Keys);
  }

  lemma {:induction false} SeqSetLength(keys: seq<string>, s: set<string>)
    requires NoDuplicates(keys)
    requires forall i :: 0 <= i < |keys| ==> keys[i] in s
    requires forall k :: k in s ==> k in keys
    ensures |keys| == |s|
  {
    if |keys| > 0 {
      var last := keys[|keys| - 1];
      var rest := keys[..|keys| - 1];
      forall k | k in s - {last}
        ensures k in rest
      {
        var i :| 0 <= i < |keys| && keys[i] == k;
        assert i != |keys| - 1;
        assert rest[i] == k;
      }
      SeqSetLength(rest, s - {last});
    } else {
      assert forall k :: k !in s;
      assert s == {};
    }
  }
}
