/**
 * Pieces of the journal record both daemon snapshots write: a run of fields
 * under one key, and the extension map as `EXT_<KEY>` fields in the map's
 * iteration order, each with the loop that pushes it.
 */
module JournalRecord {
  import opened Common

  /** One journal field per value, all under the same key. */
  function Tagged(key: string, values: seq<string>): (r: seq<(string, string)>)
    ensures |r| == |values|
    ensures forall i :: 0 <= i < |values| ==> r[i] == (key, values[i])
  {
    seq(|values|, i requires 0 <= i < |values| => (key, values[i]))
  }

  /** The extension as journal fields: `EXT_<KEY>` with the key upper-cased, in iteration order. */
  function ExtFields(keys: seq<string>, ext: map<string, string>): (r: seq<(string, string)>)
    requires forall i :: 0 <= i < |keys| ==> keys[i] in ext
    ensures |r| == |keys|
    ensures forall i :: 0 <= i < |keys| ==> r[i] == ("EXT_" + ToUpper(keys[i]), ext[keys[i]])
  {
    seq(|keys|, i requires 0 <= i < |keys| => ("EXT_" + ToUpper(keys[i]), ext[keys[i]]))
  }

  /** One of the owner loops: a field per value, in order. */
  method PushAll(logs: seq<(string, string)>, key: string, values: seq<string>) returns (r: seq<(string, string)>)
    ensures r == logs + Tagged(key, values)
  {
    r := logs;
    var i := 0;
    while i < |values|
      invariant 0 <= i <= |values|
      invariant r == logs + Tagged(key, values[..i])
    {
      assert Tagged(key, values[..i + 1]) == Tagged(key, values[..i]) + [(key, values[i])];
      r := r + [(key, values[i])];
      i := i + 1;
    }
    assert values[..i] == values;
  }

  /** The extension loop. */
  method PushExtension(logs: seq<(string, string)>, keys: seq<string>, ext: map<string, string>)
    returns (r: seq<(string, string)>)
    requires forall i :: 0 <= i < |keys| ==> keys[i] in ext
    ensures r == logs + ExtFields(keys, ext)
  {
    r := logs;
    var i := 0;
    while i < |keys|
      invariant 0 <= i <= |keys|
      invariant r == logs + ExtFields(keys[..i], ext)
    {
      assert ExtFields(keys[..i + 1], ext) == ExtFields(keys[..i], ext) + [("EXT_" + ToUpper(keys[i]), ext[keys[i]])];
      r := r + [("EXT_" + ToUpper(keys[i]), ext[keys[i]])];
      i := i + 1;
    }
    assert keys[..i] == keys;
  }
}
