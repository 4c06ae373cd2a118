/**
 * The multipath plugin: for a path event, find the multipath device that
 * holds the path whose `major:minor` is the event's device name, and
 * report the event against that multipath device. The listing of
 * multipath devices (`dmmp::mpaths_get`) is a parameter.
 */
module MpathPlugin {
  import opened Common
  import opened OldEvent

  datatype Path = Path(devName: string, majorMinor: string)
  datatype PathGroup = PathGroup(paths: seq<Path>)
  datatype Mpath = Mpath(wwid: string, name: string, pathGroups: seq<PathGroup>)

  /** The path belongs to one of the multipath device's path groups. */
  predicate HasPath(mp: Mpath, p: Path)
  {
    exists g :: g in mp.pathGroups && p in g.paths
  }

  /** The first path with that device number, in listing order. */
  function FirstInPaths(paths: seq<Path>, mm: string): (r: Option<Path>)
    ensures r.Some? ==> r.value in paths && r.value.majorMinor == mm
    ensures r.None? <==> forall p :: p in paths ==> p.majorMinor != mm
  {
    if |paths| == 0 then None
    else if paths[0].majorMinor == mm then Some(paths[0])
    else FirstInPaths(paths[1..], mm)
  }

  /** The first path with that device number, group by group. */
  function FirstInGroups(groups: seq<PathGroup>, mm: string): (r: Option<Path>)
  {
    if |groups| == 0 then None
    else match FirstInPaths(groups[0].paths, mm)
      case Some(p) => Some(p)
      case None => FirstInGroups(groups[1..], mm)
  }

  lemma {:induction false} FirstInGroupsFound(groups: seq<PathGroup>, mm: string)
    ensures FirstInGroups(groups, mm).Some? ==>
      FirstInGroups(groups, mm).value.majorMinor == mm
      && exists g :: g in groups && FirstInGroups(groups, mm).value in g.paths
    ensures FirstInGroups(groups, mm).None? <==> forall g, p :: g in groups && p in g.paths ==> p.majorMinor != mm
  {
    if |groups| > 0 {
      FirstInGroupsFound(groups[1..], mm);
      assert forall g :: g in groups[1..] ==> g in groups;
      if FirstInPaths(groups[0].paths, mm).None? {
        assert forall g :: g in groups ==> g == groups[0] || g in groups[1..];
      }
    }
  }

  /** The first multipath device holding a path with that device number, with that path. */
  function FirstMatch(mpaths: seq<Mpath>, mm: string): (r: Option<(Mpath, Path)>)
  {
    if |mpaths| == 0 then None
    else match FirstInGroups(mpaths[0].pathGroups, mm)
      case Some(p) => Some((mpaths[0], p))
      case None => FirstMatch(mpaths[1..], mm)
  }

  /**
   * The search finds a path exactly when some multipath device has one with
   * the device number; the device found is the first such in the listing.
   */
  lemma {:induction false} FirstMatchSpec(mpaths: seq<Mpath>, mm: string)
    ensures FirstMatch(mpaths, mm).None? <==>
      forall mp, p :: mp in mpaths && HasPath(mp, p) ==> p.majorMinor != mm
    ensures FirstMatch(mpaths, mm).Some? ==>
      var (mp, p) := FirstMatch(mpaths, mm).value;
      && p.majorMinor == mm && HasPath(mp, p)
      && exists k :: 0 <= k < |mpaths| && mpaths[k] == mp
           && forall j, q :: 0 <= j < k && HasPath(mpaths[j], q) ==> q.majorMinor != mm
  {
    if |mpaths| > 0 {
      FirstInGroupsFound(mpaths[0].pathGroups, mm);
      FirstMatchSpec(mpaths[1..], mm);
      var rest := mpaths[1..];
      if FirstInGroups(mpaths[0].pathGroups, mm).None? {
        assert forall mp :: mp in mpaths ==> mp == mpaths[0] || mp in rest;
        if FirstMatch(rest, mm).Some? {
          var (mp, p) := FirstMatch(rest, mm).value;
          var k :| 0 <= k < |rest| && rest[k] == mp
            && forall j, q :: 0 <= j < k && HasPath(rest[j], q) ==> q.majorMinor != mm;
          assert mpaths[k + 1] == mp;
          forall j, q | 0 <= j < k + 1 && HasPath(mpaths[j], q)
            ensures q.majorMinor != mm
          {
            if j > 0 {
              assert mpaths[j] == rest[j - 1];
            }
          }
        }
      } else {
        assert mpaths[0] in mpaths;
      }
    }
  }

  /** `handle_event`: the event after the search, unchanged when nothing matched. */
  function Handled(e: StorageEvent, mpaths: seq<Mpath>): StorageEvent
  {
    match FirstMatch(mpaths, e.devName)
      case None => e
      case Some(found) =>
        var (mp, p) := found;
        e.(extension := e.extension["path_name" := p.devName]["path_major_minor" := p.majorMinor],
           devWwid := mp.wwid, devName := mp.name)
  }

  /**
   * A matched event names the multipath device and records the path's name
   * and number; nothing else changes. An unmatched event is unchanged.
   */
  lemma HandledEffect(e: StorageEvent, mpaths: seq<Mpath>)
    ensures var r := Handled(e, mpaths);
      && r.(devWwid := e.devWwid, devName := e.devName, extension := e.extension) == e
      && (FirstMatch(mpaths, e.devName).None? ==> r == e)
      && (FirstMatch(mpaths, e.devName).Some? ==>
            var (mp, p) := FirstMatch(mpaths, e.devName).value;
            && HasPath(mp, p) && p.majorMinor == e.devName
            && r.devWwid == mp.wwid && r.devName == mp.name
            && r.extension.Keys == e.extension.Keys + {"path_name", "path_major_minor"}
            && r.extension["path_name"] == p.devName && r.extension["path_major_minor"] == e.devName
            && forall k :: k in e.extension && k != "path_name" && k != "path_major_minor" ==>
                 r.extension[k] == e.extension[k])
  {
    FirstMatchSpec(mpaths, e.devName);
  }

  /** `main`: the handled event goes back to the daemon only when it has a wwid. */
  function Forwarded(e: StorageEvent, mpaths: seq<Mpath>): (r: Option<StorageEvent>)
    ensures r.Some? ==> r.value == Handled(e, mpaths) && r.value.devWwid != ""
    ensures r.None? <==> Handled(e, mpaths).devWwid == ""
  {
    var h := Handled(e, mpaths);
    if h.devWwid != "" then Some(h) else None
  }

  /** An event is forwarded when it matched a multipath device with a wwid, or matched none and had a wwid already. */
  lemma ForwardedWhen(e: StorageEvent, mpaths: seq<Mpath>)
    ensures Forwarded(e, mpaths).Some? <==>
      (FirstMatch(mpaths, e.devName).Some? && FirstMatch(mpaths, e.devName).value.0.wwid != "")
      || (FirstMatch(mpaths, e.devName).None? && e.devWwid != "")
  {
  }

  /** The innermost loop: the first path with the number. */
  method SearchPaths(paths: seq<Path>, mm: string) returns (found: Option<Path>)
    ensures found == FirstInPaths(paths, mm)
  {
    found := None;
    var i := 0;
    while i < |paths|
      invariant 0 <= i <= |paths|
      invariant FirstInPaths(paths, mm) == FirstInPaths(paths[i..], mm)
    {
      assert paths[i..][1..] == paths[i + 1..];
      if paths[i].majorMinor == mm {
        found := Some(paths[i]);
        break;
      }
      i := i + 1;
    }
  }

  /** The middle loop: group by group until a path matched. */
  method SearchGroups(groups: seq<PathGroup>, mm: string) returns (found: Option<Path>)
    ensures found == FirstInGroups(groups, mm)
  {
    found := None;
    var i := 0;
    while i < |groups|
      invariant 0 <= i <= |groups|
      invariant FirstInGroups(groups, mm) == FirstInGroups(groups[i..], mm)
      invariant found == None
    {
      assert groups[i..][1..] == groups[i + 1..];
      found := SearchPaths(groups[i].paths, mm);
      if found.Some? {
        break;
      }
      i := i + 1;
    }
  }

  /** `handle_event` as written: the outer loop updates the event in place on the first match. */
  method HandleEvent(e: StorageEvent, mpaths: seq<Mpath>) returns (r: StorageEvent)
    ensures r == Handled(e, mpaths)
  {
    r := e;
    var i := 0;
    while i < |mpaths|
      invariant 0 <= i <= |mpaths|
      invariant FirstMatch(mpaths, e.devName) == FirstMatch(mpaths[i..], e.devName)
    {
      assert mpaths[i..][1..] == mpaths[i + 1..];
      var found := SearchGroups(mpaths[i].pathGroups, e.devName);
      if found.Some? {
        var p := found.value;
        r := r.(extension := r.extension["path_name" := p.devName]["path_major_minor" := p.majorMinor],
                devWwid := mpaths[i].wwid, devName := mpaths[i].name);
        return;
      }
      i := i + 1;
    }
  }
  /** The events `main` sends back for the events received, each searched against the listing taken at that time. */
  function Sent(events: seq<StorageEvent>, listings: seq<seq<Mpath>>): seq<StorageEvent>
    requires |listings| == |events|
  {
    if |events| == 0 then []
    else
      var n := |events| - 1;
      Sent(events[..n], listings[..n])
        + (match Forwarded(events[n], listings[n]) case None => [] case Some(h) => [h])
  }

  /** Everything sent carries a wwid, in the order received, at most one per event. */
  lemma {:induction false} SentEvents(events: seq<StorageEvent>, listings: seq<seq<Mpath>>)
    requires |listings| == |events|
    ensures |Sent(events, listings)| <= |events|
    ensures forall h :: h in Sent(events, listings) ==> h.devWwid != ""
  {
    if |events| > 0 {
      var n := |events| - 1;
      SentEvents(events[..n], listings[..n]);
    }
  }

  /** `main`'s loop over the events the daemon hands the plugin. */
  method Serve(events: seq<StorageEvent>, listings: seq<seq<Mpath>>) returns (sent: seq<StorageEvent>)
    requires |listings| == |events|
    ensures sent == Sent(events, listings)
  {
    sent := [];
    for i := 0 to |events|
      invariant sent == Sent(events[..i], listings[..i])
    {
      assert events[..i + 1][..i] == events[..i] && listings[..i + 1][..i] == listings[..i];
      var h := HandleEvent(events[i], listings[i]);
      if h.devWwid != "" {
        sent := sent + [h];
      }
    }
    assert events[..|events|] == events && listings[..|events|] == listings;
  }
}
