/**
 * How the daemon hands an event to its parsers. Each parser declares the
 * event kinds it takes (raw events from the collector, synthetic events
 * other parsers produced) and, optionally, the subsystems it takes; both
 * daemon snapshots apply the same test to every parser in turn. The
 * subsystem type is a parameter because the two snapshots have their own.
 */
module Routing {
  import opened Common

  datatype EventType = Raw | Synthetic

  /** `ParserInfo` without its channel: the name and the two filters. */
  datatype ParserInfo<S> = ParserInfo(name: string, filterEventType: seq<EventType>, filterEventSubsys: Option<seq<S>>)

  /** The `required` test: the kind is wanted, and the subsystem list is absent or holds the subsystem. */
  predicate Required<S(==)>(p: ParserInfo<S>, kind: EventType, sub: S)
  {
    kind in p.filterEventType && (p.filterEventSubsys.None? || sub in p.filterEventSubsys.value)
  }

  /** The positions of the parsers that require the event, in parser order. */
  function Targets<S(==)>(parsers: seq<ParserInfo<S>>, kind: EventType, sub: S): seq<nat>
  {
    if |parsers| == 0 then []
    else Targets(parsers[..|parsers| - 1], kind, sub)
         + (if Required(parsers[|parsers| - 1], kind, sub) then [|parsers| - 1] else [])
  }

  /**
   * Each parser that requires the event is a target exactly once, in parser
   * order, and no other parser is.
   */
  lemma {:induction false} TargetsExact<S>(parsers: seq<ParserInfo<S>>, kind: EventType, sub: S)
    ensures forall i: nat :: i in Targets(parsers, kind, sub) <==> i < |parsers| && Required(parsers[i], kind, sub)
    ensures forall j, k :: 0 <= j < k < |Targets(parsers, kind, sub)| ==> Targets(parsers, kind, sub)[j] < Targets(parsers, kind, sub)[k]
    ensures forall k :: 0 <= k < |Targets(parsers, kind, sub)| ==> Targets(parsers, kind, sub)[k] < |parsers|
  {
    if |parsers| > 0 {
      var init := parsers[..|parsers| - 1];
      TargetsExact(init, kind, sub);
      assert forall i :: 0 <= i < |init| ==> init[i] == parsers[i];
    }
  }

  /** The loop over the parsers, which sends the event to each target in turn. */
  method Route<S(==)>(parsers: seq<ParserInfo<S>>, kind: EventType, sub: S) returns (sent: seq<nat>)
    ensures sent == Targets(parsers, kind, sub)
  {
    sent := [];
    var i := 0;
    while i < |parsers|
      invariant 0 <= i <= |parsers|
      invariant sent == Targets(parsers[..i], kind, sub)
    {
      assert parsers[..i + 1][..i] == parsers[..i];
      var required := kind in parsers[i].filterEventType
                      && (parsers[i].filterEventSubsys.None? || sub in parsers[i].filterEventSubsys.value);
      if required {
        sent := sent + [i];
      }
      i := i + 1;
    }
    assert parsers[..i] == parsers;
  }

  /** A parser with a single event kind and a subsystem list takes exactly that kind from exactly those subsystems. */
  lemma RequiredBySubscription<S>(name: string, kind: EventType, subs: seq<S>, k: EventType, sub: S)
    ensures Required(ParserInfo(name, [kind], Some(subs)), k, sub) <==> k == kind && sub in subs
  {
  }
}
