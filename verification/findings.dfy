/** The findings accumulator each scan hands to the engine as its callback.
    Under the accumulator's mutex the callback invocations are serialized, so
    they are modelled as appends in the order they took the lock. */
module Findings {
  import opened ScanResults

  /** One callback invocation: the event is appended after everything
      collected so far. */
  function Append(collected: seq<Finding>, event: Finding): (r: seq<Finding>)
    ensures |r| == |collected| + 1
    ensures r[..|collected|] == collected
    ensures r[|collected|] == event
  {
    collected + [event]
  }

  /** The engine delivering `events` one callback at a time: nothing is lost,
      duplicated or reordered. */
  function Deliver(collected: seq<Finding>, events: seq<Finding>): (r: seq<Finding>)
    ensures r == collected + events
    ensures multiset(r) == multiset(collected) + multiset(events)
    decreases |events|
  {
    if |events| == 0 then collected
    else
      var next := Append(collected, events[0]);
      assert next == collected + [events[0]];
      assert collected + events == next + events[1..];
      Deliver(next, events[1..])
  }
}
