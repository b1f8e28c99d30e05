/** What `listen` forwards: the hook's callback passes key presses and key
    releases to the normaliser and drops every other event. */
module Listener {
  import opened Wrappers
  import opened Events

  predicate IsKeyEvent(e: Event) {
    e.eventType.KeyPress? || e.eventType.KeyRelease?
  }

  /** The records the callback prints for `events`, one line per key event. */
  function Forwarded(events: seq<Event>): (out: seq<RdevEvent>)
    ensures |out| <= |events|
    ensures forall i :: 0 <= i < |out| ==> out[i].eventType in {"KeyPress", "KeyRelease"}
  {
    if events == [] then []
    else
      var head := if IsKeyEvent(events[0]) then [DealEventToJson(events[0])] else [];
      head + Forwarded(events[1..])
  }

  /** The key events of `events`, in input order (the reference filter). */
  function KeyEvents(events: seq<Event>): seq<Event> {
    if events == [] then []
    else if IsKeyEvent(events[0]) then [events[0]] + KeyEvents(events[1..])
    else KeyEvents(events[1..])
  }

  /** Forwarding is "filter, then map": exactly the key events, normalised one
      by one, in input order. */
  lemma {:induction false} ForwardedIsFilterThenMap(events: seq<Event>)
    ensures |Forwarded(events)| == |KeyEvents(events)|
    ensures forall k :: 0 <= k < |KeyEvents(events)| ==>
      Forwarded(events)[k] == DealEventToJson(KeyEvents(events)[k])
  {
    if events != [] {
      var rest := events[1..];
      ForwardedIsFilterThenMap(rest);
      if IsKeyEvent(events[0]) {
        assert Forwarded(events) == [DealEventToJson(events[0])] + Forwarded(rest);
        assert KeyEvents(events) == [events[0]] + KeyEvents(rest);
        forall k | 0 < k < |KeyEvents(events)|
          ensures Forwarded(events)[k] == DealEventToJson(KeyEvents(events)[k])
        {
          assert KeyEvents(events)[k] == KeyEvents(rest)[k - 1];
          assert Forwarded(events)[k] == Forwarded(rest)[k - 1];
        }
      } else {
        assert Forwarded(events) == Forwarded(rest);
        assert KeyEvents(events) == KeyEvents(rest);
      }
    }
  }

  /** The callback sees events one at a time, so forwarding a split stream is
      forwarding each part. */
  lemma {:induction false} ForwardedAppend(a: seq<Event>, b: seq<Event>)
    ensures Forwarded(a + b) == Forwarded(a) + Forwarded(b)
  {
    if a == [] {
      assert a + b == b;
    } else {
      assert (a + b)[1..] == a[1..] + b;
      ForwardedAppend(a[1..], b);
    }
  }

  /** Mouse moves, button events and wheel events produce no output. */
  lemma {:induction false} NonKeyEventsAreSilent(events: seq<Event>)
    requires forall i :: 0 <= i < |events| ==> !IsKeyEvent(events[i])
    ensures Forwarded(events) == []
  {
    if events != [] {
      NonKeyEventsAreSilent(events[1..]);
    }
  }

  /** Every key event of the input is forwarded, and every forwarded record is
      the normalisation of some key event of the input. */
  lemma {:induction false} ForwardedMembership(events: seq<Event>, r: RdevEvent)
    ensures r in Forwarded(events) <==>
      exists i :: 0 <= i < |events| && IsKeyEvent(events[i]) && DealEventToJson(events[i]) == r
  {
    if events != [] {
      ForwardedMembership(events[1..], r);
      if r in Forwarded(events[1..]) {
        var i :| 0 <= i < |events[1..]| && IsKeyEvent(events[1..][i]) && DealEventToJson(events[1..][i]) == r;
        assert events[i + 1] == events[1..][i];
      }
      if exists i :: 0 <= i < |events| && IsKeyEvent(events[i]) && DealEventToJson(events[i]) == r {
        var i :| 0 <= i < |events| && IsKeyEvent(events[i]) && DealEventToJson(events[i]) == r;
        if i > 0 {
          assert events[1..][i - 1] == events[i];
        }
      }
    }
  }
}
