/**
 * The live user stream delivers every kind of account activity; the client
 * forwards only the direct messages, in arrival order.
 */
module Stream {
  import opened Types

  /** One event of the user stream: a direct message, or some other kind of activity. */
  datatype Event = DirectMessageEvent(dm: DirectMessage) | OtherEvent(kind: string)

  /** What the filter forwards for one event: its message, or nothing. */
  function Forwarded(e: Event): seq<DirectMessage> {
    match e
    case DirectMessageEvent(dm) => [dm]
    case OtherEvent(_) => []
  }

  /** The direct messages among the events, in the order they arrived. */
  function DirectMessages(events: seq<Event>): seq<DirectMessage> {
    if events == [] then [] else Forwarded(events[0]) + DirectMessages(events[1..])
  }

  /** Filtering a concatenation filters each part and keeps them in order. */
  lemma {:induction false} DirectMessagesConcat(a: seq<Event>, b: seq<Event>)
    ensures DirectMessages(a + b) == DirectMessages(a) + DirectMessages(b)
    decreases |a|
  {
    if a == [] {
      assert a + b == b;
    } else {
      assert (a + b)[0] == a[0];
      assert (a + b)[1..] == a[1..] + b;
      DirectMessagesConcat(a[1..], b);
    }
  }

  /**
   * A message is forwarded exactly when it arrived as a direct-message event;
   * no other kind of event ever reaches the output.
   */
  lemma {:induction false} DirectMessagesMembers(events: seq<Event>, dm: DirectMessage)
    ensures dm in DirectMessages(events) <==> DirectMessageEvent(dm) in events
    ensures |DirectMessages(events)| <= |events|
    decreases |events|
  {
    if events != [] {
      DirectMessagesMembers(events[1..], dm);
      assert events == [events[0]] + events[1..];
    }
  }

  /** Two direct messages among three other events come out alone, in their order. */
  lemma MixedStreamExample(m1: DirectMessage, m2: DirectMessage)
    ensures DirectMessages([OtherEvent("favorite"), DirectMessageEvent(m1), OtherEvent("follow"),
                            DirectMessageEvent(m2), OtherEvent("tweet")]) == [m1, m2]
  {
    var e := [OtherEvent("favorite"), DirectMessageEvent(m1), OtherEvent("follow"),
              DirectMessageEvent(m2), OtherEvent("tweet")];
    assert DirectMessages(e[4..]) == [] by {
      assert e[4..][1..] == [];
    }
    assert DirectMessages(e[3..]) == [m2] by {
      assert e[3..][1..] == e[4..];
    }
    assert DirectMessages(e[2..]) == [m2] by {
      assert e[2..][1..] == e[3..];
    }
    assert DirectMessages(e[1..]) == [m1, m2] by {
      assert e[1..][1..] == e[2..];
    }
  }

  /** The filter goroutine of GetDmStream: forward each direct-message event, drop the rest. */
  method Filter(events: seq<Event>) returns (dms: seq<DirectMessage>)
    ensures dms == DirectMessages(events)
  {
    dms := [];
    for i := 0 to |events|
      invariant dms == DirectMessages(events[..i])
    {
      assert events[..i + 1] == events[..i] + [events[i]];
      DirectMessagesConcat(events[..i], [events[i]]);
      assert DirectMessages([events[i]]) == Forwarded(events[i]);
      match events[i] {
        case DirectMessageEvent(dm) =>
          dms := dms + [dm];
        case OtherEvent(_) =>
      }
    }
    assert events[..|events|] == events;
  }
}
