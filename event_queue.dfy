/** The timestamp-ordered event queue (include/backtest/event_queue.h). The pending
    events are kept as a sequence in push order; a pop serves an event of least
    timestamp. Locking and the condition variable are not modelled: a blocking pop
    becomes the precondition "non-empty or stopped". */
module EventQueues {
  import opened Events

  function Ts(e: Event): int {
    GetTimestamp(e).count
  }

  ghost predicate IsEarliest(e: Event, m: multiset<Event>) {
    e in m && forall x | x in m :: Ts(e) <= Ts(x)
  }

  /** The position of the event a pop serves: one of least timestamp (the first such,
      a choice the model makes where std::priority_queue leaves ties unspecified). */
  function EarliestIndex(s: seq<Event>): (i: nat)
    requires |s| > 0
    ensures i < |s|
    ensures forall j | 0 <= j < |s| :: Ts(s[i]) <= Ts(s[j])
    ensures forall j | 0 <= j < i :: Ts(s[i]) < Ts(s[j])
  {
    if |s| == 1 then 0
    else
      var k := EarliestIndex(s[1..]) + 1;
      assert forall j | 1 <= j < |s| :: s[j] == s[1..][j - 1];
      if Ts(s[0]) <= Ts(s[k]) then 0 else k
  }

  function RemoveAt(s: seq<Event>, i: nat): (r: seq<Event>)
    requires i < |s|
    ensures |r| == |s| - 1
    ensures multiset(r) == multiset(s) - multiset{s[i]}
  {
    assert s == s[..i] + [s[i]] + s[i + 1..];
    s[..i] + s[i + 1..]
  }

  /** The order in which successive pops serve the events of `s`. */
  function PopAll(s: seq<Event>): seq<Event>
    decreases |s|
  {
    if s == [] then []
    else
      var i := EarliestIndex(s);
      [s[i]] + PopAll(RemoveAt(s, i))
  }

  lemma {:induction false} PopAllIsPermutation(s: seq<Event>)
    ensures multiset(PopAll(s)) == multiset(s)
    decreases |s|
  {
    if s != [] {
      var i := EarliestIndex(s);
      PopAllIsPermutation(RemoveAt(s, i));
      assert multiset(s) == multiset(RemoveAt(s, i)) + multiset{s[i]};
    }
  }

  lemma EarliestBelowMember(s: seq<Event>, x: Event)
    requires |s| > 0 && x in multiset(s)
    ensures Ts(s[EarliestIndex(s)]) <= Ts(x)
  {
    assert x in s;
    var j :| 0 <= j < |s| && s[j] == x;
  }

  ghost predicate Chronological(s: seq<Event>) {
    forall a, b | 0 <= a < b < |s| :: Ts(s[a]) <= Ts(s[b])
  }

  lemma ChronologicalCons(x: Event, tail: seq<Event>)
    requires Chronological(tail)
    requires forall y | y in tail :: Ts(x) <= Ts(y)
    ensures Chronological([x] + tail)
  {
    var all := [x] + tail;
    forall a, b | 0 <= a < b < |all|
      ensures Ts(all[a]) <= Ts(all[b])
    {
      assert all[b] == tail[b - 1];
      if a > 0 {
        assert all[a] == tail[a - 1];
      }
    }
  }

  /** Popping everything that was pushed yields non-decreasing timestamps and serves
      every pushed event exactly once. */
  lemma {:induction false} PopAllIsChronological(s: seq<Event>)
    ensures |PopAll(s)| == |s|
    ensures multiset(PopAll(s)) == multiset(s)
    ensures Chronological(PopAll(s))
    decreases |s|
  {
    PopAllIsPermutation(s);
    if s != [] {
      var i := EarliestIndex(s);
      var rest := RemoveAt(s, i);
      var tail := PopAll(rest);
      PopAllIsChronological(rest);
      forall y | y in tail
        ensures Ts(s[i]) <= Ts(y)
      {
        assert y in multiset(rest);
        EarliestBelowMember(s, y);
      }
      ChronologicalCons(s[i], tail);
    }
  }

  class EventQueue {
    var items: seq<Event>
    var stopped: bool

    ghost function Contents(): multiset<Event>
      reads this
    {
      multiset(items)
    }

    constructor ()
      ensures items == [] && !stopped
    {
      items := [];
      stopped := false;
    }

    method Push(event: Event)
      modifies this`items
      ensures items == old(items) + [event]
      ensures Contents() == old(Contents()) + multiset{event}
    {
      items := items + [event];
    }

    /** Serves an earliest event; on an empty queue (allowed only once stopped) it
        returns the default event and leaves the queue as it was. */
    method Pop() returns (event: Event)
      requires items != [] || stopped
      modifies this`items
      ensures old(items) == [] ==> event == DefaultEvent() && items == old(items)
      ensures old(items) != [] ==>
        var i := EarliestIndex(old(items));
        event == old(items)[i] && items == RemoveAt(old(items), i)
      ensures old(items) != [] ==>
        IsEarliest(event, old(Contents())) && Contents() == old(Contents()) - multiset{event}
      ensures old(items) != [] ==> PopAll(old(items)) == [event] + PopAll(items)
    {
      if items == [] {
        event := DefaultEvent();
        return;
      }
      var i := EarliestIndex(items);
      event := items[i];
      items := RemoveAt(items, i);
    }

    /** Non-blocking pop: `found` is false exactly on an empty queue, and then the
        queue and the caller's event are left as they were. */
    method TryPop(outEvent: Event) returns (found: bool, event: Event)
      modifies this`items
      ensures found <==> old(items) != []
      ensures !found ==> event == outEvent && items == old(items)
      ensures found ==>
        var i := EarliestIndex(old(items));
        event == old(items)[i] && items == RemoveAt(old(items), i)
      ensures found ==>
        IsEarliest(event, old(Contents())) && Contents() == old(Contents()) - multiset{event}
    {
      if items == [] {
        found, event := false, outEvent;
        return;
      }
      var i := EarliestIndex(items);
      found, event := true, items[i];
      items := RemoveAt(items, i);
    }

    function Empty(): (b: bool)
      reads this
      ensures b <==> Size() == 0
      ensures b <==> Contents() == multiset{}
    {
      items == []
    }

    function Size(): (n: nat)
      reads this
      ensures n == |Contents()|
    {
      |items|
    }

    /** Raises the stop flag; pending events are kept. */
    method Stop()
      modifies this`stopped
      ensures stopped
    {
      stopped := true;
    }

    /** Whether stop() has been called. */
    function Stopped(): (s: bool)
      reads this
      ensures s <==> stopped
    {
      stopped
    }
  }
}
