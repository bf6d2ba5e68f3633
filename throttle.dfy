/**
 * The rolling-window filter on charge-stats events: an event is accepted
 * when no event was accepted before, or when the last one was accepted
 * more than DurationFilterSecs seconds earlier. A clock reading of zero is
 * never accepted.
 */
module Throttle {

  const DurationFilterSecs := 15

  /** Whether an event at boot time now passes the filter, given the time of the last accepted one (0 for none). */
  predicate Accepts(last: int, now: int) {
    now != 0 && (last == 0 || last + DurationFilterSecs < now)
  }

  /** The time of the last accepted event after an event at now. */
  function After(last: int, now: int): int {
    if Accepts(last, now) then now else last
  }

  /** The times among a run of events that pass the filter, starting from the given last time. */
  function Accepted(last: int, times: seq<int>): seq<int>
    decreases |times|
  {
    if times == [] then []
    else if Accepts(last, times[0]) then [times[0]] + Accepted(times[0], times[1..])
    else Accepted(last, times[1..])
  }

  /** Two events exactly DurationFilterSecs apart: the second is rejected, one second later it is accepted. */
  lemma Boundary(last: int)
    requires last != 0
    ensures !Accepts(last, last + DurationFilterSecs)
    ensures last + DurationFilterSecs + 1 != 0 ==> Accepts(last, last + DurationFilterSecs + 1)
  {
  }

  /** Every accepted time is non-zero, later than the window after the starting time, and one of the events. */
  lemma {:induction false} AcceptedAfter(last: int, times: seq<int>)
    ensures forall i :: 0 <= i < |Accepted(last, times)| ==>
      Accepted(last, times)[i] != 0 && (last != 0 ==> last + DurationFilterSecs < Accepted(last, times)[i]) &&
      Accepted(last, times)[i] in times
    decreases |times|
  {
    if times != [] {
      var rest := times[1..];
      if Accepts(last, times[0]) {
        AcceptedAfter(times[0], rest);
      } else {
        AcceptedAfter(last, rest);
      }
      var acc := Accepted(last, times);
      forall i | 0 <= i < |acc| ensures acc[i] in times {
        if Accepts(last, times[0]) && i > 0 {
          assert acc[i] == Accepted(times[0], rest)[i - 1];
        }
      }
    }
  }

  /** Any two accepted events are more than DurationFilterSecs apart, in the order they came. */
  lemma {:induction false} AcceptedSpread(last: int, times: seq<int>)
    ensures forall i, j :: 0 <= i < j < |Accepted(last, times)| ==>
      Accepted(last, times)[i] + DurationFilterSecs < Accepted(last, times)[j]
    decreases |times|
  {
    if times != [] {
      var rest := times[1..];
      if Accepts(last, times[0]) {
        AcceptedSpread(times[0], rest);
        AcceptedAfter(times[0], rest);
        SpreadCons(times[0], Accepted(times[0], rest));
      } else {
        AcceptedSpread(last, rest);
      }
    }
  }

  /** A time followed by times that are spread apart and all past its window is spread apart. */
  lemma SpreadCons(first: int, tail: seq<int>)
    requires forall j :: 0 <= j < |tail| ==> first + DurationFilterSecs < tail[j]
    requires forall i, j :: 0 <= i < j < |tail| ==> tail[i] + DurationFilterSecs < tail[j]
    ensures forall i, j :: 0 <= i < j < |[first] + tail| ==>
      ([first] + tail)[i] + DurationFilterSecs < ([first] + tail)[j]
  {
    var acc := [first] + tail;
    forall i, j | 0 <= i < j < |acc| ensures acc[i] + DurationFilterSecs < acc[j] {
      assert acc[j] == tail[j - 1];
      if i > 0 {
        assert acc[i] == tail[i - 1];
      }
    }
  }
}
