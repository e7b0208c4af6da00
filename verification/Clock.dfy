// Rebasing the paired computer's timestamps onto the local clock (RemoteClock in src/touchpad.rs).
module Clock {
  const MAX_TIME := 0x1_0000_0000_0000_0000

  function Max(a: int, b: int): int {
    if a >= b then a else b
  }

  function Min(a: int, b: int): int {
    if a <= b then a else b
  }

  datatype Offset = Unknown | Known(value: int)

  /** One arrival: when the frame was made there and when it came in here. */
  datatype Arrival = Arrival(source: int, now: int) {
    predicate InRange() {
      0 <= source < MAX_TIME && 0 <= now < MAX_TIME
    }

    function Delay(): int {
      now - source
    }
  }

  datatype State = State(offset: Offset, last: int)

  function Rebase(s: State, a: Arrival): (r: State)
    requires a.InRange()
    ensures 0 <= r.last <= a.now
    requires 0 <= s.last < MAX_TIME
  {
    var offset := if s.offset.Unknown? then a.Delay() else Min(s.offset.value, a.Delay());
    var time := Max(a.source + offset, 1);
    State(Known(offset), Min(Max(time, s.last), a.now))
  }

  class RemoteClock {
    var offset: Offset
    var last: int

    function View(): State
      reads this
    {
      State(offset, last)
    }

    constructor ()
      ensures View() == State(Unknown, 0)
    {
      offset := Unknown;
      last := 0;
    }

    method Map(source: int, now: int) returns (time: int)
      requires Arrival(source, now).InRange() && 0 <= last < MAX_TIME
      modifies this
      ensures View() == Rebase(old(View()), Arrival(source, now)) && time == last
    {
      var observed := now - source;
      match offset {
        case Unknown => offset := Known(observed);
        case Known(previous) =>
          if observed < previous {
            offset := Known(observed);
          }
      }
      time := Max(source + offset.value, 1);
      if time < last {
        time := last;
      }
      if now < time {
        time := now;
      }
      last := time;
    }
  }

  // ---- Whole runs ----

  predicate Orderly(run: seq<Arrival>) {
    && (forall i :: 0 <= i < |run| ==> run[i].InRange() && run[i].now >= 1)
    && forall i, j :: 0 <= i < j < |run| ==> run[i].now <= run[j].now
  }

  /** The clock after a run. */
  function After(run: seq<Arrival>): (s: State)
    requires forall i :: 0 <= i < |run| ==> run[i].InRange()
    ensures 0 <= s.last < MAX_TIME
  {
    if run == [] then State(Unknown, 0) else Rebase(After(run[..|run| - 1]), run[|run| - 1])
  }

  /** The time given to the i-th frame of a run. */
  function TimeOf(run: seq<Arrival>, i: nat): int
    requires i < |run| && forall k :: 0 <= k < |run| ==> run[k].InRange()
  {
    After(run[..i + 1]).last
  }

  /** `least` is the smallest delay among the first `upTo` frames. */
  ghost predicate LeastDelay(run: seq<Arrival>, upTo: nat, least: int)
    requires upTo <= |run|
  {
    && (exists k :: 0 <= k < upTo && run[k].Delay() == least)
    && forall k :: 0 <= k < upTo ==> least <= run[k].Delay()
  }

  lemma Unfold(run: seq<Arrival>, i: nat)
    requires i < |run| && forall k :: 0 <= k < |run| ==> run[k].InRange()
    ensures After(run[..i + 1]) == Rebase(After(run[..i]), run[i])
  {
    assert run[..i + 1][..i] == run[..i];
  }

  /** One frame: the offset falls to its delay if that is smaller, and the result lies between the rebased source time,
      the last result and 1 on one side, and the local time on the other. */
  lemma RebaseFacts(s: State, a: Arrival)
    requires a.InRange() && a.now >= 1 && 0 <= s.last < MAX_TIME
    ensures var r := Rebase(s, a);
            && r.offset == Known(if s.offset.Unknown? then a.Delay() else Min(s.offset.value, a.Delay()))
            && 1 <= r.last <= a.now && a.source + r.offset.value <= r.last
            && (s.last <= a.now ==> s.last <= r.last)
            && r.last == Min(Max(Max(a.source + r.offset.value, 1), s.last), a.now)
  {
  }

  /** The offset is the smallest delay seen, and the last result is at least the rebased source and 1. */
  lemma {:induction false} OffsetIsLeastDelay(run: seq<Arrival>, i: nat)
    requires Orderly(run) && i < |run|
    ensures After(run[..i + 1]).offset.Known?
    ensures LeastDelay(run, i + 1, After(run[..i + 1]).offset.value)
    ensures 1 <= TimeOf(run, i) <= run[i].now
    ensures run[i].source + After(run[..i + 1]).offset.value <= TimeOf(run, i)
  {
    hide Rebase;
    Unfold(run, i);
    RebaseFacts(After(run[..i]), run[i]);
    if i > 0 {
      OffsetIsLeastDelay(run, i - 1);
      var before := After(run[..i]).offset.value;
      var k :| 0 <= k < i && run[k].Delay() == before;
      assert run[if run[i].Delay() <= before then i else k].Delay() == After(run[..i + 1]).offset.value;
    } else {
      assert run[..0] == [];
      assert run[0].Delay() == After(run[..1]).offset.value;
    }
  }

  /** Results never exceed the local time, and a frame is late only by its delay beyond the smallest delay so far. */
  lemma LatenessBound(run: seq<Arrival>, i: nat, least: int)
    requires Orderly(run) && i < |run| && LeastDelay(run, i + 1, least)
    ensures 0 <= run[i].now - TimeOf(run, i) <= run[i].Delay() - least
  {
    OffsetIsLeastDelay(run, i);
    var offset := After(run[..i + 1]).offset.value;
    var k :| 0 <= k < i + 1 && run[k].Delay() == least;
    assert offset <= run[k].Delay();
  }

  /** Results never decrease, for any two frames of a run. */
  lemma {:induction false} NeverBackwards(run: seq<Arrival>, i: nat, j: nat)
    requires Orderly(run) && i <= j < |run|
    ensures TimeOf(run, i) <= TimeOf(run, j)
    decreases j - i
  {
    if i < j {
      hide Rebase, LeastDelay;
      NeverBackwards(run, i, j - 1);
      Unfold(run, j);
      OffsetIsLeastDelay(run, j - 1);
      RebaseFacts(After(run[..j]), run[j]);
    }
  }

  /** Consecutive frames never come out further apart than they were made, or closer than 0. */
  lemma IntervalsNeverStretch(run: seq<Arrival>, i: nat)
    requires Orderly(run) && i + 1 < |run|
    ensures 0 <= TimeOf(run, i + 1) - TimeOf(run, i) <= Max(run[i + 1].source - run[i].source, 0)
  {
    Unfold(run, i + 1);
    OffsetIsLeastDelay(run, i);
    OffsetIsLeastDelay(run, i + 1);
  }

  /** The interval is kept exactly when both results are the rebased source times: same offset and no clamp. */
  lemma IntervalKept(run: seq<Arrival>, i: nat)
    requires Orderly(run) && i + 1 < |run|
    requires var offset := After(run[..i + 1]).offset;
             && After(run[..i + 2]).offset == offset && offset.Known?
             && TimeOf(run, i) == run[i].source + offset.value
             && TimeOf(run, i) <= run[i + 1].source + offset.value
    ensures TimeOf(run, i + 1) - TimeOf(run, i) == run[i + 1].source - run[i].source
  {
    Unfold(run, i + 1);
    OffsetIsLeastDelay(run, i);
    OffsetIsLeastDelay(run, i + 1);
  }

  /** Over any stretch of a run the results span no more time than the longest way round the sources does. */
  lemma {:induction false} StretchesNeverStretch(run: seq<Arrival>, i: nat, j: nat)
    requires Orderly(run) && i <= j < |run|
    requires forall k :: i <= k < j ==> run[k].source <= run[k + 1].source
    ensures 0 <= TimeOf(run, j) - TimeOf(run, i) <= run[j].source - run[i].source
    decreases j - i
  {
    if i < j {
      StretchesNeverStretch(run, i, j - 1);
      IntervalsNeverStretch(run, j - 1);
    }
  }
}
