/** Hourly candidate start times (app/decide/scheduler.py, _generate_candidate_slots). */
module CandidateGrid {
  import opened Prelude

  function HourMarks(first: Time, latest: Time): seq<Time>
    decreases latest - first
  {
    if first > latest then [] else [first] + HourMarks(first + HOUR, latest)
  }

  function NextHourMark(t: Time): Time {
    var floored := t - t % HOUR;
    if floored < t then floored + HOUR else floored
  }

  function LatestStart(deadline: Time, runtimeMinutes: nat): Time {
    deadline - runtimeMinutes * MINUTE
  }

  function Slots(startBound: Time, deadline: Time, runtimeMinutes: nat, deferrable: bool): seq<Time> {
    var latest := LatestStart(deadline, runtimeMinutes);
    if latest < startBound then []
    else if !deferrable then [startBound]
    else
      var marks := HourMarks(NextHourMark(startBound), latest);
      if marks == [] || marks[0] != startBound then [startBound] + marks else marks
  }

  method GenerateCandidateSlots(startBound: Time, deadline: Time, runtimeMinutes: nat, deferrable: bool)
    returns (slots: seq<Time>)
    ensures slots == Slots(startBound, deadline, runtimeMinutes, deferrable)
  {
    var latest := deadline - runtimeMinutes * MINUTE;
    if latest < startBound {
      return [];
    }
    if !deferrable {
      return [startBound];
    }
    slots := [];
    var candidate := startBound - startBound % HOUR;
    if candidate < startBound {
      candidate := candidate + HOUR;
    }
    while candidate <= latest
      invariant slots + HourMarks(candidate, latest) == HourMarks(NextHourMark(startBound), latest)
      decreases latest - candidate
    {
      slots := slots + [candidate];
      candidate := candidate + HOUR;
    }
    if slots == [] || slots[0] != startBound {
      slots := [startBound] + slots;
    }
  }

  ghost predicate StrictlyIncreasing(s: seq<Time>) {
    forall i, j :: 0 <= i < j < |s| ==> s[i] < s[j]
  }

  lemma {:induction false} HourMarksMembers(first: Time, latest: Time, t: Time)
    requires first % HOUR == 0
    ensures t in HourMarks(first, latest) <==> first <= t <= latest && t % HOUR == 0
    decreases latest - first
  {
    if first <= latest {
      HourMarksMembers(first + HOUR, latest, t);
      assert t in HourMarks(first, latest) <==> t == first || t in HourMarks(first + HOUR, latest);
    }
  }

  lemma {:induction false} HourMarksIncrease(first: Time, latest: Time)
    requires first % HOUR == 0
    ensures StrictlyIncreasing(HourMarks(first, latest))
    ensures HourMarks(first, latest) != [] ==> HourMarks(first, latest)[0] == first
    decreases latest - first
  {
    if first <= latest {
      HourMarksIncrease(first + HOUR, latest);
    }
  }

  /**
   * The grid is strictly increasing, starts at the bound, and holds exactly the bound plus every hour mark
   * that still leaves room for the run; it is empty exactly when the bound itself comes too late.
   */
  lemma GridExact(startBound: Time, deadline: Time, runtimeMinutes: nat, deferrable: bool)
    ensures var grid := Slots(startBound, deadline, runtimeMinutes, deferrable);
            var latest := LatestStart(deadline, runtimeMinutes);
            && StrictlyIncreasing(grid)
            && (grid == [] <==> latest < startBound)
            && (grid != [] ==> grid[0] == startBound)
            && forall t :: t in grid
                 <==> startBound <= t <= latest && (t == startBound || (deferrable && t % HOUR == 0))
  {
    var latest := LatestStart(deadline, runtimeMinutes);
    if startBound <= latest && deferrable {
      MarksFromBound(startBound, latest);
      WithBoundFirst(startBound, HourMarks(NextHourMark(startBound), latest));
    }
  }

  lemma WithBoundFirst(startBound: Time, marks: seq<Time>)
    requires StrictlyIncreasing(marks) && forall t :: t in marks ==> startBound <= t
    ensures var grid := if marks == [] || marks[0] != startBound then [startBound] + marks else marks;
            && StrictlyIncreasing(grid) && grid != [] && grid[0] == startBound
            && forall t :: t in grid <==> t == startBound || t in marks
  {
    assert forall i :: 0 <= i < |marks| ==> marks[i] in marks;
  }

  lemma MarksFromBound(startBound: Time, latest: Time)
    ensures StrictlyIncreasing(HourMarks(NextHourMark(startBound), latest))
    ensures forall t :: t in HourMarks(NextHourMark(startBound), latest) <==> startBound <= t <= latest && t % HOUR == 0
  {
    var mark := NextHourMark(startBound);
    NextMarkIsFirst(startBound);
    HourMarksIncrease(mark, latest);
    forall t ensures t in HourMarks(mark, latest) <==> mark <= t <= latest && t % HOUR == 0 {
      HourMarksMembers(mark, latest, t);
    }
  }

  lemma NextMarkIsFirst(startBound: Time)
    ensures NextHourMark(startBound) % HOUR == 0
    ensures forall t: Time :: t % HOUR == 0 ==> (startBound <= t <==> NextHourMark(startBound) <= t)
  {
  }
}
