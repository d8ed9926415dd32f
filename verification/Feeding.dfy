/** Even feeding times and schedule generation (app/services/feeding.py). */
module Feeding {
  import opened Prelude

  type FishId = nat

  /** Minutes of the day. */
  type Minutes = nat

  datatype Fish = Fish(id: FishId, frequency: Option<int>)

  const START := 7 * 60
  const END := 21 * 60

  /** Whole minutes never lie halfway between two multiples of 5. */
  function NearestFive(t: nat): nat {
    (t + 2) / 5 * 5
  }

  /** How far time number `i` lies after START, in whole minutes. */
  function Offset(i: nat, steps: nat): nat
    requires steps > 0
  {
    i * (END - START) / steps
  }

  /** Time number `i` of `frequency` times between START and END. */
  function EvenTime(frequency: nat, i: nat): Minutes
    requires frequency > 3
  {
    NearestFive(START + Offset(i, frequency - 1))
  }

  /** What `_compute_even_times` returns. */
  function EvenTimes(frequency: nat): seq<Minutes>
    requires frequency > 0
  {
    match frequency
    case 1 => [540]
    case 2 => [540, 1080]
    case 3 => [480, 780, 1080]
    case _ => seq(frequency, i requires 0 <= i < frequency => EvenTime(frequency, i))
  }

  method ComputeEvenTimes(frequency: nat) returns (times: seq<Minutes>)
    requires frequency > 0
    ensures times == EvenTimes(frequency)
  {
    if frequency == 1 {
      return [540];
    }
    if frequency == 2 {
      return [540, 1080];
    }
    if frequency == 3 {
      return [480, 780, 1080];
    }
    times := [];
    for i := 0 to frequency
      invariant |times| == i && forall j :: 0 <= j < i ==> times[j] == EvenTime(frequency, j)
    {
      times := times + [NearestFive(START + i * (END - START) / (frequency - 1))];
    }
  }

  ghost predicate Increasing(times: seq<Minutes>) {
    forall i, j :: 0 <= i < j < |times| ==> times[i] < times[j]
  }

  /** The largest frequency whose times are all different. */
  const MAX_DISTINCT := 169

  /** Rounding moves a time by at most 2 minutes. */
  lemma NearestFiveMeaning(t: nat)
    ensures NearestFive(t) % 5 == 0 && t - 2 <= NearestFive(t) <= t + 2
  {
  }

  // ------------------------------------------------------------------ division

  lemma MulMonotone(a: int, b: int, s: nat)
    requires a <= b
    ensures a * s <= b * s
  {
    assert (b - a) * s >= 0;
    assert (b - a) * s == b * s - a * s;
  }

  lemma DivBounds(x: nat, s: nat)
    requires s > 0
    ensures x / s * s <= x < x / s * s + s
  {
  }

  lemma DivAtLeast(x: nat, s: nat, q: nat)
    requires s > 0 && q * s <= x
    ensures q <= x / s
  {
    DivBounds(x, s);
    var d := x / s;
    if d < q {
      MulMonotone(d + 1, q, s);
      assert false;
    }
  }

  lemma DivAtMost(x: nat, s: nat, q: nat)
    requires s > 0 && x <= q * s
    ensures x / s <= q
  {
    DivBounds(x, s);
    var d := x / s;
    if d > q {
      MulMonotone(q + 1, d, s);
      assert false;
    }
  }

  // ------------------------------------------------------------------ the times

  lemma OffsetEnds(steps: nat)
    requires steps > 0
    ensures Offset(0, steps) == 0 && Offset(steps, steps) == END - START
  {
    var span := END - START;
    DivAtMost(0, steps, 0);
    DivAtLeast(steps * span, steps, span);
    DivAtMost(steps * span, steps, span);
  }

  lemma OffsetMonotone(steps: nat, i: nat, j: nat)
    requires steps > 0 && i <= j
    ensures Offset(i, steps) <= Offset(j, steps)
  {
    var span := END - START;
    DivBounds(i * span, steps);
    DivAtLeast(j * span, steps, i * span / steps);
  }

  /** Up to 169 times, neighbours are at least 5 minutes apart before rounding. */
  lemma OffsetGap(steps: nat, i: nat)
    requires 0 < steps < MAX_DISTINCT
    ensures Offset(i, steps) + 5 <= Offset(i + 1, steps)
  {
    var span := END - START;
    var d := i * span / steps;
    DivBounds(i * span, steps);
    assert (d + 5) * steps == d * steps + 5 * steps;
    DivAtLeast((i + 1) * span, steps, d + 5);
  }

  /** The first time is 07:00 and the last exactly 21:00; each is a multiple of 5 minutes, in order. */
  lemma EvenTimesSpread(frequency: nat, i: nat, j: nat)
    requires frequency > 3 && i <= j < frequency
    ensures EvenTime(frequency, 0) == START && EvenTime(frequency, frequency - 1) == END
    ensures START <= EvenTime(frequency, i) <= EvenTime(frequency, j) <= END
    ensures EvenTime(frequency, i) % 5 == 0
  {
    hide Offset;
    OffsetEnds(frequency - 1);
    OffsetMonotone(frequency - 1, 0, i);
    OffsetMonotone(frequency - 1, i, j);
    OffsetMonotone(frequency - 1, j, frequency - 1);
  }

  lemma {:induction false} TimesApart(frequency: nat, i: nat, j: nat)
    requires 3 < frequency <= MAX_DISTINCT && i < j < frequency
    ensures EvenTime(frequency, i) < EvenTime(frequency, j)
    decreases j - i
  {
    hide Offset;
    OffsetGap(frequency - 1, i);
    if i + 1 < j {
      TimesApart(frequency, i + 1, j);
    }
  }

  /** Multiples of 5 that increase use up 5 minutes each. */
  lemma {:induction false} IncreasingUsesUp(frequency: nat, i: nat)
    requires frequency > 3 && i < frequency && Distinct(EvenTimes(frequency))
    ensures EvenTime(frequency, i) >= START + 5 * i
  {
    hide Offset;
    EvenTimesSpread(frequency, 0, i);
    if i > 0 {
      IncreasingUsesUp(frequency, i - 1);
      EvenTimesSpread(frequency, i - 1, i);
      EvenTimesSpread(frequency, i, i);
      assert EvenTimes(frequency)[i - 1] != EvenTimes(frequency)[i];
    }
  }

  /** The times of a frequency are all different, and increase, exactly up to 169 a day. */
  lemma DistinctUpTo169(frequency: nat)
    requires frequency > 0
    ensures Distinct(EvenTimes(frequency)) <==> frequency <= MAX_DISTINCT
    ensures frequency <= MAX_DISTINCT ==> Increasing(EvenTimes(frequency))
  {
    hide Offset;
    if 3 < frequency <= MAX_DISTINCT {
      forall i, j | 0 <= i < j < frequency
        ensures EvenTimes(frequency)[i] < EvenTimes(frequency)[j]
      {
        TimesApart(frequency, i, j);
      }
    } else if frequency > MAX_DISTINCT && Distinct(EvenTimes(frequency)) {
      IncreasingUsesUp(frequency, frequency - 1);
      EvenTimesSpread(frequency, 0, 0);
      assert false;
    }
  }

  /**
   There are as many times as asked for.  Up to three they are fixed; above, time number `i` is
   less than 3 minutes from the point that divides 07:00 to 21:00 evenly, stated multiplied by
   the number of steps.
   */
  lemma EvenTimesAreEven(frequency: nat)
    requires frequency > 0
    ensures |EvenTimes(frequency)| == frequency
    ensures frequency == 1 ==> EvenTimes(frequency) == [9 * 60]
    ensures frequency == 2 ==> EvenTimes(frequency) == [9 * 60, 18 * 60]
    ensures frequency == 3 ==> EvenTimes(frequency) == [8 * 60, 13 * 60, 18 * 60]
    ensures frequency > 3 ==> forall i :: 0 <= i < frequency ==>
              Near(EvenTimes(frequency)[i], i, frequency - 1)
  {
    if frequency > 3 {
      forall i | 0 <= i < frequency
        ensures Near(EvenTime(frequency, i), i, frequency - 1)
      {
        OffsetIsNear(i, frequency - 1);
      }
    }
  }

  /** The time is less than 3 minutes from step number `i` of `steps` between 07:00 and 21:00. */
  ghost predicate Near(time: Minutes, i: nat, steps: nat) {
    -3 * steps < time * steps - (7 * 60 * steps + i * (14 * 60)) < 3 * steps
  }

  lemma OffsetIsNear(i: nat, steps: nat)
    requires steps > 0
    ensures Near(NearestFive(START + Offset(i, steps)), i, steps)
  {
    var offset := Offset(i, steps);
    DivBounds(i * (END - START), steps);
    NearestFiveMeaning(START + offset);
    var time := NearestFive(START + offset);
    hide NearestFive, Offset;
    var off := time - START - offset;
    assert time * steps == START * steps + offset * steps + off * steps;
    MulMonotone(-2, off, steps);
    MulMonotone(off, 2, steps);
  }

  // ------------------------------------------------------------------ schedules

  /** A row of the schedules table, by the columns of its unique constraint. */
  datatype Schedule = Schedule(fish: FishId, time: Minutes)

  /** The species' frequency; 1 without species or frequency, and at least 1. */
  function FrequencyOf(f: Fish): nat {
    if f.frequency.Some? && f.frequency.value >= 1 then f.frequency.value else 1
  }

  function TimesOf(f: Fish): seq<Minutes> {
    EvenTimes(FrequencyOf(f))
  }

  /** The schedules at these times that do not exist, in order. */
  function Lacking(id: FishId, times: seq<Minutes>, existing: set<Schedule>): seq<Schedule> {
    if times == [] then []
    else
      var s := Schedule(id, times[|times| - 1]);
      Lacking(id, times[..|times| - 1], existing) + if s in existing then [] else [s]
  }

  /** What one generation creates. */
  function AllLacking(fish: seq<Fish>, existing: set<Schedule>): seq<Schedule> {
    if fish == [] then []
    else
      var f := fish[|fish| - 1];
      AllLacking(fish[..|fish| - 1], existing) + Lacking(f.id, TimesOf(f), existing)
  }

  /** Some fish of the list is fed at this time. */
  ghost predicate Wanted(fish: seq<Fish>, s: Schedule) {
    exists f :: f in fish && f.id == s.fish && s.time in TimesOf(f)
  }

  /** A time that comes twice already exists. */
  ghost predicate NoClash(id: FishId, times: seq<Minutes>, existing: set<Schedule>) {
    forall i, j :: 0 <= i < j < |times| && times[i] == times[j] ==> Schedule(id, times[i]) in existing
  }

  ghost predicate DistinctFish(fish: seq<Fish>) {
    forall i, j :: 0 <= i < j < |fish| ==> fish[i].id != fish[j].id
  }

  lemma {:induction false} LackingMembers(id: FishId, times: seq<Minutes>, existing: set<Schedule>)
    ensures forall s :: s in Lacking(id, times, existing) <==> s !in existing && s.fish == id && s.time in times
  {
    if times != [] {
      var rest := times[..|times| - 1];
      LackingMembers(id, rest, existing);
      assert times == rest + [times[|times| - 1]];
    }
  }

  lemma {:induction false} LackingDistinct(id: FishId, times: seq<Minutes>, existing: set<Schedule>)
    ensures Distinct(Lacking(id, times, existing)) <==> NoClash(id, times, existing)
  {
    if times != [] {
      var rest, last := times[..|times| - 1], times[|times| - 1];
      var s := Schedule(id, last);
      LackingDistinct(id, rest, existing);
      LackingMembers(id, rest, existing);
      DistinctJoin(Lacking(id, rest, existing), if s in existing then [] else [s]);
      NoClashJoin(id, rest, last, existing);
      assert times == rest + [last];
    }
  }

  lemma NoClashJoin(id: FishId, rest: seq<Minutes>, last: Minutes, existing: set<Schedule>)
    ensures NoClash(id, rest + [last], existing)
       <==> NoClash(id, rest, existing) && (last in rest ==> Schedule(id, last) in existing)
  {
    var times := rest + [last];
    if NoClash(id, times, existing) {
      forall i, j | 0 <= i < j < |rest| && rest[i] == rest[j]
        ensures Schedule(id, rest[i]) in existing
      {
        assert times[i] == times[j];
      }
      if last in rest {
        var i :| 0 <= i < |rest| && rest[i] == last;
        assert times[i] == times[|rest|];
      }
    }
  }

  /** A generation creates exactly the wanted schedules that do not exist. */
  lemma {:induction false} AllLackingMembers(fish: seq<Fish>, existing: set<Schedule>)
    ensures forall s :: s in AllLacking(fish, existing) <==> s !in existing && Wanted(fish, s)
  {
    if fish != [] {
      var rest, f := fish[..|fish| - 1], fish[|fish| - 1];
      AllLackingMembers(rest, existing);
      LackingMembers(f.id, TimesOf(f), existing);
      assert fish == rest + [f];
      assert forall s :: Wanted(fish, s) <==> Wanted(rest, s) || (s.fish == f.id && s.time in TimesOf(f));
    }
  }

  /** The unique constraint lets a generation through if and only if no fish lacks a time twice. */
  lemma {:induction false} AllLackingDistinct(fish: seq<Fish>, existing: set<Schedule>)
    requires DistinctFish(fish)
    ensures Distinct(AllLacking(fish, existing))
       <==> forall f :: f in fish ==> NoClash(f.id, TimesOf(f), existing)
  {
    if fish != [] {
      hide EvenTimes, FrequencyOf, NoClash, Distinct;
      var rest, f := fish[..|fish| - 1], fish[|fish| - 1];
      AllLackingDistinct(rest, existing);
      LackingDistinct(f.id, TimesOf(f), existing);
      OneMoreFish(rest, f, existing);
      assert fish == rest + [f];
    }
  }

  /** Different fish lack different schedules. */
  lemma OneMoreFish(rest: seq<Fish>, f: Fish, existing: set<Schedule>)
    requires forall g :: g in rest ==> g.id != f.id
    ensures Distinct(AllLacking(rest, existing) + Lacking(f.id, TimesOf(f), existing))
       <==> Distinct(AllLacking(rest, existing)) && Distinct(Lacking(f.id, TimesOf(f), existing))
  {
    hide EvenTimes, FrequencyOf, Distinct;
    AllLackingMembers(rest, existing);
    LackingMembers(f.id, TimesOf(f), existing);
    DistinctJoin(AllLacking(rest, existing), Lacking(f.id, TimesOf(f), existing));
  }

  /** Up to 169 feedings a day nothing can clash; above, a fish without schedules always does. */
  lemma ClashMeaning(f: Fish, existing: set<Schedule>)
    ensures FrequencyOf(f) <= MAX_DISTINCT ==> NoClash(f.id, TimesOf(f), existing)
    ensures FrequencyOf(f) > MAX_DISTINCT && (forall s :: s in existing ==> s.fish != f.id) ==>
              !NoClash(f.id, TimesOf(f), existing)
  {
    DistinctUpTo169(FrequencyOf(f));
  }

  /** What one generation creates leaves nothing for the next. */
  lemma SecondGenerationIsEmpty(fish: seq<Fish>, existing: set<Schedule>)
    ensures AllLacking(fish, existing + set s | s in AllLacking(fish, existing)) == []
  {
    var all := existing + set s | s in AllLacking(fish, existing);
    AllLackingMembers(fish, existing);
    AllLackingMembers(fish, all);
    Inhabited(AllLacking(fish, all));
  }

  /** The times of one fish among schedules, in order. */
  function TimesAmong(schedules: seq<Schedule>, id: FishId): seq<Minutes> {
    if schedules == [] then []
    else
      var s := schedules[|schedules| - 1];
      TimesAmong(schedules[..|schedules| - 1], id) + if s.fish == id then [s.time] else []
  }

  lemma {:induction false} TimesAmongJoin(a: seq<Schedule>, b: seq<Schedule>, id: FishId)
    ensures TimesAmong(a + b, id) == TimesAmong(a, id) + TimesAmong(b, id)
  {
    if b == [] {
      assert a + b == a;
    } else {
      var rest := b[..|b| - 1];
      assert (a + b)[..|a + b| - 1] == a + rest;
      TimesAmongJoin(a, rest, id);
    }
  }

  lemma {:induction false} NewFishLacksAll(id: FishId, times: seq<Minutes>, existing: set<Schedule>)
    requires forall s :: s in existing ==> s.fish != id
    ensures TimesAmong(Lacking(id, times, existing), id) == times
  {
    if times != [] {
      var rest, s := times[..|times| - 1], Schedule(id, times[|times| - 1]);
      NewFishLacksAll(id, rest, existing);
      TimesAmongJoin(Lacking(id, rest, existing), [s], id);
      assert TimesAmong([s], id) == TimesAmong([], id) + [s.time];
    }
  }

  lemma {:induction false} OthersLackApart(id: FishId, times: seq<Minutes>, existing: set<Schedule>, other: FishId)
    requires other != id
    ensures TimesAmong(Lacking(id, times, existing), other) == []
  {
    if times != [] {
      var rest, s := times[..|times| - 1], Schedule(id, times[|times| - 1]);
      OthersLackApart(id, rest, existing, other);
      TimesAmongJoin(Lacking(id, rest, existing), [s], other);
      assert TimesAmong([s], other) == TimesAmong([], other);
      assert Lacking(id, rest, existing) + [] == Lacking(id, rest, existing);
    }
  }

  /**
   A fish without schedules gets as many as its species is fed a day, at least one, and one
   without a species or frequency; they are at the even times of that number, in order.
   */
  lemma {:induction false} NewFishGetsItsFrequency(fish: seq<Fish>, f: Fish, existing: set<Schedule>)
    requires DistinctFish(fish) && f in fish && forall s :: s in existing ==> s.fish != f.id
    ensures var n := if f.frequency.None? || f.frequency.value < 1 then 1 else f.frequency.value;
      var times := TimesAmong(AllLacking(fish, existing), f.id);
      |times| == n && times == EvenTimes(n)
  {
    var rest, last := fish[..|fish| - 1], fish[|fish| - 1];
    TimesAmongJoin(AllLacking(rest, existing), Lacking(last.id, TimesOf(last), existing), f.id);
    EvenTimesAreEven(FrequencyOf(f));
    hide EvenTimes, Lacking, TimesAmong;
    if last == f {
      NewFishLacksAll(f.id, TimesOf(f), existing);
      OthersOnly(rest, f.id, existing);
    } else {
      assert f in rest;
      OthersLackApart(last.id, TimesOf(last), existing, f.id);
      NewFishGetsItsFrequency(rest, f, existing);
    }
  }

  lemma {:induction false} OthersOnly(fish: seq<Fish>, id: FishId, existing: set<Schedule>)
    requires forall f :: f in fish ==> f.id != id
    ensures TimesAmong(AllLacking(fish, existing), id) == []
  {
    if fish != [] {
      var rest, last := fish[..|fish| - 1], fish[|fish| - 1];
      TimesAmongJoin(AllLacking(rest, existing), Lacking(last.id, TimesOf(last), existing), id);
      OthersLackApart(last.id, TimesOf(last), existing, id);
      OthersOnly(rest, id, existing);
    }
  }

  class Schedules {
    var rows: seq<Schedule>

    /** The unique constraint on (fish, time). */
    ghost predicate Valid()
      reads this
    {
      Distinct(rows)
    }

    constructor ()
      ensures Valid() && rows == []
    {
      rows := [];
    }

    /**
     `generate_schedule` for the fish of an aquarium that are not deleted.  It creates exactly
     the wanted schedules that do not exist; if two of them are equal the flush fails and
     nothing is created.
     */
    method GenerateSchedule(fish: seq<Fish>) returns (r: Outcome<seq<Schedule>>)
      requires Valid() && DistinctFish(fish)
      modifies this
      ensures Valid()
      ensures r.Rejected? ==> rows == old(rows)
      ensures var existing := set s | s in old(rows);
              && (r.Accepted? <==> forall f :: f in fish ==> NoClash(f.id, TimesOf(f), existing))
              && (r.Accepted? ==> r.value == AllLacking(fish, existing))
      ensures r.Accepted? ==>
                && rows == old(rows) + r.value
                && (forall s :: s in r.value <==> s !in old(rows) && Wanted(fish, s))
                && forall s :: Wanted(fish, s) ==> s in rows
      ensures (forall s :: Wanted(fish, s) ==> s in old(rows)) ==> r == Accepted([])
    {
      var existing := set s | s in rows;
      var created: seq<Schedule> := [];
      for k := 0 to |fish|
        invariant created == AllLacking(fish[..k], existing)
        invariant rows == old(rows)
      {
        var id := fish[k].id;
        var times := ComputeEvenTimes(FrequencyOf(fish[k]));
        ghost var before := created;
        for i := 0 to |times|
          invariant created == before + Lacking(id, times[..i], existing)
        {
          assert times[..i + 1][..i] == times[..i];
          if Schedule(id, times[i]) !in existing {
            created := created + [Schedule(id, times[i])];
          }
        }
        assert times[..|times|] == times;
        assert fish[..k + 1][..k] == fish[..k];
      }
      assert fish[..|fish|] == fish;
      AllLackingMembers(fish, existing);
      AllLackingDistinct(fish, existing);
      DistinctJoin(rows, created);
      Inhabited(created);
      if !Distinct(rows + created) {
        return Rejected;
      }
      rows := rows + created;
      return Accepted(created);
    }
  }
}
