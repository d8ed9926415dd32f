/** Feeding streaks (app/services/gamification.py), against the set of days on which the user fed. */
module Streak {
  import opened Prelude

  type Day = int
  type UserId = nat

  /** A row of the streaks table; `lastFeedDate` is also moved by a freeze. */
  datatype Row = Row(current: nat, best: nat, freezeAvailable: int, freezeUsed: int, lastFeedDate: Option<Day>)

  const NEW_ROW := Row(0, 0, 2, 0, None)
  const FREEZES := 2

  /** What one feeding does to the row. */
  function Fed(row: Row, today: Day): Row {
    if row.lastFeedDate == Some(today) then row
    else
      var current := if row.lastFeedDate == Some(today - 1) then row.current + 1 else 1;
      row.(current := current, best := if current > row.best then current else row.best, lastFeedDate := Some(today))
  }

  /** What a granted freeze does to the row. */
  function Frozen(row: Row, today: Day): Row {
    row.(freezeAvailable := row.freezeAvailable - 1, freezeUsed := row.freezeUsed + 1, lastFeedDate := Some(today))
  }

  class Streaks {
    var rows: map<UserId, Row>

    method GetOrCreate(user: UserId) returns (row: Row)
      modifies `rows
      ensures row == if user in old(rows) then old(rows)[user] else NEW_ROW
      ensures rows == old(rows)[user := row]
    {
      if user !in rows {
        rows := rows[user := NEW_ROW];
      }
      row := rows[user];
    }

    method UpdateStreak(user: UserId, today: Day) returns (row: Row)
      modifies `rows
      ensures row == Fed(if user in old(rows) then old(rows)[user] else NEW_ROW, today)
      ensures rows == old(rows)[user := row]
    {
      row := GetOrCreate(user);
      var yesterday := today - 1;
      if row.lastFeedDate == Some(today) {
        return;
      }
      if row.lastFeedDate == Some(yesterday) {
        row := row.(current := row.current + 1);
      } else {
        row := row.(current := 1);
      }
      if row.current > row.best {
        row := row.(best := row.current);
      }
      row := row.(lastFeedDate := Some(today));
      rows := rows[user := row];
    }

    /** A user without a row raises; without a freeze left nothing changes. */
    method UseFreeze(user: UserId, today: Day) returns (r: Outcome<bool>)
      modifies `rows
      ensures r.Rejected? <==> user !in old(rows)
      ensures r.Accepted? ==> (r.value <==> old(rows)[user].freezeAvailable > 0)
      ensures rows == if r == Accepted(true) then old(rows)[user := Frozen(old(rows)[user], today)] else old(rows)
    {
      if user !in rows {
        return Rejected;
      }
      var row := rows[user];
      if row.freezeAvailable <= 0 {
        return Accepted(false);
      }
      row := row.(freezeAvailable := row.freezeAvailable - 1, freezeUsed := row.freezeUsed + 1);
      row := row.(lastFeedDate := Some(today));
      rows := rows[user := row];
      return Accepted(true);
    }
  }

  // ------------------------------------------------------------------ traces of one user

  datatype Event = Feed(day: Day) | Freeze(day: Day)

  /** The clock does not run backwards. */
  ghost predicate InOrder(events: seq<Event>) {
    forall i, j :: 0 <= i < j < |events| ==> events[i].day <= events[j].day
  }

  predicate Granted(row: Option<Row>) {
    row.Some? && row.value.freezeAvailable > 0
  }

  function After(events: seq<Event>): Option<Row> {
    if events == [] then None
    else
      var before, last := After(events[..|events| - 1]), events[|events| - 1];
      match last
      case Feed(day) => Some(Fed(if before.Some? then before.value else NEW_ROW, day))
      case Freeze(day) => if Granted(before) then Some(Frozen(before.value, day)) else before
  }

  /** The days with a feeding or a granted freeze. */
  function Marked(events: seq<Event>): set<Day> {
    if events == [] then {}
    else
      var before, last := events[..|events| - 1], events[|events| - 1];
      if last.Feed? || Granted(After(before)) then Marked(before) + {last.day} else Marked(before)
  }

  /** The days on which a feeding came before any freeze. */
  function Counted(events: seq<Event>): set<Day> {
    if events == [] then {}
    else
      var before, last := events[..|events| - 1], events[|events| - 1];
      if last.Feed? && last.day !in Marked(before) then Counted(before) + {last.day} else Counted(before)
  }

  /** The days from `last` back: exactly `n` of them in a row are in `days`. */
  ghost predicate Consecutive(days: set<Day>, last: Day, n: nat) {
    (forall d :: last - n < d <= last ==> d in days) && last - n !in days
  }

  function FedDays(events: seq<Event>): set<Day> {
    set i | 0 <= i < |events| && events[i].Feed? :: events[i].day
  }

  ghost predicate IsLatest(days: set<Day>, last: Option<Day>) {
    (last.Some? ==> last.value in days) && forall d :: d in days ==> last.Some? && d <= last.value
  }

  lemma RunIsUnique(days: set<Day>, last: Day, n: nat, m: nat)
    requires Consecutive(days, last, n) && Consecutive(days, last, m)
    ensures n == m
  {
  }

  /** What `current` and `best` say about a set of days. */
  ghost predicate Measures(row: Row, days: set<Day>) {
    && IsLatest(days, row.lastFeedDate)
    && row.lastFeedDate.Some?
    && Consecutive(days, row.lastFeedDate.value, row.current)
    && (forall d, n: nat :: Consecutive(days, d, n) ==> n <= row.best)
    && exists d :: Consecutive(days, d, row.best)
  }

  lemma FedMeasures(row: Row, days: set<Day>, today: Day)
    requires Measures(row, days) && row.lastFeedDate.value <= today
    ensures Measures(Fed(row, today), days + {today})
  {
    var last := row.lastFeedDate.value;
    var row', days' := Fed(row, today), days + {today};
    if last == today {
      assert days' == days;
    } else {
      assert Consecutive(days', today, row'.current);
      forall d, n: nat | Consecutive(days', d, n)
        ensures n <= row'.best
      {
        if d == today {
          RunIsUnique(days', today, n, row'.current);
        } else if d < today {
          assert Consecutive(days, d, n);
        } else {
          EmptyRun(days', d, n);
        }
      }
      var d :| Consecutive(days, d, row.best);
      if row'.best == row.best && row.best > 0 {
        assert d in days;
        assert Consecutive(days', d, row'.best);
      }
    }
  }

  lemma EmptyRun(days: set<Day>, d: Day, n: nat)
    requires Consecutive(days, d, n) && d !in days
    ensures n == 0
  {
  }

  lemma TwoDays(days: set<Day>, d: Day, n: nat)
    requires Consecutive(days, d, n)
    ensures n > 1 ==> d in days && d - 1 in days
  {
  }

  lemma FirstMeasures(today: Day)
    ensures Measures(Fed(NEW_ROW, today), {today})
  {
    var row, days := Fed(NEW_ROW, today), {today};
    assert Consecutive(days, today, 1);
    forall d, n: nat | Consecutive(days, d, n)
      ensures n <= 1
    {
      TwoDays(days, d, n);
    }
  }

  lemma FedDaysGrow(events: seq<Event>)
    requires events != []
    ensures var last := events[|events| - 1];
            FedDays(events) == FedDays(events[..|events| - 1]) + if last.Feed? then {last.day} else {}
  {
    var before, last := events[..|events| - 1], events[|events| - 1];
    assert forall i :: 0 <= i < |before| ==> before[i] == events[i];
    forall d | d in FedDays(before)
      ensures d in FedDays(events)
    {
      var i :| 0 <= i < |before| && before[i].Feed? && before[i].day == d;
      assert events[i].day == d;
    }
  }

  /**
     Without freezes, `current` is the length of the run of consecutive days that ends at the
     last feeding day, and `best` is the length of the longest run anywhere.
   */
  lemma {:induction false} StreakIsRun(events: seq<Event>)
    requires InOrder(events) && forall i :: 0 <= i < |events| ==> events[i].Feed?
    ensures events == [] ==> After(events).None?
    ensures events != [] ==> After(events).Some? && Measures(After(events).value, FedDays(events))
  {
    if events != [] {
      var before, last := events[..|events| - 1], events[|events| - 1];
      StreakIsRun(before);
      FedDaysGrow(events);
      if before == [] {
        FirstMeasures(last.day);
        assert FedDays(events) == {last.day};
      } else {
        var row := After(before).value;
        LatestIsNoLater(before, row.lastFeedDate.value, last.day);
        FedMeasures(row, FedDays(before), last.day);
      }
    }
  }

  lemma LatestIsNoLater(events: seq<Event>, last: Day, today: Day)
    requires last in FedDays(events) && forall i :: 0 <= i < |events| ==> events[i].day <= today
    ensures last <= today
  {
  }

  // ------------------------------------------------------------------ freezes

  /** On every trace: the streak never exceeds the best, and a freeze is spent, not created. */
  lemma {:induction false} FreezesAreConserved(events: seq<Event>)
    requires After(events).Some?
    ensures var row := After(events).value;
            && 1 <= row.current <= row.best
            && row.freezeAvailable >= 0
            && row.freezeAvailable + row.freezeUsed == FREEZES
  {
    if After(events[..|events| - 1]).Some? {
      FreezesAreConserved(events[..|events| - 1]);
    }
  }

  /** How often a freeze was asked for after the first feeding. */
  function Asked(events: seq<Event>): nat {
    if events == [] then 0
    else
      var before, last := events[..|events| - 1], events[|events| - 1];
      Asked(before) + if last.Freeze? && FedDays(before) != {} then 1 else 0
  }

  /** The first two freezes asked for after the first feeding are granted and spent, all others refused. */
  lemma {:induction false} FreezesAreSpent(events: seq<Event>)
    ensures After(events).Some? <==> FedDays(events) != {}
    ensures Granted(After(events)) <==> FedDays(events) != {} && Asked(events) < 2
    ensures After(events).Some? ==>
              var used := if Asked(events) < 2 then Asked(events) else 2;
              After(events).value.freezeUsed == used && After(events).value.freezeAvailable == 2 - used
    ensures FedDays(events) == {} ==> Asked(events) == 0
  {
    if events != [] {
      FreezesAreSpent(events[..|events| - 1]);
      FedDaysGrow(events);
      hide FedDays;
    }
  }

  /** The best streak is the longest that was ever current, freezes or not. */
  lemma {:induction false} BestIsLongest(events: seq<Event>) returns (n: nat)
    requires After(events).Some?
    ensures n <= |events| && After(events[..n]).Some? && After(events[..n]).value.current == After(events).value.best
    ensures forall m :: 0 <= m <= |events| && After(events[..m]).Some? ==>
              After(events[..m]).value.current <= After(events).value.best
  {
    var before := events[..|events| - 1];
    assert events[..|events|] == events;
    n := |events|;
    if After(before).Some? {
      n := BestIsLongest(before);
      assert forall m :: 0 <= m <= |before| ==> before[..m] == events[..m];
      if After(events).value.best != After(before).value.best {
        n := |events|;
      }
    } else {
      NoRowBefore(before);
      assert forall m :: 0 <= m <= |before| ==> before[..m] == events[..m];
    }
  }

  lemma {:induction false} NoRowBefore(events: seq<Event>)
    requires After(events).None?
    ensures forall m :: 0 <= m <= |events| ==> After(events[..m]).None?
  {
    assert events[..|events|] == events;
    if events != [] {
      var before := events[..|events| - 1];
      NoRowBefore(before);
      assert forall m :: 0 <= m <= |before| ==> before[..m] == events[..m];
    }
  }

  /** The last day that starts a streak: counted, and the day before it is not marked. */
  ghost predicate Starts(counted: set<Day>, marked: set<Day>, start: Day) {
    && start in counted
    && start - 1 !in marked
    && forall d :: d in counted && d > start ==> d - 1 in marked
  }

  function Since(days: set<Day>, start: Day): set<Day> {
    set d | d in days && d >= start
  }

  lemma {:induction false} MarksMeaning(events: seq<Event>)
    requires InOrder(events)
    ensures Counted(events) <= Marked(events)
    ensures forall d :: d in Marked(events) ==> events != [] && d <= events[|events| - 1].day
    ensures After(events).None? ==> Marked(events) == {}
    ensures After(events).Some? ==> IsLatest(Marked(events), After(events).value.lastFeedDate)
    ensures After(events).Some? ==> After(events).value.lastFeedDate.Some?
  {
    if events != [] {
      MarksMeaning(events[..|events| - 1]);
    }
  }

  /**
     With freezes, `current` is the number of counted days since the streak started: a day
     starts a streak if the day before it has neither a feeding nor a granted freeze.
   */
  lemma {:induction false} StreakCountsSinceStart(events: seq<Event>) returns (start: Day)
    requires InOrder(events) && After(events).Some?
    ensures Starts(Counted(events), Marked(events), start)
    ensures After(events).value.current == |Since(Counted(events), start)|
  {
    assert events != [];
    hide Counted, Marked, After, Since, Starts, Consecutive;
    var before, last := events[..|events| - 1], events[|events| - 1];
    MarksMeaning(before);
    if After(before).None? {
      start := last.day;
      FirstDay(events);
    } else {
      start := StreakCountsSinceStart(before);
      var row, counted, marked := After(before).value, Counted(before), Marked(before);
      if last.Feed? && last.day !in marked {
        NewDay(events);
        if last.day - 1 in marked {
          ContinueDay(row, counted, marked, start, last.day);
        } else {
          start := last.day;
          RestartDay(row, counted, marked, last.day);
        }
      } else {
        KnownDay(events);
        MarkedDay(counted, marked, Marked(events), start, last.day);
      }
    }
  }

  lemma FirstDay(events: seq<Event>)
    requires InOrder(events) && After(events).Some? && After(events[..|events| - 1]).None?
    ensures var day := events[|events| - 1].day;
            && Starts(Counted(events), Marked(events), day)
            && After(events).value.current == |Since(Counted(events), day)|
  {
    var before, day := events[..|events| - 1], events[|events| - 1].day;
    MarksMeaning(before);
    assert Counted(events) == {day} && Marked(events) == {day};
    assert After(events).value.current == 1;
    hide Counted, Marked, After;
    assert Since({day}, day) == {day};
  }

  /** A feeding on a day without marks. */
  lemma NewDay(events: seq<Event>)
    requires events != [] && events[|events| - 1].Feed? && After(events[..|events| - 1]).Some?
    requires events[|events| - 1].day !in Marked(events[..|events| - 1])
    ensures var before, day := events[..|events| - 1], events[|events| - 1].day;
            && Counted(events) == Counted(before) + {day} && Marked(events) == Marked(before) + {day}
            && After(events) == Some(Fed(After(before).value, day))
  {
  }

  /** Any other event counts no day and leaves the streak. */
  lemma KnownDay(events: seq<Event>)
    requires InOrder(events) && events != [] && After(events[..|events| - 1]).Some?
    requires events[|events| - 1].Feed? ==> events[|events| - 1].day in Marked(events[..|events| - 1])
    ensures var before, day := events[..|events| - 1], events[|events| - 1].day;
            && Counted(events) == Counted(before)
            && Marked(before) <= Marked(events) <= Marked(before) + {day}
            && After(events).Some? && After(events).value.current == After(before).value.current
  {
    MarksMeaning(events[..|events| - 1]);
  }

  lemma MarkedDay(counted: set<Day>, marked: set<Day>, marked': set<Day>, start: Day, day: Day)
    requires Starts(counted, marked, start) && counted <= marked <= marked' <= marked + {day}
    requires forall d :: d in marked ==> d <= day
    ensures Starts(counted, marked', start)
  {
  }

  lemma ContinueDay(row: Row, counted: set<Day>, marked: set<Day>, start: Day, day: Day)
    requires Starts(counted, marked, start) && counted <= marked && IsLatest(marked, row.lastFeedDate)
    requires row.current == |Since(counted, start)|
    requires day !in marked && day - 1 in marked && forall d :: d in marked ==> d <= day
    ensures Starts(counted + {day}, marked + {day}, start)
    ensures Fed(row, day).current == |Since(counted + {day}, start)|
  {
    assert row.lastFeedDate == Some(day - 1);
    var days := Since(counted, start);
    assert Since(counted + {day}, start) == days + {day} && day !in days;
    assert |days + {day}| == |days| + 1;
    hide Since;
    assert start <= day - 1;
  }

  lemma RestartDay(row: Row, counted: set<Day>, marked: set<Day>, day: Day)
    requires counted <= marked && IsLatest(marked, row.lastFeedDate)
    requires day !in marked && day - 1 !in marked && forall d :: d in marked ==> d <= day
    ensures Starts(counted + {day}, marked + {day}, day)
    ensures Fed(row, day).current == |Since(counted + {day}, day)|
  {
    assert Since(counted + {day}, day) == {day};
  }

  // ------------------------------------------------------------------ what a freeze is documented to do

  /** A granted freeze on day `f` and the next feeding on day `g`, after any history. */
  lemma FreezeThenFeed(before: seq<Event>, f: Day, g: Day)
    requires InOrder(before + [Freeze(f), Feed(g)]) && Granted(After(before))
    ensures var after := After(before + [Freeze(f), Feed(g)]);
            && after.Some?
            && after.value.current ==
               if g == f then After(before).value.current
               else if g == f + 1 then After(before).value.current + 1
               else 1
  {
    var frozen := before + [Freeze(f)];
    var events := before + [Freeze(f), Feed(g)];
    assert frozen[..|frozen| - 1] == before && frozen[|frozen| - 1] == Freeze(f);
    assert events[..|events| - 1] == frozen && events[|events| - 1] == Feed(g);
    OneEvent(frozen);
    OneEvent(events);
    hide After;
  }

  lemma OneEvent(events: seq<Event>)
    requires events != []
    ensures var before, last := After(events[..|events| - 1]), events[|events| - 1];
            After(events) ==
              match last
              case Feed(day) => Some(Fed(if before.Some? then before.value else NEW_ROW, day))
              case Freeze(day) => if Granted(before) then Some(Frozen(before.value, day)) else before
  {
  }

  /** The user did nothing on a day after all marked ones and before `g`. */
  predicate Missed(marked: set<Day>, d: Day, g: Day) {
    d < g && forall m :: m in marked ==> m < d
  }

  /** No day up to the feeding on `g` was missed, except the frozen one. */
  ghost predicate OnlyFrozenMissed(marked: set<Day>, f: Day, g: Day) {
    forall d :: Missed(marked, d, g) ==> d == f
  }

  /**
   What the documentation promises for the next feeding: the freeze makes up for its own day,
   and a feeding counts once for its day.
   */
  ghost function Promised(before: seq<Event>, f: Day, g: Day): nat
    requires Granted(After(before))
  {
    var current := After(before).value.current;
    if g in Marked(before) then current
    else if OnlyFrozenMissed(Marked(before), f, g) then current + 1
    else 1
  }

  /** When a freeze on `f` and the next feeding on `g` give what is documented. */
  ghost predicate KeepsPromise(before: seq<Event>, f: Day, g: Day)
    requires Granted(After(before))
  {
    var marked := Marked(before);
    if g == f then f in marked || (f - 1 !in marked && After(before).value.current == 1)
    else f in marked || f - 1 in marked || g != f + 1
  }

  /**
   Exactly when a freeze does what is documented.  Before a later feeding: if the frozen day
   follows the streak directly, or the feeding comes too late to profit; otherwise the freeze
   also makes up for the unfrozen days before it.  Before a feeding on the frozen day itself:
   if that day had been fed already, or a streak of one is replaced by another; otherwise the
   feeding is not counted.
   */
  lemma FreezeKeepsPromiseIff(before: seq<Event>, f: Day, g: Day)
    requires InOrder(before + [Freeze(f), Feed(g)]) && Granted(After(before))
    ensures After(before + [Freeze(f), Feed(g)]).Some?
    ensures After(before + [Freeze(f), Feed(g)]).value.current == Promised(before, f, g) <==> KeepsPromise(before, f, g)
  {
    FreezeThenFeed(before, f, g);
    OrderedPrefix(before, [Freeze(f), Feed(g)]);
    MarksMeaning(before);
    FreezesAreConserved(before);
    MarksEndBy(before, f, [Freeze(f), Feed(g)]);
    assert f <= g by {
      var events := before + [Freeze(f), Feed(g)];
      assert events[|before|] == Freeze(f) && events[|before| + 1] == Feed(g);
    }
    hide After, Marked, Counted;
    var row, marked := After(before).value, Marked(before);
    var last := row.lastFeedDate.value;
    assert forall d :: Missed(marked, d, g) <==> last < d < g;
    hide Missed, IsLatest;
    assert f > last + 1 && g <= f + 1 ==> Missed(marked, last + 1, g);
    assert g > f + 1 ==> Missed(marked, f + 1, g);
  }

  lemma OrderedPrefix(a: seq<Event>, b: seq<Event>)
    requires InOrder(a + b)
    ensures InOrder(a)
  {
    forall i, j | 0 <= i < j < |a|
      ensures a[i].day <= a[j].day
    {
      assert (a + b)[i] == a[i] && (a + b)[j] == a[j];
    }
  }

  lemma MarksEndBy(before: seq<Event>, f: Day, more: seq<Event>)
    requires InOrder(before + more) && more != [] && more[0].day == f
    ensures forall d :: d in Marked(before) ==> d <= f
  {
    OrderedPrefix(before, more);
    MarksMeaning(before);
    hide Marked, Counted, After;
    if before != [] {
      var all := before + more;
      assert all[|before| - 1] == before[|before| - 1] && all[|before|] == more[0];
    }
  }

  /** The days that belong to a streak by the documentation: fed, or frozen the day after such a day. */
  function Saved(events: seq<Event>): set<Day> {
    if events == [] then {}
    else
      var before, last := events[..|events| - 1], events[|events| - 1];
      if last.Feed? || (Granted(After(before)) && last.day - 1 in Saved(before)) then Saved(before) + {last.day}
      else Saved(before)
  }

  lemma {:induction false} SavedMeaning(events: seq<Event>)
    ensures Counted(events) <= FedDays(events) && Saved(events) <= Marked(events)
  {
    if events != [] {
      SavedMeaning(events[..|events| - 1]);
      FedDaysGrow(events);
      hide FedDays;
    }
  }

  /** Counted days of the reported streak from before the documented one began. */
  function Healed(events: seq<Event>, start: Day, documented: Day): set<Day> {
    set d | d in Counted(events) && start <= d < documented
  }

  /** Fed days of the documented streak that are not counted: a freeze came before, on the same day. */
  function Ignored(events: seq<Event>, documented: Day): set<Day> {
    set d | d in FedDays(events) && d !in Counted(events) && d >= documented
  }

  /**
   The reported streak against the documented one, on every trace.  The documented streak is
   the number of days fed since the last feeding whose eve is neither fed nor rightly frozen.
   The reported streak is longer by the healed days and shorter by the ignored ones, so both
   agree if and only if these are equally many.  Nothing is healed if and only if no fed day
   of the reported streak follows a day that a freeze did not save.
   */
  lemma StreakIsDocumentedIff(events: seq<Event>) returns (start: Day, documented: Day)
    requires InOrder(events) && After(events).Some?
    ensures Starts(Counted(events), Marked(events), start)
    ensures Starts(FedDays(events), Saved(events), documented)
    ensures var promised := |Since(FedDays(events), documented)|;
            && After(events).value.current + |Ignored(events, documented)|
               == promised + |Healed(events, start, documented)|
            && (After(events).value.current == promised
                <==> |Healed(events, start, documented)| == |Ignored(events, documented)|)
    ensures Healed(events, start, documented) == {}
       <==> forall d :: d in FedDays(events) && d > start ==> d - 1 in Saved(events)
  {
    hide Marked, Counted, After, Saved, FedDays;
    start := StreakCountsSinceStart(events);
    SavedMeaning(events);
    documented := LatestStart(FedDays(events), Saved(events), start);
    var counted, fed := Counted(events), FedDays(events);
    var healed, ignored := Healed(events, start, documented), Ignored(events, documented);
    assert start < documented ==> start in healed;
    SplitCount(counted, fed, start, documented, healed, ignored);
  }

  lemma SplitCount(counted: set<Day>, fed: set<Day>, start: Day, documented: Day, healed: set<Day>, ignored: set<Day>)
    requires counted <= fed && start <= documented
    requires healed == set d | d in counted && start <= d < documented
    requires ignored == set d | d in fed && d !in counted && d >= documented
    ensures |Since(counted, start)| + |ignored| == |Since(fed, documented)| + |healed|
  {
    var both := Since(counted, documented);
    assert Since(counted, start) == healed + both && healed !! both;
    assert Since(fed, documented) == both + ignored && both !! ignored;
    hide Since;
    assert |healed + both| == |healed| + |both|;
    assert |both + ignored| == |both| + |ignored|;
  }

  /** Going on from a day whose eve is not saved, the last such day is reached. */
  lemma LatestStart(counted: set<Day>, saved: set<Day>, from: Day) returns (start: Day)
    requires from in counted && from - 1 !in saved
    ensures start >= from && Starts(counted, saved, start)
    decreases |Since(counted, from)|
  {
    if d :| d in counted && d > from && d - 1 !in saved {
      assert Since(counted, d) < Since(counted, from) by {
        assert from in Since(counted, from) && from !in Since(counted, d);
      }
      ProperSubsetIsSmaller(Since(counted, d), Since(counted, from));
      start := LatestStart(counted, saved, d);
    } else {
      start := from;
    }
  }
}
