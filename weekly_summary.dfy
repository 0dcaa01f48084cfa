/** The weekly-summary endpoint: calories burned per weekday over the
    trailing week, Monday in slot 0 and Sunday in slot 6. The grouped SQL
    query is given by what its result rows satisfy; the bucketing loop that
    follows it is modelled as written. */
module WeeklySummaryApi {
  import opened StoreRows

  /** A row of `SELECT DATE(date), SUM(calories_burned) ... GROUP BY DATE(date)`. */
  datatype DateTotal = DateTotal(day: int, caloriesBurned: int)

  /** `DATE(date) >= CURDATE() - INTERVAL 6 DAY`; there is no upper bound. */
  predicate InQueryWindow(day: int, today: int)
    ensures today - 6 <= day <= today ==> InQueryWindow(day, today)
    ensures day > today ==> InQueryWindow(day, today)
    ensures day < today - 6 ==> !InQueryWindow(day, today)
  {
    day >= today - 6
  }

  /** The user's exercise rows dated on `day`. */
  predicate HasRowOn(rows: seq<LogRow>, userId: int, day: int) {
    exists r :: r in rows && r.userId == userId && r.day == day
  }

  /** `result` is an answer of the grouped query for `userId` over `rows`, in
      any order: one row per date that has exercise in the window, carrying
      the sum of that date's calories. */
  ghost predicate IsWeeklyQueryResult(result: seq<DateTotal>, rows: seq<LogRow>, userId: int, today: int)
    ensures rows == [] ==> (IsWeeklyQueryResult(result, rows, userId, today) <==> result == [])
  {
    assert rows == [] && result != [] ==> !HasRowOn(rows, userId, result[0].day);
    && (forall i, j :: 0 <= i < j < |result| ==> result[i].day != result[j].day)
    && (forall i :: 0 <= i < |result| ==>
          && InQueryWindow(result[i].day, today)
          && HasRowOn(rows, userId, result[i].day)
          && result[i].caloriesBurned == Sum(CaloriesWhere(rows, OwnedOn(userId, result[i].day))))
    && (forall r :: r in rows && r.userId == userId && InQueryWindow(r.day, today) ==>
          exists i :: 0 <= i < |result| && result[i].day == r.day)
  }

  /** What slot `weekday - 1` holds after the loop: the value of the LAST row
      whose date falls on that weekday (later rows overwrite), or 0. */
  function LastOnWeekday(result: seq<DateTotal>, weekday: int): int {
    if result == [] then 0
    else if IsoWeekday(result[|result| - 1].day) == weekday then result[|result| - 1].caloriesBurned
    else LastOnWeekday(result[..|result| - 1], weekday)
  }

  /** `array_fill(0, 7, 0)` followed by the `foreach` that writes each row's
      total into slot `format('N') - 1`. */
  method WeeklyBuckets(result: seq<DateTotal>) returns (caloriesBurned: seq<int>)
    ensures |caloriesBurned| == 7
    ensures forall k :: 0 <= k < 7 ==> caloriesBurned[k] == LastOnWeekday(result, k + 1)
  {
    var slots := new int[7](_ => 0);
    for i := 0 to |result|
      invariant forall k :: 0 <= k < 7 ==> slots[k] == LastOnWeekday(result[..i], k + 1)
    {
      var dayIndex := IsoWeekday(result[i].day) - 1;
      slots[dayIndex] := result[i].caloriesBurned;
      assert result[..i + 1][..i] == result[..i];
    }
    assert result[..|result|] == result;
    caloriesBurned := slots[..];
  }

  /** A weekday no row falls on keeps its 0. */
  lemma {:induction false} UnmatchedWeekdayIsZero(result: seq<DateTotal>, weekday: int)
    requires forall i :: 0 <= i < |result| ==> IsoWeekday(result[i].day) != weekday
    ensures LastOnWeekday(result, weekday) == 0
    decreases |result|
  {
    if result != [] {
      UnmatchedWeekdayIsZero(result[..|result| - 1], weekday);
    }
  }

  /** When exactly one row falls on a weekday, its slot holds that row's total. */
  lemma {:induction false} OnlyRowOnWeekday(result: seq<DateTotal>, i: int)
    requires 0 <= i < |result|
    requires forall j :: 0 <= j < |result| && j != i ==> IsoWeekday(result[j].day) != IsoWeekday(result[i].day)
    ensures LastOnWeekday(result, IsoWeekday(result[i].day)) == result[i].caloriesBurned
    decreases |result|
  {
    if i < |result| - 1 {
      var front := result[..|result| - 1];
      assert forall j :: 0 <= j < |front| ==> front[j] == result[j];
      OnlyRowOnWeekday(front, i);
    }
  }

  /** Assignment, not addition: of two rows a week apart, only the later one
      is kept. */
  lemma LaterRowOverwrites(day: int, first: int, second: int)
    ensures LastOnWeekday([DateTotal(day, first), DateTotal(day + 7, second)], IsoWeekday(day)) == second
  {
    WeekdayPeriodic(day);
  }

  /** A row dated after today still lands in a weekday slot: tomorrow shares
      its weekday with the first day of the window and replaces its total. */
  lemma FutureRowOverwritesWindow(today: int, firstDay: int, tomorrow: int)
    ensures LastOnWeekday([DateTotal(today - 6, firstDay), DateTotal(today + 1, tomorrow)], IsoWeekday(today - 6))
            == tomorrow
  {
    WeekdayPeriodic(today - 6);
    assert today - 6 + 7 == today + 1;
  }

  /** The user's calories on one weekday of the closed window [today-6, today]. */
  function WindowWeekday(userId: int, today: int, weekday: int): LogRow -> bool {
    (r: LogRow) => r.userId == userId && today - 6 <= r.day <= today && IsoWeekday(r.day) == weekday
  }

  /** The user's calories over the whole closed window [today-6, today]. */
  function Window(userId: int, today: int): LogRow -> bool {
    (r: LogRow) => r.userId == userId && today - 6 <= r.day <= today
  }

  /** Without rows dated after today, each slot holds the calories the user
      burned on that weekday within the last seven days. */
  lemma {:induction false} BucketsMatchWindow(result: seq<DateTotal>, rows: seq<LogRow>, userId: int, today: int, k: int)
    requires IsWeeklyQueryResult(result, rows, userId, today)
    requires forall r :: r in rows && r.userId == userId ==> r.day <= today
    requires 0 <= k < 7
    ensures LastOnWeekday(result, k + 1) == WeekdayTotal(rows, userId, today, k + 1)
  {
    var weekday := k + 1;
    var keep := WindowWeekday(userId, today, weekday);
    // every result row lies in the closed window
    forall i | 0 <= i < |result| ensures today - 6 <= result[i].day <= today {
      var r :| r in rows && r.userId == userId && r.day == result[i].day;
    }
    if i :| 0 <= i < |result| && IsoWeekday(result[i].day) == weekday {
      var d := result[i].day;
      forall j | 0 <= j < |result| && j != i ensures IsoWeekday(result[j].day) != weekday {
        if result[j].day < d {
          WeekdaysDistinct(result[j].day, d);
        } else {
          WeekdaysDistinct(d, result[j].day);
        }
      }
      OnlyRowOnWeekday(result, i);
      forall r | r in rows ensures keep(r) <==> OwnedOn(userId, d)(r) {
        if keep(r) {
          var j :| 0 <= j < |result| && result[j].day == r.day;
          assert j == i;
        }
      }
      CaloriesWhereSame(rows, keep, OwnedOn(userId, d));
    } else {
      UnmatchedWeekdayIsZero(result, weekday);
      forall r | r in rows ensures !keep(r) {
        if r.userId == userId && today - 6 <= r.day <= today {
          var j :| 0 <= j < |result| && result[j].day == r.day;
          assert IsoWeekday(r.day) != weekday;
        }
      }
      CaloriesWhereNone(rows, keep);
    }
  }

  function SumOfSlots(slots: seq<int>): int
    requires |slots| == 7
  {
    slots[0] + slots[1] + slots[2] + slots[3] + slots[4] + slots[5] + slots[6]
  }

  /** The calories the user burned on one weekday of the closed window. */
  function WeekdayTotal(rows: seq<LogRow>, userId: int, today: int, weekday: int): int {
    Sum(CaloriesWhere(rows, WindowWeekday(userId, today, weekday)))
  }

  /** The calories the user burned over the closed window. */
  function WindowTotal(rows: seq<LogRow>, userId: int, today: int): int {
    Sum(CaloriesWhere(rows, Window(userId, today)))
  }

  lemma WeekdayTotalStep(rows: seq<LogRow>, userId: int, today: int, weekday: int)
    requires rows != []
    ensures WeekdayTotal(rows, userId, today, weekday)
         == (if WindowWeekday(userId, today, weekday)(rows[0]) then rows[0].calories else 0)
            + WeekdayTotal(rows[1..], userId, today, weekday)
  {
    var keep := WindowWeekday(userId, today, weekday);
    SumAppend(if keep(rows[0]) then [rows[0].calories] else [], CaloriesWhere(rows[1..], keep));
  }

  lemma WindowTotalStep(rows: seq<LogRow>, userId: int, today: int)
    requires rows != []
    ensures WindowTotal(rows, userId, today)
         == (if Window(userId, today)(rows[0]) then rows[0].calories else 0) + WindowTotal(rows[1..], userId, today)
  {
    var keep := Window(userId, today);
    SumAppend(if keep(rows[0]) then [rows[0].calories] else [], CaloriesWhere(rows[1..], keep));
  }

  /** The seven per-weekday totals of the window add up to the window's total. */
  lemma {:induction false} WeekdaysPartitionWindow(rows: seq<LogRow>, userId: int, today: int)
    ensures WeekdayTotal(rows, userId, today, 1) + WeekdayTotal(rows, userId, today, 2)
          + WeekdayTotal(rows, userId, today, 3) + WeekdayTotal(rows, userId, today, 4)
          + WeekdayTotal(rows, userId, today, 5) + WeekdayTotal(rows, userId, today, 6)
          + WeekdayTotal(rows, userId, today, 7)
         == WindowTotal(rows, userId, today)
    decreases |rows|
  {
    if rows != [] {
      WeekdaysPartitionWindow(rows[1..], userId, today);
      WeekdayTotalStep(rows, userId, today, 1);
      WeekdayTotalStep(rows, userId, today, 2);
      WeekdayTotalStep(rows, userId, today, 3);
      WeekdayTotalStep(rows, userId, today, 4);
      WeekdayTotalStep(rows, userId, today, 5);
      WeekdayTotalStep(rows, userId, today, 6);
      WeekdayTotalStep(rows, userId, today, 7);
      WindowTotalStep(rows, userId, today);
    }
  }

  /** The endpoint's week adds up to what the user burned in the last seven
      days, provided nothing is dated after today. */
  method WeeklyTotalMatchesWindow(result: seq<DateTotal>, rows: seq<LogRow>, userId: int, today: int)
    returns (caloriesBurned: seq<int>)
    requires IsWeeklyQueryResult(result, rows, userId, today)
    requires forall r :: r in rows && r.userId == userId ==> r.day <= today
    ensures |caloriesBurned| == 7
    ensures SumOfSlots(caloriesBurned) == WindowTotal(rows, userId, today)
  {
    caloriesBurned := WeeklyBuckets(result);
    BucketsMatchWindow(result, rows, userId, today, 0);
    BucketsMatchWindow(result, rows, userId, today, 1);
    BucketsMatchWindow(result, rows, userId, today, 2);
    BucketsMatchWindow(result, rows, userId, today, 3);
    BucketsMatchWindow(result, rows, userId, today, 4);
    BucketsMatchWindow(result, rows, userId, today, 5);
    BucketsMatchWindow(result, rows, userId, today, 6);
    WeekdaysPartitionWindow(rows, userId, today);
  }
}
