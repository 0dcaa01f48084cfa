/** Rows of the relational store as the two summary endpoints read them, and
    the SQL aggregate they use. A calendar date is a day number counted from
    1970-01-01, which was a Thursday. */
module StoreRows {
  import opened Optional

  /** A row of the `exercises` or `meals` table: its owner, DATE(date) as a
      day number, and its calorie column (`calories_burned` or `calories`). */
  datatype LogRow = LogRow(userId: int, day: int, calories: int)

  /** A row of `user_profiles`, with the nullable `daily_calorie_goal`. */
  datatype ProfileRow = ProfileRow(userId: int, dailyCalorieGoal: Option<int>)

  function Sum(xs: seq<int>): int {
    if xs == [] then 0 else xs[0] + Sum(xs[1..])
  }

  lemma {:induction false} SumAppend(a: seq<int>, b: seq<int>)
    ensures Sum(a + b) == Sum(a) + Sum(b)
    decreases |a|
  {
    if a == [] {
      assert a + b == b;
    } else {
      assert (a + b)[1..] == a[1..] + b;
      SumAppend(a[1..], b);
    }
  }

  /** SQL SUM over the selected values: NULL when no row is selected. */
  function SqlSum(xs: seq<int>): (r: Option<int>)
    ensures r.None? <==> xs == []
    ensures r.Some? ==> r.value == Sum(xs)
  {
    if xs == [] then None else Some(Sum(xs))
  }

  /** `SUM(...) ?? 0`: the sum, and 0 for no rows. */
  lemma SqlSumOrZero(xs: seq<int>)
    ensures SqlSum(xs).GetOr(0) == Sum(xs)
  {
  }

  /** The calorie column of the rows a WHERE clause `keep` selects, in table order. */
  function CaloriesWhere(rows: seq<LogRow>, keep: LogRow -> bool): (cs: seq<int>)
    ensures |cs| <= |rows|
    ensures forall c :: c in cs ==> exists r :: r in rows && keep(r) && r.calories == c
  {
    if rows == [] then []
    else (if keep(rows[0]) then [rows[0].calories] else []) + CaloriesWhere(rows[1..], keep)
  }

  /** Every row the WHERE clause selects contributes its calories. */
  lemma {:induction false} CaloriesWhereComplete(rows: seq<LogRow>, keep: LogRow -> bool)
    ensures forall r :: r in rows && keep(r) ==> r.calories in CaloriesWhere(rows, keep)
    decreases |rows|
  {
    if rows != [] {
      CaloriesWhereComplete(rows[1..], keep);
      forall r | r in rows && keep(r) ensures r.calories in CaloriesWhere(rows, keep) {
        if r != rows[0] {
          assert r in rows[1..];
        }
      }
    }
  }

  lemma {:induction false} CaloriesWhereAppend(a: seq<LogRow>, b: seq<LogRow>, keep: LogRow -> bool)
    ensures CaloriesWhere(a + b, keep) == CaloriesWhere(a, keep) + CaloriesWhere(b, keep)
    decreases |a|
  {
    if a == [] {
      assert a + b == b;
    } else {
      assert (a + b)[0] == a[0];
      assert (a + b)[1..] == a[1..] + b;
      CaloriesWhereAppend(a[1..], b, keep);
      var head := if keep(a[0]) then [a[0].calories] else [];
      assert CaloriesWhere(a + b, keep) == head + CaloriesWhere(a[1..] + b, keep);
      assert CaloriesWhere(a, keep) == head + CaloriesWhere(a[1..], keep);
    }
  }

  /** No selected row: nothing to sum. */
  lemma {:induction false} CaloriesWhereNone(rows: seq<LogRow>, keep: LogRow -> bool)
    requires forall r :: r in rows ==> !keep(r)
    ensures CaloriesWhere(rows, keep) == []
    decreases |rows|
  {
    if rows != [] {
      assert forall r :: r in rows[1..] ==> r in rows;
      CaloriesWhereNone(rows[1..], keep);
    }
  }

  /** Two WHERE clauses that agree on every row select the same values. */
  lemma {:induction false} CaloriesWhereSame(rows: seq<LogRow>, p: LogRow -> bool, q: LogRow -> bool)
    requires forall r :: r in rows ==> (p(r) <==> q(r))
    ensures CaloriesWhere(rows, p) == CaloriesWhere(rows, q)
    decreases |rows|
  {
    if rows != [] {
      assert forall r :: r in rows[1..] ==> r in rows;
      CaloriesWhereSame(rows[1..], p, q);
    }
  }

  /** `WHERE user_id = :user_id AND DATE(date) = day`. */
  function OwnedOn(userId: int, day: int): (keep: LogRow -> bool)
    ensures forall r :: keep(r) <==> r.userId == userId && r.day == day
  {
    (r: LogRow) => r.userId == userId && r.day == day
  }

  /** PHP DateTime::format('N') of a day number: 1 = Monday ... 7 = Sunday. */
  function IsoWeekday(day: int): (n: int)
    ensures 1 <= n <= 7
    ensures n == 1 <==> (day - 4) % 7 == 0
  {
    (day + 3) % 7 + 1
  }

  /** Day 0, 1970-01-01, is a Thursday, so day 4 is the first Monday. */
  lemma EpochIsThursday()
    ensures IsoWeekday(0) == 4 && IsoWeekday(4) == 1
  {
  }

  /** Weekdays repeat every seven days. */
  lemma WeekdayPeriodic(day: int)
    ensures IsoWeekday(day + 7) == IsoWeekday(day)
  {
  }

  /** Seven consecutive days have seven different weekdays. */
  lemma WeekdaysDistinct(d1: int, d2: int)
    requires d1 < d2 < d1 + 7
    ensures IsoWeekday(d1) != IsoWeekday(d2)
  {
    var q1, q2 := (d1 + 3) / 7, (d2 + 3) / 7;
    assert d1 + 3 == 7 * q1 + (d1 + 3) % 7;
    assert d2 + 3 == 7 * q2 + (d2 + 3) % 7;
  }
}
