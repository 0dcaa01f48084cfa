/** The dashboard page reading the two summary endpoints. The page shows the
    endpoints' numbers unchanged, and the goal it divides by agrees with the
    goal the daily endpoint subtracts from, except when the stored goal is 0.
    The profile answer is taken to report the stored `daily_calorie_goal`
    column as it is. */
module Dashboard {
  import opened Optional
  import opened JsRuntime
  import opened StoreRows
  import Home
  import DailySummaryApi

  /** A JSON integer from an endpoint, after unary plus on the page. */
  function AsNumeric(n: int): Numeric {
    Num(n as real)
  }

  /** The daily endpoint's answer as the page receives it. */
  function ReadDailySummary(s: DailySummaryApi.DailySummary): Home.DailySummaryData {
    Home.DailySummaryData(AsNumeric(s.caloriesBurned), AsNumeric(s.caloriesConsumed), AsNumeric(s.remainingCalories))
  }

  /** The weekly endpoint's slots as the page receives them. */
  function ReadWeeklySlots(slots: seq<int>): seq<Numeric> {
    seq(|slots|, i requires 0 <= i < |slots| => AsNumeric(slots[i]))
  }

  /** A stored profile row as the page's profile answer. */
  function ProfileDataOf(row: ProfileRow): Home.ProfileData {
    Home.ProfileData(if row.dailyCalorieGoal.Some? then Some(row.dailyCalorieGoal.value as real) else None)
  }

  /** The page keeps the daily endpoint's three numbers, zeros included, and
      its percentage counts the burned calories on top of the intake. */
  method ShowDailySummary(page: Home.HomePage, s: DailySummaryApi.DailySummary, goal: real)
    requires goal != 0.0
    modifies page
    ensures page.caloriesBurned == s.caloriesBurned as real
    ensures page.caloriesConsumed == s.caloriesConsumed as real
    ensures page.remainingCalories == s.remainingCalories as real
    ensures page.calorieGoalPercentage * goal == (s.caloriesConsumed + s.caloriesBurned) as real * 100.0
  {
    page.OnDailySummary(Some(ReadDailySummary(s)), goal);
  }

  /** The weekly chart gets the endpoint's slots, in order. */
  lemma WeeklyChartShowsSlots(slots: seq<int>)
    ensures |Home.ToWeeklyData(ReadWeeklySlots(slots))| == |slots|
    ensures forall i :: 0 <= i < |slots| ==> Home.ToWeeklyData(ReadWeeklySlots(slots))[i] == slots[i] as real
  {
    var values := ReadWeeklySlots(slots);
    assert forall i :: 0 <= i < |slots| ==> values[i] == Num(slots[i] as real);
  }

  /** Page and endpoint use the same goal unless the stored goal is 0: a
      NULL goal is 2000 on both sides (`||` and `??`), any other number is
      kept by both. */
  lemma GoalsAgreeUnlessZero(row: ProfileRow)
    requires row.dailyCalorieGoal != Some(0)
    ensures Home.GoalFrom(ProfileDataOf(row)) == DailySummaryApi.GoalOf(Some(row)) as real
  {
  }

  /** A stored goal of 0 is falsy on the page, which divides by 2000, while
      the endpoint keeps it and subtracts from 0. */
  lemma ZeroGoalDisagrees(row: ProfileRow)
    requires row.dailyCalorieGoal == Some(0)
    ensures Home.GoalFrom(ProfileDataOf(row)) == 2000.0
    ensures DailySummaryApi.GoalOf(Some(row)) == 0
  {
  }

  /** When the user's profile stores a nonzero goal or none, the remaining
      calories the page shows plus the intake it shows make up the goal the
      page divides by. */
  lemma RemainingAgreesWithPageGoal(param: Option<int>, profiles: seq<ProfileRow>,
                                       exercises: seq<LogRow>, meals: seq<LogRow>,
                                       today: int, row: ProfileRow)
    requires DailySummaryApi.FetchProfile(profiles, DailySummaryApi.RequestUserId(param)) == Some(row)
    requires row.dailyCalorieGoal != Some(0)
    ensures var s := DailySummaryApi.DailySummaryOf(param, profiles, exercises, meals, today);
            s.remainingCalories as real + s.caloriesConsumed as real == Home.GoalFrom(ProfileDataOf(row))
  {
    GoalsAgreeUnlessZero(row);
  }
}
