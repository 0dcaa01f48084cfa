/** The daily-summary endpoint: for one user and today's date, the calories
    burned and consumed today and what remains of the calorie goal. The
    database is given as its table rows; "today" (CURDATE()) is a parameter. */
module DailySummaryApi {
  import opened Optional
  import opened StoreRows

  /** The goal used when the user has no stored goal. */
  const DefaultGoal: int := 2000

  /** The JSON object the endpoint answers with. */
  datatype DailySummary = DailySummary(caloriesBurned: int, caloriesConsumed: int, remainingCalories: int)

  /** `$_GET['user_id'] ?? 0`. */
  function RequestUserId(param: Option<int>): (userId: int)
    ensures param.None? ==> userId == 0
    ensures param.Some? ==> userId == param.value
  {
    param.GetOr(0)
  }

  /** `fetch()` on `SELECT daily_calorie_goal FROM user_profiles WHERE user_id = :user_id`:
      the first matching row, or none (`fetch` answers false). */
  function FetchProfile(profiles: seq<ProfileRow>, userId: int): (row: Option<ProfileRow>)
    ensures row.Some? ==> row.value in profiles && row.value.userId == userId
    ensures row.None? <==> forall p :: p in profiles ==> p.userId != userId
    ensures row.Some? ==> exists i :: 0 <= i < |profiles| && profiles[i] == row.value
                                      && forall j :: 0 <= j < i ==> profiles[j].userId != userId
  {
    if profiles == [] then None
    else if profiles[0].userId == userId then Some(profiles[0])
    else
      var row := FetchProfile(profiles[1..], userId);
      assert forall p :: p in profiles ==> p == profiles[0] || p in profiles[1..];
      if row.Some? then
        var i :| 0 <= i < |profiles[1..]| && profiles[1..][i] == row.value
                 && forall j :: 0 <= j < i ==> profiles[1..][j].userId != userId;
        assert profiles[i + 1] == row.value;
        assert forall j :: 1 <= j < i + 1 ==> profiles[j] == profiles[1..][j - 1];
        row
      else
        row
  }

  /** `$userProfile['daily_calorie_goal'] ?? 2000`: a missing row and a NULL
      column both give the default; any stored number, 0 included, is kept. */
  function GoalOf(profile: Option<ProfileRow>): (goal: int)
    ensures profile.Some? && profile.value.dailyCalorieGoal.Some? ==> goal == profile.value.dailyCalorieGoal.value
    ensures profile.None? || profile.value.dailyCalorieGoal.None? ==> goal == DefaultGoal
  {
    match profile
    case None => DefaultGoal
    case Some(row) => row.dailyCalorieGoal.GetOr(DefaultGoal)
  }

  /** The endpoint: two SUM queries restricted to the user's rows dated today,
      each defaulted with `?? 0`, and the remaining calories as the goal minus
      the calories consumed. */
  function DailySummaryOf(param: Option<int>, profiles: seq<ProfileRow>, exercises: seq<LogRow>,
                          meals: seq<LogRow>, today: int): (s: DailySummary)
    ensures s.caloriesBurned == Sum(CaloriesWhere(exercises, OwnedOn(RequestUserId(param), today)))
    ensures s.caloriesConsumed == Sum(CaloriesWhere(meals, OwnedOn(RequestUserId(param), today)))
    ensures s.remainingCalories == GoalOf(FetchProfile(profiles, RequestUserId(param))) - s.caloriesConsumed
  {
    var userId := RequestUserId(param);
    var goal := GoalOf(FetchProfile(profiles, userId));
    var burned := SqlSum(CaloriesWhere(exercises, OwnedOn(userId, today))).GetOr(0);
    var consumed := SqlSum(CaloriesWhere(meals, OwnedOn(userId, today))).GetOr(0);
    DailySummary(burned, consumed, goal - consumed)
  }

  /** With no exercise and no meal logged today the answer is {0, 0, goal}. */
  lemma {:induction false} EmptyDay(param: Option<int>, profiles: seq<ProfileRow>, exercises: seq<LogRow>,
                                    meals: seq<LogRow>, today: int)
    requires forall r :: r in exercises ==> r.userId != RequestUserId(param) || r.day != today
    requires forall r :: r in meals ==> r.userId != RequestUserId(param) || r.day != today
    ensures DailySummaryOf(param, profiles, exercises, meals, today)
            == DailySummary(0, 0, GoalOf(FetchProfile(profiles, RequestUserId(param))))
  {
    CaloriesWhereNone(exercises, OwnedOn(RequestUserId(param), today));
    CaloriesWhereNone(meals, OwnedOn(RequestUserId(param), today));
  }

  /** The remaining calories ignore the exercise table entirely. */
  lemma RemainingIgnoresExercise(param: Option<int>, profiles: seq<ProfileRow>, exercises1: seq<LogRow>,
                                 exercises2: seq<LogRow>, meals: seq<LogRow>, today: int)
    ensures DailySummaryOf(param, profiles, exercises1, meals, today).remainingCalories
         == DailySummaryOf(param, profiles, exercises2, meals, today).remainingCalories
  {
  }

  /** The remaining calories are not clamped: eating more than the goal gives
      a negative number. */
  lemma RemainingMayBeNegative(userId: int, today: int)
    ensures DailySummaryOf(Some(userId), [ProfileRow(userId, Some(1800))], [],
                           [LogRow(userId, today, 2500)], today).remainingCalories == -700
  {
    var meals := [LogRow(userId, today, 2500)];
    assert CaloriesWhere(meals, OwnedOn(userId, today)) == [2500] by {
      assert meals[1..] == [];
    }
  }

  /** A stored goal of 0 is kept by `??`, so everything eaten shows up as a deficit. */
  lemma {:induction false} StoredZeroGoalKept(param: Option<int>, profiles: seq<ProfileRow>,
                                              exercises: seq<LogRow>, meals: seq<LogRow>, today: int)
    requires FetchProfile(profiles, RequestUserId(param)) == Some(ProfileRow(RequestUserId(param), Some(0)))
    ensures DailySummaryOf(param, profiles, exercises, meals, today).remainingCalories
         == -DailySummaryOf(param, profiles, exercises, meals, today).caloriesConsumed
  {
  }

  /** Logging one more exercise for the user today adds its calories to the
      burned total and changes nothing else; any other row changes nothing. */
  lemma {:induction false} LogExercise(param: Option<int>, profiles: seq<ProfileRow>, exercises: seq<LogRow>,
                                       meals: seq<LogRow>, today: int, row: LogRow)
    ensures var before := DailySummaryOf(param, profiles, exercises, meals, today);
            var after := DailySummaryOf(param, profiles, exercises + [row], meals, today);
            && after.caloriesConsumed == before.caloriesConsumed
            && after.remainingCalories == before.remainingCalories
            && after.caloriesBurned == before.caloriesBurned
               + (if row.userId == RequestUserId(param) && row.day == today then row.calories else 0)
  {
    var keep := OwnedOn(RequestUserId(param), today);
    CaloriesWhereAppend(exercises, [row], keep);
    assert [row][1..] == [];
    SumAppend(CaloriesWhere(exercises, keep), CaloriesWhere([row], keep));
  }

  /** Logging one more meal for the user today lowers the remaining calories
      by exactly its calories. */
  lemma {:induction false} LogMeal(param: Option<int>, profiles: seq<ProfileRow>, exercises: seq<LogRow>,
                                   meals: seq<LogRow>, today: int, row: LogRow)
    requires row.userId == RequestUserId(param) && row.day == today
    ensures var before := DailySummaryOf(param, profiles, exercises, meals, today);
            var after := DailySummaryOf(param, profiles, exercises, meals + [row], today);
            && after.caloriesBurned == before.caloriesBurned
            && after.caloriesConsumed == before.caloriesConsumed + row.calories
            && after.remainingCalories == before.remainingCalories - row.calories
  {
    var keep := OwnedOn(RequestUserId(param), today);
    CaloriesWhereAppend(meals, [row], keep);
    assert [row][1..] == [];
    SumAppend(CaloriesWhere(meals, keep), CaloriesWhere([row], keep));
  }
}
