/** The dashboard page: it reads the signed-in user, fetches the profile for
    the calorie goal, then asks for the daily and weekly summaries and keeps
    the figures the charts draw. Service calls are left out: each callback is
    a method that receives the answer, and the requests a callback would make
    are returned as values. */
module Home {
  import opened Optional
  import opened JsRuntime

  /** The goal used until a profile says otherwise. */
  const DefaultGoal: real := 2000.0

  /** The stored `user` object, reduced to its `id` (None: missing or null). */
  datatype StoredUser = StoredUser(id: Option<int>)

  /** The `profile` object of a getProfile answer, reduced to its
      `daily_calorie_goal` (None: missing or null). */
  datatype ProfileData = ProfileData(dailyCalorieGoal: Option<real>)

  /** A getDailySummary answer, each field after unary plus. */
  datatype DailySummaryData = DailySummaryData(caloriesBurned: Numeric, caloriesConsumed: Numeric,
                                               remainingCalories: Numeric)

  /** The service calls the profile callback makes. */
  datatype SummaryRequest =
    | DailySummaryRequest(userId: int, dailyCalorieGoal: real)
    | WeeklySummaryRequest(userId: int)

  /** The start of loadProfileAndData: the user must be stored and have a
      truthy id (0 is falsy); otherwise the page sends the user to sign in. */
  function SessionUserId(stored: Option<StoredUser>): (userId: Option<int>)
    ensures userId.Some? <==> stored.Some? && stored.value.id.Some? && stored.value.id.value != 0
    ensures userId.Some? ==> userId.value == stored.value.id.value && userId.value != 0
  {
    if stored.Some? && stored.value.id.Some? && stored.value.id.value != 0 then stored.value.id else None
  }

  /** `data.profile.daily_calorie_goal || 2000`: a missing, null or zero goal
      becomes 2000, so the goal is never 0. */
  function GoalFrom(profile: ProfileData): (goal: real)
    ensures goal != 0.0
    ensures profile.dailyCalorieGoal.Some? && profile.dailyCalorieGoal.value != 0.0 ==>
              goal == profile.dailyCalorieGoal.value
    ensures profile.dailyCalorieGoal.None? || profile.dailyCalorieGoal.value == 0.0 ==> goal == DefaultGoal
  {
    NumberOr(profile.dailyCalorieGoal, DefaultGoal)
  }

  /** The progress figure: intake plus calories burned, as a percentage of the
      goal. Burned calories count towards the goal, they are not subtracted. */
  function GoalPercentage(consumed: real, burned: real, goal: real): (p: real)
    requires goal != 0.0
    ensures p * goal == (consumed + burned) * 100.0
  {
    (consumed + burned) / goal * 100.0
  }

  /** The figure is 100 exactly when intake plus burned calories reach the goal. */
  lemma PercentageFullIffGoalReached(consumed: real, burned: real, goal: real)
    requires goal != 0.0
    ensures GoalPercentage(consumed, burned, goal) == 100.0 <==> consumed + burned == goal
  {
    var p := GoalPercentage(consumed, burned, goal);
    assert p * goal == (consumed + burned) * 100.0;
    if p == 100.0 {
      assert (consumed + burned) * 100.0 == goal * 100.0;
    }
  }

  /** With a positive goal, burning more raises the figure. */
  lemma BurningRaisesPercentage(consumed: real, burned1: real, burned2: real, goal: real)
    requires goal > 0.0 && burned1 < burned2
    ensures GoalPercentage(consumed, burned1, goal) < GoalPercentage(consumed, burned2, goal)
  {
    var p1 := GoalPercentage(consumed, burned1, goal);
    var p2 := GoalPercentage(consumed, burned2, goal);
    assert (p2 - p1) * goal == (burned2 - burned1) * 100.0;
  }

  /** `data.caloriesBurned.map(val => +val || 0)`. */
  function ToWeeklyData(values: seq<Numeric>): (weeklyData: seq<real>)
    ensures |weeklyData| == |values|
    ensures forall i :: 0 <= i < |values| && values[i].Num? ==> weeklyData[i] == values[i].value
    ensures forall i :: 0 <= i < |values| && values[i].NaN? ==> weeklyData[i] == 0.0
  {
    seq(|values|, i requires 0 <= i < |values| => NumberOrZero(values[i]))
  }

  class HomePage {
    var caloriesBurned: real
    var caloriesConsumed: real
    var remainingCalories: real
    var calorieGoalPercentage: real
    var weeklyData: seq<real>
    var dailyCalorieGoal: real

    /** The field initialisers. */
    constructor ()
      ensures caloriesBurned == 0.0 && caloriesConsumed == 0.0 && remainingCalories == 0.0
      ensures calorieGoalPercentage == 0.0 && weeklyData == [] && dailyCalorieGoal == DefaultGoal
    {
      caloriesBurned, caloriesConsumed, remainingCalories, calorieGoalPercentage := 0.0, 0.0, 0.0, 0.0;
      weeklyData := [];
      dailyCalorieGoal := DefaultGoal;
    }

    /** The success callback of getProfile (`profile` is None when the answer
        has no profile): with a profile the goal is set and both summaries
        are requested with it; without one nothing changes and nothing is
        requested. */
    method OnProfileData(userId: int, profile: Option<ProfileData>) returns (requests: seq<SummaryRequest>)
      modifies this
      ensures profile.Some? ==> dailyCalorieGoal == GoalFrom(profile.value)
      ensures profile.Some? ==>
        requests == [DailySummaryRequest(userId, dailyCalorieGoal), WeeklySummaryRequest(userId)]
      ensures profile.None? ==> requests == [] && dailyCalorieGoal == old(dailyCalorieGoal)
      ensures caloriesBurned == old(caloriesBurned) && caloriesConsumed == old(caloriesConsumed)
      ensures remainingCalories == old(remainingCalories) && calorieGoalPercentage == old(calorieGoalPercentage)
      ensures weeklyData == old(weeklyData)
    {
      if profile.Some? {
        dailyCalorieGoal := NumberOr(profile.value.dailyCalorieGoal, DefaultGoal);
        requests := [DailySummaryRequest(userId, dailyCalorieGoal), WeeklySummaryRequest(userId)];
      } else {
        requests := [];
      }
    }

    /** The success callback of getDailySummary for the goal it was requested
        with: each figure is the field's number, or 0; the percentage follows. */
    method OnDailySummary(data: Option<DailySummaryData>, goal: real)
      requires goal != 0.0
      modifies this
      ensures data.Some? ==>
        && caloriesBurned == NumberOrZero(data.value.caloriesBurned)
        && caloriesConsumed == NumberOrZero(data.value.caloriesConsumed)
        && remainingCalories == NumberOrZero(data.value.remainingCalories)
        && calorieGoalPercentage == GoalPercentage(caloriesConsumed, caloriesBurned, goal)
      ensures data.None? ==>
        && caloriesBurned == old(caloriesBurned) && caloriesConsumed == old(caloriesConsumed)
        && remainingCalories == old(remainingCalories) && calorieGoalPercentage == old(calorieGoalPercentage)
      ensures weeklyData == old(weeklyData) && dailyCalorieGoal == old(dailyCalorieGoal)
    {
      if data.Some? {
        caloriesBurned := NumberOrZero(data.value.caloriesBurned);
        caloriesConsumed := NumberOrZero(data.value.caloriesConsumed);
        remainingCalories := NumberOrZero(data.value.remainingCalories);
        calorieGoalPercentage := (caloriesConsumed + caloriesBurned) / goal * 100.0;
      }
    }

    /** The success callback of getWeeklySummary (`values` is None when the
        answer has no `caloriesBurned` list; an empty list is truthy and is
        taken). */
    method OnWeeklySummary(values: Option<seq<Numeric>>)
      modifies this
      ensures values.Some? ==> weeklyData == ToWeeklyData(values.value)
      ensures values.None? ==> weeklyData == old(weeklyData)
      ensures caloriesBurned == old(caloriesBurned) && caloriesConsumed == old(caloriesConsumed)
      ensures remainingCalories == old(remainingCalories) && calorieGoalPercentage == old(calorieGoalPercentage)
      ensures dailyCalorieGoal == old(dailyCalorieGoal)
    {
      if values.Some? {
        weeklyData := ToWeeklyData(values.value);
      }
    }
  }

  /** A profile, then its daily summary: the daily request carries a goal
      that is never 0, so the percentage is always defined. */
  method LoadDashboard(page: HomePage, userId: int, profile: ProfileData, data: DailySummaryData)
    returns (requests: seq<SummaryRequest>)
    modifies page
    ensures |requests| == 2 && requests[0].DailySummaryRequest? && requests[0].dailyCalorieGoal != 0.0
    ensures page.dailyCalorieGoal == GoalFrom(profile)
    ensures page.calorieGoalPercentage * page.dailyCalorieGoal
            == (page.caloriesConsumed + page.caloriesBurned) * 100.0
  {
    requests := page.OnProfileData(userId, Some(profile));
    page.OnDailySummary(Some(data), requests[0].dailyCalorieGoal);
  }
}
