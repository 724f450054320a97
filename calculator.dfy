/**
 * The calculator page of the fitness app (app.py): the vocabulary mapper `maps`,
 * which turns the labels of the closed UI selectors into the nutrition API's tokens,
 * and the way those tokens are placed in the three query strings, including the
 * re-mapping of activity level and goal before the macronutrient request.
 * Heights, weights, ages and everything numeric are left out (floating point).
 */
module Calculator {
  import opened Optional

  // The four lookup tables of `maps`.

  const LevelMap: map<string, string> := map[
    "Sedentary" := "sedentary",
    "Lightly Active" := "lightly_active",
    "Moderately Active" := "moderately_active",
    "Very Active" := "very_active",
    "Extremely Active" := "extra_active"
  ]

  const GoalMap: map<string, string> := map[
    "Cut" := "weight_loss",
    "Maintain" := "maintenance",
    "Bulk" := "weight_gain"
  ]

  /** "Regular" is a key of the diet table whose value is `None`. */
  const DietMap: map<string, Option<string>> := map[
    "Regular" := None,
    "Vegetarian" := Some("vegetarian"),
    "Vegan" := Some("vegan"),
    "Gluten-Free" := Some("gluten-free"),
    "Pescatarian" := Some("pescatarian")
  ]

  const ClimateMap: map<string, string> := map[
    "Cold" := "cold",
    "Average" := "normal",
    "Hot" := "hot"
  ]

  // The options the page's selectors offer, in display order.

  const LevelOptions: seq<string> :=
    ["Sedentary", "Lightly Active", "Moderately Active", "Very Active", "Extremely Active"]
  const GoalOptions: seq<string> := ["Cut", "Maintain", "Bulk"]
  const DietOptions: seq<string> := ["Regular", "Vegetarian", "Vegan", "Gluten-Free", "Pescatarian"]
  const ClimateOptions: seq<string> := ["Cold", "Average", "Hot"]

  /** The tuple `maps` returns: one optional token per table. */
  datatype Tokens = Tokens(level: Option<string>, goal: Option<string>,
                           diet: Option<string>, climate: Option<string>)

  /** `dict.get`: the value under `key`, or absent. */
  function Lookup<V>(m: map<string, V>, key: string): (r: Option<V>)
    ensures r.Some? <==> key in m
    ensures r.Some? ==> r.value == m[key]
  {
    if key in m then Some(m[key]) else None
  }

  /** `maps`: four independent dictionary lookups; the diet lookup also yields
      absent for the key "Regular", whose stored value is `None`. */
  function Maps(levels: string, goals: string, diets: Option<string> := None,
                climates: string := "Average"): (t: Tokens)
    ensures t.level.Some? <==> levels in LevelOptions
    ensures t.goal.Some? <==> goals in GoalOptions
    ensures t.diet.Some? <==> diets.Some? && diets.value in DietOptions && diets.value != "Regular"
    ensures t.climate.Some? <==> climates in ClimateOptions
  {
    var diet := if diets.None? then None
                else match Lookup(DietMap, diets.value)
                  case None => None
                  case Some(d) => d;
    Tokens(Lookup(LevelMap, levels), Lookup(GoalMap, goals), diet, Lookup(ClimateMap, climates))
  }

  /** The token of every activity label, one by one. */
  lemma LevelTokens(goals: string)
    ensures Maps("Sedentary", goals).level == Some("sedentary")
    ensures Maps("Lightly Active", goals).level == Some("lightly_active")
    ensures Maps("Moderately Active", goals).level == Some("moderately_active")
    ensures Maps("Very Active", goals).level == Some("very_active")
    ensures Maps("Extremely Active", goals).level == Some("extra_active")
  {
  }

  /** The token of every goal label. */
  lemma GoalTokens(levels: string)
    ensures Maps(levels, "Cut").goal == Some("weight_loss")
    ensures Maps(levels, "Maintain").goal == Some("maintenance")
    ensures Maps(levels, "Bulk").goal == Some("weight_gain")
  {
  }

  /** "Regular" gives no diet token; the other four give lower-case tokens. */
  lemma DietTokens(levels: string, goals: string)
    ensures Maps(levels, goals, Some("Regular")).diet == None
    ensures Maps(levels, goals, Some("Vegetarian")).diet == Some("vegetarian")
    ensures Maps(levels, goals, Some("Vegan")).diet == Some("vegan")
    ensures Maps(levels, goals, Some("Gluten-Free")).diet == Some("gluten-free")
    ensures Maps(levels, goals, Some("Pescatarian")).diet == Some("pescatarian")
  {
  }

  /** The climate tokens, and the defaults: no diet and an "Average" climate. */
  lemma ClimateTokensAndDefaults(levels: string, goals: string, diets: Option<string>)
    ensures Maps(levels, goals, diets, "Cold").climate == Some("cold")
    ensures Maps(levels, goals, diets, "Average").climate == Some("normal")
    ensures Maps(levels, goals, diets, "Hot").climate == Some("hot")
    ensures Maps(levels, goals) == Maps(levels, goals, None, "Average")
    ensures Maps(levels, goals).diet == None && Maps(levels, goals).climate == Some("normal")
  {
  }

  // Re-mapping before the macronutrient request.


  /** "lightly_active" is sent as "moderately_active", "extra_active" as "very_active";
      any other token, and an absent one, is sent unchanged. */
  function AdjustLevel(level: Option<string>): (r: Option<string>)
    ensures r != Some("lightly_active") && r != Some("extra_active")
    ensures level != Some("lightly_active") && level != Some("extra_active") ==> r == level
  {
    if level == Some("lightly_active") then Some("moderately_active")
    else if level == Some("extra_active") then Some("very_active")
    else level
  }

  /** "weight_gain" is sent as "muscle_gain"; anything else unchanged. */
  function AdjustGoal(goal: Option<string>): (r: Option<string>)
    ensures r != Some("weight_gain")
    ensures goal != Some("weight_gain") ==> r == goal
  {
    if goal == Some("weight_gain") then Some("muscle_gain") else goal
  }

  /** Every activity label the selector offers reaches the macronutrient endpoint
      as one of its three accepted tokens, and the two re-mapped labels as stated. */
  lemma {:induction false} AdjustedLevelsOfOptions(goals: string)
    ensures forall l | l in LevelOptions ::
              AdjustLevel(Maps(l, goals).level) in {Some("sedentary"), Some("moderately_active"), Some("very_active")}
    ensures AdjustLevel(Maps("Lightly Active", goals).level) == Some("moderately_active")
    ensures AdjustLevel(Maps("Extremely Active", goals).level) == Some("very_active")
    ensures AdjustGoal(Maps("", "Bulk").goal) == Some("muscle_gain")
  {
    LevelTokens(goals);
    GoalTokens("");
  }

  // The query strings.

  /** Query of the daily-calorie endpoint; "mifflin" is fixed. */
  datatype CalorieQuery = CalorieQuery(activityLevel: Option<string>, goal: Option<string>, equation: string)
  /** Query of the water-intake endpoint; the unit "liters" is fixed. */
  datatype WaterQuery = WaterQuery(activityLevel: Option<string>, climate: Option<string>, unit: string)
  /** Query of the macronutrient endpoint. */
  datatype MacroQuery = MacroQuery(activityLevel: Option<string>, bodyCompositionGoal: Option<string>,
                                   dietaryPreferences: Option<string>)

  /** The requests one Submit issues: the calorie request always, the water and
      macronutrient requests only in Advanced mode. */
  datatype Requests = Requests(calorie: CalorieQuery, water: Option<WaterQuery>, macro: Option<MacroQuery>)

  /** The diet and climate labels `maps` receives: the selectors' picks in
      Advanced mode, otherwise no diet and an "Average" climate. */
  function Preferences(user: string, dietPick: string, climatePick: string): (p: (Option<string>, string))
    ensures user == "Advanced" ==> p == (Some(dietPick), climatePick)
    ensures user != "Advanced" ==> p == (None, "Average")
  {
    if user == "Advanced" then (Some(dietPick), climatePick) else (None, "Average")
  }

  /** The token part of every request a Submit sends, from the page's selections. */
  function SubmitRequests(user: string, level: string, goal: string, dietPick: string,
                          climatePick: string): (r: Requests)
    ensures r.water.Some? <==> user == "Advanced"
    ensures r.macro.Some? <==> user == "Advanced"
    ensures r.calorie.activityLevel.Some? <==> level in LevelOptions
    ensures r.calorie.goal.Some? <==> goal in GoalOptions
    // the water request is given the unadjusted activity token
    ensures r.water.Some? ==> r.water.value.activityLevel == r.calorie.activityLevel
    // the macronutrient request is given the adjusted tokens
    ensures r.macro.Some? ==> r.macro.value.activityLevel == AdjustLevel(r.calorie.activityLevel)
    ensures r.macro.Some? ==> r.macro.value.bodyCompositionGoal == AdjustGoal(r.calorie.goal)
    // the calorie request is given the level and goal tokens of `maps` in either mode
    ensures r.calorie == CalorieQuery(Maps(level, goal).level, Maps(level, goal).goal, "mifflin")
    // the diet and climate picks reach the requests as their tokens
    ensures r.macro.Some? ==> r.macro.value.dietaryPreferences == Maps(level, goal, Some(dietPick), climatePick).diet
    ensures r.water.Some? ==> r.water.value.climate == Lookup(ClimateMap, climatePick)
  {
    var prefs := Preferences(user, dietPick, climatePick);
    var t := Maps(level, goal, prefs.0, prefs.1);
    var calorie := CalorieQuery(t.level, t.goal, "mifflin");
    if user == "Advanced" then
      Requests(calorie,
               Some(WaterQuery(t.level, t.climate, "liters")),
               Some(MacroQuery(AdjustLevel(t.level), AdjustGoal(t.goal), t.diet)))
    else
      Requests(calorie, None, None)
  }

  /** In Advanced mode every diet option but "Regular" is sent as a dietary
      preference, "Regular" as none, and every climate option reaches the water
      request as a token. */
  lemma AdvancedPreferences(level: string, goal: string, dietPick: string, climatePick: string)
    requires dietPick in DietOptions && climatePick in ClimateOptions
    ensures var r := SubmitRequests("Advanced", level, goal, dietPick, climatePick);
            r.macro.value.dietaryPreferences.Some? <==> dietPick != "Regular"
    ensures SubmitRequests("Advanced", level, goal, dietPick, climatePick).water.value.climate.Some?
  {
  }

}
