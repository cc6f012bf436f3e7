/**
 * The odds side of the analyzer: the hard-coded bookmaker tables, the lookup
 * of a pattern's odds (primary table, then fallback table, then 1.0), the
 * pairwise correlation classifier with its bands, and the combined odds of a
 * combination of patterns. Odds are Python floats; here they are exact reals,
 * so only signs, orders and exact constants are claimed.
 */
module OddsCalculation {
  import opened Wrappers
  import opened Models
  import opened EventPatterns

  // ---------------------------------------------------------------------
  // The tables (dict literals without duplicate keys)
  // ---------------------------------------------------------------------

  /** `_create_primary_odds_dict`: market key to decimal odds. */
  const PrimaryOdds: map<string, real> := map[
    "1X2_Home" := 3.25,
    "1X2_Draw" := 3.40,
    "1X2_Away" := 2.23,
    "Over/Under_Over 0.5" := 1.04,
    "Over/Under_Under 0.5" := 10.50,
    "Over/Under_Over 1.5" := 1.26,
    "Over/Under_Under 1.5" := 3.65,
    "Over/Under_Over 2.5" := 1.85,
    "Over/Under_Under 2.5" := 1.92,
    "Over/Under_Over 3.5" := 3.05,
    "Over/Under_Under 3.5" := 1.35,
    "Over/Under_Over 4.5" := 5.60,
    "Over/Under_Under 4.5" := 1.11,
    "Over/Under_Over 5.5" := 10.25,
    "Over/Under_Under 5.5" := 1.01,
    "Over/Under_Over 6.5" := 18.00,
    "Over/Under_Under 6.5" := 1.00,
    "GG/NG_Yes" := 1.67,
    "GG/NG_No" := 2.16,
    "Double Chance_Home or Draw" := 1.65,
    "Double Chance_Home or Away" := 1.31,
    "Double Chance_Draw or Away" := 1.34,
    "Draw No Bet_Home" := 2.31,
    "Draw No Bet_Away" := 1.60,
    "Odd/Even_Odd" := 1.95,
    "Odd/Even_Even" := 1.83,
    "HalfTimeFullTime_Home/Home" := 5.30,
    "HalfTimeFullTime_Home/Draw" := 14.50,
    "HalfTimeFullTime_Home/Away" := 27.00,
    "HalfTimeFullTime_Draw/Home" := 7.70,
    "HalfTimeFullTime_Draw/Draw" := 5.05,
    "HalfTimeFullTime_Draw/Away" := 5.70,
    "HalfTimeFullTime_Away/Home" := 33.00,
    "HalfTimeFullTime_Away/Draw" := 14.75,
    "HalfTimeFullTime_Away/Away" := 3.50,
    "1stHalf_1X2_Home" := 3.65,
    "1stHalf_1X2_Draw" := 2.12,
    "1stHalf_1X2_Away" := 2.75,
    "1stHalf_DoubleChance_Home or Draw" := 1.34,
    "1stHalf_DoubleChance_Home or Away" := 1.57,
    "1stHalf_DoubleChance_Draw or Away" := 1.19,
    "1stHalf_Over/Under_Over 0.5" := 1.33,
    "1stHalf_Over/Under_Under 0.5" := 2.90,
    "1stHalf_Over/Under_Over 1.5" := 2.65,
    "1stHalf_Over/Under_Under 1.5" := 1.40,
    "1stHalf_Over/Under_Over 2.5" := 6.70,
    "1stHalf_Over/Under_Under 2.5" := 1.06,
    "1stHalf_GG/NG_Yes" := 4.30,
    "1stHalf_GG/NG_No" := 1.18,
    "2ndHalf_1X2_Home" := 3.40,
    "2ndHalf_1X2_Draw" := 2.41,
    "2ndHalf_1X2_Away" := 2.51,
    "2ndHalf_DoubleChance_Home or Draw" := 1.41,
    "2ndHalf_DoubleChance_Home or Away" := 1.44,
    "2ndHalf_DoubleChance_Draw or Away" := 1.23,
    "2ndHalf_Over/Under_Over 0.5" := 1.21,
    "2ndHalf_Over/Under_Under 0.5" := 3.90,
    "2ndHalf_Over/Under_Over 1.5" := 2.02,
    "2ndHalf_Over/Under_Under 1.5" := 1.68,
    "2ndHalf_Over/Under_Over 2.5" := 4.30,
    "2ndHalf_Over/Under_Under 2.5" := 1.16,
    "2ndHalf_GG/NG_Yes" := 3.10,
    "2ndHalf_GG/NG_No" := 1.32,
    "MultiGoal_1-2" := 2.16,
    "MultiGoal_1-3" := 1.44,
    "MultiGoal_1-4" := 1.16,
    "MultiGoal_1-5" := 1.05,
    "MultiGoal_2-3" := 1.99,
    "MultiGoal_2-4" := 1.49,
    "MultiGoal_2-5" := 1.32,
    "MultiGoal_3-4" := 2.48,
    "MultiGoal_3-5" := 2.02,
    "MultiGoal_3-6" := 1.86,
    "MultiGoal_4-5" := 3.80,
    "MultiGoal_4-6" := 3.25,
    "MultiGoal_5-6" := 7.00,
    "TeamGoals_Home_Over0.5" := 1.32,
    "TeamGoals_Home_Under0.5" := 3.10,
    "TeamGoals_Home_Over1.5" := 2.66,
    "TeamGoals_Home_Under1.5" := 1.42,
    "TeamGoals_Home_Over2.5" := 6.90,
    "TeamGoals_Home_Under2.5" := 1.07,
    "TeamGoals_Away_Over0.5" := 1.19,
    "TeamGoals_Away_Under0.5" := 4.10,
    "TeamGoals_Away_Over1.5" := 2.07,
    "TeamGoals_Away_Under1.5" := 1.68,
    "TeamGoals_Away_Over2.5" := 4.60,
    "TeamGoals_Away_Under2.5" := 1.16,
    "HomeNoBet_Draw" := 2.36,
    "HomeNoBet_Away" := 1.55,
    "AwayNoBet_Home" := 1.83,
    "AwayNoBet_Draw" := 1.91,
    "HomeWinToNil_Yes" := 5.80,
    "HomeWinToNil_No" := 1.09,
    "AwayWinToNil_Yes" := 4.00,
    "AwayWinToNil_No" := 1.19,
    "HomeWinEitherHalf_Yes" := 2.07,
    "HomeWinEitherHalf_No" := 1.65,
    "AwayWinEitherHalf_Yes" := 1.62,
    "AwayWinEitherHalf_No" := 2.12,
    "HomeScoreBothHalves_Yes" := 4.35,
    "HomeScoreBothHalves_No" := 1.18,
    "AwayScoreBothHalves_Yes" := 3.25,
    "AwayScoreBothHalves_No" := 1.29,
    "HighestScoringHalf_Home_1st" := 3.55,
    "HighestScoringHalf_Home_Tie" := 2.16,
    "HighestScoringHalf_Home_2nd" := 2.63,
    "HighestScoringHalf_Away_1st" := 3.30,
    "HighestScoringHalf_Away_Tie" := 2.46,
    "HighestScoringHalf_Away_2nd" := 2.41,
    "Corners_1X2_Home" := 2.04,
    "Corners_1X2_Draw" := 7.40,
    "Corners_1X2_Away" := 2.02,
    "Corners_Over/Under_7.5_Over" := 1.21,
    "Corners_Over/Under_7.5_Under" := 3.65,
    "Corners_Over/Under_8.5_Over" := 1.44,
    "Corners_Over/Under_8.5_Under" := 2.51,
    "Corners_Over/Under_9.5_Over" := 1.82,
    "Corners_Over/Under_9.5_Under" := 1.90,
    "Corners_Over/Under_10.5_Over" := 2.35,
    "Corners_Over/Under_10.5_Under" := 1.50,
    "Corners_Over/Under_11.5_Over" := 3.20,
    "Corners_Over/Under_11.5_Under" := 1.26,
    "FirstCorner_Home" := 1.79,
    "FirstCorner_Away" := 1.82,
    "CornerOddEven_Odd" := 1.85,
    "CornerOddEven_Even" := 1.85,
    "LastCorner_Home" := 1.79,
    "LastCorner_Away" := 1.82,
    "HomeCorners_Over3.5" := 1.22,
    "HomeCorners_Under3.5" := 3.10,
    "HomeCorners_Over4.5" := 1.62,
    "HomeCorners_Under4.5" := 1.94,
    "HomeCorners_Over5.5" := 2.34,
    "HomeCorners_Under5.5" := 1.40,
    "AwayCorners_Over3.5" := 1.24,
    "AwayCorners_Under3.5" := 2.96,
    "AwayCorners_Over4.5" := 1.67,
    "AwayCorners_Under4.5" := 1.88,
    "AwayCorners_Over5.5" := 2.44,
    "AwayCorners_Under5.5" := 1.36,
    "Bookings_Over2.5" := 1.06,
    "Bookings_Under2.5" := 5.60,
    "Bookings_Over3.5" := 1.31,
    "Bookings_Under3.5" := 2.93,
    "Bookings_Over4.5" := 1.79,
    "Bookings_Under4.5" := 1.88,
    "Bookings_Over5.5" := 2.64,
    "Bookings_Under5.5" := 1.38,
    "Bookings_Over6.5" := 4.30,
    "Bookings_Under6.5" := 1.13,
    "1X2Cards_Home" := 2.71,
    "1X2Cards_Draw" := 4.95,
    "1X2Cards_Away" := 1.89,
    "OddEvenCards_Odd" := 1.87,
    "OddEvenCards_Even" := 1.87,
    "RedCard_Yes" := 4.10,
    "RedCard_No" := 1.17,
    "HomeCards_Over0.5" := 1.04,
    "HomeCards_Under0.5" := 7.10,
    "HomeCards_Over1.5" := 1.46,
    "HomeCards_Under1.5" := 2.47,
    "HomeCards_Over2.5" := 2.46,
    "HomeCards_Under2.5" := 1.43,
    "AwayCards_Over1.5" := 1.25,
    "AwayCards_Under1.5" := 3.30,
    "AwayCards_Over2.5" := 1.91,
    "AwayCards_Under2.5" := 1.76,
    "AwayCards_Over3.5" := 3.35,
    "AwayCards_Under3.5" := 1.24,
    "HighestScoringHalf_Overall_1st" := 3.00,
    "HighestScoringHalf_Overall_Tie" := 3.55,
    "HighestScoringHalf_Overall_2nd" := 2.06,
    "GoalNoGoal_HTFT_GG/GG" := 11.75,
    "GoalNoGoal_HTFT_GG/NG" := 5.60,
    "GoalNoGoal_HTFT_NG/GG" := 3.75,
    "GoalNoGoal_HTFT_NG/NG" := 1.61,
    "MultiGoalHome_1-2" := 1.55,
    "MultiGoalHome_1-3" := 1.35,
    "MultiGoalHome_2-3" := 2.90,
    "MultiGoalAway_1-2" := 1.54,
    "MultiGoalAway_1-3" := 1.27,
    "MultiGoalAway_2-3" := 2.37
  ]

  /** The `market_mapping` of `map_pattern_to_odds_market`: pattern name to market key. */
  const MarketMapping: map<string, string> := map[
    "home_win" := "1X2_Home",
    "draw" := "1X2_Draw",
    "away_win" := "1X2_Away",
    "over_0_5_goals" := "Over/Under_Over 0.5",
    "under_0_5_goals" := "Over/Under_Under 0.5",
    "over_1_5_goals" := "Over/Under_Over 1.5",
    "under_1_5_goals" := "Over/Under_Under 1.5",
    "over_2_5_goals" := "Over/Under_Over 2.5",
    "under_2_5_goals" := "Over/Under_Under 2.5",
    "over_3_5_goals" := "Over/Under_Over 3.5",
    "under_3_5_goals" := "Over/Under_Under 3.5",
    "over_4_5_goals" := "Over/Under_Over 4.5",
    "under_4_5_goals" := "Over/Under_Under 4.5",
    "over_5_5_goals" := "Over/Under_Over 5.5",
    "under_5_5_goals" := "Over/Under_Under 5.5",
    "over_6_5_goals" := "Over/Under_Over 6.5",
    "under_6_5_goals" := "Over/Under_Under 6.5",
    "btts_yes" := "GG/NG_Yes",
    "btts_no" := "GG/NG_No",
    "home_or_draw" := "Double Chance_Home or Draw",
    "home_or_away" := "Double Chance_Home or Away",
    "draw_or_away" := "Double Chance_Draw or Away",
    "home_win_dnb" := "Draw No Bet_Home",
    "away_win_dnb" := "Draw No Bet_Away",
    "odd_total_goals" := "Odd/Even_Odd",
    "even_total_goals" := "Odd/Even_Even",
    "htft_home_home" := "HalfTimeFullTime_Home/Home",
    "htft_home_draw" := "HalfTimeFullTime_Home/Draw",
    "htft_home_away" := "HalfTimeFullTime_Home/Away",
    "htft_draw_home" := "HalfTimeFullTime_Draw/Home",
    "htft_draw_draw" := "HalfTimeFullTime_Draw/Draw",
    "htft_draw_away" := "HalfTimeFullTime_Draw/Away",
    "htft_away_home" := "HalfTimeFullTime_Away/Home",
    "htft_away_draw" := "HalfTimeFullTime_Away/Draw",
    "htft_away_away" := "HalfTimeFullTime_Away/Away",
    "first_half_home_win" := "1stHalf_1X2_Home",
    "first_half_draw" := "1stHalf_1X2_Draw",
    "first_half_away_win" := "1stHalf_1X2_Away",
    "first_half_over_0_5" := "1stHalf_Over/Under_Over 0.5",
    "first_half_under_0_5" := "1stHalf_Over/Under_Under 0.5",
    "first_half_over_1_5" := "1stHalf_Over/Under_Over 1.5",
    "first_half_under_1_5" := "1stHalf_Over/Under_Under 1.5",
    "first_half_over_2_5" := "1stHalf_Over/Under_Over 2.5",
    "first_half_under_2_5" := "1stHalf_Over/Under_Under 2.5",
    "first_half_btts_yes" := "1stHalf_GG/NG_Yes",
    "first_half_btts_no" := "1stHalf_GG/NG_No",
    "first_half_home_or_draw" := "1stHalf_DoubleChance_Home or Draw",
    "first_half_home_or_away" := "1stHalf_DoubleChance_Home or Away",
    "first_half_draw_or_away" := "1stHalf_DoubleChance_Draw or Away",
    "second_half_home_win" := "2ndHalf_1X2_Home",
    "second_half_draw" := "2ndHalf_1X2_Draw",
    "second_half_away_win" := "2ndHalf_1X2_Away",
    "second_half_over_0_5" := "2ndHalf_Over/Under_Over 0.5",
    "second_half_under_0_5" := "2ndHalf_Over/Under_Under 0.5",
    "second_half_over_1_5" := "2ndHalf_Over/Under_Over 1.5",
    "second_half_under_1_5" := "2ndHalf_Over/Under_Under 1.5",
    "second_half_over_2_5" := "2ndHalf_Over/Under_Over 2.5",
    "second_half_under_2_5" := "2ndHalf_Over/Under_Under 2.5",
    "second_half_btts_yes" := "2ndHalf_GG/NG_Yes",
    "second_half_btts_no" := "2ndHalf_GG/NG_No",
    "second_half_home_or_draw" := "2ndHalf_DoubleChance_Home or Draw",
    "second_half_home_or_away" := "2ndHalf_DoubleChance_Home or Away",
    "second_half_draw_or_away" := "2ndHalf_DoubleChance_Draw or Away",
    "home_over_0_5" := "TeamGoals_Home_Over0.5",
    "home_under_0_5" := "TeamGoals_Home_Under0.5",
    "home_over_1_5" := "TeamGoals_Home_Over1.5",
    "home_under_1_5" := "TeamGoals_Home_Under1.5",
    "home_over_2_5" := "TeamGoals_Home_Over2.5",
    "home_under_2_5" := "TeamGoals_Home_Under2.5",
    "away_over_0_5" := "TeamGoals_Away_Over0.5",
    "away_under_0_5" := "TeamGoals_Away_Under0.5",
    "away_over_1_5" := "TeamGoals_Away_Over1.5",
    "away_under_1_5" := "TeamGoals_Away_Under1.5",
    "away_over_2_5" := "TeamGoals_Away_Over2.5",
    "away_under_2_5" := "TeamGoals_Away_Under2.5",
    "home_win_to_nil" := "HomeWinToNil_Yes",
    "home_not_win_to_nil" := "HomeWinToNil_No",
    "away_win_to_nil" := "AwayWinToNil_Yes",
    "away_not_win_to_nil" := "AwayWinToNil_No",
    "home_win_either_half" := "HomeWinEitherHalf_Yes",
    "home_win_either_half_no" := "HomeWinEitherHalf_No",
    "away_win_either_half" := "AwayWinEitherHalf_Yes",
    "away_win_either_half_no" := "AwayWinEitherHalf_No",
    "home_score_both_halves" := "HomeScoreBothHalves_Yes",
    "home_score_both_halves_no" := "HomeScoreBothHalves_No",
    "away_score_both_halves" := "AwayScoreBothHalves_Yes",
    "away_score_both_halves_no" := "AwayScoreBothHalves_No",
    "home_no_bet_draw" := "HomeNoBet_Draw",
    "home_no_bet_away" := "HomeNoBet_Away",
    "away_no_bet_home" := "AwayNoBet_Home",
    "away_no_bet_draw" := "AwayNoBet_Draw",
    "highest_scoring_half_home_1st" := "HighestScoringHalf_Home_1st",
    "highest_scoring_half_home_tie" := "HighestScoringHalf_Home_Tie",
    "highest_scoring_half_home_2nd" := "HighestScoringHalf_Home_2nd",
    "highest_scoring_half_away_1st" := "HighestScoringHalf_Away_1st",
    "highest_scoring_half_away_tie" := "HighestScoringHalf_Away_Tie",
    "highest_scoring_half_away_2nd" := "HighestScoringHalf_Away_2nd",
    "highest_scoring_half_overall_1st" := "HighestScoringHalf_Overall_1st",
    "highest_scoring_half_overall_tie" := "HighestScoringHalf_Overall_Tie",
    "highest_scoring_half_overall_2nd" := "HighestScoringHalf_Overall_2nd",
    "multi_goal_1_2" := "MultiGoal_1-2",
    "multi_goal_1_3" := "MultiGoal_1-3",
    "multi_goal_1_4" := "MultiGoal_1-4",
    "multi_goal_1_5" := "MultiGoal_1-5",
    "multi_goal_2_3" := "MultiGoal_2-3",
    "multi_goal_2_4" := "MultiGoal_2-4",
    "multi_goal_2_5" := "MultiGoal_2-5",
    "multi_goal_3_4" := "MultiGoal_3-4",
    "multi_goal_3_5" := "MultiGoal_3-5",
    "multi_goal_3_6" := "MultiGoal_3-6",
    "multi_goal_4_5" := "MultiGoal_4-5",
    "multi_goal_4_6" := "MultiGoal_4-6",
    "multi_goal_5_6" := "MultiGoal_5-6",
    "multi_goal_home_1_2" := "MultiGoalHome_1-2",
    "multi_goal_home_1_3" := "MultiGoalHome_1-3",
    "multi_goal_home_2_3" := "MultiGoalHome_2-3",
    "multi_goal_away_1_2" := "MultiGoalAway_1-2",
    "multi_goal_away_1_3" := "MultiGoalAway_1-3",
    "multi_goal_away_2_3" := "MultiGoalAway_2-3",
    "corners_1x2_home" := "Corners_1X2_Home",
    "corners_1x2_draw" := "Corners_1X2_Draw",
    "corners_1x2_away" := "Corners_1X2_Away",
    "corners_over_7_5" := "Corners_Over/Under_7.5_Over",
    "corners_under_7_5" := "Corners_Over/Under_7.5_Under",
    "corners_over_8_5" := "Corners_Over/Under_8.5_Over",
    "corners_under_8_5" := "Corners_Over/Under_8.5_Under",
    "corners_over_9_5" := "Corners_Over/Under_9.5_Over",
    "corners_under_9_5" := "Corners_Over/Under_9.5_Under",
    "corners_over_10_5" := "Corners_Over/Under_10.5_Over",
    "corners_under_10_5" := "Corners_Over/Under_10.5_Under",
    "corners_over_11_5" := "Corners_Over/Under_11.5_Over",
    "corners_under_11_5" := "Corners_Over/Under_11.5_Under",
    "first_corner_home" := "FirstCorner_Home",
    "first_corner_away" := "FirstCorner_Away",
    "last_corner_home" := "LastCorner_Home",
    "last_corner_away" := "LastCorner_Away",
    "corner_odd_even_odd" := "CornerOddEven_Odd",
    "corner_odd_even_even" := "CornerOddEven_Even",
    "home_corners_over_3_5" := "HomeCorners_Over3.5",
    "home_corners_under_3_5" := "HomeCorners_Under3.5",
    "home_corners_over_4_5" := "HomeCorners_Over4.5",
    "home_corners_under_4_5" := "HomeCorners_Under4.5",
    "home_corners_over_5_5" := "HomeCorners_Over5.5",
    "home_corners_under_5_5" := "HomeCorners_Under5.5",
    "away_corners_over_3_5" := "AwayCorners_Over3.5",
    "away_corners_under_3_5" := "AwayCorners_Under3.5",
    "away_corners_over_4_5" := "AwayCorners_Over4.5",
    "away_corners_under_4_5" := "AwayCorners_Under4.5",
    "away_corners_over_5_5" := "AwayCorners_Over5.5",
    "away_corners_under_5_5" := "AwayCorners_Under5.5",
    "over_2_5_cards" := "Bookings_Over2.5",
    "under_2_5_cards" := "Bookings_Under2.5",
    "over_3_5_cards" := "Bookings_Over3.5",
    "under_3_5_cards" := "Bookings_Under3.5",
    "over_4_5_cards" := "Bookings_Over4.5",
    "under_4_5_cards" := "Bookings_Under4.5",
    "over_5_5_cards" := "Bookings_Over5.5",
    "under_5_5_cards" := "Bookings_Under5.5",
    "over_6_5_cards" := "Bookings_Over6.5",
    "under_6_5_cards" := "Bookings_Under6.5",
    "cards_1x2_home" := "1X2Cards_Home",
    "cards_1x2_draw" := "1X2Cards_Draw",
    "cards_1x2_away" := "1X2Cards_Away",
    "odd_even_cards_odd" := "OddEvenCards_Odd",
    "odd_even_cards_even" := "OddEvenCards_Even",
    "red_card_yes" := "RedCard_Yes",
    "red_card_no" := "RedCard_No",
    "home_cards_over_0_5" := "HomeCards_Over0.5",
    "home_cards_under_0_5" := "HomeCards_Under0.5",
    "home_cards_over_1_5" := "HomeCards_Over1.5",
    "home_cards_under_1_5" := "HomeCards_Under1.5",
    "home_cards_over_2_5" := "HomeCards_Over2.5",
    "home_cards_under_2_5" := "HomeCards_Under2.5",
    "away_cards_over_1_5" := "AwayCards_Over1.5",
    "away_cards_under_1_5" := "AwayCards_Under1.5",
    "away_cards_over_2_5" := "AwayCards_Over2.5",
    "away_cards_under_2_5" := "AwayCards_Under2.5",
    "away_cards_over_3_5" := "AwayCards_Over3.5",
    "away_cards_under_3_5" := "AwayCards_Under3.5"
  ]

  /** `_create_fallback_odds_dict`: the second source of odds. */
  const FallbackOdds: map<string, real> := map[
    "1x2_Home" := 1.90,
    "1x2_Draw" := 4.10,
    "1x2_Away" := 2.75,
    "Over/Under_Over 3.5" := 1.70,
    "Over/Under_Under 3.5" := 1.95,
    "Double Chance_Home or Draw" := 1.30,
    "Double Chance_Home or Away" := 1.12,
    "Double Chance_Draw or Away" := 1.65,
    "GG/NG_Yes" := 1.52,
    "GG/NG_No" := 2.30,
    "Draw No Bet_Home" := 1.70,
    "Draw No Bet_Away" := 2.00,
    "Correct Score_0:0" := 29.00,
    "Correct Score_1:0" := 16.00,
    "Correct Score_0:1" := 19.50,
    "Half Time/Full Time_Home/Home" := 3.85,
    "Half Time/Full Time_Draw/Draw" := 5.40,
    "Half Time/Full Time_Away/Away" := 4.55,
    "1st Half - 1X2_Home" := 2.45,
    "1st Half - 1X2_Draw" := 2.45,
    "1st Half - 1X2_Away" := 3.20,
    "1st Half - Over/Under_Over 0.5" := 1.45,
    "1st Half - Over/Under_Under 0.5" := 2.50,
    "1st Half - GG/NG_Yes" := 4.55,
    "1st Half - GG/NG_No" := 1.15,
    "2nd Half - 1X2_Home" := 2.45,
    "2nd Half - 1X2_Draw" := 3.00,
    "2nd Half - 1X2_Away" := 2.80,
    "2nd Half - GG/NG_Yes" := 2.25,
    "2nd Half - GG/NG_No" := 1.55,
    "Home Team Goals_0" := 4.25,
    "Home Team Goals_1" := 2.75,
    "Home Team Goals_2" := 3.35,
    "Home Team Goals_3+" := 3.95,
    "Away Team Goals_0" := 3.70,
    "Away Team Goals_1" := 2.60,
    "Away Team Goals_2" := 3.50,
    "Away Team Goals_3+" := 4.70,
    "Home Team Clean Sheet_Yes" := 3.55,
    "Home Team Clean Sheet_No" := 1.22,
    "Away Team Clean Sheet_Yes" := 4.00,
    "Away Team Clean Sheet_No" := 1.20,
    "Exact Goals_0" := 16.50,
    "Exact Goals_1" := 5.90,
    "Exact Goals_2" := 3.85,
    "Exact Goals_3" := 3.80,
    "Exact Goals_4" := 4.80,
    "Exact Goals_5+" := 4.20,
    "Odd/Even_Odd" := 1.85,
    "Odd/Even_Even" := 1.85
  ]

  // ---------------------------------------------------------------------
  // Pairwise classifiers
  // ---------------------------------------------------------------------

  /** The pairs `_are_patterns_logically_dependent` knows. */
  const DependentPairs: seq<(string, string)> := [
    ("over_0_5_goals", "over_1_5_goals"),
    ("over_1_5_goals", "over_2_5_goals"),
    ("over_0_5_goals", "over_2_5_goals"),
    ("home_over_0_5", "home_over_1_5"),
    ("home_over_1_5", "home_over_2_5"),
    ("btts_yes", "home_over_0_5"),
    ("btts_yes", "away_over_0_5"),
    ("clean_sheet_home", "away_goals_0"),
    ("clean_sheet_away", "home_goals_0")
  ]

  /** `_are_patterns_logically_dependent`: the name pair is listed, in either order. */
  predicate LogicallyDependent(p1: EventCondition, p2: EventCondition)
  {
    (p1.name, p2.name) in DependentPairs || (p2.name, p1.name) in DependentPairs
  }

  /** `_are_patterns_related`: three ordered pairs of event types. */
  predicate Related(p1: EventCondition, p2: EventCondition)
  {
    if p1.eventType == Goals && p2.eventType == TeamStatsKind then true
    else if p1.eventType == Goals && p2.eventType == HalfStatsKind then true
    else if p1.eventType == Cards && p2.eventType == Corners then true
    else false
  }

  /** Dependence does not care about the order of the two patterns. */
  lemma DependentSymmetric(p1: EventCondition, p2: EventCondition)
    ensures LogicallyDependent(p1, p2) <==> LogicallyDependent(p2, p1)
  {
  }

  /** Relatedness is one-directional: exactly the three listed ordered pairs, never both ways. */
  lemma RelatedOrdered(p1: EventCondition, p2: EventCondition)
    ensures Related(p1, p2) <==>
      (p1.eventType == Goals && p2.eventType == TeamStatsKind) ||
      (p1.eventType == Goals && p2.eventType == HalfStatsKind) ||
      (p1.eventType == Cards && p2.eventType == Corners)
    ensures Related(p1, p2) ==> !Related(p2, p1)
  {
  }

  predicate SameMarket(p1: EventCondition, p2: EventCondition)
  {
    p1.market == p2.market && p1.eventType == p2.eventType
  }

  /**
   * `_get_pattern_correlation` as written: its first branch is a bare
   * `return`, so two patterns of the same market and type score `None`.
   */
  function PatternCorrelationAsWritten(p1: EventCondition, p2: EventCondition): (r: Option<real>)
    ensures r.None? <==> SameMarket(p1, p2)
  {
    if SameMarket(p1, p2) then None
    else if LogicallyDependent(p1, p2) then Some(0.8)
    else if p1.eventType == p2.eventType then Some(0.6)
    else if Related(p1, p2) then Some(0.4)
    else Some(0.1)
  }

  /** `_get_pattern_correlation` with the "highly correlated" branch scoring 1.0, the top of its documented range. */
  function PatternCorrelation(p1: EventCondition, p2: EventCondition): (r: real)
    ensures 0.0 < r <= 1.0
    ensures PatternCorrelationAsWritten(p1, p2).Some? ==> PatternCorrelationAsWritten(p1, p2).value == r
  {
    if SameMarket(p1, p2) then 1.0
    else if LogicallyDependent(p1, p2) then 0.8
    else if p1.eventType == p2.eventType then 0.6
    else if Related(p1, p2) then 0.4
    else 0.1
  }

  /** `_describe_relationship`: the label of the branch the correlation takes. */
  function DescribeRelationship(p1: EventCondition, p2: EventCondition): (r: string)
    ensures r in {"same_market", "logically_dependent", "same_event_type", "related_event_types", "independent"}
    ensures r == "same_market" <==> p1.market == p2.market && p1.eventType == p2.eventType
    ensures r == "same_event_type" ==> p1.eventType == p2.eventType
  {
    if p1.market == p2.market && p1.eventType == p2.eventType then "same_market"
    else if LogicallyDependent(p1, p2) then "logically_dependent"
    else if p1.eventType == p2.eventType then "same_event_type"
    else if Related(p1, p2) then "related_event_types"
    else "independent"
  }

  /** The score of the branch a relationship label names. */
  function ScoreOfRelationship(relationship: string): (r: real)
    ensures 0.0 < r <= 1.0
    ensures r == 1.0 <==> relationship == "same_market"
  {
    if relationship == "same_market" then 1.0
    else if relationship == "logically_dependent" then 0.8
    else if relationship == "same_event_type" then 0.6
    else if relationship == "related_event_types" then 0.4
    else 0.1
  }

  /** The score and the label are chosen by the same priority order. */
  lemma CorrelationFollowsRelationship(p1: EventCondition, p2: EventCondition)
    ensures PatternCorrelation(p1, p2) == ScoreOfRelationship(DescribeRelationship(p1, p2))
    ensures PatternCorrelationAsWritten(p1, p2).None? <==> DescribeRelationship(p1, p2) == "same_market"
  {
  }

  /** Two patterns of one event type score at least 0.6, whatever their markets. */
  lemma SameTypeCorrelation(p1: EventCondition, p2: EventCondition)
    requires p1.eventType == p2.eventType
    ensures PatternCorrelation(p1, p2) >= 0.6
  {
  }

  // ---------------------------------------------------------------------
  // Correlation factors of a list of patterns
  // ---------------------------------------------------------------------

  /** `(x, y)` for every `y` of `ys`, in order. */
  function Row<T>(x: T, ys: seq<T>): (r: seq<(T, T)>)
    ensures |r| == |ys|
    ensures forall k :: 0 <= k < |ys| ==> r[k] == (x, ys[k])
  {
    if ys == [] then [] else [(x, ys[0])] + Row(x, ys[1..])
  }

  /** `(xs[i], xs[j])` for every `i < j`, by ascending `i` and then ascending `j`. */
  function Pairs<T>(xs: seq<T>): seq<(T, T)>
    decreases |xs|
  {
    if xs == [] then [] else Row(xs[0], xs[1..]) + Pairs(xs[1..])
  }

  /** There are n(n-1)/2 pairs. */
  lemma {:induction false} PairsCount<T>(xs: seq<T>)
    ensures 2 * |Pairs(xs)| == |xs| * (|xs| - 1)
    decreases |xs|
  {
    if xs != [] {
      PairsCount(xs[1..]);
      var n := |xs| - 1;
      assert |xs| * (|xs| - 1) == (n + 1) * n;
      assert (n + 1) * n == 2 * n + n * (n - 1);
    }
  }

  /** A pair is listed iff it is `(xs[i], xs[j])` for some `i < j`. */
  lemma {:induction false} PairsMembers<T>(xs: seq<T>, p: (T, T))
    ensures p in Pairs(xs) <==> exists i, j :: 0 <= i < j < |xs| && p == (xs[i], xs[j])
    decreases |xs|
  {
    if xs != [] {
      var row := Row(xs[0], xs[1..]);
      PairsMembers(xs[1..], p);
      if p in row {
        var k :| 0 <= k < |row| && row[k] == p;
        assert p == (xs[0], xs[k + 1]);
      }
      if p in Pairs(xs[1..]) {
        var i, j :| 0 <= i < j < |xs[1..]| && p == (xs[1..][i], xs[1..][j]);
        assert p == (xs[i + 1], xs[j + 1]);
      }
      if exists i, j :: 0 <= i < j < |xs| && p == (xs[i], xs[j]) {
        var i, j :| 0 <= i < j < |xs| && p == (xs[i], xs[j]);
        if i == 0 {
          assert row[j - 1] == p;
        } else {
          assert p == (xs[1..][i - 1], xs[1..][j - 1]);
        }
      }
    }
  }

  /** The pairs from position `i` on: the row of `xs[i]`, then the pairs from `i + 1` on. */
  lemma PairsFrom<T>(xs: seq<T>, i: nat)
    requires i < |xs|
    ensures Pairs(xs[i..]) == Row(xs[i], xs[i + 1..]) + Pairs(xs[i + 1..])
  {
    assert xs[i..][1..] == xs[i + 1..];
  }

  /** The row over `ys[j..]`: its first pair, then the row over `ys[j + 1..]`. */
  lemma RowFrom<T>(x: T, ys: seq<T>, j: nat)
    requires j < |ys|
    ensures Row(x, ys[j..]) == [(x, ys[j])] + Row(x, ys[j + 1..])
  {
    assert ys[j..][1..] == ys[j + 1..];
  }

  /** One entry of `correlation_factors`. */
  datatype CorrelationFactor = CorrelationFactor(
    pattern1: string,
    pattern2: string,
    correlationScore: real,
    relationship: string)

  function FactorOf(pair: (EventCondition, EventCondition)): CorrelationFactor
  {
    CorrelationFactor(pair.0.name, pair.1.name, PatternCorrelation(pair.0, pair.1), DescribeRelationship(pair.0, pair.1))
  }

  /** The factor of every pair, in order. */
  function FactorsOf(pairs: seq<(EventCondition, EventCondition)>): (r: seq<CorrelationFactor>)
    ensures |r| == |pairs|
    ensures forall k :: 0 <= k < |pairs| ==> r[k] == FactorOf(pairs[k])
  {
    seq(|pairs|, k requires 0 <= k < |pairs| => FactorOf(pairs[k]))
  }

  lemma FactorsSnoc(done: seq<(EventCondition, EventCondition)>, pair: (EventCondition, EventCondition))
    ensures FactorsOf(done + [pair]) == FactorsOf(done) + [FactorOf(pair)]
  {
    assert |FactorsOf(done + [pair])| == |FactorsOf(done) + [FactorOf(pair)]|;
    forall k | 0 <= k < |done| + 1
      ensures FactorsOf(done + [pair])[k] == (FactorsOf(done) + [FactorOf(pair)])[k]
    {
      if k < |done| {
        assert (done + [pair])[k] == done[k];
      }
    }
  }

  lemma FactorsAppend(a: seq<(EventCondition, EventCondition)>, b: seq<(EventCondition, EventCondition)>)
    ensures FactorsOf(a + b) == FactorsOf(a) + FactorsOf(b)
  {
    assert |FactorsOf(a + b)| == |FactorsOf(a) + FactorsOf(b)|;
    forall k | 0 <= k < |a| + |b|
      ensures FactorsOf(a + b)[k] == (FactorsOf(a) + FactorsOf(b))[k]
    {
      if k < |a| {
        assert (a + b)[k] == a[k];
      } else {
        assert (a + b)[k] == b[k - |a|];
      }
    }
  }

  /** One more position of the inner loop appends the factor of one more pair. */
  lemma RowAppend<T>(x: T, ys: seq<T>, y: T)
    ensures Row(x, ys + [y]) == Row(x, ys) + [(x, y)]
  {
    var r, t := Row(x, ys + [y]), Row(x, ys) + [(x, y)];
    assert |r| == |t|;
    forall k | 0 <= k < |r| ensures r[k] == t[k] {
      if k < |ys| {
        assert (ys + [y])[k] == ys[k];
      }
    }
  }

  lemma RowSnoc(ps: seq<EventCondition>, i: nat, j: nat)
    requires i < j < |ps|
    ensures FactorsOf(Row(ps[i], ps[i + 1..j + 1])) == FactorsOf(Row(ps[i], ps[i + 1..j])) + [FactorOf((ps[i], ps[j]))]
  {
    assert ps[i + 1..j + 1] == ps[i + 1..j] + [ps[j]];
    RowAppend(ps[i], ps[i + 1..j], ps[j]);
    FactorsSnoc(Row(ps[i], ps[i + 1..j]), (ps[i], ps[j]));
  }

  /** One more position of the outer loop moves the row of `ps[i]` from the pending pairs to the done ones. */
  lemma PairsStep(ps: seq<EventCondition>, i: nat, done: seq<CorrelationFactor>)
    requires i < |ps|
    requires done + FactorsOf(Pairs(ps[i..])) == FactorsOf(Pairs(ps))
    ensures (done + FactorsOf(Row(ps[i], ps[i + 1..]))) + FactorsOf(Pairs(ps[i + 1..])) == FactorsOf(Pairs(ps))
  {
    PairsFrom(ps, i);
    FactorsAppend(Row(ps[i], ps[i + 1..]), Pairs(ps[i + 1..]));
    ConcatAssoc(done, FactorsOf(Row(ps[i], ps[i + 1..])), FactorsOf(Pairs(ps[i + 1..])));
  }

  lemma ConcatAssoc<T>(a: seq<T>, b: seq<T>, c: seq<T>)
    ensures a + (b + c) == (a + b) + c
  {
  }

  /** `_calculate_correlation_factors`: one factor per pair `i < j`, i ascending, then j ascending. */
  method CalculateCorrelationFactors(patterns: seq<EventCondition>) returns (correlationFactors: seq<CorrelationFactor>)
    ensures correlationFactors == FactorsOf(Pairs(patterns))
  {
    correlationFactors := [];
    var i := 0;
    while i < |patterns|
      invariant 0 <= i <= |patterns|
      invariant correlationFactors + FactorsOf(Pairs(patterns[i..])) == FactorsOf(Pairs(patterns))
      decreases |patterns| - i
    {
      PairsStep(patterns, i, correlationFactors);
      correlationFactors := AppendRowFactors(correlationFactors, patterns, i);
      i := i + 1;
    }
    assert patterns[i..] == [];
    assert correlationFactors + [] == correlationFactors;
  }

  /** The inner loop `for j in range(i + 1, len(patterns))`. */
  method AppendRowFactors(factors: seq<CorrelationFactor>, patterns: seq<EventCondition>, i: nat)
    returns (correlationFactors: seq<CorrelationFactor>)
    requires i < |patterns|
    ensures correlationFactors == factors + FactorsOf(Row(patterns[i], patterns[i + 1..]))
  {
    correlationFactors := factors;
    var j := i + 1;
    while j < |patterns|
      invariant i + 1 <= j <= |patterns|
      invariant correlationFactors == factors + FactorsOf(Row(patterns[i], patterns[i + 1..j]))
      decreases |patterns| - j
    {
      var pattern1, pattern2 := patterns[i], patterns[j];
      var correlationScore := PatternCorrelation(pattern1, pattern2);
      var factor := CorrelationFactor(pattern1.name, pattern2.name, correlationScore, DescribeRelationship(pattern1, pattern2));
      assert factor == FactorOf((pattern1, pattern2));
      RowSnoc(patterns, i, j);
      correlationFactors := correlationFactors + [factor];
      assert correlationFactors == factors + (FactorsOf(Row(patterns[i], patterns[i + 1..j])) + [factor]);
      j := j + 1;
    }
    assert patterns[i + 1..j] == patterns[i + 1..];
  }

  // ---------------------------------------------------------------------
  // Averages and bands
  // ---------------------------------------------------------------------

  function SumScores(factors: seq<CorrelationFactor>): real
  {
    if factors == [] then 0.0 else factors[0].correlationScore + SumScores(factors[1..])
  }

  /** Every score at least `lo` puts the sum at least `lo` per factor. */
  lemma {:induction false} SumScoresAtLeast(factors: seq<CorrelationFactor>, lo: real)
    requires forall k :: 0 <= k < |factors| ==> factors[k].correlationScore >= lo
    ensures SumScores(factors) >= lo * |factors| as real
    decreases |factors|
  {
    if factors != [] {
      assert forall k :: 0 <= k < |factors[1..]| ==> factors[1..][k] == factors[k + 1];
      SumScoresAtLeast(factors[1..], lo);
      assert lo * |factors| as real == lo + lo * |factors[1..]| as real;
    }
  }

  function AverageScore(factors: seq<CorrelationFactor>): real
    requires factors != []
  {
    SumScores(factors) / |factors| as real
  }

  /** The band of `_get_correlation_adjustment`: the higher the average correlation, the smaller the factor. */
  function Band(avgCorrelation: real): real
  {
    if avgCorrelation >= 0.8 then 0.3
    else if avgCorrelation >= 0.6 then 0.6
    else if avgCorrelation >= 0.4 then 0.8
    else if avgCorrelation >= 0.2 then 0.9
    else 1.0
  }

  /** The bands never increase as the average rises. */
  lemma BandAntitone(a: real, b: real)
    requires a <= b
    ensures Band(b) <= Band(a)
  {
  }

  /** `_get_correlation_adjustment`: 1.0 with no factors, else the band of the average score. */
  function CorrelationAdjustment(factors: seq<CorrelationFactor>): (r: real)
    ensures r == 0.3 || r == 0.6 || r == 0.8 || r == 0.9 || r == 1.0
    ensures factors == [] ==> r == 1.0
  {
    if factors == [] then 1.0 else Band(AverageScore(factors))
  }

  /** `_get_adjustment_reason`: the same thresholds, as labels. */
  function AdjustmentReason(factors: seq<CorrelationFactor>): string
  {
    if factors == [] then "independent_events"
    else
      var avgCorrelation := AverageScore(factors);
      if avgCorrelation >= 0.8 then "highly_correlated_events"
      else if avgCorrelation >= 0.6 then "moderately_correlated_events"
      else if avgCorrelation >= 0.4 then "slightly_correlated_events"
      else if avgCorrelation >= 0.2 then "mostly_independent_events"
      else "independent_events"
  }

  /** The label that goes with each adjustment factor. */
  function ReasonOfAdjustment(adjustment: real): string
  {
    if adjustment == 0.3 then "highly_correlated_events"
    else if adjustment == 0.6 then "moderately_correlated_events"
    else if adjustment == 0.8 then "slightly_correlated_events"
    else if adjustment == 0.9 then "mostly_independent_events"
    else "independent_events"
  }

  /** Reason and adjustment always agree: the two threshold chains are the same. */
  lemma ReasonFollowsAdjustment(factors: seq<CorrelationFactor>)
    ensures AdjustmentReason(factors) == ReasonOfAdjustment(CorrelationAdjustment(factors))
  {
  }

  /**
   * Every catalogue pattern is a goals pattern, so any two of them score at
   * least 0.6 and a combination of two or more is adjusted by 0.6 or less (0.3 or 0.6).
   */
  lemma SameTypeAdjustment(patterns: seq<EventCondition>, t: EventType)
    requires |patterns| >= 2
    requires forall i :: 0 <= i < |patterns| ==> patterns[i].eventType == t
    ensures FactorsOf(Pairs(patterns)) != [] && Band(AverageScore(FactorsOf(Pairs(patterns)))) <= 0.6
  {
    SameTypeAverage(patterns, t);
    BandAtMost(AverageScore(FactorsOf(Pairs(patterns))), 0.6);
  }

  /** Over two or more patterns of one event type, the average score is at least 0.6. */
  lemma SameTypeAverage(patterns: seq<EventCondition>, t: EventType)
    requires |patterns| >= 2
    requires forall i :: 0 <= i < |patterns| ==> patterns[i].eventType == t
    ensures FactorsOf(Pairs(patterns)) != [] && AverageScore(FactorsOf(Pairs(patterns))) >= 0.6
  {
    PairsNonEmpty(patterns);
    SameTypeScores(patterns, t);
    AverageAtLeast(FactorsOf(Pairs(patterns)), 0.6);
  }

  /** Every score at least `lo` puts the average at least `lo`. */
  lemma AverageAtLeast(factors: seq<CorrelationFactor>, lo: real)
    requires factors != []
    requires forall k :: 0 <= k < |factors| ==> factors[k].correlationScore >= lo
    ensures AverageScore(factors) >= lo
  {
    SumScoresAtLeast(factors, lo);
    DivideAtLeast(SumScores(factors), |factors| as real, lo);
  }

  /** An average of at least x is adjusted by at most the band of x. */
  lemma BandAtMost(avg: real, x: real)
    requires avg >= x
    ensures Band(avg) <= Band(x)
  {
    BandAntitone(x, avg);
  }

  lemma PairsNonEmpty<T>(xs: seq<T>)
    requires |xs| >= 2
    ensures Pairs(xs) != []
  {
    assert |Row(xs[0], xs[1..])| >= 1;
  }

  lemma DivideAtLeast(s: real, n: real, lo: real)
    requires n > 0.0 && s >= lo * n
    ensures s / n >= lo
  {
  }

  /** Over patterns of one event type, every factor scores at least 0.6. */
  lemma SameTypeScores(patterns: seq<EventCondition>, t: EventType)
    requires forall i :: 0 <= i < |patterns| ==> patterns[i].eventType == t
    ensures forall k :: 0 <= k < |Pairs(patterns)| ==> FactorsOf(Pairs(patterns))[k].correlationScore >= 0.6
  {
    var pairs := Pairs(patterns);
    forall k | 0 <= k < |pairs| ensures FactorsOf(pairs)[k].correlationScore >= 0.6 {
      PairsMembers(patterns, pairs[k]);
      var i, j :| 0 <= i < j < |patterns| && pairs[k] == (patterns[i], patterns[j]);
      SameTypeCorrelation(patterns[i], patterns[j]);
    }
  }

  // ---------------------------------------------------------------------
  // The correlation adjustment as written
  // ---------------------------------------------------------------------

  /** The scores `_get_pattern_correlation` returns as written, pair by pair. */
  function ScoresAsWritten(pairs: seq<(EventCondition, EventCondition)>): (r: seq<Option<real>>)
    ensures |r| == |pairs|
    ensures forall k :: 0 <= k < |pairs| ==> r[k] == PatternCorrelationAsWritten(pairs[k].0, pairs[k].1)
  {
    seq(|pairs|, k requires 0 <= k < |pairs| => PatternCorrelationAsWritten(pairs[k].0, pairs[k].1))
  }

  /** Python `sum` over values one of which may be `None`: `0 + None` raises `TypeError`. */
  function SumAsWritten(scores: seq<Option<real>>): (r: Option<real>)
  {
    if scores == [] then Some(0.0)
    else if scores[0].None? then None
    else match SumAsWritten(scores[1..])
      case None => None
      case Some(s) => Some(scores[0].value + s)
  }

  /** A single `None` anywhere makes the sum raise. */
  lemma {:induction false} SumAsWrittenRaises(scores: seq<Option<real>>, k: nat)
    requires k < |scores| && scores[k].None?
    ensures SumAsWritten(scores) == None
    decreases |scores|
  {
    if k > 0 && scores[0].Some? {
      assert scores[1..][k - 1] == scores[k];
      SumAsWrittenRaises(scores[1..], k - 1);
    }
  }

  /** `_get_correlation_adjustment(_calculate_correlation_factors(patterns))` as written; `None` is the raise. */
  function CorrelationAdjustmentAsWritten(patterns: seq<EventCondition>): Option<real>
  {
    var scores := ScoresAsWritten(Pairs(patterns));
    if scores == [] then Some(1.0)
    else match SumAsWritten(scores)
      case None => None
      case Some(s) => Some(Band(s / |scores| as real))
  }

  /** As written, any two patterns of one market and type make the adjustment raise. */
  lemma SameMarketRaises(patterns: seq<EventCondition>, i: nat, j: nat)
    requires i < j < |patterns| && SameMarket(patterns[i], patterns[j])
    ensures CorrelationAdjustmentAsWritten(patterns) == None
  {
    var pairs := Pairs(patterns);
    PairsMembers(patterns, (patterns[i], patterns[j]));
    var k :| 0 <= k < |pairs| && pairs[k] == (patterns[i], patterns[j]);
    SumAsWrittenRaises(ScoresAsWritten(pairs), k);
  }

  /** A sum that does not raise is the sum of the corrected scores. */
  lemma {:induction false} SumAsWrittenAgrees(pairs: seq<(EventCondition, EventCondition)>)
    requires SumAsWritten(ScoresAsWritten(pairs)).Some?
    ensures SumAsWritten(ScoresAsWritten(pairs)).value == SumScores(FactorsOf(pairs))
    decreases |pairs|
  {
    if pairs != [] {
      assert ScoresAsWritten(pairs)[1..] == ScoresAsWritten(pairs[1..]);
      assert FactorsOf(pairs)[1..] == FactorsOf(pairs[1..]);
      SumAsWrittenAgrees(pairs[1..]);
    }
  }

  /** A sum that raises met a `None` score. */
  lemma {:induction false} SumAsWrittenNone(scores: seq<Option<real>>)
    requires SumAsWritten(scores).None?
    ensures exists k :: 0 <= k < |scores| && scores[k].None?
    decreases |scores|
  {
    if scores[0].Some? {
      SumAsWrittenNone(scores[1..]);
      var k :| 0 <= k < |scores[1..]| && scores[1..][k].None?;
      assert scores[k + 1].None?;
    }
  }

  /**
   * The adjustment as written raises exactly when two of the patterns share
   * market and type; wherever it does not raise, it is the corrected
   * adjustment, so the corrected report is the program's on every such input.
   */
  lemma AdjustmentAsWrittenAgrees(patterns: seq<EventCondition>)
    ensures CorrelationAdjustmentAsWritten(patterns).None? <==>
      exists i, j :: 0 <= i < j < |patterns| && SameMarket(patterns[i], patterns[j])
    ensures CorrelationAdjustmentAsWritten(patterns).Some? ==>
      CorrelationAdjustmentAsWritten(patterns).value == CorrelationAdjustment(FactorsOf(Pairs(patterns)))
  {
    if exists i, j :: 0 <= i < j < |patterns| && SameMarket(patterns[i], patterns[j]) {
      var i, j :| 0 <= i < j < |patterns| && SameMarket(patterns[i], patterns[j]);
      SameMarketRaises(patterns, i, j);
    }
    if CorrelationAdjustmentAsWritten(patterns).None? {
      RaiseMeetsSameMarket(patterns);
    } else {
      AsWrittenValue(patterns);
    }
  }

  /** An adjustment that raises met a pair of one market and type. */
  lemma RaiseMeetsSameMarket(patterns: seq<EventCondition>)
    requires CorrelationAdjustmentAsWritten(patterns).None?
    ensures exists i, j :: 0 <= i < j < |patterns| && SameMarket(patterns[i], patterns[j])
  {
    var pairs := Pairs(patterns);
    var scores := ScoresAsWritten(pairs);
    SumAsWrittenNone(scores);
    var k :| 0 <= k < |scores| && scores[k].None?;
    PairsMembers(patterns, pairs[k]);
    var i, j :| 0 <= i < j < |patterns| && pairs[k] == (patterns[i], patterns[j]);
    assert SameMarket(patterns[i], patterns[j]);
  }

  /** An adjustment that does not raise is the corrected one. */
  lemma AsWrittenValue(patterns: seq<EventCondition>)
    requires CorrelationAdjustmentAsWritten(patterns).Some?
    ensures CorrelationAdjustmentAsWritten(patterns).value == CorrelationAdjustment(FactorsOf(Pairs(patterns)))
  {
    var pairs := Pairs(patterns);
    if pairs != [] {
      SumAsWrittenAgrees(pairs);
    }
  }

  /**
   * `over_0_5_goals` with `over_1_5_goals`: listed as logically dependent, but
   * the same-market branch is tried first and returns `None`, so the
   * adjustment raises; the corrected score 1.0 gives the factor 0.3.
   */
  lemma OverGoalsPairRaises()
    ensures var ps := [TotalGoalsOverUnderEntries[0], TotalGoalsOverUnderEntries[1]];
      ps[0].name == "over_0_5_goals" && ps[1].name == "over_1_5_goals" &&
      LogicallyDependent(ps[0], ps[1]) &&
      CorrelationAdjustmentAsWritten(ps) == None &&
      CorrelationAdjustment(FactorsOf(Pairs(ps))) == 0.3
  {
    var ps := [TotalGoalsOverUnderEntries[0], TotalGoalsOverUnderEntries[1]];
    assert SameMarket(ps[0], ps[1]);
    SameMarketRaises(ps, 0, 1);
    assert Pairs(ps[1..]) == [] by {
      assert ps[1..][1..] == [];
      assert Row(ps[1], ps[1..][1..]) == [];
    }
    assert Row(ps[0], ps[1..]) == [(ps[0], ps[1])];
    assert Pairs(ps) == [(ps[0], ps[1])];
    var factors := FactorsOf(Pairs(ps));
    assert factors == [FactorOf((ps[0], ps[1]))];
    assert SumScores(factors) == 1.0 by {
      assert factors[1..] == [];
    }
  }

  // ---------------------------------------------------------------------
  // Combined odds
  // ---------------------------------------------------------------------

  /** `combined *= odds` over the list, from the left. */
  function ProductOf(xs: seq<real>): real
  {
    if xs == [] then 1.0 else ProductOf(xs[..|xs| - 1]) * xs[|xs| - 1]
  }

  /** `prob *= 1.0 / odds` over the odds that are positive, from the left. */
  function InverseProduct(xs: seq<real>): (r: real)
    ensures r > 0.0
  {
    if xs == [] then 1.0
    else
      var last := xs[|xs| - 1];
      if last > 0.0 then InverseProduct(xs[..|xs| - 1]) * (1.0 / last) else InverseProduct(xs[..|xs| - 1])
  }

  /** The dictionary `calculate_combination_odds` returns. */
  datatype OddsReport = OddsReport(
    combinedOdds: real,
    individualOdds: seq<real>,
    bookmakerProbability: real,
    occurrenceProbability: real,
    valueIndicator: real,
    missingOddsPatterns: seq<string>,
    isValuable: bool,
    correlationAdjustment: real,
    adjustmentReason: string,
    correlationDetails: Option<seq<CorrelationFactor>>)   // absent from the fallback dictionary

  /** The calculator: the catalogue by name and the three tables, fixed at construction. */
  class OddsCalculator {
    const patternsByName: map<string, EventCondition>
    const primaryOdds: map<string, real>
    const fallbackOdds: map<string, real>
    const marketMapping: map<string, string>

    constructor ()
      ensures patternsByName == CatalogueByName
      ensures primaryOdds == PrimaryOdds && fallbackOdds == FallbackOdds && marketMapping == MarketMapping
    {
      patternsByName := CatalogueByName;
      primaryOdds := PrimaryOdds;
      fallbackOdds := FallbackOdds;
      marketMapping := MarketMapping;
    }

    /** `map_pattern_to_odds_market`: the mapped market key, or the name itself when unmapped. */
    function MapPatternToOddsMarket(patternName: string): (r: string)
      ensures patternName in marketMapping ==> r == marketMapping[patternName]
      ensures patternName !in marketMapping ==> r == patternName
    {
      Get(marketMapping, patternName, patternName)
    }

    /** `get_latest_match_odds`: `{**fallback, **primary}`; the league and season are not used. */
    function LatestMatchOdds(leagueId: int, season: int): (r: map<string, real>)
      ensures forall key :: key in r <==> key in primaryOdds || key in fallbackOdds
      ensures forall key :: key in primaryOdds ==> r[key] == primaryOdds[key]
      ensures forall key :: key !in primaryOdds && key in fallbackOdds ==> r[key] == fallbackOdds[key]
    {
      fallbackOdds + primaryOdds
    }

    /** `find_odds_for_pattern`: primary table, then fallback table, then neutral odds 1.0. */
    function FindOddsForPattern(patternName: string): real
    {
      var marketKey := MapPatternToOddsMarket(patternName);
      if marketKey in primaryOdds then primaryOdds[marketKey]
      else if marketKey in fallbackOdds then fallbackOdds[marketKey]
      else 1.0
    }

    /** The odds found are those of the combined table under the mapped key, 1.0 when it has none. */
    lemma FindOddsIsLatestLookup(patternName: string, leagueId: int, season: int)
      ensures FindOddsForPattern(patternName) == Get(LatestMatchOdds(leagueId, season), MapPatternToOddsMarket(patternName), 1.0)
    {
    }

    /** `get_all_pattern_odds`: the odds of every catalogue name. */
    method GetAllPatternOdds() returns (patternOdds: map<string, real>)
      ensures patternOdds.Keys == patternsByName.Keys
      ensures forall name :: name in patternOdds ==> patternOdds[name] == FindOddsForPattern(name)
    {
      patternOdds := map[];
      var rest := patternsByName.Keys;
      while rest != {}
        invariant rest <= patternsByName.Keys
        invariant patternOdds.Keys == patternsByName.Keys - rest
        invariant forall name :: name in patternOdds ==> patternOdds[name] == FindOddsForPattern(name)
        decreases |rest|
      {
        var patternName :| patternName in rest;
        patternOdds := patternOdds[patternName := FindOddsForPattern(patternName)];
        rest := rest - {patternName};
      }
    }

    /** The catalogue entries of the names that have one, in order. */
    function KnownPatterns(names: seq<string>): (r: seq<EventCondition>)
      ensures |r| <= |names|
    {
      if names == [] then []
      else
        var last := names[|names| - 1];
        KnownPatterns(names[..|names| - 1]) + (if last in patternsByName then [patternsByName[last]] else [])
    }

    /** Every name is found iff the known patterns are as many as the names. */
    lemma {:induction false} KnownPatternsAll(names: seq<string>)
      ensures |KnownPatterns(names)| == |names| <==> forall i :: 0 <= i < |names| ==> names[i] in patternsByName
      ensures forall p :: p in KnownPatterns(names) ==> p in patternsByName.Values
      decreases |names|
    {
      if names != [] {
        var init := names[..|names| - 1];
        KnownPatternsAll(init);
        assert forall i :: 0 <= i < |init| ==> init[i] == names[i];
      }
    }

    /** `individual_odds`: the odds of each name, in order. */
    function IndividualOdds(names: seq<string>): (r: seq<real>)
      ensures |r| == |names|
    {
      if names == [] then [] else IndividualOdds(names[..|names| - 1]) + [FindOddsForPattern(names[|names| - 1])]
    }

    lemma {:induction false} IndividualOddsAt(names: seq<string>, i: nat)
      requires i < |names|
      ensures IndividualOdds(names)[i] == FindOddsForPattern(names[i])
      decreases |names|
    {
      if i < |names| - 1 {
        IndividualOddsAt(names[..|names| - 1], i);
      }
    }

    /** `missing_odds`: the names whose odds are exactly 1.0, in order. */
    function MissingOdds(names: seq<string>): seq<string>
    {
      if names == [] then []
      else
        var last := names[|names| - 1];
        MissingOdds(names[..|names| - 1]) + (if FindOddsForPattern(last) == 1.0 then [last] else [])
    }

    lemma {:induction false} MissingOddsMembers(names: seq<string>, name: string)
      ensures name in MissingOdds(names) <==> name in names && FindOddsForPattern(name) == 1.0
      decreases |names|
    {
      if names != [] {
        var init := names[..|names| - 1];
        MissingOddsMembers(init, name);
        assert names == init + [names[|names| - 1]];
      }
    }

    /** The dictionary `calculate_combination_odds` builds. */
    function CombinationOdds(combination: seq<string>, occurrenceProbability: real): OddsReport
    {
      var individualOdds := IndividualOdds(combination);
      var missingOdds := MissingOdds(combination);
      var patternObjects := KnownPatterns(combination);
      if |patternObjects| != |combination| then FallbackReport(individualOdds, missingOdds, occurrenceProbability)
      else CorrelatedReport(individualOdds, missingOdds, patternObjects, occurrenceProbability)
    }

    /** `calculate_combination_odds`, with the lookups and products done in loops. */
    method CalculateCombinationOdds(combination: seq<string>, occurrenceProbability: real) returns (report: OddsReport)
      ensures report == CombinationOdds(combination, occurrenceProbability)
    {
      var individualOdds, missingOdds, patternObjects := CollectOdds(combination);
      if |patternObjects| != |combination| {
        report := FallbackBranch(individualOdds, missingOdds, occurrenceProbability);
      } else {
        report := CorrelatedBranch(individualOdds, missingOdds, patternObjects, occurrenceProbability);
      }
    }

    /** The first loop of `calculate_combination_odds`: catalogue entries, odds and missing names. */
    method CollectOdds(combination: seq<string>)
      returns (individualOdds: seq<real>, missingOdds: seq<string>, patternObjects: seq<EventCondition>)
      ensures individualOdds == IndividualOdds(combination)
      ensures missingOdds == MissingOdds(combination)
      ensures patternObjects == KnownPatterns(combination)
    {
      individualOdds, missingOdds, patternObjects := [], [], [];
      var i := 0;
      while i < |combination|
        invariant 0 <= i <= |combination|
        invariant individualOdds == IndividualOdds(combination[..i])
        invariant missingOdds == MissingOdds(combination[..i])
        invariant patternObjects == KnownPatterns(combination[..i])
        decreases |combination| - i
      {
        var patternName := combination[i];
        assert combination[..i + 1][..i] == combination[..i];
        if patternName in patternsByName {
          patternObjects := patternObjects + [patternsByName[patternName]];
        }
        var odds := FindOddsForPattern(patternName);
        individualOdds := individualOdds + [odds];
        if odds == 1.0 {
          missingOdds := missingOdds + [patternName];
        }
        i := i + 1;
      }
      assert combination[..i] == combination;
    }

    /** One odds value per name, and the missing names are exactly those at odds 1.0. */
    lemma CombinationOddsLists(combination: seq<string>, occurrenceProbability: real)
      ensures var r := CombinationOdds(combination, occurrenceProbability);
        |r.individualOdds| == |combination| &&
        (forall i :: 0 <= i < |combination| ==> r.individualOdds[i] == FindOddsForPattern(combination[i])) &&
        (forall name :: name in r.missingOddsPatterns <==> name in combination && FindOddsForPattern(name) == 1.0) &&
        (r.isValuable <==> r.valueIndicator > 0.0) &&
        r.occurrenceProbability == occurrenceProbability
    {
      var r := CombinationOdds(combination, occurrenceProbability);
      forall i | 0 <= i < |combination| ensures r.individualOdds[i] == FindOddsForPattern(combination[i]) {
        IndividualOddsAt(combination, i);
      }
      forall name ensures name in r.missingOddsPatterns <==> name in combination && FindOddsForPattern(name) == 1.0 {
        MissingOddsMembers(combination, name);
      }
    }

    /**
     * The fallback is taken iff some name is not in the catalogue, and reports
     * no adjustment; otherwise the combined odds are positive and the
     * correlation details hold one factor per pair of names.
     */
    lemma CombinationOddsBranches(combination: seq<string>, occurrenceProbability: real)
      ensures var r := CombinationOdds(combination, occurrenceProbability);
        ((exists i :: 0 <= i < |combination| && combination[i] !in patternsByName) <==>
          r.adjustmentReason == "fallback_calculation") &&
        (r.adjustmentReason == "fallback_calculation" ==>
          r.correlationAdjustment == 1.0 && r.correlationDetails.None?) &&
        (r.adjustmentReason != "fallback_calculation" ==>
          r.combinedOdds > 0.0 && r.correlationDetails.Some? &&
          2 * |r.correlationDetails.value| == |combination| * (|combination| - 1))
    {
      KnownPatternsAll(combination);
      var patternObjects := KnownPatterns(combination);
      if |patternObjects| == |combination| {
        PairsCount(patternObjects);
      }
    }

    /** Any combination of two or more catalogue names is adjusted by 0.6 or less, i.e. 0.3 or 0.6. */
    lemma CatalogueCombinationAdjustment(combination: seq<string>, occurrenceProbability: real)
      requires patternsByName == CatalogueByName
      requires |combination| >= 2
      requires forall i :: 0 <= i < |combination| ==> combination[i] in patternsByName
      ensures CombinationOdds(combination, occurrenceProbability).correlationAdjustment <= 0.6
    {
      KnownCatalogueGoals(combination);
      SameTypeAdjustment(KnownPatterns(combination), Goals);
    }

    /** With the catalogue table, the entries found for known names are all goals patterns. */
    lemma KnownCatalogueGoals(combination: seq<string>)
      requires patternsByName == CatalogueByName
      requires forall i :: 0 <= i < |combination| ==> combination[i] in patternsByName
      ensures |KnownPatterns(combination)| == |combination|
      ensures forall i :: 0 <= i < |KnownPatterns(combination)| ==> KnownPatterns(combination)[i].eventType == Goals
    {
      KnownPatternsAll(combination);
      var patternObjects := KnownPatterns(combination);
      CatalogueTableGoals();
      forall i | 0 <= i < |patternObjects| ensures patternObjects[i].eventType == Goals {
        assert patternObjects[i] in patternsByName.Values;
      }
    }
  }

  /** The dictionary of the fallback branch: the plain product of the odds, no correlation. */
  function FallbackReport(individualOdds: seq<real>, missingOdds: seq<string>, occurrenceProbability: real): (r: OddsReport)
    ensures r.correlationAdjustment == 1.0 && r.adjustmentReason == "fallback_calculation" && r.correlationDetails.None?
    ensures r.isValuable <==> r.valueIndicator > 0.0
  {
    var combinedOdds := ProductOf(individualOdds);
    var bookmakerProbability := if combinedOdds > 0.0 then 1.0 / combinedOdds else 0.0;
    var valueIndicator := occurrenceProbability - bookmakerProbability * 100.0;
    OddsReport(combinedOdds, individualOdds, bookmakerProbability * 100.0, occurrenceProbability, valueIndicator,
      missingOdds, valueIndicator > 0.0, 1.0, "fallback_calculation", None)
  }

  /** The dictionary of the main branch: the product of the implied probabilities, scaled by the correlation band. */
  function CorrelatedReport(individualOdds: seq<real>, missingOdds: seq<string>, patternObjects: seq<EventCondition>,
                            occurrenceProbability: real): (r: OddsReport)
    ensures r.combinedOdds > 0.0
    ensures r.correlationDetails == Some(FactorsOf(Pairs(patternObjects)))
    ensures r.correlationAdjustment == CorrelationAdjustment(FactorsOf(Pairs(patternObjects)))
    ensures r.adjustmentReason != "fallback_calculation"
    ensures r.isValuable <==> r.valueIndicator > 0.0
  {
    var correlationFactors := FactorsOf(Pairs(patternObjects));
    ReasonFollowsAdjustment(correlationFactors);
    PricedReport(individualOdds, missingOdds, occurrenceProbability, InverseProduct(individualOdds), correlationFactors)
  }

  /** The dictionary of the main branch, from the independent probability and the correlation factors. */
  function PricedReport(individualOdds: seq<real>, missingOdds: seq<string>, occurrenceProbability: real,
                        independentProbability: real, correlationFactors: seq<CorrelationFactor>): (r: OddsReport)
    ensures independentProbability > 0.0 ==> r.combinedOdds > 0.0
    ensures r.bookmakerProbability == independentProbability * r.correlationAdjustment * 100.0
    ensures r.correlationDetails == Some(correlationFactors)
    ensures r.correlationAdjustment == CorrelationAdjustment(correlationFactors)
    ensures r.adjustmentReason == AdjustmentReason(correlationFactors)
    ensures r.isValuable <==> r.valueIndicator > 0.0
  {
    var adjustment := CorrelationAdjustment(correlationFactors);
    var adjusted := independentProbability * adjustment;
    var combinedOdds := if adjusted > 0.0 then 1.0 / adjusted else 0.0;
    var valueIndicator := (occurrenceProbability / 100.0 - adjusted) * 100.0;
    OddsReport(combinedOdds, individualOdds, adjusted * 100.0, occurrenceProbability, valueIndicator,
      missingOdds, valueIndicator > 0.0, adjustment, AdjustmentReason(correlationFactors), Some(correlationFactors))
  }

  /** The fallback branch of `calculate_combination_odds`. */
  method FallbackBranch(individualOdds: seq<real>, missingOdds: seq<string>, occurrenceProbability: real) returns (report: OddsReport)
    ensures report == FallbackReport(individualOdds, missingOdds, occurrenceProbability)
  {
    var combinedOdds := ProductLoop(individualOdds);
    var bookmakerProbability := if combinedOdds > 0.0 then 1.0 / combinedOdds else 0.0;
    var valueIndicator := occurrenceProbability - bookmakerProbability * 100.0;
    report := OddsReport(combinedOdds, individualOdds, bookmakerProbability * 100.0, occurrenceProbability, valueIndicator,
      missingOdds, valueIndicator > 0.0, 1.0, "fallback_calculation", None);
  }

  /** The main branch of `calculate_combination_odds`. */
  method CorrelatedBranch(individualOdds: seq<real>, missingOdds: seq<string>, patternObjects: seq<EventCondition>,
                          occurrenceProbability: real) returns (report: OddsReport)
    ensures report == CorrelatedReport(individualOdds, missingOdds, patternObjects, occurrenceProbability)
  {
    var correlationFactors := CalculateCorrelationFactors(patternObjects);
    var independentCombinedProbability := InverseProductLoop(individualOdds);
    report := PricedReport(individualOdds, missingOdds, occurrenceProbability, independentCombinedProbability, correlationFactors);
  }

  /** `combined_odds *= odds` for each odds value. */
  method ProductLoop(xs: seq<real>) returns (combined: real)
    ensures combined == ProductOf(xs)
  {
    combined := 1.0;
    var i := 0;
    while i < |xs|
      invariant 0 <= i <= |xs|
      invariant combined == ProductOf(xs[..i])
      decreases |xs| - i
    {
      assert xs[..i + 1][..i] == xs[..i];
      combined := combined * xs[i];
      i := i + 1;
    }
    assert xs[..i] == xs;
  }

  /** `probability *= 1.0 / odds` for each positive odds value. */
  method InverseProductLoop(xs: seq<real>) returns (probability: real)
    ensures probability == InverseProduct(xs)
  {
    probability := 1.0;
    var i := 0;
    while i < |xs|
      invariant 0 <= i <= |xs|
      invariant probability == InverseProduct(xs[..i])
      decreases |xs| - i
    {
      assert xs[..i + 1][..i] == xs[..i];
      if xs[i] > 0.0 {
        probability := probability * (1.0 / xs[i]);
      }
      i := i + 1;
    }
    assert xs[..i] == xs;
  }
}
