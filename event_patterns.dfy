/**
 * The pattern catalogue: named predicates over a finished match, each tagged
 * with the market it belongs to and an event type. A predicate is written as
 * a `Condition` term whose evaluation follows the Python lambda it stands for,
 * including the order in which `and`/`or` look at their operands; reading a
 * missing half record raises in Python and gives `None` here.
 */
module EventPatterns {
  import opened Wrappers
  import opened Models
  import Itertools

  /** The integer a comparison in a lambda is about. */
  datatype Quantity =
    | Total       // score_home + score_away
    | Home        // score_home
    | Away        // score_away
    | HomeMargin  // score_home - score_away
    | AwayMargin  // score_away - score_home

  datatype Op = Eq | Ne | Lt | Le | Gt | Ge

  /** The half-based helper a lambda calls. */
  datatype HalfTest =
    | HomeScoreBothHalves | AwayScoreBothHalves
    | HomeWonEitherHalf | AwayWonEitherHalf
    | HomeWonBothHalves | AwayWonBothHalves
    | BttsBothHalves
    | HighestScoringIs(expected: string)   // _highest_scoring_half(m) == expected

  /** The body of a catalogue lambda. */
  datatype Condition =
    | Cmp(q: Quantity, op: Op, bound: real)   // quantity op bound
    | CmpScores(op: Op)                        // score_home op score_away
    | Mod2Is(q: Quantity, rem: int)            // quantity % 2 == rem
    | And(left: Condition, right: Condition)   // Python `and`
    | Or(left: Condition, right: Condition)    // Python `or`
    | Not(inner: Condition)
    | Half(test: HalfTest)

  /** `EventCondition`: name, description, market, event type and condition. */
  datatype EventCondition = EventCondition(
    name: string,
    description: string,
    market: string,
    eventType: EventType,
    condition: Condition)

  function TotalGoals(m: Match): int
  {
    m.scoreHome + m.scoreAway
  }

  function QuantityOf(q: Quantity, m: Match): int
  {
    match q
    case Total => TotalGoals(m)
    case Home => m.scoreHome
    case Away => m.scoreAway
    case HomeMargin => m.scoreHome - m.scoreAway
    case AwayMargin => m.scoreAway - m.scoreHome
  }

  predicate Compare(x: real, op: Op, y: real)
  {
    match op
    case Eq => x == y
    case Ne => x != y
    case Lt => x < y
    case Le => x <= y
    case Gt => x > y
    case Ge => x >= y
  }

  // ---------------------------------------------------------------------
  // Helper predicates and sums (the static helpers of `EventPatterns`)

  function FirstHalfGoals(m: Match): (r: Option<int>)
    ensures r.Some? <==> m.firstHalf.Some?
  {
    match m.firstHalf
    case None => None
    case Some(f) => Some(f.homeGoals + f.awayGoals)
  }

  function SecondHalfGoals(m: Match): (r: Option<int>)
    ensures r.Some? <==> m.secondHalf.Some?
  {
    match m.secondHalf
    case None => None
    case Some(s) => Some(s.homeGoals + s.awayGoals)
  }

  /** `_home_cards`: yellow plus red cards of the home statistics, 0 without them. */
  function HomeCards(m: Match): Stat
  {
    match m.homeStats
    case Some(st) => st.yellowCards.Plus(st.redCards)
    case None => IntStat(0)
  }

  function AwayCards(m: Match): Stat
  {
    match m.awayStats
    case Some(st) => st.yellowCards.Plus(st.redCards)
    case None => IntStat(0)
  }

  /** `_total_cards`: yellow + red per team, each team 0 when its statistics are absent. */
  function TotalCards(m: Match): (r: Stat)
    ensures r.Real() == HomeCards(m).Real() + AwayCards(m).Real()
    ensures m.homeStats.None? && m.awayStats.None? ==> r == IntStat(0)
    ensures m.homeStats.Some? && m.awayStats.None? ==>
      r.Real() == m.homeStats.value.yellowCards.Real() + m.homeStats.value.redCards.Real()
  {
    var home := match m.homeStats
      case Some(st) => st.yellowCards.Plus(st.redCards)
      case None => IntStat(0);
    var away := match m.awayStats
      case Some(st) => st.yellowCards.Plus(st.redCards)
      case None => IntStat(0);
    home.Plus(away)
  }

  function FirstHalfCards(m: Match): (r: Option<int>)
    ensures r.Some? <==> m.firstHalf.Some?
  {
    match m.firstHalf
    case None => None
    case Some(f) => Some(f.homeCards + f.awayCards)
  }

  function SecondHalfCards(m: Match): (r: Option<int>)
    ensures r.Some? <==> m.secondHalf.Some?
  {
    match m.secondHalf
    case None => None
    case Some(s) => Some(s.homeCards + s.awayCards)
  }

  function HomeCorners(m: Match): Stat
  {
    match m.homeStats
    case Some(st) => st.cornerKicks
    case None => IntStat(0)
  }

  function AwayCorners(m: Match): Stat
  {
    match m.awayStats
    case Some(st) => st.cornerKicks
    case None => IntStat(0)
  }

  /** `_total_corners`: corner kicks of both teams, 0 for absent statistics. */
  function TotalCorners(m: Match): (r: Stat)
    ensures r.Real() == HomeCorners(m).Real() + AwayCorners(m).Real()
    ensures m.homeStats.None? && m.awayStats.None? ==> r == IntStat(0)
  {
    var home := match m.homeStats
      case Some(st) => st.cornerKicks
      case None => IntStat(0);
    var away := match m.awayStats
      case Some(st) => st.cornerKicks
      case None => IntStat(0);
    home.Plus(away)
  }

  function FirstHalfCorners(m: Match): (r: Option<int>)
    ensures r.Some? <==> m.firstHalf.Some?
  {
    match m.firstHalf
    case None => None
    case Some(f) => Some(f.homeCorners + f.awayCorners)
  }

  function SecondHalfCorners(m: Match): (r: Option<int>)
    ensures r.Some? <==> m.secondHalf.Some?
  {
    match m.secondHalf
    case None => None
    case Some(s) => Some(s.homeCorners + s.awayCorners)
  }

  /** "home", "away" or "draw" for one half, by its goals. */
  function ResultOfHalf(h: HalfStats): string
  {
    if h.homeGoals > h.awayGoals then "home"
    else if h.awayGoals > h.homeGoals then "away"
    else "draw"
  }

  function FirstHalfResult(m: Match): (r: Option<string>)
    ensures r.Some? <==> m.firstHalf.Some?
  {
    match m.firstHalf
    case None => None
    case Some(f) => Some(ResultOfHalf(f))
  }

  function SecondHalfResult(m: Match): (r: Option<string>)
    ensures r.Some? <==> m.secondHalf.Some?
  {
    match m.secondHalf
    case None => None
    case Some(s) => Some(ResultOfHalf(s))
  }

  /** `_has_home_score_both_halves`: `and` stops at a goalless first half without reading the second. */
  function HasHomeScoreBothHalves(m: Match): Option<bool>
  {
    match m.firstHalf
    case None => None
    case Some(f) =>
      if !(f.homeGoals > 0) then Some(false)
      else match m.secondHalf
        case None => None
        case Some(s) => Some(s.homeGoals > 0)
  }

  function HasAwayScoreBothHalves(m: Match): Option<bool>
  {
    match m.firstHalf
    case None => None
    case Some(f) =>
      if !(f.awayGoals > 0) then Some(false)
      else match m.secondHalf
        case None => None
        case Some(s) => Some(s.awayGoals > 0)
  }

  /** Both halves are read before `or`/`and` combine the two results. */
  function BothHalves(m: Match): Option<(HalfStats, HalfStats)>
  {
    if m.firstHalf.Some? && m.secondHalf.Some? then Some((m.firstHalf.value, m.secondHalf.value)) else None
  }

  function HomeWonEitherHalfOf(m: Match): Option<bool>
  {
    match BothHalves(m)
    case None => None
    case Some((f, s)) => Some(f.homeGoals > f.awayGoals || s.homeGoals > s.awayGoals)
  }

  function AwayWonEitherHalfOf(m: Match): Option<bool>
  {
    match BothHalves(m)
    case None => None
    case Some((f, s)) => Some(f.awayGoals > f.homeGoals || s.awayGoals > s.homeGoals)
  }

  function HomeWonBothHalvesOf(m: Match): Option<bool>
  {
    match BothHalves(m)
    case None => None
    case Some((f, s)) => Some(f.homeGoals > f.awayGoals && s.homeGoals > s.awayGoals)
  }

  function AwayWonBothHalvesOf(m: Match): Option<bool>
  {
    match BothHalves(m)
    case None => None
    case Some((f, s)) => Some(f.awayGoals > f.homeGoals && s.awayGoals > s.homeGoals)
  }

  /** `_highest_scoring_half`: "first", "second" or "equal" by the goals of each half. */
  function HighestScoringHalf(m: Match): Option<string>
  {
    match BothHalves(m)
    case None => None
    case Some((f, s)) =>
      var first := f.homeGoals + f.awayGoals;
      var second := s.homeGoals + s.awayGoals;
      if first > second then Some("first")
      else if second > first then Some("second")
      else Some("equal")
  }

  function FirstHalfBtts(m: Match): Option<bool>
  {
    match m.firstHalf
    case None => None
    case Some(f) => Some(f.homeGoals > 0 && f.awayGoals > 0)
  }

  function SecondHalfBtts(m: Match): Option<bool>
  {
    match m.secondHalf
    case None => None
    case Some(s) => Some(s.homeGoals > 0 && s.awayGoals > 0)
  }

  /** `_btts_both_halves`: the second half is only read when both teams scored in the first. */
  function BttsBothHalvesOf(m: Match): Option<bool>
  {
    match FirstHalfBtts(m)
    case None => None
    case Some(false) => Some(false)
    case Some(true) => SecondHalfBtts(m)
  }

  function BothHalvesOver15(m: Match): Option<bool>
  {
    match BothHalves(m)
    case None => None
    case Some((f, s)) =>
      Some((f.homeGoals + f.awayGoals) as real > 1.5 && (s.homeGoals + s.awayGoals) as real > 1.5)
  }

  function BothHalvesUnder15(m: Match): Option<bool>
  {
    match BothHalves(m)
    case None => None
    case Some((f, s)) =>
      Some((f.homeGoals + f.awayGoals) as real < 1.5 && (s.homeGoals + s.awayGoals) as real < 1.5)
  }

  /** `_get_halftime_fulltime`: first-half result and full-time result joined by "_". */
  function HalftimeFulltime(m: Match): Option<string>
  {
    match FirstHalfResult(m)
    case None => None
    case Some(h) =>
      var full := if m.scoreHome > m.scoreAway then "home"
        else if m.scoreAway > m.scoreHome then "away" else "draw";
      Some(h + "_" + full)
  }

  /** `_half_gg_ng`: both-teams-scored flags of the two halves as "no_no", "yes_no", "yes_yes" or "no_yes". */
  function HalfGgNg(m: Match): Option<string>
  {
    match (FirstHalfBtts(m), SecondHalfBtts(m))
    case (Some(first), Some(second)) =>
      if !first && !second then Some("no_no")
      else if first && !second then Some("yes_no")
      else if first && second then Some("yes_yes")
      else Some("no_yes")
    case _ => None
  }

  function HalfValue(t: HalfTest, m: Match): Option<bool>
  {
    match t
    case HomeScoreBothHalves => HasHomeScoreBothHalves(m)
    case AwayScoreBothHalves => HasAwayScoreBothHalves(m)
    case HomeWonEitherHalf => HomeWonEitherHalfOf(m)
    case AwayWonEitherHalf => AwayWonEitherHalfOf(m)
    case HomeWonBothHalves => HomeWonBothHalvesOf(m)
    case AwayWonBothHalves => AwayWonBothHalvesOf(m)
    case BttsBothHalves => BttsBothHalvesOf(m)
    case HighestScoringIs(expected) =>
      match HighestScoringHalf(m)
      case None => None
      case Some(h) => Some(h == expected)
  }

  /** Evaluating a condition on a match; `None` where the lambda raises. */
  function Holds(c: Condition, m: Match): Option<bool>
  {
    match c
    case Cmp(q, op, bound) => Some(Compare(QuantityOf(q, m) as real, op, bound))
    case CmpScores(op) => Some(Compare(m.scoreHome as real, op, m.scoreAway as real))
    case Mod2Is(q, rem) => Some(QuantityOf(q, m) % 2 == rem)
    case And(a, b) =>
      (match Holds(a, m)
       case None => None
       case Some(false) => Some(false)
       case Some(true) => Holds(b, m))
    case Or(a, b) =>
      (match Holds(a, m)
       case None => None
       case Some(true) => Some(true)
       case Some(false) => Holds(b, m))
    case Not(a) =>
      (match Holds(a, m)
       case None => None
       case Some(v) => Some(!v))
    case Half(t) => HalfValue(t, m)
  }

  // ---------------------------------------------------------------------
  // The active catalogue

  /** `--- total_goals_exact ---` */
  const TotalGoalsExactEntries: seq<EventCondition> := [
    EventCondition("total_goals_0", "Total goals = 0", "total_goals_exact", Goals,
      Cmp(Total, Eq, 0.0)),
    EventCondition("total_goals_1", "Total goals = 1", "total_goals_exact", Goals,
      Cmp(Total, Eq, 1.0)),
    EventCondition("total_goals_2", "Total goals = 2", "total_goals_exact", Goals,
      Cmp(Total, Eq, 2.0)),
    EventCondition("total_goals_3", "Total goals = 3", "total_goals_exact", Goals,
      Cmp(Total, Eq, 3.0)),
    EventCondition("total_goals_4", "Total goals = 4", "total_goals_exact", Goals,
      Cmp(Total, Eq, 4.0)),
    EventCondition("total_goals_5_plus", "Total goals ≥ 5", "total_goals_exact", Goals,
      Cmp(Total, Ge, 5.0))
  ]

  /** `--- total_goals_over_under ---` */
  const TotalGoalsOverUnderEntries: seq<EventCondition> := [
    EventCondition("over_0_5_goals", "Total goals over 0.5", "total_goals_over_under", Goals,
      Cmp(Total, Gt, 0.5)),
    EventCondition("over_1_5_goals", "Total goals over 1.5", "total_goals_over_under", Goals,
      Cmp(Total, Gt, 1.5)),
    EventCondition("over_2_5_goals", "Total goals over 2.5", "total_goals_over_under", Goals,
      Cmp(Total, Gt, 2.5)),
    EventCondition("over_3_5_goals", "Total goals over 3.5", "total_goals_over_under", Goals,
      Cmp(Total, Gt, 3.5)),
    EventCondition("over_4_5_goals", "Total goals over 4.5", "total_goals_over_under", Goals,
      Cmp(Total, Gt, 4.5)),
    EventCondition("over_5_5_goals", "Total goals over 5.5", "total_goals_over_under", Goals,
      Cmp(Total, Gt, 5.5)),
    EventCondition("under_0_5_goals", "Total goals under 0.5", "total_goals_over_under", Goals,
      Cmp(Total, Lt, 0.5)),
    EventCondition("under_1_5_goals", "Total goals under 1.5", "total_goals_over_under", Goals,
      Cmp(Total, Lt, 1.5)),
    EventCondition("under_2_5_goals", "Total goals under 2.5", "total_goals_over_under", Goals,
      Cmp(Total, Lt, 2.5)),
    EventCondition("under_3_5_goals", "Total goals under 3.5", "total_goals_over_under", Goals,
      Cmp(Total, Lt, 3.5)),
    EventCondition("under_4_5_goals", "Total goals under 4.5", "total_goals_over_under", Goals,
      Cmp(Total, Lt, 4.5)),
    EventCondition("under_5_5_goals", "Total goals under 5.5", "total_goals_over_under", Goals,
      Cmp(Total, Lt, 5.5))
  ]

  /** `--- btts ---` */
  const BttsEntries: seq<EventCondition> := [
    EventCondition("btts_yes", "Both teams to score (Yes)", "btts", Goals,
      And(Cmp(Home, Gt, 0.0), Cmp(Away, Gt, 0.0))),
    EventCondition("btts_no", "Both teams to score (No)", "btts", Goals,
      Or(Cmp(Home, Eq, 0.0), Cmp(Away, Eq, 0.0)))
  ]

  /** `--- clean_sheet ---` */
  const CleanSheetEntries: seq<EventCondition> := [
    EventCondition("clean_sheet_home", "Home team clean sheet", "clean_sheet", Goals,
      Cmp(Away, Eq, 0.0)),
    EventCondition("clean_sheet_away", "Away team clean sheet", "clean_sheet", Goals,
      Cmp(Home, Eq, 0.0))
  ]

  /** `--- win_to_nil ---` */
  const WinToNilEntries: seq<EventCondition> := [
    EventCondition("home_win_to_nil", "Home team win to nil", "win_to_nil", Goals,
      And(Cmp(Home, Gt, 0.0), Cmp(Away, Eq, 0.0))),
    EventCondition("away_win_to_nil", "Away team win to nil", "win_to_nil", Goals,
      And(Cmp(Away, Gt, 0.0), Cmp(Home, Eq, 0.0)))
  ]

  /** `--- team_total_goals ---` */
  const TeamTotalGoalsEntries: seq<EventCondition> := [
    EventCondition("home_over_0_5", "Home team over 0.5 goals", "team_total_goals_home", Goals,
      Cmp(Home, Gt, 0.5)),
    EventCondition("home_over_1_5", "Home team over 1.5 goals", "team_total_goals_home", Goals,
      Cmp(Home, Gt, 1.5)),
    EventCondition("home_over_2_5", "Home team over 2.5 goals", "team_total_goals_home", Goals,
      Cmp(Home, Gt, 2.5)),
    EventCondition("away_over_0_5", "Away team over 0.5 goals", "team_total_goals_away", Goals,
      Cmp(Away, Gt, 0.5)),
    EventCondition("away_over_1_5", "Away team over 1.5 goals", "team_total_goals_away", Goals,
      Cmp(Away, Gt, 1.5)),
    EventCondition("away_over_2_5", "Away team over 2.5 goals", "team_total_goals_away", Goals,
      Cmp(Away, Gt, 2.5))
  ]

  /** `--- goal_range ---` */
  const GoalRangeEntries: seq<EventCondition> := [
    EventCondition("goal_range_0_1", "Goal range 0-1", "goal_range", Goals,
      And(Cmp(Total, Ge, 0.0), Cmp(Total, Le, 1.0))),
    EventCondition("goal_range_2_3", "Goal range 2-3", "goal_range", Goals,
      And(Cmp(Total, Ge, 2.0), Cmp(Total, Le, 3.0))),
    EventCondition("goal_range_4_6", "Goal range 4-6", "goal_range", Goals,
      And(Cmp(Total, Ge, 4.0), Cmp(Total, Le, 6.0))),
    EventCondition("goal_range_7_plus", "Goal range 7+", "goal_range", Goals,
      Cmp(Total, Ge, 7.0))
  ]

  /** `--- teams_to_score ---` */
  const TeamsToScoreEntries: seq<EventCondition> := [
    EventCondition("teams_to_score_none", "No team scores", "teams_to_score", Goals,
      And(Cmp(Home, Eq, 0.0), Cmp(Away, Eq, 0.0))),
    EventCondition("teams_to_score_only_home", "Only home team scores", "teams_to_score", Goals,
      And(Cmp(Home, Gt, 0.0), Cmp(Away, Eq, 0.0))),
    EventCondition("teams_to_score_only_away", "Only away team scores", "teams_to_score", Goals,
      And(Cmp(Away, Gt, 0.0), Cmp(Home, Eq, 0.0))),
    EventCondition("teams_to_score_both", "Both teams score", "teams_to_score", Goals,
      And(Cmp(Home, Gt, 0.0), Cmp(Away, Gt, 0.0)))
  ]

  /** `--- odd_even ---` */
  const OddEvenEntries: seq<EventCondition> := [
    EventCondition("total_goals_odd", "Total goals odd", "odd_even", Goals,
      Mod2Is(Total, 1)),
    EventCondition("total_goals_even", "Total goals even", "odd_even", Goals,
      Mod2Is(Total, 0)),
    EventCondition("home_goals_odd", "Home team goals odd", "odd_even", Goals,
      Mod2Is(Home, 1)),
    EventCondition("home_goals_even", "Home team goals even", "odd_even", Goals,
      Mod2Is(Home, 0)),
    EventCondition("away_goals_odd", "Away team goals odd", "odd_even", Goals,
      Mod2Is(Away, 1)),
    EventCondition("away_goals_even", "Away team goals even", "odd_even", Goals,
      Mod2Is(Away, 0))
  ]

  /** `--- exact_goals_home ---` */
  const ExactGoalsHomeEntries: seq<EventCondition> := [
    EventCondition("home_goals_0", "Home team 0 goals", "exact_goals_home", Goals,
      Cmp(Home, Eq, 0.0)),
    EventCondition("home_goals_1", "Home team 1 goal", "exact_goals_home", Goals,
      Cmp(Home, Eq, 1.0)),
    EventCondition("home_goals_2", "Home team 2 goals", "exact_goals_home", Goals,
      Cmp(Home, Eq, 2.0)),
    EventCondition("home_goals_3_plus", "Home team 3+ goals", "exact_goals_home", Goals,
      Cmp(Home, Ge, 3.0))
  ]

  /** `--- exact_goals_away ---` */
  const ExactGoalsAwayEntries: seq<EventCondition> := [
    EventCondition("away_goals_0", "Away team 0 goals", "exact_goals_away", Goals,
      Cmp(Away, Eq, 0.0)),
    EventCondition("away_goals_1", "Away team 1 goal", "exact_goals_away", Goals,
      Cmp(Away, Eq, 1.0)),
    EventCondition("away_goals_2", "Away team 2 goals", "exact_goals_away", Goals,
      Cmp(Away, Eq, 2.0)),
    EventCondition("away_goals_3_plus", "Away team 3+ goals", "exact_goals_away", Goals,
      Cmp(Away, Ge, 3.0))
  ]

  /** `--- winning_margin ---` */
  const WinningMarginEntries: seq<EventCondition> := [
    EventCondition("win_margin_home_1", "Home win by 1 goal", "winning_margin", Goals,
      Cmp(HomeMargin, Eq, 1.0)),
    EventCondition("win_margin_home_2", "Home win by 2 goals", "winning_margin", Goals,
      Cmp(HomeMargin, Eq, 2.0)),
    EventCondition("win_margin_home_3_plus", "Home win by 3+ goals", "winning_margin", Goals,
      Cmp(HomeMargin, Ge, 3.0)),
    EventCondition("win_margin_away_1", "Away win by 1 goal", "winning_margin", Goals,
      Cmp(AwayMargin, Eq, 1.0)),
    EventCondition("win_margin_away_2", "Away win by 2 goals", "winning_margin", Goals,
      Cmp(AwayMargin, Eq, 2.0)),
    EventCondition("win_margin_away_3_plus", "Away win by 3+ goals", "winning_margin", Goals,
      Cmp(AwayMargin, Ge, 3.0)),
    EventCondition("win_margin_draw", "Draw", "winning_margin", Goals,
      CmpScores(Eq))
  ]

  /** `--- score_both_halves ---` */
  const ScoreBothHalvesEntries: seq<EventCondition> := [
    EventCondition("home_score_both_halves", "Home team scores in both halves", "score_both_halves", Goals,
      Half(HomeScoreBothHalves)),
    EventCondition("away_score_both_halves", "Away team scores in both halves", "score_both_halves", Goals,
      Half(AwayScoreBothHalves))
  ]

  /** `--- win_either_half ---` */
  const WinEitherHalfEntries: seq<EventCondition> := [
    EventCondition("home_win_either_half", "Home team wins either half", "win_either_half", Goals,
      Half(HomeWonEitherHalf)),
    EventCondition("away_win_either_half", "Away team wins either half", "win_either_half", Goals,
      Half(AwayWonEitherHalf))
  ]

  /** `--- win_both_halves ---` */
  const WinBothHalvesEntries: seq<EventCondition> := [
    EventCondition("home_win_both_halves", "Home team wins both halves", "win_both_halves", Goals,
      Half(HomeWonBothHalves)),
    EventCondition("away_win_both_halves", "Away team wins both halves", "win_both_halves", Goals,
      Half(AwayWonBothHalves))
  ]

  /** `--- highest_scoring_half ---` */
  const HighestScoringHalfEntries: seq<EventCondition> := [
    EventCondition("highest_scoring_first", "First half highest scoring", "highest_scoring_half", Goals,
      Half(HighestScoringIs("first"))),
    EventCondition("highest_scoring_second", "Second half highest scoring", "highest_scoring_half", Goals,
      Half(HighestScoringIs("second"))),
    EventCondition("highest_scoring_equal", "Equal scoring halves", "highest_scoring_half", Goals,
      Half(HighestScoringIs("equal")))
  ]

  /** `--- btts_both_halves ---` */
  const BttsBothHalvesEntries: seq<EventCondition> := [
    EventCondition("btts_both_halves_yes", "Both teams score in both halves", "btts_both_halves", Goals,
      Half(BttsBothHalves)),
    EventCondition("btts_both_halves_no", "Not both teams score in both halves", "btts_both_halves", Goals,
      Not(Half(BttsBothHalves)))
  ]

  /** `--- no_draw_btts ---` */
  const NoDrawBttsEntries: seq<EventCondition> := [
    EventCondition("no_draw_btts_yes", "No draw & both teams score", "no_draw_btts", Goals,
      And(And(CmpScores(Ne), Cmp(Home, Gt, 0.0)), Cmp(Away, Gt, 0.0))),
    EventCondition("no_draw_btts_no", "Draw or clean sheet", "no_draw_btts", Goals,
      Or(Or(CmpScores(Eq), Cmp(Home, Eq, 0.0)), Cmp(Away, Eq, 0.0)))
  ]

  /** `--- goal_bounds ---` */
  const GoalBoundsEntries: seq<EventCondition> := [
    EventCondition("goal_bounds_0", "Goal bounds: 0 goals", "goal_bounds", Goals,
      Cmp(Total, Eq, 0.0)),
    EventCondition("goal_bounds_0_1", "Goal bounds: 0-1 goals", "goal_bounds", Goals,
      And(Cmp(Total, Ge, 0.0), Cmp(Total, Le, 1.0))),
    EventCondition("goal_bounds_0_2", "Goal bounds: 0-2 goals", "goal_bounds", Goals,
      And(Cmp(Total, Ge, 0.0), Cmp(Total, Le, 2.0))),
    EventCondition("goal_bounds_1", "Goal bounds: 1 goal", "goal_bounds", Goals,
      Cmp(Total, Eq, 1.0)),
    EventCondition("goal_bounds_1_2", "Goal bounds: 1-2 goals", "goal_bounds", Goals,
      And(Cmp(Total, Ge, 1.0), Cmp(Total, Le, 2.0))),
    EventCondition("goal_bounds_1_3", "Goal bounds: 1-3 goals", "goal_bounds", Goals,
      And(Cmp(Total, Ge, 1.0), Cmp(Total, Le, 3.0))),
    EventCondition("goal_bounds_2", "Goal bounds: 2 goals", "goal_bounds", Goals,
      Cmp(Total, Eq, 2.0)),
    EventCondition("goal_bounds_2_3", "Goal bounds: 2-3 goals", "goal_bounds", Goals,
      And(Cmp(Total, Ge, 2.0), Cmp(Total, Le, 3.0))),
    EventCondition("goal_bounds_3", "Goal bounds: 3 goals", "goal_bounds", Goals,
      Cmp(Total, Eq, 3.0)),
    EventCondition("goal_bounds_3_4", "Goal bounds: 3-4 goals", "goal_bounds", Goals,
      And(Cmp(Total, Ge, 3.0), Cmp(Total, Le, 4.0))),
    EventCondition("goal_bounds_4", "Goal bounds: 4 goals", "goal_bounds", Goals,
      Cmp(Total, Eq, 4.0)),
    EventCondition("goal_bounds_4_5_plus", "Goal bounds: 4-5+ goals", "goal_bounds", Goals,
      Cmp(Total, Ge, 4.0)),
    EventCondition("goal_bounds_5_plus", "Goal bounds: 5+ goals", "goal_bounds", Goals,
      Cmp(Total, Ge, 5.0))
  ]

  /** `--- excluded_goals ---` */
  const ExcludedGoalsEntries: seq<EventCondition> := [
    EventCondition("excluded_goals_0", "Excluded: 0 goals", "excluded_goals", Goals,
      Cmp(Total, Ne, 0.0)),
    EventCondition("excluded_goals_1", "Excluded: 1 goal", "excluded_goals", Goals,
      Cmp(Total, Ne, 1.0)),
    EventCondition("excluded_goals_2", "Excluded: 2 goals", "excluded_goals", Goals,
      Cmp(Total, Ne, 2.0)),
    EventCondition("excluded_goals_3", "Excluded: 3 goals", "excluded_goals", Goals,
      Cmp(Total, Ne, 3.0)),
    EventCondition("excluded_goals_4", "Excluded: 4 goals", "excluded_goals", Goals,
      Cmp(Total, Ne, 4.0)),
    EventCondition("excluded_goals_5_plus", "Excluded: 5+ goals", "excluded_goals", Goals,
      Cmp(Total, Lt, 5.0))
  ]

  /** `--- multigoals ---` */
  const MultigoalsEntries: seq<EventCondition> := [
    EventCondition("multigoals_1_2", "Multigoals: 1-2 goals", "multigoals", Goals,
      And(Cmp(Total, Ge, 1.0), Cmp(Total, Le, 2.0))),
    EventCondition("multigoals_1_3", "Multigoals: 1-3 goals", "multigoals", Goals,
      And(Cmp(Total, Ge, 1.0), Cmp(Total, Le, 3.0))),
    EventCondition("multigoals_1_4", "Multigoals: 1-4 goals", "multigoals", Goals,
      And(Cmp(Total, Ge, 1.0), Cmp(Total, Le, 4.0))),
    EventCondition("multigoals_2_3", "Multigoals: 2-3 goals", "multigoals", Goals,
      And(Cmp(Total, Ge, 2.0), Cmp(Total, Le, 3.0))),
    EventCondition("multigoals_2_4", "Multigoals: 2-4 goals", "multigoals", Goals,
      And(Cmp(Total, Ge, 2.0), Cmp(Total, Le, 4.0))),
    EventCondition("multigoals_3_4", "Multigoals: 3-4 goals", "multigoals", Goals,
      And(Cmp(Total, Ge, 3.0), Cmp(Total, Le, 4.0))),
    EventCondition("multigoals_4_5", "Multigoals: 4-5 goals", "multigoals", Goals,
      And(Cmp(Total, Ge, 4.0), Cmp(Total, Le, 5.0))),
    EventCondition("multigoals_5_6", "Multigoals: 5-6 goals", "multigoals", Goals,
      And(Cmp(Total, Ge, 5.0), Cmp(Total, Le, 6.0))),
    EventCondition("multigoals_7_plus", "Multigoals: 7+ goals", "multigoals", Goals,
      Cmp(Total, Ge, 7.0)),
    EventCondition("multigoals_no_goal", "Multigoals: No goal", "multigoals", Goals,
      Cmp(Total, Eq, 0.0))
  ]

  /** The active entries of `get_all_patterns`, in catalogue order. */
  const Catalogue: seq<EventCondition> :=
    TotalGoalsExactEntries + TotalGoalsOverUnderEntries + BttsEntries + CleanSheetEntries + WinToNilEntries + TeamTotalGoalsEntries + GoalRangeEntries + TeamsToScoreEntries + OddEvenEntries + ExactGoalsHomeEntries + ExactGoalsAwayEntries + WinningMarginEntries + ScoreBothHalvesEntries + WinEitherHalfEntries + WinBothHalvesEntries + HighestScoringHalfEntries + BttsBothHalvesEntries + NoDrawBttsEntries + GoalBoundsEntries + ExcludedGoalsEntries + MultigoalsEntries

  // ---------------------------------------------------------------------
  // Which entries fire

  /** The names, in order, of the entries whose condition holds; an entry that raises is skipped. */
  function Firing(pats: seq<EventCondition>, m: Match): (r: seq<string>)
    ensures |r| <= |pats|
  {
    if pats == [] then []
    else (if Holds(pats[0].condition, m) == Some(true) then [pats[0].name] else []) + Firing(pats[1..], m)
  }

  lemma {:induction false} FiringAppend(a: seq<EventCondition>, b: seq<EventCondition>, m: Match)
    ensures Firing(a + b, m) == Firing(a, m) + Firing(b, m)
  {
    if a != [] {
      assert (a + b)[1..] == a[1..] + b;
      FiringAppend(a[1..], b, m);
    } else {
      assert a + b == b;
    }
  }

  /** One step of `Firing` at position k. */
  lemma FiringFrom(pats: seq<EventCondition>, k: nat, m: Match)
    requires k < |pats|
    ensures Firing(pats[k..], m) ==
      (if Holds(pats[k].condition, m) == Some(true) then [pats[k].name] else []) + Firing(pats[k + 1..], m)
  {
    assert pats[k..][1..] == pats[k + 1..];
  }

  predicate AllGoals(pats: seq<EventCondition>)
  {
    forall i :: 0 <= i < |pats| ==> pats[i].eventType == Goals
  }

  lemma AllGoalsAppend(a: seq<EventCondition>, b: seq<EventCondition>)
    requires AllGoals(a) && AllGoals(b)
    ensures AllGoals(a + b)
  {
    forall i | 0 <= i < |a + b| ensures (a + b)[i].eventType == Goals {
      if i >= |a| {
        assert (a + b)[i] == b[i - |a|];
      }
    }
  }

  /** The first eleven families of the catalogue are all tagged `EventType.GOALS`. */
  lemma CatalogueHeadAllGoals()
    ensures AllGoals(TotalGoalsExactEntries + TotalGoalsOverUnderEntries + BttsEntries + CleanSheetEntries + WinToNilEntries + TeamTotalGoalsEntries + GoalRangeEntries + TeamsToScoreEntries + OddEvenEntries + ExactGoalsHomeEntries + ExactGoalsAwayEntries)
  {
    assert AllGoals(TotalGoalsExactEntries);
    assert AllGoals(TotalGoalsOverUnderEntries);
    AllGoalsAppend(TotalGoalsExactEntries, TotalGoalsOverUnderEntries);
    assert AllGoals(BttsEntries);
    AllGoalsAppend(TotalGoalsExactEntries + TotalGoalsOverUnderEntries, BttsEntries);
    assert AllGoals(CleanSheetEntries);
    AllGoalsAppend(TotalGoalsExactEntries + TotalGoalsOverUnderEntries + BttsEntries, CleanSheetEntries);
    assert AllGoals(WinToNilEntries);
    AllGoalsAppend(TotalGoalsExactEntries + TotalGoalsOverUnderEntries + BttsEntries + CleanSheetEntries, WinToNilEntries);
    assert AllGoals(TeamTotalGoalsEntries);
    AllGoalsAppend(TotalGoalsExactEntries + TotalGoalsOverUnderEntries + BttsEntries + CleanSheetEntries + WinToNilEntries, TeamTotalGoalsEntries);
    assert AllGoals(GoalRangeEntries);
    AllGoalsAppend(TotalGoalsExactEntries + TotalGoalsOverUnderEntries + BttsEntries + CleanSheetEntries + WinToNilEntries + TeamTotalGoalsEntries, GoalRangeEntries);
    assert AllGoals(TeamsToScoreEntries);
    AllGoalsAppend(TotalGoalsExactEntries + TotalGoalsOverUnderEntries + BttsEntries + CleanSheetEntries + WinToNilEntries + TeamTotalGoalsEntries + GoalRangeEntries, TeamsToScoreEntries);
    assert AllGoals(OddEvenEntries);
    AllGoalsAppend(TotalGoalsExactEntries + TotalGoalsOverUnderEntries + BttsEntries + CleanSheetEntries + WinToNilEntries + TeamTotalGoalsEntries + GoalRangeEntries + TeamsToScoreEntries, OddEvenEntries);
    assert AllGoals(ExactGoalsHomeEntries);
    AllGoalsAppend(TotalGoalsExactEntries + TotalGoalsOverUnderEntries + BttsEntries + CleanSheetEntries + WinToNilEntries + TeamTotalGoalsEntries + GoalRangeEntries + TeamsToScoreEntries + OddEvenEntries, ExactGoalsHomeEntries);
    assert AllGoals(ExactGoalsAwayEntries);
    AllGoalsAppend(TotalGoalsExactEntries + TotalGoalsOverUnderEntries + BttsEntries + CleanSheetEntries + WinToNilEntries + TeamTotalGoalsEntries + GoalRangeEntries + TeamsToScoreEntries + OddEvenEntries + ExactGoalsHomeEntries, ExactGoalsAwayEntries);
  }

  /** Every active catalogue entry is tagged `EventType.GOALS`. */
  lemma CatalogueAllGoals()
    ensures |Catalogue| == 101
    ensures forall i :: 0 <= i < |Catalogue| ==> Catalogue[i].eventType == Goals
  {
    CatalogueHeadAllGoals();
    assert AllGoals(WinningMarginEntries);
    AllGoalsAppend(TotalGoalsExactEntries + TotalGoalsOverUnderEntries + BttsEntries + CleanSheetEntries + WinToNilEntries + TeamTotalGoalsEntries + GoalRangeEntries + TeamsToScoreEntries + OddEvenEntries + ExactGoalsHomeEntries + ExactGoalsAwayEntries, WinningMarginEntries);
    assert AllGoals(ScoreBothHalvesEntries);
    AllGoalsAppend(TotalGoalsExactEntries + TotalGoalsOverUnderEntries + BttsEntries + CleanSheetEntries + WinToNilEntries + TeamTotalGoalsEntries + GoalRangeEntries + TeamsToScoreEntries + OddEvenEntries + ExactGoalsHomeEntries + ExactGoalsAwayEntries + WinningMarginEntries, ScoreBothHalvesEntries);
    assert AllGoals(WinEitherHalfEntries);
    AllGoalsAppend(TotalGoalsExactEntries + TotalGoalsOverUnderEntries + BttsEntries + CleanSheetEntries + WinToNilEntries + TeamTotalGoalsEntries + GoalRangeEntries + TeamsToScoreEntries + OddEvenEntries + ExactGoalsHomeEntries + ExactGoalsAwayEntries + WinningMarginEntries + ScoreBothHalvesEntries, WinEitherHalfEntries);
    assert AllGoals(WinBothHalvesEntries);
    AllGoalsAppend(TotalGoalsExactEntries + TotalGoalsOverUnderEntries + BttsEntries + CleanSheetEntries + WinToNilEntries + TeamTotalGoalsEntries + GoalRangeEntries + TeamsToScoreEntries + OddEvenEntries + ExactGoalsHomeEntries + ExactGoalsAwayEntries + WinningMarginEntries + ScoreBothHalvesEntries + WinEitherHalfEntries, WinBothHalvesEntries);
    assert AllGoals(HighestScoringHalfEntries);
    AllGoalsAppend(TotalGoalsExactEntries + TotalGoalsOverUnderEntries + BttsEntries + CleanSheetEntries + WinToNilEntries + TeamTotalGoalsEntries + GoalRangeEntries + TeamsToScoreEntries + OddEvenEntries + ExactGoalsHomeEntries + ExactGoalsAwayEntries + WinningMarginEntries + ScoreBothHalvesEntries + WinEitherHalfEntries + WinBothHalvesEntries, HighestScoringHalfEntries);
    assert AllGoals(BttsBothHalvesEntries);
    AllGoalsAppend(TotalGoalsExactEntries + TotalGoalsOverUnderEntries + BttsEntries + CleanSheetEntries + WinToNilEntries + TeamTotalGoalsEntries + GoalRangeEntries + TeamsToScoreEntries + OddEvenEntries + ExactGoalsHomeEntries + ExactGoalsAwayEntries + WinningMarginEntries + ScoreBothHalvesEntries + WinEitherHalfEntries + WinBothHalvesEntries + HighestScoringHalfEntries, BttsBothHalvesEntries);
    assert AllGoals(NoDrawBttsEntries);
    AllGoalsAppend(TotalGoalsExactEntries + TotalGoalsOverUnderEntries + BttsEntries + CleanSheetEntries + WinToNilEntries + TeamTotalGoalsEntries + GoalRangeEntries + TeamsToScoreEntries + OddEvenEntries + ExactGoalsHomeEntries + ExactGoalsAwayEntries + WinningMarginEntries + ScoreBothHalvesEntries + WinEitherHalfEntries + WinBothHalvesEntries + HighestScoringHalfEntries + BttsBothHalvesEntries, NoDrawBttsEntries);
    assert AllGoals(GoalBoundsEntries);
    AllGoalsAppend(TotalGoalsExactEntries + TotalGoalsOverUnderEntries + BttsEntries + CleanSheetEntries + WinToNilEntries + TeamTotalGoalsEntries + GoalRangeEntries + TeamsToScoreEntries + OddEvenEntries + ExactGoalsHomeEntries + ExactGoalsAwayEntries + WinningMarginEntries + ScoreBothHalvesEntries + WinEitherHalfEntries + WinBothHalvesEntries + HighestScoringHalfEntries + BttsBothHalvesEntries + NoDrawBttsEntries, GoalBoundsEntries);
    assert AllGoals(ExcludedGoalsEntries);
    AllGoalsAppend(TotalGoalsExactEntries + TotalGoalsOverUnderEntries + BttsEntries + CleanSheetEntries + WinToNilEntries + TeamTotalGoalsEntries + GoalRangeEntries + TeamsToScoreEntries + OddEvenEntries + ExactGoalsHomeEntries + ExactGoalsAwayEntries + WinningMarginEntries + ScoreBothHalvesEntries + WinEitherHalfEntries + WinBothHalvesEntries + HighestScoringHalfEntries + BttsBothHalvesEntries + NoDrawBttsEntries + GoalBoundsEntries, ExcludedGoalsEntries);
    assert AllGoals(MultigoalsEntries);
    AllGoalsAppend(TotalGoalsExactEntries + TotalGoalsOverUnderEntries + BttsEntries + CleanSheetEntries + WinToNilEntries + TeamTotalGoalsEntries + GoalRangeEntries + TeamsToScoreEntries + OddEvenEntries + ExactGoalsHomeEntries + ExactGoalsAwayEntries + WinningMarginEntries + ScoreBothHalvesEntries + WinEitherHalfEntries + WinBothHalvesEntries + HighestScoringHalfEntries + BttsBothHalvesEntries + NoDrawBttsEntries + GoalBoundsEntries + ExcludedGoalsEntries, MultigoalsEntries);
  }

  // ---------------------------------------------------------------------
  // Partitions and complements

  function Digit(x: nat): string
    requires x < 10
  {
    [('0' as int + x) as char]
  }

  /** `over_X_5_goals` holds iff the total is at least X+1 and `under_X_5_goals` iff it is at most X: exactly one of each pair. */
  lemma OverUnderThresholds(m: Match, x: nat)
    requires x <= 5
    ensures Holds(TotalGoalsOverUnderEntries[x].condition, m) == Some(TotalGoals(m) >= x + 1)
    ensures Holds(TotalGoalsOverUnderEntries[6 + x].condition, m) == Some(TotalGoals(m) <= x)
  {
    var e := TotalGoalsOverUnderEntries;
    if x == 0 {
      assert e[0].condition == Cmp(Total, Gt, 0.5) && e[6].condition == Cmp(Total, Lt, 0.5);
    } else if x == 1 {
      assert e[1].condition == Cmp(Total, Gt, 1.5) && e[7].condition == Cmp(Total, Lt, 1.5);
    } else if x == 2 {
      assert e[2].condition == Cmp(Total, Gt, 2.5) && e[8].condition == Cmp(Total, Lt, 2.5);
    } else if x == 3 {
      assert e[3].condition == Cmp(Total, Gt, 3.5) && e[9].condition == Cmp(Total, Lt, 3.5);
    } else if x == 4 {
      assert e[4].condition == Cmp(Total, Gt, 4.5) && e[10].condition == Cmp(Total, Lt, 4.5);
    } else {
      assert e[5].condition == Cmp(Total, Gt, 5.5) && e[11].condition == Cmp(Total, Lt, 5.5);
    }
  }

  /** For a non-negative total exactly one `total_goals_exact` entry fires: the one naming the total, or `5_plus`. */
  lemma TotalGoalsExactPartition(m: Match)
    requires TotalGoals(m) >= 0
    ensures Firing(TotalGoalsExactEntries, m) ==
      [if TotalGoals(m) >= 5 then "total_goals_5_plus" else "total_goals_" + Digit(TotalGoals(m))]
  {
    TotalGoalsExactLow(m);
    TotalGoalsExactHigh(m);
    var t := TotalGoals(m);
    if t == 0 {
      assert "total_goals_" + Digit(0) == "total_goals_0";
    } else if t == 1 {
      assert "total_goals_" + Digit(1) == "total_goals_1";
    } else if t == 2 {
      assert "total_goals_" + Digit(2) == "total_goals_2";
    } else if t == 3 {
      assert "total_goals_" + Digit(3) == "total_goals_3";
    } else if t == 4 {
      assert "total_goals_" + Digit(4) == "total_goals_4";
    }
  }

  /** The entries for totals 0, 1 and 2. */
  lemma TotalGoalsExactLow(m: Match)
    ensures var t := TotalGoals(m);
      Firing(TotalGoalsExactEntries, m) ==
      (if t == 0 then ["total_goals_0"] else if t == 1 then ["total_goals_1"] else if t == 2 then ["total_goals_2"] else [])
      + Firing(TotalGoalsExactEntries[3..], m)
  {
    var e := TotalGoalsExactEntries;
    FiringFrom(e, 2, m);
    FiringFrom(e, 1, m);
    FiringFrom(e, 0, m);
    assert e[0..] == e;
  }

  /** The entries for totals 3, 4 and 5 or more. */
  lemma TotalGoalsExactHigh(m: Match)
    ensures var t := TotalGoals(m);
      Firing(TotalGoalsExactEntries[3..], m) ==
      if t == 3 then ["total_goals_3"] else if t == 4 then ["total_goals_4"] else if t >= 5 then ["total_goals_5_plus"] else []
  {
    var e := TotalGoalsExactEntries;
    assert e[6..] == [];
    FiringFrom(e, 5, m);
    FiringFrom(e, 4, m);
    FiringFrom(e, 3, m);
  }

  /** For a non-negative total exactly one `goal_range` entry fires. */
  lemma GoalRangePartition(m: Match)
    requires TotalGoals(m) >= 0
    ensures var t := TotalGoals(m);
      Firing(GoalRangeEntries, m) ==
      [if t <= 1 then "goal_range_0_1" else if t <= 3 then "goal_range_2_3"
       else if t <= 6 then "goal_range_4_6" else "goal_range_7_plus"]
  {
    FiringFrom(GoalRangeEntries, 0, m);
    FiringFrom(GoalRangeEntries, 1, m);
    FiringFrom(GoalRangeEntries, 2, m);
    FiringFrom(GoalRangeEntries, 3, m);
    assert GoalRangeEntries[0..] == GoalRangeEntries && GoalRangeEntries[4..] == [];
  }

  /** For any integer scores exactly one of the seven `winning_margin` entries fires. */
  lemma WinningMarginPartition(m: Match)
    ensures var d := m.scoreHome - m.scoreAway;
      Firing(WinningMarginEntries, m) ==
      [if d == 1 then "win_margin_home_1" else if d == 2 then "win_margin_home_2"
       else if d >= 3 then "win_margin_home_3_plus" else if d == -1 then "win_margin_away_1"
       else if d == -2 then "win_margin_away_2" else if d <= -3 then "win_margin_away_3_plus"
       else "win_margin_draw"]
  {
    WinningMarginHome(m);
    WinningMarginAwayOrDraw(m);
  }

  /** The first three `winning_margin` entries: home wins by 1, 2 and 3+. */
  lemma WinningMarginHome(m: Match)
    ensures var d := m.scoreHome - m.scoreAway;
      Firing(WinningMarginEntries, m) ==
      (if d == 1 then ["win_margin_home_1"] else if d == 2 then ["win_margin_home_2"]
       else if d >= 3 then ["win_margin_home_3_plus"] else []) + Firing(WinningMarginEntries[3..], m)
  {
    var e := WinningMarginEntries;
    var d := m.scoreHome - m.scoreAway;
    FiringFrom(e, 2, m);
    assert Firing(e[2..], m) == (if d >= 3 then ["win_margin_home_3_plus"] else []) + Firing(e[3..], m);
    FiringFrom(e, 1, m);
    FiringFrom(e, 0, m);
    assert e[0..] == e;
  }

  /** The last four `winning_margin` entries: away wins by 1, 2, 3+ and the draw. */
  lemma WinningMarginAwayOrDraw(m: Match)
    ensures var d := m.scoreHome - m.scoreAway;
      Firing(WinningMarginEntries[3..], m) ==
      if d == -1 then ["win_margin_away_1"] else if d == -2 then ["win_margin_away_2"]
      else if d <= -3 then ["win_margin_away_3_plus"] else if d == 0 then ["win_margin_draw"] else []
  {
    var e := WinningMarginEntries;
    var d := m.scoreHome - m.scoreAway;
    assert e[7..] == [];
    FiringFrom(e, 6, m);
    assert Firing(e[6..], m) == if d == 0 then ["win_margin_draw"] else [];
    FiringFrom(e, 5, m);
    assert Firing(e[5..], m) == if d <= -3 then ["win_margin_away_3_plus"] else Firing(e[6..], m);
    FiringFrom(e, 4, m);
    assert Firing(e[4..], m) == if d == -2 then ["win_margin_away_2"] else Firing(e[5..], m);
    FiringFrom(e, 3, m);
  }

  /** `btts_yes` and `btts_no` are complementary for non-negative scores. */
  lemma BttsComplement(m: Match)
    requires m.scoreHome >= 0 && m.scoreAway >= 0
    ensures Firing(BttsEntries, m) ==
      if m.scoreHome > 0 && m.scoreAway > 0 then ["btts_yes"] else ["btts_no"]
  {
    FiringFrom(BttsEntries, 0, m);
    FiringFrom(BttsEntries, 1, m);
    assert BttsEntries[0..] == BttsEntries && BttsEntries[2..] == [];
  }

  /** Exactly one of the four `teams_to_score` entries fires for non-negative scores. */
  lemma TeamsToScorePartition(m: Match)
    requires m.scoreHome >= 0 && m.scoreAway >= 0
    ensures Firing(TeamsToScoreEntries, m) ==
      [if m.scoreHome == 0 && m.scoreAway == 0 then "teams_to_score_none"
       else if m.scoreAway == 0 then "teams_to_score_only_home"
       else if m.scoreHome == 0 then "teams_to_score_only_away"
       else "teams_to_score_both"]
  {
    FiringFrom(TeamsToScoreEntries, 0, m);
    FiringFrom(TeamsToScoreEntries, 1, m);
    FiringFrom(TeamsToScoreEntries, 2, m);
    FiringFrom(TeamsToScoreEntries, 3, m);
    assert TeamsToScoreEntries[0..] == TeamsToScoreEntries && TeamsToScoreEntries[4..] == [];
  }

  /** Each parity pair is complementary: of total, home and away goals exactly one of odd/even fires. */
  lemma OddEvenComplement(m: Match)
    ensures Firing(OddEvenEntries, m) ==
      [if TotalGoals(m) % 2 == 1 then "total_goals_odd" else "total_goals_even",
       if m.scoreHome % 2 == 1 then "home_goals_odd" else "home_goals_even",
       if m.scoreAway % 2 == 1 then "away_goals_odd" else "away_goals_even"]
  {
    var e := OddEvenEntries;
    FiringFrom(e, 1, m);
    FiringFrom(e, 0, m);
    assert e[0..] == e;
    OddEvenHomeAway(m);
  }

  /** The home and away parity pairs. */
  lemma OddEvenHomeAway(m: Match)
    ensures Firing(OddEvenEntries[2..], m) ==
      [if m.scoreHome % 2 == 1 then "home_goals_odd" else "home_goals_even",
       if m.scoreAway % 2 == 1 then "away_goals_odd" else "away_goals_even"]
  {
    var e := OddEvenEntries;
    assert e[6..] == [];
    FiringFrom(e, 5, m);
    FiringFrom(e, 4, m);
    FiringFrom(e, 3, m);
    FiringFrom(e, 2, m);
  }

  /** `btts_both_halves_no` is the negation of `..._yes`; both raise, so neither fires, without a first half. */
  lemma BttsBothHalvesComplement(m: Match)
    ensures Firing(BttsBothHalvesEntries, m) ==
      match BttsBothHalvesOf(m)
      case Some(true) => ["btts_both_halves_yes"]
      case Some(false) => ["btts_both_halves_no"]
      case None => []
    ensures BttsBothHalvesOf(m).None? <==>
      m.firstHalf.None? || (FirstHalfBtts(m) == Some(true) && m.secondHalf.None?)
  {
    FiringFrom(BttsBothHalvesEntries, 0, m);
    FiringFrom(BttsBothHalvesEntries, 1, m);
    assert BttsBothHalvesEntries[0..] == BttsBothHalvesEntries && BttsBothHalvesEntries[2..] == [];
  }

  // ---------------------------------------------------------------------
  // Half-based helpers

  /** `_highest_scoring_half` returns exactly one of its three labels, the one the half totals select. */
  lemma HighestScoringHalfLabels(m: Match)
    ensures HighestScoringHalf(m).Some? <==> m.firstHalf.Some? && m.secondHalf.Some?
    ensures HighestScoringHalf(m).Some? ==>
      var first := FirstHalfGoals(m).value;
      var second := SecondHalfGoals(m).value;
      (HighestScoringHalf(m) == Some("first") <==> first > second) &&
      (HighestScoringHalf(m) == Some("second") <==> second > first) &&
      (HighestScoringHalf(m) == Some("equal") <==> first == second)
    ensures |Firing(HighestScoringHalfEntries, m)| == if HighestScoringHalf(m).Some? then 1 else 0
  {
    FiringFrom(HighestScoringHalfEntries, 0, m);
    FiringFrom(HighestScoringHalfEntries, 1, m);
    FiringFrom(HighestScoringHalfEntries, 2, m);
    assert HighestScoringHalfEntries[0..] == HighestScoringHalfEntries && HighestScoringHalfEntries[3..] == [];
  }

  /** Winning both halves implies winning either half. */
  lemma WonBothImpliesEither(m: Match)
    ensures HomeWonBothHalvesOf(m) == Some(true) ==> HomeWonEitherHalfOf(m) == Some(true)
    ensures AwayWonBothHalvesOf(m) == Some(true) ==> AwayWonEitherHalfOf(m) == Some(true)
  {
  }

  /** Home and away cannot both win both halves, nor both win the same half. */
  lemma NotBothWinBothHalves(m: Match)
    ensures !(HomeWonBothHalvesOf(m) == Some(true) && AwayWonBothHalvesOf(m) == Some(true))
  {
  }

  /** `_half_gg_ng` is "yes_yes" exactly when `_btts_both_halves` holds. */
  lemma HalfGgNgYesYes(m: Match)
    ensures HalfGgNg(m) == Some("yes_yes") <==> BttsBothHalvesOf(m) == Some(true)
  {
  }

  // ---------------------------------------------------------------------
  // Lookup by name

  /** `{p.name: p for p in pats}`: built left to right, so a later duplicate name overwrites an earlier one. */
  function NameTable(pats: seq<EventCondition>): map<string, EventCondition>
  {
    if pats == [] then map[]
    else NameTable(pats[..|pats| - 1])[pats[|pats| - 1].name := pats[|pats| - 1]]
  }

  /** A name is in the table iff some entry carries it, and it maps to the LAST entry carrying it. */
  lemma {:induction false} NameTableLastWins(pats: seq<EventCondition>, name: string)
    ensures name in NameTable(pats) <==> exists i :: 0 <= i < |pats| && pats[i].name == name
    ensures name in NameTable(pats) ==>
      exists i :: 0 <= i < |pats| && pats[i] == NameTable(pats)[name] &&
        pats[i].name == name && forall j :: i < j < |pats| ==> pats[j].name != name
    decreases |pats|
  {
    if pats != [] {
      var init := pats[..|pats| - 1];
      var last := pats[|pats| - 1];
      var n := |pats| - 1;
      assert NameTable(pats) == NameTable(init)[last.name := last];
      NameTableLastWins(init, name);
      if last.name != name {
        assert name in NameTable(pats) <==> name in NameTable(init);
        if exists i :: 0 <= i < |pats| && pats[i].name == name {
          var i :| 0 <= i < |pats| && pats[i].name == name;
          assert i < n && init[i] == pats[i];
        }
        if name in NameTable(init) {
          var i :| 0 <= i < |init| && init[i] == NameTable(init)[name] &&
            init[i].name == name && forall j :: i < j < |init| ==> init[j].name != name;
          assert pats[i] == init[i] && NameTable(pats)[name] == init[i];
          forall j | i < j < |pats| ensures pats[j].name != name {
            if j < n { assert pats[j] == init[j]; }
          }
        }
      } else {
        assert NameTable(pats)[name] == pats[n] && pats[n].name == name;
      }
    }
  }

  /** `get_pattern_by_name`: the catalogue entry with that name, or `None`. */
  function PatternByName(name: string): (r: Option<EventCondition>)
    ensures r.Some? <==> exists i :: 0 <= i < |Catalogue| && Catalogue[i].name == name
    ensures r.Some? ==> r.value.name == name && r.value in Catalogue
  {
    NameTableLastWins(Catalogue, name);
    var table := NameTable(Catalogue);
    if name in table then Some(table[name]) else None
  }

  /** The catalogue indexed by name, as the odds calculator builds it. */
  const CatalogueByName: map<string, EventCondition> := NameTable(Catalogue)

  /** Every entry of the catalogue's name table is a goals pattern. */
  lemma CatalogueTableGoals()
    ensures forall n :: n in CatalogueByName ==> CatalogueByName[n].eventType == Goals
  {
    CatalogueAllGoals();
    forall n | n in NameTable(Catalogue) ensures NameTable(Catalogue)[n].eventType == Goals {
      NameTableLastWins(Catalogue, n);
    }
  }
}
