/**
 * The data records of `data/models.py`, completed with the fields the API
 * client and the pattern catalogue read (league id, team ids, per-team
 * statistics, per-half counters, event descriptions).
 */
module Models {
  import opened Wrappers

  /** `EventType`, with `Value` the enum member's string value. */
  datatype EventType =
    | Goals | Cards | Corners | Shots | Possession | Fouls | Offsides | Passes
    | HalfStatsKind | TeamStatsKind
  {
    function Value(): string
    {
      match this
      case Goals => "goals"
      case Cards => "cards"
      case Corners => "corners"
      case Shots => "shots"
      case Possession => "possession"
      case Fouls => "fouls"
      case Offsides => "offsides"
      case Passes => "passes"
      case HalfStatsKind => "half_stats"
      case TeamStatsKind => "team_stats"
    }
  }

  /** `EventType(s)`: the member whose value is `s`; `None` for the `ValueError`. */
  function EventTypeOfValue(s: string): (r: Option<EventType>)
    ensures r.Some? ==> r.value.Value() == s
  {
    if s == "goals" then Some(Goals)
    else if s == "cards" then Some(Cards)
    else if s == "corners" then Some(Corners)
    else if s == "shots" then Some(Shots)
    else if s == "possession" then Some(Possession)
    else if s == "fouls" then Some(Fouls)
    else if s == "offsides" then Some(Offsides)
    else if s == "passes" then Some(Passes)
    else if s == "half_stats" then Some(HalfStatsKind)
    else if s == "team_stats" then Some(TeamStatsKind)
    else None
  }

  /** Distinct members have distinct values: the value identifies the member. */
  lemma EventTypeValueRoundTrip(t: EventType)
    ensures EventTypeOfValue(t.Value()) == Some(t)
  {
  }

  /** A statistic as the API delivers it after conversion: a Python int or float. */
  datatype Stat = IntStat(i: int) | FloatStat(x: real)
  {
    function Real(): real
    {
      match this
      case IntStat(i) => i as real
      case FloatStat(x) => x
    }

    /** Python `+`: int + int is an int, anything with a float is a float. */
    function Plus(other: Stat): (r: Stat)
      ensures r.Real() == Real() + other.Real()
      ensures r.IntStat? <==> IntStat? && other.IntStat?
    {
      if IntStat? && other.IntStat? then IntStat(i + other.i) else FloatStat(Real() + other.Real())
    }
  }

  /** Per-team match statistics; every figure defaults to 0 (0.0 for the pass percentage). */
  datatype TeamStats = TeamStats(
    teamId: int,
    teamName: string,
    shotsOnGoal: Stat,
    shotsOffGoal: Stat,
    shotsInsidebox: Stat,
    shotsOutsidebox: Stat,
    totalShots: Stat,
    blockedShots: Stat,
    fouls: Stat,
    cornerKicks: Stat,
    offsides: Stat,
    ballPossession: Stat,
    yellowCards: Stat,
    redCards: Stat,
    goalkeeperSaves: Stat,
    totalPasses: Stat,
    passesAccurate: Stat,
    passesPercentage: Stat)

  /** Counters for one half of a match. */
  datatype HalfStats = HalfStats(
    homeGoals: int,
    awayGoals: int,
    homeCards: int,
    awayCards: int,
    homeCorners: int,
    awayCorners: int)

  /** `HalfStats()`: every counter zero. */
  const ZeroHalf := HalfStats(0, 0, 0, 0, 0, 0)

  /** `MatchEvent.value` holds a count, a statistic total or a result label. */
  datatype EventValue = Num(n: Stat) | Text(s: string)

  datatype MatchEvent = MatchEvent(
    eventType: EventType,
    value: EventValue,
    team: Option<string>,
    minute: Option<int>,
    isHome: Option<bool>,
    description: string)

  datatype Match = Match(
    id: int,
    league: string,
    leagueId: int,
    season: int,
    date: string,
    homeTeam: string,
    homeTeamId: int,
    awayTeam: string,
    awayTeamId: int,
    scoreHome: int,
    scoreAway: int,
    events: seq<MatchEvent>,
    homeStats: Option<TeamStats>,
    awayStats: Option<TeamStats>,
    firstHalf: Option<HalfStats>,
    secondHalf: Option<HalfStats>)

  /** One entry of the `events` list of `Match.to_dict`. */
  datatype EventEntry = EventEntry(typeValue: string, value: EventValue, team: Option<string>)

  /** The dictionary `Match.to_dict` returns. */
  datatype MatchDict = MatchDict(
    id: int,
    league: string,
    season: int,
    date: string,
    homeTeam: string,
    awayTeam: string,
    scoreHome: int,
    scoreAway: int,
    events: seq<EventEntry>)

  function EventEntryOf(e: MatchEvent): EventEntry
  {
    EventEntry(e.eventType.Value(), e.value, e.team)
  }

  /** `Match.to_dict`. */
  function ToDict(m: Match): (d: MatchDict)
    ensures d.id == m.id && d.league == m.league && d.season == m.season && d.date == m.date
    ensures d.homeTeam == m.homeTeam && d.awayTeam == m.awayTeam
    ensures d.scoreHome == m.scoreHome && d.scoreAway == m.scoreAway
    ensures |d.events| == |m.events|
    ensures forall i :: 0 <= i < |m.events| ==>
      EventTypeOfValue(d.events[i].typeValue) == Some(m.events[i].eventType) &&
      d.events[i].value == m.events[i].value && d.events[i].team == m.events[i].team
  {
    MatchDict(m.id, m.league, m.season, m.date, m.homeTeam, m.awayTeam, m.scoreHome, m.scoreAway,
      seq(|m.events|, i requires 0 <= i < |m.events| => EventEntryOf(m.events[i])))
  }

  /**
   * `occurrence / total * 100 if total > 0 else 0`, the one percentage formula of
   * the repository (pattern percentages, combination percentages, saved results).
   */
  function Percent(occurrence: int, total: int): (r: real)
    ensures total <= 0 ==> r == 0.0
    ensures total > 0 ==> r * total as real == occurrence as real * 100.0
    ensures 0 <= occurrence <= total ==> 0.0 <= r <= 100.0
  {
    if total > 0 then (occurrence as real / total as real) * 100.0 else 0.0
  }

  datatype EventPattern = EventPattern(
    events: seq<MatchEvent>,
    occurrenceCount: int,
    totalMatches: int,
    leagues: seq<string>)
  {
    /** `EventPattern.percentage`. */
    function Percentage(): (r: real)
      ensures totalMatches <= 0 ==> r == 0.0
      ensures totalMatches > 0 ==> r * totalMatches as real == occurrenceCount as real * 100.0
      ensures 0 <= occurrenceCount <= totalMatches ==> 0.0 <= r <= 100.0
    {
      Percent(occurrenceCount, totalMatches)
    }
  }
}
