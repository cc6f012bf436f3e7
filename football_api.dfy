/**
 * The record-processing half of `clients/football_api.py`: classifying and
 * describing raw API events, converting raw statistic values, building the
 * per-team statistics, tallying goals, cards and corners per half, and the
 * derived events appended for pattern analysis. The client mutates a `Match`
 * in place; here each step returns the updated record.
 */
module FootballApi {
  import opened Wrappers
  import opened Models
  import opened Strings
  import EventPatterns

  // ---------------------------------------------------------------------
  // Raw API records

  /** A string-valued key of a JSON object: missing, `null`, or a string. */
  datatype JsonText = Missing | JsonNull | JsonString(s: string)

  /** A key holding a nested JSON object: missing, `null`, or the object's fields the client reads. */
  datatype JsonObject<T> = NoObject | NullObject | Object(fields: T)

  /** The `id` and `name` keys of an event's `team` object; `None` is a missing key or a `null`. */
  datatype TeamRef = TeamRef(id: Option<int>, name: Option<string>)

  /**
   * One entry of the API's `events` list, reduced to the keys the client
   * reads: `type`, `detail`, `player.name`, `team.id`/`team.name` and
   * `time.elapsed`.
   */
  datatype RawEvent = RawEvent(
    eventType: JsonText,
    detail: JsonText,
    player: JsonObject<JsonText>,
    team: JsonObject<TeamRef>,
    time: JsonObject<Option<int>>)

  /** A raw statistic value as JSON delivers it. */
  datatype RawStat = NullValue | BoolValue(b: bool) | IntValue(i: int) | FloatValue(x: real) | StrValue(s: string) | OtherValue

  /** One `{'type': ..., 'value': ...}` entry of a team's `statistics`. */
  datatype RawStatEntry = RawStatEntry(statType: string, value: RawStat)

  /** One team's entry of the statistics response. */
  datatype RawTeamStats = RawTeamStats(teamId: int, teamName: string, statistics: seq<RawStatEntry>)

  /** `d.get(key)` on a string-valued key: `None` for a missing key and for a `null`. */
  function TextOf(t: JsonText): (r: Option<string>)
    ensures r.Some? <==> t.JsonString?
  {
    if t.JsonString? then Some(t.s) else None
  }

  /** `f"{d.get(key, default)}"`: the default for a missing key, and `"None"` for a `null`. */
  function Render(t: JsonText, default: string): (r: string)
    ensures t.Missing? ==> r == default
    ensures t.JsonNull? ==> r == "None"
    ensures t.JsonString? ==> r == t.s
  {
    match t
    case Missing => default
    case JsonNull => "None"
    case JsonString(s) => s
  }

  /**
   * `d.get(key, {})` followed by a lookup in the result: the fields of `{}`
   * (`empty`) when the key is missing, and `None` for a `null`, on which
   * the lookup raises `AttributeError`.
   */
  function Nested<T>(o: JsonObject<T>, empty: T): (r: Option<T>)
    ensures r.None? <==> o.NullObject?
    ensures o.NoObject? ==> r == Some(empty)
    ensures o.Object? ==> r == Some(o.fields)
  {
    match o
    case NoObject => Some(empty)
    case NullObject => None
    case Object(f) => Some(f)
  }

  /** `event.get('type')`. */
  function TypeKey(e: RawEvent): Option<string>
  {
    TextOf(e.eventType)
  }

  /** `event.get('time', {}).get('elapsed')` when it does not raise. */
  function Elapsed(e: RawEvent): Option<int>
  {
    if e.time.Object? then e.time.fields else None
  }

  /** `event.get('team', {}).get('id')` when it does not raise. */
  function TeamId(e: RawEvent): Option<int>
  {
    if e.team.Object? then e.team.fields.id else None
  }

  // ---------------------------------------------------------------------
  // _classify_event_type

  /** The mapping table of `_classify_event_type`, keyed by lower-case type. */
  const EventTypeMapping: map<string, EventType> := map[
    "goal" := Goals,
    "penalty" := Goals,
    "missed penalty" := Goals,
    "card" := Cards,
    "yellow card" := Cards,
    "red card" := Cards,
    "corner" := Corners,
    "subst" := TeamStatsKind,
    "var" := TeamStatsKind,
    "foul" := Fouls,
    "offside" := Offsides
  ]

  /** `_classify_event_type`: a case-insensitive lookup of the `type` key. */
  function ClassifyEventType(eventType: Option<string>): (r: Option<EventType>)
    ensures eventType.None? ==> r.None?
    ensures eventType.Some? ==> (r.Some? <==> Lower(eventType.value) in EventTypeMapping)
    ensures r.Some? ==> r.value == EventTypeMapping[Lower(eventType.value)]
  {
    if eventType.Some? && eventType.value != "" && Lower(eventType.value) in EventTypeMapping
    then Some(EventTypeMapping[Lower(eventType.value)])
    else None
  }

  /** The classification ignores letter case. */
  lemma ClassifyCaseInsensitive(s: string)
    ensures ClassifyEventType(Some(s)) == ClassifyEventType(Some(Lower(s)))
  {
    LowerIdempotent(s);
  }

  // ---------------------------------------------------------------------
  // _get_event_description

  /** `f"{event_type}: {detail}"`, the fall-back description. */
  function PlainDescription(t: string, d: string): string
  {
    t + ": " + d
  }

  /**
   * `_get_event_description`. Missing keys read as `''` and a `null` prints
   * as `None`; `None` is the `AttributeError` of `.get('name', '')` on a
   * `null` player.
   */
  function EventDescription(e: RawEvent): (r: Option<string>)
    ensures r.None? <==> e.player.NullObject?
  {
    match Nested(e.player, Missing)
    case None => None
    case Some(name) =>
      var t, d, player := e.eventType, e.detail, Render(name, "");
      Some(
        if t == JsonString("Goal") then
          if d == JsonString("Normal Goal") then "Goal by " + player
          else if d == JsonString("Own Goal") then "Own goal by " + player
          else if d == JsonString("Penalty") then "Penalty goal by " + player
          else PlainDescription(Render(t, ""), Render(d, ""))
        else if t == JsonString("Yellow Card") || t == JsonString("Red Card") then t.s + " for " + player
        else if t == JsonString("Corner") then "Corner kick"
        else PlainDescription(Render(t, ""), Render(d, "")))
  }

  /** The three goal details that name the scorer. */
  predicate NamedGoalDetail(d: JsonText)
  {
    d == JsonString("Normal Goal") || d == JsonString("Own Goal") || d == JsonString("Penalty")
  }

  /** A goal with a detail other than the three recognised ones falls through to `"Goal: {detail}"`. */
  lemma DescriptionFallThrough(e: RawEvent)
    requires e.eventType == JsonString("Goal") && !NamedGoalDetail(e.detail)
    ensures !e.player.NullObject? ==> EventDescription(e) == Some("Goal: " + Render(e.detail, ""))
    ensures e.detail.JsonNull? && !e.player.NullObject? ==> EventDescription(e) == Some("Goal: None")
  {
    assert "Goal" + ": " + Render(e.detail, "") == "Goal: " + Render(e.detail, "");
    assert "Goal: " + "None" == "Goal: None";
  }

  /** Recognised goals and cards end with the player's name (`None` for a `null` name); corners read "Corner kick". */
  lemma DescriptionNamesPlayer(e: RawEvent)
    requires e.player.Object?
    ensures var t := e.eventType; var p := Render(e.player.fields, ""); var r := EventDescription(e).value;
      ((t == JsonString("Goal") && NamedGoalDetail(e.detail)) || t == JsonString("Yellow Card") || t == JsonString("Red Card")) ==>
        |p| <= |r| && r[|r| - |p|..] == p
    ensures e.player.fields.JsonNull? && e.eventType == JsonString("Goal") && e.detail == JsonString("Normal Goal") ==>
      EventDescription(e) == Some("Goal by None")
    ensures e.eventType == JsonString("Corner") ==> EventDescription(e) == Some("Corner kick")
  {
    assert "Goal by " + "None" == "Goal by None";
  }

  /** Any other type is described as `"{type}: {detail}"`, whose head is the rendered type. */
  lemma DescriptionOtherTypes(e: RawEvent)
    requires !e.player.NullObject?
    requires e.eventType !in {JsonString("Goal"), JsonString("Yellow Card"), JsonString("Red Card"), JsonString("Corner")}
    ensures EventDescription(e) == Some(PlainDescription(Render(e.eventType, ""), Render(e.detail, "")))
    ensures var t := Render(e.eventType, ""); EventDescription(e).value[..|t|] == t
  {
  }

  /** A `null` player object makes the description raise, whatever else the event holds. */
  lemma DescriptionNullPlayer(e: RawEvent)
    requires e.player.NullObject?
    ensures EventDescription(e).None?
  {
  }

  // ---------------------------------------------------------------------
  // _process_events

  /**
   * The `MatchEvent` `_process_events` builds from a classified raw event;
   * `None` is the `AttributeError` of a `null` team, time or player object.
   */
  function EventOf(e: RawEvent, t: EventType, homeTeamId: int): (r: Option<MatchEvent>)
    ensures r.None? <==> e.team.NullObject? || e.time.NullObject? || e.player.NullObject?
  {
    var team, minute, description := Nested(e.team, TeamRef(None, None)), Nested(e.time, None), EventDescription(e);
    if team.None? || minute.None? || description.None? then None
    else Some(MatchEvent(t, Num(IntStat(1)), team.value.name, minute.value, Some(team.value.id == Some(homeTeamId)), description.value))
  }

  /** A raw event the loop of `_process_events` raises on: it classifies, and a nested object it reads is `null`. */
  predicate RaisesOnProcess(e: RawEvent)
  {
    ClassifyEventType(TypeKey(e)).Some? && (e.team.NullObject? || e.time.NullObject? || e.player.NullObject?)
  }

  /** The events `_process_events` appends: one per classified raw event, in order; `None` when the loop raises. */
  function ProcessedEvents(events: seq<RawEvent>, homeTeamId: int): (r: Option<seq<MatchEvent>>)
    ensures r.Some? ==> |r.value| <= |events|
  {
    if events == [] then Some([])
    else
      var last := events[|events| - 1];
      match ProcessedEvents(events[..|events| - 1], homeTeamId)
      case None => None
      case Some(before) =>
        match ClassifyEventType(TypeKey(last))
        case None => Some(before)
        case Some(t) =>
          match EventOf(last, t, homeTeamId)
          case None => None
          case Some(event) => Some(before + [event])
  }

  /** The number of raw events that classify. */
  function ClassifiedCount(events: seq<RawEvent>): nat
  {
    if events == [] then 0
    else ClassifiedCount(events[..|events| - 1]) + (if ClassifyEventType(TypeKey(events[|events| - 1])).Some? then 1 else 0)
  }

  /**
   * The loop raises exactly when some classified raw event has a `null`
   * team, time or player. Otherwise there is one event per classified raw
   * event, each the `MatchEvent` built from it.
   */
  lemma {:induction false} ProcessedEventsFacts(events: seq<RawEvent>, homeTeamId: int)
    ensures ProcessedEvents(events, homeTeamId).None? <==> exists i :: 0 <= i < |events| && RaisesOnProcess(events[i])
    ensures ProcessedEvents(events, homeTeamId).Some? ==> |ProcessedEvents(events, homeTeamId).value| == ClassifiedCount(events)
    ensures ProcessedEvents(events, homeTeamId).Some? ==>
      var r := ProcessedEvents(events, homeTeamId).value;
      forall k :: 0 <= k < |r| ==>
        exists i :: 0 <= i < |events| && ClassifyEventType(TypeKey(events[i])) == Some(r[k].eventType) &&
          EventOf(events[i], r[k].eventType, homeTeamId) == Some(r[k])
    decreases |events|
  {
    if events != [] {
      var init := events[..|events| - 1];
      var last := events[|events| - 1];
      ProcessedEventsFacts(init, homeTeamId);
      assert forall i :: 0 <= i < |init| ==> init[i] == events[i];
      if (exists i :: 0 <= i < |events| && RaisesOnProcess(events[i])) && !RaisesOnProcess(last) {
        var i :| 0 <= i < |events| && RaisesOnProcess(events[i]);
        assert i < |init| && RaisesOnProcess(init[i]);
      }
      if ProcessedEvents(events, homeTeamId).Some? {
        var p := ProcessedEvents(init, homeTeamId).value;
        var r := ProcessedEvents(events, homeTeamId).value;
        forall k | 0 <= k < |r|
          ensures exists i :: (0 <= i < |events| && ClassifyEventType(TypeKey(events[i])) == Some(r[k].eventType) &&
                                EventOf(events[i], r[k].eventType, homeTeamId) == Some(r[k]))
        {
          if k < |p| {
            assert r[k] == p[k];
            var i :| 0 <= i < |init| && ClassifyEventType(TypeKey(init[i])) == Some(p[k].eventType) &&
              EventOf(init[i], p[k].eventType, homeTeamId) == Some(p[k]);
            assert events[i] == init[i];
          } else {
            assert events[|events| - 1] == last;
          }
        }
      }
    }
  }

  /** `_process_events`: the loop appending to `match.events`; `None` when it raises. */
  method ProcessEvents(m: Match, events: seq<RawEvent>) returns (r: Option<Match>)
    ensures r.None? <==> ProcessedEvents(events, m.homeTeamId).None?
    ensures r.Some? ==> r.value == m.(events := m.events + ProcessedEvents(events, m.homeTeamId).value)
  {
    var out := m.events;
    var i := 0;
    while i < |events|
      invariant 0 <= i <= |events|
      invariant ProcessedEvents(events[..i], m.homeTeamId).Some?
      invariant out == m.events + ProcessedEvents(events[..i], m.homeTeamId).value
    {
      var eventData := events[i];
      assert events[..i + 1][..i] == events[..i];
      var eventType := ClassifyEventType(TypeKey(eventData));
      if eventType.Some? {
        var team := Nested(eventData.team, TeamRef(None, None));
        var minute := Nested(eventData.time, None);
        var description := EventDescription(eventData);
        if team.None? || minute.None? || description.None? {
          ProcessedEventsFacts(events[..i + 1], m.homeTeamId);
          ProcessedEventsFacts(events, m.homeTeamId);
          assert RaisesOnProcess(events[i]);
          return None;
        }
        var event := MatchEvent(eventType.value, Num(IntStat(1)), team.value.name, minute.value,
          Some(team.value.id == Some(m.homeTeamId)), description.value);
        out := out + [event];
      }
      i := i + 1;
    }
    assert events[..|events|] == events;
    r := Some(m.(events := out));
  }

  // ---------------------------------------------------------------------
  // _safe_convert_stat

  /** `s.replace(c, '')`. */
  function RemoveChar(s: string, c: char): (r: string)
    ensures c !in r
    ensures |r| <= |s|
    ensures forall x :: x in r ==> x in s
  {
    if s == [] then []
    else RemoveChar(s[..|s| - 1], c) + (if s[|s| - 1] == c then [] else [s[|s| - 1]])
  }

  /**
   * `_safe_convert_stat`. Python's `float()` on a string is the parameter
   * `floatOf` (`None` for its `ValueError`).
   */
  function SafeConvertStat(value: RawStat, floatOf: string -> Option<real>): (r: Stat)
    ensures value.NullValue? || value.OtherValue? ==> r == IntStat(0)
    ensures value.BoolValue? ==> r == IntStat(if value.b then 1 else 0)
    ensures value.IntValue? ==> r == IntStat(value.i)
    ensures value.FloatValue? ==> r == FloatStat(value.x)
  {
    match value
    case NullValue => IntStat(0)
    case BoolValue(b) => IntStat(if b then 1 else 0)
    case IntValue(i) => IntStat(i)
    case FloatValue(x) => FloatStat(x)
    case StrValue(s) =>
      if '%' in s then
        (match floatOf(RemoveChar(s, '%'))
         case Some(x) => FloatStat(x)
         case None => FloatStat(0.0))
      else
        (match ParseInt(s)
         case Some(i) => IntStat(i)
         case None =>
           (match floatOf(s)
            case Some(x) => FloatStat(x)
            case None => IntStat(0)))
    case OtherValue => IntStat(0)
  }

  /** `str(i)` is made of digits and a leading minus sign only. */
  lemma IntToStringChars(i: int)
    ensures '%' !in IntToString(i)
  {
    var s := IntToString(i);
    if i < 0 {
      var digits := NatToString(-i);
      assert s == "-" + digits;
      assert forall k :: 0 <= k < |digits| ==> IsDigit(digits[k]);
    } else {
      assert forall k :: 0 <= k < |s| ==> IsDigit(s[k]);
    }
  }

  /** Integer strings convert back to the integer, whatever `float()` does. */
  lemma SafeConvertIntString(i: int, floatOf: string -> Option<real>)
    ensures SafeConvertStat(StrValue(IntToString(i)), floatOf) == IntStat(i)
  {
    IntToStringChars(i);
    ParseIntToString(i);
  }

  /** A percentage string always becomes a float, 0.0 when unparseable. */
  lemma SafeConvertPercent(s: string, floatOf: string -> Option<real>)
    requires '%' in s
    ensures SafeConvertStat(StrValue(s), floatOf).FloatStat?
    ensures floatOf(RemoveChar(s, '%')).None? ==> SafeConvertStat(StrValue(s), floatOf) == FloatStat(0.0)
  {
  }

  /** A string with no digit and no `%` that `float()` refuses becomes 0. */
  lemma SafeConvertNoDigits(s: string, floatOf: string -> Option<real>)
    requires '%' !in s
    requires forall k :: 0 <= k < |s| ==> !IsDigit(s[k])
    requires floatOf(s).None?
    ensures SafeConvertStat(StrValue(s), floatOf) == IntStat(0)
  {
    if ParseInt(s).Some? {
      ParseIntNeedsDigit(s);
    }
  }

  // ---------------------------------------------------------------------
  // _process_statistics

  /** The `stats_dict` of one team: a later entry of the same type overwrites an earlier one. */
  function StatsDict(stats: seq<RawStatEntry>, floatOf: string -> Option<real>): map<string, Stat>
  {
    if stats == [] then map[]
    else
      var last := stats[|stats| - 1];
      StatsDict(stats[..|stats| - 1], floatOf)[last.statType := SafeConvertStat(last.value, floatOf)]
  }

  /** A type is in the dictionary iff some entry has it. */
  lemma {:induction false} StatsDictKeys(stats: seq<RawStatEntry>, floatOf: string -> Option<real>, k: string)
    ensures k in StatsDict(stats, floatOf) <==> exists i :: 0 <= i < |stats| && stats[i].statType == k
    decreases |stats|
  {
    if stats != [] {
      var init := stats[..|stats| - 1];
      StatsDictKeys(init, floatOf, k);
      if k in StatsDict(init, floatOf) {
        var i :| 0 <= i < |init| && init[i].statType == k;
        assert stats[i] == init[i];
      }
      if exists i :: 0 <= i < |stats| && stats[i].statType == k {
        var i :| 0 <= i < |stats| && stats[i].statType == k;
        if i < |init| {
          assert init[i] == stats[i];
        }
      }
    }
  }

  /** A type holds the converted value of the LAST entry of that type. */
  lemma {:induction false} StatsDictLastWins(stats: seq<RawStatEntry>, floatOf: string -> Option<real>, i: int)
    requires 0 <= i < |stats|
    requires forall j :: i < j < |stats| ==> stats[j].statType != stats[i].statType
    ensures stats[i].statType in StatsDict(stats, floatOf)
    ensures StatsDict(stats, floatOf)[stats[i].statType] == SafeConvertStat(stats[i].value, floatOf)
    decreases |stats|
  {
    if i < |stats| - 1 {
      var init := stats[..|stats| - 1];
      assert init[i] == stats[i];
      assert forall j :: i < j < |init| ==> init[j] == stats[j];
      StatsDictLastWins(init, floatOf, i);
    }
  }

  /** The statistic names `TeamStats` is filled from, in field order. */
  const StatNames: seq<string> := [
    "Shots on Goal", "Shots off Goal", "Shots insidebox", "Shots outsidebox", "Total Shots", "Blocked Shots",
    "Fouls", "Corner Kicks", "Offsides", "Ball Possession", "Yellow Cards", "Red Cards", "Goalkeeper Saves",
    "Total passes", "Passes accurate", "Passes %"]

  /** The `TeamStats` of one team entry: statistics missing from the response are 0 (0.0 for `Passes %`). */
  function TeamStatsOf(raw: RawTeamStats, floatOf: string -> Option<real>): (r: TeamStats)
    ensures r.teamId == raw.teamId && r.teamName == raw.teamName
  {
    var d := StatsDict(raw.statistics, floatOf);
    var zero := IntStat(0);
    TeamStats(raw.teamId, raw.teamName,
      Get(d, "Shots on Goal", zero), Get(d, "Shots off Goal", zero), Get(d, "Shots insidebox", zero),
      Get(d, "Shots outsidebox", zero), Get(d, "Total Shots", zero), Get(d, "Blocked Shots", zero),
      Get(d, "Fouls", zero), Get(d, "Corner Kicks", zero), Get(d, "Offsides", zero),
      Get(d, "Ball Possession", zero), Get(d, "Yellow Cards", zero), Get(d, "Red Cards", zero),
      Get(d, "Goalkeeper Saves", zero), Get(d, "Total passes", zero), Get(d, "Passes accurate", zero),
      Get(d, "Passes %", FloatStat(0.0)))
  }

  /** A team entry that reports none of the named statistics yields all the defaults. */
  lemma TeamStatsDefaults(raw: RawTeamStats, floatOf: string -> Option<real>)
    requires forall i :: 0 <= i < |raw.statistics| ==> raw.statistics[i].statType !in StatNames
    ensures var z := IntStat(0);
      TeamStatsOf(raw, floatOf) == TeamStats(raw.teamId, raw.teamName, z, z, z, z, z, z, z, z, z, z, z, z, z, z, z, FloatStat(0.0))
  {
    forall k | k in StatNames ensures k !in StatsDict(raw.statistics, floatOf) {
      StatsDictKeys(raw.statistics, floatOf, k);
    }
  }

  /** The sixteen statistic fields of a `TeamStats`, in the order of `StatNames`. */
  function Fields(ts: TeamStats): (r: seq<Stat>)
    ensures |r| == |StatNames|
  {
    [ts.shotsOnGoal, ts.shotsOffGoal, ts.shotsInsidebox, ts.shotsOutsidebox, ts.totalShots, ts.blockedShots,
     ts.fouls, ts.cornerKicks, ts.offsides, ts.ballPossession, ts.yellowCards, ts.redCards, ts.goalkeeperSaves,
     ts.totalPasses, ts.passesAccurate, ts.passesPercentage]
  }

  /** Field k of the team's statistics is the `.get` of the k-th name with its default. */
  lemma FieldsGet(raw: RawTeamStats, floatOf: string -> Option<real>, k: nat)
    requires k < |StatNames|
    ensures Fields(TeamStatsOf(raw, floatOf))[k] ==
      Get(StatsDict(raw.statistics, floatOf), StatNames[k], if StatNames[k] == "Passes %" then FloatStat(0.0) else IntStat(0))
  {
  }

  /** Entry i is the last entry of the statistics that has type `name`. */
  predicate LastOfType(stats: seq<RawStatEntry>, i: int, name: string)
  {
    0 <= i < |stats| && stats[i].statType == name && forall j :: i < j < |stats| ==> stats[j].statType != name
  }

  /**
   * Field by field, `stats_dict.get(name, 0)`: a statistic the team does not
   * report is 0 (0.0 for `Passes %`), whatever else it reports, and a
   * reported one is the converted value of its last entry.
   */
  lemma TeamStatsFields(raw: RawTeamStats, floatOf: string -> Option<real>, k: nat)
    requires k < |StatNames|
    ensures (forall i :: 0 <= i < |raw.statistics| ==> raw.statistics[i].statType != StatNames[k]) ==>
      Fields(TeamStatsOf(raw, floatOf))[k] == (if StatNames[k] == "Passes %" then FloatStat(0.0) else IntStat(0))
    ensures forall i :: LastOfType(raw.statistics, i, StatNames[k]) ==>
      Fields(TeamStatsOf(raw, floatOf))[k] == SafeConvertStat(raw.statistics[i].value, floatOf)
  {
    FieldsGet(raw, floatOf, k);
    StatsDictKeys(raw.statistics, floatOf, StatNames[k]);
    forall i | LastOfType(raw.statistics, i, StatNames[k])
      ensures Fields(TeamStatsOf(raw, floatOf))[k] == SafeConvertStat(raw.statistics[i].value, floatOf)
    {
      StatsDictLastWins(raw.statistics, floatOf, i);
    }
  }

  /** `_process_statistics`: each entry replaces the home or the away statistics, chosen by team id. */
  function ProcessedStatistics(m: Match, statsData: seq<RawTeamStats>, floatOf: string -> Option<real>): Match
  {
    if statsData == [] then m
    else
      var before := ProcessedStatistics(m, statsData[..|statsData| - 1], floatOf);
      var last := statsData[|statsData| - 1];
      var teamStats := TeamStatsOf(last, floatOf);
      if last.teamId == m.homeTeamId then before.(homeStats := Some(teamStats)) else before.(awayStats := Some(teamStats))
  }

  /** The home statistics (`home`) or the away statistics. */
  function Side(m: Match, home: bool): Option<TeamStats>
  {
    if home then m.homeStats else m.awayStats
  }

  /** An entry is for the home side iff its team id is the home team's. */
  predicate OnSide(t: RawTeamStats, m: Match, home: bool)
  {
    (t.teamId == m.homeTeamId) == home
  }

  /** Only the two statistics fields change. */
  lemma {:induction false} ProcessedStatisticsFrame(m: Match, statsData: seq<RawTeamStats>, floatOf: string -> Option<real>)
    ensures var r := ProcessedStatistics(m, statsData, floatOf); r == m.(homeStats := r.homeStats, awayStats := r.awayStats)
    decreases |statsData|
  {
    if statsData != [] {
      ProcessedStatisticsFrame(m, statsData[..|statsData| - 1], floatOf);
    }
  }

  /** A side holds the statistics of the LAST entry for that side. */
  lemma {:induction false} ProcessedStatisticsLastWins(m: Match, statsData: seq<RawTeamStats>, floatOf: string -> Option<real>, home: bool, i: int)
    requires 0 <= i < |statsData| && OnSide(statsData[i], m, home)
    requires forall j :: i < j < |statsData| ==> !OnSide(statsData[j], m, home)
    ensures Side(ProcessedStatistics(m, statsData, floatOf), home) == Some(TeamStatsOf(statsData[i], floatOf))
    decreases |statsData|
  {
    ProcessedStatisticsFrame(m, statsData[..|statsData| - 1], floatOf);
    if i < |statsData| - 1 {
      var init := statsData[..|statsData| - 1];
      assert init[i] == statsData[i];
      assert forall j :: i < j < |init| ==> init[j] == statsData[j];
      ProcessedStatisticsLastWins(m, init, floatOf, home, i);
    }
  }

  /** A side no entry is for keeps its old statistics; in particular an empty response changes nothing. */
  lemma {:induction false} ProcessedStatisticsUntouched(m: Match, statsData: seq<RawTeamStats>, floatOf: string -> Option<real>, home: bool)
    requires forall j :: 0 <= j < |statsData| ==> !OnSide(statsData[j], m, home)
    ensures Side(ProcessedStatistics(m, statsData, floatOf), home) == Side(m, home)
    decreases |statsData|
  {
    if statsData != [] {
      var init := statsData[..|statsData| - 1];
      assert forall j :: 0 <= j < |init| ==> init[j] == statsData[j];
      ProcessedStatisticsFrame(m, init, floatOf);
      ProcessedStatisticsUntouched(m, init, floatOf, home);
    }
  }

  /** The statistics step of the client: the per-team loop and its inner loop over `statistics`. */
  method ProcessStatistics(m: Match, statsData: seq<RawTeamStats>, floatOf: string -> Option<real>) returns (r: Match)
    ensures r == ProcessedStatistics(m, statsData, floatOf)
  {
    if statsData == [] {
      return m;
    }
    r := m;
    var i := 0;
    while i < |statsData|
      invariant 0 <= i <= |statsData|
      invariant r == ProcessedStatistics(m, statsData[..i], floatOf)
    {
      var teamStats := statsData[i];
      assert statsData[..i + 1][..i] == statsData[..i];
      var isHome := teamStats.teamId == m.homeTeamId;
      var statsDict := CollectStats(teamStats.statistics, floatOf);
      var zero := IntStat(0);
      var teamStatsObj := TeamStats(teamStats.teamId, teamStats.teamName,
        Get(statsDict, "Shots on Goal", zero), Get(statsDict, "Shots off Goal", zero), Get(statsDict, "Shots insidebox", zero),
        Get(statsDict, "Shots outsidebox", zero), Get(statsDict, "Total Shots", zero), Get(statsDict, "Blocked Shots", zero),
        Get(statsDict, "Fouls", zero), Get(statsDict, "Corner Kicks", zero), Get(statsDict, "Offsides", zero),
        Get(statsDict, "Ball Possession", zero), Get(statsDict, "Yellow Cards", zero), Get(statsDict, "Red Cards", zero),
        Get(statsDict, "Goalkeeper Saves", zero), Get(statsDict, "Total passes", zero), Get(statsDict, "Passes accurate", zero),
        Get(statsDict, "Passes %", FloatStat(0.0)));
      if isHome {
        r := r.(homeStats := Some(teamStatsObj));
      } else {
        r := r.(awayStats := Some(teamStatsObj));
      }
      i := i + 1;
    }
    assert statsData[..|statsData|] == statsData;
  }

  /** `for stat in team_stats.get('statistics', []): stats_dict[stat['type']] = ...`. */
  method CollectStats(stats: seq<RawStatEntry>, floatOf: string -> Option<real>) returns (statsDict: map<string, Stat>)
    ensures statsDict == StatsDict(stats, floatOf)
  {
    statsDict := map[];
    var k := 0;
    while k < |stats|
      invariant 0 <= k <= |stats|
      invariant statsDict == StatsDict(stats[..k], floatOf)
    {
      assert stats[..k + 1][..k] == stats[..k];
      statsDict := statsDict[stats[k].statType := SafeConvertStat(stats[k].value, floatOf)];
      k := k + 1;
    }
    assert stats[..|stats|] == stats;
  }

  // ---------------------------------------------------------------------
  // _extract_half_stats

  /** The three event kinds the half counters track. */
  datatype Kind = GoalKind | CardKind | CornerKind

  /** Which counter an event's `type` feeds (case-sensitive, unlike the classification). */
  function KindOf(eventType: Option<string>): (r: Option<Kind>)
    ensures r == Some(GoalKind) <==> eventType == Some("Goal")
    ensures r == Some(CardKind) <==> eventType == Some("Yellow Card") || eventType == Some("Red Card")
    ensures r == Some(CornerKind) <==> eventType == Some("Corner")
  {
    if eventType == Some("Goal") then Some(GoalKind)
    else if eventType == Some("Yellow Card") || eventType == Some("Red Card") then Some(CardKind)
    else if eventType == Some("Corner") then Some(CornerKind)
    else None
  }

  /** An event the half counters see: `if not minute: continue` skips a missing minute and minute 0. */
  predicate Timed(e: RawEvent)
  {
    Elapsed(e).Some? && Elapsed(e).value != 0
  }

  /**
   * An event the loop of `_extract_half_stats` raises on: a `null` time
   * object, or a `null` team object on an event whose minute is read.
   */
  predicate HalfRaises(e: RawEvent)
  {
    e.time.NullObject? || (Timed(e) && e.team.NullObject?)
  }

  /** The counter of one kind for one side. */
  function Counter(h: HalfStats, kind: Kind, home: bool): int
  {
    match kind
    case GoalKind => if home then h.homeGoals else h.awayGoals
    case CardKind => if home then h.homeCards else h.awayCards
    case CornerKind => if home then h.homeCorners else h.awayCorners
  }

  /** `half.<kind>_<side> += 1`. */
  function Bump(h: HalfStats, kind: Kind, home: bool): (r: HalfStats)
    ensures forall k, s :: Counter(r, k, s) == Counter(h, k, s) + (if k == kind && s == home then 1 else 0)
  {
    match kind
    case GoalKind => if home then h.(homeGoals := h.homeGoals + 1) else h.(awayGoals := h.awayGoals + 1)
    case CardKind => if home then h.(homeCards := h.homeCards + 1) else h.(awayCards := h.awayCards + 1)
    case CornerKind => if home then h.(homeCorners := h.homeCorners + 1) else h.(awayCorners := h.awayCorners + 1)
  }

  /** The first and the second half. */
  datatype Halves = Halves(first: HalfStats, second: HalfStats)

  /** One iteration of the loop of `_extract_half_stats`. */
  function TallyEvent(h: Halves, e: RawEvent, homeTeamId: int): Halves
  {
    if !Timed(e) then h
    else
      var isHome := TeamId(e) == Some(homeTeamId);
      match KindOf(TypeKey(e))
      case None => h
      case Some(kind) =>
        if Elapsed(e).value <= 45 then h.(first := Bump(h.first, kind, isHome)) else h.(second := Bump(h.second, kind, isHome))
  }

  /** The two halves after the loop, both starting from `HalfStats()`. */
  function HalfTally(events: seq<RawEvent>, homeTeamId: int): Halves
  {
    if events == [] then Halves(ZeroHalf, ZeroHalf)
    else TallyEvent(HalfTally(events[..|events| - 1], homeTeamId), events[|events| - 1], homeTeamId)
  }

  /** The events that land on one counter: timed, of that kind, in that half, for that side. */
  predicate Lands(e: RawEvent, homeTeamId: int, kind: Kind, firstHalf: bool, home: bool)
  {
    Timed(e) && KindOf(TypeKey(e)) == Some(kind) && (Elapsed(e).value <= 45 <==> firstHalf) &&
    (TeamId(e) == Some(homeTeamId) <==> home)
  }

  function CountLanding(events: seq<RawEvent>, homeTeamId: int, kind: Kind, firstHalf: bool, home: bool): nat
  {
    if events == [] then 0
    else
      var last := events[|events| - 1];
      CountLanding(events[..|events| - 1], homeTeamId, kind, firstHalf, home) + (if Lands(last, homeTeamId, kind, firstHalf, home) then 1 else 0)
  }

  function HalfOf(h: Halves, firstHalf: bool): HalfStats
  {
    if firstHalf then h.first else h.second
  }

  /** Every one of the twelve counters is the number of events that land on it. */
  lemma {:induction false} HalfTallyCounts(events: seq<RawEvent>, homeTeamId: int, kind: Kind, firstHalf: bool, home: bool)
    ensures Counter(HalfOf(HalfTally(events, homeTeamId), firstHalf), kind, home) == CountLanding(events, homeTeamId, kind, firstHalf, home)
    decreases |events|
  {
    if events != [] {
      HalfTallyCounts(events[..|events| - 1], homeTeamId, kind, firstHalf, home);
    }
  }

  /** The number of timed `'Goal'` events. */
  function TimedGoals(events: seq<RawEvent>): nat
  {
    if events == [] then 0
    else TimedGoals(events[..|events| - 1]) + (if Timed(events[|events| - 1]) && TypeKey(events[|events| - 1]) == Some("Goal") then 1 else 0)
  }

  /** First-half plus second-half goals, home and away, is the number of timed goal events. */
  lemma {:induction false} HalfGoalsTotal(events: seq<RawEvent>, homeTeamId: int)
    ensures var h := HalfTally(events, homeTeamId);
      h.first.homeGoals + h.first.awayGoals + h.second.homeGoals + h.second.awayGoals == TimedGoals(events)
    decreases |events|
  {
    if events != [] {
      var h := HalfTally(events[..|events| - 1], homeTeamId);
      HalfGoalsTotal(events[..|events| - 1], homeTeamId);
      var e := events[|events| - 1];
      if Timed(e) && KindOf(TypeKey(e)).Some? {
        var isHome := TeamId(e) == Some(homeTeamId);
        var kind := KindOf(TypeKey(e)).value;
        assert Counter(Bump(h.first, kind, isHome), GoalKind, true) + Counter(Bump(h.first, kind, isHome), GoalKind, false) ==
          Counter(h.first, GoalKind, true) + Counter(h.first, GoalKind, false) + (if kind == GoalKind then 1 else 0);
        assert Counter(Bump(h.second, kind, isHome), GoalKind, true) + Counter(Bump(h.second, kind, isHome), GoalKind, false) ==
          Counter(h.second, GoalKind, true) + Counter(h.second, GoalKind, false) + (if kind == GoalKind then 1 else 0);
      }
    }
  }

  /** Every counted event also classifies, to the event type of its counter. */
  lemma CountedEventsClassify(e: RawEvent)
    ensures KindOf(TypeKey(e)) == Some(GoalKind) ==> ClassifyEventType(TypeKey(e)) == Some(Goals)
    ensures KindOf(TypeKey(e)) == Some(CardKind) ==> ClassifyEventType(TypeKey(e)) == Some(Cards)
    ensures KindOf(TypeKey(e)) == Some(CornerKind) ==> ClassifyEventType(TypeKey(e)) == Some(Corners)
  {
    if TypeKey(e) == Some("Goal") {
      assert Lower("Goal") == "goal";
    } else if TypeKey(e) == Some("Yellow Card") {
      assert Lower("Yellow Card") == "yellow card";
    } else if TypeKey(e) == Some("Red Card") {
      assert Lower("Red Card") == "red card";
    } else if TypeKey(e) == Some("Corner") {
      assert Lower("Corner") == "corner";
    }
  }

  /** The halves after the loop; `None` when some raw event makes the loop raise. */
  function HalfStatsOf(events: seq<RawEvent>, homeTeamId: int): (r: Option<Halves>)
    ensures r.None? <==> exists i :: 0 <= i < |events| && HalfRaises(events[i])
    ensures r.Some? ==> r.value == HalfTally(events, homeTeamId)
  {
    if exists i :: 0 <= i < |events| && HalfRaises(events[i]) then None else Some(HalfTally(events, homeTeamId))
  }

  /**
   * `_extract_half_stats`: one loop over the raw events, then both halves
   * are stored; `None` when the loop raises on a `null` time or team.
   */
  method ExtractHalfStats(m: Match, events: seq<RawEvent>) returns (r: Option<Match>)
    ensures r.None? <==> exists i :: 0 <= i < |events| && HalfRaises(events[i])
    ensures r.Some? ==> r.value == m.(firstHalf := Some(HalfTally(events, m.homeTeamId).first), secondHalf := Some(HalfTally(events, m.homeTeamId).second))
  {
    var firstHalf := ZeroHalf;
    var secondHalf := ZeroHalf;
    var i := 0;
    while i < |events|
      invariant 0 <= i <= |events|
      invariant Halves(firstHalf, secondHalf) == HalfTally(events[..i], m.homeTeamId)
      invariant forall j :: 0 <= j < i ==> !HalfRaises(events[j])
    {
      var event := events[i];
      assert events[..i + 1][..i] == events[..i];
      var minute := Nested(event.time, None);
      if minute.None? {
        return None;
      }
      if minute.value.Some? && minute.value.value != 0 {
        var team := Nested(event.team, TeamRef(None, None));
        if team.None? {
          return None;
        }
        var isHome := team.value.id == Some(m.homeTeamId);
        var kind := KindOf(TextOf(event.eventType));
        if kind.Some? {
          if minute.value.value <= 45 {
            firstHalf := Bump(firstHalf, kind.value, isHome);
          } else {
            secondHalf := Bump(secondHalf, kind.value, isHome);
          }
        }
      }
      i := i + 1;
    }
    assert events[..|events|] == events;
    r := Some(m.(firstHalf := Some(firstHalf), secondHalf := Some(secondHalf)));
  }

  /** The events of one kind in one half, of either side. */
  function BothSides(events: seq<RawEvent>, homeTeamId: int, kind: Kind, firstHalf: bool): nat
  {
    CountLanding(events, homeTeamId, kind, firstHalf, true) + CountLanding(events, homeTeamId, kind, firstHalf, false)
  }

  /**
   * Once `_extract_half_stats` has stored its halves, the half helpers of
   * the pattern catalogue read back what it counted: a half's goals, cards
   * and corners are the numbers of timed events of that kind in that half,
   * and a half's result is the one `_get_half_result` gives.
   */
  lemma HalfHelpersReadTally(m: Match, events: seq<RawEvent>)
    requires m.firstHalf == Some(HalfTally(events, m.homeTeamId).first)
    requires m.secondHalf == Some(HalfTally(events, m.homeTeamId).second)
    ensures EventPatterns.FirstHalfGoals(m) == Some(BothSides(events, m.homeTeamId, GoalKind, true) as int)
    ensures EventPatterns.SecondHalfGoals(m) == Some(BothSides(events, m.homeTeamId, GoalKind, false) as int)
    ensures EventPatterns.FirstHalfCards(m) == Some(BothSides(events, m.homeTeamId, CardKind, true) as int)
    ensures EventPatterns.SecondHalfCards(m) == Some(BothSides(events, m.homeTeamId, CardKind, false) as int)
    ensures EventPatterns.FirstHalfCorners(m) == Some(BothSides(events, m.homeTeamId, CornerKind, true) as int)
    ensures EventPatterns.SecondHalfCorners(m) == Some(BothSides(events, m.homeTeamId, CornerKind, false) as int)
    ensures EventPatterns.FirstHalfResult(m) == Some(HalfResult(m.firstHalf.value))
    ensures EventPatterns.SecondHalfResult(m) == Some(HalfResult(m.secondHalf.value))
  {
    forall kind, firstHalf, home
      ensures Counter(HalfOf(HalfTally(events, m.homeTeamId), firstHalf), kind, home) == CountLanding(events, m.homeTeamId, kind, firstHalf, home)
    {
      HalfTallyCounts(events, m.homeTeamId, kind, firstHalf, home);
    }
  }

  // ---------------------------------------------------------------------
  // _get_half_result and _generate_derived_events

  /** `_get_half_result`: exactly one of home, away and draw. */
  function HalfResult(half: HalfStats): (r: string)
    ensures r == "home" <==> half.homeGoals > half.awayGoals
    ensures r == "away" <==> half.awayGoals > half.homeGoals
    ensures r == "draw" <==> half.homeGoals == half.awayGoals
  {
    if half.homeGoals > half.awayGoals then "home"
    else if half.awayGoals > half.homeGoals then "away"
    else "draw"
  }

  /** The half with the two sides exchanged. */
  function Mirrored(h: HalfStats): HalfStats
  {
    HalfStats(h.awayGoals, h.homeGoals, h.awayCards, h.homeCards, h.awayCorners, h.homeCorners)
  }

  /** Exchanging the sides exchanges home and away in the result and keeps a draw. */
  lemma HalfResultMirrored(h: HalfStats)
    ensures HalfResult(Mirrored(h)) == (if HalfResult(h) == "home" then "away" else if HalfResult(h) == "away" then "home" else "draw")
  {
  }

  /** `(yellow_cards + red_cards) if stats else 0`. */
  function CardsOf(stats: Option<TeamStats>): (r: Stat)
    ensures stats.None? ==> r == IntStat(0)
    ensures stats.Some? ==> r.Real() == stats.value.yellowCards.Real() + stats.value.redCards.Real()
  {
    if stats.Some? then stats.value.yellowCards.Plus(stats.value.redCards) else IntStat(0)
  }

  /** `corner_kicks if stats else 0`. */
  function CornersOf(stats: Option<TeamStats>): Stat
  {
    if stats.Some? then stats.value.cornerKicks else IntStat(0)
  }

  /** A derived event: no team, minute or side. */
  function DerivedEvent(t: EventType, value: EventValue, description: string): MatchEvent
  {
    MatchEvent(t, value, None, None, None, description)
  }

  /**
   * `_generate_derived_events`: the first-half result, the total cards and
   * the total corners are appended. `None` is the `AttributeError` raised
   * when the match has no first-half counters.
   */
  function DerivedEvents(m: Match): (r: Option<Match>)
    ensures r.Some? <==> m.firstHalf.Some?
    ensures r.Some? ==> r.value == m.(events := r.value.events)
    ensures r.Some? ==> |r.value.events| == |m.events| + 3 && r.value.events[..|m.events|] == m.events
    ensures r.Some? ==>
      var added := r.value.events[|m.events|..];
      added[0] == DerivedEvent(HalfStatsKind, Text(HalfResult(m.firstHalf.value)), "first_half_result") &&
      added[1].eventType == Cards && added[1].value.Num? && added[1].description == "total_cards" &&
      added[1].value.n.Real() == CardsOf(m.homeStats).Real() + CardsOf(m.awayStats).Real() &&
      added[2].eventType == Corners && added[2].value.Num? && added[2].description == "total_corners" &&
      added[2].value.n.Real() == CornersOf(m.homeStats).Real() + CornersOf(m.awayStats).Real()
  {
    if m.firstHalf.None? then None
    else
      var firstHalfResult := HalfResult(m.firstHalf.value);
      var totalCards := CardsOf(m.homeStats).Plus(CardsOf(m.awayStats));
      var totalCorners := CornersOf(m.homeStats).Plus(CornersOf(m.awayStats));
      var added := [
        DerivedEvent(HalfStatsKind, Text(firstHalfResult), "first_half_result"),
        DerivedEvent(Cards, Num(totalCards), "total_cards"),
        DerivedEvent(Corners, Num(totalCorners), "total_corners")];
      var events := m.events + added;
      assert events[..|m.events|] == m.events && events[|m.events|..] == added;
      Some(m.(events := events))
  }

  /** With integer statistics the totals are integers too. */
  lemma DerivedTotalsIntegral(m: Match)
    requires m.firstHalf.Some?
    requires m.homeStats.Some? ==> m.homeStats.value.yellowCards.IntStat? && m.homeStats.value.redCards.IntStat? && m.homeStats.value.cornerKicks.IntStat?
    requires m.awayStats.Some? ==> m.awayStats.value.yellowCards.IntStat? && m.awayStats.value.redCards.IntStat? && m.awayStats.value.cornerKicks.IntStat?
    ensures DerivedEvents(m).value.events[|m.events| + 1].value.n.IntStat?
    ensures DerivedEvents(m).value.events[|m.events| + 2].value.n.IntStat?
  {
    var r := DerivedEvents(m).value;
    assert r.events[|m.events| + 1] == r.events[|m.events|..][1];
    assert r.events[|m.events| + 2] == r.events[|m.events|..][2];
  }
}
