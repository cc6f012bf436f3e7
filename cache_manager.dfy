/**
 * `utils/cache_manager.py`: the in-memory `cache_data` of the organized
 * cache, leagues holding seasons holding matches keyed by fixture id, and
 * the `total_matches` counter of its metadata. League, season and match
 * keys are the integers whose `str()` the Python uses as keys.
 */
module CacheStore {
  import opened Wrappers
  import opened FiniteSums
  import FootballApi

  /** The keys of `match_data` that `save_matches` reads and keeps as `fixture_data`. */
  datatype FixtureRecord = FixtureRecord(
    id: int,
    date: string,
    homeName: string,
    awayName: string,
    goalsHome: Option<int>,
    goalsAway: Option<int>)

  /** `basic_info`. */
  datatype BasicInfo = BasicInfo(homeTeam: string, awayTeam: string, scoreHome: Option<int>, scoreAway: Option<int>, date: string)

  /** `events` and `statistics` of a match, as the API returned them. */
  datatype MatchDetails = MatchDetails(events: seq<FootballApi.RawEvent>, statistics: seq<FootballApi.RawTeamStats>)

  /** One cached match; `details` is present exactly when `has_details` is set. */
  datatype MatchEntry = MatchEntry(basicInfo: BasicInfo, fixtureData: FixtureRecord, details: Option<MatchDetails>)

  datatype SeasonEntry = SeasonEntry(matches: map<int, MatchEntry>)

  /** `info` is the league dictionary the caller passed, kept as given. */
  datatype LeagueEntry = LeagueEntry(info: map<string, string>, seasons: map<int, SeasonEntry>)

  /** The counters of `metadata` (its timestamps are not modelled). */
  datatype Metadata = Metadata(totalMatches: nat, totalLeagues: nat)

  type Leagues = map<int, LeagueEntry>

  // ---------------------------------------------------------------------
  // The operations on the table

  /** The table after `save_league_info`: an absent league is created, a present one is kept. */
  function WithLeagueInfo(leagues: Leagues, leagueId: int, info: map<string, string>): Leagues
  {
    if leagueId in leagues then leagues else leagues[leagueId := LeagueEntry(info, map[])]
  }

  /** The first two steps of `save_matches`: the league and the season exist afterwards. */
  function WithSeason(leagues: Leagues, leagueId: int, season: int): Leagues
  {
    var league := if leagueId in leagues then leagues[leagueId] else LeagueEntry(map[], map[]);
    if season in league.seasons then leagues[leagueId := league]
    else leagues[leagueId := league.(seasons := league.seasons[season := SeasonEntry(map[])])]
  }

  /** The entry `save_matches` writes for one fixture: no events, statistics or `has_details`. */
  function EntryOf(f: FixtureRecord): MatchEntry
  {
    MatchEntry(BasicInfo(f.homeName, f.awayName, f.goalsHome, f.goalsAway, f.date), f, None)
  }

  /** The matches after writing one entry per fixture, in order. */
  function WriteMatches(matches: map<int, MatchEntry>, data: seq<FixtureRecord>): map<int, MatchEntry>
  {
    if data == [] then matches
    else WriteMatches(matches, data[..|data| - 1])[data[|data| - 1].id := EntryOf(data[|data| - 1])]
  }

  /** The table after `save_matches`. */
  function MatchesSaved(leagues: Leagues, leagueId: int, season: int, data: seq<FixtureRecord>): (r: Leagues)
    ensures HasSeason(r, leagueId, season)
  {
    var withSeason := WithSeason(leagues, leagueId, season);
    var league := withSeason[leagueId];
    var seasonEntry := league.seasons[season];
    withSeason[leagueId := league.(seasons := league.seasons[season := SeasonEntry(WriteMatches(seasonEntry.matches, data))])]
  }

  predicate HasSeason(leagues: Leagues, leagueId: int, season: int)
  {
    leagueId in leagues && season in leagues[leagueId].seasons
  }

  predicate HasMatch(leagues: Leagues, leagueId: int, season: int, matchId: int)
  {
    HasSeason(leagues, leagueId, season) && matchId in leagues[leagueId].seasons[season].matches
  }

  /** The table after `save_match_details`: only an existing match changes. */
  function DetailsSaved(leagues: Leagues, leagueId: int, season: int, matchId: int, details: MatchDetails): Leagues
  {
    if HasMatch(leagues, leagueId, season, matchId) then
      var league := leagues[leagueId];
      var matches := league.seasons[season].matches;
      leagues[leagueId := league.(seasons := league.seasons[season := SeasonEntry(matches[matchId := matches[matchId].(details := Some(details))])])]
    else leagues
  }

  /** `get_league_matches`: the season's matches, or `None` for the `KeyError`. */
  function LeagueMatches(leagues: Leagues, leagueId: int, season: int): (r: Option<map<int, MatchEntry>>)
    ensures r.Some? <==> HasSeason(leagues, leagueId, season)
    ensures r.Some? ==> r.value == leagues[leagueId].seasons[season].matches
  {
    if HasSeason(leagues, leagueId, season) then Some(leagues[leagueId].seasons[season].matches) else None
  }

  /** `get_match_details`: the entry only when it has details. */
  function MatchDetailsOf(leagues: Leagues, leagueId: int, season: int, matchId: int): (r: Option<MatchEntry>)
    ensures r.Some? <==> HasMatch(leagues, leagueId, season, matchId) && leagues[leagueId].seasons[season].matches[matchId].details.Some?
    ensures r.Some? ==> r.value == leagues[leagueId].seasons[season].matches[matchId]
  {
    if HasMatch(leagues, leagueId, season, matchId) && leagues[leagueId].seasons[season].matches[matchId].details.Some?
    then Some(leagues[leagueId].seasons[season].matches[matchId])
    else None
  }

  // ---------------------------------------------------------------------
  // Counting

  /** The number of matches of every season of a league. */
  function SeasonSizes(league: LeagueEntry): map<int, nat>
  {
    map s | s in league.seasons :: |league.seasons[s].matches|
  }

  /** The number of matches of every league. */
  ghost function LeagueSizes(leagues: Leagues): map<int, nat>
  {
    map k | k in leagues :: SumValues(SeasonSizes(leagues[k]))
  }

  /** `_count_processed_matches`: the sum of the per-season match counts. */
  ghost function TotalMatches(leagues: Leagues): nat
  {
    SumValues(LeagueSizes(leagues))
  }

  /** Replacing one league changes its count only. */
  lemma LeagueSizesUpdate(leagues: Leagues, leagueId: int, league: LeagueEntry)
    ensures LeagueSizes(leagues[leagueId := league]) == LeagueSizes(leagues)[leagueId := SumValues(SeasonSizes(league))]
  {
    assert LeagueSizes(leagues[leagueId := league]).Keys == LeagueSizes(leagues)[leagueId := SumValues(SeasonSizes(league))].Keys;
  }

  /** Replacing a league by one with the same season sizes keeps the total. */
  lemma TotalSameSizes(leagues: Leagues, leagueId: int, league: LeagueEntry)
    requires leagueId in leagues && SeasonSizes(league) == SeasonSizes(leagues[leagueId])
    ensures TotalMatches(leagues[leagueId := league]) == TotalMatches(leagues)
  {
    LeagueSizesUpdate(leagues, leagueId, league);
    assert LeagueSizes(leagues)[leagueId := SumValues(SeasonSizes(league))] == LeagueSizes(leagues);
  }

  /** A new league without seasons adds nothing to the total. */
  lemma TotalNewLeague(leagues: Leagues, leagueId: int, info: map<string, string>)
    requires leagueId !in leagues
    ensures TotalMatches(leagues[leagueId := LeagueEntry(info, map[])]) == TotalMatches(leagues)
  {
    var league := LeagueEntry(info, map[]);
    LeagueSizesUpdate(leagues, leagueId, league);
    assert SeasonSizes(league) == map[];
    assert SumValues(SeasonSizes(league)) == 0;
    SumValuesUpdate(LeagueSizes(leagues), leagueId, 0);
  }

  // ---------------------------------------------------------------------
  // Properties

  /** `save_league_info` never overwrites and is idempotent; the total is unchanged. */
  lemma LeagueInfoFacts(leagues: Leagues, leagueId: int, info: map<string, string>, other: map<string, string>)
    ensures leagueId in leagues ==> WithLeagueInfo(leagues, leagueId, info) == leagues
    ensures leagueId !in leagues ==> WithLeagueInfo(leagues, leagueId, info)[leagueId] == LeagueEntry(info, map[])
    ensures WithLeagueInfo(WithLeagueInfo(leagues, leagueId, info), leagueId, other) == WithLeagueInfo(leagues, leagueId, info)
    ensures TotalMatches(WithLeagueInfo(leagues, leagueId, info)) == TotalMatches(leagues)
  {
    if leagueId !in leagues {
      TotalNewLeague(leagues, leagueId, info);
    }
  }

  /** A fixture id that is written holds the entry of the LAST fixture with that id. */
  lemma {:induction false} WriteMatchesLastWins(matches: map<int, MatchEntry>, data: seq<FixtureRecord>, i: int)
    requires 0 <= i < |data|
    requires forall j :: i < j < |data| ==> data[j].id != data[i].id
    ensures data[i].id in WriteMatches(matches, data)
    ensures WriteMatches(matches, data)[data[i].id] == EntryOf(data[i])
    decreases |data|
  {
    if i < |data| - 1 {
      var init := data[..|data| - 1];
      assert init[i] == data[i];
      assert forall j :: i < j < |init| ==> init[j] == data[j];
      WriteMatchesLastWins(matches, init, i);
    }
  }

  /** A match id no fixture carries is untouched. */
  lemma {:induction false} WriteMatchesUntouched(matches: map<int, MatchEntry>, data: seq<FixtureRecord>, id: int)
    requires forall j :: 0 <= j < |data| ==> data[j].id != id
    ensures id in WriteMatches(matches, data) <==> id in matches
    ensures id in matches ==> WriteMatches(matches, data)[id] == matches[id]
    decreases |data|
  {
    if data != [] {
      var init := data[..|data| - 1];
      assert forall j :: 0 <= j < |init| ==> init[j] == data[j];
      WriteMatchesUntouched(matches, init, id);
    }
  }

  /** The ids of a list of fixtures. */
  function FixtureIds(data: seq<FixtureRecord>): (r: set<int>)
    ensures forall j :: 0 <= j < |data| ==> data[j].id in r
    ensures forall id :: id in r ==> exists j :: 0 <= j < |data| && data[j].id == id
  {
    if data == [] then {}
    else
      var init := data[..|data| - 1];
      var r := FixtureIds(init) + {data[|data| - 1].id};
      assert forall j :: 0 <= j < |init| ==> data[j] == init[j];
      r
  }

  /** The written matches are the old ones plus one per fixture id. */
  lemma {:induction false} WriteMatchesKeys(matches: map<int, MatchEntry>, data: seq<FixtureRecord>)
    ensures WriteMatches(matches, data).Keys == matches.Keys + FixtureIds(data)
    decreases |data|
  {
    if data != [] {
      WriteMatchesKeys(matches, data[..|data| - 1]);
    }
  }

  /**
   * `save_matches` touches one season: every other league and season is kept,
   * a league's existing `info` is kept, and the saved season holds the written matches.
   */
  lemma MatchesSavedFrame(leagues: Leagues, leagueId: int, season: int, data: seq<FixtureRecord>)
    ensures var r := MatchesSaved(leagues, leagueId, season, data);
      r.Keys == leagues.Keys + {leagueId} &&
      (forall k :: k in leagues && k != leagueId ==> r[k] == leagues[k]) &&
      (leagueId in leagues ==> r[leagueId].info == leagues[leagueId].info) &&
      (leagueId !in leagues ==> r[leagueId].info == map[]) &&
      (forall s :: HasSeason(leagues, leagueId, s) && s != season ==> r[leagueId].seasons[s] == leagues[leagueId].seasons[s]) &&
      r[leagueId].seasons.Keys == (if leagueId in leagues then leagues[leagueId].seasons.Keys else {}) + {season} &&
      r[leagueId].seasons[season].matches ==
        WriteMatches(if HasSeason(leagues, leagueId, season) then leagues[leagueId].seasons[season].matches else map[], data)
  {
  }

  /** A saved fixture has no details any more: `get_match_details` misses it until details are saved again. */
  lemma MatchesSavedDropDetails(leagues: Leagues, leagueId: int, season: int, data: seq<FixtureRecord>, i: int)
    requires 0 <= i < |data|
    requires forall j :: i < j < |data| ==> data[j].id != data[i].id
    ensures MatchDetailsOf(MatchesSaved(leagues, leagueId, season, data), leagueId, season, data[i].id) == None
  {
    MatchesSavedFrame(leagues, leagueId, season, data);
    WriteMatchesLastWins(if HasSeason(leagues, leagueId, season) then leagues[leagueId].seasons[season].matches else map[], data, i);
  }

  /** Saving details of an existing match makes `get_match_details` return it with those details; anything else is a no-op. */
  lemma DetailsSavedFacts(leagues: Leagues, leagueId: int, season: int, matchId: int, details: MatchDetails)
    ensures !HasMatch(leagues, leagueId, season, matchId) ==> DetailsSaved(leagues, leagueId, season, matchId, details) == leagues
    ensures HasMatch(leagues, leagueId, season, matchId) ==>
      var r := DetailsSaved(leagues, leagueId, season, matchId, details);
      var before := leagues[leagueId].seasons[season].matches[matchId];
      MatchDetailsOf(r, leagueId, season, matchId) == Some(before.(details := Some(details))) &&
      r.Keys == leagues.Keys &&
      (forall k :: k in leagues && k != leagueId ==> r[k] == leagues[k]) &&
      r[leagueId].info == leagues[leagueId].info &&
      (forall s :: s in leagues[leagueId].seasons && s != season ==> r[leagueId].seasons[s] == leagues[leagueId].seasons[s]) &&
      r[leagueId].seasons[season].matches.Keys == leagues[leagueId].seasons[season].matches.Keys &&
      (forall id :: id in leagues[leagueId].seasons[season].matches && id != matchId ==>
        r[leagueId].seasons[season].matches[id] == leagues[leagueId].seasons[season].matches[id])
  {
  }

  /** Saving details never changes the number of matches. */
  lemma DetailsSavedTotal(leagues: Leagues, leagueId: int, season: int, matchId: int, details: MatchDetails)
    ensures TotalMatches(DetailsSaved(leagues, leagueId, season, matchId, details)) == TotalMatches(leagues)
  {
    if HasMatch(leagues, leagueId, season, matchId) {
      var league := leagues[leagueId];
      var matches := league.seasons[season].matches;
      var newMatches := matches[matchId := matches[matchId].(details := Some(details))];
      assert newMatches.Keys == matches.Keys;
      var newLeague := league.(seasons := league.seasons[season := SeasonEntry(newMatches)]);
      assert SeasonSizes(newLeague) == SeasonSizes(league);
      TotalSameSizes(leagues, leagueId, newLeague);
    }
  }

  // ---------------------------------------------------------------------
  // The counting loops

  /** `_count_processed_matches`: for each league, the sum of its season sizes is added. */
  method CountMatches(leagues: Leagues) returns (count: nat)
    ensures count == TotalMatches(leagues)
  {
    count := 0;
    var rest := leagues;
    while rest.Keys != {}
      invariant count + TotalMatches(rest) == TotalMatches(leagues)
      decreases |rest.Keys|
    {
      var k := AnyKey(rest);
      SumValuesRemove(LeagueSizes(rest), k);
      assert LeagueSizes(rest) - {k} == LeagueSizes(rest - {k});
      var n := SumOfValues(SeasonSizes(rest[k]));
      count := count + n;
      assert (rest - {k}).Keys == rest.Keys - {k};
      rest := rest - {k};
    }
    assert LeagueSizes(rest).Keys == {};
  }

  /** The loop of `save_matches` writing one entry per fixture. */
  method WriteEach(matches: map<int, MatchEntry>, data: seq<FixtureRecord>) returns (r: map<int, MatchEntry>)
    ensures r == WriteMatches(matches, data)
  {
    r := matches;
    var i := 0;
    while i < |data|
      invariant 0 <= i <= |data|
      invariant r == WriteMatches(matches, data[..i])
    {
      assert data[..i + 1][..i] == data[..i];
      var matchData := data[i];
      r := r[matchData.id := MatchEntry(BasicInfo(matchData.homeName, matchData.awayName, matchData.goalsHome, matchData.goalsAway, matchData.date), matchData, None)];
      i := i + 1;
    }
    assert data[..|data|] == data;
  }

  /** The table steps of `save_matches`: create the league and the season when missing, then write the fixtures. */
  method WriteSeason(leagues: Leagues, leagueId: int, season: int, matchesData: seq<FixtureRecord>) returns (r: Leagues)
    ensures r == MatchesSaved(leagues, leagueId, season, matchesData)
  {
    r := leagues;
    if leagueId !in r {
      r := r[leagueId := LeagueEntry(map[], map[])];
    }
    if season !in r[leagueId].seasons {
      var league := r[leagueId];
      r := r[leagueId := league.(seasons := league.seasons[season := SeasonEntry(map[])])];
    }
    var league := r[leagueId];
    var written := WriteEach(league.seasons[season].matches, matchesData);
    r := r[leagueId := league.(seasons := league.seasons[season := SeasonEntry(written)])];
  }

  // ---------------------------------------------------------------------
  // The class

  class OrganizedCacheManager {
    var leagues: Leagues
    var metadata: Metadata

    /** `metadata.total_matches` agrees with the table. */
    ghost predicate Valid()
      reads this
    {
      metadata.totalMatches == TotalMatches(leagues)
    }

    /** A cache without a file: no leagues and zero totals. */
    constructor()
      ensures leagues == map[] && metadata == Metadata(0, 0)
      ensures Valid()
    {
      leagues := map[];
      metadata := Metadata(0, 0);
      new;
      assert LeagueSizes(leagues) == map[];
    }

    method SaveLeagueInfo(leagueId: int, leagueData: map<string, string>)
      modifies this
      ensures leagues == WithLeagueInfo(old(leagues), leagueId, leagueData)
      ensures metadata == old(metadata)
      ensures old(Valid()) ==> Valid()
    {
      if leagueId !in leagues {
        leagues := leagues[leagueId := LeagueEntry(leagueData, map[])];
      }
      LeagueInfoFacts(old(leagues), leagueId, leagueData, leagueData);
    }

    method SaveMatches(leagueId: int, season: int, matchesData: seq<FixtureRecord>)
      modifies this
      ensures leagues == MatchesSaved(old(leagues), leagueId, season, matchesData)
      ensures metadata == old(metadata).(totalMatches := TotalMatches(leagues))
      ensures Valid()
    {
      leagues := WriteSeason(leagues, leagueId, season, matchesData);
      var total := CountMatches(leagues);
      metadata := metadata.(totalMatches := total);
    }

    method SaveMatchDetails(leagueId: int, season: int, matchId: int,
                            events: seq<FootballApi.RawEvent>, statistics: seq<FootballApi.RawTeamStats>)
      modifies this
      ensures leagues == DetailsSaved(old(leagues), leagueId, season, matchId, MatchDetails(events, statistics))
      ensures metadata == old(metadata)
      ensures old(Valid()) ==> Valid()
    {
      if leagueId in leagues && season in leagues[leagueId].seasons && matchId in leagues[leagueId].seasons[season].matches {
        var league := leagues[leagueId];
        var matches := league.seasons[season].matches;
        var matchData := matches[matchId].(details := Some(MatchDetails(events, statistics)));
        leagues := leagues[leagueId := league.(seasons := league.seasons[season := SeasonEntry(matches[matchId := matchData])])];
      }
      DetailsSavedTotal(old(leagues), leagueId, season, matchId, MatchDetails(events, statistics));
    }

    function GetLeagueMatches(leagueId: int, season: int): (r: Option<map<int, MatchEntry>>)
      reads this
      ensures r == LeagueMatches(leagues, leagueId, season)
    {
      LeagueMatches(leagues, leagueId, season)
    }

    function GetMatchDetails(leagueId: int, season: int, matchId: int): (r: Option<MatchEntry>)
      reads this
      ensures r == MatchDetailsOf(leagues, leagueId, season, matchId)
    {
      MatchDetailsOf(leagues, leagueId, season, matchId)
    }

    method CountProcessedMatches() returns (count: nat)
      ensures count == TotalMatches(leagues)
    {
      count := CountMatches(leagues);
    }

    method ClearAll()
      modifies this
      ensures leagues == map[] && metadata == Metadata(0, 0)
      ensures Valid()
    {
      leagues := map[];
      metadata := Metadata(0, 0);
      assert LeagueSizes(leagues) == map[];
    }
  }
}
