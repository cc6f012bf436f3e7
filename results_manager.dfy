/**
 * `utils/results_manager.py`: the in-memory `results_data` table of
 * leagues, their seasons, and per season the saved combinations, the final
 * analysis and the progress marker used to resume an analysis. League and
 * season keys are the integers whose `str()` the Python uses as keys.
 */
module ResultsStore {
  import opened Wrappers
  import opened Models
  import opened FiniteSums
  import Strings
  import ResultRanking

  /** `current_progress`. */
  datatype Progress = Progress(
    combinationSize: Option<int>,
    currentCombination: Option<seq<string>>,
    processedCount: int,
    totalCombinations: int)

  /** The progress of a new season, and the one left after the final results are saved. */
  const FreshProgress := Progress(None, None, 0, 0)

  /** One entry of `combos`. */
  datatype ComboRecord = ComboRecord(appearedCount: int, percentage: real, combinationSize: nat)

  /** One season; `analysisResults` is `None` while it is still the empty dictionary. */
  datatype SeasonData = SeasonData(
    totalMatchesProcessed: int,
    combos: map<string, ComboRecord>,
    analysisResults: Option<ResultRanking.FinalResults>,
    currentProgress: Progress)

  datatype LeagueData = LeagueData(name: string, seasons: map<int, SeasonData>)

  /** The counters of `metadata` (its timestamps are not modelled). */
  datatype Metadata = Metadata(totalLeagues: nat, totalSeasons: nat)

  type Leagues = map<int, LeagueData>

  function NewSeason(totalMatches: int): SeasonData
  {
    SeasonData(totalMatches, map[], None, FreshProgress)
  }

  predicate HasSeason(leagues: Leagues, leagueId: int, season: int)
  {
    leagueId in leagues && season in leagues[leagueId].seasons
  }

  /** The number of seasons of every league. */
  function SeasonCounts(leagues: Leagues): map<int, nat>
  {
    map k | k in leagues :: |leagues[k].seasons|
  }

  ghost function TotalSeasons(leagues: Leagues): nat
  {
    SumValues(SeasonCounts(leagues))
  }

  /** The table after `initialize_league_season`: absent entries created, present ones untouched. */
  function Initialized(leagues: Leagues, leagueId: int, leagueName: string, season: int, totalMatches: int): Leagues
  {
    if HasSeason(leagues, leagueId, season) then leagues
    else
      var league := if leagueId in leagues then leagues[leagueId] else LeagueData(leagueName, map[]);
      leagues[leagueId := league.(seasons := league.seasons[season := NewSeason(totalMatches)])]
  }

  /** Apply `f` to one existing season; the table is unchanged when the season is absent. */
  function UpdateSeason(leagues: Leagues, leagueId: int, season: int, f: SeasonData -> SeasonData): Leagues
  {
    if HasSeason(leagues, leagueId, season) then
      var league := leagues[leagueId];
      leagues[leagueId := league.(seasons := league.seasons[season := f(league.seasons[season])])]
    else leagues
  }

  /** The `combos` entry `save_combo_result` writes. */
  function ComboRecordOf(combo: seq<string>, occurrenceCount: int, totalMatches: int): ComboRecord
  {
    ComboRecord(occurrenceCount, Percent(occurrenceCount, totalMatches), |combo|)
  }

  function WithCombo(combo: seq<string>, occurrenceCount: int, totalMatches: int): SeasonData -> SeasonData
  {
    (s: SeasonData) => s.(combos := s.combos[Strings.Join(combo, ',') := ComboRecordOf(combo, occurrenceCount, totalMatches)])
  }

  function WithProgress(p: Progress): SeasonData -> SeasonData
  {
    (s: SeasonData) => s.(currentProgress := p)
  }

  function WithAnalysis(results: ResultRanking.FinalResults): SeasonData -> SeasonData
  {
    (s: SeasonData) => s.(analysisResults := Some(results), currentProgress := FreshProgress)
  }

  /** `if progress['current_combination']`: present and not empty. */
  predicate Resumable(p: Progress)
  {
    p.currentCombination.Some? && p.currentCombination.value != []
  }

  /** `get_resume_point`. */
  function ResumePoint(leagues: Leagues, leagueId: int, season: int): (r: Option<Progress>)
    ensures r.Some? <==> HasSeason(leagues, leagueId, season) && Resumable(leagues[leagueId].seasons[season].currentProgress)
    ensures r.Some? ==> r.value == leagues[leagueId].seasons[season].currentProgress
  {
    if HasSeason(leagues, leagueId, season) && Resumable(leagues[leagueId].seasons[season].currentProgress)
    then Some(leagues[leagueId].seasons[season].currentProgress)
    else None
  }

  /** Initialising twice is initialising once. */
  lemma InitializeIdempotent(leagues: Leagues, leagueId: int, leagueName: string, season: int, totalMatches: int,
                             otherName: string, otherTotal: int)
    ensures var once := Initialized(leagues, leagueId, leagueName, season, totalMatches);
      Initialized(once, leagueId, otherName, season, otherTotal) == once
  {
  }

  /**
   * Initialising never changes an existing league's name or any other season,
   * and creates the requested season with fresh progress only when it was absent.
   */
  lemma InitializeKeepsData(leagues: Leagues, leagueId: int, leagueName: string, season: int, totalMatches: int)
    ensures var after := Initialized(leagues, leagueId, leagueName, season, totalMatches);
      HasSeason(after, leagueId, season) &&
      (forall k :: k in leagues ==> k in after && after[k].name == leagues[k].name) &&
      (forall k, s :: HasSeason(leagues, k, s) ==> HasSeason(after, k, s) && after[k].seasons[s] == leagues[k].seasons[s]) &&
      (!HasSeason(leagues, leagueId, season) ==> after[leagueId].seasons[season] == NewSeason(totalMatches)) &&
      after.Keys == leagues.Keys + {leagueId}
  {
  }

  /** Creating a season adds exactly one to the season total. */
  lemma {:induction false} InitializeCountsSeason(leagues: Leagues, leagueId: int, leagueName: string, season: int, totalMatches: int)
    requires !HasSeason(leagues, leagueId, season)
    ensures TotalSeasons(Initialized(leagues, leagueId, leagueName, season, totalMatches)) == TotalSeasons(leagues) + 1
  {
    var before := SeasonCounts(leagues);
    var old_ := if leagueId in leagues then |leagues[leagueId].seasons| else 0;
    InitializedSeasonCounts(leagues, leagueId, leagueName, season, totalMatches);
    SumValuesUpdate(before, leagueId, old_ + 1);
    assert (if leagueId in before then before[leagueId] else 0) == old_;
  }

  /** Creating a season raises the season count of its league by one and leaves the others. */
  lemma InitializedSeasonCounts(leagues: Leagues, leagueId: int, leagueName: string, season: int, totalMatches: int)
    requires !HasSeason(leagues, leagueId, season)
    ensures SeasonCounts(Initialized(leagues, leagueId, leagueName, season, totalMatches)) ==
      SeasonCounts(leagues)[leagueId := (if leagueId in leagues then |leagues[leagueId].seasons| else 0) + 1]
  {
    var league := if leagueId in leagues then leagues[leagueId] else LeagueData(leagueName, map[]);
    var seasons := league.seasons[season := NewSeason(totalMatches)];
    assert |seasons| == |league.seasons| + 1 by {
      assert seasons.Keys == league.seasons.Keys + {season};
    }
    SeasonCountsUpdate(leagues, leagueId, league.(seasons := seasons));
  }

  /** Replacing one league replaces its season count only. */
  lemma SeasonCountsUpdate(leagues: Leagues, leagueId: int, league: LeagueData)
    ensures SeasonCounts(leagues[leagueId := league]) == SeasonCounts(leagues)[leagueId := |league.seasons|]
  {
    var l := SeasonCounts(leagues[leagueId := league]);
    var r := SeasonCounts(leagues)[leagueId := |league.seasons|];
    assert l.Keys == r.Keys;
  }

  /** Updates of one season touch no other season and keep the league set and their names. */
  lemma UpdateSeasonFrame(leagues: Leagues, leagueId: int, season: int, f: SeasonData -> SeasonData)
    ensures var after := UpdateSeason(leagues, leagueId, season, f);
      after.Keys == leagues.Keys &&
      (forall k :: k in leagues ==> after[k].name == leagues[k].name && after[k].seasons.Keys == leagues[k].seasons.Keys) &&
      (forall k, s :: HasSeason(leagues, k, s) && (k, s) != (leagueId, season) ==> after[k].seasons[s] == leagues[k].seasons[s]) &&
      SeasonCounts(after) == SeasonCounts(leagues)
  {
  }

  /**
   * A season just created, or whose final results were saved, has no resume
   * point; after progress naming a non-empty combination it has that progress.
   */
  lemma ResumePointLifecycle(leagues: Leagues, leagueId: int, season: int, results: ResultRanking.FinalResults, p: Progress)
    ensures !HasSeason(leagues, leagueId, season) ==>
      forall name, total :: ResumePoint(Initialized(leagues, leagueId, name, season, total), leagueId, season) == None
    ensures ResumePoint(UpdateSeason(leagues, leagueId, season, WithAnalysis(results)), leagueId, season) == None
    ensures HasSeason(leagues, leagueId, season) && Resumable(p) ==>
      ResumePoint(UpdateSeason(leagues, leagueId, season, WithProgress(p)), leagueId, season) == Some(p)
  {
  }

  /** The key of a saved combination gives the combination back (names contain no comma). */
  lemma ComboKeyRoundTrip(combo: seq<string>)
    requires combo != [] && Strings.Clean(combo, ',')
    ensures Strings.Split(Strings.Join(combo, ','), ',') == combo
  {
    Strings.SplitJoin(combo, ',');
  }

  class ResultsManager {
    var leagues: Leagues
    var metadata: Metadata

    /** The counters of `metadata` agree with the table. */
    ghost predicate Valid()
      reads this
    {
      metadata.totalLeagues == |leagues| && metadata.totalSeasons == TotalSeasons(leagues)
    }

    /** `_create_new_results`: no leagues yet. */
    constructor()
      ensures leagues == map[] && metadata == Metadata(0, 0)
      ensures Valid()
    {
      leagues := map[];
      metadata := Metadata(0, 0);
      new;
      assert SeasonCounts(leagues) == map[];
    }

    method InitializeLeagueSeason(leagueId: int, leagueName: string, season: int, totalMatches: int)
      modifies this
      ensures leagues == Initialized(old(leagues), leagueId, leagueName, season, totalMatches)
      ensures HasSeason(old(leagues), leagueId, season) ==> metadata == old(metadata)
      ensures !HasSeason(old(leagues), leagueId, season) ==> Valid()
      ensures old(Valid()) ==> Valid()
    {
      if leagueId !in leagues {
        leagues := leagues[leagueId := LeagueData(leagueName, map[])];
      }
      if season !in leagues[leagueId].seasons {
        var league := leagues[leagueId];
        leagues := leagues[leagueId := league.(seasons := league.seasons[season := NewSeason(totalMatches)])];
        var total := SumOfValues(SeasonCounts(leagues));
        metadata := Metadata(|leagues|, total);
      }
    }

    method SaveComboResult(leagueId: int, season: int, combo: seq<string>, occurrenceCount: int, totalMatches: int, deferSave: bool)
      modifies this
      ensures leagues == UpdateSeason(old(leagues), leagueId, season, WithCombo(combo, occurrenceCount, totalMatches))
      ensures metadata == old(metadata)
      ensures old(Valid()) ==> Valid()
    {
      // deferSave only decides whether the file is written now.
      if leagueId in leagues && season in leagues[leagueId].seasons {
        var league := leagues[leagueId];
        var seasonData := league.seasons[season];
        var record := ComboRecord(occurrenceCount, Percent(occurrenceCount, totalMatches), |combo|);
        seasonData := seasonData.(combos := seasonData.combos[Strings.Join(combo, ',') := record]);
        leagues := leagues[leagueId := league.(seasons := league.seasons[season := seasonData])];
      }
      UpdateSeasonFrame(old(leagues), leagueId, season, WithCombo(combo, occurrenceCount, totalMatches));
    }

    method UpdateProgress(leagueId: int, season: int, combinationSize: int, currentCombination: seq<string>,
                          processedCount: int, totalCombinations: int)
      modifies this
      ensures leagues == UpdateSeason(old(leagues), leagueId, season,
        WithProgress(Progress(Some(combinationSize), Some(currentCombination), processedCount, totalCombinations)))
      ensures metadata == old(metadata)
      ensures old(Valid()) ==> Valid()
    {
      var p := Progress(Some(combinationSize), Some(currentCombination), processedCount, totalCombinations);
      if leagueId in leagues && season in leagues[leagueId].seasons {
        var league := leagues[leagueId];
        var seasonData := league.seasons[season].(currentProgress := p);
        leagues := leagues[leagueId := league.(seasons := league.seasons[season := seasonData])];
      }
      UpdateSeasonFrame(old(leagues), leagueId, season, WithProgress(p));
    }

    function GetResumePoint(leagueId: int, season: int): (r: Option<Progress>)
      reads this
      ensures r == ResumePoint(leagues, leagueId, season)
      ensures r.Some? ==> Resumable(r.value)
    {
      ResumePoint(leagues, leagueId, season)
    }

    method SaveAnalysisResults(leagueId: int, season: int, results: ResultRanking.FinalResults)
      modifies this
      ensures leagues == UpdateSeason(old(leagues), leagueId, season, WithAnalysis(results))
      ensures metadata == old(metadata)
      ensures old(Valid()) ==> Valid()
      ensures GetResumePoint(leagueId, season) == None
    {
      if leagueId in leagues && season in leagues[leagueId].seasons {
        var league := leagues[leagueId];
        var seasonData := league.seasons[season].(analysisResults := Some(results), currentProgress := FreshProgress);
        leagues := leagues[leagueId := league.(seasons := league.seasons[season := seasonData])];
      }
      UpdateSeasonFrame(old(leagues), leagueId, season, WithAnalysis(results));
      ResumePointLifecycle(old(leagues), leagueId, season, results, FreshProgress);
    }

    /** `get_league_season_results`: the season's record, or `None` for the `KeyError`. */
    function GetLeagueSeasonResults(leagueId: int, season: int): (r: Option<SeasonData>)
      reads this
      ensures r.Some? <==> HasSeason(leagues, leagueId, season)
      ensures r.Some? ==> r.value == leagues[leagueId].seasons[season]
    {
      if leagueId in leagues && season in leagues[leagueId].seasons then Some(leagues[leagueId].seasons[season]) else None
    }
  }
}
