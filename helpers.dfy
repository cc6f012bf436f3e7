/** `utils/helpers.py`: the season list used to pick which seasons to analyse. */
module Helpers {

  /** `list(range(current_year - past_years, current_year + 1))`. */
  function SeasonYears(currentYear: int, pastYears: int): (r: seq<int>)
    ensures |r| == if pastYears >= 0 then pastYears + 1 else 0
    ensures forall i :: 0 <= i < |r| ==> r[i] == currentYear - pastYears + i
    decreases pastYears + 1
  {
    if pastYears < 0 then [] else SeasonYears(currentYear - 1, pastYears - 1) + [currentYear]
  }

  /** The list counts up by one and ends at the current year. */
  lemma SeasonYearsConsecutive(currentYear: int, pastYears: int)
    requires pastYears >= 0
    ensures var r := SeasonYears(currentYear, pastYears);
      r[|r| - 1] == currentYear && r[0] == currentYear - pastYears &&
      forall i :: 0 < i < |r| ==> r[i] == r[i - 1] + 1
  {
  }

  /** The default `past_years = 1` gives the previous and the current season. */
  lemma SeasonYearsDefault(currentYear: int)
    ensures SeasonYears(currentYear, 1) == [currentYear - 1, currentYear]
  {
  }
}
