/** The archive page: every challenge, newest first, narrowed by the
    difficulty and category filters. */
module Challenges {
  import opened Wrappers
  import Rows
  import ChallengeFilters

  /** The label above the list: "challenge" for exactly one, otherwise
      "challenges". */
  function ArchiveCountLabel(n: nat): (r: string)
    ensures |r| > |"challenges"|
    ensures n == 1 <==> r[|r| - |"challenge"|..] == "challenge"
    ensures n != 1 <==> r[|r| - |"challenges"|..] == "challenges"
  {
    ChallengeFilters.CountLabel(n, "challenge")
  }

  class Page {
    var challenges: seq<Rows.Challenge>
    var loading: bool

    constructor ()
      ensures challenges == [] && loading
    {
      challenges, loading := [], true;
    }

    /** `fetchChallenges`: no date bound, so with both filters "All" the
        query selects every challenge. */
    method Fetch(difficulty: string, category: string,
                 run: ChallengeFilters.Query -> Option<seq<Rows.Challenge>>)
      returns (q: ChallengeFilters.Query)
      modifies this
      ensures forall c :: ChallengeFilters.Selects(q, c) <==> ChallengeFilters.Wanted(c, None, difficulty, category)
      ensures difficulty == ChallengeFilters.All && category == ChallengeFilters.All ==>
        forall c :: ChallengeFilters.Selects(q, c)
      ensures q.newestFirst
      ensures challenges == if run(q).Some? then run(q).value else old(challenges)
      ensures !loading
    {
      q := ChallengeFilters.ListQuery(None, difficulty, category);
      var rows := run(q);
      if rows.Some? {
        challenges := rows.value;
      }
      loading := false;
    }
  }
}
