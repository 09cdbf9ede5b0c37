/** The detail page of one challenge, reached by id or as "today": the
    lookup, whether it is today's challenge (which runs the countdown), and
    which sections of the brief are shown. */
module ChallengeDetail {
  import opened Wrappers
  import Lists
  import Text
  import Rows
  import Countdown
  import ChallengeFilters

  const TodayId := "today"

  /** The page's query, built as the page builds it: the id "today" selects
      by today's date, any other id by id. */
  method DetailQuery(id: string, today: string) returns (q: ChallengeFilters.Query)
    ensures forall c :: ChallengeFilters.Selects(q, c) <==>
      if id == TodayId then c.challengeDate == today else c.id == id
    ensures |q.constraints| == 1
  {
    q := ChallengeFilters.Query([], false);
    if id == TodayId {
      q := q.(constraints := [ChallengeFilters.Equals(ChallengeFilters.DateColumn, today)]);
    } else {
      q := q.(constraints := [ChallengeFilters.Equals(ChallengeFilters.IdColumn, id)]);
    }
    forall c ensures ChallengeFilters.Selects(q, c) <==> if id == TodayId then c.challengeDate == today else c.id == id {
      assert ChallengeFilters.Satisfies(c, q.constraints[0]) <==> if id == TodayId then c.challengeDate == today else c.id == id;
    }
  }

  /** A text column counts when it is present and not empty. */
  predicate Given(s: Option<string>) {
    s.Some? && s.value != []
  }

  /** A line counts as a paragraph when it is not blank. */
  predicate NotBlank(line: string) {
    Text.Trim(line) != []
  }

  /** The legacy brief: the lines of `full_description` that are not blank,
      in their order. */
  function LegacyParagraphs(fullDescription: string): (r: seq<string>)
    ensures forall i :: 0 <= i < |r| ==> NotBlank(r[i]) && '\n' !in r[i]
    ensures forall p :: p in Text.Split(fullDescription, '\n') && NotBlank(p) ==> p in r
    ensures Lists.IsSubsequence(r, Text.Split(fullDescription, '\n'))
    ensures forall p :: multiset(r)[p] == (if NotBlank(p) then multiset(Text.Split(fullDescription, '\n'))[p] else 0)
  {
    Lists.Filter(Text.Split(fullDescription, '\n'), NotBlank)
  }

  /** Non-blank lines joined by line breaks come back as the same
      paragraphs. */
  lemma ParagraphsOfJoinedLines(lines: seq<string>)
    requires |lines| >= 1
    requires forall i :: 0 <= i < |lines| ==> '\n' !in lines[i] && NotBlank(lines[i])
    ensures LegacyParagraphs(Text.Join(lines, '\n')) == lines
  {
    Text.SplitJoin(lines, '\n');
    Lists.FilterAllPass(lines, NotBlank);
  }

  /** Which parts of the brief are shown. */
  datatype Sections = Sections(
    background: bool,
    task: bool,
    constraints: Option<seq<string>>,
    bonus: bool,
    legacy: Option<seq<string>>)

  function SectionsOf(c: Rows.Challenge): (s: Sections)
    ensures s.background <==> Given(c.backgroundContext)
    ensures s.task <==> Given(c.challengeTask)
    ensures s.bonus <==> Given(c.bonusChallenge)
    ensures s.constraints.Some? <==> c.constraints.Some? && |c.constraints.value| > 0
    ensures s.constraints.Some? ==> s.constraints == c.constraints
    ensures s.legacy.Some? <==> !Given(c.backgroundContext) && Given(c.fullDescription)
    ensures s.legacy.Some? ==> s.legacy.value == LegacyParagraphs(c.fullDescription.value)
  {
    Sections(
      Given(c.backgroundContext),
      Given(c.challengeTask),
      if c.constraints.Some? && |c.constraints.value| > 0 then c.constraints else None,
      Given(c.bonusChallenge),
      if !Given(c.backgroundContext) && Given(c.fullDescription) then Some(LegacyParagraphs(c.fullDescription.value)) else None)
  }

  datatype View = Loading | NotFound | Shown(c: Rows.Challenge, sections: Sections, countdown: Option<Countdown.TimeLeft>)

  class Page {
    var challenge: Option<Rows.Challenge>
    var loading: bool
    var isToday: bool

    constructor ()
      ensures challenge.None? && loading && !isToday
    {
      challenge, loading, isToday := None, true, false;
    }

    /** `fetchChallenge`: `run` is the store's single-row read (`None` for
        no row or an error). A row found becomes the challenge, and
        `isToday` says whether its date is today; otherwise both stay. */
    method Fetch(id: string, today: string, run: ChallengeFilters.Query -> Option<Rows.Challenge>)
      returns (q: ChallengeFilters.Query)
      modifies this
      ensures forall c :: ChallengeFilters.Selects(q, c) <==>
        if id == TodayId then c.challengeDate == today else c.id == id
      ensures run(q).Some? ==> challenge == run(q) && (isToday <==> run(q).value.challengeDate == today)
      ensures run(q).None? ==> challenge == old(challenge) && isToday == old(isToday)
      ensures !loading
    {
      loading := true;
      q := DetailQuery(id, today);
      var data := run(q);
      if data.Some? {
        challenge := data;
        isToday := data.value.challengeDate == today;
      }
      loading := false;
    }

    /** What the page shows, `diff` being the milliseconds to midnight: the
        countdown only for today's challenge, "Not Found" when nothing was
        loaded. */
    function ViewOf(diff: nat): (v: View)
      reads this
      ensures v.Loading? <==> loading
      ensures v.NotFound? <==> !loading && challenge.None?
      ensures v.Shown? ==> v.c == challenge.value && v.sections == SectionsOf(challenge.value)
      ensures v.Shown? ==> (v.countdown.Some? <==> isToday)
      ensures v.Shown? && isToday ==> v.countdown == Some(Countdown.CalculateTimeLeft(diff))
    {
      if loading then Loading
      else if challenge.None? then NotFound
      else Shown(challenge.value, SectionsOf(challenge.value), if isToday then Some(Countdown.CalculateTimeLeft(diff)) else None)
    }
  }
}
