/** The today page: today's challenge with the countdown and the user's own
    submission, and the list of past challenges below it. */
module TodayChallenges {
  import opened Wrappers
  import Rows
  import ChallengeFilters

  /** A navigation to a page, remembering where to come back to. */
  datatype Navigation = Navigate(to: string, from: string)

  /** What the submission area of today's challenge shows. */
  datatype SubmissionArea = AlreadySubmitted(thumbnails: seq<string>) | FormShown | SubmitButton

  /** The thumbnails of an existing submission: its first three image URLs. */
  function Thumbnails(urls: Option<seq<string>>): (r: seq<string>)
    ensures urls.None? ==> r == []
    ensures urls.Some? ==> |r| == if |urls.value| < 3 then |urls.value| else 3
    ensures urls.Some? ==> r == urls.value[..|r|]
  {
    if urls.None? then [] else if |urls.value| <= 3 then urls.value else urls.value[..3]
  }

  /** The area below today's challenge: the submission when the signed-in
      user has one, else the form once asked for, else the button. */
  function Area(user: Option<string>, submission: Option<Rows.Submission>, showSubmitForm: bool): (a: SubmissionArea)
    ensures a.AlreadySubmitted? <==> user.Some? && submission.Some?
    ensures a.AlreadySubmitted? ==> a.thumbnails == Thumbnails(submission.value.imageUrls)
    ensures a.FormShown? <==> !(user.Some? && submission.Some?) && showSubmitForm && user.Some?
  {
    if user.Some? && submission.Some? then AlreadySubmitted(Thumbnails(submission.value.imageUrls))
    else if showSubmitForm && user.Some? then FormShown
    else SubmitButton
  }

  /** The label above the past list. */
  function PastCountLabel(n: nat): (r: string)
    ensures |r| > |"past challenge"|
    ensures n == 1 <==> r[|r| - |"past challenge"|..] == "past challenge"
  {
    ChallengeFilters.CountLabel(n, "past challenge")
  }

  class Page {
    var showSubmitForm: bool
    var userSubmission: Option<Rows.Submission>
    var pastChallenges: seq<Rows.Challenge>
    var loadingPast: bool

    constructor ()
      ensures !showSubmitForm && userSubmission.None? && pastChallenges == [] && loadingPast
    {
      showSubmitForm, userSubmission, pastChallenges, loadingPast := false, None, [], true;
    }

    /** "Submit My Work": signed out, a visit to the sign-up page that comes
        back here; signed in, the form. */
    method SubmitWork(user: Option<string>) returns (nav: Option<Navigation>)
      modifies this`showSubmitForm
      ensures user.None? ==> nav == Some(Navigate("/signup", "/challenges/today")) && showSubmitForm == old(showSubmitForm)
      ensures user.Some? ==> nav.None? && showSubmitForm
    {
      if user.None? {
        nav := Some(Navigate("/signup", "/challenges/today"));
      } else {
        nav := None;
        showSubmitForm := true;
      }
    }

    /** After a successful submission the form closes and the submission is
        read again; `refetched` is that row, when the read returned one. */
    method SubmissionSucceeded(refetched: Option<Rows.Submission>)
      modifies this`showSubmitForm, this`userSubmission
      ensures !showSubmitForm
      ensures userSubmission == if refetched.Some? then refetched else old(userSubmission)
    {
      showSubmitForm := false;
      if refetched.Some? {
        userSubmission := refetched;
      }
    }

    /** `fetchPastChallenges`: the query of dates before today with the two
        filters; `run` is the store, giving rows or an error (`None`), which
        leaves the list as it was. */
    method FetchPast(today: string, difficulty: string, category: string,
                     run: ChallengeFilters.Query -> Option<seq<Rows.Challenge>>)
      returns (q: ChallengeFilters.Query)
      modifies this`pastChallenges, this`loadingPast
      ensures forall c :: ChallengeFilters.Selects(q, c) <==> ChallengeFilters.Wanted(c, Some(today), difficulty, category)
      ensures q.newestFirst
      ensures pastChallenges == if run(q).Some? then run(q).value else old(pastChallenges)
      ensures !loadingPast
    {
      q := ChallengeFilters.ListQuery(Some(today), difficulty, category);
      var rows := run(q);
      if rows.Some? {
        pastChallenges := rows.value;
      }
      loadingPast := false;
    }
  }
}
