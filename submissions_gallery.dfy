/** The community gallery: the latest submissions with the submitter's name
    and the challenge's title joined in, and the thumbnail of each card. */
module SubmissionsGallery {
  import opened Wrappers
  import Lists
  import Rows
  import Profiles
  import SubmissionForm

  const UnknownChallenge := "Unknown Challenge"

  /** A row of the `id, title` query on `challenges`. */
  datatype TitleRow = TitleRow(id: string, title: string)

  /** A submission as the gallery shows it. */
  datatype Card = Card(submission: Rows.Submission, userName: string, challengeTitle: string)

  /** The result of the submissions query: an error, or the rows (absent
      for `null`). */
  datatype Fetched = FetchFailed | Fetched(rows: Option<seq<Rows.Submission>>)

  /** `[...new Set(submissions.map(s => s.user_id))]`: every submitter once. */
  function UserIds(subs: seq<Rows.Submission>): (ids: seq<string>)
    ensures Lists.NoDuplicates(ids)
    ensures forall i :: 0 <= i < |subs| ==> subs[i].userId in ids
    ensures forall u :: u in ids ==> exists i :: 0 <= i < |subs| && subs[i].userId == u
  {
    var all := Lists.Map(subs, (s: Rows.Submission) => s.userId);
    assert forall i :: 0 <= i < |subs| ==> all[i] == subs[i].userId;
    Lists.Dedup(all)
  }

  /** `[...new Set(submissions.map(s => s.challenge_id))]`: every challenge
      once. */
  function ChallengeIds(subs: seq<Rows.Submission>): (ids: seq<string>)
    ensures Lists.NoDuplicates(ids)
    ensures forall i :: 0 <= i < |subs| ==> subs[i].challengeId in ids
    ensures forall c :: c in ids ==> exists i :: 0 <= i < |subs| && subs[i].challengeId == c
  {
    var all := Lists.Map(subs, (s: Rows.Submission) => s.challengeId);
    assert forall i :: 0 <= i < |subs| ==> all[i] == subs[i].challengeId;
    Lists.Dedup(all)
  }

  /** `new Map(challenges?.map(c => [c.id, c.title]) || [])`. */
  function TitleMap(rows: Option<seq<TitleRow>>): (m: map<string, string>)
    ensures rows.None? ==> m == map[]
    ensures rows.Some? ==> forall c :: c in m <==> exists i :: 0 <= i < |rows.value| && rows.value[i].id == c
  {
    if rows.None? then map[]
    else
      var pairs := Lists.Map(rows.value, (r: TitleRow) => (r.id, r.title));
      assert forall i :: 0 <= i < |pairs| ==> pairs[i].0 == rows.value[i].id;
      Lists.MapOf(pairs)
  }

  /** `challengeMap.get(id) || "Unknown Challenge"`. */
  function TitleOf(titles: map<string, string>, challengeId: string): (r: string)
    ensures r != ""
    ensures challengeId in titles && titles[challengeId] != "" ==> r == titles[challengeId]
    ensures challengeId !in titles || titles[challengeId] == "" ==> r == UnknownChallenge
  {
    if challengeId in titles && titles[challengeId] != "" then titles[challengeId] else UnknownChallenge
  }

  /** The title joined in for a challenge is that of its last title row,
      or "Unknown Challenge" when that title is empty. */
  lemma LastRowTitles(rows: seq<TitleRow>, i: int)
    requires 0 <= i < |rows|
    requires forall j :: i < j < |rows| ==> rows[j].id != rows[i].id
    ensures TitleMap(Some(rows))[rows[i].id] == rows[i].title
    ensures TitleOf(TitleMap(Some(rows)), rows[i].id) ==
      if rows[i].title != "" then rows[i].title else UnknownChallenge
  {
    var pairs := Lists.Map(rows, (r: TitleRow) => (r.id, r.title));
    assert forall j :: 0 <= j < |pairs| ==> pairs[j] == (rows[j].id, rows[j].title);
    Lists.MapOfLastWins(pairs, i);
  }

  /** A challenge without a title row is shown as "Unknown Challenge". */
  lemma NoTitleRowIsUnknown(rows: Option<seq<TitleRow>>, challengeId: string)
    requires rows.Some? ==> forall i :: 0 <= i < |rows.value| ==> rows.value[i].id != challengeId
    ensures TitleOf(TitleMap(rows), challengeId) == UnknownChallenge
  {
  }

  /** The enrichment: one card per submission, in the same order, with its
      name and title looked up. */
  function Enrich(subs: seq<Rows.Submission>, names: map<string, Option<string>>, titles: map<string, string>)
    : (cards: seq<Card>)
    ensures |cards| == |subs|
    ensures forall i :: 0 <= i < |subs| ==>
      && cards[i].submission == subs[i]
      && cards[i].userName == Profiles.NameOf(names, subs[i].userId)
      && cards[i].challengeTitle == TitleOf(titles, subs[i].challengeId)
  {
    Lists.Map(subs, (s: Rows.Submission) => Card(s, Profiles.NameOf(names, s.userId), TitleOf(titles, s.challengeId)))
  }

  /** Every card has a name and a title to show. */
  lemma CardsAreLabelled(subs: seq<Rows.Submission>, names: map<string, Option<string>>, titles: map<string, string>)
    ensures forall c :: c in Enrich(subs, names, titles) ==> c.userName != "" && c.challengeTitle != ""
  {
    var cards := Enrich(subs, names, titles);
    forall c | c in cards ensures c.userName != "" && c.challengeTitle != "" {
      var i :| 0 <= i < |cards| && cards[i] == c;
    }
  }

  /** `getThumbnail`: the first image, when there is a non-empty list. */
  function Thumbnail(s: Rows.Submission): (r: Option<string>)
    ensures r.Some? <==> s.imageUrls.Some? && |s.imageUrls.value| > 0
    ensures r.Some? ==> r == Some(s.imageUrls.value[0])
  {
    if s.imageUrls.Some? && |s.imageUrls.value| > 0 then Some(s.imageUrls.value[0]) else None
  }

  /** A submission stored by the submission form shows its first uploaded
      image, and no thumbnail when nothing was uploaded. */
  lemma ThumbnailOfSubmitted(s: Rows.Submission, userId: string, challengeId: string, urls: seq<string>,
                             figmaLink: string, externalUrl: string, notes: string)
    requires s.imageUrls == SubmissionForm.InsertRow(userId, challengeId, urls, figmaLink, externalUrl, notes).imageUrls
    ensures Thumbnail(s) == if urls == [] then None else Some(urls[0])
  {
  }

  class Gallery {
    var cards: seq<Card>
    var loading: bool

    constructor ()
      ensures cards == [] && loading
    {
      cards, loading := [], true;
    }

    /** `fetchSubmissions`. `profilesFor` and `titlesFor` are the two
        lookups by id list (absent rows for `null`); `queried` gives the two
        id lists they were called with, if they were. A failed query is
        only logged and leaves the cards as they were. */
    method Fetch(fetched: Fetched, profilesFor: seq<string> -> Option<seq<Rows.Profile>>,
                 titlesFor: seq<string> -> Option<seq<TitleRow>>)
      returns (queried: Option<(seq<string>, seq<string>)>)
      modifies this
      ensures !loading
      ensures fetched.FetchFailed? ==> queried.None? && cards == old(cards)
      ensures fetched.Fetched? && (fetched.rows.None? || fetched.rows.value == []) ==>
        queried.None? && cards == []
      ensures fetched.Fetched? && fetched.rows.Some? && fetched.rows.value != [] ==>
        var subs := fetched.rows.value;
        && queried == Some((UserIds(subs), ChallengeIds(subs)))
        && cards == Enrich(subs, Profiles.NameMap(profilesFor(UserIds(subs))),
                           TitleMap(titlesFor(ChallengeIds(subs))))
    {
      queried := None;
      if fetched.FetchFailed? {
        loading := false;
        return;
      }
      if fetched.rows.None? || fetched.rows.value == [] {
        cards := [];
        loading := false;
        return;
      }
      var subs := fetched.rows.value;
      var userIds := UserIds(subs);
      var names := Profiles.NameMap(profilesFor(userIds));
      var challengeIds := ChallengeIds(subs);
      var titles := TitleMap(titlesFor(challengeIds));
      cards := Enrich(subs, names, titles);
      queried := Some((userIds, challengeIds));
      loading := false;
    }
  }
}
