/** The Camp Track wizard: four steps (skill level, goals, tools, weekly
    hours), each gated by its own requirement, then saving the preferences
    (insert or update) and building recommendations from matching challenge
    and project rows, with goal-based suggestions when there are none. */
module CampTrack {
  import opened Wrappers
  import Lists
  import Text
  import Rows

  datatype Preferences = Preferences(
    skillLevel: string,
    goals: seq<string>,
    preferredTools: seq<string>,
    weeklyHours: int)

  const NoPreferences := Preferences("", [], [], 0)

  const SkillLevelIds := ["beginner", "intermediate", "advanced"]
  const GoalIds := ["portfolio", "visual", "ux-research", "interaction", "prototyping", "design-systems", "mobile", "web"]
  const ToolIds := ["figma", "adobe-xd", "sketch", "protopie", "principle", "framer", "miro", "notion"]
  const HourOptions := [2, 5, 10, 15]
  const TotalSteps := 4

  datatype Kind = ChallengeKind | ProjectKind

  datatype Recommendation = Recommendation(
    kind: Kind,
    title: string,
    description: string,
    duration: string,
    difficulty: string,
    category: string)

  /** `canProceed`: the requirement of each step; no other step may proceed. */
  predicate CanProceed(step: int, p: Preferences) {
    match step
    case 1 => p.skillLevel != []
    case 2 => |p.goals| > 0
    case 3 => |p.preferredTools| > 0
    case 4 => p.weeklyHours > 0
    case _ => false
  }

  /** `(step / totalSteps) * 100`, which is exact for the four steps. */
  function ProgressPercent(step: int): (r: int)
    requires 1 <= step <= TotalSteps
    ensures r * TotalSteps == step * 100
    ensures 0 < r <= 100 && (r == 100 <==> step == TotalSteps)
  {
    step * 100 / TotalSteps
  }

  /** A challenge row as a recommendation; a missing or empty time estimate
      becomes "30-60 min". */
  function FromChallenge(c: Rows.Challenge): (r: Recommendation)
    ensures r.kind == ChallengeKind && r.title == c.title && r.category == c.category && r.difficulty == c.difficulty
    ensures r.description == c.description
    ensures r.duration == if c.timeEstimate.Some? && c.timeEstimate.value != [] then c.timeEstimate.value else "30-60 min"
  {
    Recommendation(ChallengeKind, c.title, c.description,
      if c.timeEstimate.Some? && c.timeEstimate.value != [] then c.timeEstimate.value else "30-60 min",
      c.difficulty, c.category)
  }

  /** A project template row as a recommendation. */
  function FromProject(p: Rows.ProjectTemplate): (r: Recommendation)
    ensures r.kind == ProjectKind && r.title == p.title && r.duration == p.timeEstimate
    ensures r.difficulty == p.skillLevel && r.category == p.projectType
    ensures r.description == p.description
  {
    Recommendation(ProjectKind, p.title, p.description, p.timeEstimate, p.skillLevel, p.projectType)
  }

  /** `goal.replace("-", " ")`: only the first hyphen becomes a space. */
  function GoalLabel(goal: string): (r: string)
    ensures |r| == |goal|
    ensures '-' in goal ==> r[Text.FirstIndex(goal, '-')] == ' '
  {
    Text.ReplaceFirst(goal, '-', ' ')
  }

  /** The suggestion made for a goal when no row matched. */
  function FromGoal(goal: string, p: Preferences): (r: Recommendation)
    ensures r.kind == ProjectKind && r.category == goal && r.difficulty == p.skillLevel
    ensures r.title == GoalLabel(goal) + " Practice"
    ensures r.description == "Build your " + GoalLabel(goal) + " skills with focused exercises."
    ensures r.duration == if p.weeklyHours <= 2 then "1-2 hours" else "3-5 hours"
  {
    Recommendation(ProjectKind, GoalLabel(goal) + " Practice",
      "Build your " + GoalLabel(goal) + " skills with focused exercises.",
      if p.weeklyHours <= 2 then "1-2 hours" else "3-5 hours",
      p.skillLevel, goal)
  }

  /** The fallback suggestion as a function of the goal. */
  function Suggest(p: Preferences): (f: string -> Recommendation)
    ensures forall goal :: f(goal) == FromGoal(goal, p)
  {
    goal => FromGoal(goal, p)
  }

  function Min(a: int, b: int): int {
    if a <= b then a else b
  }

  /** What `generateRecommendations` stores: every challenge row in order,
      then every project row in order; only when both lists are empty (or
      `null`), one suggestion for each of the first three goals. */
  function Recommendations(challenges: Option<seq<Rows.Challenge>>, projects: Option<seq<Rows.ProjectTemplate>>,
                           p: Preferences): (r: seq<Recommendation>)
    ensures var cs, ps := challenges.GetOr([]), projects.GetOr([]);
      && (|cs| + |ps| > 0 ==>
            && |r| == |cs| + |ps|
            && (forall i :: 0 <= i < |cs| ==> r[i] == FromChallenge(cs[i]))
            && (forall j :: 0 <= j < |ps| ==> r[|cs| + j] == FromProject(ps[j])))
      && (|cs| + |ps| == 0 ==>
            && |r| == Min(3, |p.goals|)
            && forall i :: 0 <= i < |r| ==> r[i] == FromGoal(p.goals[i], p))
  {
    var recs := Lists.Map(challenges.GetOr([]), FromChallenge) + Lists.Map(projects.GetOr([]), FromProject);
    if recs == [] then Lists.Map(p.goals[..Min(3, |p.goals|)], Suggest(p)) else recs
  }

  /** A challenge is recommended ahead of every project. */
  lemma ChallengesBeforeProjects(challenges: seq<Rows.Challenge>, projects: seq<Rows.ProjectTemplate>, p: Preferences, i: int, j: int)
    requires 0 <= i < |challenges| && 0 <= j < |projects|
    ensures var r := Recommendations(Some(challenges), Some(projects), p);
      r[i].kind == ChallengeKind && r[|challenges| + j].kind == ProjectKind && i < |challenges| + j
  {
  }

  /** A goal id with a hyphen is titled with that hyphen as a space, and
      only the first hyphen is replaced: "ux-research" gives "ux research
      Practice", "a-b-c" gives "a b-c Practice". */
  lemma HyphenatedGoalTitle(a: string, b: string, p: Preferences)
    requires '-' !in a
    ensures FromGoal(a + "-" + b, p).title == a + " " + b + " Practice"
  {
    Text.ReplaceFirstAt(a, '-', ' ', b);
  }

  /** `generateRecommendations`: the two `forEach` loops that push the rows,
      then the fallback loop over the first three goals. */
  method BuildRecommendations(challenges: Option<seq<Rows.Challenge>>, projects: Option<seq<Rows.ProjectTemplate>>,
                              p: Preferences) returns (recs: seq<Recommendation>)
    ensures recs == Recommendations(challenges, projects, p)
  {
    var cs, ps := challenges.GetOr([]), projects.GetOr([]);
    recs := [];
    var i := 0;
    while i < |cs|
      invariant 0 <= i <= |cs|
      invariant recs == Lists.Map(cs[..i], FromChallenge)
    {
      Lists.MapSnoc(cs, FromChallenge, i);
      recs := recs + [FromChallenge(cs[i])];
      i := i + 1;
    }
    assert cs[..i] == cs;
    var j := 0;
    while j < |ps|
      invariant 0 <= j <= |ps|
      invariant recs == Lists.Map(cs, FromChallenge) + Lists.Map(ps[..j], FromProject)
    {
      Lists.MapSnoc(ps, FromProject, j);
      recs := recs + [FromProject(ps[j])];
      j := j + 1;
    }
    assert ps[..j] == ps;
    if |recs| == 0 {
      var goals := p.goals[..Min(3, |p.goals|)];
      var g := 0;
      while g < |goals|
        invariant 0 <= g <= |goals|
        invariant recs == Lists.Map(goals[..g], Suggest(p))
      {
        Lists.MapSnoc(goals, Suggest(p), g);
        recs := recs + [FromGoal(goals[g], p)];
        g := g + 1;
      }
      assert goals[..g] == goals;
    }
  }

  /** The write a save performs: an update when the page holds stored
      preferences, an insert otherwise. */
  datatype Write = Insert(userId: string, prefs: Preferences) | Update(userId: string, prefs: Preferences)

  function WriteFor(existing: Option<Preferences>, userId: string, prefs: Preferences): (w: Write)
    ensures w.Update? <==> existing.Some?
    ensures w.userId == userId && w.prefs == prefs
  {
    if existing.Some? then Update(userId, prefs) else Insert(userId, prefs)
  }

  datatype SaveOutcome =
    | SignInRequired(navigateTo: string, from: string)
    | Wrote(write: Write, ok: bool)

  function Inserts(ws: seq<Write>): (n: nat)
    ensures n <= |ws|
  {
    if ws == [] then 0 else (if ws[0].Insert? then 1 else 0) + Inserts(ws[1..])
  }

  /** The writes of consecutive successful saves during one visit of the
      page, as the page is written: the stored-preferences flag is set only
      by loading, so it keeps its initial value. */
  function SessionWritesAsWritten(existing: Option<Preferences>, userId: string, saves: seq<Preferences>): (ws: seq<Write>)
    ensures |ws| == |saves|
  {
    if saves == [] then [] else [WriteFor(existing, userId, saves[0])] + SessionWritesAsWritten(existing, userId, saves[1..])
  }

  /** The same with the flag set after each successful save. */
  function SessionWritesCorrected(existing: Option<Preferences>, userId: string, saves: seq<Preferences>): (ws: seq<Write>)
    ensures |ws| == |saves|
    decreases |saves|
  {
    if saves == [] then [] else [WriteFor(existing, userId, saves[0])] + SessionWritesCorrected(Some(saves[0]), userId, saves[1..])
  }

  /** As written, a user without stored preferences who saves, edits and
      saves again inserts a second row for the same user id. */
  lemma {:induction false} AsWrittenInsertsOnEverySave(userId: string, saves: seq<Preferences>)
    ensures Inserts(SessionWritesAsWritten(None, userId, saves)) == |saves|
  {
    if saves != [] {
      AsWrittenInsertsOnEverySave(userId, saves[1..]);
    }
  }

  /** The same for a concrete visit with two saves. */
  lemma AsWrittenTwoSavesTwoInserts(userId: string, p1: Preferences, p2: Preferences)
    ensures SessionWritesAsWritten(None, userId, [p1, p2]) == [Insert(userId, p1), Insert(userId, p2)]
  {
    assert [p1, p2][1..] == [p2];
  }

  /** With the flag set after a save, a visit inserts at most once, and not at
      all when preferences were already stored. */
  lemma {:induction false} CorrectedInsertsAtMostOnce(existing: Option<Preferences>, userId: string, saves: seq<Preferences>)
    ensures Inserts(SessionWritesCorrected(existing, userId, saves)) <= 1
    ensures existing.Some? ==> Inserts(SessionWritesCorrected(existing, userId, saves)) == 0
    decreases |saves|
  {
    if saves != [] {
      CorrectedInsertsAtMostOnce(Some(saves[0]), userId, saves[1..]);
    }
  }

  /** The wizard's state. */
  class Wizard {
    var step: int
    var preferences: Preferences
    var recommendations: seq<Recommendation>
    var showResults: bool
    var existingPrefs: Option<Preferences>
    var isLoading: bool

    /** The step stays within 1..4. */
    predicate Valid()
      reads this
    {
      1 <= step <= TotalSteps
    }

    /** Every step before the current one has its requirement met. */
    predicate Reached()
      reads this
    {
      && (step > 1 ==> CanProceed(1, preferences))
      && (step > 2 ==> CanProceed(2, preferences))
      && (step > 3 ==> CanProceed(3, preferences))
    }

    constructor ()
      ensures Valid() && Reached()
      ensures step == 1 && preferences == NoPreferences && recommendations == []
      ensures !showResults && existingPrefs.None? && !isLoading
    {
      step := 1;
      preferences := NoPreferences;
      recommendations := [];
      showResults := false;
      existingPrefs := None;
      isLoading := false;
    }

    /** `progress`, the percentage shown above the steps. */
    function Progress(): (r: int)
      reads this
      requires Valid()
      ensures r == 25 * step
    {
      ProgressPercent(step)
    }

    /** `loadExistingPreferences`: a stored row, when there is one, becomes
        both the stored-preferences flag and the edited preferences. */
    method LoadExisting(data: Option<Preferences>)
      modifies this
      ensures data.Some? ==> existingPrefs == data && preferences == data.value
      ensures data.None? ==> existingPrefs == old(existingPrefs) && preferences == old(preferences)
      ensures step == old(step) && showResults == old(showResults) && recommendations == old(recommendations)
      ensures isLoading == old(isLoading)
      ensures old(Valid()) ==> Valid()
      ensures old(step) == 1 ==> Reached()
    {
      if data.Some? {
        existingPrefs := data;
        preferences := data.value;
      }
    }

    /** The Back button, disabled on the first step. */
    method Back()
      requires Valid() && Reached() && !showResults && step != 1
      modifies this`step
      ensures step == old(step) - 1
      ensures Valid() && Reached()
    {
      step := step - 1;
    }

    /** The Next button, shown before the last step and enabled when the
        current step's requirement is met. */
    method Next()
      requires Valid() && Reached() && !showResults
      requires step < TotalSteps && CanProceed(step, preferences)
      modifies this`step
      ensures step == old(step) + 1
      ensures Valid() && Reached()
    {
      step := step + 1;
    }

    /** Choosing a skill level on step 1 replaces the previous choice. */
    method SelectSkillLevel(level: string)
      requires Valid() && Reached() && !showResults && step == 1
      requires level in SkillLevelIds
      modifies this`preferences
      ensures preferences == old(preferences).(skillLevel := level)
      ensures Valid() && Reached() && CanProceed(1, preferences)
    {
      preferences := preferences.(skillLevel := level);
    }

    /** Clicking a goal on step 2 toggles it. */
    method ToggleGoal(goal: string)
      requires Valid() && Reached() && !showResults && step == 2
      requires goal in GoalIds
      modifies this`preferences
      ensures preferences == old(preferences).(goals := Lists.Toggle(old(preferences.goals), goal))
      ensures Lists.NoDuplicates(old(preferences.goals)) ==> Lists.NoDuplicates(preferences.goals)
      ensures Valid() && Reached()
    {
      if Lists.NoDuplicates(preferences.goals) {
        Lists.ToggleKeepsNoDuplicates(preferences.goals, goal);
      }
      preferences := preferences.(goals := Lists.Toggle(preferences.goals, goal));
    }

    /** Clicking a tool on step 3 toggles it. */
    method ToggleTool(tool: string)
      requires Valid() && Reached() && !showResults && step == 3
      requires tool in ToolIds
      modifies this`preferences
      ensures preferences == old(preferences).(preferredTools := Lists.Toggle(old(preferences.preferredTools), tool))
      ensures Lists.NoDuplicates(old(preferences.preferredTools)) ==> Lists.NoDuplicates(preferences.preferredTools)
      ensures Valid() && Reached()
    {
      if Lists.NoDuplicates(preferences.preferredTools) {
        Lists.ToggleKeepsNoDuplicates(preferences.preferredTools, tool);
      }
      preferences := preferences.(preferredTools := Lists.Toggle(preferences.preferredTools, tool));
    }

    /** Choosing a weekly time on step 4. */
    method SelectHours(hours: int)
      requires Valid() && Reached() && !showResults && step == 4
      requires hours in HourOptions
      modifies this`preferences
      ensures preferences == old(preferences).(weeklyHours := hours)
      ensures Valid() && Reached() && CanProceed(4, preferences)
    {
      preferences := preferences.(weeklyHours := hours);
    }

    /** `savePreferences`, behind the last step's button (enabled when the
        step's requirement is met and nothing is loading). `writeOk` is
        whether the insert or update succeeded, and the two row lists are
        what the two queries of the recommendation builder return. As
        written, the stored-preferences flag is left as it was. */
    method SavePreferences(user: Option<string>, writeOk: bool,
                           challenges: Option<seq<Rows.Challenge>>, projects: Option<seq<Rows.ProjectTemplate>>)
      returns (outcome: SaveOutcome)
      requires Valid() && Reached() && !showResults && !isLoading
      requires step == TotalSteps && CanProceed(step, preferences)
      modifies this
      ensures user.None? ==> outcome == SignInRequired("/login", "/camp-track")
      ensures user.Some? ==> outcome == Wrote(WriteFor(old(existingPrefs), user.value, old(preferences)), writeOk)
      ensures outcome.Wrote? && outcome.ok ==> showResults && recommendations == Recommendations(challenges, projects, old(preferences))
      ensures !(outcome.Wrote? && outcome.ok) ==> !showResults && recommendations == old(recommendations)
      ensures step == old(step) && preferences == old(preferences) && existingPrefs == old(existingPrefs)
      ensures !isLoading
      ensures Valid() && Reached()
    {
      if user.None? {
        return SignInRequired("/login", "/camp-track");
      }
      isLoading := true;
      var write := WriteFor(existingPrefs, user.value, preferences);
      outcome := Wrote(write, writeOk);
      if writeOk {
        recommendations := BuildRecommendations(challenges, projects, preferences);
        showResults := true;
      }
      isLoading := false;
    }

    /** The same with the flag set once the write has succeeded, so that a
        later save in the same visit updates the row. */
    method SavePreferencesCorrected(user: Option<string>, writeOk: bool,
                                    challenges: Option<seq<Rows.Challenge>>, projects: Option<seq<Rows.ProjectTemplate>>)
      returns (outcome: SaveOutcome)
      requires Valid() && Reached() && !showResults && !isLoading
      requires step == TotalSteps && CanProceed(step, preferences)
      modifies this
      ensures user.None? ==> outcome == SignInRequired("/login", "/camp-track")
      ensures user.Some? ==> outcome == Wrote(WriteFor(old(existingPrefs), user.value, old(preferences)), writeOk)
      ensures outcome.Wrote? && outcome.ok ==> showResults && recommendations == Recommendations(challenges, projects, old(preferences))
      ensures outcome.Wrote? && outcome.ok ==> existingPrefs == Some(old(preferences))
      ensures !(outcome.Wrote? && outcome.ok) ==> !showResults && recommendations == old(recommendations) && existingPrefs == old(existingPrefs)
      ensures step == old(step) && preferences == old(preferences)
      ensures !isLoading
      ensures Valid() && Reached()
    {
      if user.None? {
        return SignInRequired("/login", "/camp-track");
      }
      isLoading := true;
      var write := WriteFor(existingPrefs, user.value, preferences);
      outcome := Wrote(write, writeOk);
      if writeOk {
        existingPrefs := Some(preferences);
        recommendations := BuildRecommendations(challenges, projects, preferences);
        showResults := true;
      }
      isLoading := false;
    }

    /** "Edit Preferences" on the results: back to the first step, with the
        preferences kept. */
    method EditPreferences()
      requires Valid() && showResults
      modifies this`showResults, this`step
      ensures !showResults && step == 1
      ensures Valid() && Reached()
    {
      showResults := false;
      step := 1;
    }
  }
}
