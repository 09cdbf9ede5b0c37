/** The project generator page: four filter selections sent to the
    `generate-project` function, and the reply normalised into the project
    shown, with defaults for missing fields and lower-case, hyphenated
    skill level and duration. */
module Projects {
  import opened Wrappers
  import opened JsonValues
  import Text
  import GenerateProject

  const Any := "all"

  /** The value sent for one selection: nothing for "all". */
  function FilterParam(v: string): (r: Option<string>)
    ensures r.None? <==> v == Any
    ensures r.Some? ==> r.value == v
  {
    if v == Any then None else Some(v)
  }

  /** The request body; an `undefined` property is dropped when the body is
      serialised. */
  function RequestBody(skillLevel: string, projectType: string, platform: string, duration: string): (body: Json)
    ensures body.JObj?
    ensures "skillLevel" in body.fields <==> skillLevel != Any
    ensures "projectType" in body.fields <==> projectType != Any
    ensures "platform" in body.fields <==> platform != Any
    ensures "duration" in body.fields <==> duration != Any
    ensures forall k :: k in body.fields ==> body.fields[k].JStr?
    ensures body.fields.Keys <= {"skillLevel", "projectType", "platform", "duration"}
    ensures skillLevel != Any ==> body.fields["skillLevel"] == JStr(skillLevel)
    ensures projectType != Any ==> body.fields["projectType"] == JStr(projectType)
    ensures platform != Any ==> body.fields["platform"] == JStr(platform)
    ensures duration != Any ==> body.fields["duration"] == JStr(duration)
  {
    var m0: map<string, Json> := map[];
    var m1 := if skillLevel != Any then m0["skillLevel" := JStr(skillLevel)] else m0;
    var m2 := if projectType != Any then m1["projectType" := JStr(projectType)] else m1;
    var m3 := if platform != Any then m2["platform" := JStr(platform)] else m2;
    JObj(if duration != Any then m3["duration" := JStr(duration)] else m3)
  }

  /** With every selection at "all" the generator uses all its defaults. */
  lemma AllSelectionsGetDefaults()
    ensures GenerateProject.FiltersFor(RequestBody(Any, Any, Any, Any)) == GenerateProject.DefaultFilters
  {
    GenerateProject.FilterDefaults(RequestBody(Any, Any, Any, Any));
  }

  /** A chosen skill level reaches the generator's prompt unchanged. */
  lemma ChosenSkillLevelIsUsed(skillLevel: string, projectType: string, platform: string, duration: string)
    requires skillLevel != Any && skillLevel != ""
    ensures GenerateProject.FiltersFor(RequestBody(skillLevel, projectType, platform, duration)).skillLevel == skillLevel
  {
  }

  /** Each selection reaches the generator: a chosen, non-empty one as
      chosen, "all" (or an empty one) as the generator's default. */
  lemma SelectionsReachGenerator(skillLevel: string, projectType: string, platform: string, duration: string)
    ensures var f := GenerateProject.FiltersFor(RequestBody(skillLevel, projectType, platform, duration));
      && f.skillLevel == (if skillLevel != Any && skillLevel != "" then skillLevel else GenerateProject.DefaultFilters.skillLevel)
      && f.projectType == (if projectType != Any && projectType != "" then projectType else GenerateProject.DefaultFilters.projectType)
      && f.platform == (if platform != Any && platform != "" then platform else GenerateProject.DefaultFilters.platform)
      && f.duration == (if duration != Any && duration != "" then duration else GenerateProject.DefaultFilters.duration)
  {
  }

  /** The project as the page keeps it. The columns the page only displays
      stay JSON values; `skillLevel` and `duration` are normalised text. */
  datatype Project = Project(
    id: Option<Json>,
    title: Option<Json>,
    description: Option<Json>,
    deliverables: Json,
    toolsRecommended: Json,
    timeEstimate: Json,
    exampleChallenges: Json,
    skillLevel: string,
    projectType: Json,
    platform: Json,
    duration: string,
    marketRelevance: Option<Json>)

  /** `v || fallback`. */
  function Or(v: Option<Json>, fallback: Json): (r: Json)
    ensures TruthyOpt(v) ==> r == v.value
    ensures !TruthyOpt(v) ==> r == fallback
  {
    if TruthyOpt(v) then v.value else fallback
  }

  /** `v?.toLowerCase()`, then `f`, then `|| fallback`: absent or `null`
      gives the fallback, a string its lower-case form (or the fallback when
      that is empty), anything else has no `toLowerCase` and throws. */
  function LowerOr(v: Option<Json>, hyphenate: bool, fallback: string): (r: Option<string>)
    ensures r.None? <==> v.Some? && !v.value.JNull? && !v.value.JStr?
    ensures (v.None? || v == Some(JNull)) ==> r == Some(fallback)
    ensures v.Some? && v.value.JStr? && v.value.s == [] ==> r == Some(fallback)
    ensures v.Some? && v.value.JStr? && v.value.s != [] ==>
      r == Some(if hyphenate then Text.ReplaceSpaceRuns(Text.ToLower(v.value.s), '-') else Text.ToLower(v.value.s))
  {
    if v.None? || v.value.JNull? then Some(fallback)
    else if !v.value.JStr? then None
    else
      var lower := Text.ToLower(v.value.s);
      var text := if hyphenate then Text.ReplaceSpaceRuns(lower, '-') else lower;
      Some(if text == [] then fallback else text)
  }

  /** The normalised project; `None` when the mapping throws (no data, or a
      skill level or duration that is not a string). */
  function Normalise(data: Option<Json>): (r: Option<Project>)
    ensures r.Some? <==>
      (&& data.Some? && !data.value.JNull?
       && LowerOr(Prop(data, "skill_level"), false, "intermediate").Some?
       && LowerOr(Prop(data, "duration"), true, "medium").Some?)
    ensures r.Some? ==>
      && r.value.id == Prop(data, "id")
      && r.value.title == Prop(data, "title")
      && r.value.description == Prop(data, "description")
      && r.value.marketRelevance == Prop(data, "market_relevance")
      && r.value.timeEstimate == Or(Prop(data, "time_estimate"), JStr("Varies"))
      && r.value.projectType == Or(Prop(data, "project_type"), JStr("UX"))
      && r.value.platform == Or(Prop(data, "platform"), JStr("Web"))
      && r.value.deliverables == Or(Prop(data, "deliverables"), JArr([]))
      && r.value.toolsRecommended == Or(Prop(data, "tools_recommended"), JArr([]))
      && r.value.exampleChallenges == Or(Prop(data, "example_challenges"), JArr([]))
      && r.value.skillLevel == LowerOr(Prop(data, "skill_level"), false, "intermediate").value
      && r.value.duration == LowerOr(Prop(data, "duration"), true, "medium").value
  {
    if data.None? || data.value.JNull? then None
    else
      var skill := LowerOr(Prop(data, "skill_level"), false, "intermediate");
      var duration := LowerOr(Prop(data, "duration"), true, "medium");
      if skill.None? || duration.None? then None
      else Some(Project(
        Prop(data, "id"), Prop(data, "title"), Prop(data, "description"),
        Or(Prop(data, "deliverables"), JArr([])),
        Or(Prop(data, "tools_recommended"), JArr([])),
        Or(Prop(data, "time_estimate"), JStr("Varies")),
        Or(Prop(data, "example_challenges"), JArr([])),
        skill.value,
        Or(Prop(data, "project_type"), JStr("UX")),
        Or(Prop(data, "platform"), JStr("Web")),
        duration.value,
        Prop(data, "market_relevance")))
  }

  /** No upper-case letter in `s`. */
  predicate Lowered(s: string) {
    forall c :: c in s ==> !('A' <= c <= 'Z')
  }

  /** A lowered text is lower-case when its fallback is; a hyphenated one
      is also never empty and free of white space when its fallback is. */
  lemma LowerOrText(v: Option<Json>, hyphenate: bool, fallback: string)
    requires LowerOr(v, hyphenate, fallback).Some? && Lowered(fallback)
    ensures Lowered(LowerOr(v, hyphenate, fallback).value)
    ensures hyphenate && fallback != [] && Text.NoSpace(fallback) ==>
      var r := LowerOr(v, hyphenate, fallback).value; r != [] && Text.NoSpace(r)
  {
    if v.Some? && v.value.JStr? {
      var lower := Text.ToLower(v.value.s);
      LowerIsLowered(v.value.s);
      if hyphenate {
        Text.ReplaceSpaceRunsChars(lower, '-');
      }
    }
  }

  /** A value already in normal form (lower case, no white space) is kept
      as it is, so "quick-fire" stays "quick-fire". */
  lemma LowerOrKeepsKey(key: string, hyphenate: bool, fallback: string)
    requires key != [] && Lowered(key) && Text.NoSpace(key)
    ensures LowerOr(Some(JStr(key)), hyphenate, fallback) == Some(key)
  {
    ToLowerOfLowered(key);
    Text.ReplaceSpaceRunsKeeps(key, '-');
  }

  /** Two lower-case words around a run of white space are joined by one
      hyphen: "short  sprint" becomes "short-sprint". */
  lemma LowerOrJoinsWords(a: string, w: string, b: string, fallback: string)
    requires a != [] && Lowered(a) && Text.NoSpace(a)
    requires w != [] && Text.AllSpace(w)
    requires b != [] && Lowered(b) && Text.NoSpace(b)
    ensures LowerOr(Some(JStr(a + w + b)), true, fallback) == Some(a + "-" + b)
  {
    var s := a + w + b;
    forall c | c in s ensures !('A' <= c <= 'Z') {
      if c in w {
        var k :| 0 <= k < |w| && w[k] == c;
        assert Text.IsSpace(w[k]);
      } else if c !in a {
        assert c in b;
      }
    }
    ToLowerOfLowered(s);
    assert b[0] in b;
    Text.ReplaceSpaceRunsAt(a, w, b, '-');
    Text.ReplaceSpaceRunsKeeps(b, '-');
  }

  /** Lower-casing changes nothing in a text without capitals. */
  lemma ToLowerOfLowered(s: string)
    requires Lowered(s)
    ensures Text.ToLower(s) == s
  {
    var lower := Text.ToLower(s);
    forall i | 0 <= i < |s| ensures lower[i] == s[i] {
      assert s[i] in s;
    }
  }

  /** A normalised skill level has no upper-case letter; a normalised
      duration is never empty and holds neither white space nor upper-case
      letters. */
  lemma NormalisedText(data: Option<Json>)
    requires Normalise(data).Some?
    ensures Lowered(Normalise(data).value.skillLevel)
    ensures var d := Normalise(data).value.duration; d != [] && Text.NoSpace(d) && Lowered(d)
  {
    Fallbacks();
    LowerOrText(Prop(data, "skill_level"), false, "intermediate");
    LowerOrText(Prop(data, "duration"), true, "medium");
  }

  lemma Fallbacks()
    ensures Lowered("intermediate") && Lowered("medium") && Text.NoSpace("medium")
  {
  }

  lemma LowerIsLowered(s: string)
    ensures Lowered(Text.ToLower(s))
  {
    var r := Text.ToLower(s);
    forall c | c in r ensures !('A' <= c <= 'Z') {
      var i :| 0 <= i < |r| && r[i] == c;
      assert c == Text.LowerChar(s[i]);
    }
  }

  /** Durations that have their own icon; any other falls back to the
      clock. */
  datatype DurationIcon = QuickFireIcon | ShortSprintIcon | FullProjectIcon | ClockIcon

  function IconFor(duration: string): (icon: DurationIcon)
    ensures icon == ClockIcon <==> duration !in {"quick-fire", "short-sprint", "full-project"}
  {
    if duration == "quick-fire" then QuickFireIcon
    else if duration == "short-sprint" then ShortSprintIcon
    else if duration == "full-project" then FullProjectIcon
    else ClockIcon
  }

  /** The duration as displayed: every "-" shown as a space. */
  function DurationLabel(duration: string): (r: string)
    ensures |r| == |duration| && '-' !in r
    ensures forall i :: 0 <= i < |duration| && duration[i] == '-' ==> r[i] == ' '
    ensures forall i :: 0 <= i < |duration| && duration[i] != '-' ==> r[i] == duration[i]
  {
    Text.ReplaceAll(duration, '-', ' ')
  }

  /** A generator reply: an error (or an exception), or the returned data
      (absent for `null`). */
  datatype Reply = Failed | Returned(data: Option<Json>)

  /** What the user is told. */
  datatype Notice = GenerationError(message: Json) | GenerationFailed | Generated

  class Page {
    var generatedProject: Option<Project>
    var isLoading: bool

    constructor ()
      ensures generatedProject.None? && !isLoading
    {
      generatedProject, isLoading := None, false;
    }

    /** `generateProject`: a payload error is reported and changes nothing;
        a failure, or a mapping that throws, is reported as a failure; only a
        normalised project replaces the shown one. */
    method Generate(skillLevel: string, projectType: string, platform: string, duration: string,
                    invoke: Json -> Reply)
      returns (sent: Json, notice: Notice)
      modifies this
      ensures sent == RequestBody(skillLevel, projectType, platform, duration)
      ensures invoke(sent).Failed? ==> notice == GenerationFailed && generatedProject == old(generatedProject)
      ensures invoke(sent).Returned? && TruthyOpt(Prop(invoke(sent).data, "error")) ==>
        notice == GenerationError(Prop(invoke(sent).data, "error").value) && generatedProject == old(generatedProject)
      ensures invoke(sent).Returned? && !TruthyOpt(Prop(invoke(sent).data, "error")) ==>
        var p := Normalise(invoke(sent).data);
        && (p.None? ==> notice == GenerationFailed && generatedProject == old(generatedProject))
        && (p.Some? ==> notice == Generated && generatedProject == p)
      ensures !isLoading
    {
      isLoading := true;
      sent := RequestBody(skillLevel, projectType, platform, duration);
      var reply := invoke(sent);
      if reply.Failed? {
        notice := GenerationFailed;
      } else if TruthyOpt(Prop(reply.data, "error")) {
        notice := GenerationError(Prop(reply.data, "error").value);
      } else {
        var p := Normalise(reply.data);
        if p.None? {
          notice := GenerationFailed;
        } else {
          generatedProject := p;
          notice := Generated;
        }
      }
      isLoading := false;
    }
  }
}
