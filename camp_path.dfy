/** The Camp Path picker on the home page: multi-select goals and tools and a
    single-select experience level, each replaced by its own click handler. */
module CampPath {
  import Lists

  const GoalIds := ["portfolio", "skills", "job", "fun"]
  const ToolIds := ["figma", "sketch", "xd", "framer", "webflow"]
  const LevelIds := ["newbie", "learning", "growing", "experienced"]

  class Picker {
    var selectedGoals: seq<string>
    var selectedTools: seq<string>
    var selectedLevel: string

    /** No goal or tool is selected twice. */
    predicate Valid()
      reads this
    {
      Lists.NoDuplicates(selectedGoals) && Lists.NoDuplicates(selectedTools)
    }

    constructor ()
      ensures Valid()
      ensures selectedGoals == [] && selectedTools == [] && selectedLevel == ""
    {
      selectedGoals := [];
      selectedTools := [];
      selectedLevel := "";
    }

    /** `toggleGoal`: an absent goal is appended, a present one removed. */
    method ToggleGoal(goal: string)
      requires Valid()
      modifies this`selectedGoals
      ensures selectedGoals == Lists.Toggle(old(selectedGoals), goal)
      ensures goal in selectedGoals <==> goal !in old(selectedGoals)
      ensures Valid()
    {
      Lists.ToggleKeepsNoDuplicates(selectedGoals, goal);
      selectedGoals := Lists.Toggle(selectedGoals, goal);
    }

    /** `toggleTool`: the same rule on the tools, and nothing else changes. */
    method ToggleTool(tool: string)
      requires Valid()
      modifies this`selectedTools
      ensures selectedTools == Lists.Toggle(old(selectedTools), tool)
      ensures tool in selectedTools <==> tool !in old(selectedTools)
      ensures Valid()
    {
      Lists.ToggleKeepsNoDuplicates(selectedTools, tool);
      selectedTools := Lists.Toggle(selectedTools, tool);
    }

    /** A level button replaces the selected level outright. */
    method SelectLevel(level: string)
      requires level in LevelIds
      modifies this`selectedLevel
      ensures selectedLevel == level
    {
      selectedLevel := level;
    }
  }
}
