/** The database rows the pages read, with the columns they use. Nullable
    columns are `Option`s. */
module Rows {
  import opened Wrappers

  /** A row of `challenges`; the last four columns are read by the detail
      page only and may be absent. */
  datatype Challenge = Challenge(
    id: string,
    title: string,
    description: string,
    category: string,
    difficulty: string,
    challengeDate: string,
    timeEstimate: Option<string>,
    fullDescription: Option<string>,
    exampleOutputs: Option<seq<string>>,
    backgroundContext: Option<string>,
    challengeTask: Option<string>,
    constraints: Option<seq<string>>,
    bonusChallenge: Option<string>)

  /** A row of `project_templates`. */
  datatype ProjectTemplate = ProjectTemplate(
    title: string,
    description: string,
    timeEstimate: string,
    skillLevel: string,
    projectType: string)

  /** A row of `profiles`. */
  datatype Profile = Profile(userId: string, name: Option<string>)

  /** A row of `submissions`. */
  datatype Submission = Submission(
    id: string,
    userId: string,
    challengeId: string,
    figmaLink: Option<string>,
    externalUrl: Option<string>,
    notes: Option<string>,
    imageUrls: Option<seq<string>>)

  /** A row of `chat_messages`. */
  datatype ChatMessage = ChatMessage(id: string, userId: string, message: string, createdAt: string)
}
