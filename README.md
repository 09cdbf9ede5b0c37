# Design Camp — a verified model of its core

Design Camp is a web application for UX/UI designers. It offers a daily design
challenge generated by an AI model, an archive of past challenges with filters,
an AI generator of portfolio projects, a wizard ("Camp Track") that records a
designer's preferences and recommends work, a submission form with image
uploads, a gallery of submissions, a live chat ("Campfire") and the sign-up and
log-in forms. Its server side is two edge functions, `generate-challenge` and
`generate-project`, which call an AI gateway and return the parsed JSON reply.

This project models that core in Dafny and proves properties of the model:

- the two edge functions (`GenerateChallenge`, `GenerateProject`), with what
  they share: CORS preflight, gateway status mapping, the fenced-JSON
  extraction and stamping (`AiResponse`), on a JSON value type (`JsonValues`);
- the daily-challenge hook (`TodaysChallenge`), the today page
  (`TodayChallenges`), the archive (`Challenges`), the shared list queries and
  filter bar (`ChallengeFilters`), the detail page (`ChallengeDetail`) and the
  countdown to midnight (`Countdown`);
- the Camp Track wizard (`CampTrack`) and the home-page picker (`CampPath`);
- the project generator page (`Projects`);
- the submission form (`SubmissionForm`) and gallery (`SubmissionsGallery`),
  the chat (`CampfireChat`) and the profile-name lookup they share (`Profiles`);
- the sign-up and log-in forms (`Signup`, `Login`) over the shared field-error
  collection (`AuthForms`);
- the JavaScript list and string operations the code relies on (`Lists`,
  `Text`), and the table rows (`Rows`).

React state becomes a `class` per page or component whose fields are the
`useState` variables; each handler is a method with a `modifies` clause whose
`ensures` gives the whole new state. The database, storage, the AI gateway,
the clock, random ids, `JSON.parse` and zod's email check are parameters of
those methods (functions from the request to the reply), so each contract
holds for every possible reply.

## Model

| member | source | states |
|---|---|---|
| JsonValues.Prop | supabase/functions/generate-challenge/index.ts:88 | optional chaining `v?.key`: defined exactly when `v` is an object holding the key, and then it is that property |
| JsonValues.First | supabase/functions/generate-challenge/index.ts:88 | `v?.[0]`: defined exactly for a non-empty array (its first element), an object with a property "0" (that property) or a non-empty string (its first character) |
| JsonValues.JsString | supabase/functions/generate-challenge/index.ts:34-35 | `String(v)` in a template literal leaves a string unchanged |
| JsonValues.OrDefault | supabase/functions/generate-project/index.ts:34-37 | a template default: the fallback for a falsy or missing value, a non-empty string value itself |
| JsonValues.ErrorObject | supabase/functions/generate-challenge/index.ts:116 | `{ error: message }` has exactly the one key, holding the message |
| AiResponse.Error | supabase/functions/generate-challenge/index.ts:72-75 | an error reply has the given status, the JSON and CORS headers and an `error` property holding the message |
| AiResponse.IsOk | supabase/functions/generate-challenge/index.ts:67 | `response.ok`: a status from 200 to 299 |
| AiResponse.HasKey | supabase/functions/generate-challenge/index.ts:15-18 | the key counts as configured exactly when it is set and not empty |
| AiResponse.Today | supabase/functions/generate-challenge/index.ts:21 | `toISOString().split('T')[0]` is a prefix of the timestamp without a `T` |
| AiResponse.TodayOfTimestamp | supabase/functions/generate-challenge/index.ts:21 | the date of `<date>T<time>` is `<date>` |
| AiResponse.GatewayFailure | supabase/functions/generate-challenge/index.ts:67-85 | a non-OK gateway status 429 or 402 is passed on with its fixed message; every other status becomes 500 "AI gateway error: <status>" |
| AiResponse.MessageContent | supabase/functions/generate-challenge/index.ts:87-88 | `data.choices?.[0]?.message?.content` fails exactly for `null` data; content found implies that `choices` is a non-empty array or an object with a property "0" |
| AiResponse.FirstChoiceContent | supabase/functions/generate-challenge/index.ts:88 | the content of the first choice is read both from a `choices` array and from a `choices` object keyed "0" |
| AiResponse.FenceCapture | supabase/functions/generate-challenge/index.ts:95 | the regular expression fails to match only when no fence is followed by a second one |
| AiResponse.CaptureOfFirstPair | supabase/functions/generate-challenge/index.ts:95 | for any reply, backticks anywhere included: with the first fence at `open`, the `json` tag skipped exactly when present, and the first fence from there on at `close`, the capture is exactly the text between them |
| AiResponse.CaptureHasFirstPair | supabase/functions/generate-challenge/index.ts:95 | conversely, every capture is the text between such a first fence pair |
| AiResponse.ExtractJsonText | supabase/functions/generate-challenge/index.ts:95-96 | the text handed to the parser is trimmed; it is the trimmed capture when that is not blank, otherwise the trimmed whole content |
| AiResponse.UnfencedIsTrimmedContent | supabase/functions/generate-challenge/index.ts:95-96 | content without a fence is parsed whole, trimmed |
| AiResponse.CaptureAt | supabase/functions/generate-challenge/index.ts:95 | when no backtick precedes the first fence, the `json` tag is skipped exactly when present, and no backtick lies before the next fence, the capture is exactly the text between tag and fence |
| AiResponse.FencedBodyExtracted | supabase/functions/generate-challenge/index.ts:95-96 | for a reply with that layout and a capture that is not blank, the parsed text is the trimmed capture |
| AiResponse.FencedReply | supabase/functions/generate-challenge/index.ts:95 | a reply made of text without backticks, a fence, an optional `json` tag, a body without backticks, a fence and any rest has that layout around the body |
| AiResponse.ParseCandidate | supabase/functions/generate-challenge/index.ts:94-101 | a text is parsed exactly when the content is a string, and it is the extracted JSON text |
| AiResponse.SetProperty | supabase/functions/generate-challenge/index.ts:104-106 | assigning a property: objects get it, arrays keep their serialised form, `null` and primitives fail |
| AiResponse.SetPropertyKeeps | supabase/functions/generate-challenge/index.ts:104-106 | after two stamps on an object both keys hold their values, the key set grows by them and every other property is kept |
| AiResponse.ParsedReply | supabase/functions/generate-challenge/index.ts:88-97 | a parsed value exists only for string content, and it is the parser's value of the extracted text |
| AiResponse.ReadReply | supabase/functions/generate-challenge/index.ts:67-101 | every gateway outcome in order: unreachable, non-OK status, body not JSON, `null` body, unparsable text, parsed value; every early answer carries status 402, 429 or 500 |
| GenerateChallenge.CategoryLine | supabase/functions/generate-challenge/index.ts:34 | the category focus for a truthy category, otherwise the mixed-category line |
| GenerateChallenge.DifficultyLine | supabase/functions/generate-challenge/index.ts:35 | the difficulty level for a truthy difficulty, otherwise Intermediate |
| GenerateChallenge.PromptFor | supabase/functions/generate-challenge/index.ts:14-35 | the prompt carries today's date and the lines of the body's `category` and `difficulty` |
| GenerateChallenge.EmptyBodyUsesDefaults | supabase/functions/generate-challenge/index.ts:32-35 | an empty body asks for a mixed-category, intermediate challenge |
| GenerateChallenge.Stamped | supabase/functions/generate-challenge/index.ts:104-106 | the returned challenge has `id`, `challenge_date` and `created_at` set and every other property of the parsed reply |
| GenerateChallenge.Handle | supabase/functions/generate-challenge/index.ts:8-121 | preflight answered with CORS headers; bad or `null` body and missing key are errors; the gateway is called exactly for an admitted request with a key, with today's prompt; each gateway outcome gives its response; a 200 JSON object is dated with the prompt's date; status is always 200, 402, 429 or 500 |
| GenerateProject.FiltersFor | supabase/functions/generate-project/index.ts:14-37 | each of the four filters is the body's value, or its default when falsy |
| GenerateProject.FilterDefaults | supabase/functions/generate-project/index.ts:34-37 | a body with no truthy property gets all four defaults |
| GenerateProject.Stamped | supabase/functions/generate-project/index.ts:110-111 | the returned project has `id` and `created_at` set, every other property kept, and no date added |
| GenerateProject.Handle | supabase/functions/generate-project/index.ts:8-126 | as for the challenge generator, with the four filters sent to the gateway and the project stamped with id and creation time only |
| Lists.Map | src/components/SubmissionForm.tsx:43 | `map` keeps the length and applies the function at every index |
| Lists.MapOf | src/components/SubmissionsGallery.tsx:58-60 | `new Map(pairs)` has exactly the keys of the pairs |
| Lists.MapOfLastWins | src/components/SubmissionsGallery.tsx:58-60 | a key given more than once keeps the value of its last pair |
| Lists.RemoveAll | src/components/CampPath.tsx:35 | `filter(g => g !== x)` drops every `x` and keeps the count of every other element |
| Lists.Toggle | src/pages/CampTrack.tsx:126-130 | toggling: the item is present afterwards exactly when it was absent; an absent item is appended at the end; other elements keep their counts |
| Lists.ToggleTwiceRestores | src/pages/CampTrack.tsx:126-130 | toggling an absent item twice restores the list |
| Lists.ToggleKeepsNoDuplicates | src/components/CampPath.tsx:32-46 | toggling keeps a duplicate-free list duplicate-free |
| Lists.RemoveAt | src/components/SubmissionForm.tsx:49-50 | `filter((_, i) => i !== index)` removes the element at an index in range and nothing otherwise |
| Lists.Dedup | src/components/SubmissionsGallery.tsx:52 | `[...new Set(s)]` has no duplicates and exactly the elements of `s` |
| Lists.DedupOfDistinct | src/components/SubmissionsGallery.tsx:52 | a duplicate-free list is its own deduplication |
| Lists.Filter | src/pages/ChallengeDetail.tsx:265 | `filter` keeps the passing elements in order, each as often as it occurs, and drops every other |
| Lists.FilterAllPass | src/pages/ChallengeDetail.tsx:265 | a filter every element passes changes nothing |
| Text.Trim | src/pages/Signup.tsx:12-13 | `trim()` gives a string that neither starts nor ends with white space, empty exactly for an all-space input |
| Text.TrimIsSlice | src/pages/Signup.tsx:12-13 | what `trim()` keeps is a slice of the input with only white space before and after it |
| Text.TrimIdempotent | src/components/CampfireChat.tsx:105-111 | trimming twice is trimming once |
| Text.IndexOfFrom | supabase/functions/generate-challenge/index.ts:95 | the first occurrence of a pattern from a position, or none at all |
| Text.Contains | src/pages/Signup.tsx:53 | `includes` holds exactly when the pattern occurs somewhere |
| Text.ReplaceFirst | src/pages/CampTrack.tsx:194 | `replace("-", " ")` changes only the first hyphen |
| Text.ReplaceFirstAt | src/pages/CampTrack.tsx:194 | in `a-b` with no hyphen in `a`, the result is `a b` |
| Text.ReplaceAll | src/pages/Projects.tsx:304 | `replace(/-/g, " ")` changes every hyphen and nothing else |
| Text.ToLower | src/pages/Projects.tsx:131 | `toLowerCase` maps each character, keeping the length |
| Text.ReplaceSpaceRuns | src/pages/Projects.tsx:134 | `replace(/\s+/g, "-")` leaves no white space and is empty exactly for empty input |
| Text.ReplaceSpaceRunsKeeps | src/pages/Projects.tsx:134 | a text without white space is left as it is |
| Text.ReplaceSpaceRunsAt | src/pages/Projects.tsx:134 | in `a w b` with `a` space-free, `w` a run of white space and `b` not starting with white space, the result is `a`, one replacement character, then the replacement of `b`; with the previous row this fixes the result run by run |
| Text.SpaceRunAfter | src/pages/Projects.tsx:134 | the same for a run given as the first `n` characters of the text after `a` |
| Text.ReplaceSpaceRunsChars | src/pages/Projects.tsx:134 | the result holds only the replacement and characters of the input |
| Text.Split | src/pages/ChallengeDetail.tsx:265 | `split(sep)` gives separator-free parts that join back to the input |
| Text.SplitJoin | src/pages/ChallengeDetail.tsx:265 | splitting separator-free parts joined by the separator gives the parts back |
| Text.SplitFirst | supabase/functions/generate-challenge/index.ts:21 | the first part of `a sep b` is `a` when `a` has no separator |
| Text.LastSegmentShape | src/components/SubmissionForm.tsx:76 | `split(".").pop()` is the separator-free suffix after the last separator, or the whole name |
| Text.NatToString | src/pages/TodayChallenges.tsx:281 | `String(n)` is a non-empty digit string with no leading zero (except for 0 itself), one digit exactly below 10 |
| Text.NatToStringRoundTrip | src/pages/TodayChallenges.tsx:281 | the digits read back as the number |
| Text.PadStart | src/pages/TodayChallenges.tsx:281 | `padStart(w, c)` ends with the input, padded on the left with `c` to the width |
| Countdown.CalculateTimeLeft | src/pages/TodayChallenges.tsx:119-125 | hours below 24, minutes and seconds below 60, and together the whole seconds of the time left within one day |
| Countdown.ClockRoundTrip | src/pages/TodayChallenges.tsx:119-125 | an in-range reading is read back unchanged |
| Countdown.Field | src/pages/TodayChallenges.tsx:281-283 | a field below 100 is two digits whose value is the field |
| Countdown.ClockText | src/pages/TodayChallenges.tsx:281-283 | the three padded fields joined by colons; `ClockTextShape` proves its shape |
| Countdown.ClockTextShape | src/pages/ChallengeDetail.tsx:197-199 | the countdown is `hh:mm:ss`, each pair reading back as its field |
| ChallengeFilters.BeforeIrreflexive | src/pages/TodayChallenges.tsx:163 | no date is before itself |
| ChallengeFilters.BeforeAsymmetric | src/pages/TodayChallenges.tsx:163 | of two dates at most one is before the other |
| ChallengeFilters.Satisfies | src/pages/TodayChallenges.tsx:163-170 | a row meets `.lt` when its date is earlier and `.eq` when its column holds the value |
| ChallengeFilters.Selects | src/pages/TodayChallenges.tsx:160-171 | a query selects the rows that meet all of its constraints |
| ChallengeFilters.Wanted | src/pages/TodayChallenges.tsx:160-171 | the rows the filter bar asks for: before the date bound if there is one, and matching each filter that is not "All"; `ListQuery` proves the query selects exactly these |
| ChallengeFilters.ListQuery | src/pages/TodayChallenges.tsx:160-171 | the query selects exactly the rows wanted by the date bound and the two filters, newest first; a filter adds an equality exactly when it is not "All" |
| ChallengeFilters.PastExcludesToday | src/pages/TodayChallenges.tsx:163 | the past list never holds today's challenge |
| ChallengeFilters.CountLabel | src/pages/TodayChallenges.tsx:409 | "Showing ", the decimal digits of `n`, a space and the noun, with an "s" exactly when `n` is not one |
| ChallengeFilters.CountLabelCount | src/pages/TodayChallenges.tsx:409 | the number shown in the label reads back as the count |
| ChallengeFilters.FilterBar.constructor | src/pages/TodayChallenges.tsx:107-108 | both filters start at "All" |
| ChallengeFilters.FilterBar.ShowsClear | src/pages/TodayChallenges.tsx:392 | the clear button shows exactly when one of the filters is not "All" |
| ChallengeFilters.FilterBar.SelectDifficulty | src/pages/TodayChallenges.tsx:366 | the chosen difficulty replaces the filter |
| ChallengeFilters.FilterBar.SelectCategory | src/pages/TodayChallenges.tsx:379 | the chosen category replaces the filter |
| ChallengeFilters.FilterBar.ClearFilters | src/pages/TodayChallenges.tsx:392-403 | both filters back to "All", after which the clear button is hidden |
| TodayChallenges.Thumbnails | src/pages/TodayChallenges.tsx:297-299 | the first three image URLs of the submission, or none |
| TodayChallenges.Area | src/pages/TodayChallenges.tsx:288-310 | the submission shows exactly for a signed-in user who has one; otherwise the form exactly when asked for and signed in |
| TodayChallenges.PastCountLabel | src/pages/TodayChallenges.tsx:409 | singular "past challenge" exactly for one |
| TodayChallenges.Page.constructor | src/pages/TodayChallenges.tsx:103-106 | initial state: no list, no submission, loading, form closed |
| TodayChallenges.Page.SubmitWork | src/pages/TodayChallenges.tsx:186-192 | signed out, a visit to sign-up that comes back; signed in, the form opens |
| TodayChallenges.Page.SubmissionSucceeded | src/pages/TodayChallenges.tsx:194-208 | the form closes and the submission becomes the one read again, if any |
| TodayChallenges.Page.FetchPast | src/pages/TodayChallenges.tsx:155-184 | the query wants dates before today and the two filters; the list is the rows, or unchanged on error; loading ends |
| Challenges.ArchiveCountLabel | src/pages/Challenges.tsx:184 | "challenge" exactly for one, "challenges" otherwise |
| Challenges.Page.constructor | src/pages/Challenges.tsx:81-82 | no challenges, loading |
| Challenges.Page.Fetch | src/pages/Challenges.tsx:86-108 | no date bound: with both filters "All" every challenge is selected; the list is the rows, or unchanged on error |
| ChallengeDetail.DetailQuery | src/pages/ChallengeDetail.tsx:44-52 | "today" selects by today's date, any other id by id, with one constraint |
| ChallengeDetail.LegacyParagraphs | src/pages/ChallengeDetail.tsx:265 | the non-blank lines of the description, in order, each as often as it occurs and none holding a line break; blank lines are dropped |
| ChallengeDetail.ParagraphsOfJoinedLines | src/pages/ChallengeDetail.tsx:265 | non-blank lines joined by line breaks come back as the same paragraphs |
| ChallengeDetail.SectionsOf | src/pages/ChallengeDetail.tsx:209-265 | each section shows exactly when its column is given; constraints only when non-empty; the legacy description only without a background |
| ChallengeDetail.Page.constructor | src/pages/ChallengeDetail.tsx:35-38 | no challenge, loading, not today |
| ChallengeDetail.Page.Fetch | src/pages/ChallengeDetail.tsx:40-70 | the row found becomes the challenge and `isToday` says whether it is dated today; no row leaves both |
| ChallengeDetail.Page.ViewOf | src/pages/ChallengeDetail.tsx:96-122 | loading, "Not Found" exactly without a challenge, else the sections, with the countdown exactly for today's challenge |
| TodaysChallenge.RegenerateBody | src/hooks/useTodaysChallenge.ts:81-83 | the body holds each filter exactly when it was given |
| TodaysChallenge.Hit | src/hooks/useTodaysChallenge.ts:37-40 | a lookup returned a truthy row, which is then used |
| TodaysChallenge.PayloadError | src/hooks/useTodaysChallenge.ts:57-60 | the returned payload carries a truthy `error` property |
| TodaysChallenge.State.constructor | src/hooks/useTodaysChallenge.ts:17-19 | no challenge, loading, no error |
| TodaysChallenge.State.FetchToday | src/hooks/useTodaysChallenge.ts:21-74 | a cached row is used without calling the generator; a query error is only logged and the generator is called; a lookup that throws sets the fetch error; otherwise the generator is called with an empty body and its error, payload error or challenge is stored; loading ends |
| TodaysChallenge.State.Regenerate | src/hooks/useTodaysChallenge.ts:76-104 | error cleared first; the generator's failure, payload error or challenge is stored; loading ends on every path |
| CampTrack.ProgressPercent | src/pages/CampTrack.tsx:98 | the progress is exactly the step's share of 100, and 100 only on the last step |
| CampTrack.CanProceed | src/pages/CampTrack.tsx:132-145 | each step's requirement: a skill level, a goal, a tool, weekly hours above zero; false for any other step |
| CampTrack.FromChallenge | src/pages/CampTrack.tsx:167-176 | a challenge recommendation with the row's title, description, level and category, and "30-60 min" for a missing estimate |
| CampTrack.FromProject | src/pages/CampTrack.tsx:178-187 | a project recommendation with the template's title, description, estimate, level and type |
| CampTrack.GoalLabel | src/pages/CampTrack.tsx:194 | same length, the first hyphen a space |
| CampTrack.FromGoal | src/pages/CampTrack.tsx:189-201 | the goal suggestion: titled "<goal> Practice", described as "Build your <goal> skills with focused exercises.", duration by weekly hours, the chosen level |
| CampTrack.Suggest | src/pages/CampTrack.tsx:191-200 | the suggestion made for each goal |
| CampTrack.Recommendations | src/pages/CampTrack.tsx:147-209 | every challenge row then every project row in order; only when both are empty, a suggestion for each of the first three goals |
| CampTrack.ChallengesBeforeProjects | src/pages/CampTrack.tsx:165-187 | every challenge comes ahead of every project |
| CampTrack.HyphenatedGoalTitle | src/pages/CampTrack.tsx:194 | "a-b" is titled "a b Practice", only the first hyphen replaced |
| CampTrack.BuildRecommendations | src/pages/CampTrack.tsx:165-201 | the three loops build exactly the recommendations |
| CampTrack.WriteFor | src/pages/CampTrack.tsx:225-247 | an update exactly when stored preferences are held, an insert otherwise |
| CampTrack.Inserts | src/pages/CampTrack.tsx:225-247 | the number of inserts is at most the number of writes |
| CampTrack.SessionWritesAsWritten | src/pages/CampTrack.tsx:225-250 | one write per save in a visit, as written |
| CampTrack.SessionWritesCorrected | src/pages/CampTrack.tsx:225-250 | one write per save with the flag set after each save |
| CampTrack.AsWrittenInsertsOnEverySave | src/pages/CampTrack.tsx:225-250 | as written, a user without stored preferences inserts on every save of a visit |
| CampTrack.AsWrittenTwoSavesTwoInserts | src/pages/CampTrack.tsx:225-250 | two saves insert two rows for the same user |
| CampTrack.CorrectedInsertsAtMostOnce | src/pages/CampTrack.tsx:225-250 | corrected, a visit inserts at most once, and never when preferences were stored |
| CampTrack.Wizard.constructor | src/pages/CampTrack.tsx:84-96 | first step, empty preferences, no results, nothing stored |
| CampTrack.Wizard.Progress | src/pages/CampTrack.tsx:98 | 25 per step |
| CampTrack.Wizard.LoadExisting | src/pages/CampTrack.tsx:106-124 | a stored row becomes both the stored flag and the edited preferences; nothing else changes |
| CampTrack.Wizard.Back | src/pages/CampTrack.tsx:600-608 | one step back, keeping every earlier step's requirement |
| CampTrack.Wizard.Next | src/pages/CampTrack.tsx:610-618 | one step forward only when the current step's requirement holds |
| CampTrack.Wizard.SelectSkillLevel | src/pages/CampTrack.tsx:283 | the level replaces the previous one and step 1 may proceed |
| CampTrack.Wizard.ToggleGoal | src/pages/CampTrack.tsx:316-325 | the goal is toggled; no duplicates appear |
| CampTrack.Wizard.ToggleTool | src/pages/CampTrack.tsx:358 | the tool is toggled; no duplicates appear |
| CampTrack.Wizard.SelectHours | src/pages/CampTrack.tsx:393 | the hours replace the previous choice and step 4 may proceed |
| CampTrack.Wizard.SavePreferences | src/pages/CampTrack.tsx:211-266 | signed out, a visit to log-in; otherwise the write chosen by the stored flag; on success the results show the recommendations; the stored flag is left as it was |
| CampTrack.Wizard.SavePreferencesCorrected | src/pages/CampTrack.tsx:211-266 | the same, with the saved preferences held as stored after a successful write |
| CampTrack.Wizard.EditPreferences | src/pages/CampTrack.tsx:525-528 | back to the first step with the preferences kept |
| CampPath.Picker.constructor | src/components/CampPath.tsx:28-30 | nothing selected |
| CampPath.Picker.ToggleGoal | src/components/CampPath.tsx:32-38 | the goal is toggled, present exactly when it was absent, no duplicates |
| CampPath.Picker.ToggleTool | src/components/CampPath.tsx:40-46 | the tool is toggled, present exactly when it was absent, no duplicates |
| CampPath.Picker.SelectLevel | src/components/CampPath.tsx:128 | the level replaces the previous one |
| Projects.FilterParam | src/pages/Projects.tsx:104-107 | "all" is left out; any other value is sent |
| Projects.RequestBody | src/pages/Projects.tsx:103-108 | the body holds each filter's selection, exactly when it is not "all", and no other key |
| Projects.SelectionsReachGenerator | src/pages/Projects.tsx:103-108 | the generator uses each chosen non-empty selection as chosen, and its default for "all" or an empty one |
| Projects.AllSelectionsGetDefaults | src/pages/Projects.tsx:103-108 | with every filter "all", the generator uses all its defaults |
| Projects.ChosenSkillLevelIsUsed | src/pages/Projects.tsx:104 | a chosen skill level reaches the generator's prompt |
| Projects.Or | src/pages/Projects.tsx:127-133 | the default operator gives `v` when truthy, the fallback otherwise |
| Projects.LowerOr | src/pages/Projects.tsx:131-134 | lower-casing with a default fails exactly for a non-string value; missing, `null` or empty give the fallback; a non-empty string gives its lower-case form, with each white-space run replaced by "-" when hyphenated |
| Projects.Normalise | src/pages/Projects.tsx:123-136 | a project exactly for present non-`null` data whose level and duration are strings or missing; `id`, `title`, `description` and `market_relevance` are carried over, every other column has its default in place, and level and duration are lowered as `LowerOr` says |
| Projects.LowerOrText | src/pages/Projects.tsx:131-134 | the normalised text has no capitals; hyphenated, it is a non-empty space-free word |
| Projects.NormalisedText | src/pages/Projects.tsx:131-134 | the project's skill level is lower case and its duration a non-empty, lower-case, space-free key |
| Projects.IconFor | src/pages/Projects.tsx:156-158 | the clock icon exactly for a duration that is not one of the three keys |
| Projects.DurationLabel | src/pages/Projects.tsx:304 | the label has the same length, a space for every hyphen and every other character kept |
| Projects.LowerOrKeepsKey | src/pages/Projects.tsx:131-134 | a value already lower case and free of white space is kept as it is |
| Projects.LowerOrJoinsWords | src/pages/Projects.tsx:134 | two lower-case words around a run of white space are joined by one hyphen |
| Projects.Page.constructor | src/pages/Projects.tsx:95-96 | no project, not loading |
| Projects.Page.Generate | src/pages/Projects.tsx:98-154 | the request body; a failed call or failed mapping reports failure and keeps the project; a payload error is shown and keeps it; otherwise the normalised project replaces it; loading ends |
| SubmissionForm.NullIfEmpty | src/components/SubmissionForm.tsx:97-99 | an empty input is stored as null, and only for the empty string |
| SubmissionForm.HasContent | src/components/SubmissionForm.tsx:61 | a submission has content when it has a Figma link, an external URL or an image |
| SubmissionForm.StoragePath | src/components/SubmissionForm.tsx:76-77 | `<user>/<challenge>/<stamp>.<ext>`; `StoragePathExtension` and `StoragePathSegments` prove its shape |
| SubmissionForm.StoragePathExtension | src/components/SubmissionForm.tsx:76-77 | the path ends with "." and the file's extension, a dot-free suffix of the file name |
| SubmissionForm.StoragePathSegments | src/components/SubmissionForm.tsx:77 | the path splits into user, challenge and file name |
| SubmissionForm.UploadPaths | src/components/SubmissionForm.tsx:75-77 | one path per file |
| SubmissionForm.UploadPathAt | src/components/SubmissionForm.tsx:75-77 | the `k`-th path is the storage path of the `k`-th file under the `k`-th stamp |
| SubmissionForm.UploadAll | src/components/SubmissionForm.tsx:74-90 | the loop ends with `UploadResult`: the URLs collected, or the number of uploads started when one fails |
| SubmissionForm.UploadResult | src/components/SubmissionForm.tsx:74-90 | the uploads in order, stopping at the first failure; `UploadResultMeaning` proves what it yields |
| SubmissionForm.UploadResultMeaning | src/components/SubmissionForm.tsx:74-90 | that result is the list of all public URLs, in order, exactly when every upload succeeds; otherwise it names the first failed upload, all before it having succeeded |
| SubmissionForm.InsertRow | src/components/SubmissionForm.tsx:93-100 | the row: the URL list only when non-empty, each text only when non-empty |
| SubmissionForm.ContentReachesRow | src/components/SubmissionForm.tsx:61-100 | a form that passed the content check inserts a row with an image list, a Figma link or a URL |
| SubmissionForm.Outcome | src/components/SubmissionForm.tsx:53-125 | how a submission ends for given replies; `OutcomeMeaning` characterises every exit |
| SubmissionForm.Form.constructor | src/components/SubmissionForm.tsx:21-26 | empty form, not submitting |
| SubmissionForm.Form.AddImages | src/components/SubmissionForm.tsx:28-45 | more than five images are refused with nothing changed; otherwise the files and their previews are appended |
| SubmissionForm.Form.RemoveImage | src/components/SubmissionForm.tsx:47-51 | the entry leaves both lists, which stay parallel |
| SubmissionForm.OutcomeMeaning | src/components/SubmissionForm.tsx:53-125 | the submission ends in the log-in visit exactly without a user, the refusal exactly without content, an upload failure exactly when some upload fails (naming the first), and otherwise in the row of the inputs and all public URLs, which holds content and is reported submitted exactly when the insert succeeds |
| SubmissionForm.UploadAndInsert | src/components/SubmissionForm.tsx:72-102 | the uploads and the insert end as `Outcome` says |
| SubmissionForm.Form.Submit | src/components/SubmissionForm.tsx:53-125 | the outcome is `Outcome` of the form as it was; the form is reset exactly on success and otherwise unchanged; leaving the checks, submitting ends |
| Profiles.NameMap | src/components/SubmissionsGallery.tsx:53-60 | the user ids of the profile rows, none without rows |
| Profiles.OrCamper | src/components/CampfireChat.tsx:54 | the name when non-empty, "Camper" otherwise; never empty |
| Profiles.NameOf | src/components/SubmissionsGallery.tsx:75 | "Camper" for an unknown user, otherwise the profile's name or "Camper" |
| Profiles.LastProfileNames | src/components/SubmissionsGallery.tsx:58-75 | a user's name is that of their last profile row |
| Profiles.NoProfileIsCamper | src/components/SubmissionsGallery.tsx:75 | a user without a profile row is "Camper" |
| SubmissionsGallery.UserIds | src/components/SubmissionsGallery.tsx:52 | each submitter once, and only submitters |
| SubmissionsGallery.ChallengeIds | src/components/SubmissionsGallery.tsx:63 | each challenge once, and only submitted challenges |
| SubmissionsGallery.TitleMap | src/components/SubmissionsGallery.tsx:69-71 | the ids of the challenge rows |
| SubmissionsGallery.LastRowTitles | src/components/SubmissionsGallery.tsx:69-76 | a challenge id maps to the title of its last row, and the card shows that title, or "Unknown Challenge" when it is empty |
| SubmissionsGallery.NoTitleRowIsUnknown | src/components/SubmissionsGallery.tsx:76 | a challenge without a title row is shown as "Unknown Challenge" |
| SubmissionsGallery.TitleOf | src/components/SubmissionsGallery.tsx:76 | the title when known and non-empty, "Unknown Challenge" otherwise |
| SubmissionsGallery.Enrich | src/components/SubmissionsGallery.tsx:73-77 | one card per submission, in order, with its name and title |
| SubmissionsGallery.CardsAreLabelled | src/components/SubmissionsGallery.tsx:73-77 | every card has a non-empty name and title |
| SubmissionsGallery.Thumbnail | src/components/SubmissionsGallery.tsx:87-92 | the first image URL exactly when there is one |
| SubmissionsGallery.ThumbnailOfSubmitted | src/components/SubmissionsGallery.tsx:87-92 | a submission's thumbnail is its first uploaded image, if any |
| SubmissionsGallery.Gallery.constructor | src/components/SubmissionsGallery.tsx:27-28 | no cards, loading |
| SubmissionsGallery.Gallery.Fetch | src/components/SubmissionsGallery.tsx:35-85 | an error keeps the cards; no rows give none; otherwise the distinct ids are queried and the cards are the enriched rows; loading ends |
| CampfireChat.SenderIds | src/components/CampfireChat.tsx:80 | each sender once, and only senders |
| CampfireChat.WithNames | src/components/CampfireChat.tsx:90-93 | one message per row, in order, with its sender's name |
| CampfireChat.SenderLabel | src/components/CampfireChat.tsx:180 | "You" exactly for one's own messages |
| CampfireChat.CanSend | src/components/CampfireChat.tsx:105 | a message is sent only by a signed-in user and only when its trimmed text is not empty |
| CampfireChat.Outgoing | src/components/CampfireChat.tsx:105-112 | a message is sent exactly when signed in with non-blank text; it is the trimmed text |
| CampfireChat.OutgoingIsTrimmed | src/components/CampfireChat.tsx:111 | the sent message is non-empty and already trimmed |
| CampfireChat.Chat.constructor | src/components/CampfireChat.tsx:20-23 | no messages, empty input, loading, not sending |
| CampfireChat.Chat.Load | src/components/CampfireChat.tsx:69-101 | an error keeps the messages; otherwise the named rows; loading ends |
| CampfireChat.Chat.Receive | src/components/CampfireChat.tsx:43-55 | the new message is appended with its sender's name or "Camper" |
| CampfireChat.Chat.Type | src/components/CampfireChat.tsx:200 | the input holds the typed text |
| CampfireChat.Chat.Send | src/components/CampfireChat.tsx:103-121 | nothing happens without a sendable message; a successful insert clears the input, a failed one keeps it; sending ends |
| AuthForms.LastMessage | src/pages/Signup.tsx:37-42 | no message exactly when no issue is on the field; otherwise the message of the last issue on it |
| AuthForms.LastMessageSnoc | src/pages/Signup.tsx:37-42 | one more issue either sets its field's message or leaves it |
| AuthForms.LastMessageOf | src/pages/Signup.tsx:37-42 | the last issue on a field is the one whose message is reported |
| AuthForms.CollectErrors | src/pages/Signup.tsx:37-42 | the loop keeps the last message of each field |
| AuthForms.Redirect | src/pages/Signup.tsx:29 | the page to come back to, or "/" |
| Signup.Issues | src/pages/Signup.tsx:11-15 | the schema's issues in its order: both name length checks, the email syntax and length checks, the password length; `ValidExactly` and `LongMalformedEmail` prove what they mean |
| Signup.ValidExactly | src/pages/Signup.tsx:11-15 | the form is valid exactly when the trimmed name is 2 to 100 long, the trimmed email is an email of at most 255, and the password at least 6 |
| Signup.LongMalformedEmail | src/pages/Signup.tsx:13-40 | for a long malformed email the length message wins |
| Signup.FailureText | src/pages/Signup.tsx:52-55 | "already registered" errors get the log-in hint; others are shown as they are |
| Signup.Page.constructor | src/pages/Signup.tsx:21-22 | no errors, not loading |
| Signup.Page.Submit | src/pages/Signup.tsx:31-68 | sign-up is called exactly for a valid form, with the raw inputs; invalid, the field messages are shown; failure shows its text, success goes to the page to come back to |
| Login.Issues | src/pages/Login.tsx:11-14 | the email syntax check and the password length check; `ValidExactly` proves what they mean |
| Login.ValidExactly | src/pages/Login.tsx:11-14 | valid exactly when the trimmed email is an email and the password at least 6; each field's message |
| Login.FailureText | src/pages/Login.tsx:51-53 | only "Invalid login credentials" is rewritten |
| Login.Page.constructor | src/pages/Login.tsx:19-20 | no errors, not loading |
| Login.Page.Submit | src/pages/Login.tsx:29-63 | sign-in is called exactly for a valid form; invalid, the email and password messages; failure shows its text, success goes back |

## Left out

- The network, the database, storage, the AI gateway and the auth service are parameters: each method is given the reply it receives. Ordering and `limit` of a query are the store's business, so the rows come as the store returns them.
- The clock, `crypto.randomUUID()` and `Math.random()` are parameters (`now`, `today`, `uuid`, `createdAt`, `stamp`, the milliseconds left to midnight).
- `JSON.parse` is the `parse` parameter, and zod's email check is the `isEmail` parameter.
- Concurrency is not modelled: overlapping requests, a realtime insert arriving during a fetch, the interval timers.
- Time zones and floating point are not modelled. The countdown takes the milliseconds left to midnight as a natural number.
- Rendering, toasts, icons other than the duration icon, console logging, the scrolling behaviour and `URL.revokeObjectURL` are not modelled.
- Static pages and components, and the leaderboard, are not part of this model.
- String lengths are counted in characters, not in UTF-16 code units as zod and JavaScript count them.
- `Text.ToLower` and `Text.IsSpace`: lower-casing covers the ASCII capitals only; white space is the ASCII spaces plus the ECMAScript space characters listed in `Text.IsSpace`.
- JSON numbers are integers, so `String(n)` of a fraction is not modelled.
- AiResponse.FenceCapture: does not drop the white space matched by `\s*`, because the capture is trimmed straight afterwards.
- The error message of a runtime exception is engine text and is modelled by its cause only (`AiResponse.Fault`).
- The Camp Track challenge query compares `difficulty` with the lower-case skill id. Whether stored rows ever match depends on data that is not part of this model.

## Findings

| source | as written | input that shows it | evidently intended | confidence | as-written member | corrected member |
|---|---|---|---|---|---|---|
| src/pages/CampTrack.tsx:225-250 | `savePreferences` picks update or insert by `existingPrefs`, which only the initial load sets; a successful insert leaves it `null` | a user without stored preferences saves, chooses "Edit Preferences" and saves again: both saves are inserts for the same user | after a successful save the page holds the saved preferences, so the next save in the same visit updates the row | not executed | CampTrack.AsWrittenInsertsOnEverySave | CampTrack.CorrectedInsertsAtMostOnce |
