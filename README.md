# Proposal Whisper, modelled in Dafny

Proposal Whisper is a browser application for freelancers. A job post is pasted
into the job analyzer, which produces a structured analysis (skills, scope,
deliverables, budget, timezone, risks) and from it a proposal (cover letter,
milestones, three pricing tiers, client questions). Proposals are listed,
edited, refined through a chat with an AI service, copied as plain text, and
shared under a public slug that anyone can open. Reusable templates and
portfolio items are kept beside them. Everything lives in the browser's
storage under the keys `proposals`, `templates`, `portfolioItems`,
`publicProposals` and `currentProposal`.

This project models the core of that application and proves properties of the
model:

- `Optional`, `Text`, `Json`, `Collections`: the JavaScript behaviour the pages
  rely on. That is `trim`, ASCII `toLowerCase`, `includes`, `join`, `slice`,
  `filter`/`map`/`find`/`findIndex` by id, and the map-then-push upsert.
  `IndexOf`/`LastIndexOf` give the first `{` and the last `}`, which bound
  the greedy regex match of the reply extraction. `Split` is the reference
  inverse of `join`; it states the line structure of the copied texts. `Json` covers JSON values with JavaScript's
  property reads, where a read on `null`/`undefined` throws.
- `Records`, `Codec`: the typed records (job analysis, proposal data, proposal,
  template, portfolio item), their JSON form, and the round trip between the two.
- `AiService`: the AI gateway. It covers the demo-key checks, the greedy
  `{…}` extraction from a model reply, the two validators that clamp and default
  what the model returned, the demo analysis and demo proposal, and the three
  operations `analyzeJobPost`, `generateProposal` and `refineProposal` with
  their fallbacks.
- `Storage`: the browser storage, as a class with one field per key.
- `TemplatesPage`, `PortfolioPage`, `ProposalsListPage`, `ProposalViewPage`,
  `PublicProposalPage`, `FloatingChatWidget`, `JobAnalyzerPage`: one class
  per page or widget. Each holds the React state as fields, and each handler
  is a method with a `modifies` frame on the state and storage keys it writes.
- `Lifecycle`: sequences of handlers across pages, for example sharing a
  proposal and then opening its public link.

Several things are passed in as parameters: the Gemini reply (a `Reply`), the
`JSON.parse` of a reply (a function from text to an optional JSON value), the
clock (ISO strings and the `Date.now()` ids), the random share slug, and the
answers to `confirm` dialogs. A `setTimeout` callback is its own method, which
runs after the handler that scheduled it. Pending callbacks are a queue
(chat replies) or a counter (analyses).

Three behaviours of the code are easy to miss:
- The job analyzer page does not call the AI gateway. It builds its own mock
  analysis and mock proposal. The mock proposal repeats the gateway's default
  milestones, pricing and questions word for word. Its cover letter keeps the
  scope's case and signs off with `[Your Name]`, so it differs from the
  gateway's demo letter (`JobAnalyzerPage.MockLetterDiffersFromDemo`).
- Templates are reseeded with the ten defaults whenever storage holds two or
  fewer, so a store with one or two templates is overwritten. Portfolio items are seeded only when there
  are none.
- A proposal the public page shows gains a fixed freelancer name and bio,
  which the stored proposal does not carry.

## Model

| member | source | states |
|---|---|---|
| Text.Trim | src/pages/Templates.tsx:138 | `trim` leaves no whitespace at either end, and gives the empty string exactly when the text is all whitespace |
| Text.TrimStripsOuterWhitespace | src/pages/Templates.tsx:138 | `trim` removes exactly the leading and trailing whitespace: whitespace, then a part with non-whitespace ends, then whitespace trims to that part; every non-blank text splits this way, so together with `Text.Trim` this fixes `trim` on every input |
| Text.Lower | src/components/FloatingChat.tsx:54 | lower-casing keeps the length and maps each ASCII letter to its lower-case form and keeps every other character |
| Text.LowerIdempotent | src/components/FloatingChat.tsx:54 | lower-casing twice is the same as lower-casing once |
| Text.ContainsIff | src/components/FloatingChat.tsx:56 | `includes` holds exactly when the needle occurs at some offset |
| Text.SplitJoin | src/pages/ProposalView.tsx:152 | joining pieces without the separator and then splitting gives the pieces back |
| Text.NatToStringInjective | src/pages/ProposalView.tsx:152 | distinct numbers print as distinct decimal strings, so the question numbers differ |
| Text.NumberedPrefixesDiffer | src/pages/ProposalView.tsx:137-152 | texts opening with different numbers followed by ". " differ |
| Collections.Take | src/lib/aiService.ts:219 | `slice(0, n)` is a prefix of length at most `n`, and the whole array when it is shorter |
| Collections.RemoveKey | src/pages/Templates.tsx:197 | the filter keeps exactly the elements whose id differs |
| Collections.RemoveKeyAfterAppend | src/pages/Templates.tsx:151-197 | appending an element with a fresh id and then filtering that id out gives the original list |
| Collections.ReplaceKey | src/pages/Templates.tsx:183-185 | the id-map replaces every element with the id and keeps the others in place |
| Collections.UpsertKey | src/pages/ProposalView.tsx:105-112 | map-then-push replaces in place when the id is there and appends once when it is not |
| Collections.FindKey | src/pages/ProposalView.tsx:203 | `findIndex` is none exactly when no element has the id, and otherwise the first index that has it |
| Collections.UpsertThenFind | src/pages/ProposalView.tsx:105-112 | after an upsert, looking up the id finds the upserted proposal |
| Collections.CountPartition | src/pages/ProposalsList.tsx:121-137 | two counts that split every element between them add up to the length |
| Json.Get | src/lib/aiService.ts:201 | a property read throws a type error exactly on `null`/`undefined`, and otherwise yields the property or `undefined` |
| Json.StrsRoundTrip | src/lib/aiService.ts:17-30 | a string array written as JSON reads back as the same strings |
| Codec.MilestonesRoundTrip | src/lib/aiService.ts:19-23 | milestones written as JSON read back as the same milestones |
| Codec.PricingRoundTrip | src/lib/aiService.ts:24-28 | the three pricing tiers written as JSON read back as the same tiers |
| AiService.ValidateAnalysis | src/lib/aiService.ts:217-226 | throws exactly on `null`/`undefined`; otherwise arrays are cut to 7/5/4 elements, and non-arrays and non-strings get their defaults |
| AiService.ValidateProposal | src/lib/aiService.ts:228-235 | throws exactly on `null`/`undefined`; otherwise milestones are cut to 4 and questions to 5, a non-string letter and a falsy pricing get the defaults |
| AiService.AnalysisFixedPoint | src/lib/aiService.ts:217-226 | a validated analysis passes validation unchanged exactly when it is within the bounds |
| AiService.ProposalFixedPoint | src/lib/aiService.ts:228-235 | a validated proposal passes validation unchanged exactly when it is within the bounds |
| AiService.AnalysisIdempotent | src/lib/aiService.ts:217-226 | validating an analysis twice gives the same result as validating it once |
| AiService.ProposalIdempotent | src/lib/aiService.ts:228-235 | validating a proposal twice gives the same result as validating it once |
| AiService.ProposalRoundTrip | src/lib/aiService.ts:17-30 | a typed proposal loosened to validator output and read back is the same proposal |
| AiService.DemoAnalysisShape | src/lib/aiService.ts:238-257 | the demo analysis has 5 skills, 5 deliverables and 3 risks, and passes validation unchanged |
| AiService.DemoCoverLetter | src/lib/aiService.ts:261 | the demo letter opens with the lower-cased scope and the skills line, and ends with the timezone and the sign-off |
| AiService.DemoProposal | src/lib/aiService.ts:259-305 | the demo proposal has 3 milestones and 5 questions, is within the validator's bounds, and validating it changes nothing |
| AiService.EmptyAnswerGetsDefaults | src/lib/aiService.ts:217-305 | an answer with none of the fields validates to the default skills, scope, deliverables, budget, timezone, risks, letter, milestones, pricing and questions, within the bounds |
| AiService.DemoProposalDependsOnThreePieces | src/lib/aiService.ts:261 | two analyses with the same lower-cased scope, first three skills and timezone give the same demo proposal |
| AiService.JsonRegion | src/lib/aiService.ts:74 | the `{[\s\S]*}` match exists exactly when some `{` precedes some `}`, and is a slice of the reply from a `{` to a `}` |
| AiService.BraceSpansWithinExtremes | src/lib/aiService.ts:74 | every `{…}` span lies between the first `{` and the last `}`, so the match is the widest one |
| AiService.JsonRegionIsGreedy | src/lib/aiService.ts:74 | on `{a} {b}` the match spans both objects |
| AiService.ApiKey | src/lib/aiService.ts:5 | the key is the environment's key when set and non-empty, otherwise `demo-key`; demo mode holds exactly when the environment key is missing, empty or `demo-key` |
| AiService.IsDemoKey | src/lib/aiService.ts:37 | the demo-mode test; specified by `AiService.ApiKey` |
| AiService.ParseReply | src/lib/aiService.ts:74-80 | a failed call or a reply without a `{…}` region throws; the result is a value exactly when the region parses |
| AiService.AnalysisOr | src/lib/aiService.ts:76-84 | a reply that parses and validates is the result; any throw falls back to the demo analysis |
| AiService.ProposalOr | src/lib/aiService.ts:146-153 | a reply that parses and validates is the result; any throw falls back to the demo proposal |
| AiService.AnalyzeJobPost | src/lib/aiService.ts:36-86 | the demo key answers the demo analysis; otherwise the parsed reply or the fallback; the result is always within bounds |
| AiService.GenerateProposal | src/lib/aiService.ts:89-155 | the demo key answers the demo proposal; otherwise the parsed reply or the fallback; the result is always within bounds |
| AiService.RefineParsed | src/lib/aiService.ts:199-205 | throws exactly when the parsed value or its `updatedProposal` is nullish; otherwise the validated proposal and a truthy answer, with the default answer when the model gave none |
| AiService.Unrefined | src/lib/aiService.ts:163-168 | the fallback refinement carries the current proposal unchanged and the given message |
| AiService.RefineAnswer | src/lib/aiService.ts:193-213 | a reply that fails or does not parse keeps the proposal with the trouble message; a parsed reply is refined as read |
| AiService.RefineProposal | src/lib/aiService.ts:158-214 | the demo key keeps the proposal with the no-key message; otherwise the answer is refined; the answer is always truthy |
| AiService.RefineFailureKeepsProposal | src/lib/aiService.ts:163-213 | on the demo key or any throw, the refined proposal reads back as the current one |
| AiService.RefineWithoutUpdatedProposal | src/lib/aiService.ts:201-213 | a reply without `updatedProposal` takes the catch branch, not a default |
| Storage.Store.constructor | src/pages/ProposalsList.tsx:40 | a fresh store reads as empty lists, an empty public map, and no current proposal |
| TemplatesPage.DefaultTemplates | src/pages/Templates.tsx:48-122 | the ten seed templates have ids "1" to "10", the seed texts, and the load time as creation time |
| TemplatesPage.DefaultTemplateIdsDistinct | src/pages/Templates.tsx:48-122 | the seed template ids are pairwise distinct |
| TemplatesPage.EditedTemplate | src/pages/Templates.tsx:175-181 | an edit takes the form's fields, keeps the id and creation time, and stamps `updatedAt` |
| TemplatesPage.TemplatesPageState.constructor | src/pages/Templates.tsx:34-41 | no templates, dialogs closed, nothing being edited, empty form |
| TemplatesPage.TemplatesPageState.Load | src/pages/Templates.tsx:43-127 | two or fewer stored templates are replaced by the ten defaults; otherwise the stored ones are shown; page and storage agree |
| TemplatesPage.TemplatesPageState.SetForm | src/pages/Templates.tsx:257-279 | the form takes the typed values |
| TemplatesPage.TemplatesPageState.SetCreateOpen | src/pages/Templates.tsx:240 | the create dialog opens or closes |
| TemplatesPage.TemplatesPageState.CancelCreate | src/pages/Templates.tsx:293-295 | the create dialog closes and the form is reset |
| TemplatesPage.TemplatesPageState.Create | src/pages/Templates.tsx:137-158 | a blank name changes nothing; otherwise the new template is appended in page and storage, the form is reset and the dialog closed |
| TemplatesPage.TemplatesPageState.Edit | src/pages/Templates.tsx:160-167 | the template becomes the one being edited and the form shows its fields |
| TemplatesPage.TemplatesPageState.DismissEdit | src/pages/Templates.tsx:416 | closing the edit dialog clears the template being edited |
| TemplatesPage.TemplatesPageState.CancelEdit | src/pages/Templates.tsx:460-462 | cancel clears the template being edited and resets the form |
| TemplatesPage.TemplatesPageState.Update | src/pages/Templates.tsx:169-193 | nothing to edit or a blank name changes nothing; otherwise the template with that id is replaced by the edit in page and storage |
| TemplatesPage.TemplatesPageState.Delete | src/pages/Templates.tsx:195-202 | a declined confirm changes nothing; otherwise the id is filtered out of page and storage |
| TemplatesPage.CreateThenDelete | src/pages/Templates.tsx:137-202 | creating a template with a fresh id and deleting it gives back the original list |
| TemplatesPage.UpdateKeepsIds | src/pages/Templates.tsx:183-185 | an update keeps the length and every id, and leaves other templates untouched |
| PortfolioPage.DefaultItems | src/pages/Portfolio.tsx:50-78 | the three seed items have ids "1" to "3", the seed texts, and the load time as creation time |
| PortfolioPage.DefaultItemIdsDistinct | src/pages/Portfolio.tsx:50-78 | the seed item ids are pairwise distinct |
| PortfolioPage.EditedItem | src/pages/Portfolio.tsx:135-141 | an edit takes the form's four fields, keeps the id and creation time, and stamps `updatedAt` |
| PortfolioPage.CopyText | src/pages/Portfolio.tsx:165 | `handleCopyItem`'s text; specified by `PortfolioPage.CopyTextLines` |
| PortfolioPage.LabelledLine | src/pages/Portfolio.tsx:165 | a label followed by a one-line value is one line |
| PortfolioPage.CopyTextLines | src/pages/Portfolio.tsx:164-168 | when no field holds a line break, the copied text is exactly four lines: title, tech stack, result, link |
| PortfolioPage.PortfolioPageState.constructor | src/pages/Portfolio.tsx:35-43 | no items, dialogs closed, nothing being edited, empty form |
| PortfolioPage.PortfolioPageState.Load | src/pages/Portfolio.tsx:45-83 | an empty store is seeded with the three defaults; otherwise the stored items are shown; page and storage agree |
| PortfolioPage.PortfolioPageState.SetForm | src/pages/Portfolio.tsx:227-260 | the form takes the typed values |
| PortfolioPage.PortfolioPageState.SetCreateOpen | src/pages/Portfolio.tsx:210 | the create dialog opens or closes |
| PortfolioPage.PortfolioPageState.CancelCreate | src/pages/Portfolio.tsx:274-276 | the create dialog closes and the form is reset |
| PortfolioPage.PortfolioPageState.Create | src/pages/Portfolio.tsx:94-116 | a blank title changes nothing; otherwise the new item is appended in page and storage, the form is reset and the dialog closed |
| PortfolioPage.PortfolioPageState.Edit | src/pages/Portfolio.tsx:118-126 | the item becomes the one being edited and the form shows its fields |
| PortfolioPage.PortfolioPageState.DismissEdit | src/pages/Portfolio.tsx:400 | closing the edit dialog clears the item being edited |
| PortfolioPage.PortfolioPageState.CancelEdit | src/pages/Portfolio.tsx:454-456 | cancel clears the item being edited and resets the form |
| PortfolioPage.PortfolioPageState.Update | src/pages/Portfolio.tsx:128-153 | nothing to edit or a blank title changes nothing; otherwise the item with that id is replaced by the edit in page and storage |
| PortfolioPage.PortfolioPageState.Delete | src/pages/Portfolio.tsx:155-162 | a declined confirm changes nothing; otherwise the id is filtered out of page and storage |
| PortfolioPage.CreateThenDelete | src/pages/Portfolio.tsx:94-162 | creating an item with a fresh id and deleting it gives back the original list |
| ProposalsListPage.SharedCount | src/pages/ProposalsList.tsx:121 | the shared count is zero exactly when no proposal is shared |
| ProposalsListPage.DraftCount | src/pages/ProposalsList.tsx:137 | the draft count is zero exactly when no proposal is a draft |
| ProposalsListPage.CountZeroIff | src/pages/ProposalsList.tsx:121-137 | a filter count is zero exactly when nothing passes the filter |
| ProposalsListPage.CountsAddUp | src/pages/ProposalsList.tsx:106-137 | when every status is draft or shared, the two counts add up to the total |
| ProposalsListPage.StatusColor | src/pages/ProposalsList.tsx:61-63 | the shared colour exactly for `shared`, the draft colour for every other status |
| ProposalsListPage.UpdatedCell | src/pages/ProposalsList.tsx:225 | a dash exactly when `updatedAt` is missing or empty, otherwise that date |
| ProposalsListPage.ProposalsListPageState.constructor | src/pages/ProposalsList.tsx:36 | the list starts empty |
| ProposalsListPage.ProposalsListPageState.Load | src/pages/ProposalsList.tsx:38-42 | the list shows the stored proposals |
| ProposalsListPage.ProposalsListPageState.Delete | src/pages/ProposalsList.tsx:44-51 | a declined confirm changes nothing; otherwise the id is filtered out of list and storage; public links stay |
| ProposalViewPage.Found | src/pages/ProposalView.tsx:65-69 | a stored proposal is found exactly when the route has an id some proposal carries, and it is the first stored proposal with that id |
| ProposalViewPage.FromDraft | src/pages/ProposalView.tsx:72-80 | a draft opens as a `draft` with the draft's body, its own id or else the route id or else "1", and the default job title unless it has one |
| ProposalViewPage.ApplyEdit | src/pages/ProposalView.tsx:94-100 | the edited section takes the value; the other section, milestones, pricing, questions, id, status, slug, history and dates stay as they were |
| ProposalViewPage.Numbered | src/pages/ProposalView.tsx:152 | line `i` opens with the number `i+1` and ". " and ends with exactly question `i` |
| ProposalViewPage.NumberedDistinct | src/pages/ProposalView.tsx:152 | no two numbered question lines are equal, even for equal questions |
| ProposalViewPage.MilestoneEntries | src/pages/ProposalView.tsx:136-139 | block `i` opens on a new line with the number `i+1` and the milestone's title, and ends with a line break |
| ProposalViewPage.MilestoneEntriesDistinct | src/pages/ProposalView.tsx:136-139 | no two milestone blocks are equal, even for equal milestones |
| ProposalViewPage.CopyHead | src/pages/ProposalView.tsx:130-133 | the title and cover-letter part of the copy; specified by `ProposalViewPage.CopyBodyEnds` |
| ProposalViewPage.CopyBody | src/pages/ProposalView.tsx:129-152 | the copy before trimming; specified by `ProposalViewPage.CopyBodyEnds` and `ProposalViewPage.ProposalTextExact` |
| ProposalViewPage.ProposalText | src/pages/ProposalView.tsx:129-153 | the copied text starts and ends with a non-blank character |
| ProposalViewPage.CopyBodyEnds | src/pages/ProposalView.tsx:129-152 | before trimming, the text starts with the job title block and ends with the last numbered question |
| ProposalViewPage.ProposalTextExact | src/pages/ProposalView.tsx:129-153 | when the title starts and the last question ends non-blank, trimming removes only the outer newlines |
| ProposalViewPage.QuestionLines | src/pages/ProposalView.tsx:152 | one-line questions give exactly one numbered line each |
| ProposalViewPage.ShareSlug | src/pages/ProposalView.tsx:184 | an existing non-empty slug is kept; otherwise the freshly drawn one is used |
| ProposalViewPage.SharedProposal | src/pages/ProposalView.tsx:188-193 | sharing sets the slug, the `shared` status and `updatedAt`, and keeps everything else |
| ProposalViewPage.ShareSlugStable | src/pages/ProposalView.tsx:184-193 | sharing again reuses the slug of the first share |
| ProposalViewPage.ReplaceFirst | src/pages/ProposalView.tsx:202-207 | `findIndex` then assignment replaces the first proposal with the id, or leaves the list alone when there is none |
| ProposalViewPage.ChatStep | src/pages/ProposalView.tsx:233-244 | the chat adds the user and assistant entries, takes the refined body, and keeps id, title, status, slug and dates |
| ProposalViewPage.ChatFailureKeepsBody | src/pages/ProposalView.tsx:226-244 | when refinement falls back, the chat changes only the history |
| ProposalViewPage.ProposalViewPageState.constructor | src/pages/ProposalView.tsx:57-61 | no proposal, nothing being edited, chat closed and empty |
| ProposalViewPage.ProposalViewPageState.Load | src/pages/ProposalView.tsx:63-84 | a stored proposal with the route id is shown; otherwise the current draft; otherwise nothing changes |
| ProposalViewPage.ProposalViewPageState.StartEdit | src/pages/ProposalView.tsx:86-89 | the section is being edited with the given value |
| ProposalViewPage.ProposalViewPageState.SetEditValue | src/pages/ProposalView.tsx:310 | the edit box takes the typed value |
| ProposalViewPage.ProposalViewPageState.SetChatMessage | src/pages/ProposalView.tsx:525 | the chat box takes the typed message |
| ProposalViewPage.ProposalViewPageState.ToggleChatBox | src/pages/ProposalView.tsx:499 | the chat box opens or closes |
| ProposalViewPage.ProposalViewPageState.SaveEdit | src/pages/ProposalView.tsx:91-119 | with nothing to save nothing changes; otherwise the edit is shown and upserted into storage, and editing ends |
| ProposalViewPage.ProposalViewPageState.CancelEdit | src/pages/ProposalView.tsx:121-124 | editing ends and the edit box is cleared |
| ProposalViewPage.ProposalViewPageState.Share | src/pages/ProposalView.tsx:181-211 | the shared proposal is shown, stored under its slug in the public map, and replaces the stored proposal with its id |
| ProposalViewPage.ProposalViewPageState.Chat | src/pages/ProposalView.tsx:213-272 | a blank message or no proposal changes nothing; otherwise one chat step is shown and written back by id, and the message is cleared |
| PublicProposalPage.Lookup | src/pages/PublicProposal.tsx:50-60 | a view exists exactly when the slug, or "" without one, is a key of the public map; it is that proposal with the freelancer name and bio |
| PublicProposalPage.PublicProposalPageState.constructor | src/pages/PublicProposal.tsx:45-46 | no proposal and still loading |
| PublicProposalPage.PublicProposalPageState.Load | src/pages/PublicProposal.tsx:48-64 | a found slug shows its proposal; a missing one keeps the previous state; loading ends either way |
| PublicProposalPage.PublicProposalPageState.Screen | src/pages/PublicProposal.tsx:74-101 | the loading screen exactly while loading, not-found exactly when loading ended without a proposal, else the proposal |
| FloatingChatWidget.Decide | src/components/FloatingChat.tsx:56-76 | a message with `template` gets the templates reply; the default reply exactly when no keyword occurs |
| FloatingChatWidget.TopicOf | src/components/FloatingChat.tsx:53-76 | the topic of a message is the first rule of the keyword table that matches its lower-cased form |
| FloatingChatWidget.BotResponse | src/components/FloatingChat.tsx:53-77 | `generateBotResponse`; specified by `FloatingChatWidget.BotResponseIsCanned`, `FloatingChatWidget.BotResponseIgnoresCase` and `FloatingChatWidget.AiKeywordGetsAiReply` |
| FloatingChatWidget.TopicFollowsRules | src/components/FloatingChat.tsx:56-76 | the reply is the first keyword rule that matches, in source order |
| FloatingChatWidget.BotResponseIsCanned | src/components/FloatingChat.tsx:53-77 | every reply is one of the six canned texts |
| FloatingChatWidget.BotResponseIgnoresCase | src/components/FloatingChat.tsx:54 | a message and its lower-cased form get the same reply |
| FloatingChatWidget.TemplatesKeywordRedundant | src/components/FloatingChat.tsx:56 | testing `templates` besides `template` adds nothing |
| FloatingChatWidget.AiKeywordGetsAiReply | src/components/FloatingChat.tsx:54-61 | any message whose lower-cased form contains `ai` and not `template` gets the AI reply |
| FloatingChatWidget.EmailGetsAiReply | src/components/FloatingChat.tsx:60 | "email" contains `ai`, so it gets the AI reply |
| FloatingChatWidget.SendKeepsValid | src/components/FloatingChat.tsx:25-51 | sending keeps the greeting first and one pending reply per unanswered user line |
| FloatingChatWidget.ReplyKeepsValid | src/components/FloatingChat.tsx:39-48 | a reply firing keeps the same balance |
| FloatingChatWidget.FloatingChatState.constructor | src/components/FloatingChat.tsx:9-23 | closed, an empty box, and only the greeting in the history |
| FloatingChatWidget.FloatingChatState.SetMessage | src/components/FloatingChat.tsx:123 | the box takes the typed message |
| FloatingChatWidget.FloatingChatState.Toggle | src/components/FloatingChat.tsx:147 | the chat opens or closes |
| FloatingChatWidget.FloatingChatState.Close | src/components/FloatingChat.tsx:90 | the chat closes |
| FloatingChatWidget.FloatingChatState.Send | src/components/FloatingChat.tsx:25-51 | a blank message changes nothing; otherwise the user line is appended, a reply is scheduled, and the box is cleared |
| FloatingChatWidget.FloatingChatState.ReplyFires | src/components/FloatingChat.tsx:39-48 | the oldest scheduled reply is appended as the bot's answer to that message |
| JobAnalyzerPage.MockAnalysisShape | src/components/JobAnalyzer.tsx:30-48 | the mock analysis is the gateway's demo analysis with a longer scope |
| JobAnalyzerPage.MockCoverLetter | src/components/JobAnalyzer.tsx:57 | the page's cover letter; specified by `JobAnalyzerPage.MockCoverLetterShape` and `JobAnalyzerPage.MockLetterDiffersFromDemo` |
| JobAnalyzerPage.MockProposal | src/components/JobAnalyzer.tsx:56-75 | the page's proposal; specified by `JobAnalyzerPage.MockProposalIsDemoWithOwnLetter` |
| JobAnalyzerPage.MockCoverLetterShape | src/components/JobAnalyzer.tsx:57 | the mock letter opens with the scope as typed and the skills line, and ends with the timezone and `[Your Name]` |
| JobAnalyzerPage.MockLetterDiffersFromDemo | src/components/JobAnalyzer.tsx:57 | the mock letter never equals the gateway's demo letter |
| JobAnalyzerPage.MockProposalIsDemoWithOwnLetter | src/components/JobAnalyzer.tsx:56-75 | the mock proposal is the demo proposal with the mock letter; 3 milestones and 5 questions |
| JobAnalyzerPage.JobAnalyzerPageState.constructor | src/components/JobAnalyzer.tsx:18-21 | empty post, no analysis, not analyzing, proposal hidden |
| JobAnalyzerPage.JobAnalyzerPageState.SetJobPost | src/components/JobAnalyzer.tsx:116 | the post takes the typed text |
| JobAnalyzerPage.JobAnalyzerPageState.Analyze | src/components/JobAnalyzer.tsx:23-29 | a blank post changes nothing; otherwise analysis starts and a timer is pending |
| JobAnalyzerPage.JobAnalyzerPageState.AnalysisTimerFires | src/components/JobAnalyzer.tsx:29-49 | a pending timer sets the mock analysis and ends analyzing |
| JobAnalyzerPage.JobAnalyzerPageState.GenerateProposal | src/components/JobAnalyzer.tsx:52-82 | without an analysis nothing changes; otherwise the mock proposal becomes the current draft and is shown |
| Lifecycle.ShareThenVisit | src/pages/ProposalView.tsx:181-211 | after a share, the public page at the returned slug shows the shared proposal |
| Lifecycle.ShareTwice | src/pages/ProposalView.tsx:184-199 | two shares use the same slug, and the public map holds the latest state |
| Lifecycle.DeleteKeepsPublicLink | src/pages/ProposalsList.tsx:44-51 | deleting a shared proposal removes it from the list but its public link still shows the shared snapshot |
| Lifecycle.GenerateThenOpen | src/components/JobAnalyzer.tsx:52-82 | a generated proposal opens in the view as a draft with the mock body and the default job title |
| Lifecycle.EditThenReopen | src/pages/ProposalView.tsx:91-119 | a saved edit is what the view shows when the proposal is opened again |

## Left out

- The request to Gemini and the prompt texts: the reply is a parameter, and the
  job post, freelancer name and conversation text only reach the prompt.
- `JSON.parse` of a model reply is a parameter. Storage holds typed records,
  so `JSON.stringify` and the parse of stored values become the identity (the
  JSON form and its round trip are in `Codec`).
- Numbers in JSON are carried as reals, and nothing is computed on them.
- Case folding outside ASCII: `toLowerCase` is modelled on ASCII letters only.
  The emoji and bullet characters of the canned texts are kept exactly.
- Date formatting, PDF export, clipboard writes, toasts, `alert`, navigation
  and the share URL's origin: presentation only. `confirm` is a boolean
  parameter.
- URL validation of portfolio links is not part of this model.
- Storage failures: the store holds typed records, so a stored `proposals`
  value that does not parse or is not an array, and a quota error on write,
  cannot occur in the model. The chat handler's catch branch is reached only
  by such failures, since `refineProposal` never throws, so it is not modelled.
- ProposalViewPage.ProposalViewPageState.Chat: the handler runs as one step,
  but the source awaits `refineProposal` with no in-flight guard. The send
  button is disabled only for a blank message, and the box is cleared only
  after the answer arrives. A second send, a share or a save during the wait
  works from the proposal as it was when the send began. When both finish,
  the later write wins. One chat exchange can then be lost from the history,
  and a share made in between can be undone in the page and under
  `proposals`. The model does not capture these interleavings.
- ProposalViewPage.ChatStep: a refined proposal that does not read back as a
  typed proposal keeps the old body. The source would spread it in as it is.
- JavaScript's inherited object properties (a reply key such as `toString`)
  are not modelled: lookups see only the object's own keys.
- Clocks, `Date.now()` ids and `Math.random()` slugs are parameters. Id
  uniqueness is stated as a precondition where a lemma needs it.
- Timers are two steps: the handler that schedules a callback, and the firing.
  Interleavings with unmounting are not modelled.
- The animated background (`FloatingBubbles`) and the routing shell (`App`)
  are not part of this model. JSX rendering, and the status badge's
  upper-casing, are presentation only.
