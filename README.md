# Resume builder: client state and AI call, modelled in Dafny

This project models the client-side logic of a resume builder written in TypeScript:

- **Resume editor store** (`ResumeStore.Store`). It holds the resume being edited and the template name. Each section (experience, education, skills, projects) has add, merge-by-id update and filter-by-id remove.
- **Dashboard store** (`DashboardStore.Store`). It holds the saved resumes and the pointer to the active one. Its operations are create, delete, update, rename, select, look up the active record and duplicate.
- **Chat store** (`ChatStore.Store`). It keeps one message log per resume id.
- **AI settings store** (`AISettingsStore.Store`). It holds three API keys, the selected provider and model, and the `hasKey` test.
- **User profile store** (`UserProfileStore.Store`). It holds a partial personal-info profile and a free-text context. Both are updated by shallow merge.
- **AI service** (`AIService`). It covers:
  - the context block appended to the system prompt;
  - model fallback to the provider's default;
  - rejection of an unknown provider or an empty key before any network traffic;
  - the request shape for each provider;
  - Gemini's code-fence stripping;
  - full-resume generation: template substitution, generation, then JSON parsing.
- **Experience editor** (`ExperienceEditor`). These are the handlers that add an entry and add, edit or remove one highlight line.
- **Resume schema** (`Schema`). It defines the validity predicates for each section and for the whole resume.

Shared pieces:
- `ById` holds the "find / filter / map where `id` matches" list operations that every store uses. The id accessor is a parameter.
- `Text` holds `Array.prototype.join` and `String.prototype.replace` with a string pattern (first occurrence only).
- `Scenario` runs a whole flow across the stores: create a resume, write one experience, save it and duplicate it. It proves what the copy holds.

How the outside world is represented:
- **Identifiers and timestamps.** `generateId()`, `Date.now()`, `new Date().toISOString()` and `Math.random()` are parameters. Postconditions that depend on freshness are stated conditionally ("if no record had this id, …").
- **The network.** It is the function parameter `reply: Request -> string`. `AIService.Request` is the value that would be sent. `reply` maps it to the text the provider's SDK returns.
- **Parsing and formats.** `JSON.parse` is the parameter `parse: string -> Option<ResumeData>`. `JSON.stringify` of the profile and context are string inputs. The `zod` email and URL formats are the two function fields of `Schema.Formats`.
- **Provider tags** are strings (`"openai"`, `"google"`, `"anthropic"`). Both the dispatch and `hasKey` have a default branch, and an unknown tag reaches it.

## Model

| member | source | states |
|---|---|---|
| ById.IndexOfId | src/lib/store/useDashboardStore.ts:103 | the index found is the first position whose id matches; none exactly when no element has the id |
| ById.FindById | src/components/builder/editors/ExperienceEditor.tsx:38 | `find` by id returns an element of the list with that id, the first one; none exactly when no element has it |
| ById.RemoveById | src/lib/store/useResumeStore.ts:77 | filter by id keeps exactly the elements with other ids, and afterwards no element has the id |
| ById.UpdateById | src/lib/store/useResumeStore.ts:67-69 | map by id has the same length; every matching element is merged with the patch and every other one is unchanged |
| ById.RemoveByIdAppend | src/lib/store/useResumeStore.ts:77 | filtering distributes over concatenation |
| ById.RemoveByIdAbsent | src/lib/store/useResumeStore.ts:77 | removing an id nobody has leaves the list as it was |
| ById.RemoveByIdIdempotent | src/lib/store/useResumeStore.ts:73-79 | removing the same id twice is the same as removing it once |
| ById.UpdateByIdAbsent | src/lib/store/useResumeStore.ts:63-71 | updating an id nobody has leaves the list as it was |
| ById.IndexOfIdSameIds | src/components/builder/editors/ExperienceEditor.tsx:38 | lists with the same id at every position find the same index |
| Schema.ValidPersonalInfo | src/lib/schema/resume.ts:4-14 | a non-empty name, an email address, and a website that is a URL when present; the other fields are free |
| Schema.ValidExperience | src/lib/schema/resume.ts:17-25 | title, company and start date non-empty |
| Schema.ValidEducation | src/lib/schema/resume.ts:28-37 | degree and school non-empty |
| Schema.ValidSkill | src/lib/schema/resume.ts:40-44 | a non-empty name and, when present, one of the four levels |
| Schema.ValidProject | src/lib/schema/resume.ts:47-54 | a non-empty name and a URL when present |
| Schema.ValidResume | src/lib/schema/resume.ts:57-63 | valid personal information and every entry of every section valid |
| Schema.SkillLevelEnumeration | src/lib/schema/resume.ts:40-44 | a skill with a name is valid with a level exactly when the level is one of beginner, intermediate, advanced or expert; it is valid with no level |
| Schema.DuplicateIdsAllowed | src/lib/schema/resume.ts:57-63 | the resume schema does not require distinct ids: appending the same valid entry twice keeps a valid resume valid |
| Text.Join | src/lib/ai/aiService.ts:51 | joining no parts gives ""; one part gives that part; the length is the sum of the part lengths plus one separator between each pair |
| Text.JoinSnoc | src/lib/ai/aiService.ts:51 | one more part at the end adds one separator and then that part, so the parts appear in order |
| Text.ReplaceFirst | src/lib/ai/aiService.ts:164 | `replace` with a string pattern; its meaning is stated by the two lemmas below |
| Text.IndexOfFrom | src/lib/ai/aiService.ts:164-166 | the match found is the first occurrence at or after the start; none means no occurrence there |
| Text.IndexOf | src/lib/ai/aiService.ts:164-166 | the first occurrence of the pattern, none exactly when it never occurs |
| Text.ReplaceFirstAt | src/lib/ai/aiService.ts:164 | a string-pattern replace splices the replacement in place of the first occurrence |
| Text.ReplaceFirstAbsent | src/lib/ai/aiService.ts:164 | a replace whose pattern does not occur returns the string unchanged |
| ResumeStore.SetInfoField | src/lib/store/useResumeStore.ts:43-52 | the named personal-info field holds the value afterwards and every other field is unchanged |
| ResumeStore.SetInfoFieldOverwrites | src/lib/store/useResumeStore.ts:43-52 | a second write to the same field replaces the first |
| ResumeStore.SetInfoFieldCommutes | src/lib/store/useResumeStore.ts:43-52 | writes to two different fields commute |
| ResumeStore.MergeExperienceLaws | src/lib/store/useResumeStore.ts:68 | spreading an empty partial changes nothing; spreading the same partial twice is the same as spreading it once |
| ResumeStore.MergeExperience | src/lib/store/useResumeStore.ts:68 | `{ ...exp, ...partial }`; its laws are stated below |
| ResumeStore.MergeEducation | src/lib/store/useResumeStore.ts:95 | `{ ...edu, ...partial }` |
| ResumeStore.MergeSkill | src/lib/store/useResumeStore.ts:122 | `{ ...s, ...partial }` |
| ResumeStore.MergeProject | src/lib/store/useResumeStore.ts:149 | `{ ...p, ...partial }` |
| ResumeStore.MergeSectionLaws | src/lib/store/useResumeStore.ts:95-149 | for education, skills and projects, an empty partial changes nothing and spreading the same partial twice equals spreading it once |
| ResumeStore.HighlightsPatchOnlyHighlights | src/lib/store/useResumeStore.ts:68 | a `{ highlights }` partial replaces the highlights and nothing else |
| ResumeStore.ExperienceEditsKeepValidity | src/lib/store/useResumeStore.ts:55-79 | adding a valid entry, removing by id, and updating with a partial that leaves required fields non-empty each keep a valid resume valid |
| ResumeStore.Store.constructor | src/lib/store/useResumeStore.ts:37-39 | the store starts with the given resume and template "classic" |
| ResumeStore.Store.SetResumeData | src/lib/store/useResumeStore.ts:41 | the whole resume is replaced and the template kept |
| ResumeStore.Store.UpdatePersonalInfo | src/lib/store/useResumeStore.ts:43-52 | only the named personal-info field changes, to the given value |
| ResumeStore.Store.AddExperience | src/lib/store/useResumeStore.ts:55-61 | the entry is appended and the other sections are unchanged |
| ResumeStore.Store.UpdateExperience | src/lib/store/useResumeStore.ts:63-71 | every entry with the id is merged with the partial; nothing changes when no entry has the id |
| ResumeStore.Store.RemoveExperience | src/lib/store/useResumeStore.ts:73-79 | the entries with the id are filtered out and afterwards none has it |
| ResumeStore.Store.AddEducation | src/lib/store/useResumeStore.ts:82-88 | the entry is appended and the other sections are unchanged |
| ResumeStore.Store.UpdateEducation | src/lib/store/useResumeStore.ts:90-98 | every entry with the id is merged with the partial; nothing changes when no entry has the id |
| ResumeStore.Store.RemoveEducation | src/lib/store/useResumeStore.ts:100-106 | the entries with the id are filtered out and afterwards none has it |
| ResumeStore.Store.AddSkill | src/lib/store/useResumeStore.ts:109-115 | the skill is appended and the other sections are unchanged |
| ResumeStore.Store.UpdateSkill | src/lib/store/useResumeStore.ts:117-125 | every skill with the id is merged with the partial; nothing changes when no skill has the id |
| ResumeStore.Store.RemoveSkill | src/lib/store/useResumeStore.ts:127-133 | the skills with the id are filtered out and afterwards none has it |
| ResumeStore.Store.AddProject | src/lib/store/useResumeStore.ts:136-142 | the project is appended and the other sections are unchanged |
| ResumeStore.Store.UpdateProject | src/lib/store/useResumeStore.ts:144-152 | every project with the id is merged with the partial; nothing changes when no project has the id |
| ResumeStore.Store.RemoveProject | src/lib/store/useResumeStore.ts:154-160 | the projects with the id are filtered out and afterwards none has it |
| ResumeStore.Store.SetActiveTemplate | src/lib/store/useResumeStore.ts:162 | the template becomes the given one and the resume is unchanged |
| DashboardStore.EmptyResume | src/lib/store/useDashboardStore.ts:29-45 | every personal-info field is present and "" and every section is empty |
| DashboardStore.EmptyResumeIsInvalid | src/lib/store/useDashboardStore.ts:29-45 | a freshly created resume does not pass the resume schema, because the name is empty |
| DashboardStore.UpdateKeepsIdentity | src/lib/store/useDashboardStore.ts:77-85 | updating data keeps every record's id, name and creation time; the matching records get the data and update time |
| DashboardStore.RenameKeepsIdentity | src/lib/store/useDashboardStore.ts:87-95 | renaming keeps every record's id, data and creation time; the matching records get the name and update time |
| DashboardStore.FindActive | src/lib/store/useDashboardStore.ts:101-104 | the active record is the first stored record whose id is the active pointer; null when the pointer is null or dangles |
| DashboardStore.Store.constructor | src/lib/store/useDashboardStore.ts:50-51 | no resumes and no active resume |
| DashboardStore.Store.GetActiveResume | src/lib/store/useDashboardStore.ts:101-104 | the record returned is the first stored record with the active id; null exactly when the pointer is null or no record has it |
| DashboardStore.Store.CreateResume | src/lib/store/useDashboardStore.ts:53-68 | appends a blank record with equal creation and update times, makes it active and returns its id; with a fresh id the active lookup returns that record |
| DashboardStore.Store.DeleteResume | src/lib/store/useDashboardStore.ts:70-75 | the records with the id are filtered out; the active pointer is cleared exactly when it pointed at that id |
| DashboardStore.Store.UpdateResume | src/lib/store/useDashboardStore.ts:77-85 | matching records get the data and update time; nothing changes for an unknown id; the active pointer stays |
| DashboardStore.Store.RenameResume | src/lib/store/useDashboardStore.ts:87-95 | matching records get the name and update time; nothing changes for an unknown id; the active pointer stays |
| DashboardStore.Store.SetActiveResume | src/lib/store/useDashboardStore.ts:97-99 | the pointer becomes the given id or null and the records stay |
| DashboardStore.Store.DuplicateResume | src/lib/store/useDashboardStore.ts:106-124 | an unknown id returns "" and changes nothing; otherwise a copy of the first match, with the same data and " (Copy)" after the name, is appended under the new id, which is returned; the active pointer stays |
| ChatStore.WithMessage | src/lib/store/useChatStore.ts:26-40 | the resume's log gains the message at its end and every other log is unchanged |
| ChatStore.WithoutChat | src/lib/store/useChatStore.ts:42-47 | the resume's key is gone, so its log reads as empty, and every other log is unchanged |
| ChatStore.MessagesOf | src/lib/store/useChatStore.ts:51 | the stored log of the resume, or the empty list when it has none; `Store.GetMessages` and every chat lemma read logs through it |
| ChatStore.ClearAbsentIsNoOp | src/lib/store/useChatStore.ts:42-47 | clearing a resume that has no log leaves the map as it was |
| ChatStore.WithMessagesAppends | src/lib/store/useChatStore.ts:26-40 | a series of sends appends the messages in order to that resume's log alone |
| ChatStore.FreshLogHoldsSends | src/lib/store/useChatStore.ts:26-47 | after a clear, the log holds exactly the messages sent since |
| ChatStore.Store.constructor | src/lib/store/useChatStore.ts:24 | no logs |
| ChatStore.Store.GetMessages | src/lib/store/useChatStore.ts:49-52 | the stored log, or the empty list for a resume without one |
| ChatStore.Store.AddMessage | src/lib/store/useChatStore.ts:26-40 | the new message, with the given id and timestamp, ends the resume's log; other logs are unchanged |
| ChatStore.Store.ClearChat | src/lib/store/useChatStore.ts:42-47 | the resume's log reads as empty and other logs are unchanged |
| AISettingsStore.KeyFor | src/lib/store/useAISettingsStore.ts:39-51 | there is a key field exactly for the three known providers |
| AISettingsStore.HasKey | src/lib/store/useAISettingsStore.ts:39-51 | true exactly when the tag is one of the three providers and that provider's key is non-empty; false for any other tag |
| AISettingsStore.SetKeyAffectsOnlyItsProvider | src/lib/store/useAISettingsStore.ts:32-51 | setting one provider's key decides `hasKey` for that provider by emptiness and leaves it unchanged for every other tag |
| AISettingsStore.SelectionDoesNotAffectKeys | src/lib/store/useAISettingsStore.ts:35-51 | choosing a provider or model never changes `hasKey` |
| AISettingsStore.InitiallyNoKeys | src/lib/store/useAISettingsStore.ts:26-30 | with the initial settings no tag has a key |
| AISettingsStore.Store.constructor | src/lib/store/useAISettingsStore.ts:26-30 | empty keys, provider "openai", empty model |
| AISettingsStore.Store.HasKeyFor | src/lib/store/useAISettingsStore.ts:39-51 | true exactly when the provider has a key field and it is non-empty |
| AISettingsStore.Store.SetOpenAIKey | src/lib/store/useAISettingsStore.ts:32 | only the OpenAI key changes |
| AISettingsStore.Store.SetGoogleKey | src/lib/store/useAISettingsStore.ts:33 | only the Google key changes |
| AISettingsStore.Store.SetAnthropicKey | src/lib/store/useAISettingsStore.ts:34 | only the Anthropic key changes |
| AISettingsStore.Store.SetSelectedProvider | src/lib/store/useAISettingsStore.ts:35-36 | only the selected provider changes |
| AISettingsStore.Store.SetSelectedModel | src/lib/store/useAISettingsStore.ts:37 | only the selected model changes |
| UserProfileStore.MergeProfile | src/lib/store/useUserProfileStore.ts:28-31 | fields present in the partial win; absent ones keep the stored value |
| UserProfileStore.MergeProfileLaws | src/lib/store/useUserProfileStore.ts:28-31 | merging the empty partial changes nothing; merging the same partial twice equals merging it once; two merges equal one merge of the merged partials |
| UserProfileStore.MergeContext | src/lib/store/useUserProfileStore.ts:35 | each context string given in the partial wins; an absent one keeps the stored value |
| UserProfileStore.MergeContextLaws | src/lib/store/useUserProfileStore.ts:33-36 | merging the empty partial changes nothing; merging the same partial twice equals merging it once |
| UserProfileStore.Store.constructor | src/lib/store/useUserProfileStore.ts:21-26 | empty profile; summary, skills and custom all "" |
| UserProfileStore.Store.UpdateProfile | src/lib/store/useUserProfileStore.ts:28-31 | the profile becomes the shallow merge and the context stays |
| UserProfileStore.Store.UpdateContext | src/lib/store/useUserProfileStore.ts:33-36 | the context becomes the shallow merge and the profile stays |
| AIService.DefaultModel | src/lib/ai/aiService.ts:14-18 | a non-empty default model exists exactly for the three providers |
| AIService.ModelFor | src/lib/ai/aiService.ts:56 | a non-empty selected model is used as it is; otherwise the provider's default; every known provider gets a non-empty model |
| AIService.ContextParts | src/lib/ai/aiService.ts:42-48 | one part per non-empty context text and no other; summary first, skills next, custom last when present |
| AIService.SystemPromptWithContext | src/lib/ai/aiService.ts:40-53 | the system prompt is a prefix of the result; the result equals it exactly when there is no non-empty context text; otherwise the header, the parts joined by blank lines and the footer follow |
| AIService.PushContextParts | src/lib/ai/aiService.ts:42-48 | the parts pushed one by one for the non-empty texts are exactly the labelled parts described above |
| AIService.FinalSystemPrompt | src/lib/ai/aiService.ts:40-53 | building the block by pushing parts and appending gives the system prompt described by the function above |
| AIService.ContextOrder | src/lib/ai/aiService.ts:43-51 | with all three texts, the block reads summary, skills, custom, separated by blank lines |
| AIService.GeminiPrompt | src/lib/ai/aiService.ts:118 | the system prompt, the JSON-only instruction and the user prompt can each be read back from Gemini's single prompt |
| AIService.AnthropicSystem | src/lib/ai/aiService.ts:141 | the Anthropic system text is the system prompt followed by the JSON-only instruction |
| AIService.OpenAIRequest | src/lib/ai/aiService.ts:85-104 | fails with the OpenAI missing-key error exactly when the key is empty; otherwise a chat request with that key, model, system and user prompt |
| AIService.GoogleRequest | src/lib/ai/aiService.ts:106-127 | fails with the Google missing-key error exactly when the key is empty; otherwise a request carrying the combined prompt |
| AIService.AnthropicRequest | src/lib/ai/aiService.ts:129-151 | fails with the Anthropic missing-key error exactly when the key is empty; otherwise a request with max tokens 1024 and the instructed system text |
| AIService.BuildRequest | src/lib/ai/aiService.ts:32-83 | "Invalid provider" exactly for an unknown tag; for a known one, failure exactly when `hasKey` is false, and then a missing-key error for it; on success the request goes to that provider with its key and the fallback model, and carries the context-extended system prompt and the user prompt in that provider's shape, with max tokens 1024 for Anthropic |
| AIService.StripFences | src/lib/ai/aiService.ts:125 | removing fences never lengthens the text |
| AIService.StripFencesKeepStep | src/lib/ai/aiService.ts:125 | a character that starts no fence is kept |
| AIService.StripFencesCloseStep | src/lib/ai/aiService.ts:125 | a closing fence with the newline before it is removed |
| AIService.StripFencesOpenStep | src/lib/ai/aiService.ts:125 | an opening fence with the newline after it is removed |
| AIService.StripFencesIdentity | src/lib/ai/aiService.ts:125 | text without a backtick passes through unchanged |
| AIService.StripClosingFence | src/lib/ai/aiService.ts:125 | a backtick-free body followed by a closing fence comes back as the body |
| AIService.StripFencedJson | src/lib/ai/aiService.ts:124-125 | a body wrapped in a json code block comes back exactly |
| AIService.StripBetweenClosingFences | src/lib/ai/aiService.ts:125 | a backtick-free body between two closing fences comes back as the body |
| AIService.StripFencesLeadingNewline | src/lib/ai/aiService.ts:125 | a newline before the opening fence is taken by the closing-fence alternative, so "json" is left in the text |
| AIService.GenerateContent | src/lib/ai/aiService.ts:32-151 | fails exactly when the request cannot be built, with the same error ("Invalid provider" for an unknown tag, a missing-key error exactly when `hasKey` is false); on success returns the provider's text, fence-stripped only for Google |
| AIService.ResponseText | src/lib/ai/aiService.ts:122-126 | the SDK text, with code fences removed for Gemini only |
| AIService.RejectsBeforeNetwork | src/lib/ai/aiService.ts:80-81 | with an unknown provider or no key the call fails, and the result does not depend on the network |
| AIService.FillTemplate | src/lib/ai/aiService.ts:164-166 | the first `{prompt}`, then the first `{profile}`, then the first `{context}` replaced; stated by the two lemmas below |
| AIService.FillTemplateWithoutPlaceholders | src/lib/ai/aiService.ts:164-166 | a template without the three placeholders is sent unchanged |
| AIService.FillTemplateIsSequential | src/lib/ai/aiService.ts:164-166 | the replacements are chained, so a user prompt containing `{profile}` receives the profile text |
| AIService.ParseReply | src/lib/ai/aiService.ts:176-181 | a generation error passes through; otherwise the result is the JSON error exactly when the text does not parse, and the parsed resume when it does |
| AIService.GenerateFullResume | src/lib/ai/aiService.ts:153-182 | as written: fails with the OpenAI missing-key error exactly when the OpenAI key is empty, never with "Invalid provider"; with a key, sends OpenAI the filled template plus context block and "Generate the JSON.", and returns the parse of the reply |
| AIService.FullResumeIgnoresSelectedProvider | src/lib/ai/aiService.ts:171 | as written, the selected provider has no effect on full-resume generation |
| AIService.FullResumeSelectedProviderCounterexample | src/lib/ai/aiService.ts:171 | settings that select Google and have only a Google key pass `hasKey` yet fail with the OpenAI missing-key error; with an OpenAI key too, the Gemini model name goes to OpenAI |
| AIService.GenerateFullResumeWithSelected | src/lib/ai/aiService.ts:153-182 | corrected: fails with the selected provider's missing-key error exactly when `hasKey` of that provider is false, and with "Invalid provider" exactly for an unknown tag; when `hasKey` holds, sends that provider its request with the filled template plus context block and "Generate the JSON.", and returns the parse of the reply text |
| AIService.SelectedProviderIsUsed | src/lib/ai/aiService.ts:171 | corrected: when `hasKey` holds for the selected provider, the request goes to that provider with its non-empty key |
| ExperienceEditor.BlankExperience | src/components/builder/editors/ExperienceEditor.tsx:21-31 | a new entry has the given id, "" in every string field (location and end date present and ""), no highlights, and fails the experience schema |
| ExperienceEditor.SetSlot | src/components/builder/editors/ExperienceEditor.tsx:40-41 | an index in range replaces that slot only; the index equal to the length appends; a negative index leaves the list unchanged |
| ExperienceEditor.DropIndex | src/components/builder/editors/ExperienceEditor.tsx:54 | an index in range removes that one line; any other index leaves the list unchanged |
| ExperienceEditor.WithHighlights | src/lib/store/useResumeStore.ts:63-71 | a highlights-only update sets the highlights of every entry with the id and changes nothing else |
| ExperienceEditor.HandleAddExperience | src/components/builder/editors/ExperienceEditor.tsx:21-31 | a blank entry with the given id is appended |
| ExperienceEditor.HandleUpdateHighlight | src/components/builder/editors/ExperienceEditor.tsx:33-43 | no change for an unknown id; otherwise the first match's highlights, with the slot written, go to every entry with the id |
| ExperienceEditor.HandleAddHighlight | src/components/builder/editors/ExperienceEditor.tsx:45-49 | no change for an unknown id; otherwise the first match's highlights plus one empty line go to every entry with the id |
| ExperienceEditor.HandleRemoveHighlight | src/components/builder/editors/ExperienceEditor.tsx:51-56 | no change for an unknown id; otherwise the first match's highlights without that index go to every entry with the id |
| ExperienceEditor.FirstEntryGetsEditedHighlights | src/components/builder/editors/ExperienceEditor.tsx:38-42 | after an edit, the first entry with the id holds the edited list, so the next handler reads it |
| ExperienceEditor.SingleEntry | src/components/builder/editors/ExperienceEditor.tsx:38-48 | for a one-entry list, the lookup finds that entry and an edit replaces only its highlights |
| Scenario.CreateEditDuplicate | src/lib/store/useDashboardStore.ts:53-124 | create, fill one experience with two highlights, save and duplicate: the copy has a new id, the name plus " (Copy)" and the same data |

## Left out

- Persistence. The `persist` middleware that saves the dashboard, chat, settings and profile stores to browser storage is not modelled; each store holds only its in-memory state.
- Asynchrony and the SDK clients. Each provider call is the single parameter `reply`. Three things are folded into it:
  - Gemini's `response.text()`;
  - OpenAI's `content || ""` for a null message;
  - Anthropic's `""` for a non-text first block.

  SDK errors, rejected promises, `console.error` and the `response_format` flag are not modelled.
- `JSON.parse` in full-resume generation, `JSON.stringify` of the profile and context, and the `zod` email and URL formats are parameters. Their own behaviour is not part of this model.
- `DashboardStore.Store.DuplicateResume`: the deep copy `JSON.parse(JSON.stringify(original.data))` is modelled as the same value. This assumes the round trip returns an equal record. The copy being independent of the original then follows from value semantics, not from a model of the copy.
- `Text.ReplaceFirst` treats the replacement literally. JavaScript's `$&`-style patterns inside a replacement string are not modelled.
- `FULL_RESUME_PROMPT` (`src/lib/ai/prompts.ts`) is the `template` parameter. Its text is not part of this model.
- The `initialResumeData` fixture (`src/lib/data/initialData.ts`) is the parameter of `ResumeStore.Store.constructor`. Its content is not part of this model.
- Reordering entries within a section is not modelled. The store has no such operation.
- `ResumeStore.Store.UpdatePersonalInfo` takes a field from the fixed set of nine. A field name outside the schema, which JavaScript would add as a new key, is not modelled.
- Partial patches are records of optional fields. A field given explicitly as `undefined`, which a JavaScript spread would copy over the stored value, is not modelled.
- `ExperienceEditor.HandleUpdateHighlight` requires the index to be at most the list length. A larger index makes JavaScript create holes in the array, which a `seq` cannot hold. The form renders each entry's inputs from that entry, but the handler looks up the first entry with the id. So when two entries share an id (which nothing forbids), an index from the later entry can exceed the first entry's list, and that case is excluded here.
- `DashboardStore.Store.UpdateResume` and `DashboardStore.Store.RenameResume` take one update time. The source calls `new Date()` once per matching record, so with duplicate ids those times could differ.
- Uniqueness of resume ids and entry ids is never required. The source neither checks it nor enforces it, so every operation is stated for lists with repeated ids, with "first match" or "every match" as the code does.
- The template name is any string, as the store accepts any string.
- Rendering and UI: templates, PDF documents, the download button with its file-name helper, pages and dialogs. These are presentation, not state logic.

## Findings

| source | as written | input that shows it | evidently intended | confidence | as-written member | corrected member |
|---|---|---|---|---|---|---|
| src/lib/ai/aiService.ts:171 | `generateFullResume` always passes provider "openai", though its caller (src/app/create/page.tsx:71) checks only `hasKey` for the selected provider | settings with OpenAI key "", Google key "g-key", selected provider "google", model "gemini-1.5-flash": `hasKey("google")` holds but generation fails with the OpenAI missing-key error | use `settings.selectedProvider`, as the comment on that line says | medium, not executed | AIService.FullResumeSelectedProviderCounterexample | AIService.GenerateFullResumeWithSelected |
