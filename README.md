# Lexi, modelled in Dafny

Lexi is a personal executive assistant: a FastAPI backend with a local memory store, projects
with an audit log, a user profile and a first-run interview; a registry of callable tools; an
older generation of "skills" (PowerPoint, LinkedIn post, report, smart-home lamp, web agent)
that a dispatcher picks by trigger phrase; and React components for the chat screen, its
breathing orb and two generations of audio visualizers.

This project models that core and proves properties of the model.

- Code that changes state step by step is modelled as classes. These are the memory manager,
  the project and user tables, the tool registry, the skill loader, the dispatcher and the
  chat screen. Their methods state the whole new state they leave behind.
- Code that only computes is modelled as functions with named results, with lemmas about them.
- Loops of the source are methods with loop invariants, proved against a specification
  function. Examples: the topic extraction's phrase deletion, the loader's discovery loop,
  `find_matching_skill`, slide generation and the canvas meter's drawing loop.

The shared modules work as follows:

- `Wrappers` holds `Option`, `Result` and the HTTP errors.
- `Text` models the Python string operations the core uses. These are `lower` and `title`
  (below code point 256), `in`, `strip`, `split`, `join`, `replace(p, "")`, slicing, `int`
  and `str` of a natural number, and JavaScript's `trim`.
- `Dicts` models a Python dictionary with its insertion order.

Time stamps, generated ids, output directories and the outcome of every library call (file
writes, device discovery, page loads, a missing package) are parameters of the model.

### Behaviour the proofs bring out

Each item is stated as a lemma.

- `ProjectEndpoints.ArchivePatchStrandsDeleted`: `update_project` with `archived` set sets the
  status of a soft-deleted project back to archived or active but leaves `deleted_at` in place.
  Such a project then appears in no listing and can no longer be restored (400).
- `PowerPointSkill.PhraseOrderLeavesOm`: `_extract_topic` deletes "skapa presentation" before
  "presentation om", so "skapa presentation om ai" gets the topic "om ai".
- `PowerPointSkill.PresentationSize`: asking for one slide gives five slides, because
  `sections[:-1]` takes three sections.
- `KasaSkill.OfficeLampTurnsOn`: "släck lampan på kontoret" turns the lamp ON, because "on"
  occurs inside "kontoret" and the on-words are tested first.
- `KasaSkill.Execute`: the "device not found" error in `execute` can never be returned. The
  loop always falls back to the first device.
- `CanvasAudioBar.PairIsMirrored` and `CanvasAudioBar.OddCountOverhangs`: the legacy canvas
  meter mirrors its bars about `center - 1`, not the centre. With an odd number of bars, its
  outermost left bar starts left of the canvas.
- `CanvasVisualizer.IntensityPropUnused`: the legacy canvas visualizer never reads its
  `intensity` prop.
- `Memory.QueryFacts`: `get_memories` sorts by the key `(-importance, updated_at)` ascending.
  Among entries of equal importance, the OLDEST update comes first, although the comment next
  to the sort says both keys are descending. The model follows the code.

## Model

| member | source | states |
|---|---|---|
| Memory.NewEntry | backend/memory_manager.py:21-35 | the fields are the arguments; a missing creation time becomes now and a missing update time the creation time |
| Memory.FreshEntryStamps | backend/memory_manager.py:31-35 | a fresh entry is created and updated at the current time |
| Memory.ClampImportance | backend/memory_manager.py:138 | importance is clamped into 1..5 and left alone inside it |
| Memory.Select | backend/memory_manager.py:155-163 | keeps exactly the entries of the category (when one is given) at or above the importance (when above 1), drawn from the store |
| Memory.Selected | backend/memory_manager.py:157-162 | no filter keeps everything; a kept entry has the category asked for and, above 1, at least the importance asked for |
| Memory.KeyLe | backend/memory_manager.py:165-170 | higher importance ranks first, lower never does, and equal keys rank either way |
| Memory.KeyLeTotal | backend/memory_manager.py:165-170 | any two entries are ordered one way or the other |
| Memory.KeyLeTrans | backend/memory_manager.py:165-170 | the ranking is transitive |
| Memory.SelectSubMultiset | backend/memory_manager.py:157-162 | each kept entry is kept at most as often as it is stored |
| Memory.SelectAppend | backend/memory_manager.py:157-162 | selection keeps the order and multiplicity of the store: it distributes over concatenation |
| Memory.SelectOne | backend/memory_manager.py:157-162 | a single entry is kept exactly when it passes both filters |
| Memory.SortByKey | backend/memory_manager.py:165-170 | a permutation of its input, sorted by (-importance, updated_at) |
| Memory.SortStable | backend/memory_manager.py:165-170 | the sort is stable: entries of equal key keep their store order |
| Memory.RemoveId | backend/memory_manager.py:190-192 | keeps exactly the entries with another id; a store without the id is unchanged |
| Memory.RemoveIdAppend | backend/memory_manager.py:190-192 | deletion distributes over concatenation |
| Memory.RemoveIdIdempotent | backend/memory_manager.py:190-192 | deleting twice is deleting once |
| Memory.FirstIndex | backend/memory_manager.py:178-179 | the first entry with the id, or none has it |
| Memory.UpdateFirst | backend/memory_manager.py:178-182 | only the first entry with the id gets the new content and update time; the rest is unchanged, and so is a store without the id |
| Memory.CategoryEmoji | backend/memory_manager.py:222-228 | the memo emoji exactly for a category other than the four known ones |
| Memory.ContextLine | backend/memory_manager.py:230 | the category emoji, one space, then the whole content, and nothing else |
| Memory.ContextLines | backend/memory_manager.py:221-230 | one context line per memory, in order |
| Memory.MemoryManager.constructor | backend/memory_manager.py:98-100 | a fresh store: no entries, no preferences, version 1 |
| Memory.MemoryManager.AddMemory | backend/memory_manager.py:119-144 | appends one entry with the clamped importance and equal time stamps, returns its id, keeps everything else |
| Memory.MemoryManager.GetMemories | backend/memory_manager.py:146-172 | selected entries from the store, sorted, as many as the slice `[:limit]` leaves (a negative limit drops that many from the end), and no entry left out ranks before one returned |
| Memory.QueryFacts | backend/memory_manager.py:158-172 | the selection-sort-slice pipeline yields selected, sorted, best-ranked entries, as many as the slice leaves |
| Memory.PrefixOfSorted | backend/memory_manager.py:172 | a prefix of a sorted list is sorted and ranks before everything cut off |
| Memory.MemoryManager.UpdateMemory | backend/memory_manager.py:174-184 | the entries become UpdateFirst of the old ones; preferences unchanged |
| Memory.MemoryManager.DeleteMemory | backend/memory_manager.py:186-194 | the entries become RemoveId of the old ones; preferences unchanged |
| Memory.MemoryManager.SetPreference | backend/memory_manager.py:196-201 | the preference map gets the key set to the value; entries unchanged |
| Memory.MemoryManager.GetPreference | backend/memory_manager.py:203-206 | the stored value, or the default when the key is missing |
| Memory.MemoryManager.GetContextForLlm | backend/memory_manager.py:208-232 | empty exactly when no memory of importance 2 or more is selected; otherwise the header and one context line per selected memory, joined by newlines |
| Memory.ContextSelection | backend/memory_manager.py:214-217 | without important memories nothing is selected; with one and a positive limit something is |
| Memory.MemoryManager.ExportMemory | backend/memory_manager.py:234-242 | exports exactly the version, entries and preferences |
| Memory.MemoryManager.ImportMemory | backend/memory_manager.py:244-251 | entries and preferences become the imported ones, empty when missing |
| Memory.ExportImportRoundTrip | backend/memory_manager.py:234-251 | exporting and then importing the backup through the manager leaves its entries and preferences as they were |
| ProjectModel.StatusName | backend/models/project.py:6-9 | the three status values are distinct and name their status |
| ProjectModel.ActionName | backend/models/project.py:27-32 | the value is the action verb followed by `_PROJECT` |
| ProjectModel.ActionVerb | backend/models/project.py:27-32 | each action has its own verb, each verb its own action |
| ProjectModel.ActionNameInjective | backend/models/project.py:27-32 | different actions are stored under different values |
| ProjectModel.GenerateProjectKey | backend/models/project.py:49-55 | the key is the prefix followed by the decimal count + 1 |
| ProjectModel.GenerateProjectKeyInjective | backend/models/project.py:49-55 | distinct counts give distinct keys |
| ProjectModel.NewProject | backend/models/project.py:11-22 | a new project is active, not deleted, in the single workspace, created and updated now |
| ProjectEndpoints.Listed | backend/api/endpoints/projects.py:32-35 | a listed row is not deleted and has the status asked for; a row without a deletion time is listed exactly when it has that status or none is asked for |
| ProjectEndpoints.ListProjects | backend/api/endpoints/projects.py:26-38 | exactly the rows of the requested status, never a deleted row |
| ProjectEndpoints.ListProjectsAppend | backend/api/endpoints/projects.py:32-38 | listing distributes over the table's rows |
| ProjectEndpoints.FindIndex | backend/api/endpoints/projects.py:77-78 | the row with the id, or no row has it |
| ProjectEndpoints.FindIndexWellFormed | backend/api/endpoints/projects.py:77-81 | in an autoincrement table id i is row i-1, and any other id is not found |
| ProjectEndpoints.KeysUnique | backend/models/project.py:49-55 | no two rows share a key |
| ProjectEndpoints.Updated | backend/api/endpoints/projects.py:98-113 | name and description change when given, `archived` sets the status, updated_at is now, and nothing else changes |
| ProjectEndpoints.UpdateAudit | backend/api/endpoints/projects.py:102-111 | an audit row exactly when `archived` is given: ARCHIVE for true, UPDATE for false |
| ProjectEndpoints.SoftDeleted | backend/api/endpoints/projects.py:132-133 | status deleted, deletion time set, nothing else changes |
| ProjectEndpoints.Restored | backend/api/endpoints/projects.py:160-162 | status active, no deletion time, updated now, nothing else changes |
| ProjectEndpoints.CreationExtraData | backend/api/endpoints/projects.py:64 | `{"name": "`, then the whole name, then `"}`, and nothing else |
| ProjectEndpoints.ProjectStore.constructor | backend/api/endpoints/projects.py:40-53 | an empty table and audit log |
| ProjectEndpoints.ProjectStore.List | backend/api/endpoints/projects.py:26-38 | exactly the listed rows of the table |
| ProjectEndpoints.ProjectStore.Get | backend/api/endpoints/projects.py:71-83 | the project exactly when some row has the id, otherwise 404 |
| ProjectEndpoints.ProjectStore.Create | backend/api/endpoints/projects.py:40-69 | appends the new project with the next id and key and one CREATE audit row; the table stays well formed |
| ProjectEndpoints.ProjectStore.Update | backend/api/endpoints/projects.py:85-118 | 404 and no change for an unknown id; otherwise the row becomes Updated and the audit gets UpdateAudit |
| ProjectEndpoints.ProjectStore.Delete | backend/api/endpoints/projects.py:120-143 | 404 and no change for an unknown id; otherwise the row is soft-deleted and one DELETE audit row is added |
| ProjectEndpoints.ProjectStore.Restore | backend/api/endpoints/projects.py:145-175 | 404 for an unknown id, 400 for a project that is not deleted, otherwise restored with one RESTORE audit row |
| ProjectEndpoints.AppendWellFormed | backend/api/endpoints/projects.py:46-53 | appending the next project keeps ids consecutive and keys unique |
| ProjectEndpoints.CreatedIsListedAndFound | backend/api/endpoints/projects.py:46-53 | a created project is listed by default and found by its id |
| ProjectEndpoints.DeletedNeverListed | backend/api/endpoints/projects.py:32-35 | a soft-deleted project appears in no listing, whatever the status filter |
| ProjectEndpoints.RestoredIsListed | backend/api/endpoints/projects.py:160-161 | a restored project is listed again |
| ProjectEndpoints.DeleteRestoreRoundTrip | backend/api/endpoints/projects.py:132-133 | restoring a deleted active project gives it back with only its update time changed |
| ProjectEndpoints.ArchivePatchStrandsDeleted | backend/api/endpoints/projects.py:102-103 | patching `archived` on a deleted project hides it from every listing while its status is no longer deleted |
| ProjectEndpoints.RestoreNeedsDeleted | backend/api/endpoints/projects.py:157-158 | a present project that is not deleted is found but refused by restore |
| UserModel.NewUser | backend/models/user.py:5-19 | the defaults of a new user: Executive, Collaborative, Direct, not onboarded |
| UserEndpoints.ApplySettings | backend/api/endpoints/user.py:41-48 | given fields are replaced, the user is onboarded, and nothing else changes |
| UserEndpoints.EmptySettingsOnlyOnboard | backend/api/endpoints/user.py:41-48 | an empty settings update only marks the user onboarded |
| UserEndpoints.ApplySettingsIdempotent | backend/api/endpoints/user.py:41-48 | applying the same settings twice is applying them once |
| UserEndpoints.FirstUnbound | backend/api/endpoints/user.py:24-29 | none exactly when every name is bound, otherwise an unbound name among them, the first when the first is unbound |
| UserEndpoints.ImportModule | backend/api/endpoints/user.py:1-31 | a NameError exactly when an annotation of the settings model names something unbound, and then that name; otherwise both routes |
| UserEndpoints.ImportFailsWithoutOptional | backend/api/endpoints/user.py:26-27 | without `Optional` bound the import stops with a NameError for it |
| UserEndpoints.EndpointsNeverAnswerAsWritten | backend/api/endpoints/user.py:1-29 | as written the import fails on `Optional`, so no route is served |
| UserEndpoints.CorrectedImportServesBoth | backend/api/endpoints/user.py:9-31 | with `Optional` imported both `/me` and `/me/settings` are served |
| UserEndpoints.UserTable.constructor | backend/api/endpoints/user.py:9-22 | the user table starts empty |
| UserEndpoints.UserTable.GetCurrentUser | backend/api/endpoints/user.py:9-22 | the first user, created with the defaults when there is none |
| UserEndpoints.UserTable.UpdateUserSettings | backend/api/endpoints/user.py:31-53 | the first (or a new default) user with the settings applied, stored as the first user |
| OnboardingService.GetNextQuestion | backend/services/onboarding.py:16-19 | the question of the step, the closing message past the end, Python's negative indexing, and an IndexError below it |
| OnboardingService.ClosingIsNotAQuestion | backend/services/onboarding.py:9-19 | the closing message is not one of the questions |
| OnboardingService.Rendered | backend/services/onboarding.py:37-38 | a missing style is written as `None` |
| OnboardingService.GenerateSystemPrompt | backend/services/onboarding.py:30-41 | the introduction, then the role, leadership and communication lines, then the mission, in order |
| OnboardingService.PromptLinesParts | backend/services/onboarding.py:36-38 | each profile line is its caption, the whole value, then a full stop and a newline |
| OnboardingService.SystemPromptUsesOnlyRoleAndStyles | backend/services/onboarding.py:34-40 | users that agree on role and styles get the same prompt |
| OnboardingService.DefaultUserPrompt | backend/services/onboarding.py:36 | a default user's prompt names the role Executive |
| OnboardingEndpoints.AnswerResponse | backend/api/endpoints/onboarding.py:32-46 | next step is step + 1, complete exactly from the last question on, the closing message then, and a 500 for an index Python rejects |
| OnboardingEndpoints.InterviewInOrder | backend/api/endpoints/onboarding.py:32-40 | answering question i yields question i + 1, and the last answer completes the interview |
| OnboardingEndpoints.SubmitAnswer | backend/api/endpoints/onboarding.py:20-46 | 404 without a user; otherwise AnswerResponse, with the user marked onboarded exactly on completion |
| OnboardingEndpoints.StartInterview | backend/api/endpoints/onboarding.py:48-60 | the first question at step 0, creating the default user when none exists |
| Tools.NotFoundMessage | backend/tools/registry.py:39 | the message has the id's length plus 15 |
| Tools.FailedMessage | backend/tools/registry.py:45 | the message has the cause's length plus 23 |
| Tools.ToolRegistry.constructor | backend/tools/registry.py:11-13 | no tools and no definitions |
| Tools.ToolRegistry.Register | backend/tools/registry.py:15-28 | the function is stored under the id and its definition put in the dictionary, replacing an earlier one; the function is returned |
| Tools.ToolRegistry.GetTool | backend/tools/registry.py:30-31 | the registered function, or none |
| Tools.ToolRegistry.ListTools | backend/tools/registry.py:33-34 | the registered definitions, each with its own id, in registration order |
| Tools.ListingAfterRegister | backend/tools/registry.py:19-28 | registering a new id appends its definition to the listing; registering a known id replaces that definition in place |
| Tools.ListToolsIds | backend/tools/registry.py:33-34 | the listed definitions are exactly the registered ids, each once |
| Tools.ToolRegistry.Execute | backend/tools/registry.py:36-45 | ValueError for an unknown id, the tool's result, or a RuntimeError wrapping its failure |
| Tools.ExecuteResponse | backend/api/endpoints/tools.py:14-22 | ValueError becomes 404 and RuntimeError 500, with the message kept; a result passes through |
| SkillBase.StatusValue | _legacy_v2/skills/base_skill.py:14-20 | each status value names exactly its own status |
| SkillBase.StatusValueInjective | _legacy_v2/skills/base_skill.py:14-20 | different statuses have different values |
| SkillBase.Failure | _legacy_v2/skills/base_skill.py:37-44 | a failed result carries the error and nothing else |
| SkillBase.MissingNameMessage | _legacy_v2/skills/base_skill.py:80 | the message has the class name's length plus 25 |
| SkillBase.Instantiate | _legacy_v2/skills/base_skill.py:78-80 | a skill without a name fails to instantiate, and any other keeps its attributes |
| SkillBase.AnyTriggerIn | _legacy_v2/skills/base_skill.py:105-108 | true exactly when some lower-cased trigger occurs in the text |
| SkillBase.MatchesTrigger | _legacy_v2/skills/base_skill.py:105-108 | true exactly when some trigger occurs in the text, both lower-cased |
| SkillBase.ContainedTriggerMatches | _legacy_v2/skills/base_skill.py:105-108 | a text containing a trigger verbatim matches |
| SkillBase.MatchIgnoresCase | _legacy_v2/skills/base_skill.py:105-108 | lower-casing the text does not change whether it matches |
| SkillBase.NoTriggersNoMatch | _legacy_v2/skills/base_skill.py:105-108 | a skill without triggers matches nothing |
| SkillBase.Validate | _legacy_v2/skills/base_skill.py:95-103 | the base validation accepts every context with an empty error |
| SkillBase.TriggerValues | _legacy_v2/skills/base_skill.py:110-118 | every trigger in order, as strings |
| SkillBase.ToDict | _legacy_v2/skills/base_skill.py:110-118 | the five metadata keys in order with the skill's values, the triggers in full and in order |
| SkillBase.Repr | _legacy_v2/skills/base_skill.py:120-121 | `<Skill:`, the whole name, then `>` |
| SkillPackage.LoadOne | _legacy_v2/skills/__init__.py:35-42 | taking one outcome keeps every skill stored under its own name |
| SkillPackage.Loaded | _legacy_v2/skills/__init__.py:25-45 | the table after discovery is keyed by skill name |
| SkillPackage.LastNamed | _legacy_v2/skills/__init__.py:35-42 | the last instantiated skill of the name, or none has it |
| SkillPackage.LoadedGet | _legacy_v2/skills/__init__.py:25-49 | after loading, a name finds the last skill instantiated under it |
| SkillPackage.GetInValues | _legacy_v2/skills/__init__.py:47-53 | a skill found by name carries the name and is among the listed skills |
| SkillPackage.FirstMatch | _legacy_v2/skills/__init__.py:55-60 | the first skill that matches, or none matches |
| SkillPackage.SkillLoader.constructor | _legacy_v2/skills/__init__.py:21-45 | the table is the loaded discovery outcomes |
| SkillPackage.SkillLoader.GetSkill | _legacy_v2/skills/__init__.py:47-49 | found exactly when the name is a key, and then the skill of that name |
| SkillPackage.SkillLoader.GetAllSkills | _legacy_v2/skills/__init__.py:51-53 | the loaded skills themselves, in load order, names distinct |
| SkillPackage.SkillLoader.FindMatchingSkill | _legacy_v2/skills/__init__.py:55-60 | the loop returns FirstMatch over the skills in load order |
| SkillPackage.SkillLoader.GetSkillsContext | _legacy_v2/skills/__init__.py:62-64 | the metadata of every skill, in order |
| Dispatch.NotFoundMessage | skills/skill_dispatcher.py:63-66 | the message has the name's length plus 18 |
| Dispatch.FailedMessage | skills/skill_dispatcher.py:109-112 | the message has the cause's length plus 24 |
| Dispatch.RunningMessage | skills/skill_dispatcher.py:94-95 | the message has the display name's length plus 11 |
| Dispatch.Choose | skills/skill_dispatcher.py:59-73 | a non-empty name looks the skill up by name, otherwise by trigger; not-found errors for each |
| Dispatch.MakeContext | skills/skill_dispatcher.py:75-84 | the context carries input and session, with missing preferences and history empty |
| Dispatch.Outcome | skills/skill_dispatcher.py:86-112 | choice errors, validation errors, execution exceptions and cancellation each give their failure; success only from an uncancelled run |
| Dispatch.CancelOverridesSuccess | skills/skill_dispatcher.py:97-106 | a run cancelled while it ran reports cancellation even when it succeeded |
| Dispatch.ExceptionBeatsCancel | skills/skill_dispatcher.py:97-112 | an exception is reported as a failure even when the run was cancelled |
| Dispatch.EmptyNameMeansTrigger | skills/skill_dispatcher.py:60-68 | an empty skill name chooses by trigger |
| Dispatch.DefaultValidationRuns | skills/skill_dispatcher.py:86-89 | with the base validation, a chosen skill always runs |
| Dispatch.DescriptionLine | skills/skill_dispatcher.py:134 | the description line starts with a dash |
| Dispatch.DescriptionLineParts | skills/skill_dispatcher.py:134 | the line is `- `, the whole display name, `: `, then the whole description |
| Dispatch.TriggerLine | skills/skill_dispatcher.py:135 | the trigger line starts with `  Triggers: ` |
| Dispatch.TriggerLineParts | skills/skill_dispatcher.py:133-135 | after the label the line is exactly the trigger list |
| Dispatch.Quoted | skills/skill_dispatcher.py:133 | two characters longer than the trigger |
| Dispatch.QuotedParts | skills/skill_dispatcher.py:133 | the whole trigger between two double quotes |
| Dispatch.QuotedTriggers | skills/skill_dispatcher.py:133 | as many entries as Python's `triggers[:3]` |
| Dispatch.QuotedTriggersAt | skills/skill_dispatcher.py:133 | the first three triggers (all when fewer), each quoted, in order |
| Dispatch.TriggerList | skills/skill_dispatcher.py:133 | empty exactly when the skill has no triggers |
| Dispatch.TriggerListJoins | skills/skill_dispatcher.py:133 | the quoted triggers joined by `, ` |
| Dispatch.TriggerListOfThree | skills/skill_dispatcher.py:133 | with three or more triggers: the first three quoted, separated by `, ` |
| Dispatch.TriggerListFirst | skills/skill_dispatcher.py:133 | the list opens with the first trigger in double quotes |
| Dispatch.OnlyFirstThreeTriggers | skills/skill_dispatcher.py:133 | triggers after the third never change the list |
| Dispatch.SkillLines | skills/skill_dispatcher.py:132-135 | two lines per skill, in order |
| Dispatch.SkillLinesSnoc | skills/skill_dispatcher.py:132-135 | one more skill adds its description and trigger lines at the end |
| Dispatch.SkillLinesAt | skills/skill_dispatcher.py:132-135 | line 2i describes skill i and line 2i+1 lists its triggers |
| Dispatch.SkillsPrompt | skills/skill_dispatcher.py:124-137 | the fixed sentence exactly when there are no skills, otherwise the header and the skill lines joined by newlines |
| Dispatch.SkillDispatcher.constructor | skills/skill_dispatcher.py:22-34 | no active skill, not cancelled, nothing reported |
| Dispatch.SkillDispatcher.Dispatch | skills/skill_dispatcher.py:36-114 | returns Outcome of the choice and context; a skill that runs adds the running status when a callback is given and leaves no active skill, and a request that does not run changes nothing else |
| Dispatch.SkillDispatcher.RunChosen | skills/skill_dispatcher.py:86-112 | returns Outcome for the chosen skill; a run adds the running status when a callback is given, sets the cancel flag as cancelled and clears the active skill, and a failed validation changes nothing |
| Dispatch.SkillDispatcher.Cancel | skills/skill_dispatcher.py:116-118 | sets the cancel flag and nothing else |
| Dispatch.SkillDispatcher.GetAvailableSkills | skills/skill_dispatcher.py:120-122 | the metadata of every loaded skill, in order |
| Dispatch.SkillDispatcher.GetSkillsPrompt | skills/skill_dispatcher.py:124-137 | the skills prompt of the loaded skills |
| SkillText.RemovePhrases | _legacy_v2/skills/powerpoint_skill.py:116-118 | deleting phrases never lengthens the text or adds a character, and leaves a text without them alone |
| SkillText.DeletePhrases | _legacy_v2/skills/powerpoint_skill.py:117-118 | the deletion loop computes RemovePhrases |
| SkillText.LowerIsLowerCased | _legacy_v2/skills/powerpoint_skill.py:116 | a lower-cased text is its own lower case |
| SkillText.TopicOf | _legacy_v2/skills/powerpoint_skill.py:112-119 | the topic is the fallback or a lower-cased, stripped, non-empty part no longer than the request |
| SkillText.TopicWithoutPhrases | _legacy_v2/skills/powerpoint_skill.py:112-119 | a request without the phrases has its stripped lower-cased text as topic, or the fallback when that is blank |
| SkillText.BlankTopicFallsBack | _legacy_v2/skills/powerpoint_skill.py:119 | a blank request gets the fallback topic |
| SkillText.KeepSafe | _legacy_v2/skills/powerpoint_skill.py:79 | keeps only alphanumerics, space, dash and underscore, and keeps a safe text whole |
| SkillText.KeepSafeIdempotent | _legacy_v2/skills/powerpoint_skill.py:79 | filtering twice is filtering once |
| SkillText.SafeTopic | _legacy_v2/skills/powerpoint_skill.py:79 | safe characters of the topic, at most the limit |
| SkillText.SafeTopicKeepsSafe | _legacy_v2/skills/powerpoint_skill.py:79 | a short safe topic is kept as it is |
| SkillText.SafeTopicHasNoSeparator | _legacy_v2/skills/powerpoint_skill.py:79-81 | no slash, backslash, dot or colon reaches the file name |
| SkillText.Saved | _legacy_v2/skills/powerpoint_skill.py:90-99 | a saved skill result: success with the data, the file in the output directory, and a message announcing the same file name after its lead, ending with the extension |
| SkillText.JoinPath | _legacy_v2/skills/powerpoint_skill.py:81 | the directory, a slash, the name |
| SkillText.ExtractTopic | _legacy_v2/skills/powerpoint_skill.py:112-119 | the loop gives TopicOf the request with the skill's phrases and fallback (the LinkedIn and report skills' `_extract_topic` are the same code with their own phrases) |
| PowerPointSkill.PhraseOrderLeavesOm | _legacy_v2/skills/powerpoint_skill.py:115-119 | "skapa presentation om ai" gets the topic "om ai" |
| PowerPointSkill.DigitPrefix | _legacy_v2/skills/powerpoint_skill.py:124 | the longest run of digits the text starts with |
| PowerPointSkill.FirstSlideNumberIsSearch | _legacy_v2/skills/powerpoint_skill.py:124 | the number read is that of the leftmost digit run, starting at a run boundary, followed by optional whitespace and "slide"; none when there is no such run |
| PowerPointSkill.ExtractSlideCount | _legacy_v2/skills/powerpoint_skill.py:121-127 | the first number before "slide" capped at 20, or 6 |
| PowerPointSkill.RequestedSlideCount | _legacy_v2/skills/powerpoint_skill.py:124-126 | "n slides" after digit-free text gives min(n, 20) |
| PowerPointSkill.NoNumberSixSlides | _legacy_v2/skills/powerpoint_skill.py:125-127 | a request without digits gets six slides |
| PowerPointSkill.Bullets | _legacy_v2/skills/powerpoint_skill.py:149-153 | three bullets, each "Punkt " and of the topic's length plus 11 |
| PowerPointSkill.SlidesFor | _legacy_v2/skills/powerpoint_skill.py:129-164 | two slides more than Python's slice `sections[:n-2]` holds |
| PowerPointSkill.SlidesLayout | _legacy_v2/skills/powerpoint_skill.py:129-164 | the title slide first, the closing slide last, and between them the sections in order, each with its three bullets about the topic |
| PowerPointSkill.GenerateSlidesContent | _legacy_v2/skills/powerpoint_skill.py:129-164 | builds exactly the presentation `SlidesFor` lays out |
| PowerPointSkill.SectionCount | _legacy_v2/skills/powerpoint_skill.py:146 | the number of sections Python's slice takes for every n, negative stops included |
| PowerPointSkill.PresentationSize | _legacy_v2/skills/powerpoint_skill.py:140-164 | between two and six slides, min(6, n) from two on, and five for one |
| PowerPointSkill.ErrorMessage | _legacy_v2/skills/powerpoint_skill.py:106-110 | the message has the cause's length plus 16 |
| PowerPointSkill.Filename | _legacy_v2/skills/powerpoint_skill.py:80 | safe topic, underscore, time stamp, `.pptx` |
| PowerPointSkill.FilenameStaysInDirectory | _legacy_v2/skills/powerpoint_skill.py:78-81 | the file name has no slash, so the file stays in the output directory |
| PowerPointSkill.Execute | _legacy_v2/skills/powerpoint_skill.py:41-110 | with `RGBColor` imported: the import error exactly when python-pptx is missing, a rendering error, or `Created`: success with the number of slides `SlidesFor` lays out, the topic, and the file path and message naming the cut topic and time stamp |
| PowerPointSkill.Created | _legacy_v2/skills/powerpoint_skill.py:77-99 | success with the slide count and topic as data, the file `Filename` names from the topic cut to 30 safe characters and the time stamp, in the output directory, and a message naming the same `.pptx` file |
| PowerPointSkill.ExecuteImporting | _legacy_v2/skills/powerpoint_skill.py:41-110 | the import error exactly when the colour class cannot be imported, otherwise as `Execute` |
| PowerPointSkill.ExecuteAsWritten | _legacy_v2/skills/powerpoint_skill.py:47 | importing `RgbColor`, every request ends in the install message |
| LinkedInSkill.GeneratePost | _legacy_v2/skills/linkedin_skill.py:115-135 | the hook with the title-cased topic first, the topic again in the closing question, fixed length otherwise |
| LinkedInSkill.TopicTags | _legacy_v2/skills/linkedin_skill.py:143-151 | two or three topic tags |
| LinkedInSkill.LastTwo | _legacy_v2/skills/linkedin_skill.py:140-153 | the cut to five keeps the base tags and two topic tags, dropping `#Innovation` |
| LinkedInSkill.TagsAreWords | _legacy_v2/skills/linkedin_skill.py:140-153 | every tag is one word |
| LinkedInSkill.GenerateHashtags | _legacy_v2/skills/linkedin_skill.py:137-153 | splitting the hashtags gives back the five tags, never `#Innovation` |
| LinkedInSkill.HashtagBranches | _legacy_v2/skills/linkedin_skill.py:143-151 | the topic tags of each branch, in branch order |
| LinkedInSkill.HashtagsStartWithBase | _legacy_v2/skills/linkedin_skill.py:140-153 | the hashtags start with the three base tags |
| LinkedInSkill.FullPost | _legacy_v2/skills/linkedin_skill.py:67-68 | the post, a blank line, the hashtags |
| LinkedInSkill.ErrorMessage | _legacy_v2/skills/linkedin_skill.py:101-105 | the message has the cause's length plus 14 |
| LinkedInSkill.Filename | _legacy_v2/skills/linkedin_skill.py:72-73 | `LinkedIn_`, safe topic, underscore, time stamp, `.txt` |
| LinkedInSkill.CreatedMessage | _legacy_v2/skills/linkedin_skill.py:98 | the fixed sentence with the character count in decimal between `(` and ` tecken)` |
| LinkedInSkill.CreatedMessageCount | _legacy_v2/skills/linkedin_skill.py:98 | the count can be read back from the message |
| LinkedInSkill.Execute | _legacy_v2/skills/linkedin_skill.py:44-105 | a write error, or success with topic, post, hashtags, character count and file path |
| ReportSkill.BareRequestFallsBack | _legacy_v2/skills/report_skill.py:98-102 | "rapport om" alone gets the fallback topic |
| ReportSkill.GenerateReport | _legacy_v2/skills/report_skill.py:104-156 | the title-cased heading first, the signature last, and length fixed by topic and date |
| ReportSkill.ReportNamesTopicAndDate | _legacy_v2/skills/report_skill.py:104-156 | after the heading, which is two longer than the topic, the date and twice the topic at their places in the template |
| ReportSkill.ErrorMessage | _legacy_v2/skills/report_skill.py:90-94 | the message has the cause's length plus 13 |
| ReportSkill.Filename | _legacy_v2/skills/report_skill.py:65-67 | `Rapport_`, safe topic, underscore, time stamp, `.md` |
| ReportSkill.Created | _legacy_v2/skills/report_skill.py:65-87 | success with the topic, the markdown format and the report's word count as data, the file `Filename` names from the topic cut to 30 safe characters and the time stamp, in the output directory, and a message naming the same `.md` file |
| ReportSkill.Execute | _legacy_v2/skills/report_skill.py:45-94 | a write error, or `Created`: success with the topic, the markdown format, the word count of the generated report, and the file path naming the cut topic and time stamp |
| KasaSkill.ActionName | _legacy_v2/skills/kasa_skill.py:117-124 | one of on, off, toggle |
| KasaSkill.AnyIn | _legacy_v2/skills/kasa_skill.py:119-122 | true exactly when one of the words occurs in the text, never for no words |
| KasaSkill.ParseAction | _legacy_v2/skills/kasa_skill.py:117-124 | on exactly when an on-word occurs, off when only an off-word occurs, toggle otherwise |
| KasaSkill.OfficeLampTurnsOn | _legacy_v2/skills/kasa_skill.py:119-122 | "släck lampan på kontoret" parses as on |
| KasaSkill.SecondPart | _legacy_v2/skills/kasa_skill.py:131 | the text between the first and the second occurrence of the keyword |
| KasaSkill.FirstWord | _legacy_v2/skills/kasa_skill.py:133 | a single word |
| KasaSkill.FirstNaming | _legacy_v2/skills/kasa_skill.py:129-133 | the first keyword, in list order from the k-th on, that is followed by a name, or none is |
| KasaSkill.ExtractDeviceName | _legacy_v2/skills/kasa_skill.py:126-134 | none exactly when no keyword names a device, otherwise the first word after the first keyword that does |
| KasaSkill.AliasMatches | _legacy_v2/skills/kasa_skill.py:64 | only a non-empty name matches, and a device's own non-empty alias always does |
| KasaSkill.AliasMatchIgnoresCase | _legacy_v2/skills/kasa_skill.py:64 | lower-casing the alias or the name never changes whether they match |
| KasaSkill.FirstMatching | _legacy_v2/skills/kasa_skill.py:62-66 | the first device whose alias contains the name, or none does |
| KasaSkill.Chosen | _legacy_v2/skills/kasa_skill.py:62-68 | a matching device when there is one, otherwise the first device |
| KasaSkill.SelectDevice | _legacy_v2/skills/kasa_skill.py:60-74 | the loop returns Chosen, and nothing only for no devices |
| KasaSkill.CommandFor | _legacy_v2/skills/kasa_skill.py:80-94 | on and off are sent as asked; toggle turns a lit lamp off and a dark one on |
| KasaSkill.DoneMessage | _legacy_v2/skills/kasa_skill.py:80-92 | "Tände" for turning on, "Släckte" for turning off, with the alias |
| KasaSkill.ErrorMessage | _legacy_v2/skills/kasa_skill.py:111-115 | the message has the cause's length plus 16 |
| KasaSkill.Execute | _legacy_v2/skills/kasa_skill.py:37-115 | missing library, discovery error, no devices, device error, or the command sent to the chosen device with its result |
| WebSkill.Filtered | _legacy_v2/skills/web_skill.py:96-98 | keeps exactly the words whose lower case is not a filler word, from the input |
| WebSkill.FilteredAppend | _legacy_v2/skills/web_skill.py:98 | filtering keeps word order and repeats: it distributes over concatenation |
| WebSkill.FilteredOne | _legacy_v2/skills/web_skill.py:98 | one word is kept exactly when it is not a filler word |
| WebSkill.ExtractSearchQuery | _legacy_v2/skills/web_skill.py:93-99 | the query splits into the filtered words of the request |
| WebSkill.QueryDropsFillerWords | _legacy_v2/skills/web_skill.py:96-99 | no filler word stays in the query and every other word does |
| WebSkill.FilteredIdempotent | _legacy_v2/skills/web_skill.py:98 | filtering twice is filtering once |
| WebSkill.ChooseUrl | _legacy_v2/skills/web_skill.py:51-61 | search with the query for google/sök, the input itself when it starts with http, a search for the whole input otherwise |
| WebSkill.UrlIsAddressOrSearch | _legacy_v2/skills/web_skill.py:53-61 | the page is the typed address or a Google search |
| WebSkill.ErrorMessage | _legacy_v2/skills/web_skill.py:87-91 | the message has the cause's length plus 15 |
| WebSkill.Execute | _legacy_v2/skills/web_skill.py:38-91 | a launch or page error, or success exactly otherwise, with title, url and screenshot |
| ChatInterface.Greeting | frontend/src/components/ChatInterface.jsx:10-12 | the greeting names the user, or "User" for a missing or empty name |
| ChatInterface.CountRole | frontend/src/components/ChatInterface.jsx:32-39 | at most the number of messages |
| ChatInterface.RolesPartition | frontend/src/components/ChatInterface.jsx:32-39 | every message is the user's or the assistant's |
| ChatInterface.QuietConversationIsAnswered | frontend/src/components/ChatInterface.jsx:29-41 | once every timer has fired, each user message has its reply |
| ChatInterface.CanSend | frontend/src/components/ChatInterface.jsx:30 | a send goes ahead exactly when the input has a non-space character |
| ChatInterface.Chat.constructor | frontend/src/components/ChatInterface.jsx:10-15 | the greeting alone, empty input, idle orb |
| ChatInterface.Chat.SetInput | frontend/src/components/ChatInterface.jsx:128 | only the input changes |
| ChatInterface.Chat.HandleSend | frontend/src/components/ChatInterface.jsx:29-46 | nothing for blank input; otherwise the untrimmed input is appended, cleared, and the orb thinks |
| ChatInterface.Chat.TimerFires | frontend/src/components/ChatInterface.jsx:38-41 | the fixed reply is appended and the orb goes idle |
| ChatInterface.Chat.HandleKeyDown | frontend/src/components/ChatInterface.jsx:48-53 | Enter without Shift is prevented and sends; any other key changes nothing |
| BreathingOrb.ModeOf | frontend/src/components/BreathingOrb.jsx:4 | a missing mode is idle |
| BreathingOrb.Layers | frontend/src/components/BreathingOrb.jsx:13-55 | six animations, the fixed ones in their places |
| BreathingOrb.Core | frontend/src/components/BreathingOrb.jsx:31-38 | the core beat swells from 1 and back, brightens and dims back, and is under a second exactly while thinking |
| BreathingOrb.Source | frontend/src/components/BreathingOrb.jsx:41-48 | the source swells from 1 and back, with no opacity keyframes, and is under a second exactly while thinking |
| BreathingOrb.ParametersByMode | frontend/src/components/BreathingOrb.jsx:34-48 | the core and source parameters for thinking and for every other mode |
| BreathingOrb.FixedLayers | frontend/src/components/BreathingOrb.jsx:13-55 | only the core and the source depend on the mode |
| BreathingOrb.RestingModesAgree | frontend/src/components/BreathingOrb.jsx:4-48 | every mode except thinking looks like idle |
| BreathingOrb.EveryLayerLoops | frontend/src/components/BreathingOrb.jsx:15-46 | every keyframe cycle ends where it starts |
| BreathingOrb.ThinkingIsLivelier | frontend/src/components/BreathingOrb.jsx:34-48 | thinking beats faster, swells more and glows brighter |
| BreathingOrb.RibbonsSwellWhileTurning | frontend/src/components/BreathingOrb.jsx:19-28 | the outer ribbon swells every 3 s and turns every 15 s, the inner one every 4 s and 10 s, the opposite way |
| TopAudioBar.Sample | src/components/TopAudioBar.jsx:11 | the sample, or 0 past the end |
| TopAudioBar.BarFor | src/components/TopAudioBar.jsx:12-20 | a bar is at least 4 pixels high |
| TopAudioBar.Bars | src/components/TopAudioBar.jsx:10-40 | twenty bars, the left side reading samples 9 down to 0, the right 0 up to 9 |
| TopAudioBar.BarsArePalindrome | src/components/TopAudioBar.jsx:10-40 | the meter is symmetric about its middle |
| TopAudioBar.BarBounds | src/components/TopAudioBar.jsx:12-20 | heights 4 to 30 and opacities 0.3 to 1 for byte samples |
| TopAudioBar.BarMonotone | src/components/TopAudioBar.jsx:12-20 | a louder sample never gives a shorter or fainter bar |
| TopAudioBar.SilenceIsFlat | src/components/TopAudioBar.jsx:11-20 | silence leaves every bar at the floor |
| CanvasAudioBar.TotalBars | _legacy_v2/src/components/TopAudioBar.jsx:17-19 | the most 6-pixel slots the width holds |
| CanvasAudioBar.BarsPerSide | _legacy_v2/src/components/TopAudioBar.jsx:26 | the number of iterations of `i < totalBars / 2`: half the bars, rounded up |
| CanvasAudioBar.Sample | _legacy_v2/src/components/TopAudioBar.jsx:27 | the data read cyclically, 0 for no data |
| CanvasAudioBar.BarHeight | _legacy_v2/src/components/TopAudioBar.jsx:28-29 | at least 2 pixels |
| CanvasAudioBar.RightFill | _legacy_v2/src/components/TopAudioBar.jsx:34 | a fill call |
| CanvasAudioBar.LeftFill | _legacy_v2/src/components/TopAudioBar.jsx:37 | a fill call |
| CanvasAudioBar.Alpha | _legacy_v2/src/components/TopAudioBar.jsx:31 | 0.2 for silence, 1 for a full sample, between them for every byte |
| CanvasAudioBar.Center | _legacy_v2/src/components/TopAudioBar.jsx:24 | the middle of the canvas: twice it is the width |
| CanvasAudioBar.PairShowsSample | _legacy_v2/src/components/TopAudioBar.jsx:26-37 | pair i is as high and as bright as sample i makes it, both bars 4 wide |
| CanvasAudioBar.LouderPairGrows | _legacy_v2/src/components/TopAudioBar.jsx:27-37 | a louder sample i never gives pair i a shorter or fainter bar |
| CanvasAudioBar.BarsStepOutwards | _legacy_v2/src/components/TopAudioBar.jsx:24-37 | the first right bar starts at the centre and the first left bar 6 left of it; each further pair steps 6 outwards on either side |
| CanvasAudioBar.Draw | _legacy_v2/src/components/TopAudioBar.jsx:12-40 | the loop clears and then draws every pair, right bar before left |
| CanvasAudioBar.FillsLayout | _legacy_v2/src/components/TopAudioBar.jsx:26-38 | pair i is drawn at calls 2i and 2i + 1 |
| CanvasAudioBar.PairIsLevel | _legacy_v2/src/components/TopAudioBar.jsx:28-37 | both bars of a pair are equally high and bright, centred vertically |
| CanvasAudioBar.PairIsMirrored | _legacy_v2/src/components/TopAudioBar.jsx:34-37 | the left bar mirrors the right one about `center - 1` |
| CanvasAudioBar.BarBounds | _legacy_v2/src/components/TopAudioBar.jsx:28-31 | heights between 2 and the canvas height, alpha between 0.2 and 1 |
| CanvasAudioBar.EvenCountFits | _legacy_v2/src/components/TopAudioBar.jsx:24-37 | with an even bar count every bar is on the canvas |
| CanvasAudioBar.OddCountOverhangs | _legacy_v2/src/components/TopAudioBar.jsx:24-37 | with an odd bar count the outermost left bar starts left of the canvas |
| CanvasVisualizer.Sum | _legacy_v2/src/components/Visualizer.jsx:36 | byte samples sum to between 0 and 255 per sample |
| CanvasVisualizer.Intensity | _legacy_v2/src/components/Visualizer.jsx:34-38 | 0 without data or with empty data, and between 0 and 1 for byte samples |
| CanvasVisualizer.Radius | _legacy_v2/src/components/Visualizer.jsx:42-43 | a quarter of the shorter side, grown by at most 40 for byte samples and not at all at zero intensity |
| CanvasVisualizer.Frame | _legacy_v2/src/components/Visualizer.jsx:19-79 | on whole-pixel sizes: clear, then the glow ring 10 inside the circle, then the breathing or the steady circle; an arc with a negative radius throws, ending the frame there without requesting the next |
| CanvasVisualizer.SmallCanvasStops | _legacy_v2/src/components/Visualizer.jsx:42-49 | on a canvas under 40 pixels a silent frame throws at the glow ring: only the clear, and the loop stops |
| CanvasVisualizer.LargeCanvasKeepsGoing | _legacy_v2/src/components/Visualizer.jsx:42-79 | from 40 pixels on, every frame with byte samples requests the next |
| CanvasVisualizer.IntensityPropUnused | _legacy_v2/src/components/Visualizer.jsx:6-12 | the intensity prop does not change a frame |
| CanvasVisualizer.ListeningHoldsStill | _legacy_v2/src/components/Visualizer.jsx:67-77 | while listening the clock does not change a frame |
| CanvasVisualizer.IdleBreathes | _legacy_v2/src/components/Visualizer.jsx:47-66 | idle, the circle moves at most 5 pixels about the radius and the glow ring is the one drawn while listening |
| CssVisualizer.BaseSize | src/components/Visualizer.jsx:4 | half the shorter side |
| CssVisualizer.Radius | src/components/Visualizer.jsx:5 | the base size grown by 40 times the intensity |
| CssVisualizer.InnerSize | src/components/Visualizer.jsx:22-27 | 20 less than the outer radius |
| CssVisualizer.OuterClasses | src/components/Visualizer.jsx:11-14 | the ring breathes exactly when not listening |
| CssVisualizer.LabelClasses | src/components/Visualizer.jsx:32-33 | the label keeps its text classes and pulses exactly while listening |
| CssVisualizer.FontSize | src/components/Visualizer.jsx:34 | the label's font size is a fifth of the base size |
| CssVisualizer.DefaultSizes | src/components/Visualizer.jsx:3-5 | the default rings are 200 and 180 |
| CssVisualizer.RingsFollowIntensity | src/components/Visualizer.jsx:5 | louder never shrinks the rings, and listening does not change them |

## Left out

- Reading and writing files, the database session, HTTP transport and `fetch`. Stores are
  values or class fields, and a failing library call is an outcome parameter.
- `datetime.now()`, generated ids and `Path.home()` are parameters.
- Python's and JavaScript's full Unicode case mapping. `lower`, `title`, `isalnum` and
  whitespace are modelled for characters below code point 256 only.
- Text.Title: upper-cases by the 32-code-point partner only, so `ß`, `µ` and `ÿ` keep their
  form where Python's `title` gives `Ss`, `Μ` and `Ÿ`; its length promise therefore does not
  hold for Python on a word starting with `ß`.
- ChatInterface.Chat.HandleSend: assumes the screen has re-rendered since the last timer
  fired. The source builds the new list from the messages of its render, so a send between a
  timer and that re-render drops the queued reply and leaves the orb thinking.
- CanvasVisualizer.Props: takes the sizes as whole pixels. How the canvas's integer `width`
  and `height` attributes convert a fractional or negative prop is not modelled.
- The SQL order of `list_projects` is unspecified. The model lists in id order.
- The memory file's JSON loading, its error recovery and `last_updated`. The store starts
  empty, as it does without a file.
- JSON escaping in the audit `extra_data`. A name with a quote is not escaped there.
- `process_answer` does nothing, so it has no member.
- The module-level loader singleton (`get_skill_loader`, `reload_skills`). The dispatcher is
  given its loader.
- How skill modules are found and imported. The loader takes the discovery outcomes in order.
- The status and progress callbacks of the skills, including PowerPoint's progress
  percentages. Only the dispatcher's running status is modelled.
- The pptx rendering (`_add_slide`), python-kasa, Playwright and the two-second wait.
- `KasaSkill.Execute`: the `is_on` reported is the state read before the command, as the code
  reads it.
- Dispatch.Outcome: an exception raised by a skill's `validate` or by the status callback is
  not modelled. In the source both run outside the `try` and escape `dispatch`.
- The `try`/`catch` around `setTimeout` in the chat screen. Scheduling a timer cannot throw.
- Animation frames, the canvas context, framer-motion, Tailwind classes other than the
  modelled ones, and the sine breathing offset. The offset is a parameter of
  `CanvasVisualizer.Frame`.
- Tools.NotFoundMessage: states the length of the message; the text is the body.
- Tools.FailedMessage: states the length of the message; the text is the body.
- Dispatch.NotFoundMessage: states the length of the message; the text is the body.
- Dispatch.FailedMessage: states the length of the message; the text is the body.
- Dispatch.RunningMessage: states the length of the message; the text is the body.
- SkillBase.MissingNameMessage: states the length of the message; the text is the body.
- PowerPointSkill.ErrorMessage: states the length of the message; the text is the body.
- LinkedInSkill.ErrorMessage: states the length of the message; the text is the body.
- ReportSkill.ErrorMessage: states the length of the message; the text is the body.
- KasaSkill.ErrorMessage: states the length of the message; the text is the body.
- WebSkill.ErrorMessage: states the length of the message; the text is the body.
- Memory.CategoryEmoji: states exactly which categories get the fallback emoji; the emoji of
  each of the four known categories is the body.
- Memory.MemoryManager.ExportMemory: the backup is a value. In Python it shares the store's
  entry list and preference dictionary, so later `add_memory`, `update_memory` and
  `set_preference` calls also change a backup already taken; the dictionaries returned by
  `get_memories` are likewise the stored ones.
- Memory.MemoryManager.ImportMemory: takes typed entries. Python stores whatever dictionaries
  the backup holds, unchecked, and later reads them with defaults.
- ChatInterface.CountRole: states only the bound; counting is used through RolesPartition and
  the chat invariant.

## Findings

| source | as written | input that shows it | evidently intended | confidence | as-written member | corrected member |
|---|---|---|---|---|---|---|
| _legacy_v2/skills/powerpoint_skill.py:47 | imports `RgbColor` from `pptx.dml.color`, which defines `RGBColor`; the failed import is caught as `ImportError` | any request, with python-pptx installed | import `RGBColor`, so an installed library is used | high, not executed | PowerPointSkill.ExecuteAsWritten | PowerPointSkill.Execute |
| backend/api/endpoints/user.py:27-29 | annotates the settings fields with `Optional`, which the module never imports, so the class body raises `NameError`; `backend/api/api.py:2` imports this module and `backend/main.py:20` imports that router, so the whole application fails to import, not only `/me` and `/me/settings` | importing the module | `from typing import Optional`, so `/me` and `/me/settings` are served | high, not executed | UserEndpoints.EndpointsNeverAnswerAsWritten | UserEndpoints.UserTable.UpdateUserSettings |
