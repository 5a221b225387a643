# Portfolio generator — a Dafny model

The portfolio generator is a multi-step web form backed by a small REST API. A
wizard collects personal information, an about-me text, education, projects,
achievements and social links. The server stores that data as JSON files. It
also turns the data into a static website: it asks a large language model for
enhanced copy, fills Handlebars templates and packs the result as a ZIP
archive. Two generation pages drive the server and read its progress as a
stream of `data: ` lines.

This project models the decision logic of that system:

- the wizard's step rules (a class whose methods update the step and the form);
- the list editors of the projects, education and achievements pages;
- the GitHub username extractor;
- the two generation pages:
  - their provider defaults;
  - the line framing of the event stream and the dispatch on event types (classes with loops);
  - the query string, the progress messages and the Generate button rule;
- the language-model service:
  - client set-up;
  - the JSON span in a reply and the fallback content;
  - the dispatch with its fallbacks;
  - the template choice and template data;
- the `/api/generate` and `/api/portfolio` routes, over an abstract directory
  of files. This covers:
  - file names and replies;
  - 404 guards;
  - listing and search order;
  - the providers catalogue;
  - style descriptions.

JavaScript semantics the code relies on are written out:

- truthiness and `||`;
- `v.key` throwing on `null`/`undefined`;
- `Array.prototype.join`;
- property lookup on object literals, including inherited `Object.prototype` members;
- JavaScript's `trim` and `split`;
- `String.prototype.replace` with a string pattern.

These are parameters of the model:

- `JSON.parse`;
- vendor SDK calls;
- Handlebars compilation;
- file reads and writes;
- the clock;
- `Date.now()` ids;
- schema validation.

The enhanced generation page also calls endpoints that
`server/routes/generate.ts` does not define: `/recommendations`,
`/estimate-cost`, `/history`, `/health` and `/history/<id>/regenerate`, and it
shows rate limits the server never reports. The service itself is a single
`switch` over providers, with no cache, retries or conversation contexts. Both
generation pages stream from `/api/generate/stream`, which the route file does
not define either, so against this server a streaming generation fails at its
`!response.ok` check. The model still follows the streaming code as written,
for a server that does answer it.

Modules: `Wrappers`, `Text`, `Js`, `Portfolio`, `Sorting`, `ListEdit`,
`EventStream`, `Fetch`, `ProviderChoice` (shared), and one module per source
file: `GitHub`, `App`, `ProjectsForm`, `EducationForm`, `AchievementsForm`,
`EnhancedGeneration`, `PortfolioGeneration`, `LlmService`, `GenerateRoute`,
`PortfolioRoute`; `Integration` connects the providers catalogue to the pages.

## Model

| member | source | states |
|---|---|---|
| GitHub.CutQuery | frontend/src/utils/github.ts:10 | the result is the prefix of the input before its first `?` or `#` |
| GitHub.StripTrailingSlashes | frontend/src/utils/github.ts:10 | the result is the input less all trailing `/`, and does not end in `/` |
| GitHub.Normalize | frontend/src/utils/github.ts:7-10 | the normalised input holds no `?`/`#` and does not end in `/` |
| GitHub.FindIndex | frontend/src/utils/github.ts:14 | `findIndex`: the first index holding the segment, or -1 exactly when it is absent |
| GitHub.ExtractGitHubUsername | frontend/src/utils/github.ts:4-25 | the empty input gives `''`; the result never holds `/`, `?` or `#`; when a segment follows the first `github.com` segment of the normalised input, the result is that segment; otherwise it is the normalised input when that is a bare handle, and `''` when not |
| GitHub.HandleIsItsOwnUsername | frontend/src/utils/github.ts:20-22 | a bare handle of 1–39 characters from `[A-Za-z0-9-]` is returned unchanged |
| GitHub.NormalizeProfileUrl | frontend/src/utils/github.ts:7-10 | surrounding whitespace, `http(s)://`, `www.`, any query or fragment and trailing slashes are removed from a profile URL, leaving `github.com/<handle>` |
| GitHub.ProfileUrlGivesHandle | frontend/src/utils/github.ts:4-17 | every spelling of a profile URL (whitespace, scheme, `www.`, slashes, query) yields its handle |
| GitHub.CutQueryOf | frontend/src/utils/github.ts:10 | cutting at `?`/`#` drops exactly a query or fragment |
| GitHub.StripTrailingSlashesOf | frontend/src/utils/github.ts:10 | only the trailing run of slashes is removed |
| App.IsStepValid | frontend/src/App.tsx:74-95 | only the eight step indices 0..7 can be valid, and the optional steps 2, 4, 6 and 7 are always valid |
| App.AllStepsValidIffComplete | frontend/src/App.tsx:74-95 | every step 0..7 is valid exactly when name, age, location and email are set, the about text is at least 50 UTF-16 code units long, a project exists and both GitHub and LinkedIn are given |
| App.AboutMeCountsCodeUnits | frontend/src/App.tsx:79 | `aboutMe.length` counts UTF-16 code units, so 25 emoji already pass the 50-character rule |
| App.NextStepMoves | frontend/src/App.tsx:97-103 | `nextStep` adds one exactly when the step is below 7 and valid, otherwise it stays |
| App.PrevStepMoves | frontend/src/App.tsx:105-109 | `prevStep` subtracts one exactly when the step is above 0 |
| App.RunStaysInBounds | frontend/src/App.tsx:50-59 | under any sequence of Next, Back and edits the step stays an index of the eight labels (also lines 99-109) |
| App.InvalidStepBlocks | frontend/src/App.tsx:97-103 | without edits, no sequence of Next and Back passes an invalid step, and the form is unchanged |
| App.CompleteFormWalks | frontend/src/App.tsx:97-103 | with a complete form, `n` presses of Next reach step `min(step + n, 7)` |
| App.Wizard.constructor | frontend/src/App.tsx:24-48 | the welcome page shows, at step 0, with the empty form |
| App.Wizard.StartPortfolioCreation | frontend/src/App.tsx:61 | only the welcome flag changes |
| App.Wizard.BackToWelcome | frontend/src/App.tsx:63-72 | the welcome page, step 0 and every form field empty again |
| App.Wizard.SetForm | frontend/src/App.tsx:154-164 | the form pages replace the form; step and welcome flag are kept |
| App.Wizard.NextStep | frontend/src/App.tsx:97-103 | the new step is `NextStepOf` of the old step and form; nothing else changes |
| App.Wizard.PrevStep | frontend/src/App.tsx:105-109 | the new step is `PrevStepOf` of the old step; nothing else changes |
| ListEdit.CountId | frontend/src/components/EducationForm.tsx:24-26 | how many records carry an id; zero exactly when none does |
| ListEdit.RemoveById | frontend/src/components/EducationForm.tsx:24-26 | the result is exactly the records with another id, and its length drops by the number removed |
| ListEdit.RemoveByIdAppend | frontend/src/components/ProjectsForm.tsx:40-42 | removal distributes over concatenation, so survivors keep their order |
| ListEdit.RemoveAbsent | frontend/src/components/AchievementsForm.tsx:22-24 | removing an absent id leaves the list unchanged |
| ListEdit.AddThenRemove | frontend/src/components/AchievementsForm.tsx:11-24 | appending a record with a fresh id and removing that id restores the list |
| ListEdit.UpdateById | frontend/src/components/AchievementsForm.tsx:26-30 | same length; records with the id are transformed, the others kept in place |
| ListEdit.UpdateAbsent | frontend/src/components/AchievementsForm.tsx:26-30 | updating an absent id leaves the list unchanged |
| ListEdit.RemoveAfterUpdate | frontend/src/components/ProjectsForm.tsx:40-48 | an update that keeps ids does not change what a later removal of that id leaves |
| ProjectsForm.NewProject | frontend/src/components/ProjectsForm.tsx:28-36 | a new project carries its id and is otherwise blank |
| ProjectsForm.InitialProjects | frontend/src/components/ProjectsForm.tsx:12-24 | an empty list becomes exactly three blank projects with the given ids; a non-empty list is untouched |
| ProjectsForm.AddProject | frontend/src/components/ProjectsForm.tsx:27-38 | one blank project appended, the old ones kept in order |
| ProjectsForm.RemoveProject | frontend/src/components/ProjectsForm.tsx:40-42 | the survivors are exactly the projects of the list with another id; none is added and the list never grows |
| ProjectsForm.RemoveProjectProperties | frontend/src/components/ProjectsForm.tsx:40-42 | removal is piecewise over concatenation, leaves the list alone for an absent id, and undoes an add |
| ProjectsForm.UpdateProject | frontend/src/components/ProjectsForm.tsx:44-48 | same length; projects with the id get the field edit, the others are kept |
| ProjectsForm.UpdateProjectProperties | frontend/src/components/ProjectsForm.tsx:44-48 | an edit other than the id does not change a later removal; an absent id changes nothing |
| ProjectsForm.TrimNonEmpty | frontend/src/components/ProjectsForm.tsx:51 | the trimmed, non-empty pieces are tags: non-empty, comma-free, with no surrounding whitespace |
| ProjectsForm.ParseTechnologies | frontend/src/components/ProjectsForm.tsx:50-53 | `updateTechnologies` always yields well-formed tags |
| ProjectsForm.TechnologiesText | frontend/src/components/ProjectsForm.tsx:130 | `join(', ')`: no tags show as empty text, one tag as itself, and more start with the first tag and `, ` |
| ProjectsForm.ParseShownTechnologies | frontend/src/components/ProjectsForm.tsx:51 | showing well-formed tags joined by `", "` and parsing the text gives the same tags back (also line 130) |
| ProjectsForm.ParseTechnologiesIdempotent | frontend/src/components/ProjectsForm.tsx:51 | re-showing and re-parsing parsed tags changes nothing (also line 130) |
| ProjectsForm.ShowRemoveControl | frontend/src/components/ProjectsForm.tsx:99-106 | the remove control appears only with more than one project, so removing a unique id through it leaves at least one project |
| EducationForm.AddEducation | frontend/src/components/EducationForm.tsx:11-22 | one entry appended with the given id and every other field empty; the old entries kept |
| EducationForm.RemoveEducation | frontend/src/components/EducationForm.tsx:24-26 | the entries with the id go; every other entry stays; the list never grows |
| EducationForm.UpdateEducation | frontend/src/components/EducationForm.tsx:28-32 | same length; only the named field of matching entries changes |
| EducationForm.EducationEditProperties | frontend/src/components/EducationForm.tsx:11-32 | an absent id leaves remove and update without effect; remove undoes add; an edit other than the id does not affect a later removal |
| EducationForm.SameMillisecondRemovesBoth | frontend/src/components/EducationForm.tsx:13 | two entries added in the same millisecond share an id and one removal drops both (also lines 24-26) |
| AchievementsForm.AddAchievement | frontend/src/components/AchievementsForm.tsx:11-20 | one entry appended with the given id and empty title, description, date and organization |
| AchievementsForm.RemoveAchievement | frontend/src/components/AchievementsForm.tsx:22-24 | the entries with the id go; every other entry stays; the list never grows |
| AchievementsForm.UpdateAchievement | frontend/src/components/AchievementsForm.tsx:26-30 | same length; only the named field of matching entries changes |
| AchievementsForm.AchievementEditProperties | frontend/src/components/AchievementsForm.tsx:11-30 | an absent id leaves remove and update without effect; remove undoes add; an edit other than the id does not affect a later removal |
| EventStream.CompleteLines | frontend/src/components/EnhancedPortfolioGeneration.tsx:254-255 | the lines a `\n` has ended hold no `\n` |
| EventStream.Tail | frontend/src/components/EnhancedPortfolioGeneration.tsx:255 | the retained buffer holds no `\n` |
| EventStream.FramingKeepsEverything | frontend/src/components/EnhancedPortfolioGeneration.tsx:247-256 | the ended lines, each with its `\n`, followed by the buffer, are the text received: nothing lost or reordered |
| EventStream.SplitIsLinesAndTail | frontend/src/components/EnhancedPortfolioGeneration.tsx:254-255 | `split('\n')` is the ended lines followed by the buffer that `pop` takes |
| EventStream.FeedChunk | frontend/src/components/EnhancedPortfolioGeneration.tsx:253-256 | feeding a chunk to the buffer ends the same lines as reading the whole text at once |
| EventStream.UnterminatedTextIgnored | frontend/src/components/EnhancedPortfolioGeneration.tsx:249-251 | text after the last `\n` when the stream ends is never handled |
| EventStream.PayloadIffPrefixed | frontend/src/components/EnhancedPortfolioGeneration.tsx:258-260 | a line carries payload `p` exactly when it is `data: ` followed by `p` |
| EventStream.FoldAppend | frontend/src/components/EnhancedPortfolioGeneration.tsx:257-272 | handling two batches of lines in turn is handling them together |
| Text.SplitJoinsBack | frontend/src/components/ProjectsForm.tsx:51 | joining `split(sep)` with the separator restores the text |
| Text.SplitJoin | frontend/src/components/ProjectsForm.tsx:51 | splitting separator-free pieces joined by the separator gives the pieces back (also line 130) |
| Text.TrimPadded | frontend/src/components/ProjectsForm.tsx:51 | `trim` removes exactly the whitespace around a trimmed string |
| Text.ToLower | server/routes/portfolio.ts:184 | `toLowerCase` maps each character and keeps the length (also line 199) |
| Text.ReplaceEach | server/routes/portfolio.ts:23 | every `:` and `.` of the timestamp becomes `-`, position by position |
| Text.CountPositiveIffContains | server/routes/portfolio.ts:201-207 | the match count is at least one exactly when the text contains the query |
| Text.UnderscoreSpacesKeepsVisible | server/routes/portfolio.ts:24 | replacing whitespace runs by `_` keeps every other character in order |
| Text.UnderscoreSpacesIdempotent | server/routes/portfolio.ts:24 | the replacement applied twice is the replacement applied once |
| Text.Utf16Length | frontend/src/App.tsx:79 | `length` counts UTF-16 code units: between one and two per character |
| Text.Utf16LengthOfBmp | frontend/src/App.tsx:79 | within the Basic Multilingual Plane the length is the number of characters |
| Text.Utf16LengthOfAstral | frontend/src/App.tsx:79 | outside it the length is twice the number of characters |
| Text.Utf16Prefix | server/services/llm.ts:277 | `substring(0, n)` on whole characters: the longest prefix within `n` code units, the whole text when it fits, at most one unit short of `n` otherwise |
| Js.Prop | server/routes/portfolio.ts:158-163 | `v.key` throws exactly when `v` is `null` or `undefined` |
| Js.Index | frontend/src/components/PortfolioGeneration.tsx:558-566 | `table[key]` reads an own property, an inherited `Object.prototype` member, or nothing |
| EventStream.EventOf | frontend/src/components/EnhancedPortfolioGeneration.tsx:258-260 | an event exists exactly when the line carries a `data: ` payload that parses, and it is that parse |
| EventStream.EventData | frontend/src/components/EnhancedPortfolioGeneration.tsx:261-264 | an event of a kind yields data exactly when its `type` is that kind, and the data is the event's `data` (also PortfolioGeneration.tsx:183-186) |
| EventStream.EventKindsExclusive | frontend/src/components/EnhancedPortfolioGeneration.tsx:261-267 | one line is an event of at most one kind |
| EnhancedGeneration.HandleLine | frontend/src/components/EnhancedPortfolioGeneration.tsx:258-270 | a `progress` event's data replaces the progress, a `complete` event's data replaces the result, and any other line leaves the view as it was |
| EnhancedGeneration.ErrorEventIgnored | frontend/src/components/EnhancedPortfolioGeneration.tsx:265-270 | an `error` event is caught and logged and changes no state |
| EnhancedGeneration.LastProgressWins | frontend/src/components/EnhancedPortfolioGeneration.tsx:257-272 | after a batch of lines the progress shown is the data of the last `progress` event among them, or the old progress when there is none |
| EnhancedGeneration.StreamThrown | frontend/src/components/EnhancedPortfolioGeneration.tsx:235-244 | `generateWithStreaming` throws exactly when the request is rejected, the status is not ok or there is no reader |
| EnhancedGeneration.JsonThrown | frontend/src/components/EnhancedPortfolioGeneration.tsx:277-285 | `generateWithoutStreaming` throws exactly unless the reply is ok and its body parses |
| EnhancedGeneration.Page.constructor | frontend/src/components/EnhancedPortfolioGeneration.tsx:85-102 | no providers, nothing selected, not generating, no progress, result or error |
| EnhancedGeneration.Page.FetchProviders | frontend/src/components/EnhancedPortfolioGeneration.tsx:125-140 | the selection becomes `ProviderChoice.FetchProviders` of the old one; nothing else changes |
| EnhancedGeneration.Page.HandleStreamLine | frontend/src/components/EnhancedPortfolioGeneration.tsx:257-271 | the view becomes `HandleLine` of the old view; selection, flag and error unchanged |
| EnhancedGeneration.Page.HandleChunk | frontend/src/components/EnhancedPortfolioGeneration.tsx:253-272 | the buffer returned is the text after the last `\n`, and the view is the fold of the ended lines |
| EnhancedGeneration.Page.GenerateWithStreaming | frontend/src/components/EnhancedPortfolioGeneration.tsx:234-274 | the thrown message is `StreamThrown` of the reply: the rejection, `Failed to start generation` or `No response reader available`; a stream leaves the view at the fold over every line it ended |
| EnhancedGeneration.Page.GenerateWithoutStreaming | frontend/src/components/EnhancedPortfolioGeneration.tsx:276-287 | the thrown message is `JsonThrown` of the reply; without one the parsed body becomes the result, and with one the result is kept |
| EnhancedGeneration.Page.GeneratePortfolio | frontend/src/components/EnhancedPortfolioGeneration.tsx:202-232 | progress, result and error are cleared first; the error is then exactly the message the chosen path throws; `isGenerating` is false on exit |
| ProviderChoice.FindAvailable | frontend/src/components/EnhancedPortfolioGeneration.tsx:132 | `find(p => p.available)` returns the first record whose `available` is truthy, or none when no record has one |
| ProviderChoice.FirstAvailableUnique | frontend/src/components/EnhancedPortfolioGeneration.tsx:132 | the first available record is unique |
| ProviderChoice.FetchProviders | frontend/src/components/EnhancedPortfolioGeneration.tsx:125-140 | a failed fetch changes nothing; a reply stores its `providers` (an absent list is stored as `[]`); with a providers array, provider and model become the `name` and `defaultModel` of its first available record, and stay as they were when none is available |
| ProviderChoice.DefaultIsFirstAvailable | frontend/src/components/PortfolioGeneration.tsx:87-103 | with a first available record, it becomes the selection with its `defaultModel` |
| ProviderChoice.NoneAvailableKeepsSelection | frontend/src/components/PortfolioGeneration.tsx:92-99 | with no available record only the list changes |
| PortfolioGeneration.QueryParams | frontend/src/components/PortfolioGeneration.tsx:140-147 | the parameters start with provider and style and end with temperature and maxTokens (also lines 200-206) |
| PortfolioGeneration.QueryParamsOptional | frontend/src/components/PortfolioGeneration.tsx:143 | `model` is sent exactly when a model is selected, with its value; `streaming` only for the streaming request (also line 203) |
| PortfolioGeneration.LookupAppend | frontend/src/components/PortfolioGeneration.tsx:140-147 | a parameter's value is its first occurrence in the query |
| PortfolioGeneration.HandleLine | frontend/src/components/PortfolioGeneration.tsx:178-194 | a `progress` event's data replaces the progress; a `complete` event's data replaces the response, and its `contextId`, when it can be read, the context id; any other line leaves the view as it was |
| PortfolioGeneration.CompleteSetsBoth | frontend/src/components/PortfolioGeneration.tsx:185-187 | a `complete` event sets the response and the context id from the same payload |
| PortfolioGeneration.GetProgressMessage | frontend/src/components/PortfolioGeneration.tsx:557-567 | the five known stages get their fixed messages and any other stage `Processing...` |
| PortfolioGeneration.GetProgressMessageAsWritten | frontend/src/components/PortfolioGeneration.tsx:557-567 | as written the lookup never comes back empty: it gives non-empty text, or an inherited member, and the latter only for names `Object.prototype` carries |
| PortfolioGeneration.ProgressMessageAgrees | frontend/src/components/PortfolioGeneration.tsx:557-567 | where the as-written lookup yields text it equals the corrected message; it reads an inherited member exactly for `Object.prototype` names |
| PortfolioGeneration.ProgressMessageOfInheritedName | frontend/src/components/PortfolioGeneration.tsx:557-567 | the stage `toString` reads an inherited function as written, and gets `Processing...` corrected |
| PortfolioGeneration.ReplaceFirstUnderscore | frontend/src/components/PortfolioGeneration.tsx:432 | only the first `_` becomes a space |
| PortfolioGeneration.StageLabel | frontend/src/components/PortfolioGeneration.tsx:432 | a non-empty string stage is shown with its first `_` as a space; an absent or empty stage shows `Processing...`; a non-string stage throws |
| PortfolioGeneration.FindByName | frontend/src/components/PortfolioGeneration.tsx:411 | `find(p => p.name === selectedProvider)`: a record with that name, or none when no record has it |
| PortfolioGeneration.GenerateDisabled | frontend/src/components/PortfolioGeneration.tsx:411 | disabled while generating or with no provider; a selected provider the list does not hold (the initial `openai` with `[]`) leaves it enabled; the render fails exactly when the list is not an array or the search throws; otherwise disabled only when no model is selected |
| PortfolioGeneration.DisabledNeedsModelOnlyWithModels | frontend/src/components/PortfolioGeneration.tsx:411 | for a found provider, disabled exactly when its record lists models and no model is selected |
| PortfolioGeneration.StreamThrown | frontend/src/components/PortfolioGeneration.tsx:149-164 | `generateWithStreaming` throws exactly when the request is rejected, the status is not ok or there is no reader |
| PortfolioGeneration.JsonThrown | frontend/src/components/PortfolioGeneration.tsx:208-223 | `generateWithoutStreaming` throws exactly unless the reply is ok, its body parses and its `contextId` can be read; a failing reply with a falsy `message` throws `Failed to generate portfolio` |
| PortfolioGeneration.Page.constructor | frontend/src/components/PortfolioGeneration.tsx:45-57 | `openai`, no model, style `minimal`, temperature 0.7, 4096 tokens, nothing generated |
| PortfolioGeneration.Page.FetchProviders | frontend/src/components/PortfolioGeneration.tsx:87-106 | the selection becomes `ProviderChoice.FetchProviders` of the old one; nothing else changes |
| PortfolioGeneration.Page.HandleStreamLine | frontend/src/components/PortfolioGeneration.tsx:178-194 | the view becomes `HandleLine` of the old view; everything else unchanged |
| PortfolioGeneration.Page.HandleChunk | frontend/src/components/PortfolioGeneration.tsx:174-195 | the buffer returned is the text after the last `\n`, and the view is the fold of the ended lines |
| PortfolioGeneration.Page.GenerateWithStreaming | frontend/src/components/PortfolioGeneration.tsx:139-197 | sends the streaming parameters; the thrown message is `StreamThrown` of the reply; a stream leaves the view at the fold over every line it ended |
| PortfolioGeneration.Page.GenerateWithoutStreaming | frontend/src/components/PortfolioGeneration.tsx:199-224 | sends the plain parameters; the thrown message is `JsonThrown` of the reply, and the view becomes `JsonView` of the old one: an ok parsed reply sets the response and, when readable, the context id |
| PortfolioGeneration.Page.GeneratePortfolio | frontend/src/components/PortfolioGeneration.tsx:115-137 | the error is `Failed to generate portfolio: ` followed by the message the chosen path throws, and none when nothing is thrown; a stream that starts never fails; the view is that path's view from cleared progress and response; `isGenerating` is false on exit |
| LlmService.EnvVar | server/services/llm.ts:45-83 | exactly the five providers with a client have a configuring variable |
| LlmService.InitializedClients | server/services/llm.ts:45-83 | a provider gets a client exactly when its variable is set and non-empty |
| LlmService.JsonSpan | server/services/llm.ts:267-268 | the span runs from the first `{` to the last `}`, and exists exactly when some `}` follows some `{` |
| LlmService.SpanOfWrapped | server/services/llm.ts:267-268 | an object in prose with no `{` before it and no `}` after it is extracted exactly |
| LlmService.ParseFallback | server/services/llm.ts:275-282 | exactly the five keys; constant tagline, meta description and colour scheme, no enhanced projects; `enhancedAbout` is the longest prefix of the reply within 500 UTF-16 code units: the whole reply when it fits, otherwise one whose next character would pass the limit |
| LlmService.ParseEnhancedContent | server/services/llm.ts:264-283 | the content is the parse of the `{ … }` span when there is one and it parses, and otherwise the fallback object; it never fails |
| LlmService.ParseEnhancedContentCases | server/services/llm.ts:264-283 | a wrapped object that parses is returned as is; otherwise the fallback object |
| LlmService.NoObjectGivesFallback | server/services/llm.ts:264-283 | a reply without a `{ … }` span gives the fallback object |
| LlmService.GetFallbackContent | server/services/llm.ts:285-293 | the five keys; `aboutMe` and the projects kept; tagline `<name> - Professional Portfolio` |
| LlmService.GenerateEnhancedContent | server/services/llm.ts:138-176 | a provider the service has no adapter for, or no client for, gets the fallback content |
| LlmService.DispatchOrFallback | server/services/llm.ts:138-176 | the content is the parsed reply of the provider's adapter when it is reached and answers, and the fallback content otherwise; it never fails |
| LlmService.FallbackCases | server/services/llm.ts:160-175 | OpenRouter without a model, an unknown provider and a provider without a client all give the fallback content |
| LlmService.TemplateDir | server/services/llm.ts:92-97 | the style's own directory when it exists, and `minimal` when it does not |
| LlmService.TemplateData | server/services/llm.ts:107-112 | the merged data always holds the year as `currentYear` and the requested style as `style` |
| LlmService.TemplateDataPrecedence | server/services/llm.ts:107-112 | AI keys override portfolio keys, and `currentYear` and `style` always hold the year and the requested style |
| LlmService.GeneratePortfolio | server/services/llm.ts:85-136 | a generated site carries metadata with the time, provider, style and owner name |
| LlmService.GeneratedIsArchived | server/services/llm.ts:85-136 | a produced site implies the three templates read and compiled with the merged data and the archive of the three compiled files was written; the files returned are the ones archived |
| LlmService.ArchivedIsGenerated | server/services/llm.ts:85-136 | conversely, when the three templates read and compile and the archive is written, that site is produced, with the metadata of the request |
| GenerateRoute.QueryOr | server/routes/generate.ts:23-24 | a given non-empty parameter is used, otherwise the fallback |
| GenerateRoute.Filename | server/routes/generate.ts:37-38 | the name is the owner's name with whitespace runs as `_`, then `_`, then as many characters as the timestamp has, none of them `:` or `.` |
| GenerateRoute.FilenameShape | server/routes/generate.ts:37-38 | the name is the owner's name with whitespace runs as `_`, then `_`, then the timestamp of the same length with no `:` or `.` |
| GenerateRoute.SuccessBody | server/routes/generate.ts:54-64 | `downloadUrl` is the download prefix followed by the archive name; the portfolio carries the generated HTML |
| GenerateRoute.Generate | server/routes/generate.ts:18-73 | an invalid body gets 400 and nothing is written; for a valid body the service is called with the defaulted provider and style, no model and the archive `<filename>.zip` as output path; its site is answered with 200 and the download URL of that archive, and its failure with 500 and its message |
| GenerateRoute.GenerateDefaults | server/routes/generate.ts:23-24 | an absent or empty provider or style is `openai` and `minimal` |
| GenerateRoute.OpenRouterRequestFallsBack | server/routes/generate.ts:44-51 | the route passes no model, so an `openrouter` request always gets the fallback content |
| GenerateRoute.Download | server/routes/generate.ts:76-91 | the file is sent exactly when it exists, under its own name |
| GenerateRoute.GeneratedIsDownloadable | server/routes/generate.ts:37-39 | the download URL of a successful generation names the archive it wrote, and the download route sends that archive (also lines 63, 76-91) |
| GenerateRoute.ListArchives | server/routes/generate.ts:94-112 | the `.zip` entries, newest first, as a permutation of the directory's `.zip` files |
| GenerateRoute.ListedIffZip | server/routes/generate.ts:96-104 | an entry is listed exactly when it describes a `.zip` file; its URL is the download prefix and its name |
| GenerateRoute.ListingStable | server/routes/generate.ts:104 | archives with the same modification time stay in directory order |
| GenerateRoute.Capitalize | server/routes/generate.ts:122 | only the first character is upper-cased |
| GenerateRoute.GetStyleDescription | server/routes/generate.ts:241-252 | fixed text for the six known styles, `Custom portfolio style` otherwise |
| GenerateRoute.StyleDescriptionAgrees | server/routes/generate.ts:241-252 | where the as-written lookup yields text it equals the corrected one; it reads an inherited member exactly for `Object.prototype` names |
| GenerateRoute.StyleDescriptionOfInheritedName | server/routes/generate.ts:241-252 | the style `constructor` reads an inherited function as written, and gets `Custom portfolio style` corrected |
| GenerateRoute.GetStyleDescriptionAsWritten | server/routes/generate.ts:241-252 | as written the lookup gives non-empty text, or an inherited member, and the latter only for names `Object.prototype` carries |
| GenerateRoute.Styles | server/routes/generate.ts:115-132 | at most one entry per directory entry; each entry is a directory shown with its capitalized name |
| GenerateRoute.StylesListDirectories | server/routes/generate.ts:115-132 | every directory is listed, in order, with its capitalized name and description; nothing else is |
| GenerateRoute.ProviderRecord | server/routes/generate.ts:136-173 | a record names its provider and is available exactly when its variable is set |
| GenerateRoute.ProvidersTable | server/routes/generate.ts:135-176 | the six records, in catalogue order |
| GenerateRoute.CatalogueNamesDistinct | server/routes/generate.ts:136-173 | no two providers share a name |
| GenerateRoute.CatalogueMatchesClients | server/routes/generate.ts:136-173 | each provider with a client is reported from the variable the service reads; only `deepseek` has no client |
| GenerateRoute.ProviderAvailability | server/routes/generate.ts:136-173 | record `i` names catalogue entry `i` and is available exactly when its variable is set |
| GenerateRoute.DeepSeekFallsBack | server/routes/generate.ts:161-166 | `deepseek` is offered, and available when its key is set, yet a request for it gets the fallback content |
| GenerateRoute.PreviewAsWritten | server/routes/generate.ts:179-239 | as written, every preview request is answered with 500 and `Failed to generate preview`, because the route uses a `Handlebars` it never imports |
| GenerateRoute.PreviewDir | server/routes/generate.ts:181-187 | the style defaults to `minimal`; its directory falls back to `minimal`; a non-string style fails |
| GenerateRoute.PreviewPage | server/routes/generate.ts:229-233 | 200 with the compiled HTML and the style |
| GenerateRoute.PreviewServes | server/routes/generate.ts:179-239 | with `Handlebars` in scope, a page is served exactly when the style is a string or absent and both templates read |
| GenerateRoute.Preview | server/routes/generate.ts:179-239 | with `Handlebars` in scope the reply is 200 or 500, and a 200 page names the requested style, or `minimal` when none is given |
| PortfolioRoute.SavedFields | server/routes/portfolio.ts:20-28 | a saved file reads back its owner, about text, projects and date |
| PortfolioRoute.Save | server/routes/portfolio.ts:16-42 | an invalid body gets 400 and nothing is written; a valid one gets 201 and is written under `<name>_<stamp>.json` |
| PortfolioRoute.Summarize | server/routes/portfolio.ts:48-66 | an unreadable file, or one holding `null`, is listed as `Error reading file` with count 0; otherwise a falsy name or `generatedAt` shows `Unknown`, missing projects count 0, a projects array counts its items, and a file that is not an object shows `Unknown`, `Unknown`, 0 |
| PortfolioRoute.List | server/routes/portfolio.ts:45-66 | at most one line per directory entry, each about a `.json` file |
| PortfolioRoute.ListedIffJson | server/routes/portfolio.ts:47-66 | every line is about a `.json` file, and every `.json` file has its line |
| PortfolioRoute.SavedSummary | server/routes/portfolio.ts:52-57 | a saved portfolio is listed with its own name, date and project count |
| PortfolioRoute.Get | server/routes/portfolio.ts:76-92 | 404 for a missing file, 200 with its content, 500 for an unreadable one |
| PortfolioRoute.SaveThenGet | server/routes/portfolio.ts:16-42 | a saved portfolio is fetched back as written (also lines 76-92) |
| PortfolioRoute.Update | server/routes/portfolio.ts:95-120 | 404 and no change for a missing file whatever the body; 400 and no change for an invalid body; otherwise the file is replaced |
| PortfolioRoute.Delete | server/routes/portfolio.ts:123-144 | 404 and no change for a missing file; otherwise exactly that file goes |
| PortfolioRoute.DeleteThenGet | server/routes/portfolio.ts:123-144 | after a delete the name is not found and every other file reads the same |
| PortfolioRoute.Duplicate | server/routes/portfolio.ts:147-179 | 404 and no change for a missing file; a file is written only with 201, and only for a parsed object whose owner name is a string; the copy is the original with `generatedAt` replaced, under the copy name |
| PortfolioRoute.DuplicateOfSaved | server/routes/portfolio.ts:157-166 | the copy of a saved portfolio is written under `<name>_copy_<stamp>.json`; the original is untouched |
| PortfolioRoute.CopyNameMarked | server/routes/portfolio.ts:163 | every copy's name holds `_copy_` and ends in `.json` |
| PortfolioRoute.HitOf | server/routes/portfolio.ts:188-213 | a file is a hit exactly when it parses and its search text contains the query; relevance is the occurrence count, at least 1 |
| PortfolioRoute.Search | server/routes/portfolio.ts:182-223 | the hits, by relevance highest first, as a permutation of the directory-order hits |
| PortfolioRoute.SearchFinds | server/routes/portfolio.ts:184-216 | a hit is returned exactly when it is a `.json` file that parses and whose lower-cased text contains the lower-cased query |
| PortfolioRoute.SearchStable | server/routes/portfolio.ts:216 | hits of equal relevance keep directory order |
| PortfolioRoute.SavedSearchText | server/routes/portfolio.ts:194-199 | a saved portfolio is searched in its name, about text, project names and technologies, joined by spaces and lower-cased |
| PortfolioRoute.SearchText | server/routes/portfolio.ts:190-199 | building the text throws for a file holding `null` and for `projects` that are present but not an array |
| PortfolioRoute.Hits | server/routes/portfolio.ts:184-213 | at most one hit per directory entry, each with relevance at least 1 |
| Sorting.Insert | server/routes/portfolio.ts:216 | inserting keeps the order by descending key and adds exactly the new record |
| Sorting.SortDesc | server/routes/generate.ts:104 | the comparator sort yields a descending permutation |
| Sorting.SortDescStable | server/routes/portfolio.ts:216 | the sort is stable: records with one key keep their order |
| Integration.CatalogueSelectsFirstConfigured | frontend/src/components/PortfolioGeneration.tsx:87-103 | the pages select the first provider whose variable is set on the server; the model becomes `undefined` |
| Integration.NothingConfiguredKeepsSelection | frontend/src/components/EnhancedPortfolioGeneration.tsx:125-140 | with no variable set, only the providers list changes |
| Integration.LoadedSelectionIsCatalogued | frontend/src/components/PortfolioGeneration.tsx:46-47 | after loading, the selection is a catalogue provider with no model (also lines 87-103) |
| Integration.CatalogueEntryEnabled | frontend/src/components/PortfolioGeneration.tsx:411 | the catalogue records list no models, so a catalogue provider never disables Generate |
| Integration.LoadedPageSendsNoModel | frontend/src/components/PortfolioGeneration.tsx:143 | after loading, Generate is enabled and the request names no model (also lines 203, 411) |

## Left out

- I/O and plumbing are not modelled:
  - Express routing, `fs` calls, `res.download` and `fetch` are left out; directories are abstract sets or maps of file names.
  - Disk errors are left out, apart from a file that cannot be read or parsed.
  - Path traversal through `..` in a file name parameter is not modelled.
  - The URL encoding of download names is not modelled, and neither are owner names holding `/`.
  - A rejected `reader.read()` is not modelled.
  - Repeated query parameters are not modelled.
- Values and their encoding:
  - Numbers are integers. The page's temperature is kept as its text, and float formatting is not modelled.
  - `JSON.stringify` followed by `JSON.parse` is taken to be the identity on saved data.
  - Optional schema fields are modelled as empty strings.
  - The `path` field of the save reply is left out, and so are the `details` of 500 replies.
  - Node's exact `TypeError` text is left out beyond the message of a `null` read.
- Text and search:
  - Case mapping covers the ASCII letters only.
  - `PortfolioRoute.Search`: requires a non-empty query without regular-expression metacharacters. `new RegExp(query, 'g')` on user text, and the empty query's empty-match count, are not modelled.
- Omitted features:
  - `createPrompt` is left out. The vendor call is a parameter that takes only the provider and the model, so in the model a vendor's reply cannot depend on the portfolio data or the style; no property relies on such a dependence.
  - The vendor SDK calls are parameters that answer or fail.
  - Handlebars compilation is a parameter, and so is the ZIP writer.
  - The enhanced page's recommendations, cost estimate, history, health and regeneration requests are left out, since they call endpoints the server does not have.
  - The enhanced page's query string is not modelled; the server ignores its `model` parameter.
  - The PortfolioGeneration page's download and preview windows are left out (browser I/O).
- Comparisons: object strict equality (`===`) on records is compared structurally. The code compares strings only, so this does not matter.
- ParseFallback: when the 500th UTF-16 code unit is the first half of a surrogate pair, `substring` keeps that lone half; Dafny strings hold only whole characters, so the model stops one unit short there.
- StylesListDirectories: states the corrected description of each directory. As written, `/styles` (server/routes/generate.ts:122) uses the lookup that also reads `Object.prototype` members, so a directory named `constructor` gets no `description` in the reply and one named `__proto__` gets `{}`; `StyleDescriptionAgrees` says where the two lookups agree.
- GenerateRoute.Styles: builds each entry with the corrected `GetStyleDescription`, not the as-written lookup, for the reason given in the line above and in the Findings row for server/routes/generate.ts:241-252.
- PortfolioRoute.Summarize: the count of a `projects` value that is neither missing nor an array (a string's length, say) follows `Js.Prop` but is not stated in the contract.
- `LlmService.GenerateEnhancedContent`: the adapters' `model` strings and `max_tokens` are inside the vendor parameter.

## Findings

| source | as written | input that shows it | evidently intended | confidence | as-written member | corrected member |
|---|---|---|---|---|---|---|
| server/routes/generate.ts:226-227 | `/preview` calls `Handlebars.compile` but the imports (lines 1-5) never bring in `Handlebars`, so every request throws and is answered with 500 | any preview request, e.g. `{ "style": "minimal" }` | compile the templates with the imported library and answer 200 with the page | high, not executed | GenerateRoute.PreviewAsWritten | GenerateRoute.PreviewServes |
| frontend/src/components/PortfolioGeneration.tsx:557-567 | `messages[stage]` on an object literal also reads `Object.prototype` members, so a stage such as `toString` yields a function instead of `Processing...` | stage `"toString"` | own keys only: any unknown stage shows `Processing...` | low, not executed | PortfolioGeneration.ProgressMessageOfInheritedName | PortfolioGeneration.ProgressMessageAgrees |
| server/routes/generate.ts:241-252 | `descriptions[style]` also reads `Object.prototype` members, so a template directory named `constructor` gets a function as its description | style `"constructor"` | own keys only: unknown styles get `Custom portfolio style` | low, not executed | GenerateRoute.StyleDescriptionOfInheritedName | GenerateRoute.StyleDescriptionAgrees |
