# Incident Suggestions Assistant — a Dafny model of the suggestion pipeline

The Incident Suggestions Assistant replays a meeting transcript of an
incident, one message at a time. For every stored message it asks a
generative-language model for suggestions: action items, trigger events,
root causes and missing metadata. It keeps only the suggestions that are
novel and valuable, stores them against the message they refer to, and
broadcasts each one. A React page shows the transcript and the suggestion
cards, and lets the responder edit and delete cards.

This project models the core of that pipeline and proves properties of it.

- **`SuggestionModel`** (`suggestion.dfy`): the Suggestion model.
  - The `suggestion_type` enum codes and their inverse.
  - The `as_json` field list.
  - The novelty gate `is_novel_and_valuable?`. The fuzzy matcher is an oracle `Matcher`.
- **`Records`** (`records.dfy`): the database tables and the broadcast channel, kept in memory.
  - Transcript messages, suggestions and a broadcast log, held by the class `Store`.
  - The `Incident` object, with its lazily loaded `suggestions` association.
- **`GeminiClient`** (`gemini_client.dfy`): the client for the language model.
  - The prompt: the optional previous-suggestions section and the numbered transcript lines.
  - The request body.
  - The tolerant reading of the answer: fence stripping, parse, `[text]` fallback, `[]` without text.
  - The HTTP exchange and `JSON.parse` are function parameters (`ClientEnv`).
- **`SuggestionEngine`** (`suggestion_engine.dfy`): one run of the engine for one transcript message.
  - The 7-message context window and the 10 newest descriptions.
  - Candidate classification, the novelty gate and referenced-message resolution.
  - The type alias map, creation and broadcast.
  - The class `Engine` is proved against the functional specification `EngineCall`.
- **`TranscriptReplay`** (`transcript_replay_job.dfy`): the replay job.
  - A `real` logical clock and a trace of waits, creations and engine runs.
  - The class `ReplayJob` is proved against the functional specification `Job`.
- **`IncidentAnalysis`** (`incident_analysis.dfy`): the page's data helpers and list handlers.
  - `mapTranscriptEntries` and `mapSuggestions`. The latter is a push loop and an in-place stable insertion sort on an array.
  - The edit, delete and transcript-click handlers on a `PageState` value.
- **`TranscriptPanel`** (`transcript_panel.dfy`): the transcript panel.
  - The speaker icon.
  - The per-session speaker-to-colour cache: the class `SpeakerColors`, proved against the state machine `Cache`/`Step`.
- **`Text`**, **`Json`**, **`Wrappers`**: the string operations, JSON values with Ruby's `dig`, and `Option`/`Outcome`.

Where the code and the design description disagree, the model follows the code:

- **Engine errors end the replay job.** An error raised by the engine, or by the client under it, is not rescued in `perform`. It therefore ends the whole job; later messages are not created. The design description says the replay goes on.
- **When the previous-suggestions section is empty.** The section is empty exactly when no previous description is present. `any?` is false for a list holding only nils, not only for an empty list.

## Model

| member | source | states |
|---|---|---|
| SuggestionModel.Code | backend/app/models/suggestion.rb:5-10 | every suggestion type is stored as a code below 4 |
| SuggestionModel.FromCode | backend/app/models/suggestion.rb:5-10 | a stored code reads back as a type exactly when it is 0..3, and that type's code is the stored code |
| SuggestionModel.CodeRoundTrip | backend/app/models/suggestion.rb:5-10 | reading back the code of any type gives that type (action_item=0, trigger_event=1, root_cause=2, metadata=3) |
| SuggestionModel.AsJsonShape | backend/app/models/suggestion.rb:31-35 | the serialised suggestion is an object with exactly the nine `only:` attributes, in the column order of the `suggestions` table (`backend/db/schema.rb:23-31`): id, content, description, suggestion_type, transcript_message_id, incident_id, created_at, updated_at, title |
| SuggestionModel.AsJsonText | backend/app/models/suggestion.rb:31-35 | `title` and `description` carry the record's values, nil as null |
| SuggestionModel.AsJsonKind | backend/app/models/suggestion.rb:31-35 | `suggestion_type` is the enum name of the record's type, and `content` is the record's content |
| SuggestionModel.AsJsonIds | backend/app/models/suggestion.rb:31-35 | the id, message id, incident id and both timestamps are the record's |
| SuggestionModel.NormalDescriptions | backend/app/models/suggestion.rb:21 | the history is normalised element by element, keeping its length |
| SuggestionModel.NilDescriptionRejected | backend/app/models/suggestion.rb:16-17 | a nil description reads as "" and is rejected whatever the history |
| SuggestionModel.ShortRejected | backend/app/models/suggestion.rb:16-17 | a description shorter than 10 characters after normalising is rejected whatever the history and the matcher |
| SuggestionModel.ExactDuplicateRejected | backend/app/models/suggestion.rb:15-19 | a description equal, once normalised, to that of ANY existing suggestion of the incident is rejected |
| SuggestionModel.FuzzyDuplicateRejected | backend/app/models/suggestion.rb:21-27 | a best match with a score of at least 0.95 rejects the candidate |
| SuggestionModel.AcceptedOtherwise | backend/app/models/suggestion.rb:14-29 | long enough, no exact duplicate and no fuzzy hit: the candidate is accepted (with the three rejection lemmas, the gate in both directions) |
| SuggestionModel.EmptyHistoryAccepts | backend/app/models/suggestion.rb:15-28 | with no history and a matcher reporting no match, a description is accepted exactly when its normal form has at least 10 characters |
| SuggestionModel.VerdictIgnoresCaseAndPadding | backend/app/models/suggestion.rb:16 | surrounding whitespace and letter case of the candidate do not change the verdict |
| Text.Downcase | backend/app/models/suggestion.rb:16 | `downcase` keeps the length and lower-cases each character in place |
| Text.StripPadded | backend/app/models/suggestion.rb:16 | `strip` ignores whitespace padding on either side |
| Text.NormalizePadded | backend/app/models/suggestion.rb:16 | two texts equal up to case and padding normalise to the same string |
| Text.Take | backend/app/services/suggestion_engine.rb:17 | `content[0, 30]` is the prefix of length min(30, length) |
| Text.ContainsIff | backend/app/services/suggestion_engine.rb:17 | `include?` holds exactly when the needle occurs at some position of the text |
| Text.JoinAround | backend/app/services/gemini_client.rb:19 | the joined lines are the lines before i, a separator, line i, a separator and the lines after i |
| Text.LeadingDigits | src/pages/IncidentAnalysis.tsx:85 | the digits `parseInt` reads are the longest all-digit prefix |
| Text.ParseNatToString | src/pages/IncidentAnalysis.tsx:85 | `parseInt(String(n), 10)` gives back n |
| Text.NatToStringInjective | src/pages/IncidentAnalysis.tsx:38 | distinct ids give distinct decimal strings |
| Json.Lookup | backend/app/services/suggestion_engine.rb:17 | a non-null `hash[name]` is the value of some field with that name |
| Json.LookupAt | backend/app/services/suggestion_engine.rb:17 | `hash[name]` is the value of the last field with that name |
| Records.MessagesOf | backend/app/services/suggestion_engine.rb:7 | an incident's messages are exactly the stored messages of that incident, in creation order |
| Records.SuggestionsOf | backend/app/models/suggestion.rb:15 | an incident's suggestions are exactly the stored suggestions of that incident, in creation order |
| Records.SuggestionsOfAppend | backend/app/services/suggestion_engine.rb:43-50 | appending a row adds it at the end of its own incident's list and changes no other incident's list |
| Records.Descriptions | backend/app/models/suggestion.rb:21 | the history's descriptions, one per suggestion, in order |
| Records.Contents | backend/app/services/suggestion_engine.rb:8 | the context's contents, one per message, in order |
| Records.AddMessageWellFormed | backend/app/jobs/transcript_replay_job.rb:18-22 | creating a message keeps the tables consistent: fresh increasing ids, and every suggestion still references a message of its incident with its content |
| Records.Incident.constructor | backend/app/jobs/transcript_replay_job.rb:5 | a found incident starts with its `suggestions` association not loaded |
| Records.Incident.Suggestions | backend/app/models/suggestion.rb:15 | reading the association loads the incident's stored suggestions once, and later reads see the loaded list |
| Records.Incident.Track | backend/app/services/suggestion_engine.rb:43-50 | a created row joins a loaded association; an unloaded one stays unloaded |
| Records.Store.constructor | backend/db/schema.rb:23-43 | the store starts in the given state |
| Records.Store.CreateMessage | backend/app/jobs/transcript_replay_job.rb:18-22 | `TranscriptMessage.create!` appends one row with the next id and tick, the incident, the content and the speaker |
| Records.Store.CreateSuggestion | backend/app/services/suggestion_engine.rb:43-50 | `Suggestion.create!` appends one row with the next id and tick and the given fields; messages and broadcasts are unchanged |
| Records.Store.Broadcast | backend/app/services/suggestion_engine.rb:52 | a broadcast appends its payload to the log and changes nothing else |
| GeminiClient.Bullets | backend/app/services/gemini_client.rb:19 | one bullet line per previous description, in input order |
| GeminiClient.NumberedLines | backend/app/services/gemini_client.rb:40 | one numbered line per context message, in context order |
| GeminiClient.SectionEmptyIff | backend/app/services/gemini_client.rb:16-23 | the previous-suggestions section is "" exactly when no previous description is present |
| GeminiClient.SectionBulletAt | backend/app/services/gemini_client.rb:16-20 | a non-empty section is the header, the bullets before i, bullet i, the bullets after i and the footer |
| GeminiClient.TranscriptLineAt | backend/app/services/gemini_client.rb:40 | the transcript block holds line i between its neighbours, and that line starts with the number i+1 |
| GeminiClient.RequestBodyCarriesPrompt | backend/app/services/gemini_client.rb:64-68 | the body's `contents[0].parts[0].text` is the prompt |
| GeminiClient.EnvelopeText | backend/app/services/gemini_client.rb:84 | the answer text is found at `candidates[0].content.parts[0].text` |
| GeminiClient.FenceRemoved | backend/app/services/gemini_client.rb:87 | a backtick-free text inside a json code fence cleans to the same string as the bare text, namely its stripped form |
| GeminiClient.FencedAnswerReadsAsPlain | backend/app/services/gemini_client.rb:87-88 | a fenced answer and the bare answer parse to the same value |
| GeminiClient.ExtractFromText | backend/app/services/gemini_client.rb:83-92 | with a text in the response, the result is the parsed cleaned text, or `[text]` when it does not parse |
| GeminiClient.ExtractWithoutText | backend/app/services/gemini_client.rb:84-91 | with no text in the response, the result is `[]` |
| GeminiClient.ExtractBodyNotJson | backend/app/services/gemini_client.rb:83 | a response body that is not JSON raises, since that parse sits outside the rescue |
| SuggestionEngine.LastN | backend/app/services/suggestion_engine.rb:7 | `last(n)` is the suffix of length min(n, size) |
| SuggestionEngine.Context | backend/app/services/suggestion_engine.rb:7-8 | the context is the last min(7, n) messages of the incident, oldest first |
| SuggestionEngine.NewestDescriptions | backend/app/services/suggestion_engine.rb:10 | the previous list holds the descriptions of at most the 10 newest suggestions, newest first |
| SuggestionEngine.Items | backend/app/services/suggestion_engine.rb:13 | an array yields its elements, a hash yields pairs (which are arrays), and any other value cannot be iterated |
| SuggestionEngine.TextField | backend/app/services/suggestion_engine.rb:14-20 | a candidate field is read as a string exactly when the hash holds a string there |
| SuggestionEngine.TypeFromKindListed | backend/app/services/suggestion_engine.rb:33-46 | the eight listed type strings map to their enum values |
| SuggestionEngine.TypeFromKindOfName | backend/app/services/suggestion_engine.rb:38-41 | every enum name maps back to its own type |
| SuggestionEngine.TypeFromKindDefault | backend/app/services/suggestion_engine.rb:46 | nil and any unlisted string map to metadata |
| SuggestionEngine.ScanReferenced | backend/app/services/suggestion_engine.rb:17 | the scan stops at the first context message whose first 30 characters occur in the reference, or at the first nil content, or finds none |
| SuggestionEngine.ResolveReference | backend/app/services/suggestion_engine.rb:17-18 | a nil reference or no match falls back to the triggering message; a resolved message is the trigger or a context message |
| SuggestionEngine.FirstMatchIsReferenced | backend/app/services/suggestion_engine.rb:17 | the first matching context message, oldest first, is the one referenced |
| SuggestionEngine.NilContentBeforeMatchRaises | backend/app/services/suggestion_engine.rb:17 | a nil content met before any match raises (`nil[0, 30]`) |
| SuggestionEngine.IgnoredCandidateSkipped | backend/app/services/suggestion_engine.rb:13-26 | a candidate that is neither a hash nor a string is skipped and changes nothing |
| SuggestionEngine.RejectedCandidateCreatesNothing | backend/app/services/suggestion_engine.rb:15-24 | a candidate that fails the novelty gate creates nothing and raises nothing; a string is checked with itself as description |
| SuggestionEngine.PlainCandidateCreatesMetadata | backend/app/services/suggestion_engine.rb:21-24 | an accepted string becomes a metadata suggestion with a nil title, the string as description, on the triggering message |
| SuggestionEngine.StructuredCandidateCreates | backend/app/services/suggestion_engine.rb:14-50 | an accepted hash creates exactly one row with the mapped type, its title and description, and the referenced message's incident, id and content |
| SuggestionEngine.NilContentRaises | backend/app/services/suggestion_engine.rb:17 | an accepted hash whose reference scan raises creates nothing and stops with the error |
| SuggestionEngine.FailedExtractionCreatesNothing | backend/app/services/suggestion_engine.rb:11-13 | when the client raises, or returns something that cannot be iterated, nothing is created |
| SuggestionEngine.AcceptedIsNovel | backend/app/models/suggestion.rb:16-19 | an accepted description is at least 10 characters long and differs from every earlier one once normalised |
| SuggestionEngine.CandidateStep | backend/app/services/suggestion_engine.rb:13-26 | one candidate creates at most one row: a fresh row from the context or the trigger, novel against the history, and tracked by the loaded association |
| SuggestionEngine.ProcessAllAppends | backend/app/services/suggestion_engine.rb:13-26 | the loop only appends: each new row has the next id, comes from the context or the trigger, is broadcast once in order, and is novel against the history |
| SuggestionEngine.ProcessAllKeepsDistinct | backend/app/services/suggestion_engine.rb:13-26 | when created rows join the loaded association, no two of the incident's suggestions share a normalised description |
| SuggestionEngine.CallAppends | backend/app/services/suggestion_engine.rb:6-27 | a run of the engine only appends fresh, novel rows from its context window or its trigger, each broadcast once |
| SuggestionEngine.CallKeepsDistinct | backend/app/services/suggestion_engine.rb:6-27 | a run of the engine keeps the incident's descriptions pairwise distinct once normalised, when created rows join the association |
| SuggestionEngine.AppendedWellFormed | backend/app/services/suggestion_engine.rb:43-50 | rows appended from stored messages keep the tables consistent |
| SuggestionEngine.CallWellFormed | backend/app/services/suggestion_engine.rb:6-27 | a run of the engine on a stored message keeps the tables consistent |
| SuggestionEngine.ErrorStops | backend/app/services/suggestion_engine.rb:13-26 | an error is not rescued: once a prefix of the candidates raises, the later candidates change nothing |
| SuggestionEngine.Engine.constructor | backend/app/services/suggestion_engine.rb:2-4 | the engine holds its message and that message's incident |
| SuggestionEngine.Engine.Call | backend/app/services/suggestion_engine.rb:6-27 | the store, the association and the error after `call` are those of the specification `EngineCall` |
| SuggestionEngine.Engine.ProcessItems | backend/app/services/suggestion_engine.rb:13-26 | the candidate loop ends in the state the specification `ProcessAll` gives |
| SuggestionEngine.Engine.ProcessItem | backend/app/services/suggestion_engine.rb:14-25 | one candidate leads to the state the specification `ProcessCandidate` gives |
| SuggestionEngine.Engine.CreateSuggestion | backend/app/services/suggestion_engine.rb:31-53 | `create_suggestion` appends the row `NewRecord` describes, broadcasts its `as_json` and tracks it in the association |
| TranscriptReplay.Interval | backend/app/jobs/transcript_replay_job.rb:13-14 | for N messages the interval is positive and N intervals make 60 seconds |
| TranscriptReplay.MissingTranscriptFails | backend/app/jobs/transcript_replay_job.rb:10-14 | a missing `meeting_transcript` fails before anything is created, waited or analysed |
| TranscriptReplay.EmptyTranscriptDoesNothing | backend/app/jobs/transcript_replay_job.rb:14-16 | an empty transcript creates nothing, waits for nothing and runs no engine |
| TranscriptReplay.EngineKeepsMessages | backend/app/services/suggestion_engine.rb:6-27 | the engine never changes the messages table |
| TranscriptReplay.OffsetIsProduct | backend/app/jobs/transcript_replay_job.rb:16-17 | i waits of the interval add up to i times the interval |
| TranscriptReplay.StepShape | backend/app/jobs/transcript_replay_job.rb:16-23 | iteration i waits unless it is the first, then creates exactly one message with the item's text and speaker, then runs the engine on it |
| TranscriptReplay.StepOf | backend/app/jobs/transcript_replay_job.rb:16-23 | one iteration is fully determined by the wait, the created message and the engine's result on it |
| TranscriptReplay.StepsScheduled | backend/app/jobs/transcript_replay_job.rb:16-24 | without errors, exactly one message per item is created, in input order; message i is created at time i times the interval; its engine run follows it and precedes the next wait |
| TranscriptReplay.ReplaySchedule | backend/app/jobs/transcript_replay_job.rb:4-25 | a job that succeeds follows that schedule with the interval 60/N |
| TranscriptReplay.JobEndsAt | backend/app/jobs/transcript_replay_job.rb:13-23 | a job over N > 0 messages that raises nothing ends with its clock N-1 waits of 60/N after its start |
| TranscriptReplay.TotalWaitUnderAMinute | backend/app/jobs/transcript_replay_job.rb:13-17 | a job over N > 0 messages that raises nothing ends with its clock 60 - 60/N seconds after its start, so less than a minute after it |
| TranscriptReplay.WaitsShortOfAMinute | backend/app/jobs/transcript_replay_job.rb:13-17 | N-1 waits of 60/N seconds add up to (N-1)·60/N = 60 - 60/N seconds, below 60 |
| TranscriptReplay.StepsWellFormed | backend/app/jobs/transcript_replay_job.rb:16-24 | the replay keeps the tables consistent |
| TranscriptReplay.StepsKeepDistinct | backend/app/jobs/transcript_replay_job.rb:16-24 | when created rows join the shared association, the replay keeps the incident's descriptions distinct |
| TranscriptReplay.StepsErrorStops | backend/app/jobs/transcript_replay_job.rb:16-24 | an engine error ends the job: later items create nothing |
| TranscriptReplay.ReplayJob.constructor | backend/app/jobs/transcript_replay_job.rb:1-2 | a job starts at time 0 with an empty trace |
| TranscriptReplay.ReplayJob.Sleep | backend/app/jobs/transcript_replay_job.rb:17 | `sleep` advances the clock by its argument and records the wait |
| TranscriptReplay.ReplayJob.Perform | backend/app/jobs/transcript_replay_job.rb:4-25 | the store, clock, trace and error after `perform` are those of the specification `Job` |
| TranscriptReplay.ReplayJob.Ingest | backend/app/jobs/transcript_replay_job.rb:16-24 | one pass of the loop body ends where the specification `Step` does |
| TranscriptReplay.ReplayJob.Analyse | backend/app/jobs/transcript_replay_job.rb:23 | `SuggestionEngine.new(tm).call` leaves the store and the association as the engine specification says, and its error escapes |
| TranscriptReplay.ReplayJob.Record | backend/app/jobs/transcript_replay_job.rb:17-22 | wait unless first, then create the message with the item's text and speaker, stamped with the current time; the creation is logged |
| IncidentAnalysis.MapTranscriptEntries | src/pages/IncidentAnalysis.tsx:36-43 | one entry per message, in order (none when the list is missing); each id reads back as its message's id; a present, non-empty speaker is kept, and the speaker is 'System' exactly when it is missing, empty or 'System' itself; the text is the content, or '' when the content is missing |
| IncidentAnalysis.EntryIdsDistinct | src/pages/IncidentAnalysis.tsx:38 | messages with distinct ids give entries with distinct ids |
| IncidentAnalysis.TypeOf | src/pages/IncidentAnalysis.tsx:53-70 | action_item gives (action, sand), trigger_event gives (trigger_event, lavender), root_cause gives root-cause; sand and lavender go with exactly those kinds; everything else is (metadata, sage) |
| IncidentAnalysis.TypeOfBackendName | src/pages/IncidentAnalysis.tsx:53-70 | each enum name the backend serialises maps to the matching card type |
| IncidentAnalysis.CardsOf | src/pages/IncidentAnalysis.tsx:48-80 | a message gives one card per suggestion, each carrying the message's id |
| IncidentAnalysis.CardFields | src/pages/IncidentAnalysis.tsx:71-79 | a card's ids read back as the suggestion's and the message's ids; the title is the suggestion's, defaulting to ''; the body is the non-empty description, else (a missing or empty description) the content, else '' |
| IncidentAnalysis.PushedLength | src/pages/IncidentAnalysis.tsx:48-50 | the pushed list holds as many cards as there are suggestions across all messages |
| IncidentAnalysis.MapSuggestions | src/pages/IncidentAnalysis.tsx:46-93 | the push loop and the in-place sort give the stable sort of the pushed cards by message id |
| IncidentAnalysis.MapSuggestionsOrder | src/pages/IncidentAnalysis.tsx:46-93 | the result holds every card exactly once, one per suggestion, ordered by ascending numeric message id; the cards of a message keep their order |
| IncidentAnalysis.SortInPlace | src/pages/IncidentAnalysis.tsx:84-89 | sorting the array in place leaves the stable sort of its old contents by the key |
| IncidentAnalysis.InsertAt | src/pages/IncidentAnalysis.tsx:84-89 | one insertion step places the next element after every element of equal or smaller key and leaves the rest alone |
| IncidentAnalysis.SortSorted | src/pages/IncidentAnalysis.tsx:84-89 | the sorted list is ordered by ascending key |
| IncidentAnalysis.SortPermutes | src/pages/IncidentAnalysis.tsx:84-89 | the sorted list is a permutation of the input |
| IncidentAnalysis.SortStable | src/pages/IncidentAnalysis.tsx:84-89 | elements with equal keys keep their relative order |
| IncidentAnalysis.HandleEditSave | src/pages/IncidentAnalysis.tsx:210-213 | only the cards with the saved id get the edited body; ids, order and every other field stay; editing ends |
| IncidentAnalysis.OnEdit | src/pages/IncidentAnalysis.tsx:410-412 | only the cards with the id get the new title and body; every other card and the rest of the page stay |
| IncidentAnalysis.EditThenSaveUnchanged | src/pages/IncidentAnalysis.tsx:206-213 | opening a card for edit and saving it unchanged leaves the list as it was |
| IncidentAnalysis.EditKeepsOrder | src/pages/IncidentAnalysis.tsx:210-213 | saving an edit keeps the list ordered by message id |
| IncidentAnalysis.WithoutMembers | src/pages/IncidentAnalysis.tsx:225 | the filtered list holds exactly the cards whose id differs from the removed one |
| IncidentAnalysis.ConfirmDelete | src/pages/IncidentAnalysis.tsx:223-230 | the chosen id's cards are removed and all others kept; with nothing chosen the list stays; the dialog closes and the choice clears |
| IncidentAnalysis.CancelDelete | src/pages/IncidentAnalysis.tsx:231-234 | cancelling leaves the list unchanged, closes the dialog and clears the choice |
| IncidentAnalysis.CancelRestores | src/pages/IncidentAnalysis.tsx:219-234 | asking to delete and then cancelling restores the page exactly |
| IncidentAnalysis.DeleteLength | src/pages/IncidentAnalysis.tsx:225 | the kept cards and the removed cards add up to the whole list |
| IncidentAnalysis.DeleteKeepsOrder | src/pages/IncidentAnalysis.tsx:225 | deleting keeps the list ordered by message id |
| IncidentAnalysis.DeleteIdempotent | src/pages/IncidentAnalysis.tsx:225 | deleting the same id twice is the same as deleting it once |
| IncidentAnalysis.DeleteRoundTrip | src/pages/IncidentAnalysis.tsx:219-230 | choosing a card and confirming removes every card with its id and closes the dialog |
| IncidentAnalysis.FindByMessage | src/pages/IncidentAnalysis.tsx:238 | `find` returns the first card with the message id, or none when no card has it |
| IncidentAnalysis.HandleTranscriptClick | src/pages/IncidentAnalysis.tsx:237-245 | a click always highlights the message; focus moves only to a card of that message, and stays when there is none |
| IncidentAnalysis.ClickFocusesFirstCard | src/pages/IncidentAnalysis.tsx:237-245 | the focused card is the first card of the clicked message |
| TranscriptPanel.SpeakerIcon | src/components/incident/TranscriptPanel.tsx:30-32 | the bot icon exactly for 'System', the user icon otherwise |
| TranscriptPanel.MissingSpeakerShowsBot | src/components/incident/TranscriptPanel.tsx:107 | a message with a missing or empty speaker, or the speaker 'System', shows the bot icon, and no other does |
| TranscriptPanel.PaletteDistinct | src/components/incident/TranscriptPanel.tsx:35-46 | the palette holds ten distinct, non-empty classes |
| TranscriptPanel.StepFacts | src/components/incident/TranscriptPanel.tsx:52-60 | a known speaker keeps its colour and changes nothing; a new one gets `pastelColors[colorIndex % 10]` and the counter rises by one; other entries stay; the colour is always in the palette |
| TranscriptPanel.ColorsOf | src/components/incident/TranscriptPanel.tsx:106-141 | rendering gives one badge colour per entry |
| TranscriptPanel.AfterValid | src/components/incident/TranscriptPanel.tsx:49-58 | the counter always equals the number of speakers seen, and every stored colour is in the palette |
| TranscriptPanel.ColorsStable | src/components/incident/TranscriptPanel.tsx:53 | every badge shows the colour its speaker keeps for the rest of the session |
| TranscriptPanel.FreshAssigns | src/components/incident/TranscriptPanel.tsx:49-58 | from a fresh page, the counter is the number of distinct speakers, the map holds exactly them, and the k-th new speaker has palette colour k mod 10 |
| TranscriptPanel.RoundRobin | src/components/incident/TranscriptPanel.tsx:35-58 | the first ten distinct speakers get pairwise distinct colours, and the eleventh gets the first one's colour |
| TranscriptPanel.AfterConcat | src/components/incident/TranscriptPanel.tsx:49-50 | the cache carries over from one render to the next |
| TranscriptPanel.SpeakerColors.constructor | src/components/incident/TranscriptPanel.tsx:49-50 | a session starts with an empty map and a zero counter |
| TranscriptPanel.SpeakerColors.DynamicColor | src/components/incident/TranscriptPanel.tsx:52-60 | the colour returned and the new map and counter are those of the state machine's `Step` |
| TranscriptPanel.SpeakerColors.RenderColors | src/components/incident/TranscriptPanel.tsx:106-141 | rendering the entries gives their colours in order and leaves the cache `After` them |
| TranscriptPanel.InheritedNameGetsNoColor | src/components/incident/TranscriptPanel.tsx:49-57 | as written, the speaker "constructor" finds an inherited value, gets no palette colour and is never stored; the intended lookup gives it the first colour |
| TranscriptPanel.AsWrittenAgreesElsewhere | src/components/incident/TranscriptPanel.tsx:52-60 | for every other speaker the code as written behaves as the intended state machine |

## Left out

- The HTTP request to the language model (`backend/app/services/gemini_client.rb:71-80`) is a function parameter `send`. `JSON.parse` is a function parameter `parse`. The API key and the URL are not modelled.
- The fuzzy matcher of the `fuzzy_match` gem is an oracle `Matcher` returning no match or a match with an optional score. Its return shape is not visible in the repository, so no more is assumed.
- ActiveRecord and ActionCable are an in-memory store: a message table, a suggestion table, a broadcast log and a counter that stands for ids and creation times. Validations, transactions and database failures are not modelled.
- Whether a suggestion created earlier in the same engine run is visible to later novelty checks depends on how Rails caches the loaded `incident.suggestions` association. The model makes this an oracle `addsToLoaded`. The properties hold for every oracle; `ProcessAllKeepsDistinct`, `CallKeepsDistinct` and `StepsKeepDistinct` also assume the oracle always adds.
- `Incident.find`, the transcript file read and its `JSON.parse` (`backend/app/jobs/transcript_replay_job.rb:5-9`) are left out. The job receives the `meeting_transcript` entry, or None when it is absent. Transcript items that are not hashes are not modelled.
- `sleep` is a logical `real` clock with a trace of events. Wall-clock time and concurrency between jobs are not modelled.
- The controllers (incidents, suggestions, transcript messages), the schema and the migrations are not part of this model. The schema only shapes the record fields.
- Candidate hash fields that are not JSON strings are read as nil. Ruby passes such a value on as it is: a number as a title, or an array as the reference that `include?` is asked about.
- Text.Downcase: lower-cases the ASCII letters only; Ruby's `downcase` also maps non-ASCII letters.
- `new Date(...).toLocaleTimeString()` depends on the locale. It is a function parameter `Formatter`, so timestamps are uninterpreted strings.
- IncidentAnalysis.Key: JavaScript's `||` is modelled for null and "" only; ids are natural numbers. `parseInt` is modelled for decimal digit strings, which is what `String(msg.id)` gives. A card whose message id does not parse gets the key 0, and the timestamp `localeCompare` fallback is not modelled. The fallback cannot be reached by cards that `mapSuggestions` builds.
- IncidentAnalysis.MapSuggestions: the JavaScript engine's sort algorithm is replaced by an in-place insertion sort. `Array.prototype.sort` is stable, and every stable sort by the same key gives the same result.
- Rendering, effects, polling, layout math, `timeToMinutes`, `isCurrentTime`, the timeline and the card style tables are not modelled. The keyboard handlers for the a and d keys do nothing in the code.
- `handleEdit` and `handleDelete` are modelled only as the state they set, used by `EditThenSaveUnchanged`, `CancelRestores` and `DeleteRoundTrip`. The DELETE request noted as a to-do in `confirmDelete` does not exist in the code.

## Findings

| source | as written | input that shows it | evidently intended | confidence | as-written member | corrected member |
|---|---|---|---|---|---|---|
| src/components/incident/TranscriptPanel.tsx:49-57 | the speaker-to-colour map is a plain object, so `speakerColorMap[speaker]` also finds the properties every object inherits (section 20.1.3 of ECMA-262) | speaker "constructor": the lookup returns the inherited `Object` function, which is truthy, so the badge gets a function's text as its class and the speaker never gets a colour | a lookup of the map's own keys only (a `Map`, or `Object.create(null)`), so every speaker gets a palette colour | not executed | TranscriptPanel.InheritedNameGetsNoColor | TranscriptPanel.SpeakerColors.DynamicColor |
