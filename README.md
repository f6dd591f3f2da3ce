# MyBrain core, modelled in Dafny

A model of the logic in the MyBrain Android app that decides what the user
sees: the smart dashboard's focus ranking, flow and nudge; the dashboard's
event handling with its suppressed focus titles; the note editor's loading,
saving and AI panel; the notes list ordering; the word counter; the note
card preview; the note entity mapping; the AI provider dispatch; and how the
OpenAI-compatible and Ollama clients turn their answers into results.

Each module follows one source file:

| module | file |
|---|---|
| `Common` | shared records (`NetworkResult`, `AiMessage`), list and string helpers |
| `Sorting` | Kotlin's stable `sortedBy` and `reversed` |
| `NoteData` | `NoteEntity.kt` |
| `NoteOrder` | `GetAllNotesUseCase.kt` |
| `NoteCard` | the preview expression of `NoteCard.kt` |
| `WordCount` | `countWords` of `NoteDetailsScreen.kt` |
| `OpenaiApi` | `OpenaiApi.kt` |
| `OllamaApi` | `OllamaApi.kt` |
| `AiDispatch` | `SendAiPromptUseCase.kt` and the URLs and models of `AiConstants.kt` |
| `SmartDashboard` | `GetSmartDashboardItemsUseCase.kt` and `SmartDashboardModels.kt` |
| `Dashboard` | the dashboard part of `MainViewModel.kt` and `DashboardEvent.kt` |
| `NoteDetails` | `NoteDetailsViewModel.kt` |

The pure code (use cases, mappings, clients) is modelled as functions with
lemmas. The two view models are classes: their fields are the Kotlin
fields, and each handler is a method whose postcondition gives the whole
new state in terms of the old one. Work a handler launches in a coroutine
(repository writes, snackbars, refresh signals) comes back as a list of
effects. What that work reports later (the repository's answer, the AI's
reply, the loaded events) is passed to the method that handles it. The
clock (`now`), the local hour of an instant (`hourOf`), the JSON parser
and HTTP outcomes are parameters too. `countWords` keeps its loop as a
method, proved against the function `Words`.

Some behaviour the model makes explicit:

- A Kotlin String is a sequence of UTF-16 code units, and `length`, `take` and `compareTo` count and compare units. The card preview and the title order therefore work on code units (`Common.Utf16`). A character outside the Basic Multilingual Plane counts twice, and the preview's cut can fall inside its surrogate pair.

- A JSON `null` title reads as the text "null" and is kept.
- A title, reason or type that is an array or an object throws. The whole
  focus list is then empty, and the heuristic takes over.
- In OpenaiApi, a missing `choices` list gives "Network error: Unknown error".
  An empty one gives "Network error: List is empty.".
- In a postpone, the copy of the item with the moved task is removed straight
  away with the other items of that title. `Dashboard.PostponedCopyHidden`
  proves this, so only the task update remains visible.

## Model

| member | source | states |
|---|---|---|
| NoteData.DefaultNoteEntity | core/database/src/main/java/com/mhss/app/database/entity/NoteEntity.kt:13-27 | a default entity has empty title and content, both dates 0 and id 0 |
| NoteData.ToNote | core/database/src/main/java/com/mhss/app/database/entity/NoteEntity.kt:29-37 | mapping an entity to a note loses nothing: mapping the note back gives the same entity |
| NoteData.ToNoteEntity | core/database/src/main/java/com/mhss/app/database/entity/NoteEntity.kt:39-47 | every field of the note is copied into the entity |
| NoteData.NoteRoundTrip | core/database/src/main/java/com/mhss/app/database/entity/NoteEntity.kt:29-47 | note to entity and back gives the same note |
| NoteData.WithoutIds | core/database/src/main/java/com/mhss/app/database/entity/NoteEntity.kt:49 | same length; every id is 0; title, content and both dates are kept element by element |
| NoteData.WithoutIdsIdempotent | core/database/src/main/java/com/mhss/app/database/entity/NoteEntity.kt:49 | resetting ids twice equals resetting them once |
| NoteData.WithoutIdsFixed | core/database/src/main/java/com/mhss/app/database/entity/NoteEntity.kt:49 | a list whose ids are all 0 is returned unchanged |
| Sorting.KeyLeqTotalOrder | notes/domain/bin/main/com/mhss/app/domain/use_case/GetAllNotesUseCase.kt:24-26 | the order the notes are sorted by (numbers, or strings compared UTF-16 code unit by code unit, as `String.compareTo` does) is reflexive, total, transitive and antisymmetric |
| Sorting.SortByStable | notes/domain/bin/main/com/mhss/app/domain/use_case/GetAllNotesUseCase.kt:24-26 | sorting keeps the elements that share a key in their input order |
| Common.Utf16 | core/ui/src/main/java/com/mhss/app/ui/components/notes/NoteCard.kt:66 | a Kotlin String holds one code unit per character of the Basic Multilingual Plane and two for any other character, so its length is between the number of characters and twice it |
| Common.Utf16RoundTrip | core/ui/src/main/java/com/mhss/app/ui/components/notes/NoteCard.kt:66 | the code units decode back to the same text: nothing is lost by working on units |
| Common.Utf16Append | notes/domain/bin/main/com/mhss/app/domain/use_case/GetAllNotesUseCase.kt:24 | the code units of a concatenation are the concatenated code units |
| Common.Utf16Narrow | core/ui/src/main/java/com/mhss/app/ui/components/notes/NoteCard.kt:66 | text inside the Basic Multilingual Plane has exactly one code unit per character, equal to it |
| Common.Utf16Wide | core/ui/src/main/java/com/mhss/app/ui/components/notes/NoteCard.kt:66 | text outside the Basic Multilingual Plane has two code units per character |
| NoteOrder.SortNotes | notes/domain/bin/main/com/mhss/app/domain/use_case/GetAllNotesUseCase.kt:19-40 | every order and direction returns the same notes: same length, same multiset |
| NoteOrder.SortNotesAscending | notes/domain/bin/main/com/mhss/app/domain/use_case/GetAllNotesUseCase.kt:22-28 | ascending output is nondecreasing by title (in UTF-16 code-unit order), creation date or modification date, stable among equal keys; any other kind sorts like DateModified |
| NoteOrder.SortNotesDescending | notes/domain/bin/main/com/mhss/app/domain/use_case/GetAllNotesUseCase.kt:30-36 | descending output is nonincreasing by the same key, and equal keys appear in reverse input order; any other kind sorts like DateModified |
| NoteOrder.SortNotesDescIsReversedAsc | notes/domain/bin/main/com/mhss/app/domain/use_case/GetAllNotesUseCase.kt:30-36 | the descending list is the ascending list of the same kind read backwards, position by position |
| NoteOrder.SortNotesDirection | notes/domain/bin/main/com/mhss/app/domain/use_case/GetAllNotesUseCase.kt:21-37 | for every kind, the descending list is the ascending list reversed |
| NoteOrder.TitlesOrderByCodeUnit | notes/domain/bin/main/com/mhss/app/domain/use_case/GetAllNotesUseCase.kt:24 | a title U+1F600 (surrogates D83D DE00) sorts before a title U+FF41: titles compare by code unit, not by character |
| NoteCard.Preview | core/ui/src/main/java/com/mhss/app/ui/components/notes/NoteCard.kt:66 | the preview is in code units: at most 203; the first min(length, 200) units are the content's; content of at most 200 units is shown unchanged, longer content as its first 200 units followed by "..." |
| NoteCard.WideContentIsCut | core/ui/src/main/java/com/mhss/app/ui/components/notes/NoteCard.kt:66 | content of more than 100 characters outside the Basic Multilingual Plane is cut to 200 units and ends in "..." |
| NoteCard.NarrowContentIsCutByCharacter | core/ui/src/main/java/com/mhss/app/ui/components/notes/NoteCard.kt:66 | for text inside the Basic Multilingual Plane the cut falls after the 200th character |
| WordCount.CountWords | notes/presentation/src/main/java/com/mhss/app/presentation/NoteDetailsScreen.kt:325-339 | the loop returns the number of maximal runs of characters other than space and line feed |
| WordCount.NoWordsInSeparators | notes/presentation/src/main/java/com/mhss/app/presentation/NoteDetailsScreen.kt:326-331 | the empty string, and any string of spaces and line feeds, has 0 words |
| WordCount.OneWordWithoutSeparators | notes/presentation/src/main/java/com/mhss/app/presentation/NoteDetailsScreen.kt:330-334 | a non-empty string without space or line feed is exactly one word |
| WordCount.WordsBound | notes/presentation/src/main/java/com/mhss/app/presentation/NoteDetailsScreen.kt:332-334 | the count is at most the length, and at most half the length rounded up |
| WordCount.WordsJoin | notes/presentation/src/main/java/com/mhss/app/presentation/NoteDetailsScreen.kt:329-336 | joining two texts with a space or line feed adds their word counts |
| WordCount.WordsFollowSeparators | notes/presentation/src/main/java/com/mhss/app/presentation/NoteDetailsScreen.kt:329-336 | two texts with separators at the same positions have the same count |
| WordCount.TabsAndReturnsAreWordCharacters | notes/presentation/src/main/java/com/mhss/app/presentation/NoteDetailsScreen.kt:330 | putting a tab or carriage return in place of any character of a word leaves the count unchanged |
| OpenaiApi.Classify | ai/data/bin/main/com/mhss/app/data/OpenaiApi.kt:55-77 | InvalidKey exactly for status 401 or a body error naming "API key" or "authentication" in any case; Success exactly when there is no body error and a first choice, carrying that choice's message; never InternetError; every other error has a message |
| OpenaiApi.SendPrompt | ai/data/bin/main/com/mhss/app/data/OpenaiApi.kt:32-80 | success exactly when the body has no error and a first choice, and the value is that choice's text; the other cases are those of Classify |
| OpenaiApi.SendMessage | ai/data/bin/main/com/mhss/app/data/OpenaiApi.kt:82-123 | success exactly when the body has no error and a first choice, and the value is that choice's message converted to a chat message |
| OpenaiApi.StatusMessages | ai/data/bin/main/com/mhss/app/data/OpenaiApi.kt:65-77 | 402 and 429 give their fixed messages, other 4xx "Request error: <code>", 5xx "Server error: <code>", other exceptions "Network error: " and the message or "Unknown error"; a body without `choices` gives "Network error: Unknown error", an empty `choices` list "Network error: List is empty." |
| OpenaiApi.BodyErrorPassedOn | ai/data/bin/main/com/mhss/app/data/OpenaiApi.kt:55-61 | a body error that does not name the key is returned as OtherError with its own message |
| OpenaiApi.KeyMentionIgnoresCase | ai/data/bin/main/com/mhss/app/data/OpenaiApi.kt:56-57 | any two error messages that agree ignoring case are classified alike, and a message is classified like its lower-cased form |
| OpenaiApi.MixedCaseKeyMention | ai/data/bin/main/com/mhss/app/data/OpenaiApi.kt:56-58 | for example, a body error "api KEY" is recognised as an invalid key |
| Common.ContainsIgnoreCaseIgnoresCase | ai/data/bin/main/com/mhss/app/data/OpenaiApi.kt:56-57 | `contains(sub, ignoreCase = true)` answers alike for texts that agree ignoring case |
| OpenaiApi.SendMessageClassifiesLikeSendPrompt | ai/data/bin/main/com/mhss/app/data/OpenaiApi.kt:98-121 | sendMessage succeeds exactly when sendPrompt does and otherwise gives the same error |
| OllamaApi.RoleFor | ai/data/src/main/java/com/mhss/app/data/OllamaApi.kt:84 | the role is "user" exactly for user messages and "assistant" for every other type |
| OllamaApi.ToOllamaMessages | ai/data/src/main/java/com/mhss/app/data/OllamaApi.kt:82-87 | one Ollama message per chat message, same order, same content, role by type |
| OllamaApi.SendPrompt | ai/data/src/main/java/com/mhss/app/data/OllamaApi.kt:59-76 | the request names "qwen2.5:7b" with the prompt and no streaming whatever model is passed; a reply is Success of its text, an exception OtherError of its message or "Unknown error" |
| OllamaApi.SendMessage | ai/data/src/main/java/com/mhss/app/data/OllamaApi.kt:78-106 | the request carries the history mapped by role and content with the fixed model; a reply becomes a model-typed message with its content and the current time; an exception OtherError of its message or "Unknown error" |
| OllamaApi.ChatHistoryPreserved | ai/data/src/main/java/com/mhss/app/data/OllamaApi.kt:82-87 | the mapping keeps count and order and distributes over concatenation |
| AiDispatch.FindProvider | ai/domain/bin/main/com/mhss/app/domain/use_case/SendAiPromptUseCase.kt:28 | the provider found has the id looked up; none found means no provider has that id |
| AiDispatch.ResolveProvider | ai/domain/bin/main/com/mhss/app/domain/use_case/SendAiPromptUseCase.kt:28 | a known id resolves to its provider, an unknown id to None |
| AiDispatch.Dispatch | ai/domain/bin/main/com/mhss/app/domain/use_case/SendAiPromptUseCase.kt:30-63 | the prompt is forwarded unchanged; the Ollama client is used exactly when the provider is None |
| AiDispatch.SendAiPrompt | ai/domain/bin/main/com/mhss/app/domain/use_case/SendAiPromptUseCase.kt:26-70 | the request is the dispatch of the preferences; an IOException gives InternetError, any other exception OtherError with no message, otherwise the client's result |
| AiDispatch.UnknownProviderUsesOllama | ai/domain/bin/main/com/mhss/app/domain/use_case/SendAiPromptUseCase.kt:28 | an id no provider has routes to the local server "http://127.0.0.1:11434" with empty model and key |
| AiDispatch.UnsetProviderUsesOllama | ai/domain/bin/main/com/mhss/app/domain/use_case/SendAiPromptUseCase.kt:27 | an unset provider preference routes to the local server too |
| AiDispatch.OpenAiBaseUrl | ai/domain/bin/main/com/mhss/app/domain/use_case/SendAiPromptUseCase.kt:31-37 | OpenAI uses the custom URL exactly when the custom-URL flag is set, otherwise the OpenAI base URL |
| AiDispatch.RemoteProvidersUseOpenaiClient | ai/domain/bin/main/com/mhss/app/domain/use_case/SendAiPromptUseCase.kt:42-59 | Gemini, Grok and DeepSeek use the OpenAI-compatible client with their own fixed base URL |
| AiDispatch.DefaultModelsAndKeys | ai/domain/bin/main/com/mhss/app/domain/use_case/SendAiPromptUseCase.kt:38-57 | unset model preferences give each provider's default model; unset keys give "" |
| SmartDashboard.ReadField | app/src/main/java/com/mhss/app/mybrain/domain/use_case/GetSmartDashboardItemsUseCase.kt:74-76 | a missing field is absent; a field holding an array or object throws |
| SmartDashboard.OpenTasks | app/src/main/java/com/mhss/app/mybrain/domain/use_case/GetSmartDashboardItemsUseCase.kt:32 | exactly the tasks that are not completed, taken from the input; the counts are stated by FlowCounts |
| SmartDashboard.UpcomingEvents | app/src/main/java/com/mhss/app/mybrain/domain/use_case/GetSmartDashboardItemsUseCase.kt:33 | exactly the events that have not ended at `now`, taken from the input |
| SmartDashboard.ParseElement | app/src/main/java/com/mhss/app/mybrain/domain/use_case/GetSmartDashboardItemsUseCase.kt:72-81 | an element is dropped exactly when it is an object without "title", and kept exactly when it is an object whose title, reason and type read without throwing |
| SmartDashboard.ParseElementItem | app/src/main/java/com/mhss/app/mybrain/domain/use_case/GetSmartDashboardItemsUseCase.kt:74-80 | a kept item has the element's title, its reason or "", the event type exactly when the lower-cased type is "event", and the first task and event whose title matches ignoring case |
| SmartDashboard.ParseElements | app/src/main/java/com/mhss/app/mybrain/domain/use_case/GetSmartDashboardItemsUseCase.kt:72-81 | never more items than elements; no items at all when some element throws (ParseElementsFail); otherwise one item per titled element, in order (ParseElementsKept) |
| SmartDashboard.ParseElementsFail | app/src/main/java/com/mhss/app/mybrain/domain/use_case/GetSmartDashboardItemsUseCase.kt:72-81 | one element that throws makes the whole list fail |
| SmartDashboard.ParseElementsKept | app/src/main/java/com/mhss/app/mybrain/domain/use_case/GetSmartDashboardItemsUseCase.kt:72-81 | when no element throws, the items are those of the titled elements, one each, in order |
| SmartDashboard.ParseFocus | app/src/main/java/com/mhss/app/mybrain/domain/use_case/GetSmartDashboardItemsUseCase.kt:68-85 | no items when the reply is not JSON or not an array, and never more items than the array has elements |
| SmartDashboard.ParseFocusEmptyOnFailure | app/src/main/java/com/mhss/app/mybrain/domain/use_case/GetSmartDashboardItemsUseCase.kt:69-84 | text that is not JSON, a root that is not an array, or any element that throws (one that is not an object, say) gives no items |
| SmartDashboard.ParseFocusKeepsTitled | app/src/main/java/com/mhss/app/mybrain/domain/use_case/GetSmartDashboardItemsUseCase.kt:72-81 | when no element throws, the items are those of the elements that have a title, one each, in order |
| SmartDashboard.UrgentTasks | app/src/main/java/com/mhss/app/mybrain/domain/use_case/GetSmartDashboardItemsUseCase.kt:89-93 | at most two tasks; which ones and in what order is stated by UrgentTasksSoonest |
| SmartDashboard.NextEvent | app/src/main/java/com/mhss/app/mybrain/domain/use_case/GetSmartDashboardItemsUseCase.kt:94-98 | the earliest event starting at or after `now`, as stated by NextEventEarliest |
| SmartDashboard.HeuristicFocus | app/src/main/java/com/mhss/app/mybrain/domain/use_case/GetSmartDashboardItemsUseCase.kt:87-100 | at most 3 items; their shape is stated by HeuristicFocusShape |
| SmartDashboard.UrgentTasksSoonest | app/src/main/java/com/mhss/app/mybrain/domain/use_case/GetSmartDashboardItemsUseCase.kt:89-93 | at most two tasks, all with a due date, all from the input, ascending by due date, none due later than a dated task left out; among tasks due at the same time, those taken are the first ones in input order |
| SmartDashboard.NextEventEarliest | app/src/main/java/com/mhss/app/mybrain/domain/use_case/GetSmartDashboardItemsUseCase.kt:94-98 | no next event exactly when every event started before now; otherwise it is an input event starting at or after now, no later than any other such event, and no event before it in the input starts at the same time |
| SmartDashboard.NextEventMinimal | app/src/main/java/com/mhss/app/mybrain/domain/use_case/GetSmartDashboardItemsUseCase.kt:94-98 | a next event is an input event starting at or after now, no later than any other such event |
| SmartDashboard.NextEventFirstOfItsStart | app/src/main/java/com/mhss/app/mybrain/domain/use_case/GetSmartDashboardItemsUseCase.kt:94-98 | a next event is at an input position before which no event has the same start |
| SmartDashboard.HeuristicFocusShape | app/src/main/java/com/mhss/app/mybrain/domain/use_case/GetSmartDashboardItemsUseCase.kt:87-100 | at most 3 items: the next event first when there is one, then the urgent tasks in order; only the first item can be an event |
| SmartDashboard.HintHours | app/src/main/java/com/mhss/app/mybrain/domain/use_case/GetSmartDashboardItemsUseCase.kt:107-114 | hours are given exactly when 1 <= start - now <= 7200000, and are then the whole hours of the delay, 0 to 2 |
| SmartDashboard.TimeHint | app/src/main/java/com/mhss/app/mybrain/domain/use_case/GetSmartDashboardItemsUseCase.kt:107-114 | a hint exists exactly when the hours do, and reads "Starts in <hours>h" |
| Common.NatToStringRoundTrip | app/src/main/java/com/mhss/app/mybrain/domain/use_case/GetSmartDashboardItemsUseCase.kt:111 | the decimal text of the hours reads back as the same number |
| SmartDashboard.EventFlowItems | app/src/main/java/com/mhss/app/mybrain/domain/use_case/GetSmartDashboardItemsUseCase.kt:53-54 | one flow item per event, at its start time, in order |
| SmartDashboard.TaskFlowItems | app/src/main/java/com/mhss/app/mybrain/domain/use_case/GetSmartDashboardItemsUseCase.kt:55-56 | one flow item per task, at its due date, in order |
| SmartDashboard.Flow | app/src/main/java/com/mhss/app/mybrain/domain/use_case/GetSmartDashboardItemsUseCase.kt:53-57 | one item per open task and per event not yet ended; sortedness and counts are stated by FlowSorted and FlowCounts |
| SmartDashboard.NoAfternoonEvent | app/src/main/java/com/mhss/app/mybrain/domain/use_case/GetSmartDashboardItemsUseCase.kt:118-121 | true exactly when no event starts in local hour 13 to 17 |
| SmartDashboard.AnyImportantTask | app/src/main/java/com/mhss/app/mybrain/domain/use_case/GetSmartDashboardItemsUseCase.kt:122 | true exactly when some task is open with priority at least 2 |
| SmartDashboard.Nudge | app/src/main/java/com/mhss/app/mybrain/domain/use_case/GetSmartDashboardItemsUseCase.kt:116-124 | the nudge is shown exactly when no event starts in the afternoon and some open task has priority at least 2, with the fixed message |
| SmartDashboard.GetSmartDashboardItems | app/src/main/java/com/mhss/app/mybrain/domain/use_case/GetSmartDashboardItemsUseCase.kt:27-66 | the top focus never holds more than 3 items |
| SmartDashboard.FocusItems | app/src/main/java/com/mhss/app/mybrain/domain/use_case/GetSmartDashboardItemsUseCase.kt:46-51 | at most 3 items; the heuristic whenever the model call did not succeed |
| SmartDashboard.FallbackRule | app/src/main/java/com/mhss/app/mybrain/domain/use_case/GetSmartDashboardItemsUseCase.kt:46-51 | the heuristic is used exactly when the model call failed or its reply gives no items; otherwise the first three parsed items are shown |
| SmartDashboard.FlowSorted | app/src/main/java/com/mhss/app/mybrain/domain/use_case/GetSmartDashboardItemsUseCase.kt:53-57 | the flow is nondecreasing by time and has one item per open task and per event not yet ended; the items of one time are the events' in input order, then the tasks' in input order |
| SmartDashboard.FlowCounts | app/src/main/java/com/mhss/app/mybrain/domain/use_case/GetSmartDashboardItemsUseCase.kt:32-33 | each open task and each event not yet ended appears as often as in the input; completed tasks and ended events never |
| SmartDashboard.FlowOrigin | app/src/main/java/com/mhss/app/mybrain/domain/use_case/GetSmartDashboardItemsUseCase.kt:53-57 | every flow item stands for an open task or an event not yet ended |
| Dashboard.WithTaskFor | app/src/main/java/com/mhss/app/mybrain/presentation/main/MainViewModel.kt:115 | same length; the items with the title get the updated task, the others are unchanged |
| Dashboard.DashboardEffects | app/src/main/java/com/mhss/app/mybrain/presentation/main/MainViewModel.kt:69-125 | a task update is issued exactly for a postpone whose item has a task with a due date; snooze and postpone end with a refresh; completing and undoing first set the task's completion |
| Dashboard.ShownTasks | app/src/main/java/com/mhss/app/mybrain/presentation/main/MainViewModel.kt:201 | all tasks when completed ones are shown, otherwise only tasks from the input that are open |
| Dashboard.MainViewModel.constructor | app/src/main/java/com/mhss/app/mybrain/presentation/main/MainViewModel.kt:48-54 | empty state and no suppressed title |
| Dashboard.MainViewModel.HideSuppressed | app/src/main/java/com/mhss/app/mybrain/presentation/main/MainViewModel.kt:99 | only the focus list changes, to its items whose title is not suppressed |
| Dashboard.MainViewModel.OnDashboardEvent | app/src/main/java/com/mhss/app/mybrain/presentation/main/MainViewModel.kt:69-125 | the suppressed set only grows and no shown focus item has a suppressed title; snooze and postpone add the title and hide it; dismiss clears only the nudge; a smart refresh raises only the loading flag; the other events change no state; the effects are those of DashboardEffects |
| Dashboard.MainViewModel.BeginRefreshSmart | app/src/main/java/com/mhss/app/mybrain/presentation/main/MainViewModel.kt:170-171 | the loading flag becomes true before the fetch; nothing else changes |
| Dashboard.MainViewModel.RefreshSmartWith | app/src/main/java/com/mhss/app/mybrain/presentation/main/MainViewModel.kt:172-180 | the focus list becomes the fetched one minus suppressed titles, flow and nudge are copied, loading ends false, nothing else changes |
| Dashboard.MainViewModel.RefreshTasksWith | app/src/main/java/com/mhss/app/mybrain/presentation/main/MainViewModel.kt:197-205 | dashboard tasks are ShownTasks of the emitted list; summary tasks are those created in the last week; nothing else changes |
| Dashboard.MainViewModel.OnCalendarEventsLoaded | app/src/main/java/com/mhss/app/mybrain/presentation/main/MainViewModel.kt:138-149 | only the event map changes, to the loaded one |
| Dashboard.MainViewModel.OnDashboardEntries | app/src/main/java/com/mhss/app/mybrain/presentation/main/MainViewModel.kt:162-165 | only the entries change, to the loaded ones |
| Dashboard.MainViewModel.OnPostponeSaved | app/src/main/java/com/mhss/app/mybrain/presentation/main/MainViewModel.kt:108-114 | a saved postpone shows "Postponed '<title>' by 1 day" and triggers a refresh; a failed one does nothing |
| Dashboard.WithoutTitlesContents | app/src/main/java/com/mhss/app/mybrain/presentation/main/MainViewModel.kt:99 | no remaining item has a suppressed title; every other item stays as often as before, in order |
| Dashboard.WithoutTitlesTwice | app/src/main/java/com/mhss/app/mybrain/presentation/main/MainViewModel.kt:119-120 | hiding by one set and then another is hiding by their union |
| Dashboard.PostponedCopyHidden | app/src/main/java/com/mhss/app/mybrain/presentation/main/MainViewModel.kt:115-120 | once the title is suppressed, the list with the moved task hides to the same list as before the move |
| Dashboard.PostponeEffects | app/src/main/java/com/mhss/app/mybrain/presentation/main/MainViewModel.kt:104-121 | a task update is issued exactly when the first item with the title has a task with a due date, with the due date one day (86400000 ms) later; otherwise the "Can't postpone" snackbar; a refresh follows either way |
| Dashboard.CompleteOffersUndo | app/src/main/java/com/mhss/app/mybrain/presentation/main/MainViewModel.kt:75-90 | completing marks the task complete and offers UndoComplete of the same task; undoing marks it incomplete and offers nothing |
| Dashboard.ShownTasksContents | app/src/main/java/com/mhss/app/mybrain/presentation/main/MainViewModel.kt:201 | with completed tasks shown the list is unchanged; otherwise each open task appears as often as in the input, no completed one, in input order |
| NoteDetails.Save | notes/presentation/src/main/java/com/mhss/app/presentation/NoteDetailsViewModel.kt:180-217 | nothing once the screen is left; nothing for a new note with blank title and content; a new note is added with the AI title only when the title is blank and the reply succeeded, and is then shown with the returned id; an existing note is updated exactly when title or content differ, keeping id and creation date and taking the current time |
| NoteDetails.AiError | notes/presentation/src/main/java/com/mhss/app/presentation/NoteDetailsViewModel.kt:124-156 | no error exactly on success; "Invalid API key", "No internet connection", or the message or "Unknown error" |
| NoteDetails.AiEnabledAsWritten | notes/presentation/src/main/java/com/mhss/app/presentation/NoteDetailsViewModel.kt:82 | as written, the AI counts as on for every id except None's |
| NoteDetails.AiEnabled | notes/presentation/src/main/java/com/mhss/app/presentation/NoteDetailsViewModel.kt:82 | corrected: the AI is on exactly when some provider other than None has the id |
| NoteDetails.NoteDetailsViewModel.constructor | notes/presentation/src/main/java/com/mhss/app/presentation/NoteDetailsViewModel.kt:66-79 | reading mode is on exactly when a note was loaded, and title and content are then the note's |
| NoteDetails.NoteDetailsViewModel.OnAiProviderChanged | notes/presentation/src/main/java/com/mhss/app/presentation/NoteDetailsViewModel.kt:80-84 | the AI is enabled by the corrected rule AiEnabled, not the comparison of line 82 as written (see Findings); nothing else changes |
| NoteDetails.NoteDetailsViewModel.ToggleReadingMode | notes/presentation/src/main/java/com/mhss/app/presentation/NoteDetailsViewModel.kt:101-102 | reading mode flips and nothing else changes |
| NoteDetails.NoteDetailsViewModel.UpdateTitle | notes/presentation/src/main/java/com/mhss/app/presentation/NoteDetailsViewModel.kt:104-107 | the title changes, an autosave is scheduled, nothing else changes |
| NoteDetails.NoteDetailsViewModel.UpdateContent | notes/presentation/src/main/java/com/mhss/app/presentation/NoteDetailsViewModel.kt:109-112 | the content changes, an autosave is scheduled, nothing else changes |
| NoteDetails.NoteDetailsViewModel.DeleteNote | notes/presentation/src/main/java/com/mhss/app/presentation/NoteDetailsViewModel.kt:96-99 | the note is deleted and the screen is marked to be left; nothing else changes |
| NoteDetails.NoteDetailsViewModel.SaveNote | notes/presentation/src/main/java/com/mhss/app/presentation/NoteDetailsViewModel.kt:180-217 | the write, the shown note and the title are those of Save on the state before the call; content, AI state and flag are unchanged |
| NoteDetails.NoteDetailsViewModel.ScreenOnStop | notes/presentation/src/main/java/com/mhss/app/presentation/NoteDetailsViewModel.kt:89-94 | saves as SaveNote does unless the screen is being left |
| NoteDetails.NoteDetailsViewModel.RunAiAction | notes/presentation/src/main/java/com/mhss/app/presentation/NoteDetailsViewModel.kt:114-157 | the prompt is the title prompt for a title action, else ""; loading ends false with the panel shown; the error is AiError of the reply; a result is kept only for a successful non-title action; a successful title action sets the title |
| NoteDetails.NoteDetailsViewModel.AiResultHandled | notes/presentation/src/main/java/com/mhss/app/presentation/NoteDetailsViewModel.kt:159-163 | the panel closes; loading, result and error stay |
| NoteDetails.SaveSettles | notes/presentation/src/main/java/com/mhss/app/presentation/NoteDetailsViewModel.kt:180-217 | saving again after a save, with the same content, writes nothing |
| NoteDetails.AddedNoteId | notes/presentation/src/main/java/com/mhss/app/presentation/NoteDetailsViewModel.kt:200-201 | a new note's id is the returned row id truncated to 32 bits, which is the row id itself when it fits |
| Common.ToInt32 | notes/presentation/src/main/java/com/mhss/app/presentation/NoteDetailsViewModel.kt:201 | Long.toInt(): in the 32-bit range, congruent to the input modulo 2^32, and the input itself when it fits |
| NoteDetails.AiEnabledAsWrittenDisagrees | notes/presentation/src/main/java/com/mhss/app/presentation/NoteDetailsViewModel.kt:82 | as written, id 7 enables the AI although prompts for id 7 go to None |
| NoteDetails.AiEnabledMatchesDispatch | notes/presentation/src/main/java/com/mhss/app/presentation/NoteDetailsViewModel.kt:82 | with the corrected rule the AI is enabled exactly when prompts go to a remote provider |

## Left out

- Coroutines, flows and timing are not modelled. This covers `viewModelScope` launches, job cancellation (`refreshTasksJob`, `smartRefreshJob`, `autoSaveJob`, `aiActionJob`), the 300 ms refresh debounce, the 2 s autosave delay, `combine` and `SharedFlow` emission. Each handler is one atomic step, taken in call order. The one exception is `refreshSmart`, which suspends on its fetch: it is split into `BeginRefreshSmart`, which raises `loadingSmart`, and `RefreshSmartWith`, which stores the fetched data and lowers it.
- Preference reads are inputs: the provider id, URLs, models, keys, the show-completed flag and the task order. The theme, font, lock and screenshot settings of `MainViewModel` are not modelled, and neither is `disableAppLock`: none of them has logic.
- The prompt texts are left out because they are template text: the ranking prompt built with `buildString` and `dueSuffix`, and `autoGenerateTitlePrompt`. The smart dashboard's call to the local model is represented only by its reply.
- The clock is one parameter `now` for each use case call or handler. Where the source reads the clock more than once, for example in `saveNote` or in `invoke` of the smart dashboard, every read is given the same instant; time passing between the reads is not modelled.
- NoteDetails.NoteDetailsViewModel.OnAiProviderChanged: sets `aiEnabled` by the corrected rule `AiEnabled`. As written, line 82 turns the AI on for a stored id that no provider has, and the model does not. The as-written rule is `AiEnabledAsWritten` (see Findings).
- WordCount.CountWords: counts over characters, while Kotlin iterates over UTF-16 code units. The count is the same, because the separators are single units and neither half of a surrogate pair is a separator; this equivalence is not proved.
- Kotlin's Unicode rules are replaced by ASCII-only definitions: `lowercase`, `equals(ignoreCase = true)`, `contains(ignoreCase = true)` and `isBlank`. Letters outside ASCII are compared as they are.
- Dates and times are unbounded integers. A 64-bit overflow of a `Long`, such as postponing a due date near the largest `Long`, is not modelled. The 32-bit truncation of the id `addNote` returns is modelled.
- The `AiProvider` enumeration and `NoteDetailsEvent.kt` are not part of this model. The ids None=0, Gemini=1, OpenAI=2, Grok=3, DeepSeek=4 are assumed, and the proofs rely on this particular assignment: `UnknownProviderUsesOllama`, `RemoteProvidersUseOpenaiClient`, `DefaultModelsAndKeys` and `AiEnabledAsWrittenDisagrees` (id 7 belongs to no provider) are stated with these values. The AI actions are modelled as title generation or another action, each with the content it was given.
- The `Task`, `CalendarEvent` and `DiaryEntry` records are not part of this model. Only the fields the core reads are kept. Task priority is the priority's numeric value.
- `Note()`'s default id is not part of this model and is taken to be 0 for the note passed to `addNote`.
- HTTP and serialization are not modelled: requests, URLs, headers and bodies. Each call's outcome is an input, either a decoded body or the exception raised. OpenaiApi's `toAiMessage` conversion is a parameter.
- `getCalendarEvents`' excluded-calendar lookup and day grouping are performed by the repository. The model receives the grouped map.
- Notes can only be ordered by title, creation date or modification date. Every other order kind is represented by `Priority`, which falls back to the modification date as the source does.
- `StartVoiceInput` does nothing, so no member models it.
- SmartDashboard.GetSmartDashboardItems: its own contract states only the bound on the focus list; the fallback, heuristic, flow and nudge properties are the lemmas next to it.

## Findings

| source | as written | input that shows it | evidently intended | confidence | as-written member | corrected member |
|---|---|---|---|---|---|---|
| notes/presentation/src/main/java/com/mhss/app/presentation/NoteDetailsViewModel.kt:82 | `AiProvider.entries.find { it.id == providerId } != AiProvider.None` compares a nullable lookup with `None`, so an id no provider has enables the AI | stored provider id 7: the AI is enabled, while `SendAiPromptUseCase` (line 28) sends that id's prompts to `None` | the AI is enabled exactly when the provider the prompts go to is not `None` | low, not executed | NoteDetails.AiEnabledAsWritten, NoteDetails.AiEnabledAsWrittenDisagrees | NoteDetails.AiEnabled, NoteDetails.AiEnabledMatchesDispatch |
