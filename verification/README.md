# OpenAI playground: conversation and request-shaping model

This project models the logic layer of a React "OpenAI playground" web app.
The app has a single-chat mode and a two-column compare mode. It keeps a
history log, a list of function definitions, and dialogs that show the
request object the app would send. The model covers:

- **Single chat** (`Chat.tsx`): Run appends a user turn and an assistant turn. When the input is blank, it appends one assistant turn built from the system message instead. Messages can be deleted, disliked, switched between plain and JSON view, and given function data.
- **Compare mode** (`CompareView.tsx`): Send appends the user turn to the left, right and main lists. It then calls the API once per column and appends each reply or error to that column and to main. Each column's menu can sync, clear, move, or show the code of a column.
- **Request shaping** (`playgroundApi.ts`):
  - choosing `max_tokens` or `max_completion_tokens` from the model name;
  - defaulting the sampling settings;
  - sorting a call's outcome into a transport failure, an HTTP failure or a success with its timing;
  - adding the mock model ids to a model listing without duplicates.
- **Page state** (`PlaygroundPage.tsx`): the function list (add, or replace by name), clear, compare-mode toggling, and the history log with its numbering.
- **History panel** (`HistoryPanel.tsx`):
  - the date labels and grouping;
  - 12-hour times;
  - shortened previews;
  - the hover preview, which swaps the main chat for one message and restores it.
- **Function dialog** (`AddFunctionModal.tsx`): the initial text, the save decision, and the generate and example templates.
- **Code dialogs** (`ViewCodeModal.tsx`, `CompareViewCodeModal.tsx`): the request objects they display.

## How the model is built

- Each component whose state the code updates becomes a class whose fields are that state. These are `Playground.Page`, `Chat.ChatPanel`, `Compare.CompareView`, `History.HoverPreview`, `PlaygroundApi.ModelList` and `AddFunction.AddFunctionModal`.
- The message lists belong to the page. The chat and compare components receive its setters, so their methods take the `Page` and modify its fields.
- The list rewrites (`map`, `filter`, spread) are functions. Each method is specified by those functions. Lemmas state what the rewrites preserve: length, order, which messages change, and round trips.
- Clock readings (`Date.now()`), fresh ids (`Date.now() + Math.random()`) and the network's answer are parameters.
- `JSON.parse` is abstracted as its outcome on the text: a syntax error, the document `null`, or a document with or without a string `name`.
- `JSON.stringify` of `{role, content}` is written out concretely: two-space indentation and JSON string escaping. A lemma shows that the escaping can be undone.
- Strings are sequences of Unicode code points. Where the app measures or cuts text with JavaScript's `length` and `slice`, the model counts UTF-16 code units instead (`Text.Utf16Length`, `Text.Utf16Prefix`). Other JavaScript semantics the model relies on are written out:
  - `trim` removes ECMAScript white space and line terminators;
  - `||` falls back on `""` and `0`, and `??` falls back on `null` and `undefined`;
  - `String(n)` is the decimal rendering;
  - `padStart(2, '0')` pads to two digits;
  - `resp.ok` means a status from 200 to 299;
  - `String(err)` of an `Error` is `name: message`.

## Behaviour of the code worth knowing

- A blank-input Run also appends the "(Using function data: …)" note of the first assistant message that has function data. In that case its original text becomes the extended text (`Chat.tsx:131-137`).
- Switching a message to JSON view and back does not always restore its text. Starting from plain view, the text becomes `originalContent ?? ""`. Starting from JSON view, it becomes the JSON rendering again. The toggle is its own inverse exactly when the shown text is in step with the view (`Chat.ToggleJsonRoundTrip`).
- With an empty system message, the blank-input turn shows "(System empty)" but keeps `""` as its original text. Its JSON view therefore renders the empty text (`Chat.EmptySystemTurnLosesPlaceholder`).
- The compare view's requests send each message's displayed `content`, not its `originalContent`. The code dialogs show `originalContent` (`CompareView.tsx:316-319`).
- `listModels` rethrows a transport error unchanged. Only a non-ok status gets the "Error al listar modelos" message (`playgroundApi.ts:36-45`).
- The generate template inserts the prompt without escaping it. A prompt containing `"` can therefore produce text that is not valid JSON.

## Model

| member | source | states |
|---|---|---|
| Text.Trim | src/components/chat/Chat.tsx:93 | `trim` removes exactly the leading and trailing white space: the result is a slice whose surroundings are blank, empty exactly when the input is blank, otherwise starting and ending with a non-space |
| Text.TrimIdempotent | src/components/chat/Chat.tsx:98 | trimming twice is trimming once |
| Text.DecimalRoundTrip | src/components/history/HistoryPanel.tsx:245 | `String(n)` reads back as `n` |
| Text.Pad2 | src/components/history/HistoryPanel.tsx:245 | `padStart(2,'0')` of a number below 100 is two digits with that value |
| Text.Utf16Prefix | src/components/history/HistoryPanel.tsx:252-253 | the cut is a prefix of at most the limit in UTF-16 units, and it is the whole text or the next character would exceed the limit |
| Text.Utf16BmpPrefix | src/components/history/HistoryPanel.tsx:252-253 | for text without astral characters, the UTF-16 cut is the ordinary cut at the limit |
| Text.ContainsIff | src/services/playgroundApi.ts:104 | `includes` holds exactly when the substring occurs at some position |
| Json.Escape | src/components/chat/Chat.tsx:171-174 | the escaped text is between one and six times as long as the input and holds no control character |
| Json.RoleContentView | src/components/chat/Chat.tsx:171-174 | the JSON view of a message with text starts with the role header and the `"content": "` key, ends with the closing quote and brace, and the part in between unescapes to the text; with no text it is the role header and the closing brace |
| Json.UnescapeRoundTrip | src/components/chat/Chat.tsx:171-174 | the JSON string escaping used in the JSON view can be undone exactly |
| Playground.ReplaceByName | src/pages/PlaygroundPage.tsx:71-75 | the list keeps its length and every entry keeps its name |
| Playground.ReplaceByNameAt | src/pages/PlaygroundPage.tsx:71-75 | replacing by name keeps length and order, puts the update at every index whose name matches and leaves every other entry unchanged |
| Playground.ReplaceByNameNoMatch | src/pages/PlaygroundPage.tsx:71-75 | an update whose name matches no entry leaves the list unchanged |
| Playground.ReplaceByNameIdempotent | src/pages/PlaygroundPage.tsx:71-75 | applying the same update twice is applying it once |
| Playground.HistoryItems | src/pages/PlaygroundPage.tsx:170-175 | one history row per record, row `i` numbered `i` |
| Playground.HistoryItemsAt | src/pages/PlaygroundPage.tsx:170-175 | row `i` has id `i`, the role and content of record `i`, and the clock's `i`-th reading as its timestamp (each row takes its own `new Date()`) |
| Playground.Page.constructor | src/pages/PlaygroundPage.tsx:32-62 | all lists start empty, compare mode and history start closed |
| Playground.Page.AddFunction | src/pages/PlaygroundPage.tsx:68-70 | the new definition is appended at the end |
| Playground.Page.UpdateFunction | src/pages/PlaygroundPage.tsx:71-75 | the list becomes the replace-by-name rewrite, same length |
| Playground.Page.Clear | src/pages/PlaygroundPage.tsx:92-94 | only the main chat is emptied; functions, history and side lists are not in the frame |
| Playground.Page.ToggleHistory | src/pages/PlaygroundPage.tsx:97-99 | the history flag flips |
| Playground.Page.ToggleCompare | src/pages/PlaygroundPage.tsx:102-109 | the mode flips; entering copies the main chat into both sides, leaving touches no list |
| Playground.Page.AddHistory | src/pages/PlaygroundPage.tsx:135 | each reported message is appended to the log in arrival order |
| Playground.Page.ClearHistory | src/pages/PlaygroundPage.tsx:177 | the log becomes empty |
| Chat.SendTurns | src/components/chat/Chat.tsx:92-141 | a Run yields two turns for non-blank input and one for blank input; the first takes the clock's id, the last is an assistant turn, a non-blank Run starts with a user turn; every turn has an original text and is neither disliked, nor in JSON view, nor carrying function data |
| Chat.FindFunctionData | src/components/chat/Chat.tsx:112-114 | finds the first assistant message with non-empty function text and response, and none exists before it; `None` exactly when no message qualifies |
| Chat.SendNonBlank | src/components/chat/Chat.tsx:93-120 | non-blank input yields exactly two turns, user then assistant; the user turn shows and keeps the trimmed input; the assistant turn answers it, extended by the first function-data note when there is one, and keeps its shown text as original text |
| Chat.SendBlank | src/components/chat/Chat.tsx:123-139 | blank input yields exactly one assistant turn showing the trimmed system message or "(System empty)", with the trimmed system message as original text unless a function-data note extends both |
| Chat.EmptySystemTurnLosesPlaceholder | src/components/chat/Chat.tsx:128-129 | for an empty system message the shown text is "(System empty)" while the original text is empty |
| Chat.DeleteById | src/components/chat/Chat.tsx:144-146 | the list does not grow and no message with the deleted id remains |
| Chat.DeleteByIdMembers | src/components/chat/Chat.tsx:144-146 | after delete a message is present exactly when it was present with another id; an absent id leaves the list unchanged |
| Chat.DeleteByIdAppend | src/components/chat/Chat.tsx:144-146 | delete works piecewise over a concatenation, so survivors keep their order |
| Chat.DeleteAfterAppend | src/components/chat/Chat.tsx:144-146 | deleting a freshly appended message's id restores the list |
| Chat.SendThenDelete | src/components/chat/Chat.tsx:92-146 | deleting both turns of a non-blank Run by their fresh ids restores the conversation |
| Chat.ToggleDislike | src/components/chat/Chat.tsx:150-155 | the length is kept; each message changes at most its dislike flag |
| Chat.ToggleDislikeAt | src/components/chat/Chat.tsx:150-155 | the dislike flag flips on the matching messages; length, order and all other messages and fields are unchanged |
| Chat.ToggleDislikeTwice | src/components/chat/Chat.tsx:150-155 | toggling dislike twice restores the list |
| Chat.ToggleJsonView | src/components/chat/Chat.tsx:170-179 | one toggle flips the view flag, changes only the shown text and leaves the message showing the text of its new view |
| Chat.ToggleJson | src/components/chat/Chat.tsx:167-184 | the length is kept; each message changes at most its view flag and shown text, and a toggled message shows the text of its new view |
| Chat.ToggleJsonAt | src/components/chat/Chat.tsx:167-184 | a matching message in plain view shows the JSON rendering of its role and original text; one in JSON view shows its original text or `""`; the view flag flips, the original text and all other messages are unchanged |
| Chat.ToggleJsonViewTwice | src/components/chat/Chat.tsx:170-179 | a double toggle of one message restores everything except that its shown text becomes the text of its view |
| Chat.ToggleJsonTwice | src/components/chat/Chat.tsx:167-184 | a double toggle of the list keeps length, leaves other messages alone and resets matching messages' shown text to their view's text |
| Chat.ToggleJsonRoundTrip | src/components/chat/Chat.tsx:167-184 | when the matching messages show their view's text, toggling twice restores the list exactly |
| Chat.SelectFunctionFor | src/components/chat/Chat.tsx:200-210 | the length is kept; each message changes at most its function text and response |
| Chat.SetFunctionJson | src/components/chat/Chat.tsx:234-241 | the length is kept; each message changes at most its function text |
| Chat.SetFunctionResponse | src/components/chat/Chat.tsx:242-249 | the length is kept; each message changes at most its function response |
| Chat.SelectFunctionAt | src/components/chat/Chat.tsx:200-210 | attaching a function sets its definition text and an empty response on the matching messages only |
| Chat.SetFunctionJsonAt | src/components/chat/Chat.tsx:234-241 | editing the function text changes that one field of the matching messages only |
| Chat.SetFunctionResponseAt | src/components/chat/Chat.tsx:242-249 | editing the function response changes that one field of the matching messages only |
| Chat.ChatPanel.constructor | src/components/chat/Chat.tsx:67-78 | the system message starts as the default text, the input empty, no functions popup |
| Chat.ChatPanel.EditInput | src/components/chat/Chat.tsx:411 | the input becomes the typed text |
| Chat.ChatPanel.SubmitGeneratedSystemMessage | src/components/chat/Chat.tsx:221-224 | a generated text replaces the system message |
| Chat.ChatPanel.Send | src/components/chat/Chat.tsx:92-141 | the Run turns are appended to the conversation and, in the same order, to the history log; non-blank input is cleared, blank input is kept |
| Chat.ChatPanel.DeleteMessage | src/components/chat/Chat.tsx:144-146 | the conversation becomes the delete rewrite |
| Chat.ChatPanel.ToggleDislikeMessage | src/components/chat/Chat.tsx:149-156 | the conversation becomes the dislike rewrite |
| Chat.ChatPanel.ToggleJsonMessage | src/components/chat/Chat.tsx:167-184 | the conversation becomes the JSON-view rewrite |
| Chat.ChatPanel.OpenFunctionsPopup | src/components/chat/Chat.tsx:187-191 | the popup remembers the message id |
| Chat.ChatPanel.CloseFunctionsPopup | src/components/chat/Chat.tsx:192-195 | the popup forgets the message id |
| Chat.ChatPanel.SelectFunction | src/components/chat/Chat.tsx:198-212 | with no remembered id or id 0 nothing changes; otherwise the function is attached to that id's messages and the popup closes |
| Chat.ChatPanel.ChangeFunctionJson | src/components/chat/Chat.tsx:234-241 | the conversation becomes the function-text rewrite |
| Chat.ChatPanel.ChangeFunctionResponse | src/components/chat/Chat.tsx:242-249 | the conversation becomes the function-response rewrite |
| History.GetWeekday | src/components/history/HistoryPanel.tsx:230-233 | the weekday label is the upper-cased entry of the 7-name table, all capital letters |
| History.FormatMonth | src/components/history/HistoryPanel.tsx:235-238 | the month label is the upper-cased entry of the 12-name table, three letters |
| History.DateKey | src/components/history/HistoryPanel.tsx:218-223 | the date label starts with the weekday label and a comma and ends with the decimal year |
| History.DateKeyInjective | src/components/history/HistoryPanel.tsx:218-219 | two timestamps get the same date label exactly when they have the same weekday, month, day and year |
| History.WithKey | src/components/history/HistoryPanel.tsx:216-228 | a group is no longer than the input and every record in it carries the group's label |
| History.WithKeyMembers | src/components/history/HistoryPanel.tsx:216-228 | a group holds exactly the records carrying its label |
| History.WithKeyAppend | src/components/history/HistoryPanel.tsx:216-228 | grouping works piecewise over a concatenation, so a group keeps input order |
| History.ExactlyOneGroup | src/components/history/HistoryPanel.tsx:216-228 | each record lies in the group of its own label and in no other |
| History.GroupHistoryByDate | src/components/history/HistoryPanel.tsx:216-228 | the loop's map has a key exactly for the labels that occur, and each key maps to its records in input order |
| History.ClockHour | src/components/history/HistoryPanel.tsx:241-244 | the 12-hour clock shows 12 for hours 0 and 12, the hour itself for 1-11 and hour-12 for 13-23 |
| History.TimeText | src/components/history/HistoryPanel.tsx:240-247 | hour 0 is "12:mm AM", 1-11 AM, 12 is "12:mm PM", 13-23 are hour-12 PM, minutes padded to two digits |
| History.TimeTextInjective | src/components/history/HistoryPanel.tsx:240-247 | the shown time determines the hour and the minute |
| History.FormatTime | src/components/history/HistoryPanel.tsx:240-247 | the step-by-step computation yields the shown time |
| History.RenderShortContent | src/components/history/HistoryPanel.tsx:249-256 | the role prefix, then "<empty>" for empty content, the content when it is at most 60 UTF-16 units long, otherwise its UTF-16 cut at 60 and "..."; the body is at most 63 UTF-16 units |
| History.HoverPreview.constructor | src/components/history/HistoryPanel.tsx:137 | no snapshot at first |
| History.HoverPreview.Preview | src/components/history/HistoryPanel.tsx:146-153 | the preview message copies role and content, keeps the content as original text, is neither disliked nor in JSON view |
| History.HoverPreview.MouseEnter | src/components/history/HistoryPanel.tsx:142-154 | the whole chat is saved and replaced by the single preview message |
| History.HoverPreview.MouseLeave | src/components/history/HistoryPanel.tsx:157-163 | a saved chat is restored and forgotten; with none saved nothing changes |
| History.HoverPreview.HoverAndLeave | src/components/history/HistoryPanel.tsx:142-163 | enter then leave restores the chat exactly and leaves no snapshot |
| PlaygroundApi.MaxTokensParam | src/services/playgroundApi.ts:98-110 | no limit field exactly when no limit is set; `max_tokens` exactly when the model name contains "gpt-3.5" or "gpt-4", `max_completion_tokens` otherwise; the value passes through |
| PlaygroundApi.MaxTokensByOccurrence | src/services/playgroundApi.ts:104-105 | `max_tokens` is chosen exactly when "gpt-3.5" or "gpt-4" occurs somewhere in the model name |
| PlaygroundApi.BuildBody | src/services/playgroundApi.ts:120-131 | model and messages are copied; temperature and top_p default to 1, the penalties to 0, given values pass through; the limit field is the one chosen above |
| PlaygroundApi.ErrorString | src/services/playgroundApi.ts:146 | `String(err)` is the error's name and message joined by ": " when both are present, otherwise whichever is present; it is empty only when both are |
| PlaygroundApi.NetworkError | src/services/playgroundApi.ts:146 | the transport failure message is "Error de red o CORS: " followed by `String(err)` |
| PlaygroundApi.HttpError | src/services/playgroundApi.ts:149-150 | the HTTP failure message is "Error en createChatCompletion: ", then the decimal status, and ends with the status text |
| PlaygroundApi.ListError | src/services/playgroundApi.ts:36-37 | the listing failure message is "Error al listar modelos: ", then the decimal status, and ends with the status text |
| PlaygroundApi.HttpErrorMentionsStatus | src/services/playgroundApi.ts:150 | the HTTP failure message contains the status and the status text |
| PlaygroundApi.ErrorKindsDistinct | src/services/playgroundApi.ts:146-150 | the transport failure message starts with "Error de red o CORS: ", the HTTP one does not, so they never coincide |
| PlaygroundApi.Outcome | src/services/playgroundApi.ts:133-157 | success exactly for a response with status 200-299, carrying the body and `t1 - t0`; a transport failure and a non-ok status give their messages |
| PlaygroundApi.CreateChatCompletion | src/services/playgroundApi.ts:116-158 | the body sent is the defaulted body and the result is the classified outcome |
| PlaygroundApi.PushIfAbsent | src/services/playgroundApi.ts:12-16 | the id is present afterwards, the old list is a prefix and at most one entry is added; a present id leaves the list unchanged |
| PlaygroundApi.InjectAll | src/services/playgroundApi.ts:10-22 | the old list is a prefix and at most one entry per injected id is added |
| PlaygroundApi.WithMockModels | src/services/playgroundApi.ts:17-20 | the old list is a prefix and at most the four mock ids are added |
| PlaygroundApi.InjectAllShape | src/services/playgroundApi.ts:10-22 | injecting distinct ids keeps the list as a prefix and appends exactly the missing ids, in their order |
| PlaygroundApi.InjectAllPresent | src/services/playgroundApi.ts:12-16 | after injecting, every injected id and every earlier id is present |
| PlaygroundApi.InjectAllUnique | src/services/playgroundApi.ts:12-16 | injecting never creates a duplicate id |
| PlaygroundApi.MockModelsShape | src/services/playgroundApi.ts:17-20 | the four mock ids are present, existing entries keep their places, the missing mocks follow in order |
| PlaygroundApi.MockModelsIdempotent | src/services/playgroundApi.ts:10-22 | injecting the mocks twice is injecting them once |
| PlaygroundApi.MockModelsUnique | src/services/playgroundApi.ts:10-22 | a list without duplicate ids stays without duplicates |
| PlaygroundApi.ModelList.constructor | src/services/playgroundApi.ts:11 | the list is the listing's `data` |
| PlaygroundApi.ModelList.CheckAndPush | src/services/playgroundApi.ts:12-16 | an id is pushed only when absent |
| PlaygroundApi.ModelList.InjectMockModels | src/services/playgroundApi.ts:10-22 | the four in-place pushes give the mock-model rewrite of the old list |
| PlaygroundApi.ListModels | src/services/playgroundApi.ts:28-46 | a transport error is rethrown unchanged; a non-ok status throws "Error al listar modelos: status text"; an ok listing is returned with the mocks injected |
| Compare.Reidentify | src/components/compare/CompareView.tsx:264 | copies keep length, order and every field except the id, which comes from the fresh-id source |
| Compare.MenusMirror | src/components/compare/CompareView.tsx:259-292 | the right menu is the left menu with the sides swapped |
| Compare.SyncLeft | src/components/compare/CompareView.tsx:264 | sync makes the left side a copy of the right side, each message with the next fresh id; the right side is unchanged |
| Compare.SyncLeftDistinct | src/components/compare/CompareView.tsx:264 | when the fresh ids are distinct from each other and from the old ones, the ids after sync are all distinct |
| Compare.MoveRight | src/components/compare/CompareView.tsx:267-272 | move-right appends fresh-id copies of the left side to the right side and empties the left |
| Compare.MoveRightDistinct | src/components/compare/CompareView.tsx:267-272 | when the fresh ids are distinct from each other and from the old ones, the ids after a move are all distinct |
| Compare.LeftAction | src/components/compare/CompareView.tsx:259-275 | sync and clear keep the right side, sync makes both sides equally long, a move empties the left side and keeps the total number of messages, other actions change nothing |
| Compare.RightAction | src/components/compare/CompareView.tsx:277-292 | the mirror image of the left menu |
| Compare.OtherLeftActions | src/components/compare/CompareView.tsx:259-275 | clear empties only the left side; view-code and unknown actions change no list |
| Compare.Project | src/components/compare/CompareView.tsx:316-319 | each message, in order, is sent as its role and displayed content |
| Compare.UserTurn | src/components/compare/CompareView.tsx:296-304 | the user turn takes the clock's id, shows a trimmed text that it also keeps as original text, is neither disliked nor in JSON view, and is empty exactly when the input is blank |
| Compare.ReplyText | src/components/compare/CompareView.tsx:327 | the reply text is never empty: the first choice's text when it is non-empty, otherwise "(sin respuesta)" |
| Compare.ReplyTurn | src/components/compare/CompareView.tsx:327-356 | a reply is a fresh assistant turn that keeps its shown text as original text and carries no function data |
| Compare.TimingAfter | src/components/compare/CompareView.tsx:336-345 | a failed call keeps the old metrics; a successful one records the measured time, the response id or "" without one, and the reported token counts or 0 and 0 without usage |
| Compare.ReplyTurnShape | src/components/compare/CompareView.tsx:327-356 | a column's reply is an assistant turn with the reply text or "(sin respuesta)" on success, and "Error (column): " plus the message on failure |
| Compare.HttpFailureShowsStatus | src/components/compare/CompareView.tsx:346-356 | a non-ok status yields an error turn that mentions the status |
| Compare.TimingDefaults | src/components/compare/CompareView.tsx:337-345 | without usage the metrics are the measured time, 0, 0 and the response id or ""; without an id as well, the id is "" |
| Compare.CompareView.constructor | src/components/compare/CompareView.tsx:164-212 | both columns start on "gpt-4", the default settings, "text" format, no functions and empty metrics |
| Compare.CompareView.EditInput | src/components/compare/CompareView.tsx:513 | the input becomes the typed text |
| Compare.CompareView.DoLeftAction | src/components/compare/CompareView.tsx:259-275 | the sides become the left menu's rewrite, view-code opens the left dialog, the menu closes |
| Compare.CompareView.DoRightAction | src/components/compare/CompareView.tsx:277-292 | the sides become the right menu's rewrite, view-code opens the right dialog, the menu closes |
| Compare.CompareView.CallColumn | src/components/compare/CompareView.tsx:313-356 | one column's call sends the defaulted body of its history and yields its reply turn and metrics |
| Compare.CompareView.RunLeft | src/components/compare/CompareView.tsx:313-356 | the left reply is appended to the left list and to main, and the left metrics are updated |
| Compare.CompareView.RunRight | src/components/compare/CompareView.tsx:359-402 | the right reply is appended to the right list and to main, and the right metrics are updated |
| Compare.CompareView.Exchange | src/components/compare/CompareView.tsx:306-402 | for a built user turn: it is appended to all three lists and the input is cleared; each column's request holds its old list plus the turn; each column gains its reply turn, also appended to main, left before right; each column's metrics are updated from its own call |
| Compare.CompareView.Send | src/components/compare/CompareView.tsx:295-403 | blank input changes nothing; otherwise the trimmed user turn goes to all three lists, each column's request holds its old list plus that turn, each column gains one reply turn also appended to main, left before right, and the input is cleared |
| AddFunction.InitialDefinition | src/components/modals/AddFunctionModal.tsx:113-122 | the dialog opens with the edited definition's text when non-empty, otherwise the default template |
| AddFunction.SaveDecision | src/components/modals/AddFunctionModal.tsx:125-137 | unparsable text or `null` is rejected with "Invalid JSON format"; otherwise the definition keeps the text verbatim and takes the parsed name or "Unnamed Function", never an empty name |
| AddFunction.GeneratedDefinition | src/components/modals/AddFunctionModal.tsx:153-160 | the generated text is the "generated_fn" header, the prompt and the fixed closing part, with the lengths adding up |
| AddFunction.ExampleTemplate | src/components/modals/AddFunctionModal.tsx:195-240 | "get_weather" fills in the weather template, every other choice the stock-price template |
| AddFunction.GeneratedEmbedsPrompt | src/components/modals/AddFunctionModal.tsx:153-160 | the prompt can be read back from between the header and the closing part of the generated template, so distinct prompts give distinct texts |
| AddFunction.ExampleChoice | src/components/modals/AddFunctionModal.tsx:195-240 | the filled-in text carries, as its second line, the `"name": "get_weather"` line exactly when "get_weather" was chosen and the `"name": "get_stock_price"` line for every other choice |
| AddFunction.AddFunctionModal.constructor | src/components/modals/AddFunctionModal.tsx:106-122 | the text starts as the initial definition, both popups closed |
| AddFunction.AddFunctionModal.EditText | src/components/modals/AddFunctionModal.tsx:261 | the text becomes the typed text |
| AddFunction.AddFunctionModal.Save | src/components/modals/AddFunctionModal.tsx:125-137 | a rejected text changes nothing and keeps the dialog open; an accepted definition is appended (add mode) or replaces by name (edit mode) and the dialog closes |
| AddFunction.AddFunctionModal.OverlayClick | src/components/modals/AddFunctionModal.tsx:140-144 | a click on the overlay itself closes the dialog |
| AddFunction.AddFunctionModal.OpenGeneratePopup | src/components/modals/AddFunctionModal.tsx:148-151 | the generate popup opens |
| AddFunction.AddFunctionModal.CloseGeneratePopup | src/components/modals/AddFunctionModal.tsx:152 | the generate popup closes |
| AddFunction.AddFunctionModal.SubmitGenerate | src/components/modals/AddFunctionModal.tsx:153-163 | the text becomes the generated template and the generate popup closes |
| AddFunction.AddFunctionModal.ExamplesClick | src/components/modals/AddFunctionModal.tsx:188-192 | the examples popup is anchored and toggles |
| AddFunction.AddFunctionModal.DocumentMouseDown | src/components/modals/AddFunctionModal.tsx:173-186 | a mouse-down outside an open examples popup closes it; anything else changes nothing |
| AddFunction.AddFunctionModal.SelectExample | src/components/modals/AddFunctionModal.tsx:195-243 | the text becomes the chosen example's template and the examples popup closes |
| ViewCode.ProjectMessages | src/components/modals/ViewCodeModal.tsx:97-100 | one payload message per message, in order, with its role and original text (absent when absent) |
| ViewCode.ProjectMessagesIff | src/components/modals/ViewCodeModal.tsx:97-100 | two conversations give the same payload messages exactly when they agree on roles and original texts |
| ViewCode.CreatePayload | src/components/modals/ViewCodeModal.tsx:87-102 | the model is always "gpt-4o", the settings are copied, the messages projected; there is no functions or format field |
| ViewCode.PayloadIgnoresDisplay | src/components/modals/ViewCodeModal.tsx:97-100 | JSON-view and dislike toggles leave the shown request unchanged |
| CompareCode.Title | src/components/compare/CompareViewCodeModal.tsx:124 | the title is "LEFT code" or "RIGHT code" |
| CompareCode.ProjectFunctions | src/components/compare/CompareViewCodeModal.tsx:110-113 | one entry per function, in order, with its name and definition text |
| CompareCode.ProjectFunctionsIdentity | src/components/compare/CompareViewCodeModal.tsx:110-113 | the function projection loses nothing |
| CompareCode.BuildPayload | src/components/compare/CompareViewCodeModal.tsx:98-119 | side, model, format and settings are copied; functions and messages are projected |
| CompareCode.AgreesWithViewCode | src/components/compare/CompareViewCodeModal.tsx:114-117 | a column's dialog shows the same messages and settings as the playground's dialog; the models agree exactly when the column's model is "gpt-4o" |

## Left out

- PlaygroundApi.Outcome, Compare.ReplyTurn: a successful response whose body decodes to `null` is not representable; the modelled response always carries a completion record. In the app, `data.choices` then throws (`CompareView.tsx:326`) and the column shows an "Error (left): …" or "Error (right): …" turn.
- Network I/O: `fetch`, URLs, headers and API keys are left out. A call's result (transport failure, or a response with status, status text and body) is an input. A failing `resp.json()` is not modelled.
- The speech, transcription, image, moderation and embedding wrappers (`playgroundApi.ts:160-507`) are left out. They only marshal requests.
- The popups that call the API (system-message and definition generators) are left out. They only forward the reply text. What reaches the dialogs is modelled (`SubmitGeneratedSystemMessage`, `SubmitGenerate`).
- Async interleaving and React batching are left out. Each handler runs as one sequential method. The compare Send takes the left call's outcome before the right call's.
- The effect that re-copies the main chat into both sides whenever it changes (`CompareView.tsx:237-240`) is left out.
- Clock values and random ids are parameters. `Date.now() + Math.random()` copies take their ids from a supplied fresh-id source that is required to be distinct.
- Date objects are reduced to the fields the panel reads: year, month, day, weekday, hours and minutes. Time zones are not modelled.
- The history panel's ordering of the groups for display (`HistoryPanel.tsx:186-187`) is not part of this model. Only the grouping itself is.
- `JSON.parse` is abstracted as its outcome. A parsed `name` that is a truthy non-string (a number, an object) is not represented.
- Sliders, `parseFloat` and `toFixed` are left out. The sampling settings are opaque reals that are only copied or defaulted.
- Presentation is left out: styling, popup positions from `DOMRect`, the sidebar, the header, dislike feedback staging, attachments, and the response-format and function-viewing dialogs.
- Message roles other than user and assistant (`system`, `function` in the API types) are not modelled. No core handler creates them.
- Strings are modelled as sequences of Unicode code points, so a string holding a lone surrogate cannot be represented.
- History.RenderShortContent: when the 60th UTF-16 unit falls inside a surrogate pair, the app keeps a lone high surrogate, while the model's cut stops before that character.
- Compare.Project: follows the code in sending the displayed `content` of each message. After a JSON toggle, a compare request therefore carries the JSON rendering.
