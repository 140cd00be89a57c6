# FEEmhaN FooDieS digital concierge — a Dafny model of its local state logic

The concierge is a single-page front end for a restaurant. A hosted
generative-AI service does the talking. The page keeps a small record of UI
state (`AppState`): the order, the reservation, the chat transcript, a few
flags, the caller persona and a bounded "integration log". It updates that
record when the hosted model calls one of three tools (`update_order`,
`book_reservation`, `transfer_to_staff`), when the user sends a text message,
and when live-session messages arrive. It also queues decoded audio chunks so
that they play back to back.

This project models that local, deterministic logic:

- `types.dfy` (module `Types`): the records of `types.ts` as datatypes.
- `menu.dfy` (module `Menu`): the `MENU` constant, with prices in cents.
- `text.dfy` (module `Text`): the JavaScript string operations the page uses
  (`toLowerCase`, `includes`, `replace` with a string pattern and a
  replacement without `$` patterns, `trim` as an emptiness test, decimal
  rendering of an integer).
- `concierge.dfy` (module `Concierge`): `addLog`, `getVoiceName`,
  `getSystemInstruction`, item resolution against the menu, `handleToolCall`
  with its three branches and its fallback, the `for` loop over tool calls,
  the text-chat path of `handleSendMessage`, the transcript and tool-call part
  of the live `onmessage` handler, and `totalAmount`. The `setState(prev =>
  ...)` updates become pure transition functions over `AppState`; the loop
  over tool calls is a method proved against the fold `ApplyCalls`.
- `playback.dfy` (module `Playback`): the playback queue as a class whose
  `Play` method updates `nextStartTime` in place and adds the new source to
  the `sources` set, plus the scheduling step as a function and a lemma that
  a run of chunks never overlaps.

Inputs that the page takes from outside are parameters: the hosted model's
tool calls and reply text (`FunctionCall`, `ChatOutcome`, `LiveMessage`), the
values of `new Date()` (integer timestamps) and `toLocaleTimeString()` (the
`clock` string), the values of `Math.random()` (`Draws`), and the output
clock's `currentTime` and each decoded buffer's `duration`. The dispatcher
takes the menu as a parameter `menu`; the page always passes `Menu.MENU`, and
the lemmas about item resolution are stated for `Menu.MENU`.

## Model

| member | source | states |
|---|---|---|
| `Menu.MenuWellFormed` | constants.ts:4-11 | The menu has six dishes with non-empty ids and names, positive prices and distinct ids, so a found dish's id and name never fall back to the defaults. |
| `Concierge.InitialState` | App.tsx:10-21 | The page starts with an empty order, no reservation, no handoff, not thinking, not calling, one greeting from the model, the Either/Young persona and a bounded log. |
| `Concierge.AddLog` | App.tsx:38-40 | The new line is at index 0, the rest is the old list's prefix in the same order, and the length is min(old length + 1, 15). |
| `Concierge.AddLogsNewestFirst` | App.tsx:38-40 | After logging up to 15 messages in a row, they appear newest first in front, followed by the old entries in order, cut so the log never exceeds 15. |
| `Concierge.VoiceName` | App.tsx:52-60 | The voice is Charon exactly for 'Either'; Fenrir or Kore exactly for an Old male or female; Fenrir or Puck exactly for male; Kore or Zephyr exactly for female. |
| `Concierge.VoiceTable` | App.tsx:52-60 | The full persona-to-voice table; Baby is voiced like Young. |
| `Concierge.SystemInstruction` | App.tsx:46-49 | `getSystemInstruction`; specified by `Concierge.SystemInstructionSpec` and `Concierge.SystemInstructionWithoutPlaceholder`. |
| `Concierge.SystemInstructionSpec` | App.tsx:46-49 | When the placeholder first occurs at i, the prompt is the template with that one occurrence replaced by "gender, age"; later placeholders remain. |
| `Concierge.SystemInstructionWithoutPlaceholder` | App.tsx:46-49 | A template without the placeholder is used unchanged. |
| `Text.LowerChar` | App.tsx:66 | Lower-casing maps A-Z to a-z and leaves every other character alone. |
| `Text.Lower` | App.tsx:66 | The ASCII lower-casing keeps the length and lower-cases each character in place. |
| `Text.IndexOf` | App.tsx:66 | The result is the first occurrence of the pattern; none is reported exactly when the pattern occurs nowhere. |
| `Text.Includes` | App.tsx:66 | `s.includes(pat)`; specified by `Text.IncludesIff`. |
| `Text.IncludesIff` | App.tsx:66 | `includes` holds iff the pattern occurs at some index; the empty pattern occurs at index 0 of every string. |
| `Text.ReplaceFirst` | App.tsx:48 | `replace` with a string pattern; specified by `Text.ReplaceFirstSpec`. |
| `Text.ReplaceFirstSpec` | App.tsx:48 | `replace` with a string pattern rewrites only the first occurrence and leaves a string without one unchanged. |
| `Text.NatToString` | App.tsx:76 | The decimal rendering is a non-empty string of digits that denotes n (by the independent `DigitsValue`), with a leading '0' only for n = 0, one digit exactly for n < 10. |
| `Concierge.FindMenuItem` | App.tsx:66 | A dish is found iff some dish's lower-cased name contains the lower-cased request, and the one found is the first such dish. |
| `Concierge.QuantityOrOne` | App.tsx:70 | The quantity is never 0; it is the requested one when that is present and non-zero, and 1 otherwise. |
| `Concierge.ResolveItem` | App.tsx:65-74 | One step of `items.map`; specified by `Concierge.ResolveItemSpec`. |
| `Concierge.ResolveItemSpec` | App.tsx:65-74 | A hit takes id, name and price from the first matching menu dish; a miss keeps the requested name, uses the random id and price 0; notes pass through. |
| `Concierge.EmptyNameTakesFirstDish` | App.tsx:66 | An empty requested name matches, and resolves to, the first menu dish. |
| `Concierge.ResolveItems` | App.tsx:65-74 | One order line per requested item, in request order, each resolved on its own. |
| `Concierge.TicketNumber` | App.tsx:76 | The POS order number drawn from `Math.random()` is always between 1000 and 9999. |
| `Concierge.HandoffReason` | App.tsx:91 | The logged reason is the given one when non-empty, and 'Complex Query' otherwise. |
| `Concierge.HandleToolCall` | App.tsx:62-95 | `handleToolCall`; specified by `Concierge.ToolStatusSpec`, the three branch lemmas below and `Concierge.HandleToolCallFrame`. |
| `Concierge.UpdateOrder` | App.tsx:63-79 | The `update_order` branch; specified by `Concierge.UpdateOrderSpec` and `Concierge.UpdateOrderLogsSpec`. |
| `Concierge.BookReservation` | App.tsx:82-88 | The `book_reservation` branch; specified by `Concierge.BookReservationSpec`. |
| `Concierge.TransferToStaff` | App.tsx:89-93 | The `transfer_to_staff` branch; specified by `Concierge.TransferToStaffSpec`. |
| `Concierge.ToolResultFor` | App.tsx:80-94 | Exactly the three known tool names report success; any other name gets the error reply. |
| `Concierge.ToolStatusSpec` | App.tsx:62-95 | The dispatcher's reply depends on the tool name alone, and an unknown tool changes nothing. |
| `Concierge.UpdateOrderSpec` | App.tsx:63-75 | `update_order` appends one resolved item per request, in order, after the unchanged old order; the total grows by their subtotals; reservation, handoff flag, transcript, flags and persona are unchanged. |
| `Concierge.UpdateOrderLogsSpec` | App.tsx:76-79 | `update_order` logs four lines, POS sync oldest and payment link newest, ahead of the old entries, within the bound of 15. |
| `Concierge.BookReservationSpec` | App.tsx:82-88 | `book_reservation` replaces only the reservation and logs the calendar and SMS lines; it reports success. |
| `Concierge.TransferToStaffSpec` | App.tsx:89-93 | `transfer_to_staff` only raises the handoff flag and logs the reason, defaulting to 'Complex Query'; it reports success. |
| `Concierge.HandleToolCallFrame` | App.tsx:62-95 | No tool call touches the transcript, the thinking and call flags or the persona; the order only grows at its end; a handoff stays requested; the log stays bounded. |
| `Concierge.ApplyCalls` | App.tsx:163-167 | The state after the dispatcher has handled the calls in order; specified by `Concierge.ApplyCallsFrame` and the loop `Concierge.HandleToolCalls`. |
| `Concierge.HandleToolCalls` | App.tsx:289-293 | The loop over a message's tool calls (here and in the text path, App.tsx:163-167) ends in the fold of the dispatcher over the calls, and collects each call's reply in order, the replies the live loop sends back (the text path discards them). |
| `Concierge.ApplyCallsFrame` | App.tsx:289-294 | A whole batch of tool calls keeps the frame of a single call: transcript and flags untouched, order extended at its end, handoff monotone, log bounded. |
| `Concierge.TotalAmount` | App.tsx:309 | `totalAmount`, a left fold of price times quantity; specified by `Concierge.TotalAmountAppend` and `Concierge.TotalAmountNonNegative`. |
| `Concierge.TotalAmountAppend` | App.tsx:309 | The total of a concatenation is the sum of the totals. |
| `Concierge.TotalAmountNonNegative` | App.tsx:309 | The empty order totals 0, and non-negative prices and quantities give a non-negative total. |
| `Concierge.BeginSend` | App.tsx:99-107 | A blank input changes nothing (the box is not even cleared); otherwise the box is cleared, the user's line is appended and the thinking flag is set. |
| `Concierge.ReplyText` | App.tsx:171 | The model's line is the reply text when non-empty, and "Confirmed." otherwise. |
| `Text.IsBlank` | App.tsx:99 | The input is all white space; specified by `Text.TrimEmptyIffBlank`. |
| `Text.TrimStart` | App.tsx:99 | The result is a suffix of the input, everything dropped is white space, and it does not start with white space. |
| `Text.TrimEnd` | App.tsx:99 | The result is a prefix of the input, everything dropped is white space, and it does not end with white space. |
| `Text.Trim` | App.tsx:99 | `s.trim()`, `trimStart` then `trimEnd`; specified by `Text.TrimEmptyIffBlank`. |
| `Text.TrimEmptyIffBlank` | App.tsx:99 | `!inputText.trim()` holds exactly when every character of the input is white space. |
| `Concierge.FinishSend` | App.tsx:161-177 | The part of `handleSendMessage` after the await; specified by `Concierge.SendRepliedSpec` and `Concierge.SendFailedSpec`. |
| `Concierge.SendMessage` | App.tsx:97-178 | `handleSendMessage` as a whole; specified by `Concierge.SendBlankIsNoOp`, `Concierge.SendRepliedSpec` and `Concierge.SendFailedSpec`. |
| `Concierge.SendBlankIsNoOp` | App.tsx:99 | Sending whitespace-only input leaves the page exactly as it was. |
| `Concierge.SendRepliedSpec` | App.tsx:101-173 | On a reply the transcript gains the user's line then the model's line, the thinking flag ends false, the box is cleared and the log stays bounded; order, reservation, handoff flag and log are those the dispatcher leaves after running the reply's tool calls in order. |
| `Concierge.SendFailedSpec` | App.tsx:174-177 | On an error only the user's line remains added and the thinking flag is cleared. |
| `Concierge.OnLiveMessage` | App.tsx:282-294 | The transcript and tool-call part of `onmessage`; specified by `Concierge.OnLiveMessageSpec`. |
| `Concierge.OnLiveMessageSpec` | App.tsx:282-294 | A live message appends exactly one line per transcription it carries, the caller's before the model's; without tool calls nothing else changes; with them the dispatcher runs the calls in order after the transcript update; the log stays bounded. |
| `Playback.ScheduleStep` | App.tsx:276-278 | A chunk starts no earlier than the current time and the queue position; the queue then advances by the chunk's duration, never backwards. |
| `Playback.ScheduleAll` | App.tsx:276-278 | The slots of a run of chunks handled one after the other; specified by `Playback.ScheduleAllNeverOverlaps`. |
| `Playback.ScheduleAllNeverOverlaps` | App.tsx:266-280 | Chunks handled in turn get one slot each, start no earlier than they arrive, last their duration, and each ends before any later one starts. |
| `Playback.Player.constructor` | App.tsx:189 | A new call starts with the queue at time 0 and no sources. |
| `Playback.Player.Play` | App.tsx:276-279 | Playing a chunk starts a fresh source at the scheduled slot, advances `nextStartTime` to its end, adds it to `sources`, and keeps every source non-overlapping and finished by `nextStartTime`. |

## Left out

- JSX rendering, styling and the scroll-into-view effect (App.tsx:42-44, App.tsx:311-568): presentational only.
- The hosted-model SDK calls (`ai.chats.create`, `sendMessage`, `ai.live.connect`, `sendRealtimeInput`, `sendToolResponse`): network calls; their results are parameters, and the tool results collected by `HandleToolCalls` stand for what is sent back.
- Microphone capture, `AudioContext` and `ScriptProcessor` set-up, and PCM encoding and decoding (`createBlob`, `decode`, `decodeAudioData`): `services/audioUtils` is not part of this model; a decoded chunk is its duration.
- `components/AudioVisualizer.tsx`: canvas drawing only.
- The order in which promise callbacks run (`sessionPromise.then`, `onopen`, `onclose`): `BeginSend` and `FinishSend` are separate functions so that other updates may fall between them, but interleavings are not modelled further.
- The `isCalling` toggles (App.tsx:263, App.tsx:296, App.tsx:306), the persona selector buttons and the dismiss-handoff button: one-field UI updates outside the modelled core.
- The text of the system prompt and the language list: natural language for the hosted model; the template is a parameter.
- Floating-point arithmetic: prices are integer cents and quantities integers; audio times are exact reals.
- Text.LowerChar, Text.Lower: lower-case ASCII letters only and keep the length; JavaScript's `toLowerCase` is Unicode-wide and can also change the length (U+0130 becomes "i" followed by U+0307). No menu name contains a letter whose Unicode lower case differs from this (the Kelvin sign maps to 'k', and no dish name has a 'k'; no dish name contains U+0307), so matches against the menu are unaffected.
- Text.ReplaceFirst: `$` patterns in the replacement (`$&`, `$$`, `` $` ``, `$'`) are not expanded; the persona text it inserts contains no `$`.
- Concierge.QuantityOrOne: a `NaN` quantity, which JavaScript also treats as falsy, is not representable.
- Missing tool arguments: the tool declarations (App.tsx:120-149, App.tsx:213-242) mark no property as required, but the model makes `items` (`CallArgs.items`), an item's `name` (`ItemRequest.name`) and a booking's `name`, `date`, `time` and `guests` (`Types.Reservation`) mandatory, and `guests` is an integer where the source has a JavaScript number. Without `items` or without an item's `name` the source throws inside `handleToolCall` (App.tsx:65-66) before changing anything; the exception ends the loop over the calls, so the effects of earlier calls in the batch stay, and on the text path the catch clears the thinking flag without adding the model's line. A booking without those fields is stored as given and logged with the text `undefined` (App.tsx:83-86). None of these cases is modelled.
- Concierge.UpdateOrderLogsSpec: all log lines written by one handler call share one `clock` value, while the source reads the clock once per `addLog`.
- The `if (!ctxs) return;` guard of `onmessage` (App.tsx:268): the contexts are always set before the session opens.
