# Shiro notes app — a verified model of its core

Shiro is a React Native note-taking app. A note is a list of content blocks (text, image, audio). This project models in Dafny the logic behind six parts of the app:

- **The in-memory note service** (`services/noteService.ts`). It keeps a module-level list of notes. It offers note CRUD, block-level edits, a case-insensitive text search sorted newest first, and per-kind block statistics. The model is the class `NoteService.NoteStore`, whose `notes` field is the list. Every response is modelled with the same `success` / `data` / `error` / `message` envelope and the same messages as the source.
- **The chat dialog** (`components/ChatDialog.tsx`). The user's messages are grouped into a turn. One scripted reply, `I received: "<texts joined by "; ">"`, is produced per turn, once the user has stopped typing. The class `Chat.ChatDialog` holds the input, the messages, the typing flag and the pending reply timer.
  - The timer is an abstract slot that holds the handle of at most one armed timer. A handle fires only while it is the one in the slot, so a cleared timer never fires.
  - The reply-scheduling effect re-runs only when the messages, the input or the typing flag changed, as React runs it.
- **The recording modal** (`components/RecordingModal.tsx`). The `MM:SS` clock, plus the bookkeeping of the active recording, the elapsed time and the polling interval (`Recording.RecordingModal`).
- **The note editor** (`app/screens/NoteEditorScreen.tsx`). It covers:
  - the initial content: a sample note, or a greeting prompt and an empty text block;
  - text edits;
  - appended images.
- **The note preview card** (`components/NoteCard.tsx`). What the card extracts from a note, and which of its parts are shown.
- **The Telegram linking screen's number check** (`app/screens/Telegram.tsx`).

Some inputs are parameters of the model:

- the clock: `now`, and the editor's `hour`;
- the id generator: `freshId`;
- the date parsing used as the sort key: `dateKey`, any function from a timestamp string to an integer;
- the permission and picker answers;
- the recorder's status and whether stopping it succeeds.

`types.dfy` holds the data model of `types/index.ts`. `js_text.dfy` holds the JavaScript string built-ins the core relies on:

- `trim`, with the exact ECMAScript white-space set;
- `toLowerCase`, for ASCII letters only;
- `startsWith`, `includes` and `join`;
- `String(n)` for naturals;
- `padStart(2, '0')`.

## Model

| member | source | states |
|---|---|---|
| JsText.TrimStart | services/noteService.ts:376 | the result is a suffix of the input; everything cut was white space; the result does not start with white space |
| JsText.TrimEnd | services/noteService.ts:376 | the result is a prefix of the input; everything cut was white space; the result does not end with white space |
| JsText.Trim | components/ChatDialog.tsx:98 | `trim()` is empty exactly when every character is white space; otherwise it starts and ends with a non-white character |
| JsText.TrimIsSlice | components/ChatDialog.tsx:98 | `trim()` is a contiguous slice of the input with only white space before and after it, so nothing inside is removed or changed |
| JsText.TrimBlank | components/ChatDialog.tsx:102-103 | trimming both ends leaves nothing iff the string is all white space |
| JsText.ToLower | services/noteService.ts:376 | each character is lower-cased on its own (A-Z to a-z, all others kept), and no upper-case ASCII letter is left |
| JsText.ToLowerIgnoresCase | services/noteService.ts:376 | two strings lower-case to the same string iff they differ only in the case of ASCII letters |
| JsText.ToLowerIdempotent | services/noteService.ts:376 | lower-casing twice is lower-casing once |
| JsText.IncludesIff | services/noteService.ts:385 | the left-to-right `includes` scan succeeds iff the needle occurs at some position |
| JsText.StartsWith | app/screens/Telegram.tsx:31 | `startsWith`: the prefix is no longer than the string and equals its first characters; `Telegram.HandleSave` uses it to require the leading '+' |
| JsText.Includes | services/noteService.ts:385 | `includes`, written as a left-to-right scan; `IncludesIff` characterises it as "the needle occurs at some position" |
| JsText.JoinContainsPart | components/ChatDialog.tsx:127-129 | every part of a `join` occurs in the joined string where it lands: the first part at 0, part `k` one separator past the join of the parts before it |
| JsText.Join | components/ChatDialog.tsx:129 | `join`: the parts with the separator between consecutive parts only; `JoinContainsPart` states where each part lands, `CoalescedReply` gives the value for three parts |
| JsText.Decimal | services/noteService.ts:394 | `String(n)` is all digits, has no leading zero, and has one digit below 10 and two below 100 |
| JsText.DecimalRoundTrip | services/noteService.ts:394 | reading back the digits of `String(n)` gives `n` |
| JsText.LeadingZeroValue | components/RecordingModal.tsx:7 | a `'0'` pad does not change a digit string's value |
| JsText.PadStart2 | components/RecordingModal.tsx:7 | `padStart(2,'0')` has length max(2, len) and ends with the original string |
| JsText.PadDecimal | components/RecordingModal.tsx:7 | a padded number is still all digits and still denotes `n` |
| Types.FindIndex | services/noteService.ts:197 | `findIndex`: -1 iff no note has the id, otherwise the first index holding it |
| NoteService.Find | services/noteService.ts:153 | `find`: none iff no note has the id, otherwise the note at the first index holding the id |
| NoteService.WithoutId | services/noteService.ts:232 | `filter(n => n.id !== id)` keeps exactly the other notes, and keeps the length iff none had the id |
| NoteService.WithoutIdAppend | services/noteService.ts:232 | the filter distributes over concatenation, so it keeps the original order |
| NoteService.WithoutIdUnchanged | services/noteService.ts:231-239 | when the filter removed nothing, the list is unchanged |
| NoteService.InsertDesc | services/noteService.ts:132-134 | inserting into a list sorted newest first keeps it sorted and adds exactly one note |
| NoteService.ConsSorted | services/noteService.ts:132-134 | a note no older than the head may go in front of a sorted list |
| NoteService.SortDesc | services/noteService.ts:132-134 | the comparator sort returns a permutation, sorted newest first |
| NoteService.SortDescOfSorted | services/noteService.ts:132-134 | an already sorted list comes back unchanged |
| NoteService.Matching | services/noteService.ts:382-386 | a note is kept iff one of its text blocks contains the query once lower-cased; each kept note occurs as often as in the store |
| NoteService.HasTextMatch | services/noteService.ts:383-386 | some text block's lower-cased value includes the lower-cased query; image and audio blocks never match; `Matching` and `SearchIgnoresCase` characterise it |
| NoteService.SearchHits | services/noteService.ts:382-395 | the success reply for a non-blank query: the matching notes newest first, with the message `Found <n> notes matching "<query>"`; `NoteStore.SearchNotes` states its contents, multiplicity and message |
| NoteService.MatchingAppend | services/noteService.ts:382-386 | the filter distributes over concatenation, so the hits keep the store's order |
| NoteService.KindsPartitionBlocks | services/noteService.ts:420-431 | every block is counted under exactly one of the three kinds |
| Types.KindOf | services/noteService.ts:420-431 | the `type` tag of a block, one of text, image and audio; `KindsPartitionBlocks` shows every block has exactly one |
| Types.CountKind | services/noteService.ts:420-431 | the number of blocks of one kind; `KindsPartitionBlocks` shows the three counts add up to the number of blocks, `GetNotesStats` sums them over the notes |
| NoteService.StatsPartitionBlocks | services/noteService.ts:417-441 | the three per-kind totals add up to the number of blocks in the store |
| NoteService.NoteStore.constructor | services/noteService.ts:22-101 | the store starts with the five seed notes |
| NoteService.NoteStore.ListNotes | services/noteService.ts:129-145 | `listNotes` succeeds with a sorted permutation of the store |
| NoteService.NoteStore.GetNoteById | services/noteService.ts:150-164 | `getNoteById` always succeeds; its data is null iff no note has the id, else the note at the first index holding the id |
| NoteService.NoteStore.CreateNote | services/noteService.ts:169-189 | `createNote` puts the new note in front of the old list; the content defaults to one empty text block; the reply carries the note and "Note created successfully" |
| NoteService.NoteStore.UpdateNote | services/noteService.ts:194-223 | `updateNote` fails with "Note not found" and changes nothing for an unknown id; otherwise it replaces only the found note: the patch's content if given, the new timestamp always |
| NoteService.NoteStore.DeleteNote | services/noteService.ts:228-251 | `deleteNote` removes every note with the id; it succeeds iff one existed, and otherwise leaves the store unchanged |
| NoteService.NoteStore.AppendBlock | services/noteService.ts:258-284 | `appendBlock` fails with "Note not found" and no change for an unknown id; otherwise it appends the block to the first matching note only and stamps it |
| NoteService.NoteStore.ReplaceBlockAt | services/noteService.ts:289-327 | `replaceBlockAt` has distinct not-found and "Invalid block index" failures, neither changing anything; otherwise it replaces exactly that block |
| NoteService.NoteStore.RemoveBlockAt | services/noteService.ts:332-366 | `removeBlockAt` has the same failures; otherwise it removes exactly that block, shortening the content by one |
| NoteService.NoteStore.SearchNotes | services/noteService.ts:373-402 | a blank lower-cased, trimmed query gives the `listNotes` reply; otherwise the hits are sorted newest first, each matching note occurs as often as in the store and no other note occurs, and the message is `Found <n> notes matching "<query>"` |
| NoteService.SearchIgnoresCase | services/noteService.ts:376-386 | two queries that differ only in the case of ASCII letters find the same notes |
| NoteService.NoteStore.GetNotesStats | services/noteService.ts:409-453 | the nested accumulation gives the number of notes and, for each kind, the number of blocks of that kind |
| Chat.LastAiIndex | components/ChatDialog.tsx:165 | `lastIndexOf('ai')`: -1 or the index of a reply, with only user messages after it |
| Chat.UserMessagesOfUserRun | components/ChatDialog.tsx:166-167 | filtering a run of user messages keeps all of them |
| Chat.UserMessages | components/ChatDialog.tsx:166-167 | the user messages of a list, in order: every result message is from the user and there are no more of them than messages; `UserMessagesOfUserRun` shows a run of user messages is kept whole |
| Chat.Turn | components/ChatDialog.tsx:165-167 | the user messages after `LastAiIndex`; `TurnIsSuffix` shows it is exactly that suffix, `TurnExtends` and `CoalescedTurn` how it grows |
| Chat.TurnIsSuffix | components/ChatDialog.tsx:165-167 | the turn is exactly the suffix after the last reply, and holds only user messages |
| Chat.TurnEndsWithLastUserMessage | components/ChatDialog.tsx:157-171 | when the last message is the user's, the turn is non-empty and ends with it |
| Chat.TurnExtends | components/ChatDialog.tsx:165-167 | a user message appended to any history joins the current turn |
| Chat.TurnAfterReply | components/ChatDialog.tsx:165-167 | after a reply the turn is empty |
| Chat.Texts | components/ChatDialog.tsx:127-128 | `map(msg => msg.text)`, index by index |
| Chat.ReplyQuotesTurn | components/ChatDialog.tsx:127-132 | the reply contains the text of every message of the turn |
| Chat.ReplyText | components/ChatDialog.tsx:127-132 | `I received: "` followed by the turn's texts joined with `; ` and a closing quote; `ReplyQuotesTurn`, `ReplyToSingleMessage` and `CoalescedReply` characterise it |
| Chat.ReplyToSingleMessage | components/ChatDialog.tsx:127-132 | a one-message turn is quoted verbatim |
| Chat.NoReplyAfterReply | components/ChatDialog.tsx:157-161 | once a reply is appended nothing can be scheduled |
| Chat.ShouldGenerateResponse | components/ChatDialog.tsx:157-161 | a reply is due when the last message is from the user, the draft is blank and the user is not typing; `NoReplyAfterReply` and the `ChatDialog` timer contracts use it |
| Chat.CoalescedTurn | components/ChatDialog.tsx:165-167 | whatever history comes before, a run of user messages sent after a reply is exactly the turn |
| Chat.CoalescedReply | components/ChatDialog.tsx:127-132 | that turn draws the single reply `I received: "a; b; c"` |
| Chat.ChatDialog.constructor | components/ChatDialog.tsx:84-88 | the dialog opens with the assistant's greeting, an empty input and no timer |
| Chat.ChatDialog.RearmReplyTimer | components/ChatDialog.tsx:151-181 | the effect clears the pending timer and arms a fresh one iff the last message is the user's, nothing is typed and the trimmed input is empty |
| Chat.ChatDialog.HandleInputChange | components/ChatDialog.tsx:96-99 | the typing flag follows the trimmed text; a real change re-runs the effect, and a timer it arms gets the next, never used handle; any non-blank text cancels the pending reply |
| Chat.ChatDialog.HandleSendMessage | components/ChatDialog.tsx:101-123 | a blank input changes nothing; otherwise the trimmed text is appended as a user message, the input is cleared and a fresh timer replaces any pending one |
| Chat.ChatDialog.FireTimer | components/ChatDialog.tsx:164-172 | only the pending timer acts: it appends one reply quoting the current turn, then nothing is pending and no handle is handed out |
| Chat.ChatDialog.Close | components/ChatDialog.tsx:194-203 | closing clears the input, the typing flag and the timer; a non-empty draft re-runs the effect, which can re-arm a reply under a fresh handle |
| Chat.StaleTimerNeverFires | components/ChatDialog.tsx:151-181 | a timer cleared by typing does not reply even after clearing the draft has armed a new one |
| Recording.Clock | components/RecordingModal.tsx:7 | the clock shape: at least five characters, a colon third from the end, and the two padded fields |
| Recording.Fmt | components/RecordingModal.tsx:7 | `fmt` output has a colon before a two-character seconds field |
| Recording.FmtFields | components/RecordingModal.tsx:7 | the minutes field denotes the whole minutes; the seconds field is two digits denoting the seconds, below 60 |
| Recording.FmtRoundTrip | components/RecordingModal.tsx:7 | reading the clock back gives exactly `floor(ms/1000)` |
| Recording.FmtSameSecond | components/RecordingModal.tsx:7 | two durations show the same clock iff they fall in the same whole second |
| Recording.FmtLength | components/RecordingModal.tsx:7 | length 5 below 6,000,000 ms, longer above, because minutes are never cut |
| Recording.FmtStart | components/RecordingModal.tsx:7 | `fmt(0)` is "00:00" |
| Recording.FmtBelowOneSecond | components/RecordingModal.tsx:7 | `fmt(999)` is "00:00" |
| Recording.FmtMinuteAndSecond | components/RecordingModal.tsx:7 | `fmt(61000)` is "01:01" |
| Recording.RecordingModal.constructor | components/RecordingModal.tsx:10-12 | no recording, zero elapsed, no interval |
| Recording.RecordingModal.Start | components/RecordingModal.tsx:20-21 | the recording becomes active and the interval is armed |
| Recording.RecordingModal.Tick | components/RecordingModal.tsx:21-24 | while the interval is live, a status with the key sets `elapsed` to `durationMillis ?? 0`; otherwise nothing changes |
| Recording.RecordingModal.Save | components/RecordingModal.tsx:38-46 | with no recording, a no-op. Otherwise `recording` and `elapsed` are always reset. `onFinish(uri, elapsed)` is called and the ticker cleared only when the stop succeeds; on failure the error propagates |
| Recording.RecordingModal.Discard | components/RecordingModal.tsx:27-36 | Cancel does nothing; Exit clears the ticker, resets the state and calls only `onClose` |
| Recording.RecordingModal.Hide | components/RecordingModal.tsx:48 | the effect cleanup clears the ticker and nothing else |
| Recording.RecordingModal.Display | components/RecordingModal.tsx:55 | the shown clock reads back as the whole seconds elapsed |
| Editor.Greeting | app/screens/NoteEditorScreen.tsx:43 | "Good morning, Mike." before 12 o'clock, "Good evening, Mike." from then on |
| Editor.AsEditorBlocks | app/screens/NoteEditorScreen.tsx:40 | a note's blocks become editor blocks one for one |
| Editor.NewNoteContent | app/screens/NoteEditorScreen.tsx:42-44 | a new note is a prompt opening with the greeting, followed by one empty text block |
| Editor.InitialContent | app/screens/NoteEditorScreen.tsx:37-47 | a missing or empty id gives the new-note content; otherwise the first matching note's blocks, or the current content when none matches |
| Editor.EditText | app/screens/NoteEditorScreen.tsx:50-57 | a text edit keeps the length; it changes only block `i`, only when that block exists and is a text block, and otherwise changes nothing |
| Editor.EditKeepsShape | app/screens/NoteEditorScreen.tsx:50-57 | edits never change which blocks are text blocks |
| Editor.IsTextAt | app/screens/NoteEditorScreen.tsx:53 | the edited index names an existing text block; `EditText` rewrites exactly such a block and leaves the content alone otherwise, and `EditKeepsShape` shows an edit keeps every block's answer to it |
| Editor.EditIdempotent | app/screens/NoteEditorScreen.tsx:50-57 | typing the same text twice equals typing it once |
| Editor.OpenSampleNote | app/screens/NoteEditorScreen.tsx:23-45 | opening sample note "3" loads its text block and then its recording, whatever the hour and the current content |
| Editor.NoteEditor.constructor | app/screens/NoteEditorScreen.tsx:34-35 | the screen mounts empty and loading, over the sample notes |
| Editor.NoteEditor.Initialise | app/screens/NoteEditorScreen.tsx:37-47 | the effect sets the initial content and always ends loading |
| Editor.NoteEditor.HandleTextChange | app/screens/NoteEditorScreen.tsx:50-57 | `handleTextChange` updates the content as `EditText` |
| Editor.NoteEditor.HandleAddImage | app/screens/NoteEditorScreen.tsx:63-94 | exactly one image block with the first asset's uri is appended, iff permission was granted and the picker returned assets; otherwise the content is unchanged |
| NoteCard.FirstOfKind | components/NoteCard.tsx:36-49 | `find` by block type: -1 iff none, else the first such index |
| NoteCard.TextContent | components/NoteCard.tsx:36-39 | the value of the first text block, or "" when there is none |
| NoteCard.ImageBlocks | components/NoteCard.tsx:41-44 | exactly the image blocks: membership, and a count equal to the number of image blocks |
| NoteCard.ImageBlocksAppend | components/NoteCard.tsx:41-44 | the filter distributes over concatenation, so images keep their order |
| NoteCard.AudioContent | components/NoteCard.tsx:46-49 | absent iff there is no audio block, else the first one |
| NoteCard.Render | components/NoteCard.tsx:84-123 | text line iff the preview text is non-empty; image area iff at least one image; `+k` badge iff more than one, with k = count - 1; audio preview iff an audio block exists; delete action iff `onDelete` is given |
| NoteCard.BadgeCountsHiddenImages | components/NoteCard.tsx:110-116 | with more than one image, the badge's digits read back as the number of images not shown |
| Telegram.HandleSave | app/screens/Telegram.tsx:30-38 | an empty number, one shorter than 10, or one without a leading '+' raises the alert; a number is saved iff it has at least 10 characters and starts with '+' |
| Telegram.ScreenExample | app/screens/Telegram.tsx:31 | the on-screen example "+1 13812345678" is accepted; without '+', or too short, it is rejected |

## Left out

- Real time. Timers, the 3-second reply delay, the 200 ms polling period, the simulated service latency (`delay`) and the focus/scroll `setTimeout`s are left out. Timers are events the caller fires.
- Clock and date parsing.
  - `generateTimestamp`, `String(Date.now())` and `getHours()` are parameters.
  - `new Date(updatedAt).getTime()` is an abstract integer key, so an unparsable date (NaN in the comparator) is not modelled.
- NoteService.SortDesc: equal keys keep their input order, which matches JavaScript's stable sort. Stability is not stated as a separate property.
- Aliasing.
  - `createNote` stores the caller's content array. `appendBlock` and the block edits mutate a note object that earlier `deepClone`d replies do not share.
  - The editor's `handleTextChange` mutates a block object shared with the previous state and with the sample database.
  - The model works on values, so none of this sharing is represented.
- Non-integer block indices (such as 1.5) are not modelled. Neither are patch properties explicitly set to `undefined` in `updateNote`.
- The `catch` branches of the note service and of `generateAIResponse` are left out, because nothing in their `try` blocks throws.
- JsText.ToLower: lower-cases ASCII letters only. It does not model the full Unicode case mapping of `toLowerCase`.
- Lengths count Dafny characters, not UTF-16 code units. So a character outside the Basic Multilingual Plane counts once, where JavaScript counts it twice. This affects the Telegram length check.
- Recording.RecordingModal.Start: the `Audio` permission, mode and prepare calls are left out. So are the ignored permission result and a second `start` that overwrites, and so leaks, a live interval.
- Async interleavings are not modelled, for example a status poll resolving after the recording was reset.
- Recording.RecordingModal.Save: the recording is represented by its uri, and `getURI()` returning null is not modelled.
- Editor.NoteEditor.HandleAddImage: a non-cancelled picker result with no assets, where `assets[0]` throws, is modelled as the `NoAssets` outcome with the content unchanged.
- An image block's `url` may also be a bundled image resource (`ImageSourcePropType`, types/index.ts:17). The model keeps string urls only.
- Telegram: the alert, the console log and the phone input widget that produces the formatted number are left out.
- Rendering (layout, styles, animations), the record and save buttons of the editor, the storage service, Appwrite and the hooks are not part of this model.
- Chat.ChatDialog.Close: with a non-empty draft and a trailing user message, closing the dialog arms a new reply. Clearing the draft is a change the reply effect reacts to. The model keeps this behaviour of the source.
