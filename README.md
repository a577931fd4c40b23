# fin-doc-chat components, modelled in Dafny

This project models the client-side behaviour of three React components of the
fin-doc-chat front end. Dafny proves properties of each model.

- **FrontPageChatBot** is the floating help bot of the landing page.
  - Its keyword-based `getResponse` lower-cases the message and then tests
    eight keyword groups in a fixed order. The first group that matches picks
    the canned reply. A default reply covers the rest.
  - Its send handler ignores blank input. Otherwise it appends the user's
    entry, clears the field, raises the typing flag and schedules a reply
    timer.
  - Its panel can be open or closed, and expanded or minimised.
- **UploadBox** is the report drop zone.
  - It accepts one file only if the MIME type is one of four allowed types
    (PDF, DOCX, XLSX, XLS) and the size is at most 50 MiB. The type is
    checked first.
  - An accepted file starts a simulated 2-second upload. When it ends, the
    file is handed to the optional `onFileUpload`.
  - A non-blank question is handed, untrimmed, to the optional
    `onQuestionSubmit`.
- **ChatWindow** is the dashboard chat about an uploaded report.
  - With no file name, or an empty one, it shows only an upload prompt.
  - Otherwise it shows the transcript passed to it. When that transcript is
    empty, it shows a fixed sample conversation instead.
  - It hands the trimmed, non-blank input to the optional `onSendMessage`.

The JavaScript string primitives these components use are in module `Text`:
`trim`, `includes` and the part of `toLowerCase` that can produce an ASCII
letter.

How the model represents the runtime:

- **Timers.** Each `setTimeout` becomes a queue of timers that are scheduled
  but have not fired yet. An explicit method fires one of them.
  - The bot's reply delay is random, so `ReplyArrives` may fire any
    outstanding timer.
  - The upload delay is always 2000 ms, so `CompleteUpload` fires the oldest
    timer.
- **Optional callbacks.** Each optional callback prop becomes a presence flag
  plus a log of the calls made to it.
- **Clock values.** `Date.now()` ids and `toLocaleTimeString` timestamps are
  parameters.

The close button only clears `isOpen`
(src/components/FrontPageChatBot.tsx:147), so a panel closed while minimised
reopens minimised. `FrontPageChatBot.ChatBot.Open` states this.

## Model

| member | source | states |
|---|---|---|
| Text.IsBlank | src/components/FrontPageChatBot.tsx:72 | `!s.trim()` holds exactly when every character of `s` is JavaScript white space, the empty string included; the same test guards src/components/ChatWindow.tsx:63 and src/components/UploadBox.tsx:78 |
| Text.Trim | src/components/ChatWindow.tsx:63-64 | `trim` gives the empty string exactly when every character is JavaScript white space; otherwise the result neither starts nor ends with white space and is no longer than the input |
| Text.TrimDecompose | src/components/ChatWindow.tsx:64 | the input is white space, then the trimmed text, then white space: trimming removes nothing else |
| Text.TrimIdempotent | src/components/ChatWindow.tsx:64 | trimming an already trimmed text changes nothing |
| Text.TrimEmptyIff | src/components/FrontPageChatBot.tsx:72 | trimming both ends leaves nothing exactly when the input is all white space, which is when `!inputMessage.trim()` is true |
| Text.Contains | src/components/FrontPageChatBot.tsx:34 | `includes`: the keyword starts at the first position or occurs in the rest; a keyword longer than the message never occurs |
| Text.ContainsAt | src/components/FrontPageChatBot.tsx:34 | `includes` is true when the keyword occurs at any index of the message |
| Text.ContainsWitness | src/components/FrontPageChatBot.tsx:34 | when `includes` is true there is an index at which the keyword occurs |
| Text.NotContainsByChar | src/components/FrontPageChatBot.tsx:34 | a keyword that holds a character the message lacks is not included in it |
| Text.NoneContained | src/components/FrontPageChatBot.tsx:34-64 | keywords that each hold a character the message lacks are none of them included in it |
| Text.LowerChar | src/components/FrontPageChatBot.tsx:32 | `toLowerCase` of one character leaves no ASCII capital; it moves an ASCII capital up by 32 code points, keeps every other ASCII character, and yields one or two characters (the Kelvin sign gives "k" and the capital I with dot above gives "i" and a combining dot) |
| Text.LowerCharFixed | src/components/FrontPageChatBot.tsx:32 | every character `toLowerCase` yields is its own lower-case form |
| Text.Lower | src/components/FrontPageChatBot.tsx:32 | `toLowerCase` of a message is at least as long as the message and at most twice as long |
| Text.LowerAppend | src/components/FrontPageChatBot.tsx:32 | the model's lower-casing maps each character on its own: the lower-case form of a concatenation is the concatenation of the lower-case forms |
| Text.LowerOfFixed | src/components/FrontPageChatBot.tsx:32 | a message made of lower-case characters is its own lower-case form |
| Text.LowerIdempotent | src/components/FrontPageChatBot.tsx:32 | lower-casing an already lower-cased message changes nothing |
| ResponseEngine.Reply | src/components/FrontPageChatBot.tsx:35-67 | the nine reply texts of `getResponse`, character for character |
| ResponseEngine.Classify | src/components/FrontPageChatBot.tsx:31-66 | the `if` chain of `getResponse` on the lower-cased message, naming the branch it takes; what it chooses is stated by TableAgrees, ResponseOfRule and DefaultIff |
| ResponseEngine.GetResponse | src/components/FrontPageChatBot.tsx:31-68 | `getResponse`: the reply of the branch Classify takes; CaseInsensitive, SameReplyAsLowered, PricingWins and the examples state what it returns |
| ResponseEngine.RuleCondition | src/components/FrontPageChatBot.tsx:34-62 | each of the eight rows of the rule table fires exactly when the condition of the matching `if` of `getResponse` holds, keyword for keyword, including the and-of-ors of the how-it-works test |
| ResponseEngine.TableAgrees | src/components/FrontPageChatBot.tsx:31-68 | the `if` chain as written chooses the same topic as a first-match evaluation of the rule table on the lower-cased message |
| ResponseEngine.FirstMatchIs | src/components/FrontPageChatBot.tsx:34-64 | for any table with distinct topics, rule k decides exactly when it fires and no earlier rule fires |
| ResponseEngine.FirstMatchDefault | src/components/FrontPageChatBot.tsx:66-67 | for any table with distinct topics, the default is chosen exactly when no rule fires |
| ResponseEngine.FirstMatchAvoids | src/components/FrontPageChatBot.tsx:34-67 | a topic that no remaining rule carries is never the result |
| ResponseEngine.RulesDistinct | src/components/FrontPageChatBot.tsx:34-64 | the eight rules of `getResponse` lead to eight different branches, none of them the default branch |
| ResponseEngine.ResponseOfRule | src/components/FrontPageChatBot.tsx:31-64 | the branch of rule k is taken exactly when rule k fires on the lower-cased message and no earlier rule does |
| ResponseEngine.DefaultIff | src/components/FrontPageChatBot.tsx:66-67 | the default branch is taken exactly when none of the eight keyword rules fires |
| ResponseEngine.CaseInsensitive | src/components/FrontPageChatBot.tsx:32 | two messages with the same lower-case form get the same topic and the same reply |
| ResponseEngine.SameReplyAsLowered | src/components/FrontPageChatBot.tsx:32 | a message and its lower-cased form get the same reply |
| ResponseEngine.PricingWins | src/components/FrontPageChatBot.tsx:34-36 | any message with "price", "cost" or "pricing" gets the pricing reply, whatever later keywords it holds |
| ResponseEngine.HowNeedsWorkOrUse | src/components/FrontPageChatBot.tsx:38-40 | "how" without "work" or "use" never takes the how-it-works branch |
| ResponseEngine.ThisContainsHi | src/components/FrontPageChatBot.tsx:62 | a message containing "this" contains the greeting keyword "hi" |
| ResponseEngine.ThisIsAGreeting | src/components/FrontPageChatBot.tsx:62-64 | keywords match as substrings: a message with "this" and none of the first seven rules firing gets the greeting reply |
| ResponseExamples.NoEarlierKeyword | src/components/FrontPageChatBot.tsx:34-60 | a message without the letters p, c, w, f, u, a, t, s and d holds no keyword of the first seven tests |
| ResponseExamples.NoGreetingKeyword | src/components/FrontPageChatBot.tsx:62 | a message without the letter h holds none of "hello", "hi" and "hey" |
| ResponseExamples.ExampleDottedCapital | src/components/FrontPageChatBot.tsx:32-64 | "H" followed by the capital I with dot above lower-cases to "hi" and a combining dot, and so takes the greeting branch |
| ResponseExamples.ExampleGreeting | src/components/FrontPageChatBot.tsx:62-64 | "hello", in any capitalisation, gets the greeting reply |
| ResponseExamples.ExampleDefault | src/components/FrontPageChatBot.tsx:66-67 | "xyzzy", in any capitalisation, fires no rule and gets the default reply |
| FrontPageChatBot.CountAppend | src/components/FrontPageChatBot.tsx:81 | appending an entry adds one to the count of its sender only |
| FrontPageChatBot.UserTextsAppend | src/components/FrontPageChatBot.tsx:81 | appending a user entry appends its text to the user's texts; a bot entry adds none |
| FrontPageChatBot.AnswerKeepsBalance | src/components/FrontPageChatBot.tsx:86-95 | appending a bot reply while retiring one outstanding timer keeps every user entry answered or waiting, and keeps every waiting text among those the user sent |
| FrontPageChatBot.ChatBot.constructor | src/components/FrontPageChatBot.tsx:16-27 | the bot mounts closed and not minimised, with one greeting entry with id "1" and an empty, idle input |
| FrontPageChatBot.ChatBot.Visibility | src/components/FrontPageChatBot.tsx:105-147 | the panel is closed exactly when `isOpen` is false, and minimised exactly when it is open with `isMinimized` set |
| FrontPageChatBot.ChatBot.SetInputMessage | src/components/FrontPageChatBot.tsx:221 | the field takes the typed text; the transcript invariant is kept |
| FrontPageChatBot.ChatBot.SendMessage | src/components/FrontPageChatBot.tsx:70-86 | a blank input changes nothing; otherwise the untrimmed input is appended as a user entry, the field is cleared, the typing flag rises and a timer capturing that input is scheduled; every user entry stays answered or waiting |
| FrontPageChatBot.ChatBot.ReplyArrives | src/components/FrontPageChatBot.tsx:86-96 | a firing timer appends exactly one bot entry holding `getResponse` of the text it captured, clears the typing flag and retires only that timer |
| FrontPageChatBot.ChatBot.Open | src/components/FrontPageChatBot.tsx:109 | the launcher opens the panel and keeps the minimised flag, so the panel shows expanded or minimised as it was left |
| FrontPageChatBot.ChatBot.ToggleMinimized | src/components/FrontPageChatBot.tsx:139 | the minimise button flips the flag: expanded becomes minimised and back |
| FrontPageChatBot.ChatBot.Close | src/components/FrontPageChatBot.tsx:147 | the close button hides the panel and keeps the transcript |
| UploadBox.AlertText | src/components/UploadBox.tsx:49-55 | the alert text for each reason a file is refused, as the two `alert` calls show it |
| UploadBox.CheckFile | src/components/UploadBox.tsx:39-57 | a file passes exactly when its type is allowed and its size is at most 50 MiB; a disallowed type is refused as such and an allowed type that is too big as too large |
| UploadBox.LimitIsInclusive | src/components/UploadBox.tsx:54 | a file of exactly 52428800 bytes is accepted and one of 52428801 bytes is refused as too large |
| UploadBox.TypeCheckedFirst | src/components/UploadBox.tsx:48-51 | a file with a refused type and too big a size gets the file-type alert |
| UploadBox.UploadBox.constructor | src/components/UploadBox.tsx:12-16 | the box mounts with no file, no highlight, no upload under way and an empty question |
| UploadBox.UploadBox.DragOver | src/components/UploadBox.tsx:19-22 | dragging over highlights the drop zone |
| UploadBox.UploadBox.DragLeave | src/components/UploadBox.tsx:24-27 | leaving removes the highlight |
| UploadBox.UploadBox.FileSelect | src/components/UploadBox.tsx:39-67 | a refused file changes nothing; an accepted one is shown, the uploading flag rises and its 2-second timer is queued; only accepted files are ever shown, waiting or reported |
| UploadBox.UploadBox.Drop | src/components/UploadBox.tsx:29-37 | a drop always removes the highlight; only the first dropped file is checked and selected; an empty drop selects nothing |
| UploadBox.UploadBox.FileInputChange | src/components/UploadBox.tsx:69-74 | a missing or empty file list selects nothing; otherwise its first file is checked and selected |
| UploadBox.UploadBox.CompleteUpload | src/components/UploadBox.tsx:63-66 | the oldest upload timer fires: the uploading flag goes down and the file goes to `onFileUpload` if the page passed one, even after it was removed from the box |
| UploadBox.UploadBox.SetQuestion | src/components/UploadBox.tsx:184 | the field takes the typed text |
| UploadBox.UploadBox.SubmitQuestion | src/components/UploadBox.tsx:76-82 | a blank question changes nothing; otherwise the question, untrimmed, goes to `onQuestionSubmit` if the page passed one and the field is cleared; no blank question is ever handed on |
| UploadBox.UploadBox.RemoveFile | src/components/UploadBox.tsx:84-89 | removing clears the shown file only: a running upload and its timer go on |
| ChatWindow.MockMessages | src/components/ChatWindow.tsx:39-59 | the sample conversation has three entries |
| ChatWindow.DisplayedMessages | src/components/ChatWindow.tsx:39 | the transcript shown is the `messages` prop when it is non-empty and the three sample entries otherwise, so it is never empty |
| ChatWindow.FallbackShape | src/components/ChatWindow.tsx:39-58 | the sample is AI, user, AI with ids "1", "2", "3" and timestamps "10:30 AM", "10:31 AM", "10:31 AM", and only its last entry cites pages 12 to 15 |
| ChatWindow.Render | src/components/ChatWindow.tsx:75-101 | the upload prompt is shown exactly when the file name is missing or empty; otherwise the header shows the file name over a non-empty transcript, which is the prop whenever the prop is non-empty |
| ChatWindow.ChatWindow.View | src/components/ChatWindow.tsx:95-209 | the chat view shows the help panel exactly when `showHelp` is set and the loading indicator exactly when `isLoading` is set |
| ChatWindow.ChatWindow.constructor | src/components/ChatWindow.tsx:28-36 | the window mounts with its props, an empty input, the help panel hidden and no calls made |
| ChatWindow.ChatWindow.SetInputMessage | src/components/ChatWindow.tsx:218 | the field takes the typed text |
| ChatWindow.ChatWindow.SendMessage | src/components/ChatWindow.tsx:61-67 | a blank input changes nothing; otherwise the trimmed input goes to `onSendMessage` if the page passed one and the field is cleared; every text handed on is non-empty and already trimmed |
| ChatWindow.ChatWindow.ToggleHelp | src/components/ChatWindow.tsx:112 | either help button flips the help panel and changes nothing else |

## Left out

- Rendering beyond the `View` datatype and the `Visibility` function is not modelled: markup, icons, class names, and the file metadata line of the chat header. The scroll-to-bottom effects are also left out; they touch only the DOM.
- Disabled inputs and buttons are not modelled as preconditions. These are the bot's input while it is typing, the chat's input while it is loading, and the upload box's question field while no file is shown or an upload is running (src/components/UploadBox.tsx:187, 192). The handlers themselves do not check these flags, and the model follows the handlers.
- Text.LowerChar: only the case mappings whose result holds an ASCII letter are modelled. These are the ASCII capitals, the Kelvin sign U+212A (to "k") and the capital I with dot above U+0130 (to "i" and U+0307). Every other character is kept as it is, whereas JavaScript lower-cases the other non-ASCII capitals too, for example "É" to "é". Those capitals lower-case to non-ASCII letters, and every keyword is ASCII, so no keyword test of `getResponse` changes. This is argued here, not proved.
- Text.LowerAppend: holds of the model's lower-casing only. JavaScript applies the context rules of Unicode SpecialCasing: the capital sigma U+03A3 becomes the final sigma U+03C2 at the end of a word and U+03C3 elsewhere, so `"A\u03A3".toLowerCase()` is not `"A".toLowerCase() + "\u03A3".toLowerCase()`. The model keeps U+03A3 as it is. Both sigmas are non-ASCII, so no keyword test of `getResponse` changes.
- Text.Lower: inherits the gaps of Text.LowerChar and Text.LowerAppend; its length bound holds for the mappings modelled.
- Clock values and random delays are not modelled. `Date.now()`, `toLocaleTimeString` and `Math.random()` become parameters, or a free choice of which timer fires next.
- Timers that fire after unmount are not modelled. Neither component cancels its timers, and the model has no unmount step.
- `alert` is modelled as the returned `Rejection`, with its text given by `UploadBox.AlertText`. The megabyte figure shown with `toFixed` is left out: it involves floating point.
- Resetting and clicking the hidden file input through `fileInputRef` is left out; it is DOM state with no effect on the component's own state.
- ResponseEngine.Reply: the nine reply texts are the source's literals. That they are pairwise distinct is not proved. So the if-and-only-if lemmas are stated on the chosen topic (`Classify`) rather than on the reply text.
- ChatWindow.MockMessages: its contract states the size of the sample. The exact texts are given by `ChatWindow.SampleText`, and `ChatWindow.FallbackShape` states the ids, senders, timestamps and page references.
