# claude-ping, modelled in Dafny

claude-ping relays notifications from Claude Code to the user. A hook drops
a JSON file into the queue directory `~/.claude-notifier/queue`. Two
consumers pick it up:

- a macOS menu bar app (`Sources/main.swift`). It rescans the queue, shows
  an alert per file, keeps an unread badge and a history, and chimes a
  reminder. When a dialog button is chosen, it types the chosen keystroke
  into Terminal followed by Return.
- a VS Code extension (`vscode-extension/src/extension.ts`). It watches
  the same directory, shows editor messages, and sends the chosen keystroke
  to the integrated terminal.

This project models what both consumers decide: which files they take,
what they delete and remember, what they show, and what a button press
sends. Everything they hand to the operating system is modelled as data:
alerts, key events and terminal text.

Modules, one per file:

- `Common`: `Option` and `Min`.
- `Text`: the Foundation string operations used here. These are whitespace
  trimming, splitting into lines, prefix and suffix tests, and sorting of
  file names.
- `Json`: the decoded JSON value. Each JSON library is a parameter
  `Decoder = string -> Option<Value>`.
- `FileSystem`: the queue directory, a class holding a map from file name
  to `Content`. Content is unreadable, valid UTF-8 text, or bytes that are
  not valid UTF-8 (with their lossy decoding).
- `Notification`: the menu bar app's `parse`.
- `AppleScript`: the `escaped` closure and the script of a simple alert,
  with a reader for AppleScript string literals.
- `Dialogs`: which buttons the permission and options dialogs show, and
  what the pressed button means.
- `Keystrokes`: the key events `sendKeystroke` posts.
- `Relay`: the `AppDelegate` state as the class `Coordinator`. A rescan is
  specified by `VisitAll`, a fold of `Visit` over the sorted queue files.
  `CheckForNotifications` is proved to compute it.
- `EditorPlugin`: the extension's `processNotificationFile`,
  `checkExistingFiles`, watcher filter, selection mapping and
  `getQueueDirectory`. Its class `Extension` holds the seen-set. It ends
  with lemmas that put both consumers side by side.

One would expect the cleanup at `Sources/main.swift:237-240` to keep the
menu bar app's seen-set within 100 names after a check. The code does not
guarantee that, and the model follows the code.
`processedFiles` is emptied only on the decoded path
(`Sources/main.swift:238-240`). A new name whose file cannot be read as
UTF-8 is inserted at line 205 and then skips that check through the
`continue` at line 213. So a full set grows past 100
(`Relay.UnreadableGrowsSeen`). The bound holds when every file of the
rescan decodes (`Relay.SeenBoundWhenReadable`). In the model of the
extension, where deletion always succeeds, the bound holds on every path
(`EditorPlugin.Extension`, `Valid`). In the extension itself, a throwing
`unlinkSync` (`vscode-extension/src/extension.ts:118`) jumps past the clear
at line 121 in the same way, after the path was marked at line 117.

## Model

| member | source | states |
|---|---|---|
| Text.Trim | Sources/main.swift:253 | The result is a contiguous slice of the input. Everything cut on either side is whitespace. The result neither starts nor ends with whitespace. |
| Text.Lines | Sources/main.swift:251 | Splitting on line feeds gives at least one piece, and no piece contains a line feed. |
| Text.JoinLinesOfLines | Sources/main.swift:251-253 | Joining the pieces of a split with line feeds gives back the text. |
| Text.LinesHeadAndTail | Sources/main.swift:251-253 | The first line is the text before the first line feed (all of it when there is none). The remaining lines, joined, are the text after it. |
| Text.BelowTotal | Sources/main.swift:199 | Any two different names are ordered one way or the other. |
| Text.BelowTransitive | Sources/main.swift:199 | The name order is transitive. |
| Text.BelowIrreflexive | Sources/main.swift:199 | No name sorts before itself. |
| Text.SortNames | Sources/main.swift:199 | `sorted()`: the result is in ascending order and is a permutation of the input. |
| Notification.OptionsFromAppend | Sources/main.swift:266-273 | The options loop over a concatenation gives the options of each part, in order. |
| Notification.OptionsFromSingle | Sources/main.swift:268-272 | An entry gives one option when it has both `label` and `keystroke`, and none otherwise. |
| Notification.OptionsFromMembers | Sources/main.swift:266-273 | There are no more options than entries. Every option comes from a complete entry, and every complete entry gives an option. |
| Notification.ParseText | Sources/main.swift:248-276 | The parser with its options loop computes `Parse`. |
| Notification.ParseFallback | Sources/main.swift:249-259 | Whenever the text is not a JSON object: the title is the text before the first line feed. The body is the trimmed remaining lines, or "Action required" when that is empty. The type is "alert" and there are no options. |
| Notification.ParseObject | Sources/main.swift:262-276 | On a JSON object, a missing or non-string title, body or type takes its default. Options are empty unless the whole array is string-to-string objects. When it is, they are exactly the complete entries. |
| Notification.ParseTwoLines | Sources/main.swift:249-259 | Two lines of plain text give the first line as title and the trimmed second line (or the default) as body. |
| Notification.ParsePlainText | Sources/main.swift:249-259 | "just some text\nmore text" becomes title "just some text", body "more text", type "alert", no options. |
| AppleScript.ReplaceCharAppend | Sources/main.swift:282-283 | Replacing a character distributes over concatenation. |
| AppleScript.EscapedCons | Sources/main.swift:281-284 | The two replacement passes escape each character on its own: a backslash becomes two, a quote becomes backslash-quote. |
| AppleScript.ReadEscaped | Sources/main.swift:281-284 | Reading an escaped text back as an AppleScript string literal gives the original text and stops at the closing quote. |
| AppleScript.TwoLiterals | Sources/main.swift:281-286 | Two escaped literals between any fixed texts read back as exactly the texts they were made from. |
| AppleScript.AlertScriptFields | Sources/main.swift:286 | The script's two string literals denote exactly the title and the body, followed by " giving up after 10". |
| Dialogs.OptionButtonTitles | Sources/main.swift:349-355 | The options dialog shows the labels of the first four options, then "Other...". |
| Dialogs.PermissionResponse | Sources/main.swift:307-335 | A keystroke is sent exactly when the modal was still live and the index is within the buttons shown. With no options the buttons are Yes/"y" and No/"n". Terminal is never focused. |
| Dialogs.OptionsResponse | Sources/main.swift:349-388 | Nothing happens after an abort. The index just past the shown options focuses Terminal. An index within them sends that option's keystroke, and every other index does nothing. |
| Dialogs.AbortedDialogIsSilent | Sources/main.swift:322-383 | The abort return code sends nothing from either dialog. |
| Dialogs.OptionsKeystrokeIsShown | Sources/main.swift:349-388 | A keystroke sent from an options dialog belongs to one of the first four options. |
| Keystrokes.CharPressesLayout | Sources/main.swift:415-430 | There is one key-down/key-up pair on virtual key 0 per ASCII character, in order. Non-ASCII characters are skipped. |
| Keystrokes.PostKeyEvents | Sources/main.swift:415-430 | The character loop posts exactly `CharPresses`. |
| Keystrokes.SendKeystroke | Sources/main.swift:392-438 | Without accessibility trust, only the trust prompt happens. With trust: the character pairs, then exactly one Return (key 36) pair. |
| Keystrokes.OnlyFinalReturn | Sources/main.swift:415-438 | No character event is on the Return key. |
| Keystrokes.SendYes | Sources/main.swift:392-438 | Sending "y" posts the y press and then Return. |
| Relay.PresentationOf | Sources/main.swift:219-228 | "ask" opens the options dialog and "permission" the permission dialog. Anything else is a simple alert with the title and body. |
| Relay.QueueFiles | Sources/main.swift:199 | Keeps exactly the listed names that are not hidden and end in ".json". |
| Relay.ScanOrder | Sources/main.swift:199 | The rescan's files are exactly those names, in ascending order, each at most as often as listed. |
| Relay.Recent | Sources/main.swift:230-233 | Keeps the last min(n, 20) entries. |
| Relay.RecentAbsorbs | Sources/main.swift:230-233 | Trimming after every append equals trimming once at the end. |
| Relay.EntriesOf | Sources/main.swift:230 | One history entry per shown notification, in order. |
| Relay.Visit | Sources/main.swift:202-241 | A seen name changes nothing. A new name's file is deleted whether or not it reads as text. A readable file leaves the seen-set within 100 names. |
| Relay.VisitEffect | Sources/main.swift:204-240 | A skipped or unreadable name adds no unread, no history and nothing shown, and an unreadable new name is still remembered. A readable new name is shown last, counted once and logged last in the trimmed history. The seen-set becomes the old set plus the name, or empty when that has more than 100 names. |
| Relay.ScanCounts | Sources/main.swift:202-241 | Over a rescan, the unread count grows by exactly the number of notifications shown. Earlier ones stay first. |
| Relay.ScanHistory | Sources/main.swift:230-233 | After a rescan that shows something, the history is the last 20 of the old history plus one entry per shown notification. A rescan that shows nothing leaves it alone. |
| Relay.HistoryBound | Sources/main.swift:230-233 | After a rescan that shows something, the history has at most 20 entries and ends with the last one shown. |
| Relay.ScanFiles | Sources/main.swift:204-217 | Only rescanned files are deleted, and others keep their content. Every rescanned name not seen before is deleted. The seen-set holds only old names and rescanned names. |
| Relay.SeenBoundWhenReadable | Sources/main.swift:237-240 | When every rescanned file reads as text, a seen-set of at most 100 names stays that way. |
| Relay.UnreadableGrowsSeen | Sources/main.swift:205-240 | An unreadable new file is remembered without the size check, so a full seen-set reaches 101 names. |
| Relay.SeenPersists | Sources/main.swift:204-240 | While a rescan cannot take the seen-set past 100 names, no remembered name is forgotten, and the set grows by at most one name per file. |
| Relay.DedupWithinWindow | Sources/main.swift:204-205 | Visiting a fresh name twice shows it once: the second visit changes nothing. |
| Relay.BuildAlertExample | Sources/main.swift:219-235 | The build-finished notification becomes a simple alert and one more unread. |
| Relay.Coordinator.constructor | Sources/main.swift:32-39 | Starts with nothing seen, logged or unread, reminders on, and no timer or dialog. |
| Relay.Coordinator.CheckForNotifications | Sources/main.swift:190-246 | A rescan started during another changes nothing. Otherwise the seen-set, history, unread count and directory become `VisitAll` over the sorted queue files. The guard flag is cleared, and the reminder starts if the batch was not empty and something is unread. No other field changes, and the invariant is kept. |
| Relay.Coordinator.Rescan | Sources/main.swift:196-245 | Inside the guard, the seen-set, history, unread count and directory become `VisitAll` over the sorted queue files. The reminder starts when the batch was not empty and something is unread. |
| Relay.Coordinator.ProcessFiles | Sources/main.swift:202-241 | The loop computes `VisitAll` over the given files. |
| Relay.Coordinator.ProcessFile | Sources/main.swift:203-240 | One loop iteration computes `Visit`. |
| Relay.Coordinator.Record | Sources/main.swift:230-240 | A shown notification is logged last in the history trimmed to 20 and counted once. An oversized seen-set is emptied. |
| Relay.Coordinator.StartReminderIfNeeded | Sources/main.swift:453-459 | A timer runs afterwards iff one ran before or reminders are on and something is unread, so a second call changes nothing. It keeps "timer ⇒ enabled and unread". |
| Relay.Coordinator.StopReminder | Sources/main.swift:461-464 | No timer runs. |
| Relay.Coordinator.ReminderTick | Sources/main.swift:455-458 | A live timer always chimes, because something is unread. |
| Relay.Coordinator.ToggleReminder | Sources/main.swift:481-489 | Flips the setting. Off stops the timer, and on starts it when something is unread. |
| Relay.Coordinator.ClearBadge | Sources/main.swift:491-496 | Nothing unread and no timer. |
| Relay.Coordinator.SendTest | Sources/main.swift:472-479 | Shows the test alert, counts one more unread, appends the test entry without trimming, and starts the reminder if reminders are on. |
| Relay.Coordinator.AppDidResignActive | Sources/main.swift:58-66 | A dialog waiting for input is aborted and forgotten. |
| Relay.Coordinator.RunModal | Sources/main.swift:357-368 | The options dialog's modal (the permission dialog's, lines 315-326, is the same). The dialog counts as answered iff a button was pressed before the user switched away. An abort yields the abort return code. No dialog is recorded afterwards. |
| Relay.Coordinator.ShowPermissionAlert | Sources/main.swift:297-337 | Switching away sends nothing, and a pressed button is answered by `PermissionResponse`. |
| Relay.Coordinator.ShowOptionsAlert | Sources/main.swift:339-390 | Switching away sends nothing, and a pressed button is answered by `OptionsResponse`. |
| FileSystem.Directory.Remove | Sources/main.swift:211-216 | Deletes one file and leaves the others. |
| EditorPlugin.SubstitutionPlain | vscode-extension/src/extension.ts:49 | A replacement without `$` is inserted literally. |
| EditorPlugin.QueueDirectoryExpandsFirstTilde | vscode-extension/src/extension.ts:46-50 | With a home directory free of `$`, only the first tilde is replaced by the home directory. Later tildes are kept. |
| EditorPlugin.DefaultQueueDirectory | vscode-extension/src/extension.ts:48-49 | The default setting resolves to the home directory followed by "/.claude-notifier/queue". |
| EditorPlugin.StartupPaths | vscode-extension/src/extension.ts:90-100 | The startup scan processes the queue-joined path of every listed ".json" name, and nothing when listing throws. |
| EditorPlugin.StartupPathsAppend | vscode-extension/src/extension.ts:92-96 | The scan of a concatenated listing is the scan of each part in turn, so paths keep the order of their names in the listing. |
| EditorPlugin.StartupScanIsWider | vscode-extension/src/extension.ts:92 | Every file the menu bar app takes, the startup scan takes too. A hidden ".json" file is taken only by the extension. |
| EditorPlugin.DialogFor | vscode-extension/src/extension.ts:126-132 | Type "ask" opens the ask dialog with the raw options, "permission" the permission dialog, and anything else a plain message. |
| EditorPlugin.Process | vscode-extension/src/extension.ts:102-136 | A seen path is skipped, and a missing, unreadable or unparsable file changes nothing. A missing file is reported as such. Otherwise the file is deleted, and the seen-set becomes the old set plus the path, or empty when that has more than 100 names. The outcome is `Threw` for a parsed `null` and the dialog chosen by `DialogFor` for anything else. A set within 100 stays within 100. |
| EditorPlugin.ProcessConsumesIffParsed | vscode-extension/src/extension.ts:113-135 | A file is consumed exactly when it is new, readable and parses as JSON. |
| EditorPlugin.ProcessAllBounds | vscode-extension/src/extension.ts:90-123 | A sequence of paths keeps the seen-set within 100, gives one outcome per path, and deletes no file outside the sequence. |
| EditorPlugin.AskOptions | vscode-extension/src/extension.ts:139 | The options the dialog uses are the first four entries, in order, each with its `label` and `keystroke`. This holds whenever those four follow the schema, whatever comes after them. |
| EditorPlugin.AskNotificationFlow | vscode-extension/src/extension.ts:126-157 | For a parsed "ask" notification whose first four options follow the schema: the i-th of the first four entries is the i-th button. Choosing its label sends its keystroke unless an earlier entry has the same label. |
| EditorPlugin.AskButtons | vscode-extension/src/extension.ts:139-141 | The labels of the first four options, then "Other...". |
| EditorPlugin.FindCaption | vscode-extension/src/extension.ts:153 | Finds the first option with the label, or reports that none has it. |
| EditorPlugin.AskSelection | vscode-extension/src/extension.ts:139-157 | "Other..." always focuses the terminal. Dismissal and an empty label send nothing. Any other label sends the keystroke of the first shown option carrying it, whenever one does. |
| EditorPlugin.PermissionSelection | vscode-extension/src/extension.ts:160-172 | "Yes" sends "y", "No" sends "n", and anything else nothing. The terminal is never just focused. |
| EditorPlugin.Extension.constructor | vscode-extension/src/extension.ts:19 | Starts with an empty seen-set. |
| EditorPlugin.Extension.ProcessNotificationFile | vscode-extension/src/extension.ts:102-136 | Computes `Process` on the seen-set and the directory, and keeps the bound. |
| EditorPlugin.Extension.CheckExistingFiles | vscode-extension/src/extension.ts:90-100 | Computes `ProcessAll` over the startup paths, and keeps the bound. |
| EditorPlugin.Extension.OnWatchEvent | vscode-extension/src/extension.ts:66-75 | Only a rename event naming a ".json" file processes anything. That processing is `Process` of the joined path. |
| EditorPlugin.PlainTextFileDiffers | vscode-extension/src/extension.ts:113-135 | A non-JSON text file is consumed and shown by the menu bar app (`Sources/main.swift`, lines 207-217 and 248-259). The extension leaves it on disk, unmarked. |
| EditorPlugin.UnreadableFileDiffers | Sources/main.swift:205-214 | An unreadable file is deleted and remembered by the menu bar app, and kept and not remembered by the extension (`vscode-extension/src/extension.ts`, lines 113 and 133-135). |

## Left out

- Menus, the status icon and its badge text, and date formatting: AppKit presentation with no decision in it.
- Directory watching, the polling timer, `fs.watch`, `setTimeout`, dispatch queues and the fixed delays before a keystroke: only the order of effects is modelled. The 30-second reminder interval and the playing of the sound are reduced to `ReminderTick`'s answer.
- FileManager, `fs`, UTF-8 decoding, JSONSerialization and `JSON.parse` are not modelled. They become the directory map, the `Content` datatype and `Decoder` parameters. A failing `removeItem`/`unlinkSync` is not modelled: deletion always succeeds. A directory that cannot be listed is an absent listing.
- `NSAlert`, `abortModal`, `NSApp.activate`/`hide`, `NSRunningApplication`, `AXIsProcessTrusted`, `CGEvent` and the `osascript`/`afplay` subprocesses: the modal outcome and the trust status are inputs, and the outputs are values (`Presentation`, `Response`, `KeyEvent`). A `CGEvent` that fails to be created is not modelled.
- The VS Code API (messages, terminals, configuration, commands, `showTestNotification`): the selection, the configured path and the home directory are inputs. The message text `title: body` is not modelled.
- Relay.Coordinator.CheckForNotifications: every history entry of one rescan gets the same timestamp `now`. The source reads the clock once per entry.
- Text.SortNames: Swift's `String` ordering (Unicode canonical ordering of grapheme clusters) is modelled as lexicographic order on code points.
- AppleScript.Escaped: `replacingOccurrences` matches whole Swift characters (grapheme clusters), but the model replaces code points. A quote followed by a combining mark is one character that the source leaves unescaped, so its literal closes early. The model escapes the quote. AppleScript.EscapedCons, ReadEscaped, TwoLiterals and AlertScriptFields are proved for the model's escaping and do not cover such titles or bodies.
- Relay.IsQueueFile: `hasPrefix`/`hasSuffix` compare whole Swift characters, but the model compares code points. A name such as "a.json" followed by a combining mark is skipped by the source and taken by the model.
- Text.Trim: `whitespacesAndNewlines` is modelled as a fixed set of code points. Swift's grapheme clustering (a "\r\n" pair is one character) is not modelled.
- Keystrokes.SendKeystroke: characters are code points, not grapheme clusters. A character is ASCII when its code point is below 128.
- EditorPlugin.StartupPaths: `path.join` is modelled as joining with "/", without normalising `..` or repeated separators.
- EditorPlugin.AskOptions: gives no option list when `options` is missing or not an array, or when one of its first four entries lacks a string `label` or `keystroke`. Entries past the fourth do not matter. What the source shows for such input is not modelled: a missing `options` makes `slice` throw, and a non-string label becomes a button title of another type.
- EditorPlugin.Process: exceptions from showing the dialog are not modelled. A parsed `null` is reported as `Threw`, after the file was marked and deleted, as in the source.
- Package.swift: a build manifest with no logic.
