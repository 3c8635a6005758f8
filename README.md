# Konsole tmux control-mode client, modelled in Dafny

Konsole can act as a tmux control-mode client (`tmux -CC`). In that mode tmux
writes plain-text lines to the terminal. Some lines are `%`-notifications,
such as `%output %1 hello\015\012` and `%window-add @3`. Others are
command replies framed by `%begin` … `%end` (or `%error`). The emulator picks
one notification object per line, which is the current alternative of
`TmuxNotificationVariant`. It feeds the object each code unit of the line
through `push_char`. At the end of the line it calls `execute`, which hands
the decoded arguments to the `TmuxServerManager`. The manager keeps one
command in flight and the commands waiting behind it. It pairs each reply
with the handlers of the command in flight, and it tracks the known sessions
and the active one.

The model covers the following:

- `Codepoints`, `Decimal`: code units (`uint` values); decimal digits and
  the integer conversions the parsers rely on.
- `TmuxIds`: `parseTmuxId` and its session/window/pane wrappers, with the way
  tmux writes ids as their inverse.
- `TmuxCommands`: the `TmuxCommand` value, its two one-shot handlers and
  `operator bool`.
- `TmuxQueue`: the one-in-flight discipline of `sendCommand`,
  `receiveCommandResponse` and `receiveCommandError`, as functions. It also
  holds the FIFO-pairing theorem.
- `TmuxReplies`: the two reply parsers of the manager. One reads the `ls`
  lines in `updateSessions`; the other reads the `@konsole_size` value.
- `TmuxServer`: the `TmuxServerManager` class. Each method is proved against
  the `TmuxQueue` functions, and the loops are proved against the
  `TmuxReplies` folds.
- `TmuxOutput`, `TmuxWindows`, `TmuxArguments`, `TmuxTextNotifications`,
  `TmuxResponse`: one class per notification struct.
  - `PushChar` is proved to take exactly one step of a pure step function.
  - Lemmas about the fold of that step over a whole line state what the
    notification reads from the line tmux writes.
  - `Execute` is proved to call the right `receive*` method with the decoded
    arguments.
- `TmuxNotifications`: the notification-kind enumeration and the variant.

The classes model the code as written, including its defects. Where a lexer
is defective, a corrected step function is stated next to the one the class
follows, and the intended property is proved about the corrected step (see
"## Findings").

Calls to the `receive*` methods, which have no body in the header, are
recorded in the manager's `received` log. `doSendCommand` emissions are
recorded in `sentCommands`, and `setGuiWindowSize` calls in `guiSizes`. The
handlers that ran are recorded in a ghost `fired` log.

## Model

| member | source | states |
|---|---|---|
| Decimal.ToInt | src/Vt102Emulation.h:426 | `QString::toInt` on a token: succeeds exactly for a non-empty digit string whose value fits in `int`, and then yields that value; on failure yields 0 |
| Decimal.ToULongLong | src/Vt102Emulation.h:557 | `QString::toULongLong`: succeeds exactly for a non-empty digit string whose value fits in 64 bits; on failure yields 0 |
| Decimal.ToIntFormat | src/Vt102Emulation.h:426 | every `int`-sized number written in decimal converts back to itself |
| Decimal.ToULongLongFormat | src/Vt102Emulation.h:557 | every 64-bit number written in decimal converts back to itself |
| TmuxIds.ParseTmuxIdCases | src/Vt102Emulation.h:417-432 | the three outcomes: `(-1, ok)` exactly for `<C>*`; the `toInt` result of the rest for any other token of length at least 2 that starts with `C`; `-2` and not ok exactly when the token is shorter than 2 or does not start with `C`; an accepted id is between -1 and `INT_MAX` |
| TmuxIds.ParseFormatTmuxId | src/Vt102Emulation.h:417-432 | round trip: every id from -1 to `INT_MAX`, as tmux writes it, is parsed back to itself with `ok` |
| TmuxIds.ParseTmuxSessionId | src/Vt102Emulation.h:434-437 | accepts only `$` tokens; `(-1, ok)` exactly for `$*` |
| TmuxIds.ParseTmuxWindowId | src/Vt102Emulation.h:439-442 | accepts only `@` tokens; `(-1, ok)` exactly for `@*` |
| TmuxIds.ParseTmuxPaneId | src/Vt102Emulation.h:444-447 | accepts only `%` tokens; `(-1, ok)` exactly for `%*` |
| TmuxCommands.EmptyCommand | src/Vt102Emulation.h:135-140 | the default command has empty text and is not valid (`operator bool` is false) |
| TmuxCommands.MakeCommand | src/Vt102Emulation.h:145-159 | keeps the text and response handler; installs the logging default exactly when no error handler is given; valid exactly when a response handler is given |
| TmuxCommands.TmuxCommand.Executed | src/Vt102Emulation.h:169-174 | after `execute` the response handler is gone, so the command is no longer valid; its text and error handler are unchanged |
| TmuxCommands.TmuxCommand.ErrorExecuted | src/Vt102Emulation.h:175-180 | after `executeError` the error handler is gone, so the command is no longer valid; its text and response handler are unchanged |
| TmuxCommands.AttachCommand | src/Vt102Emulation.h:207 | the placeholder the constructor queues is valid, has empty text and has `tmuxAttachHandler` as its response handler |
| TmuxCommands.ListSessionsCommand | src/Vt102Emulation.h:219-221 | the command `init` sends is valid and its response goes to `updateSessions` |
| TmuxQueue.SendPaired | src/Vt102Emulation.h:336-344 | `sendCommand` of a valid command preserves the pairing invariant, with the command appended to the commands sent |
| TmuxQueue.RespondPaired | src/Vt102Emulation.h:261-278 | `receiveCommandResponse` preserves the pairing invariant: the reply goes to the oldest live command, and the next one is promoted and emitted |
| TmuxQueue.RunPaired | src/Vt102Emulation.h:261-278 | FIFO pairing over any error-free run of sends and replies: each reply goes to its own command's response handler, in send order; each command is emitted once, in order; at most one is in flight |
| TmuxQueue.IdleRunPairs | src/Vt102Emulation.h:336-344 | from an idle manager, the i-th reply runs the response handler of the i-th command sent; the emitted texts are a prefix of the sent commands; every reply answers an emitted command, and at most one is unanswered in flight |
| TmuxQueue.AttachedRunPairs | src/Vt102Emulation.h:205-211 | with the attach placeholder in flight (the intended initial state), the first reply goes to `tmuxAttachHandler`, later replies pair FIFO with the sent commands, and the placeholder is never emitted |
| TmuxQueue.InitialStateUndisciplined | src/Vt102Emulation.h:205-211 | the constructed state has a command waiting while none is in flight |
| TmuxQueue.InitialStateMispairs | src/Vt102Emulation.h:205-211 | as constructed, `init` followed by tmux's attach reply hands that reply to the `ls` handler and then emits the empty placeholder as a command |
| TmuxQueue.ErrorLetsNextSendOvertake | src/Vt102Emulation.h:249-260 | an error reply runs the error handler and leaves the queue; the next `sendCommand` is emitted at once, ahead of every waiting command |
| TmuxQueue.ErrorStallsQueue | src/Vt102Emulation.h:249-260 | with no valid command in flight, replies and errors change nothing, so the waiting commands stay unsent until a new `sendCommand` |
| TmuxQueue.FailKeepsQueue | src/Vt102Emulation.h:249-260 | `receiveCommandError` never dequeues and never emits; it runs only the error handler, once; without a valid command it changes nothing |
| TmuxReplies.SessionLineConsumed | src/Vt102Emulation.h:232-243 | the count of consumed code units never decreases and never exceeds the line length, so the name slice is in range |
| TmuxReplies.ScanSessionLine | src/Vt102Emulation.h:232-243 | on `$<digits> <name>` the loop ends with counter 2, the id's value, and the digits, `$` and space consumed |
| TmuxReplies.SessionEntryOfLine | src/Vt102Emulation.h:223-248 | round trip: each `ls` line `$<id> <name>` yields exactly `(id, name)` |
| TmuxReplies.StrayPrefixShiftsName | src/Vt102Emulation.h:232-245 | code units before the `$` are skipped but not counted, so the name slice starts too early (`x$1 ab` yields name ` ab`) |
| TmuxReplies.SizeFailedSticks | src/Vt102Emulation.h:312-316 | after an unexpected code unit the callback has returned: nothing later changes the outcome |
| TmuxReplies.KonsoleSizeOfFormatted | src/Vt102Emulation.h:298-320 | round trip: `W,H` written in decimal is read as width W and height H and applied |
| TmuxReplies.KonsoleSizeRejects | src/Vt102Emulation.h:310-316 | a code unit that is neither a digit nor the first comma stops the callback without applying a size |
| TmuxReplies.KonsoleSizeRejectsSecondComma | src/Vt102Emulation.h:310-316 | a second comma is rejected |
| TmuxServer.KonsoleSizeCommand | src/Vt102Emulation.h:298 | the size query is valid; its callback sizes the new session; its text is `show -v -q -t $`, then the session active before the change, then ` @konsole_size`, the option it queries |
| TmuxServer.HandlerSizes | src/Vt102Emulation.h:298-320 | a handler makes at most one `setGuiWindowSize` call. It does so exactly when it is the `@konsole_size` callback and the reply is one well-formed line, and the call carries that session and the parsed size |
| TmuxServer.ParseKonsoleSize | src/Vt102Emulation.h:301-317 | the callback's loop computes the `@konsole_size` fold: whether the size is applied, the width and the height |
| TmuxServer.TmuxServerManager.constructor | src/Vt102Emulation.h:205-211 | the constructed state: no command in flight, the attach placeholder queued, no sessions, active session -1, init not complete, nothing emitted |
| TmuxServer.TmuxServerManager.SendCommand | src/Vt102Emulation.h:336-344 | the queue state after `sendCommand` is `Send` of the old one |
| TmuxServer.TmuxServerManager.Init | src/Vt102Emulation.h:217-222 | `init` sends the `ls` command |
| TmuxServer.TmuxServerManager.UpdateSessions | src/Vt102Emulation.h:223-248 | one `(id, name)` pair per reply line, each the `SessionEntry` fold of its line |
| TmuxServer.TmuxServerManager.RunResponseHandler | src/Vt102Emulation.h:298-320 | running a handler adds exactly its `HandlerSizes` to the `setGuiWindowSize` log |
| TmuxServer.TmuxServerManager.ReceiveCommandResponse | src/Vt102Emulation.h:261-278 | the queue state becomes `Respond` of the old one; the size log grows by what the current response handler sets, or not at all without a valid command |
| TmuxServer.TmuxServerManager.ReceiveCommandError | src/Vt102Emulation.h:249-260 | the queue state becomes `Fail` of the old one |
| TmuxServer.TmuxServerManager.ReceiveSessionChanged | src/Vt102Emulation.h:291-323 | the session gets the new name and becomes active; an unknown session additionally sends the `@konsole_size` query; a known one sends nothing |
| TmuxServer.TmuxServerManager.Receive | src/Vt102Emulation.h:279-290 | a call of a bodiless `receive*` method is recorded, and nothing else changes |
| TmuxServer.SessionChangedOnlyTouchesOne | src/Vt102Emulation.h:293-297 | the session map update renames or adds one session and keeps every other |
| TmuxOutput.DecodeEscapedChar | src/Vt102Emulation.h:672-691 | a code unit escaped as tmux does is decoded back to itself |
| TmuxOutput.DecodeEscaped | src/Vt102Emulation.h:672-691 | round trip: decoding the octal escaping of any data appends exactly that data |
| TmuxOutput.DecodeBackslashAndOne | src/Vt102Emulation.h:672-691 | `\134\061` decodes to a backslash and `1` |
| TmuxOutput.EscapeFlushedByNonDigit | src/Vt102Emulation.h:683-688 | a non-digit inside an escape pushes the partial value and then itself |
| TmuxOutput.DecodeShortEscape | src/Vt102Emulation.h:683-688 | `\12X` decodes to 10 and `X` |
| TmuxOutput.DecodeNonOctalDigits | src/Vt102Emulation.h:675-682 | `8` and `9` are accepted as digits: `\089` decodes to 73 |
| TmuxOutput.BackslashRestartsEscape | src/Vt102Emulation.h:672-673 | a backslash restarts the escape and keeps the partial value |
| TmuxOutput.DecodeRestartedEscape | src/Vt102Emulation.h:672-682 | the kept partial value carries over: `\1\234` decodes to 668 |
| TmuxOutput.OpenEscapeNotPushed | src/Vt102Emulation.h:674-682 | while an escape is open, its digits push nothing |
| TmuxOutput.OutputToken | src/Vt102Emulation.h:660-670 | before the first space, code units are collected as the pane token |
| TmuxOutput.OutputPayload | src/Vt102Emulation.h:671-692 | after the first space, every code unit goes through the octal decoder, spaces included |
| TmuxOutput.OutputLineDecoded | src/Vt102Emulation.h:658-693 | round trip: `%<pane> <escaped data>` yields that pane and exactly the data |
| TmuxOutput.ExtendedOutputScanStuck | src/Vt102Emulation.h:545-594 | as written, the argument counter is the number of spaces capped at 2; it never reaches 3 and no escape is ever open |
| TmuxOutput.ExtendedOutputPayloadLost | src/Vt102Emulation.h:545-594 | as written, after two spaces any line leaves the buffer empty |
| TmuxOutput.ExtendedOutputStopsAtTwo | src/Vt102Emulation.h:562-593 | as written, in the third argument code units are dropped and the state does not change |
| TmuxOutput.ExtendedOutputToken | src/Vt102Emulation.h:569-570 | the pane and age tokens are collected |
| TmuxOutput.ExtendedOutputHeaderRead | src/Vt102Emulation.h:547-561 | the header `%<pane> <age> ` is read as that pane and age |
| TmuxOutput.ExtendedOutputLineLosesPayload | src/Vt102Emulation.h:545-594 | as written, a well-formed `%<pane> <age> : <data>` line yields the pane and age but no data |
| TmuxOutput.CorrectedExtendedOutputToken | src/Vt102Emulation.h:569-570 | corrected step: the third token (the `:`) is collected too |
| TmuxOutput.CorrectedExtendedOutputPayload | src/Vt102Emulation.h:571-593 | corrected step: after the `:` every code unit goes through the octal decoder |
| TmuxOutput.CorrectedExtendedOutputHeaderRead | src/Vt102Emulation.h:547-561 | corrected step: the header is read as pane and age |
| TmuxOutput.CorrectedExtendedOutputLineDecoded | src/Vt102Emulation.h:545-594 | corrected step, round trip: `%<pane> <age> : <escaped data>` yields that pane, age and exactly the data |
| TmuxOutput.TmuxOutputNotification.constructor | src/Vt102Emulation.h:695-700 | starts in the lexer's start state |
| TmuxOutput.TmuxOutputNotification.PushChar | src/Vt102Emulation.h:658-693 | takes one `OutputStep`; whole-line results are in `OutputLineDecoded` |
| TmuxOutput.TmuxOutputNotification.Execute | src/Vt102Emulation.h:654-657 | reports the pane and the decoded data |
| TmuxOutput.TmuxExtendedOutputNotification.constructor | src/Vt102Emulation.h:595-601 | starts in the lexer's start state |
| TmuxOutput.TmuxExtendedOutputNotification.PushChar | src/Vt102Emulation.h:545-594 | takes one as-written step; whole-line results are in `ExtendedOutputLineLosesPayload` |
| TmuxOutput.TmuxExtendedOutputNotification.Execute | src/Vt102Emulation.h:541-544 | reports pane, age and data |
| TmuxWindows.ScanWindowId | src/Vt102Emulation.h:980-991 | the window-id lexer on a whole line: the start state for an empty line; the window's value for `@` followed by digits 1-9 only; the error state (window -2) otherwise |
| TmuxWindows.WindowIdErrorSticks | src/Vt102Emulation.h:986-990 | once in the error state, the lexer stays there |
| TmuxWindows.WindowIdRejectsZero | src/Vt102Emulation.h:984 | as written, `@10` ends in the error state |
| TmuxWindows.ScanCorrectedWindowDigits | src/Vt102Emulation.h:980-991 | corrected step: `@` and any digits yield their value |
| TmuxWindows.CorrectedWindowIdRoundTrip | src/Vt102Emulation.h:980-991 | corrected step, round trip: `@<window>` as tmux writes it is read as that window |
| TmuxWindows.UnlinkedWindowAddAlwaysFails | src/Vt102Emulation.h:913-925 | as written, every non-empty line ends in the error state, `@<n>` included |
| TmuxWindows.UnlinkedWindowAddErrorSticks | src/Vt102Emulation.h:913-925 | once in the error state, the lexer stays there |
| TmuxWindows.ScanWindowDigits | src/Vt102Emulation.h:1028-1029 | digits 1-9 after `@` accumulate the window's value |
| TmuxWindows.ScanPaneDigits | src/Vt102Emulation.h:1034-1035 | digits 1-9 after `%` accumulate the pane's value |
| TmuxWindows.WindowPaneLine | src/Vt102Emulation.h:1024-1041 | `@<w> %<p>` with digits 1-9 is read as window w and pane p |
| TmuxWindows.WindowPaneErrorSticks | src/Vt102Emulation.h:1036-1040 | once in the error state, the lexer stays there |
| TmuxWindows.WindowPaneRejectsZero | src/Vt102Emulation.h:1028 | as written, `@10 %1` ends in the error state with window -2 |
| TmuxWindows.ScanCorrectedPaneWindowDigits | src/Vt102Emulation.h:1028-1029 | corrected step: any digits after `@` accumulate the window's value |
| TmuxWindows.ScanCorrectedPaneDigits | src/Vt102Emulation.h:1034-1035 | corrected step: any digits after `%` accumulate the pane's value |
| TmuxWindows.CorrectedWindowPaneRoundTrip | src/Vt102Emulation.h:1024-1041 | corrected step, round trip: `@<window> %<pane>` as tmux writes it is read as that window and that pane, for every window and pane |
| TmuxWindows.TmuxWindowAddNotification.constructor | src/Vt102Emulation.h:992-993 | starts with no argument read and window 0 |
| TmuxWindows.TmuxWindowAddNotification.PushChar | src/Vt102Emulation.h:980-991 | takes one window-id step; whole-line results are in `ScanWindowId` |
| TmuxWindows.TmuxWindowAddNotification.Execute | src/Vt102Emulation.h:976-979 | reports the window |
| TmuxWindows.TmuxWindowCloseNotification.constructor | src/Vt102Emulation.h:1014-1015 | starts with no argument read and window 0 |
| TmuxWindows.TmuxWindowCloseNotification.PushChar | src/Vt102Emulation.h:1002-1013 | takes one window-id step; whole-line results are in `ScanWindowId` |
| TmuxWindows.TmuxWindowCloseNotification.Execute | src/Vt102Emulation.h:998-1001 | reports the window |
| TmuxWindows.TmuxUnlinkedWindowCloseNotification.constructor | src/Vt102Emulation.h:948-949 | starts with no argument read and window 0 |
| TmuxWindows.TmuxUnlinkedWindowCloseNotification.PushChar | src/Vt102Emulation.h:936-947 | takes one window-id step; whole-line results are in `ScanWindowId` |
| TmuxWindows.TmuxUnlinkedWindowCloseNotification.Execute | src/Vt102Emulation.h:932-935 | reports the window |
| TmuxWindows.TmuxUnlinkedWindowRenamedNotification.constructor | src/Vt102Emulation.h:970-971 | starts with no argument read and window 0 |
| TmuxWindows.TmuxUnlinkedWindowRenamedNotification.PushChar | src/Vt102Emulation.h:958-969 | takes one window-id step; whole-line results are in `ScanWindowId` |
| TmuxWindows.TmuxUnlinkedWindowRenamedNotification.Execute | src/Vt102Emulation.h:954-957 | reports the window |
| TmuxWindows.TmuxUnlinkedWindowAddNotification.constructor | src/Vt102Emulation.h:926-927 | starts with no argument read and window 0 |
| TmuxWindows.TmuxUnlinkedWindowAddNotification.PushChar | src/Vt102Emulation.h:913-925 | takes one step of the as-written lexer with two separate `if`s; whole-line results are in `UnlinkedWindowAddAlwaysFails` |
| TmuxWindows.TmuxUnlinkedWindowAddNotification.Execute | src/Vt102Emulation.h:909-912 | reports the window |
| TmuxWindows.TmuxWindowPaneChangedNotification.constructor | src/Vt102Emulation.h:1042-1044 | starts with no argument read, window 0 and pane 0 |
| TmuxWindows.TmuxWindowPaneChangedNotification.PushChar | src/Vt102Emulation.h:1024-1041 | takes one window/pane step; whole-line results are in `WindowPaneLine` |
| TmuxWindows.TmuxWindowPaneChangedNotification.Execute | src/Vt102Emulation.h:1020-1023 | reports window and pane |
| TmuxArguments.IdTextCollects | src/Vt102Emulation.h:1062-1064 | every code unit except the first space is collected |
| TmuxArguments.IdTextLine | src/Vt102Emulation.h:1053-1065 | `<token> <text>` is read as the id the token parses to and the whole text after the first space, spaces included |
| TmuxArguments.IdTextRoundTrip | src/Vt102Emulation.h:1053-1065 | round trip: an id as tmux writes it, followed by a text, is read back as that id and that text |
| TmuxArguments.SessionWindowChangedLine | src/Vt102Emulation.h:805-826 | `$<s> @<w>`: the session is read while lexing, and `execute` parses window w from the buffer |
| TmuxArguments.ClientSessionCollects | src/Vt102Emulation.h:481-483 | code units that end no argument are collected |
| TmuxArguments.ClientSessionLine | src/Vt102Emulation.h:466-484 | `<client> <token> <name>` is read as the client, the session the token parses to (or -2 when it does not parse), and the rest of the line as the name |
| TmuxArguments.SubscriptionCollects | src/Vt102Emulation.h:893-895 | code units that end no argument are collected |
| TmuxArguments.SubscriptionField | src/Vt102Emulation.h:851-896 | a token followed by a space is converted by the branch of the current argument |
| TmuxArguments.SubscriptionNameSession | src/Vt102Emulation.h:853-863 | the name and session arguments are read back |
| TmuxArguments.SubscriptionWindowIndex | src/Vt102Emulation.h:864-878 | the window and window-index arguments are read back |
| TmuxArguments.SubscriptionPaneValue | src/Vt102Emulation.h:879-896 | the pane is read back; the lone `:` starts the value, which is collected with its spaces |
| TmuxArguments.SubscriptionLineRead | src/Vt102Emulation.h:851-896 | round trip: every field of a well-formed `%subscription-changed` line is read back |
| TmuxArguments.ScanLayoutChange | src/Vt102Emulation.h:610-630 | as written, the lexer only counts spaces (up to three); every other code unit is dropped |
| TmuxArguments.LayoutChangeLosesArguments | src/Vt102Emulation.h:610-630 | as written, any line yields window -2 and empty layouts and flags |
| TmuxArguments.CorrectedLayoutChangeCollects | src/Vt102Emulation.h:610-630 | corrected step: code units that end no argument are collected |
| TmuxArguments.CorrectedLayoutChangeField | src/Vt102Emulation.h:610-630 | corrected step: a token followed by a space is converted by the branch of the current argument |
| TmuxArguments.CorrectedLayoutChangeLine | src/Vt102Emulation.h:610-630 | corrected step, round trip: `@<w> <layout> <visible> <flags>` yields window w, both layouts and the flags |
| TmuxArguments.TmuxSessionChangedNotification.constructor | src/Vt102Emulation.h:784-787 | starts in the id/text lexer's start state |
| TmuxArguments.TmuxSessionChangedNotification.PushChar | src/Vt102Emulation.h:771-783 | takes one `$` id/text step; whole-line results are in `IdTextRoundTrip` |
| TmuxArguments.TmuxSessionChangedNotification.Execute | src/Vt102Emulation.h:767-770 | has the effect of `receiveSessionChanged` with the session and the name |
| TmuxArguments.TmuxWindowRenamedNotification.constructor | src/Vt102Emulation.h:1066-1069 | starts in the id/text lexer's start state |
| TmuxArguments.TmuxWindowRenamedNotification.PushChar | src/Vt102Emulation.h:1053-1065 | takes one `@` id/text step; whole-line results are in `IdTextRoundTrip` |
| TmuxArguments.TmuxWindowRenamedNotification.Execute | src/Vt102Emulation.h:1049-1052 | reports the window and the name |
| TmuxArguments.TmuxSessionWindowChangedNotification.constructor | src/Vt102Emulation.h:828-831 | starts in the id/text lexer's start state |
| TmuxArguments.TmuxSessionWindowChangedNotification.PushChar | src/Vt102Emulation.h:814-826 | takes one `$` id/text step; whole-line results are in `SessionWindowChangedLine` |
| TmuxArguments.TmuxSessionWindowChangedNotification.Execute | src/Vt102Emulation.h:805-813 | reports session and window exactly when the window token parses, and nothing otherwise |
| TmuxArguments.TmuxClientSessionChangedNotification.constructor | src/Vt102Emulation.h:451-457 | starts with no argument, empty buffers and session -2 |
| TmuxArguments.TmuxClientSessionChangedNotification.PushChar | src/Vt102Emulation.h:466-484 | takes one client/session step; whole-line results are in `ClientSessionLine` |
| TmuxArguments.TmuxClientSessionChangedNotification.Execute | src/Vt102Emulation.h:462-465 | reports client, session and name |
| TmuxArguments.TmuxSubscriptionChangedNotification.constructor | src/Vt102Emulation.h:897-904 | starts in the subscription lexer's start state |
| TmuxArguments.TmuxSubscriptionChangedNotification.PushChar | src/Vt102Emulation.h:851-896 | takes one subscription step; whole-line results are in `SubscriptionLineRead` |
| TmuxArguments.TmuxSubscriptionChangedNotification.Execute | src/Vt102Emulation.h:847-850 | reports all six fields |
| TmuxArguments.TmuxLayoutChangeNotification.constructor | src/Vt102Emulation.h:631-636 | starts in the layout lexer's start state |
| TmuxArguments.TmuxLayoutChangeNotification.PushChar | src/Vt102Emulation.h:610-630 | takes one as-written layout step; whole-line results are in `LayoutChangeLosesArguments` |
| TmuxArguments.TmuxLayoutChangeNotification.Execute | src/Vt102Emulation.h:606-609 | reports window, layouts and flags |
| TmuxTextNotifications.CollectLine | src/Vt102Emulation.h:409-412 | appending each code unit leaves the buffer holding the line exactly |
| TmuxTextNotifications.PaneLineRead | src/Vt102Emulation.h:508-518 | a pane id as tmux writes it, collected whole, is parsed back by `execute` |
| TmuxTextNotifications.TmuxClientDetachedNotification.constructor | src/Vt102Emulation.h:413 | starts with an empty client |
| TmuxTextNotifications.TmuxClientDetachedNotification.PushChar | src/Vt102Emulation.h:409-412 | appends the code unit |
| TmuxTextNotifications.TmuxClientDetachedNotification.Execute | src/Vt102Emulation.h:405-408 | reports the client |
| TmuxTextNotifications.TmuxConfigErrorNotification.constructor | src/Vt102Emulation.h:503 | starts with an empty error |
| TmuxTextNotifications.TmuxConfigErrorNotification.PushChar | src/Vt102Emulation.h:499-502 | appends the code unit |
| TmuxTextNotifications.TmuxConfigErrorNotification.Execute | src/Vt102Emulation.h:495-498 | reports the error text |
| TmuxTextNotifications.TmuxContinueNotification.constructor | src/Vt102Emulation.h:523 | starts with an empty buffer |
| TmuxTextNotifications.TmuxContinueNotification.PushChar | src/Vt102Emulation.h:519-522 | appends the code unit |
| TmuxTextNotifications.TmuxContinueNotification.Execute | src/Vt102Emulation.h:508-518 | reports the pane exactly when the token parses, and then empties the buffer either way |
| TmuxTextNotifications.TmuxExitNotification.constructor | src/Vt102Emulation.h:536 | starts with an empty buffer |
| TmuxTextNotifications.TmuxExitNotification.PushChar | src/Vt102Emulation.h:532-535 | appends the code unit |
| TmuxTextNotifications.TmuxExitNotification.Execute | src/Vt102Emulation.h:528-531 | reports the reason |
| TmuxTextNotifications.TmuxMessageNotification.constructor | src/Vt102Emulation.h:649 | starts with an empty buffer |
| TmuxTextNotifications.TmuxMessageNotification.PushChar | src/Vt102Emulation.h:645-648 | appends the code unit |
| TmuxTextNotifications.TmuxPaneModeChangedNotification.constructor | src/Vt102Emulation.h:718 | starts with an empty buffer |
| TmuxTextNotifications.TmuxPaneModeChangedNotification.PushChar | src/Vt102Emulation.h:714-717 | appends the code unit |
| TmuxTextNotifications.TmuxPaneModeChangedNotification.Execute | src/Vt102Emulation.h:705-713 | reports the pane exactly when the token parses |
| TmuxTextNotifications.TmuxPasteBufferChangedNotification.constructor | src/Vt102Emulation.h:731 | starts with an empty buffer |
| TmuxTextNotifications.TmuxPasteBufferChangedNotification.PushChar | src/Vt102Emulation.h:727-730 | appends the code unit |
| TmuxTextNotifications.TmuxPasteBufferChangedNotification.Execute | src/Vt102Emulation.h:723-726 | reports the buffer name |
| TmuxTextNotifications.TmuxPasteBufferDeletedNotification.constructor | src/Vt102Emulation.h:744 | starts with an empty buffer |
| TmuxTextNotifications.TmuxPasteBufferDeletedNotification.PushChar | src/Vt102Emulation.h:740-743 | appends the code unit |
| TmuxTextNotifications.TmuxPasteBufferDeletedNotification.Execute | src/Vt102Emulation.h:736-739 | reports the buffer name |
| TmuxTextNotifications.TmuxPauseNotification.constructor | src/Vt102Emulation.h:762 | starts with an empty buffer |
| TmuxTextNotifications.TmuxPauseNotification.PushChar | src/Vt102Emulation.h:758-761 | appends the code unit |
| TmuxTextNotifications.TmuxPauseNotification.Execute | src/Vt102Emulation.h:749-757 | reports the pane exactly when the token parses |
| TmuxTextNotifications.TmuxSessionRenamedNotification.constructor | src/Vt102Emulation.h:800 | starts with an empty buffer |
| TmuxTextNotifications.TmuxSessionRenamedNotification.PushChar | src/Vt102Emulation.h:796-799 | appends the code unit |
| TmuxTextNotifications.TmuxSessionRenamedNotification.Execute | src/Vt102Emulation.h:792-795 | reports the new name |
| TmuxTextNotifications.TmuxSessionsChangedNotification.Execute | src/Vt102Emulation.h:836-839 | reports that the session list changed |
| TmuxResponse.ResponseCollectsLine | src/Vt102Emulation.h:393-398 | inside a reply, a line is appended to the last entry, and the earlier lines are untouched |
| TmuxResponse.ResponseIgnoresOutsideReply | src/Vt102Emulation.h:393-398 | outside the `Response` state nothing is collected |
| TmuxResponse.TmuxResponseNotification.constructor | src/Vt102Emulation.h:373-377 | starts in state `Begin` with no lines |
| TmuxResponse.TmuxResponseNotification.PushChar | src/Vt102Emulation.h:393-398 | takes one `ResponseStep` |
| TmuxResponse.TmuxResponseNotification.Execute | src/Vt102Emulation.h:383-392 | after `%end`, has the effect of `receiveCommandResponse`; after `%error`, of `receiveCommandError`; otherwise changes nothing in the manager; always ends in state `None` |
| TmuxNotifications.TmuxNotificationVariant.Kind | src/Vt102Emulation.h:1072-1098 | no alternative has a guard-line kind (`Begin`, `End`, `Error`); the kind is `None` exactly for the null notification and `Response` exactly for the reply |

## Left out

- The `Vt102Emulation` class is not part of this model. That covers how it
  recognises `%`-lines and reply framing, when it calls `push_char` and
  `execute`, and how it appends a new reply line before the line's code units.
- `makeNotification` and `tmuxCommandLookup` are declared here but defined
  elsewhere, and are not part of this model. The `std::visit` dispatch over the
  variant is not modelled beyond `Kind`.
- The structs without constructors are assumed value-initialised: zeros and
  empty buffers, as when the variant alternative is built with `{}`.
- `TmuxNullNotification` has no state and empty `execute`/`push_char`, so it is
  a payload-less alternative of the variant.
- `TmuxMessageNotification`'s `execute` only shows a `QMessageBox`. That is UI,
  so the class has no `Execute`.
- `qDebug` output, `Q_ASSERT`s and every Qt signal except `doSendCommand` are
  not modelled.
- `TmuxSessionManager` objects: a session is its name in a map from id to name.
  `setGuiWindowSize` is a logged call, because its body is not in the header.
- Handlers are opaque tags, not closures. The default error handler captures
  `this` of a command that is later copied, so it can dangle. It only logs, and
  is modelled as a tag that does nothing.
- TmuxServer.TmuxServerManager.UpdateSessions: `updatedSessions.push_back(session,
  std::move(name))` has no matching overload in `QVector`. The model pushes the
  pair evidently meant. The vector is local and dropped, so `updateSessions`
  has no effect on the manager.
- Decimal.ToInt: accepts only ASCII digits. Qt's `toInt` also accepts
  surrounding whitespace and a sign. tmux never writes either in these tokens.
- Decimal.ToULongLong: the same restriction, for `toULongLong`.
- The `int` accumulators (`window * 10 + …`, `session * 10 + …` and the
  `@konsole_size` width and height) are unbounded, so signed overflow is not
  modelled. The `uint` accumulator `octParseChar` is modelled with its
  wrap-around modulo 2^32.
- TmuxResponse.TmuxResponseNotification.PushChar: requires a reply line to
  exist while in state `Response`. The source calls `last()` there, which is
  undefined on an empty list; the emulator starts every reply line before
  feeding it.

## Findings

| source | as written | input that shows it | evidently intended | confidence | as-written member | corrected member |
|---|---|---|---|---|---|---|
| src/Vt102Emulation.h:205-211 | the constructor queues the attach placeholder in `m_pendingCommands` while `m_currentCommand` is empty, so nothing is in flight | `init()` sends `ls`, then tmux's reply to the attach arrives: it goes to the `ls` handler, and the empty placeholder is emitted as a command | the placeholder is the command in flight, so the attach reply reaches `tmuxAttachHandler` and later replies pair in order | medium, not executed | TmuxQueue.InitialStateMispairs | TmuxQueue.AttachedRunPairs |
| src/Vt102Emulation.h:984 | the digit test is `cc > 0x30` (also at lines 918, 940, 962 and 1006), so `0` is not a digit in a window id | `%window-add @10` yields window -2 | `cc >= 0x30`, so every window id is read | high, not executed | TmuxWindows.WindowIdRejectsZero | TmuxWindows.CorrectedWindowIdRoundTrip |
| src/Vt102Emulation.h:1028 | the digit tests of `%window-pane-changed` are `cc > 0x30` (lines 1028 and 1034), so `0` is not a digit in its window or pane id | `%window-pane-changed @10 %1` yields window -2 | `cc >= 0x30`, so every window and pane id is read | high, not executed | TmuxWindows.WindowPaneRejectsZero | TmuxWindows.CorrectedWindowPaneRoundTrip |
| src/Vt102Emulation.h:915-924 | two separate `if`s instead of `if … else if`: the `@` that sets argument 1 is then tested as a digit and sets the error | `%unlinked-window-add @1` yields window -2 | `else if`, as in the other window lexers | high, not executed | TmuxWindows.UnlinkedWindowAddAlwaysFails | TmuxWindows.CorrectedWindowIdRoundTrip |
| src/Vt102Emulation.h:569 | code units are collected only while `arg < 2`, so the `:` token is never collected and argument 3 is never reached | `%extended-output %1 0 : hi` yields pane 1, age 0 and empty data | collect while `arg <= 2`, so the `:` starts the escaped data | high, not executed | TmuxOutput.ExtendedOutputLineLosesPayload | TmuxOutput.CorrectedExtendedOutputLineDecoded |
| src/Vt102Emulation.h:610-630 | `push_char` has no branch that appends to `lexBuffer`, so every token is empty when converted | `%layout-change @1 l v *` yields window -2 and empty layouts and flags | append every other code unit, as the other lexers do | high, not executed | TmuxArguments.LayoutChangeLosesArguments | TmuxArguments.CorrectedLayoutChangeLine |
