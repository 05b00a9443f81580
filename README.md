# KaguyaGo chat, plugin-management and dice core in Dafny

KaguyaGo is a QQ bot built on the gonebot framework. This project models
three of its plugins and proves properties about them.

- **chatgpt**, in four modules:
  - `ChatSession` (session.dfy) is the session store. The manager keeps
    a map from group to current session id and an append-only list of
    sessions. Each session keeps an append-only history.
  - `SessionCommands` (command.dfy) holds the `cgpt session` commands
    `ls`, `new`, `reset`, `switch` and `rename`, whose replies are
    outcome values.
  - `ChatContext` (chatgpt.dfy) builds the conversation sent to the
    backend:
    - the history is folded into alternating user and assistant turns;
    - a backward scan keeps a suffix within the 2000-byte budget;
    - the omission marker is prefixed when turns are dropped;
    - the first kept turn is wrapped in the instruction template.
  - `ChatPipeline` (pipeline.dfy) is the group-message handler:
    - the per-minute request counter;
    - text extraction from message segments;
    - the random engagement gate;
    - decoding of `@<id> ` mentions in the backend's reply;
    - the two history records the handler writes.
- **plugin_manage** (plugin_manage.dfy, module `PluginManage`): the
  enablement state of every plugin, with these parts:
  - the list-backed group set;
  - the precedence rule of `IsEnabled`;
  - the manager's queries;
  - the bulk enable/disable operation;
  - the middleware that gates every plugin's handlers.
- **dice** (dice.dfy, module `Dice`) models these steps:
  - defaulting the captures of the `.r` pattern;
  - rolling, where the draws of `rand.Intn` are an input;
  - formatting the reply line.

`Text` (text.dfy) holds the string and number helpers the plugins share:
- decimal formatting and parsing;
- UTF-8 byte length, for Go's `len` on a string;
- `strings.Split` and `strings.Join`;
- rune truncation and character replacement.

Strings are sequences of Unicode scalar values, i.e. Go runes. Wherever
Go's `len` counts bytes, the model uses `Text.Utf8Len`.

The building blocks are matched to how the Go code works:
- Go structs that are mutated through pointers become classes. These are
  `Session`, `SessionManager`, `RpmCounter` and `PluginManager`.
- Loops in the Go code become methods with loop invariants. Each method is
  proved against a specification: its result is tied to a function of the
  inputs, or its promise is stated outright. Lemmas state the properties of
  those functions.
- The clock and random draws are parameters.
- Go panics (a negative slice start, a nil dereference, an out-of-range
  index, a failed type assertion) are explicit outcomes.

## Model

| member | source | states |
|---|---|---|
| ChatSession.EffectivePrompt | plugin/chatgpt/session.go:88-91 | an empty prompt is replaced by the default persona; a non-empty prompt is kept verbatim; the result is never empty |
| ChatSession.ShownName | plugin/chatgpt/session.go:52-55 | an empty name shows as the unnamed label; any other name shows as itself |
| ChatSession.DialogCount | plugin/chatgpt/session.go:40 | a summary of `cnt` records covers min(cnt, len(History)) records, and none for cnt <= 0 |
| ChatSession.DialogLineOneNewline | plugin/chatgpt/session.go:41-46 | a summary line has exactly one newline, because newlines in the message become spaces |
| ChatSession.DialogOfLines | plugin/chatgpt/session.go:40-47 | a summary of n records has exactly n lines |
| ChatSession.DialogLines | plugin/chatgpt/session.go:38-49 | `GetDialog(cnt)` emits min(cnt, len(History)) lines |
| ChatSession.DialogOfSnoc | plugin/chatgpt/session.go:40-47 | the summary grows by one record's line per loop round |
| ChatSession.Session.constructor | plugin/chatgpt/session.go:92-97 | a new session has the given id, group, prompt and start time, an empty name and an empty history |
| ChatSession.Session.AddHistory | plugin/chatgpt/session.go:29-36 | exactly one record (user id, clock, message, toMe) is appended at the end; earlier records and all other fields are unchanged |
| ChatSession.Session.GetDialog | plugin/chatgpt/session.go:38-49 | the loop's result is the summary of the first `cnt` records (each cut to 10 runes, newlines as spaces), with min(cnt, len) lines |
| ChatSession.Session.GetBrief | plugin/chatgpt/session.go:51-66 | the brief is the id, the shown name ("未命名" for ""), the formatted start time, the prompt cut to its first 20 runes, the record count and the summary of the first 4 records, in that layout; it starts with the id and name and ends with the summary |
| ChatSession.Session.GetDetail | plugin/chatgpt/session.go:68-79 | the detail is the id, the shown name, the formatted start time, the whole prompt, the record count and the summary of the first 10 records, in that layout; it starts with the id and name and ends with the summary |
| ChatSession.FirstMatch | plugin/chatgpt/session.go:185-187 | the index of the first session matching the query in creation order, or the length when none matches |
| ChatSession.FilterGroup | plugin/chatgpt/session.go:126-130 | exactly the sessions of the group are kept, and only sessions of the list |
| ChatSession.FilterGroupSnoc | plugin/chatgpt/session.go:126-130 | filtering preserves order: a session appended to the list is listed last exactly when it is in the group |
| ChatSession.Paginate | plugin/chatgpt/session.go:132-148 | with zero items the slice start is -5 and Go panics; otherwise the page is clamped into [1, ceil(n/5)] and its 1 to 5 items are `xs[(page-1)*5 : min(page*5, n)]`, and every page before the last is full |
| ChatSession.PageOfPosition | plugin/chatgpt/session.go:142-147 | the item at position k is the (k mod 5)-th item of page k/5 + 1 |
| ChatSession.SessionManager.constructor | plugin/chatgpt/session.go:81-85 | an empty manager: no group pointers and no sessions |
| ChatSession.SessionManager.Find | plugin/chatgpt/session.go:164-189 | `lo.Find`: null exactly when no session matches; otherwise the first matching session in creation order |
| ChatSession.SessionManager.GetGroupSessionByIdOrName | plugin/chatgpt/session.go:184-189 | the first session of the group whose id or name equals the key; null exactly when the group has none (ids need not be unique) |
| ChatSession.SessionManager.GetSessionById | plugin/chatgpt/session.go:174-182 | the first session with that id in any group; null exactly when there is none |
| ChatSession.SessionManager.GetSessionByName | plugin/chatgpt/session.go:164-172 | the first session with that name in any group; null exactly when there is none |
| ChatSession.SessionManager.GetGroupCurrentSession | plugin/chatgpt/session.go:106-116 | null when the group has no pointer; otherwise the id-or-name lookup of the stored id, a session of that group |
| ChatSession.SessionManager.CurrentSessionPresent | plugin/chatgpt/session.go:106-116 | under the manager's invariant, a group has a current session exactly when it has a pointer |
| ChatSession.SessionManager.ListGroupHistorySessions | plugin/chatgpt/session.go:126-130 | a session is listed exactly when it is one of the manager's sessions and belongs to the group (the order is that of `FilterGroup`) |
| ChatSession.SessionManager.ListGroupHistorySessionsByPage | plugin/chatgpt/session.go:132-148 | panics exactly when the group has no sessions; otherwise 1 to 5 sessions of the group, the clamped page and ceil(n/5) pages |
| ChatSession.SessionManager.CreateGroupSession | plugin/chatgpt/session.go:87-104 | one fresh session is appended with id `group-<gid>-<now>`, the effective prompt, an empty name, an empty history, the clock reading as start time and user 0; only the group's pointer changes, to its id; the invariant is kept |
| ChatSession.SessionManager.ResetGroupSession | plugin/chatgpt/session.go:118-124 | without a current session nothing changes; otherwise one session with the old prompt, the new id and start time, no name and no history is appended and the group is repointed, while the old session stays listed |
| ChatSession.SessionManager.SwitchGroupSessionByIdOrName | plugin/chatgpt/session.go:150-155 | the pointer changes, to the match's id, only when a session of that group matches; the session list is unchanged |
| ChatSession.SessionManager.SetSessionName | plugin/chatgpt/session.go:157-162 | by id only and across all groups, the first session with that id is renamed; nothing happens when there is none; no other field or session changes |
| SessionCommands.ListCommand | plugin/chatgpt/command.go:37-58 | as written: it panics exactly when the group has no sessions, so the empty-group reply never occurs; the listing reports the page length as the count; `-s` gives the detail of a matching session of the group, or not-found when none matches |
| SessionCommands.ListCountIsPageLength | plugin/chatgpt/command.go:49 | with more than five sessions, the count shown on page 1 is 5, less than the group's number of sessions |
| SessionCommands.ListCommandChecked | plugin/chatgpt/command.go:37-58 | the corrected `ls`: it never panics; the empty-group reply occurs exactly for a group without sessions; the count is the group's total |
| SessionCommands.NewCommand | plugin/chatgpt/command.go:65-78 | a newly created current session (start time now, user 0), named only when a name is given, with no check for a name collision; the reply carries its id and the name |
| SessionCommands.ResetCommand | plugin/chatgpt/command.go:83-88 | the reset's effect; the reply names the session that was current before the reset, or is the nil dereference when there was none |
| SessionCommands.SwitchCommand | plugin/chatgpt/command.go:94-98 | the switch's effect; the reply reports success whether or not a session matched |
| SessionCommands.RenameTarget | plugin/chatgpt/command.go:105-119 | the renamed session is listed, and exists only when no session of the group already has the new name |
| SessionCommands.RenameCommand | plugin/chatgpt/command.go:105-120 | refused with no change when a group session has the new name as id or name; without `-s` the current session is renamed (or nil is dereferenced); with `-s` the rename goes by id across groups; only the target's name changes |
| ChatContext.RunEnd | plugin/chatgpt/chatgpt.go:44 | the inner loop stops at the first bot record (user id 114514) at or after the start, or at the end |
| ChatContext.TurnsAlternate | plugin/chatgpt/chatgpt.go:42-64 | the turns start with a user turn and strictly alternate roles |
| ChatContext.AssistantTurnsAreBotMessages | plugin/chatgpt/chatgpt.go:57-62 | the assistant turns are the bot records' messages, verbatim and in order |
| ChatContext.TurnsCount | plugin/chatgpt/chatgpt.go:42-64 | for a non-empty history there are 2·(bot records) turns, plus one when the last record is not the bot's |
| ChatContext.LastTurn | plugin/chatgpt/chatgpt.go:53-63 | the last turn is an assistant turn exactly when the last record is the bot's, and its content is then that message |
| ChatContext.RenderRun | plugin/chatgpt/chatgpt.go:44-52 | a run of user records renders as the lines `<id>: """<msg>"""` (plus the directed-at-bot mark) joined in order |
| ChatContext.TurnsFlatten | plugin/chatgpt/chatgpt.go:42-64 | folding loses and reorders nothing: the turns read one after the other are the records rendered in order |
| ChatContext.SuffixTotalMono | plugin/chatgpt/chatgpt.go:68-80 | a longer suffix weighs at least as much |
| ChatContext.ScanDown | plugin/chatgpt/chatgpt.go:70-80 | the scan stops at an index where the running total would exceed the budget, with everything after it fitting |
| ChatContext.LastOver | plugin/chatgpt/chatgpt.go:68-80 | the index where the backward running total would first exceed 2000, or -1 when all fits |
| ChatContext.LastOverIs | plugin/chatgpt/chatgpt.go:68-80 | the scan index is the only index that satisfies both budget facts |
| ChatContext.Cut | plugin/chatgpt/chatgpt.go:68-80 | the start of the kept suffix; it is 0 when everything fits |
| ChatContext.CutIs | plugin/chatgpt/chatgpt.go:71-76 | the cut is the overflow index when that turn is a user turn, and the next index otherwise |
| ChatContext.CutCases | plugin/chatgpt/chatgpt.go:69-77 | the cut in each of its three cases: no overflow, a user turn at the overflow, an assistant turn there |
| ChatContext.CutRestFits | plugin/chatgpt/chatgpt.go:70-80 | the turns after the cut total at most 2000 bytes |
| ChatContext.CutBeforeOver | plugin/chatgpt/chatgpt.go:70-80 | one more turn before the cut would not fit |
| ChatContext.CutAtUser | plugin/chatgpt/chatgpt.go:73-76 | on alternating turns, the kept suffix starts with a user turn |
| ChatContext.ContextPanics | plugin/chatgpt/chatgpt.go:81-116 | `Reply` indexes out of range exactly when the history is empty, or when its last record is a bot reply that alone exceeds the budget |
| ChatContext.ContextWhenAllFits | plugin/chatgpt/chatgpt.go:68-116 | when everything fits, nothing is dropped, no marker is added, and only the first turn is wrapped in the template |
| ChatContext.ContextShape | plugin/chatgpt/chatgpt.go:81-116 | the result is the suffix from the cut; only its first turn changes, by the omission marker (exactly when the cut is > 0) and the template with the persona |
| ChatContext.ContextBudget | plugin/chatgpt/chatgpt.go:68-84 | the first turn sent is a user turn, the turns after it fit the budget, and the turn before the cut would not have |
| ChatContext.ContextAlternates | plugin/chatgpt/chatgpt.go:42-84 | the turns sent still alternate roles, starting with a user turn |
| ChatContext.CollectRun | plugin/chatgpt/chatgpt.go:43-52 | the inner loop ends at the run's end having built the run's text |
| ChatContext.BuildTurns | plugin/chatgpt/chatgpt.go:38-64 | the nested loops build exactly the turn folding of the history |
| ChatContext.FindStop | plugin/chatgpt/chatgpt.go:68-80 | the backward loop computes the cut |
| ChatContext.Assemble | plugin/chatgpt/chatgpt.go:81-116 | the marker, slice and template steps give the assembled context, or its index panic |
| ChatContext.ReplyMessages | plugin/chatgpt/chatgpt.go:37-116 | `Reply` up to the completion request yields the context built from the session's history and prompt with the source's fixed instruction template (`Instruction`) |
| ChatContext.ReplyMessagesWith | plugin/chatgpt/chatgpt.go:38-116 | the folding, the budget scan, the marking and the wrapping, for any template, give the context `BuildContext` specifies |
| ChatPipeline.Answers | plugin/chatgpt/main.go:36-43 | one answer per request |
| ChatPipeline.WithinPeriod | plugin/chatgpt/main.go:36-43 | within the current period, the k-th further request is admitted exactly when count + k + 1 <= rpm |
| ChatPipeline.PeriodQuota | plugin/chatgpt/main.go:36-43 | a request more than a minute after the period start opens a new period in which exactly the first rpm requests are admitted |
| ChatPipeline.RpmCounter.constructor | plugin/chatgpt/main.go:30-34 | a zero counter, with Go's zero time as the period start and the configured rpm |
| ChatPipeline.RpmCounter.Require | plugin/chatgpt/main.go:36-43 | the counter resets after more than a minute, then counts the request; the answer is count <= rpm |
| ChatPipeline.ThenAssoc | plugin/chatgpt/main.go:155-164 | chaining extraction results is associative |
| ChatPipeline.ExtractAppend | plugin/chatgpt/main.go:155-164 | the text of a + b is that of a followed by that of b, and the first panic stops it |
| ChatPipeline.ExtractPanics | plugin/chatgpt/main.go:161-162 | extraction panics exactly when some text segment in the message has a non-string `text` value |
| ChatPipeline.Vanishes | plugin/chatgpt/main.go:156-163 | a mention of the bot itself, and a segment that is neither `at` nor `text`, contribute nothing |
| ChatPipeline.PanicSticks | plugin/chatgpt/main.go:161-162 | a panic in a prefix is a panic of the whole message |
| ChatPipeline.CollectText | plugin/chatgpt/main.go:154-164 | the extraction loop computes the text of the message (`@<qq> ` per other mention, the text of text segments) or its panic |
| ChatPipeline.Draws | plugin/chatgpt/main.go:178 | the draws of `rand.Intn(n)` are exactly [0, n) |
| ChatPipeline.EngagingDraws | plugin/chatgpt/main.go:169-181 | a message directed at the bot engages on all 100 draws; any other message engages on 10 draws while the history has fewer than 5 records, and on 60 draws otherwise |
| ChatPipeline.DigitEnd | plugin/chatgpt/main.go:200 | the end of the greedy `[0-9]+` run |
| ChatPipeline.LineEnd | plugin/chatgpt/main.go:200 | the end of `.*` on a line, where `.` excludes the newline |
| ChatPipeline.LeftmostMatch | plugin/chatgpt/main.go:200-203 | the leftmost position where the unanchored `([0-9]+) ` matches, or none |
| ChatPipeline.Submatch | plugin/chatgpt/main.go:200-210 | `FindStringSubmatch`: none exactly when the pattern matches nowhere; otherwise non-empty digits and a rest without a newline |
| ChatPipeline.DecodeMentions | plugin/chatgpt/main.go:197-214 | the decoding loop builds the reply's segments as written |
| ChatPipeline.OneAt | plugin/chatgpt/main.go:198-213 | a reply with one `@` becomes the text before it, then its piece decoded |
| ChatPipeline.LeadingAt | plugin/chatgpt/main.go:198-213 | a reply starting with its only `@` leads with an empty text |
| ChatPipeline.NoMentionVerbatim | plugin/chatgpt/main.go:197-199 | a reply without `@` is sent as exactly its text |
| ChatPipeline.LeadingTextVerbatim | plugin/chatgpt/main.go:198-199 | the text before the first `@` leads the message verbatim |
| ChatPipeline.RoundTripWith | plugin/chatgpt/main.go:198-213 | any piece decoder that decodes every mention as intended decodes a reply written as text plus `@<id> <text>` mentions as intended |
| ChatPipeline.PiecesIntended | plugin/chatgpt/main.go:202-213 | such a decoder decodes a run of mention pieces as intended |
| ChatPipeline.DigitEndAt | plugin/chatgpt/main.go:200 | the digit run ends at the first non-digit |
| ChatPipeline.LineEndAt | plugin/chatgpt/main.go:200 | the line ends at the first newline, or at the end |
| ChatPipeline.MentionLayout | plugin/chatgpt/main.go:200-203 | where the digits, the space and the text of a mention lie within a piece |
| ChatPipeline.DecodePieceAt | plugin/chatgpt/main.go:203-212 | a piece with no digit before the match decodes to the mention and the rest of the line |
| ChatPipeline.PieceAsWritten | plugin/chatgpt/main.go:203-212 | a piece with a mention after digit-free text decodes to that mention and its first line |
| ChatPipeline.OnePieceAsWritten | plugin/chatgpt/main.go:203-212 | a piece `<id> <text>` decodes as intended when the text is one line |
| ChatPipeline.RoundTrip | plugin/chatgpt/main.go:197-214 | as written, replies whose mention texts hold no `@` and no newline decode as intended |
| ChatPipeline.AddressKept | plugin/chatgpt/main.go:203-206 | a piece with no digit after its `@` is kept as `"@" + piece`, so that `@` is not lost |
| ChatPipeline.MentionNoAt | plugin/chatgpt/main.go:198 | a mention piece built from texts without `@` holds no `@` |
| ChatPipeline.DropsAfterNewline | plugin/chatgpt/main.go:200-212 | as written, the lines after a mention's first line are lost |
| ChatPipeline.DropsBeforeDigits | plugin/chatgpt/main.go:200-212 | as written, the text between an `@` and a later `<digits> ` is lost |
| ChatPipeline.DroppedExamples | plugin/chatgpt/main.go:200-212 | `@1 a\nb` loses `b`, and `@x 1 y` loses `x ` |
| ChatPipeline.OnePieceAnchored | plugin/chatgpt/main.go:200-212 | with the pattern anchored, a piece `<id> <text>` decodes as intended for any text |
| ChatPipeline.AnchoredRoundTrip | plugin/chatgpt/main.go:197-214 | with the pattern anchored, every reply written as text plus mentions decodes as intended |
| ChatPipeline.AnchoredKeepsPiece | plugin/chatgpt/main.go:203-206 | with the pattern anchored, a piece not starting with a digit is kept whole with its `@` |
| ChatPipeline.AnchoredKeepsLines | plugin/chatgpt/main.go:200-212 | with the pattern anchored, the lines after a mention's first line stay in its text |
| ChatPipeline.CurrentOrNewSession | plugin/chatgpt/main.go:149-152 | the group's current session, untouched; or one fresh session with the default persona, id `group-<gid>-<now>`, no name, no history and start time now, appended and made current |
| ChatPipeline.RecordMessage | plugin/chatgpt/main.go:154-181 | an extraction panic or empty text records nothing; otherwise one record is appended, and the outcome is the gate's decision on the new history length; every other field of the session stays |
| ChatPipeline.OnGroupMessage | plugin/chatgpt/main.go:146-181 | the current session or a new one with the seconds reading (pointer and list changed only then), its whole history afterwards (old or empty, plus the record with the nanosecond reading unless extraction panicked or gave no text), the gate's decision, and every other session unchanged |
| ChatPipeline.RecordReply | plugin/chatgpt/main.go:197-221 | the reply is decoded as written and recorded as one history record of user 114514 with toMe false |
| ChatPipeline.ReplyIsLastTurn | plugin/chatgpt/main.go:220 | a recorded reply becomes the last turn of the next context, as an assistant turn holding the reply verbatim |
| PluginManage.Position | plugin/plugin_manage/main.go:49-50 | the index of the first occurrence of g, or the length |
| PluginManage.PositionIsFirst | plugin/plugin_manage/main.go:49-50 | an occurrence of g with no g before it is the first occurrence |
| PluginManage.Added | plugin/plugin_manage/main.go:39-46 | after `Add(g)`, g is listed, the members are the old ones plus g, the old list is kept as a prefix, and no duplicate is introduced |
| PluginManage.AddedIdempotent | plugin/plugin_manage/main.go:39-46 | adding twice is adding once |
| PluginManage.Removed | plugin/plugin_manage/main.go:48-55 | no-op when g is absent; otherwise the first occurrence of g is cut out and the rest stays in order |
| PluginManage.RemovedMultiset | plugin/plugin_manage/main.go:48-55 | one copy of g is taken out, and nothing else |
| PluginManage.RemovedMembers | plugin/plugin_manage/main.go:48-55 | every other value is listed afterwards exactly when it was before |
| PluginManage.RemovedNoDuplicates | plugin/plugin_manage/main.go:48-64 | on a duplicate-free list, g is gone afterwards and no duplicate appears |
| PluginManage.Add | plugin/plugin_manage/main.go:39-46 | the scan-and-append loop computes `Added` |
| PluginManage.Remove | plugin/plugin_manage/main.go:48-55 | the scan-and-cut loop computes `Removed` |
| PluginManage.Contains | plugin/plugin_manage/main.go:57-64 | true exactly when the group is listed |
| PluginManage.NewPluginState | plugin/plugin_manage/main.go:74-82 | a fresh state is visible with empty lists, and is enabled in every group |
| PluginManage.IsEnabled | plugin/plugin_manage/main.go:84-100 | precedence: globally off gives false; then the disabled list gives false; then the enabled list gives true; otherwise the default |
| PluginManage.Toggle | plugin/plugin_manage/main.go:225-231 | the loop body for one known plugin gives that plugin's toggled state |
| PluginManage.ToggledEffect | plugin/plugin_manage/main.go:225-231 | on duplicate-free lists, one toggle puts the group in exactly the chosen list, keeps both lists duplicate-free, and touches no other group |
| PluginManage.ToggledAgain | plugin/plugin_manage/main.go:225-231 | toggling the same way again changes nothing that matters |
| PluginManage.ToggledAnswers | plugin/plugin_manage/main.go:84-100 | afterwards the plugin is enabled in the group exactly when it is on globally and the toggle enabled it; other groups answer as before |
| PluginManage.ToggleAll | plugin/plugin_manage/main.go:217-233 | bulk toggling keeps the set of plugins |
| PluginManage.Unknown | plugin/plugin_manage/main.go:217-223 | the invalid ids are at most as many as the given ids |
| PluginManage.UnknownMembers | plugin/plugin_manage/main.go:217-223 | an id is reported invalid exactly when it is listed and names no plugin |
| PluginManage.ToggleAllEffect | plugin/plugin_manage/main.go:216-240 | bulk toggling keeps the lists duplicate-free, leaves unnamed plugins unchanged, and leaves each named plugin toggled |
| PluginManage.ToggleAllAnswers | plugin/plugin_manage/main.go:216-240 | afterwards a named plugin is enabled in the group exactly when it is on globally and `enable` holds; every other plugin and group answers as before |
| PluginManage.EnabledDisabledPartition | plugin/plugin_manage/main.go:200-213 | the enabled and disabled lists split the given groups, each entry counted once |
| PluginManage.EnabledOfMembers | plugin/plugin_manage/main.go:204-210 | a group is in the enabled list exactly when it is given and the plugin is enabled there |
| PluginManage.DisabledOfMembers | plugin/plugin_manage/main.go:204-210 | a group is in the disabled list exactly when it is given and the plugin is disabled there |
| PluginManage.PluginManager.constructor | plugin/plugin_manage/main.go:12-14 | the manager starts with no plugin states |
| PluginManage.PluginManager.RegisterPlugin | plugin/plugin_manage/main.go:17-19 | the load hook gives the plugin a fresh state and changes no other state |
| PluginManage.PluginManager.IsPluginEnabledGlobally | plugin/plugin_manage/main.go:153-159 | true exactly when the plugin is known and globally on |
| PluginManage.PluginManager.IsPluginEnabled | plugin/plugin_manage/main.go:162-168 | the error occurs exactly for an unknown plugin, and the answer is then (false, "插件<id>不存在"); the answer is true exactly when the plugin is known and enabled in the group |
| PluginManage.PluginManager.ListPlugins | plugin/plugin_manage/main.go:186-197 | invisible plugins are excluded; visible plugins are partitioned by `IsEnabled`, each listed once |
| PluginManage.PluginManager.GetEnabledGroupsOfPlugin | plugin/plugin_manage/main.go:200-213 | both lists are empty for an unknown plugin; otherwise the given groups are split in order into enabled and disabled |
| PluginManage.PluginManager.EnablePlugin | plugin/plugin_manage/main.go:216-240 | the new states are the bulk toggle of the old ones; the count is the number of entries (repeats included) naming a known plugin; the error is absent exactly when no id is unknown, and otherwise lists the unknown ids |
| PluginManage.PluginManager.Admits | plugin/plugin_manage/main.go:22-33 | the manager itself always passes; a private message uses the global flag, a group message uses per-group enablement, and other events pass |
| Dice.ParseBound | plugin/dice/view.go:36 | a capture of at most k digits parses below 10^k |
| Dice.Defaulted | plugin/dice/view.go:52-77 | the defaults are num 1, min 1, max 100, sign +1, offset 0; each is replaced only by a non-empty capture, and `-` gives the sign -1; the pattern bounds num < 100, min and max < 10000 and offset < 100000 |
| Dice.ParamsOf | plugin/dice/view.go:52-77 | the field-by-field assignments give the defaulted parameters |
| Dice.Ordered | plugin/dice/view.go:126-128 | after the swap min <= max, with the same two bounds and the other fields unchanged |
| Dice.Faces | plugin/dice/view.go:139 | the argument of `rand.Intn` is at least 1, so the call cannot panic |
| Dice.SumBounds | plugin/dice/view.go:138-141 | n rolls within [lo, hi] sum to between n·lo and n·hi |
| Dice.DoDice | plugin/dice/view.go:125-151 | the result carries the swapped bounds; num 0 gives no rolls, sum 0 and res 0; otherwise exactly num rolls, each in [min, max], their sum, and res = sum + sign·offset |
| Dice.ResultFits | plugin/dice/view.go:136-143 | a result from the pattern's captures fits easily in a 64-bit int |
| Dice.RollTexts | plugin/dice/view.go:115-120 | one decimal text per roll |
| Dice.Format | plugin/dice/view.go:100-123 | the formatting loop builds the text: "" without dice, else `<num>D<range><offset> = <rolls joined by +><offset> = <res>` |
| Dice.RollsTextSnoc | plugin/dice/view.go:115-120 | the rolls text grows by `+` and one roll per loop round |
| Dice.RollsRoundTrip | plugin/dice/view.go:115-120 | splitting the rolls text at `+` gives back one decimal text per roll, which parses to that roll |
| Dice.NoEqualsInPieces | plugin/dice/view.go:105-122 | none of the three parts of the reply holds `=` |
| Dice.DiceTextParts | plugin/dice/view.go:100-123 | with dice, the reply splits at `=` into exactly the formula, the tally and the result |
| Text.NatToDecimal | plugin/dice/view.go:105 | `%d` of a non-negative number is a non-empty text |
| Text.DecimalDigits | plugin/dice/view.go:119 | `%d` of a non-negative number is all digits with no leading zero |
| Text.ParseNatToDecimal | plugin/chatgpt/main.go:209 | parsing the decimal text of n gives n back |
| Text.SignedDecimal | plugin/dice/view.go:110 | `%+d` always writes the sign, which is `+` exactly for values >= 0 |
| Text.Utf8LenAppend | plugin/chatgpt/chatgpt.go:71-79 | the byte length of a concatenation is the sum of the byte lengths |
| Text.Utf8LenBounds | plugin/chatgpt/chatgpt.go:71 | every rune takes one to four bytes |
| Text.Split | plugin/chatgpt/main.go:198 | `strings.Split` gives at least one piece, and no piece holds the separator |
| Text.SplitFirst | plugin/chatgpt/main.go:198-199 | the first piece is the text before the first separator |
| Text.JoinSplit | plugin/chatgpt/main.go:198 | joining the pieces with the separator restores the string |
| Text.ReplaceChar | plugin/chatgpt/session.go:41 | every occurrence of the character is replaced, and nothing else changes |
| Text.TakeRunes | plugin/chatgpt/session.go:42-45 | the first n runes, or the whole text when it is shorter |

## Left out

- The Debouncer of plugin/chatgpt/util.go is left out: it is timers and a mutex. The model runs the reply action directly, so a burst of messages is not collapsed into one backend call.
- The OpenAI client, `CreateChatCompletion`, `ReplySingle` and proxy setup are network calls into a foreign library. The model stops at the messages `Reply` would send, and the backend's reply text is an input of `RecordReply`.
- The `cgpt help` handler is a backend call wrapped around a fixed usage text.
- Persistence is opaque storage I/O. This covers `storeSessions`/`restoreSessions` and `storeStates`/`restoreStates`, and the fallback of `restoreStates` that writes the default.
- Framework glue is left out: handler and middleware registration, `ctx.Next`, `ctx.Reply*`, `AtSender`, command-line parsing, admin checks and the no-subcommand help replies. Replies are outcome values.
- `time.Now()`, `time.Since` and `rand.Intn` are parameters: a clock reading in unix seconds for ids, and in nanoseconds for the counter and history records. A new session's `StartTime` is stored as the same seconds reading that makes its id, although the source reads the clock once more for it.
- The `StartTime.Format` text inside `GetBrief`/`GetDetail` is a parameter.
- `ChatPipeline.RpmCounter`: no handler in plugin/chatgpt/main.go calls `Require`, so the model does not wire the counter into the pipeline either.
- `strconv.ParseInt` overflow for digit runs longer than int64 is not modelled; ids are unbounded naturals.
- Rune strings are used instead of bytes: invalid UTF-8 is not modelled, and `Utf8Len` assumes valid scalar values.
- The value types of a segment's data map are only strings, 64-bit integers and a missing key. Comparing `m.Data["qq"]` with the self id is Go's interface equality over those three.
- Only the plugins' own code is modelled, not the gonebot message types.
- `PluginManage.PluginManager.ListPlugins`: the order of Go's map iteration is unspecified. The model picks keys by nondeterministic choice and states membership and freedom from repeats, not order.
- The `*PluginState` pointers held in the Go map are values in a map. No pointer is shared in the source, and the in-loop mutation of `EnablePlugin` becomes a map update.
- The dice pattern (plugin/dice/view.go:36) is not modelled: its `\b` word boundary and `\s*` matching are not expressed. Its five captures are an input, constrained by `Dice.FromPattern` to what the pattern can capture.
- `Dice.DoDice`: `num` is a natural number, because the pattern captures at most two digits; Go's `make` panics on a negative length, and that case is therefore absent.
- `Dice.DoDice`: the draws of `rand.Intn` are an input sequence, one per die, each required to be in [0, faces).
- The dice handler's `ctx.Reply("结果是", res)` and the framework's stringification of its arguments are left out; `Dice.Format` is `String`.
- plugin/plugin_manage/command.go is not part of this model: it formats replies around a bot API call (`GetGroupList`), over the manager operations that are modelled here.
- plugin/setu, plugin/nonebot_interact and the root main.go are not part of this model. They are HTTP fetches, process spawning, websockets and engine bootstrap.
- The mutex in the reply action and all goroutine concurrency are left out.

## Findings

| source | as written | input that shows it | evidently intended | confidence | as-written member | corrected member |
|---|---|---|---|---|---|---|
| plugin/chatgpt/main.go:200-212 | the unanchored `([0-9]+) (.*)` matches anywhere in the piece after an `@`, and `.` stops at a newline; text before the digits and every line after the first are dropped | the reply `@1 a\nb` loses `b`; the reply `@x 1 y` loses `x ` | a piece starting with `<digits> ` becomes the mention followed by the whole rest of the piece; any other piece is kept with its `@` | not executed | ChatPipeline.DroppedExamples | ChatPipeline.AnchoredRoundTrip |
| plugin/chatgpt/command.go:39-43 | the page is computed before the emptiness check; for a group with no sessions, paging slices from -5 and panics, so the empty-group reply is unreachable | `cgpt session ls` in a group that has no session yet | the reply "当前群没有任何会话…" | not executed | SessionCommands.ListCommand | SessionCommands.ListCommandChecked |
| plugin/chatgpt/command.go:49 | "当前群共有%d个会话" is filled with the length of the page, not the number of the group's sessions | a group with 6 sessions: page 1 reports 5 sessions | the number of the group's sessions | not executed | SessionCommands.ListCountIsPageLength | SessionCommands.ListCommandChecked |
