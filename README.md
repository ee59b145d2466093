# StudentApp core, modelled in Dafny

StudentApp is a student dashboard that runs as a progressive web app. This project models its
logic, leaving out the rendering:

- **Service worker.** The cache generations (a static cache filled at install, a dynamic cache
  filled by fetches, stale generations dropped at activation) and its cache-first fetch
  strategy. Also its push, click, message and background-sync handlers. Module
  `ServiceWorker`, class `Worker`.
- **Notifications hook.** The page-side hook: the support check, the permission request, and
  `sendNotification`. That function merges default options. It then either posts a command to
  the active worker and waits for its acknowledgement, or shows a notification directly.
  Module `Notifications`, class `NotificationHook`.
- **Page/worker round trip.** Module `Protocol` composes the two sides, which is where the
  finding below shows up.
- **Pomodoro timer.** A state machine over `mode`, `status`, `timeLeft` and
  `completedSessions`: the per-second tick, session completion and the long-break rotation,
  the start/pause/stop/mode buttons, the settings inputs with their fallbacks, the `MM:SS`
  display and the completion notice. Module `Pomodoro`, class `Timer`.
- **AI assistant hook.** The message log: sending with a loading placeholder, clearing,
  deleting, and retrying the last question. Module `Chat`, class `Assistant`. The reply
  service is a parameter.
- **Assignments page.** The status filter, the three sort orders over the shared list, the
  overdue and due-soon badges, and the status counts. Module `Assignments`.
- **Announcements page.** The category and unread filters, the newest-first order, marking
  one announcement read in place, and the header counts. Module `Announcements`, class
  `Board`.
- **Schedule page.** Monday-based weeks and week navigation, the time-slot grid with its
  "live now" window, the class lookup and today's list. Module `Schedule`, class
  `ScheduleView`.
- **Grades page.** The subject list and filter, the letter-grade distribution, the
  per-subject rows, the percentage colour bands, the letter badges, and the two date sorts
  over the shared grade list. Module `Grades`, class `GradesView`.

Shared modules:

- `Types`: the records of `src/types`.
- `JsValue`: JavaScript values, truthiness, object spread, and the truncating `%` and
  `Math.floor` division.
- `Decimal`: number-to-text conversion and digit parsing.
- `Sorting`: `Array.prototype.sort` as an in-place sort by a comparator, and code-point string
  order.
- `Common`: filter and count over sequences.

Where the source updates state in place (the worker's caches, the hooks' state, the shared
mock arrays that `sort` reorders), the model is a class whose methods are proved against
specification functions. Everything else is functions and lemmas.

## Model

| member | source | states |
|---|---|---|
| ServiceWorker.OpenCache | public/sw.js:15 | `caches.open(name)` yields storage where `name` exists, adds no other cache, and keeps the storage well formed |
| ServiceWorker.MatchIn | public/sw.js:42 | `caches.match` returns a response only if some open cache holds that URL with that response, and returns nothing only if no cache holds the URL |
| ServiceWorker.MatchAll | public/sw.js:42 | a hit is a response some open cache holds for the URL; a miss means no open cache holds it |
| ServiceWorker.DeleteCache | public/sw.js:30 | `caches.delete(name)` removes exactly that cache and keeps the storage well formed |
| ServiceWorker.Staged | public/sw.js:15-18 | the staged static cache holds exactly the asset URLs the network answered |
| ServiceWorker.FetchLog | public/sw.js:15-18 | `addAll` makes one network request per asset, in asset order |
| ServiceWorker.InstallSpec | public/sw.js:13-21 | install adds exactly the static generation; when every asset came back with a response `addAll` accepts (2xx and not 206), each asset is stored with its response; otherwise the static cache keeps what it held |
| ServiceWorker.Worker.constructor | public/sw.js:1-10 | a fresh worker starts with empty cache storage and no effects |
| ServiceWorker.Worker.Open | public/sw.js:15 | the worker's storage becomes `OpenCache` of the old storage; no effect is logged |
| ServiceWorker.Worker.Install | public/sw.js:13-21 | `ok` holds exactly when every asset came back 2xx and not 206; storage becomes `InstallSpec`; the asset fetches are appended in order |
| ServiceWorker.Worker.FetchAll | public/sw.js:15-18 | the loop that fetches each asset reports success exactly when every response was one `addAll` accepts (2xx and not a 206 partial response), and then stages exactly `Staged` |
| ServiceWorker.ActivateSpec | public/sw.js:24-35 | after activation only current-generation caches remain; every current cache survives with its contents; the name order is kept |
| ServiceWorker.DeleteStaleNames | public/sw.js:26-31 | walking the key list drops from the name list exactly the stale names that were visited |
| ServiceWorker.DeleteStaleCaches | public/sw.js:26-31 | walking the key list removes from storage exactly the visited stale caches |
| ServiceWorker.ActivateWalk | public/sw.js:26-31 | deleting every non-current key in `caches.keys()` order reaches exactly `ActivateSpec` |
| ServiceWorker.Worker.Delete | public/sw.js:30 | the storage becomes `DeleteCache` of the old storage; no effect is logged |
| ServiceWorker.Worker.Activate | public/sw.js:24-35 | the loop over cache keys leaves the storage equal to `ActivateSpec` of the old storage |
| ServiceWorker.FetchSpec | public/sw.js:38-54 | non-GET is not intercepted; a cache hit in any generation is served without a network request; a miss makes exactly one request and returns its response; the dynamic cache is opened, and the response is stored there, and nowhere else, only when `cache.put` accepts it (not 206, and an http or https URL) |
| ServiceWorker.NextFetchHitsIffStored | public/sw.js:42-49 | after a miss answered by the network, the next request for the URL hits the cache, with that response, exactly when `cache.put` accepted it, and misses again otherwise |
| ServiceWorker.SchemeOf | public/sw.js:47 | the scheme `cache.put` checks: a well-formed scheme followed by `:` when one is found, and no scheme-and-colon prefix at all otherwise |
| ServiceWorker.SchemeOfRecovers | public/sw.js:47 | the parser returns exactly the scheme a URL was built with |
| ServiceWorker.NonHttpSchemeRefused | public/sw.js:47 | `cache.put` refuses every URL whose scheme is not http or https |
| ServiceWorker.Worker.Fetch | public/sw.js:38-54 | the worker's storage, effects and outcome follow `FetchSpec` |
| ServiceWorker.SyncEffects | public/sw.js:57-61 | background sync runs exactly for the `background-sync` tag and does nothing otherwise |
| ServiceWorker.Worker.Sync | public/sw.js:57-61 | a sync event appends `SyncEffects` and leaves the caches alone |
| ServiceWorker.PushEffects | public/sw.js:64-81 | a payload that fails to parse shows nothing; otherwise exactly one notification, taking title and body from the payload when truthy and the defaults otherwise, always with the explore/close actions |
| ServiceWorker.Worker.Push | public/sw.js:64-81 | a push appends `PushEffects` and leaves the caches alone |
| ServiceWorker.ClickEffects | public/sw.js:84-89 | a click always closes the notification first; a window on `/` opens exactly for the `explore` action; nothing else happens |
| ServiceWorker.Worker.NotificationClick | public/sw.js:84-89 | a click appends `ClickEffects` and leaves the caches alone |
| ServiceWorker.MessageEffectsAsWritten | public/sw.js:92-97 | the handler as written shows one notification exactly for a `SHOW_NOTIFICATION` command, with the message's `options` field as options, and never replies |
| ServiceWorker.CommandOptions | public/sw.js:94 | the options of a command are exactly its properties other than `type` and `title` |
| ServiceWorker.MessageEffects | public/sw.js:92-97 | corrected handler: for a show command, one notification with the command's own option properties, then a `{ success: true }` reply on the port; otherwise nothing |
| ServiceWorker.Worker.Message | public/sw.js:92-97 | a message appends what the handler as written does (`MessageEffectsAsWritten`: the `options` field, no reply) and leaves the caches alone |
| ServiceWorker.Worker.MessageCorrected | public/sw.js:92-97 | the corrected handler appends `MessageEffects`: the command's own options and a success reply |
| Notifications.IsSupported | src/hooks/useNotifications.ts:16 | notifications are supported exactly when both the Notification API and service workers exist |
| Notifications.NotificationHook.Mount | src/hooks/useNotifications.ts:15-20 | on mount, the permission is the browser's only when supported, else `default`; no registration yet |
| Notifications.NotificationHook.AttachRegistration | src/hooks/useNotifications.ts:21-33 | a found or newly registered worker becomes the hook's registration |
| Notifications.RequestPermissionSpec | src/hooks/useNotifications.ts:38-43 | unsupported: the result is `denied` with no prompt and no state change; supported: one prompt, and the user's answer is both the result and the new state |
| Notifications.NotificationHook.RequestPermission | src/hooks/useNotifications.ts:38-43 | the hook's result, state and prompt log follow `RequestPermissionSpec` |
| Notifications.DefaultOptions | src/hooks/useNotifications.ts:51-59 | no default is named `type` or `title`, so the defaults never disturb the command's own fields; `data.dateOfArrival` is the clock reading |
| Notifications.MergeOptions | src/hooks/useNotifications.ts:51-61 | caller options override the defaults key by key; a default key is kept exactly when the caller does not set it |
| Notifications.MergedDefaults | src/hooks/useNotifications.ts:51-61 | unset options become `requireInteraction: true`, `silent: false`, the default body and icon, and `data.dateOfArrival = now` |
| Notifications.Envelope | src/hooks/useNotifications.ts:72-76 | the command carries `type`, `title` and every merged option as top-level properties; an option named `type` or `title` overrides the command's own |
| Notifications.Dispatch | src/hooks/useNotifications.ts:45-94 | unsupported or not granted: only a warning; a direct notification always carries the merged options; without an active worker, exactly one direct attempt |
| Notifications.PostThenCounts | src/hooks/useNotifications.ts:64-87 | posting to the worker posts exactly once, first, followed only by the fallback attempts |
| Notifications.WorkerChannel | src/hooks/useNotifications.ts:64-87 | with an active worker: one post; a direct fallback happens exactly when the acknowledgement is not a success; a throwing `postMessage` ends in the outer catch |
| Notifications.DirectChannel | src/hooks/useNotifications.ts:88-90 | without an active worker: exactly one direct attempt and no post |
| Notifications.AtMostOneDirect | src/hooks/useNotifications.ts:45-94 | whatever the inputs, one call attempts at most one direct notification |
| Notifications.NotificationHook.SendNotification | src/hooks/useNotifications.ts:45-94 | the hook's log grows by `Dispatch` on the merged options |
| Protocol.AckFrom | src/hooks/useNotifications.ts:67-83 | the page sees a reply exactly when the worker posted one on the port, and then sees that reply's data |
| Protocol.CommandShape | src/hooks/useNotifications.ts:72-79 | the page's message is a show command whose title is the title and whose remaining properties are exactly the merged options |
| Protocol.AsWrittenShowsTwice | public/sw.js:92-97 | finding 1, as written: the worker shows the title with undefined options and never replies, so the page falls back and the notification is shown twice |
| Protocol.CorrectedShowsOnce | public/sw.js:92-97 | finding 1, corrected: the worker shows the merged options and replies success, so the page posts once and shows nothing itself |
| Pomodoro.Timer.constructor | src/components/PomodoroTimer/PomodoroTimer.tsx:24-34 | a new timer is an idle work session of 25 minutes with no completed sessions and default settings |
| Pomodoro.Duration | src/components/PomodoroTimer/PomodoroTimer.tsx:39-45 | a mode's countdown is whole minutes: its own setting's minutes times 60 seconds |
| Pomodoro.Tick | src/components/PomodoroTimer/PomodoroTimer.tsx:85-101 | a running timer with time left loses one second; any other state is unchanged; mode, status and count never change on a tick |
| Pomodoro.Timer.OnTick | src/components/PomodoroTimer/PomodoroTimer.tsx:85-101 | one interval callback moves the state by `Tick` and touches nothing else |
| Pomodoro.CountdownReachesZero | src/components/PomodoroTimer/PomodoroTimer.tsx:85-107 | n ticks from running leave `max(timeLeft - n, 0)`; after at least `timeLeft` ticks a completion is due |
| Pomodoro.TicksIdleOrPaused | src/components/PomodoroTimer/PomodoroTimer.tsx:85-94 | an idle or paused timer never changes, however many ticks |
| Pomodoro.BreakAfter | src/components/PomodoroTimer/PomodoroTimer.tsx:129-131 | after work comes a break; it is long exactly when the session count is a multiple of the interval |
| Pomodoro.Complete | src/components/PomodoroTimer/PomodoroTimer.tsx:103-138 | completion goes idle with the new mode's full duration; a work session counts and leads to a break (long exactly on a multiple of the interval); a break leads back to work without counting |
| Pomodoro.Timer.OnCompletionCheck | src/components/PomodoroTimer/PomodoroTimer.tsx:103-138 | when a completion is due: if permission is granted and the `Notification` constructor throws, the uncaught throw leaves the timer idle with mode, time and count unchanged and no notice; otherwise the state becomes `Complete` and a notice is issued exactly when granted; when no completion is due nothing changes |
| Pomodoro.LongBreakEveryInterval | src/components/PomodoroTimer/PomodoroTimer.tsx:126-133 | over n work/break rounds, the number of long breaks is the number of interval boundaries crossed |
| Pomodoro.Cycles | src/components/PomodoroTimer/PomodoroTimer.tsx:363 | the cycle counter `Math.floor(completed / interval)` counts the whole intervals completed |
| Pomodoro.FreshTimerLongBreaks | src/components/PomodoroTimer/PomodoroTimer.tsx:363 | from a fresh timer, the cycle counter equals the number of long breaks taken |
| Pomodoro.Start | src/components/PomodoroTimer/PomodoroTimer.tsx:140-142 | start sets running and changes nothing else |
| Pomodoro.Timer.HandleStart | src/components/PomodoroTimer/PomodoroTimer.tsx:140-142 | the start button moves the state by `Start` |
| Pomodoro.Pause | src/components/PomodoroTimer/PomodoroTimer.tsx:144-146 | pause sets paused and keeps the remaining time |
| Pomodoro.Timer.HandlePause | src/components/PomodoroTimer/PomodoroTimer.tsx:144-146 | the pause button moves the state by `Pause` |
| Pomodoro.Stop | src/components/PomodoroTimer/PomodoroTimer.tsx:148-151 | stop goes idle and restores the full duration of the current mode, keeping mode and count |
| Pomodoro.Timer.HandleStop | src/components/PomodoroTimer/PomodoroTimer.tsx:148-151 | the stop button moves the state by `Stop` |
| Pomodoro.ChangeMode | src/components/PomodoroTimer/PomodoroTimer.tsx:153-159 | choosing a mode goes idle in that mode with its full duration, keeping the count |
| Pomodoro.Timer.HandleModeChange | src/components/PomodoroTimer/PomodoroTimer.tsx:153-159 | the mode buttons move the state by `ChangeMode` |
| Pomodoro.Fallback | src/components/PomodoroTimer/PomodoroTimer.tsx:199-238 | `parseInt(v) or d` keeps a parsed non-zero number and falls back on NaN or 0 |
| Pomodoro.ApplyInput | src/components/PomodoroTimer/PomodoroTimer.tsx:199-238 | each input changes only its own setting, to the parsed number or that setting's default (25, 5, 15, 4), and never makes a setting zero |
| Pomodoro.InputsKeepSettingsNonZero | src/components/PomodoroTimer/PomodoroTimer.tsx:199-238 | no sequence of inputs can make a setting 0, so the cycle division is always defined |
| Pomodoro.Timer.EditSetting | src/components/PomodoroTimer/PomodoroTimer.tsx:199-238 | an input changes only its own setting, through the fallback, and leaves the running countdown alone |
| Pomodoro.FormatTime | src/components/PomodoroTimer/PomodoroTimer.tsx:48-52 | the display is at least five characters long |
| Pomodoro.FormatTimeRoundTrip | src/components/PomodoroTimer/PomodoroTimer.tsx:48-52 | for 0 to 99:59 the display is `MM:SS` with digits that read back as minutes and seconds, and give back the seconds |
| Pomodoro.FormatTimeInjective | src/components/PomodoroTimer/PomodoroTimer.tsx:48-52 | two different times below 100 minutes never display the same |
| Pomodoro.CompletionNotice | src/components/PomodoroTimer/PomodoroTimer.tsx:117-124 | the notice title is the mode's title plus " Complete!"; the body invites a break after work and focus after a break |
| Pomodoro.NoticeTitlesDistinct | src/components/PomodoroTimer/PomodoroTimer.tsx:59-82 | different modes give different notice titles |
| JsValue.Rem | src/components/PomodoroTimer/PomodoroTimer.tsx:50 | JavaScript `%` agrees with the mathematical remainder on non-negative operands and truncates toward zero on negative ones |
| JsValue.FloorDiv | src/components/PomodoroTimer/PomodoroTimer.tsx:363 | `Math.floor(a / b)` is the quotient rounded down, for either sign of divisor |
| JsValue.Spread | src/hooks/useNotifications.ts:61 | `{ ...a, ...b }` has both key sets, with `b` winning on shared keys |
| Decimal.NatToString | src/components/PomodoroTimer/PomodoroTimer.tsx:51 | `toString()` of a number is non-empty digits without a leading zero, one character exactly below 10 |
| Decimal.PadStart2 | src/components/PomodoroTimer/PomodoroTimer.tsx:51 | `padStart(2, '0')` keeps longer text and left-pads shorter text with zeros to two characters |
| Decimal.ParseNatToString | src/components/PomodoroTimer/PomodoroTimer.tsx:51 | reading back the decimal text of n gives n |
| Decimal.ParsePadded | src/components/PomodoroTimer/PomodoroTimer.tsx:51 | zero-padding does not change the value the digits read as |
| Decimal.NatToStringInjective | src/hooks/useAIAssistant.ts:38-45 | different clock readings give different message ids |
| Chat.Assistant.constructor | src/hooks/useAIAssistant.ts:6-8 | the hook starts with no messages, not loading and not available |
| Chat.Assistant.CheckHealth | src/hooks/useAIAssistant.ts:13-23 | the assistant is available exactly when the health check answered true; a failing check means unavailable |
| Chat.ReplyText | src/hooks/useAIAssistant.ts:56-76 | a reply's text is the answer, or an `Error: ` message with the generic text when the error has no message |
| Chat.Settle | src/hooks/useAIAssistant.ts:58-64 | settling rewrites exactly the messages carrying the placeholder id, clearing their loading flag; all others are untouched |
| Chat.SendSpec | src/hooks/useAIAssistant.ts:32-80 | unavailable: the log is unchanged; available: two entries more, the settled reply last, the question before it unless ids collide, and every older message with another id kept |
| Chat.SendAppendsExchange | src/hooks/useAIAssistant.ts:32-80 | when available and the placeholder id is fresh, sending appends exactly the user message and the settled reply |
| Chat.SettleOverwritesSameId | src/hooks/useAIAssistant.ts:58-76 | an older message that happens to share the placeholder id is overwritten by the reply too |
| Chat.CountAfterSend | src/hooks/useAIAssistant.ts:52 | a send adds exactly one user message |
| Chat.Assistant.SendMessage | src/hooks/useAIAssistant.ts:32-80 | unavailable: the call is rejected with the fixed message and the log is unchanged; available: the log follows `SendSpec` and loading ends |
| Chat.Assistant.ClearMessages | src/hooks/useAIAssistant.ts:82-84 | clearing empties the log |
| Chat.Delete | src/hooks/useAIAssistant.ts:86-88 | deleting keeps exactly the messages with a different id |
| Chat.DeleteKeepsOthers | src/hooks/useAIAssistant.ts:86-88 | every other message keeps its multiplicity |
| Chat.DeleteSplits | src/hooks/useAIAssistant.ts:86-88 | deletion distributes over concatenation, so relative order is kept |
| Chat.DeleteIdempotent | src/hooks/useAIAssistant.ts:86-88 | deleting an id twice is the same as once |
| Chat.Assistant.DeleteMessage | src/hooks/useAIAssistant.ts:86-88 | the log becomes `Delete` of the old log |
| Chat.LastUserContent | src/hooks/useAIAssistant.ts:91-93 | the last user question is absent exactly when there is no user message, and is otherwise the content of the last one |
| Chat.LastIndexOfRole | src/hooks/useAIAssistant.ts:98 | `lastIndexOf` is -1 exactly when the role is absent, and otherwise the index of its last occurrence |
| Chat.RetryTruncateAsWritten | src/hooks/useAIAssistant.ts:97-103 | as written: the result is the prefix of the log whose length is the index of the last assistant message, or the whole log when there is none |
| Chat.RetrySpecAsWritten | src/hooks/useAIAssistant.ts:90-107 | as written: no question, no change; unavailable, the truncation stays; available, the truncated log plus two entries, the settled reply last |
| Chat.RetryAsWrittenDuplicatesQuestion | src/hooks/useAIAssistant.ts:90-107 | finding 2, as written: retrying `[.., q, answer]` keeps `q` and appends it again, so the log has one more user message |
| Chat.RetryTruncate | src/hooks/useAIAssistant.ts:97-103 | corrected: the result is the prefix of the log whose length is the index of the last user message, or the whole log when there is none |
| Chat.RetrySpec | src/hooks/useAIAssistant.ts:90-107 | corrected: as `RetrySpecAsWritten` but over the cut before the last question |
| Chat.RetryAsksOnce | src/hooks/useAIAssistant.ts:90-107 | finding 2, corrected: a retry replaces the last question and everything after it with the question asked again and its reply, so the count of user messages is unchanged |
| Chat.RetryWithoutQuestion | src/hooks/useAIAssistant.ts:95 | with no user message, retry changes nothing |
| Chat.Assistant.RetryLastMessage | src/hooks/useAIAssistant.ts:90-107 | as written: the log follows `RetrySpecAsWritten` (cut before the last assistant message, then re-send); with no question, nothing happens; otherwise the outcome is that of the re-send |
| Chat.Assistant.RetryLastMessageCorrected | src/hooks/useAIAssistant.ts:90-107 | corrected: the log follows `RetrySpec`, with the same outcomes |
| Assignments.Selected | src/components/Assignments/Assignments.tsx:19-24 | 'all' keeps the list; otherwise exactly the assignments of the status, each with its multiplicity |
| Assignments.LeTotalPreorder | src/components/Assignments/Assignments.tsx:26-38 | each of the three comparators is total and transitive |
| Assignments.SortedMeans | src/components/Assignments/Assignments.tsx:26-38 | sorted by due date means due dates never decrease; by subject, string order; by priority, every high before every medium and every medium before every low |
| Assignments.GetFilteredAssignments | src/components/Assignments/Assignments.tsx:19-39 | the result is sorted by the chosen key and is a permutation of the filtered list; with 'all' it is the shared array itself, reordered; otherwise the shared array is untouched |
| Assignments.IsDueSoon | src/components/Assignments/Assignments.tsx:80-83 | due soon means pending and due within three days from now, not past; due soon is never overdue |
| Assignments.IsOverdue | src/components/Assignments/Assignments.tsx:76-78 | overdue means pending and past the due date; a submitted, late or graded assignment, or one not yet due, is never overdue |
| Assignments.OverdueStays | src/components/Assignments/Assignments.tsx:76-78 | an overdue assignment stays overdue as time passes |
| Assignments.PendingBadges | src/components/Assignments/Assignments.tsx:76-83 | a pending assignment is overdue, due soon, or at least three days away, and never both badges |
| Assignments.GetStats | src/components/Assignments/Assignments.tsx:86-91 | the status counters never exceed the total |
| Assignments.StatusCountsPartition | src/components/Assignments/Assignments.tsx:86-91 | pending, submitted, late and graded counts add up to the total |
| Assignments.CountMatchesFilter | src/components/Assignments/Assignments.tsx:86-91 | each counter equals the number of rows its filter shows |
| Sorting.InsertionSort | src/components/Assignments/Assignments.tsx:26-38 | an in-place sort leaves the array sorted by the comparator and a permutation of what it held |
| Sorting.SortedCopy | src/components/Assignments/Assignments.tsx:23-26 | sorting a freshly filtered array gives a new array, sorted, with the same elements |
| Sorting.StrLeTotal | src/components/Assignments/Assignments.tsx:31 | any two subjects are comparable |
| Sorting.StrLeTransitive | src/components/Assignments/Assignments.tsx:31 | the subject order is transitive |
| Sorting.StrLeAntisymmetric | src/components/Assignments/Assignments.tsx:31 | two subjects that compare equal both ways are the same text |
| Announcements.Selected | src/components/Announcements/Announcements.tsx:19-28 | exactly the announcements of the category (or all) that are unread unless read ones are shown, with their multiplicities |
| Announcements.NewestFirstTotalPreorder | src/components/Announcements/Announcements.tsx:30 | the date comparator is total and transitive |
| Announcements.Board.constructor | src/components/Announcements/Announcements.tsx:19 | the board holds the shared announcement list |
| Announcements.Board.GetFilteredAnnouncements | src/components/Announcements/Announcements.tsx:19-31 | the result is newest first and a permutation of the selection; with no filter it is the shared array, reordered; otherwise the shared array is untouched |
| Announcements.FindId | src/components/Announcements/Announcements.tsx:76 | `find` returns none exactly when no entry has the id, and otherwise the first entry with it |
| Announcements.MarkRead | src/components/Announcements/Announcements.tsx:74-80 | the first entry with the id becomes read; nothing else changes; an unknown id changes nothing |
| Announcements.MarkReadIdempotent | src/components/Announcements/Announcements.tsx:74-80 | marking twice is the same as marking once |
| Announcements.Board.MarkAsRead | src/components/Announcements/Announcements.tsx:74-80 | the search loop and in-place update leave the shared array equal to `MarkRead` of the old one |
| Announcements.UnreadCount | src/components/Announcements/Announcements.tsx:83 | the unread count never exceeds the list length |
| Announcements.MarkReadUnreadCount | src/components/Announcements/Announcements.tsx:74-83 | marking an unread announcement lowers the unread count by one; a read one or an unknown id leaves it |
| Announcements.GetStats | src/components/Announcements/Announcements.tsx:132-139 | the total is the list length and every counter is at most the total |
| Announcements.ThisWeekShrinks | src/components/Announcements/Announcements.tsx:135-139 | a later clock reading never counts more announcements as this week's |
| Schedule.ScheduleView.constructor | src/components/Schedule/Schedule.tsx:8 | the page opens on today's week |
| Schedule.Weekday | src/components/Schedule/Schedule.tsx:17 | every day falls on one of seven weekdays |
| Schedule.WeekStart | src/components/Schedule/Schedule.tsx:10 | the week start is a Monday, at most six days before the day |
| Schedule.WeekDays | src/components/Schedule/Schedule.tsx:11 | the grid shows five consecutive days from the week start, Monday to Friday, each named by its weekday |
| Schedule.SameWeek | src/components/Schedule/Schedule.tsx:10 | days up to Sunday of the same week share the week start |
| Schedule.WeekStartShift | src/components/Schedule/Schedule.tsx:38-41 | moving a day by a week moves its week start by a week |
| Schedule.ScheduleView.NavigateWeek | src/components/Schedule/Schedule.tsx:38-41 | next/previous moves the shown day, and so the shown week, by exactly seven days |
| Schedule.ScheduleView.GoToToday | src/components/Schedule/Schedule.tsx:62 | "today" returns to the current date |
| Schedule.Split | src/components/Schedule/Schedule.tsx:24-25 | `split(':')` gives at least one part, none containing the separator |
| Schedule.SplitPair | src/components/Schedule/Schedule.tsx:24-25 | splitting `a:b` gives exactly `[a, b]` |
| Schedule.ToNumber | src/components/Schedule/Schedule.tsx:24-25 | `Number` of a digit string is its value; any other string is NaN |
| Schedule.SlotStartOfTimeText | src/components/Schedule/Schedule.tsx:24-25 | a padded `HH:MM` text reads back as `h * 60 + m` minutes |
| Schedule.TimeSlotsAreTimes | src/components/Schedule/Schedule.tsx:14 | the four slots are 08:00, 09:15, 10:30 and 12:30 in that form |
| Schedule.SlotStartOf | src/components/Schedule/Schedule.tsx:14-25 | the four slots start at 480, 555, 630 and 750 minutes |
| Schedule.IsCurrentTimeSlot | src/components/Schedule/Schedule.tsx:21-30 | a slot is live exactly on its day from its start to 60 minutes after, both ends included |
| Schedule.LiveWindow | src/components/Schedule/Schedule.tsx:21-30 | for an `HH:MM` slot the live window is stated in plain hours and minutes |
| Schedule.AtMostOneLiveSlot | src/components/Schedule/Schedule.tsx:14-30 | no two slots are live at the same moment |
| Schedule.FindClass | src/components/Schedule/Schedule.tsx:32-36 | `find` is none exactly when no class matches day and slot, and otherwise the first match |
| Schedule.GetClassForTimeSlot | src/components/Schedule/Schedule.tsx:32-36 | the cell's class is one from the schedule on that day and slot, and is empty only when there is none |
| Schedule.FirstClassStable | src/components/Schedule/Schedule.tsx:32-36 | appending classes never changes a cell that already had one |
| Schedule.TodaysClasses | src/components/Schedule/Schedule.tsx:159-160 | today's list holds exactly the schedule's classes on today's day name |
| Schedule.GridTodayListed | src/components/Schedule/Schedule.tsx:159-160 | every class the grid shows for today also appears in today's list |
| Grades.Unique | src/components/Grades/Grades.tsx:12 | `Array.from(new Set(xs))` has no repeats and exactly the elements of `xs` |
| Grades.UniqueFirstOccurrence | src/components/Grades/Grades.tsx:12 | the set keeps first-occurrence order |
| Grades.Subjects | src/components/Grades/Grades.tsx:12 | the subject list has each subject of the grades exactly once |
| Grades.GradesView.constructor | src/components/Grades/Grades.tsx:10 | the page starts on 'all' over the shared grade list |
| Grades.GradesView.SelectSubject | src/components/Grades/Grades.tsx:88 | the drop-down sets the selection and nothing else |
| Grades.SubjectsCard | src/components/Grades/Grades.tsx:148 | the card shows 1 for a chosen subject; for 'all' it shows 0 exactly when there are no grades |
| Grades.FilteredGrades | src/components/Grades/Grades.tsx:14-16 | 'all' keeps the list; otherwise exactly that subject's grades, with multiplicities, as many as the subject count |
| Grades.SubjectsCardCounts | src/components/Grades/Grades.tsx:148 | the subjects card equals the number of subjects in the filtered grades; one selected subject counts as one |
| Grades.Bump | src/components/Grades/Grades.tsx:23-27 | one increment adds one to the total of the counts |
| Grades.BumpShape | src/components/Grades/Grades.tsx:23-27 | an increment adds one to its key's count, adds that key at the end with count 1 when new, and leaves the other counts |
| Grades.Distribution | src/components/Grades/Grades.tsx:23-27 | the distribution's counts add up to the number of grades |
| Grades.DistributionCounts | src/components/Grades/Grades.tsx:23-27 | the distribution lists each letter grade once, in first-occurrence order, with the number of grades having it |
| Grades.TalliesCoverAll | src/components/Grades/Grades.tsx:23-27 | counting the grades under each distinct key covers every grade exactly once |
| Grades.ShortLabel | src/components/Grades/Grades.tsx:42 | labels are at most 15 characters; short ones are kept; long ones are their first 12 characters and "..." |
| Grades.ShortLabelIdempotent | src/components/Grades/Grades.tsx:42 | shortening a shortened label changes nothing |
| Grades.Row | src/components/Grades/Grades.tsx:35-47 | a bar carries the shortened label, the full subject and the number of grades of that subject |
| Grades.SubjectPerformance | src/components/Grades/Grades.tsx:35-47 | one bar per subject, in subject order, each counting that subject's grades |
| Grades.Rows | src/components/Grades/Grades.tsx:35-47 | one row per subject, in subject order |
| Grades.PerformanceCoversAll | src/components/Grades/Grades.tsx:35-47 | there are as many rows as subjects, and the rows' grade counts add up to all grades |
| Grades.BandOf | src/components/Grades/Grades.tsx:59-73 | the colour band is green from 90, blue from 80, yellow from 70, orange from 60 and red below, each exactly on its range |
| Grades.BandMonotone | src/components/Grades/Grades.tsx:59-73 | a higher percentage never gets a worse band |
| Grades.BadgeOf | src/components/Grades/Grades.tsx:356-362 | green for A and A+; blue for other A grades and B+; yellow for other B grades; red for grades with neither letter |
| Grades.BadgeFollowsScale | src/components/Grades/Grades.tsx:356-362 | down the scale A+ ... F the badge never gets better |
| Grades.DateOrdersTotal | src/components/Grades/Grades.tsx:49-50 | both date comparators are total and transitive |
| Grades.GradesView.Render | src/components/Grades/Grades.tsx:14-50 | the progress series is oldest first and the table newest first, both permutations of the filtered grades; with 'all', the second sort (line 327) leaves the shared list in table order; otherwise the shared list is untouched |

## Left out

- Rendering, CSS classes, icons, animation, charts and date formatting are left out. Colours
  are the enums `Grades.Band` and `Grades.Badge`.
- Floating point is not modelled: averages, the pie chart and marks percentages
  (`Math.round`), the focus-time figure and progress bars. `Grades.BandOf` takes the
  percentage as an integer. `getGradeColor` on the NaN average of an empty grade list is not
  modelled.
- The worker's `skipWaiting`, `clients.claim`, `console.log` and the lifetime of the
  `waitUntil` promises are left out. So is the concurrency inside `cache.addAll`: requests
  are modelled as made in asset order, and a failed request is not retried.
- The network is a map from URL to response, fixed for one call. Cache keys are URLs; the
  method and headers of a request are ignored. Response cloning is the identity. Response
  headers are not modelled, so neither is the refusal by `cache.put` and `addAll` of a
  response carrying `Vary: *`. The unhandled rejection of a refused `cache.put` has no
  effect in the model beyond the response not being stored.
- Registering the worker (`navigator.serviceWorker.getRegistration`, `register`, `ready`) is
  outside this model. `AttachRegistration` receives its result.
- The five-second acknowledgement timer and the `MessageChannel` race are reduced to an `Ack`
  parameter: a reply, a timeout or a throwing `postMessage`. Two `sendNotification` calls
  running at once are not modelled.
- Audio playback in the timer is left out. So is `setInterval` scheduling: each interval
  callback is one `OnTick`, and the completion effect runs once after each state change.
- `parseInt` is a parameter (`Option<int>`, None for NaN). The model does not parse the
  input text itself.
- Pomodoro.Timer.OnCompletionCheck: when the `Notification` constructor throws, the model keeps
  the `setStatus('idle')` queued before the throw and stops. What React then does with the
  uncaught error (error boundaries, unmounting the tree) is not modelled.
- Pomodoro.Timer.OnCompletionCheck: reads the session count as it was before the completion,
  as the render's closure does. React's batching of the two updates is not modelled.
- Pomodoro.Cycles: stated only for a positive interval. A negative interval typed into the
  settings is allowed by the source, but only the floor division is modelled for it.
- The Gemini service is a parameter (`Reply`) and `context` is not passed on. The periodic
  health check and the `isCheckingHealth` flag are left out: `CheckHealth` is one check.
- In the chat, two overlapping sends are not modelled: each send is atomic. The four clock
  readings of a send are two parameters: `t1` for the user message's id and timestamp, `t2`
  for the placeholder.
- Chat.Assistant.RetryLastMessage and Chat.Assistant.RetryLastMessageCorrected: read the current log, where the source reads the log of
  the last render. They differ only if an update is pending.
- Clock readings (`new Date()`) within one render are one `now`, in milliseconds (or days for
  the schedule). `addDays` and `setDate` are fixed day lengths: daylight-saving changes are
  not modelled.
- `localeCompare` is replaced by code-point order (`Sorting.StrLe`, since a Dafny `char` is a
  Unicode scalar value). Locale collation is not modelled, and neither is UTF-16 code-unit
  order, which differs from code-point order above U+FFFF.
- Grades.ShortLabel: counts Unicode code points, where `length` and `substring` count UTF-16
  code units. A subject with a character above U+FFFF (an emoji, say) can be 15 code points
  but 16 code units long: the source shortens it and the model keeps it.
- Sorting.InsertionSort: proves sortedness and permutation but not the stability that
  `Array.prototype.sort` guarantees.
- `markAsRead` in the source changes the shared record without a state update, so the page
  does not re-render. The model updates the array and leaves rendering out. Records are
  values: a filtered copy made before the update does not see it.
- The schedule's `format(date, 'EEEE')` is the clock's `dayName`. `Number` is modelled only
  on digit strings: other text is NaN, and signs, spaces and decimals are not read.
- `Object.entries` lists integer-like keys first in JavaScript. The model keeps insertion
  order, which matches for letter grades only.
- A subject literally named "all" cannot be selected on its own in the source. The model
  keeps that behaviour and proves nothing about it.
- The settings page, the dashboard, the data files and the other components are not part of
  this model.

## Findings

| source | as written | input that shows it | evidently intended | confidence | as-written member | corrected member |
|---|---|---|---|---|---|---|
| public/sw.js:92-97 | the message handler reads `event.data.options`, which the page never sends (it spreads the options into the message), and never replies on the transferred port | `sendNotification("Hi")` with an active worker and permission granted | show the notification with the message's own option properties and reply `{ success: true }`, so that the page does not fall back to a second, direct notification | not executed | Protocol.AsWrittenShowsTwice | Protocol.CorrectedShowsOnce |
| src/hooks/useAIAssistant.ts:97-105 | retry cuts the log before the last assistant message, keeping the question, and then re-sends the question, which appends it a second time | log `[q, answer]` with `q` from the user, then retry | remove the failed answer and ask the question once | not executed | Chat.RetryAsWrittenDuplicatesQuestion | Chat.RetryAsksOnce |
