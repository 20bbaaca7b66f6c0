# Lowkey Lofi: timer, tasks and storage, modelled in Dafny

This project models the state logic of a browser widget that plays lofi video channels next to a
Pomodoro focus timer and a multi-list task tracker, all kept in the browser's `localStorage`.

- **PomodoroWindow** (`pomodoro.dfy`) is the timer component. It has three modes, each with a
  countdown length set in minutes, and one-second ticks. Start, pause, toggle, reset and a mode
  switch each have their own rule. Completion does three things:
  - it plays the theme's sound;
  - it shows a notification, or asks for permission to show one;
  - it counts a finished pomodoro and picks the next mode: a long break after every fourth
    pomodoro, a short break otherwise, and a pomodoro after any break.

  The transitions are pure functions on `TimerState`. The class `PomodoroTimer` performs each of
  them in place. Sounds, notifications and counter updates are returned as `Effect` values.
  Also here: the `MM:SS` display and the three progress dots.
- **TodoWindow** (`todo.dfy`) covers the task window.
  - It derives views from the tasks and lists it is given: the filtered task list, the
    items-left counter, the active list's name, the priority colour and the priority label.
  - Its own state is the new-task input and the edit dialog (`TodoForm`).
  - `addTask` turns the trimmed input into a task.
  - The edit dialog's save and delete callbacks compute a new task array and then drop it; the
    model does the same.
- **Page** (`page.dfy`) is the home page.
  - It owns the saved state (`AppState`) and the view flags. It also holds the mounted timer
    and task windows: opening a panel mounts a fresh one, and closing it discards it.
  - It holds the handlers the windows call, which are pure functions plus the methods of the
    class `Home`.
  - It loads six storage slices on mount and saves them after each handler.
- **Channels** (`channels.dfy`) is the catalog of 26 video channels, and the favourites list that
  is kept under `lofiAppFavorites`.
- **NowPlaying** (`now_playing.dfy`) gives the title shown for the current channel.
- Supporting modules:
  - **Seqs**: JavaScript's `filter`, `find` and `some` on sequences.
  - **Text**: `toString`, `padStart`, `trim`, ASCII `toUpperCase` and `parseInt` on digit strings.
  - **Storage**: `localStorage` as a class holding a map. It has a set of keys on which
    `setItem` throws, and an `available` flag that is false during server-side rendering.
  - **Types** and **Wrappers**: the shared data types and `Option`.

Stored values are modelled as the slices themselves, not as JSON text. `Corrupt` stands for text
on which `JSON.parse` throws.

Points where the code's behaviour is easy to misread:

- Loading does not treat each slice independently. All six reads sit in one `try`, so a slice
  that fails to parse ends the load, and the slices after it keep their defaults.
- Saving is one `try` too. The first `setItem` that throws skips every later slice.
- The handlers save the state from before their own update, not the state they produce.
  `handleUpdatePomodoroCount` is worse: the timer calls it only through the interval that
  `startTimer` set up, so it saves the page state of the render in which the timer was started.
  See "## Findings".
- New settings reload the countdown even while the timer is running. The effect's cleanup also
  clears the interval, so the timer still counts as running but no longer ticks, and it ignores
  start until it is paused.

## Model

| member | source | states |
|---|---|---|
| Seqs.Keep | components/todo-window.tsx:47 | `filter`: at most as long as the input, holding only elements of the input that satisfy the predicate; KeepMembership, KeepCount and KeepIsSubsequence together determine it (a subsequence that holds every satisfying occurrence and nothing else is unique), and KeepAppend gives it over concatenation |
| Seqs.KeepMembership | components/todo-window.tsx:47 | `filter` keeps an element exactly when it occurs in the input and satisfies the predicate |
| Seqs.KeepCount | components/todo-window.tsx:47 | every element that satisfies the predicate is kept as often as it occurs in the input, and every other element never |
| Seqs.KeepIsSubsequence | components/todo-window.tsx:47 | `filter` keeps the input's order |
| Seqs.KeepKeep | components/todo-window.tsx:47-54 | two successive filters equal one filter by the conjunction |
| Seqs.KeepAppend | app/page.tsx:139 | filtering distributes over concatenation |
| Seqs.FindIndex | components/todo-window.tsx:99 | `find` returns the first match, or nothing when no element matches |
| Seqs.Any | data/channels.ts:156 | `some` is true exactly when some element matches |
| Text.Decimal | app/page.tsx:106 | `toString` of a count is a non-empty digit string with no leading zero |
| Text.DecimalRoundTrip | app/page.tsx:80 | `parseInt` of `toString(n)` is `n` |
| Text.DecimalValue | app/page.tsx:80 | `parseInt` on a string of decimal digits; DecimalRoundTrip states that it reads `toString(n)` back as n |
| Text.PadStart | components/pomodoro-window.tsx:191 | `padStart(2, "0")` keeps the string as a suffix, fills only on the left, and reaches the width |
| Text.IsWhitespace | components/todo-window.tsx:61 | the characters `trim` removes (ECMAScript white space and line terminators); TrimEmpty and TrimCutsOnlyWhitespace use it |
| Text.TrimStart | components/todo-window.tsx:61 | `trim`'s left half: the input with its leading whitespace removed, as its ensures state |
| Text.TrimEnd | components/todo-window.tsx:61 | `trim`'s right half: the input with its trailing whitespace removed, as its ensures state |
| Text.Trim | components/todo-window.tsx:61 | `trim`; TrimEmpty, TrimEnds, TrimCutsOnlyWhitespace and TrimIdempotent state its meaning |
| Text.UpperChar | components/todo-window.tsx:252 | `toUpperCase` on one character: a lower-case ASCII letter becomes its capital, every other character is unchanged |
| Text.TrimEmpty | components/todo-window.tsx:61 | the trimmed text is empty exactly when the text is all whitespace |
| Text.TrimEnds | components/todo-window.tsx:65 | non-empty trimmed text neither starts nor ends with whitespace |
| Text.TrimCutsOnlyWhitespace | components/todo-window.tsx:65 | trimming removes only whitespace, and only at the two ends |
| Text.TrimIdempotent | components/todo-window.tsx:65 | trimming twice is trimming once |
| Storage.LocalStorage.Get | app/page.tsx:48 | `getItem` returns the stored value, or nothing for a missing key |
| Storage.Lookup | app/page.tsx:48 | `getItem` on the stored contents; `LocalStorage.Get` is defined by it and its ensures give the meaning |
| Storage.LocalStorage.SetItem | app/page.tsx:91 | `setItem` stores the value unless it throws, and then stores nothing |
| PomodoroWindow.SoundUrl | components/pomodoro-window.tsx:195-208 | the digital theme gets the beep and nature gets the bell; every other theme gets the alert |
| PomodoroWindow.Duration | components/pomodoro-window.tsx:31-35 | `timerDurations`: the mode's minutes from the settings, times 60; used by Reset, ChangeMode and SettingsChanged, whose lemmas state the lengths |
| PomodoroWindow.Start | components/pomodoro-window.tsx:71-92 | `startTimer`: a stopped timer starts running and ticking, a running one is left as it is; StartThenPause and TransitionsKeepValid state its properties |
| PomodoroWindow.Pause | components/pomodoro-window.tsx:95-105 | `pauseTimer`: a running timer stops running and ticking; PauseKeepsTime states what it keeps |
| PomodoroWindow.Toggle | components/pomodoro-window.tsx:62-68 | `toggleTimer`: pause when running, start otherwise; SettingsChangeStallsRun and TransitionsKeepValid use it |
| PomodoroWindow.Reset | components/pomodoro-window.tsx:108-111 | `resetTimer`: pause, then load the mode's full length; ResetIdempotent and ChangeModeAndReset state its properties |
| PomodoroWindow.ChangeMode | components/pomodoro-window.tsx:177-184 | `changeTimerMode`: pause, switch mode, load the target's full length; ChangeModeAndReset states it |
| PomodoroWindow.SettingsChanged | components/pomodoro-window.tsx:39-50 | the settings effect: clear the interval and load the mode's new full length; SettingsChangeStallsRun states the consequence |
| PomodoroWindow.NextMode | components/pomodoro-window.tsx:126-142 | the mode after a completion: long break on every fourth pomodoro, short break otherwise, pomodoro after a break; CompletePomodoro and CompleteBreak state it |
| PomodoroWindow.CompletionMessage | components/pomodoro-window.tsx:129-141 | the toast message set by `timerComplete`; CompletePomodoro and CompleteBreak state it |
| PomodoroWindow.NotificationBody | components/pomodoro-window.tsx:148 | the in-app and browser notification text by mode; CompletionEffects carries it into the notification effect |
| PomodoroWindow.CompletionEffects | components/pomodoro-window.tsx:117-128 | the sound, the notification and the count request of `timerComplete`, in order; CompletionSound and CompletePomodoro state them |
| PomodoroWindow.CountUpdates | components/pomodoro-window.tsx:125-128 | the counter updates among the effects; CountUpdatesAppend states how it splits |
| PomodoroWindow.Complete | components/pomodoro-window.tsx:114-143 | `timerComplete`: stop, switch to the next mode at full length and emit the effects; CompletePomodoro and CompleteBreak state it |
| PomodoroWindow.Ticked | components/pomodoro-window.tsx:76-85 | one run of the interval callback; TickCountsDown and TickCompletes state both branches |
| PomodoroWindow.RunTicks | components/pomodoro-window.tsx:76-85 | n runs of the interval callback; CountdownTicks, IdleTicks, RunTicksSplit and FullCountdown state it |
| PomodoroWindow.TransitionsKeepValid | components/pomodoro-window.tsx:62-111 | after every transition, the interval is scheduled only while the timer counts as running |
| PomodoroWindow.StartThenPause | components/pomodoro-window.tsx:71-105 | starting and then pausing a stopped timer gives back the same state |
| PomodoroWindow.PauseKeepsTime | components/pomodoro-window.tsx:95-105 | pausing stops the ticks and keeps the mode and the seconds left |
| PomodoroWindow.TickCountsDown | components/pomodoro-window.tsx:77-83 | above one second, a tick takes off exactly one second and has no effect |
| PomodoroWindow.TickCompletes | components/pomodoro-window.tsx:78-81 | at one second or less, a tick stops the timer, loads the next mode at full length and emits the completion effects |
| PomodoroWindow.CompletePomodoro | components/pomodoro-window.tsx:126-137 | a finished pomodoro requests count+1 once; the next mode is a long break exactly when count+1 is a multiple of 4, otherwise a short break, each with its message |
| PomodoroWindow.CompleteBreak | components/pomodoro-window.tsx:138-142 | a finished break requests no count change and returns to a pomodoro with the break-over message |
| PomodoroWindow.CompletionSound | components/pomodoro-window.tsx:117-120 | completion plays a sound exactly when sound is enabled, and it is the theme's sound |
| PomodoroWindow.CountUpdatesAppend | components/pomodoro-window.tsx:125-128 | the counter updates of concatenated effect lists are concatenated |
| PomodoroWindow.ResetIdempotent | components/pomodoro-window.tsx:108-111 | resetting twice is resetting once |
| PomodoroWindow.ChangeModeAndReset | components/pomodoro-window.tsx:177-184 | a mode switch stops the timer at the target mode's full length; a reset then changes nothing; a reset stops the timer at the current mode's full length |
| PomodoroWindow.SettingsChangeStallsRun | components/pomodoro-window.tsx:39-50 | new settings while running clear the interval: ticks then do nothing and start is ignored |
| PomodoroWindow.CountdownTicks | components/pomodoro-window.tsx:76-85 | k ticks, with k below the seconds left, take off k seconds and have no effect |
| PomodoroWindow.IdleTicks | components/pomodoro-window.tsx:95-105 | with no interval scheduled, any number of ticks changes nothing |
| PomodoroWindow.RunTicksSplit | components/pomodoro-window.tsx:76-85 | a+b ticks are a ticks followed by b ticks |
| PomodoroWindow.FullCountdown | components/pomodoro-window.tsx:76-85 | at least as many ticks as seconds left complete the countdown exactly once |
| PomodoroWindow.FreshPomodoroCompletesOnce | components/pomodoro-window.tsx:114-137 | a started fresh pomodoro, after minutes*60 ticks, has requested count+1 exactly once and stands stopped in the following break |
| PomodoroWindow.PaddedValue | components/pomodoro-window.tsx:191 | a padded field has at least two digits and reads back as its number |
| PomodoroWindow.FormatTime | components/pomodoro-window.tsx:187-192 | `formatTime`: zero-padded minutes, a colon, zero-padded seconds; FormatTimeFields, FormatTimeRoundTrip and FormatTimeLength state it |
| PomodoroWindow.FormatTimeFields | components/pomodoro-window.tsx:187-192 | the display is minutes, a colon, then exactly two digits of seconds, and the fields read back as seconds/60 and seconds%60 |
| PomodoroWindow.FormatTimeRoundTrip | components/pomodoro-window.tsx:187-192 | parsing the display gives back the seconds |
| PomodoroWindow.FormatTimeLength | components/pomodoro-window.tsx:187-192 | the display is five characters exactly when fewer than 100 minutes remain |
| PomodoroWindow.LitDotsCount | components/pomodoro-window.tsx:277-286 | the number of lit dots is the count modulo 4; the completion that earns a long break clears them |
| PomodoroWindow.LitDots | components/pomodoro-window.tsx:277-286 | how many of the three progress dots are lit, each by its own `>= i` test; LitDotsCount states it |
| PomodoroWindow.PomodoroTimer.constructor | components/pomodoro-window.tsx:23-27 | the mount state: pomodoro mode, stopped, at the pomodoro's full length |
| PomodoroWindow.PomodoroTimer.StartTimer | components/pomodoro-window.tsx:71-92 | in-place `Start`; a running timer is left as it is |
| PomodoroWindow.PomodoroTimer.PauseTimer | components/pomodoro-window.tsx:95-105 | in-place `Pause`: stopped, same mode and seconds left |
| PomodoroWindow.PomodoroTimer.ToggleTimer | components/pomodoro-window.tsx:62-68 | in-place `Toggle` |
| PomodoroWindow.PomodoroTimer.ResetTimer | components/pomodoro-window.tsx:108-111 | in-place `Reset`: stopped at the mode's full length |
| PomodoroWindow.PomodoroTimer.ChangeTimerMode | components/pomodoro-window.tsx:177-184 | in-place `ChangeMode`: stopped at the target's full length |
| PomodoroWindow.PomodoroTimer.TimerComplete | components/pomodoro-window.tsx:114-174 | in-place `Complete`, returning its effects in order |
| PomodoroWindow.PomodoroTimer.Tick | components/pomodoro-window.tsx:76-85 | in-place `Ticked`, returning its effects |
| PomodoroWindow.PomodoroTimer.ChangeSettings | components/pomodoro-window.tsx:39-50 | in-place `SettingsChanged` under the new settings |
| PomodoroWindow.PomodoroTimer.CloseToast | components/pomodoro-window.tsx:395 | hides the toast and changes nothing else |
| TodoWindow.FilteredTasks | components/todo-window.tsx:45-57 | `getFilteredTasks`: the active list's tasks under the filter; FilteredTasksMembers, FilteredTasksOrder and FilteredTasksAppend state it |
| TodoWindow.FilteredTasksMembers | components/todo-window.tsx:45-57 | a task is shown exactly when it is in the active list and passes the filter ("active": open, "completed": done, anything else: all) |
| TodoWindow.FilteredTasksOrder | components/todo-window.tsx:45-57 | the shown tasks keep their order |
| TodoWindow.FilteredTasksAppend | components/todo-window.tsx:45-57 | an appended task appears at the end of exactly those views it passes |
| TodoWindow.CountActiveTasks | components/todo-window.tsx:104-106 | `countActiveTasks`: the number of open tasks in the active list; CountIsActiveView and CountActiveTasksCounts state it |
| TodoWindow.CountIsActiveView | components/todo-window.tsx:104-106 | the items-left count is the length of the "active" view |
| TodoWindow.CountActiveTasksCounts | components/todo-window.tsx:104-106 | the items-left count equals a one-by-one count of the list's open tasks |
| TodoWindow.ActiveListName | components/todo-window.tsx:98-101 | the name of the first list with the active id, or "Tasks" when there is none |
| TodoWindow.ItemsLeftText | components/todo-window.tsx:286-287 | the footer text; ItemsLeftWording states its wording |
| TodoWindow.ItemsLeftWording | components/todo-window.tsx:287 | "item" is singular exactly when the count is 1 |
| TodoWindow.PriorityColor | components/todo-window.tsx:244-250 | red exactly for "high", yellow exactly for "medium", blue for anything else |
| TodoWindow.PriorityLabel | components/todo-window.tsx:252 | the priority with its first character upper-cased; PriorityLabelShape states it |
| TodoWindow.PriorityLabelShape | components/todo-window.tsx:252 | the label upper-cases the first character only, keeps the length, labelling twice changes nothing, and "medium" becomes "Medium" |
| TodoWindow.NewTask | components/todo-window.tsx:60-72 | the task `addTask` builds from the input, or none for blank input; NewTaskBlank and NewTaskFields state it |
| TodoWindow.NewTaskBlank | components/todo-window.tsx:61 | the input gives no task exactly when it is all whitespace |
| TodoWindow.NewTaskFields | components/todo-window.tsx:62-72 | a task made from the input has the trimmed title, which is non-empty with non-whitespace ends, plus the given id, the active list and the default fields |
| TodoWindow.TodoForm.constructor | components/todo-window.tsx:39-42 | empty input, dialog closed |
| TodoWindow.TodoForm.TypeText | components/todo-window.tsx:165 | the input holds the typed text |
| TodoWindow.TodoForm.AddTask | components/todo-window.tsx:60-80 | emits `NewTask` of the input and clears the input only when a task was emitted |
| TodoWindow.TodoForm.OpenEditTask | components/todo-window.tsx:260-263 | the dialog opens on the task |
| TodoWindow.TodoForm.SaveEditedTask | components/todo-window.tsx:316-327 | only closes the dialog; the updated array is dropped |
| TodoWindow.TodoForm.DeleteEditedTask | components/todo-window.tsx:328-334 | only closes the dialog; the reduced array is dropped |
| Page.AddTask | app/page.tsx:138-141 | `handleAddTask`'s update: the task appended; AddTaskShows states its effect on the views |
| Page.ToggledTasks | app/page.tsx:145-150 | the `map` of `handleToggleTaskCompletion`; ToggleFlipsOnlyTarget, ToggleUnknownId and ToggleTwice state it |
| Page.ToggleTaskCompletion | app/page.tsx:144-153 | `handleToggleTaskCompletion`'s update of the saved state; CompletedTaskViews uses it |
| Page.ClearCompletedTasks | app/page.tsx:156-160 | `handleClearCompletedTasks`'s update; ClearCompletedKeepsOpen and ClearCompletedEmptiesDoneView state it |
| Page.ChangeFilter | app/page.tsx:163-166 | `handleChangeFilter`'s update: only the filter; `Home.HandleChangeFilter` performs it |
| Page.ChangeActiveList | app/page.tsx:169-172 | `handleChangeActiveList`'s update: only the active list; `Home.HandleChangeActiveList` performs it |
| Page.AddList | app/page.tsx:175-178 | `handleAddList`'s update: the list appended; `Home.HandleAddList` performs it |
| Page.DeleteList | app/page.tsx:181-195 | `handleDeleteList`'s update; DeleteListCascades and DeleteListKeepsOthers state what it removes and that everything else is kept |
| Page.UpdatePomodoroCount | app/page.tsx:198-201 | `handleUpdatePomodoroCount`'s update: only the count; CurrentCountSaveKeepsRunTasks uses it |
| Page.SaveSettings | app/page.tsx:131-135 | `handleSaveSettings`'s update: only the settings; `Home.HandleSaveSettings` performs it |
| Page.ToggleFlipsOnlyTarget | app/page.tsx:144-150 | toggling keeps positions, flips `completed` exactly on the tasks with the id, and changes nothing else |
| Page.ToggleUnknownId | app/page.tsx:144-150 | an id no task has changes nothing |
| Page.ToggleTwice | app/page.tsx:144-150 | toggling twice restores the tasks |
| Page.ClearCompletedKeepsOpen | app/page.tsx:156-160 | clearing keeps exactly the open tasks in order, is idempotent, and leaves every list's items-left count unchanged |
| Page.ClearCompletedEmptiesDoneView | app/page.tsx:156-160 | after clearing, no task is done and the "completed" view is empty |
| Page.AddTaskShows | app/page.tsx:138-141 | a new open task in the active list ends the "all" and "active" views and raises the count by one |
| Page.DeleteListCascades | app/page.tsx:181-195 | deleting a list removes it and exactly its tasks, keeps the other tasks in order, resets the active id to "default" exactly when it was the deleted list and keeps it otherwise, leaves settings, filter and count unchanged, and leaves the other lists' views unchanged |
| Page.DeleteListKeepsOthers | app/page.tsx:182 | the other lists survive in order, each as often as before, and no entry of the deleted id remains |
| Page.SaveWrites | app/page.tsx:90-106 | the six `setItem` calls in order; SaveWritesDistinct states their keys |
| Page.ApplyWrites | app/page.tsx:89-109 | the writes inside one `try`, stopping at the first throw; ApplyWritesFrame, ApplyWritesAllAccepted and SaveStopsAtRejectedTasks state it |
| Page.Persisted | app/page.tsx:88-110 | what `saveDataToLocalStorage` leaves in storage; LoadAfterSave and SaveStopsAtRejectedTasks state it |
| Page.ApplyWritesFrame | app/page.tsx:88-110 | a save leaves every key it does not write unchanged |
| Page.ApplyWritesAllAccepted | app/page.tsx:88-110 | with no throw and distinct keys, every key holds its written value |
| Page.SaveWritesDistinct | app/page.tsx:90-106 | the six writes use six distinct slice keys |
| Page.Loaded | app/page.tsx:45-85 | the mount effect: six reads in one `try`; LoadAfterSave, LoadEmptyStorage, LoadStopsAtCorruptSettings, LoadStopsAtCorruptTasks, LoadStopsAtCorruptLists and LoadMissingSliceKeeps state it |
| Page.LoadText | app/page.tsx:65-81 | the three plain-text reads; `Home.LoadTextSlices` performs them |
| Page.LoadSettings | app/page.tsx:48-51 | the settings read: missing or empty keeps, a settings value replaces, anything else throws; LoadMissingSliceKeeps, LoadStopsAtCorruptSettings and LoadAfterSave state it |
| Page.LoadTasks | app/page.tsx:54-57 | the tasks read, with the same three cases; LoadMissingSliceKeeps, LoadStopsAtCorruptTasks and LoadAfterSave state it |
| Page.LoadLists | app/page.tsx:60-63 | the lists read, with the same three cases; LoadMissingSliceKeeps, LoadStopsAtCorruptLists and LoadAfterSave state it |
| Page.LoadActiveList | app/page.tsx:66-69 | the active list read, taken when non-empty; LoadMissingSliceKeeps and LoadAfterSave state it |
| Page.LoadFilter | app/page.tsx:72-75 | the filter read, taken when non-empty; LoadMissingSliceKeeps and LoadAfterSave state it |
| Page.LoadCount | app/page.tsx:78-81 | the count read through `parseInt`; LoadMissingSliceKeeps and LoadAfterSave state it |
| Page.LoadAfterSave | app/page.tsx:45-110 | loading after a save without throws restores the saved state; an empty list id or filter reads back as missing |
| Page.LoadEmptyStorage | app/page.tsx:23-85 | loading from empty storage keeps the defaults |
| Page.LoadStopsAtCorruptSettings | app/page.tsx:46-51 | an unparsable settings slice ends the load with nothing applied |
| Page.LoadStopsAtCorruptTasks | app/page.tsx:46-84 | an unparsable tasks slice after parsable (or missing) settings keeps the settings as loaded and skips every later slice |
| Page.LoadStopsAtCorruptLists | app/page.tsx:46-84 | an unparsable lists slice keeps the settings and tasks as loaded and skips the active list, filter and count |
| Page.LoadMissingSliceKeeps | app/page.tsx:45-81 | each of the six slices, when missing or empty, leaves its part of the state unchanged |
| Page.SaveStopsAtRejectedTasks | app/page.tsx:89-109 | a throw on the tasks key leaves only the settings written |
| Page.StaleSaveLosesTask | app/page.tsx:138-141 | after `handleAddTask` and a reload, the added task is missing |
| Page.CurrentSaveKeepsTask | app/page.tsx:138-141 | saving the state after the update makes the task survive a reload |
| Page.TimerSaveDropsRunTasks | app/page.tsx:198-201 | a task added while the timer runs is in storage after the next save, and the completion's save, which writes the state of the render that started the timer, drops it |
| Page.CurrentCountSaveKeepsRunTasks | app/page.tsx:198-201 | saving the state the count handler produces keeps the tasks added during the run and the new count |
| Page.TrimmedInputTask | components/todo-window.tsx:60-72 | the input " Read " gives the task titled "Read" |
| Page.CompletedTaskViews | app/page.tsx:144-153 | a ticked-off task shows under "completed", not under "active", and the footer reads "0 items left" |
| Page.AddThenCompleteScenario | app/page.tsx:138-153 | add then tick off from the defaults: the "completed" view holds the task and nothing is left |
| Page.DefaultChannelTitle | app/page.tsx:18 | the default channel's title is "Spring Lofi" |
| Page.Home.constructor | app/page.tsx:17-34 | the defaults: 25/5/15 minutes, sound on, "minimal" theme, the "Main List", the "all" filter, count 0, every panel closed and no window mounted |
| Page.Home.LoadDataFromLocalStorage | app/page.tsx:45-85 | the saved state becomes `Loaded` of the storage, and the view flags stay |
| Page.Home.LoadTextSlices | app/page.tsx:65-81 | active list, filter and count are read, none of them throwing |
| Page.Home.SaveDataToLocalStorage | app/page.tsx:88-110 | storage becomes `Persisted` of the given state |
| Page.Home.SaveCurrentState | app/page.tsx:88-110 | storage becomes `Persisted` of the current state |
| Page.Home.HandleSaveSettings | app/page.tsx:131-135 | new settings, panel closed, state from before the update saved; a mounted timer receives the settings and runs its settings effect |
| Page.Home.HandleAddTask | app/page.tsx:138-141 | task appended, state from before the update saved |
| Page.Home.HandleToggleTaskCompletion | app/page.tsx:144-153 | tasks toggled, state from before the update saved |
| Page.Home.HandleClearCompletedTasks | app/page.tsx:156-160 | done tasks removed, state from before the update saved |
| Page.Home.HandleChangeFilter | app/page.tsx:163-166 | filter set, state from before the update saved |
| Page.Home.HandleChangeActiveList | app/page.tsx:169-172 | active list set, state from before the update saved |
| Page.Home.HandleAddList | app/page.tsx:175-178 | list appended, state from before the update saved |
| Page.Home.HandleDeleteList | app/page.tsx:181-195 | list and its tasks removed, active list reset, state from before the update saved |
| Page.Home.HandleUpdatePomodoroCount | app/page.tsx:198-201 | count set; the state saved is the page state of the render in which the timer was started, which the interval from `startTimer` holds |
| Page.Home.HandleChangeChannel | app/page.tsx:113-118 | current channel set, nothing saved |
| Page.Home.TogglePomodoroPanel | app/page.tsx:121-123 | the timer panel's flag flips; closing unmounts the timer, discarding its run, and opening mounts a fresh one in its mount state (components/pomodoro-window.tsx:23-25) |
| Page.Home.ClosePomodoroPanel | app/page.tsx:224 | the timer window's close button: the panel closes and the timer is discarded |
| Page.Home.ToggleTodoPanel | app/page.tsx:126-128 | the task panel's flag flips; closing unmounts the task window, discarding its input and dialog, and opening mounts a fresh one with an empty input |
| Page.Home.CloseTodoPanel | app/page.tsx:234 | the task window's close button: the panel closes and the window's state is discarded |
| Page.Home.ShowSettings | app/page.tsx:228 | the settings panel opens |
| Page.Home.CloseSettings | app/page.tsx:250 | the settings panel closes and nothing else changes |
| Channels.CatalogFacts | data/channels.ts:3-134 | 26 channels with pairwise distinct ids |
| Channels.GetFavoriteChannels | data/channels.ts:141-146 | empty without a window or a stored list; otherwise the stored list; `None` when parsing throws |
| Channels.IsChannelFavorite | data/channels.ts:167-170 | whether some stored favourite has the id; `None` when reading throws |
| Channels.SaveFavoriteChannels | data/channels.ts:148-152 | writes the list under the favourites key; without a window it does nothing |
| Channels.ToggleFavorite | data/channels.ts:154-165 | writes the toggled list and returns the flipped membership; after a successful write, `isChannelFavorite` agrees with the result |
| Channels.IsFavorite | data/channels.ts:156 | whether some favourite has the id; IsChannelFavorite and ToggleFlips state it |
| Channels.Toggled | data/channels.ts:154-162 | the list `toggleFavorite` writes back; ToggleFlips, ToggleAbsentAppends, TogglePresentRemoves, ToggleKeepsOthers and ToggleTwiceRestores state it |
| Channels.ToggleFlips | data/channels.ts:154-165 | after a toggle the id is a favourite exactly when it was not before |
| Channels.ToggleAbsentAppends | data/channels.ts:161 | a new favourite is appended once, at the end |
| Channels.TogglePresentRemoves | data/channels.ts:159 | unfavouriting removes every entry with the id, and nothing else |
| Channels.ToggleKeepsOthers | data/channels.ts:158-162 | entries for other ids are unchanged, in order |
| Channels.ToggleTwiceRestores | data/channels.ts:154-165 | toggling a new id twice restores the list |
| NowPlaying.CurrentChannelTitle | components/now-playing-card.tsx:11-14 | the title of the first channel with the id, or "Unknown Channel" |
| NowPlaying.TitleStableUnderAppend | components/now-playing-card.tsx:11-14 | appending channels does not change a title already found |

## Left out

- The video player, loading a video into it, the background decoration, the particle animation
  and its random sizes: these are presentation and DOM work with no state logic.
- Time is not modelled. There is no real-time `setInterval`; a tick is an explicit call. The
  five-second `setTimeout` that hides the toast is left out; the toast is hidden only by
  `CloseToast`.
- Browser notifications: the permission is a parameter, and asking for it is an `Effect`. Left
  out are the asynchronous `.then` that shows the notification again once permission is
  granted, and the permission request on mount.
- PomodoroWindow.PomodoroTimer.TimerComplete: uses the current mode, settings and count. In the
  source, the interval callback uses the values captured when the timer was started. The two
  agree because the interval is cleared on every mode switch and every settings change. The
  page handler the interval holds is stale in the same way; `Page.Home.HandleUpdatePomodoroCount`
  models that with its `startedIn` parameter.
- React's render cycle is not modelled. Each handler's updates are applied at once, in order. The
  stale view that `saveDataToLocalStorage` sees is modelled by passing it the state from before
  the update, or, for the count handler, the state of the render that started the timer.
- Storage values are slices, not JSON text. Under a JSON key, any value of another shape counts
  as a parse failure.
- Page.LoadTextSlices: a non-text value under a text key is ignored.
- Page.Home.LoadDataFromLocalStorage: loaded settings are not passed on to a mounted timer. The
  load runs once, at mount, when no panel is open.
- Page.Home does not drive a mounted timer's ticks or completion. Those are `PomodoroTimer`
  calls, whose count requests reach `HandleUpdatePomodoroCount` through the caller.
- Page.LoadCount: a count that is not all decimal digits keeps the current count. In the source,
  `parseInt` can give `NaN` or a partial number.
- Text.UpperChar: covers ASCII letters only, not Unicode `toUpperCase`.
- Due-date formatting (`toLocaleDateString`) is left out because it depends on the locale.
- The per-task list colour (`lists.find(...) || lists[0]`) is left out. It only picks a colour
  for display.
- The lists dialog's open flag and the edit dialog's close button are left out. They only show
  and hide dialogs.
- Channels.ToggleFavorite: without a window, the source returns `true` and stores nothing. The
  model returns the flipped membership of the empty list, which is also `true`.
- The dock, the channel sheet and the random channel pick are not part of this model.
- Task ids come from `Date.now()` in the source. Here the caller supplies them.

## Findings

| source | as written | input that shows it | evidently intended | confidence | as-written member | corrected member |
|---|---|---|---|---|---|---|
| app/page.tsx:138-141 | `handleAddTask` (like every handler from line 131 to 201) calls `saveDataToLocalStorage()`, which writes the state of the render the handler was called in; the `setTasks` update is not yet visible to it | with empty storage, add a task, then reload: the stored tasks slice is `[]` and the task is gone | each handler saves the state it produces, so reloading restores the latest action | not executed | Page.StaleSaveLosesTask | Page.CurrentSaveKeepsTask |
| app/page.tsx:198-201 | `handleUpdatePomodoroCount` is called from `timerComplete` (components/pomodoro-window.tsx:128), which runs in the interval created by `startTimer`; that interval holds the handlers of the render in which the timer was started, so the save writes that render's tasks, lists, filter and count | start the timer, add a task, add a second task (the first is now stored), let the pomodoro finish: the stored tasks slice is the one from before the run, and the first task is gone | the completion saves the page state as it is when the count changes | not executed | Page.TimerSaveDropsRunTasks | Page.CurrentCountSaveKeepsRunTasks |

The handlers in `Page.Home` call `SaveDataToLocalStorage(before)` with the state from before the
update, as the code does. `Page.StaleSaveLosesTask` shows that the reloaded state misses the
added task. The corrected save is `Page.Home.SaveCurrentState`, which writes the current state.
`Page.CurrentSaveKeepsTask` and `Page.LoadAfterSave` prove that a reload after it restores what
the handler produced.

`Page.Home.HandleUpdatePomodoroCount` takes `startedIn`, the page state of the render in which
the timer was started, and saves that, as the interval's copy of the handler does.
`Page.TimerSaveDropsRunTasks` shows a task that had reached storage during the run being dropped
by the completion's save. `Page.CurrentCountSaveKeepsRunTasks` proves that saving the state the
handler produces keeps it, together with the new count.
