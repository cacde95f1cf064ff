# Marcus memory system — a Dafny model

The memory assistant helps someone whose memory resets at the end of every
cycle, which lasts three minutes in the demonstration build. During a cycle
the user logs memories, each with a priority and a category, and keeps
lists of people, hobbies and places. A countdown moves through four
phases: awareness, urgency, critical and reset. In the critical phase
quick-log buttons appear. When the countdown ends, a scripted reset sequence
walks the user back through who they are and who matters to them. Completing
the sequence starts the next cycle. Only persistent and CRITICAL memories
survive into it.

This project models that core as Dafny 4.11 code, one module per source
file:

- `Types` — the records of `src/types/index.ts`.
- `Text`, `Lists` — the JavaScript string and array operations the
  components use: `trim`, `toLowerCase`, `includes`, `split`/`join`,
  `filter`, `map`, `slice(0, n)`, stable `sort`.
- `MemoryTimer` — `useMemoryTimer`: the phase classifier, the `m:ss` clock,
  and the timer as a class whose methods are the hook's callbacks and
  timer firings.
- `Storage` — `MemoryStorage` as a class over one stored snapshot, and the
  built-in user, people, hobbies and places.
- `MemoryContext` — the reducer as the pure function `Apply`, and the
  provider as a class that owns the state and writes it back to storage.
- `Page` — the page's own handlers as a class, the quick-log buttons and the
  dashboard panels.
- `ResetSequence` — the seven steps and the step-by-step view.
- `LogForm`, `RelationshipForm` — the two forms, each as a class over its
  form state with a pure function for what a submission produces.
- `InitialData` — the server loader: the phase reader, the remaining time
  of a server cycle, and the fetch guard.
- `LogList`, `RelationshipCard`, `HobbyCard`, `PlaceCard`, `Keywords` — the
  lists' sort-and-cut and the keyword icon classifiers.

The outside world comes in as parameters:

- The clock (`Date.now()`), the id generator (`uuidv4()`) and what browser
  storage returns come in as an `Env` value or as method arguments.
- Browser storage is the `slot` field of a `MemoryStorage` object.
- React's timers are explicit method calls: `Tick`, `FireDelayedReset`,
  `Advance`.

## Model

| member | source | states |
|---|---|---|
| Text.Trim | src/components/LogForm.tsx:22-25 | the result has no leading or trailing white space, and is empty exactly when the input is blank |
| Text.TrimIsSlice | src/components/LogForm.tsx:22-25 | the result is the slice of the input left once the white space on either side is cut off |
| Text.TrimIdempotent | src/components/RelationshipForm.tsx:30-34 | trimming twice is trimming once |
| Text.ToLower | src/components/RelationshipCard.tsx:24 | same length, each character lower-cased |
| Text.ToLowerIdempotent | src/components/HobbyCard.tsx:24 | lower-casing twice is lower-casing once |
| Text.Includes | src/components/RelationshipCard.tsx:25-28 | true exactly when the needle occurs at some position |
| Text.Split | src/components/RelationshipForm.tsx:32-33 | at least one piece, and no piece holds the separator |
| Text.JoinSplit | src/components/RelationshipForm.tsx:24-33 | joining the pieces of a split gives back the text |
| Text.SplitJoin | src/components/RelationshipForm.tsx:24-33 | splitting a join of separator-free pieces gives back the pieces |
| Text.NatToString | src/hooks/useMemoryTimer.ts:104 | the decimal rendering is nonempty and all digits, and starts with `0` exactly when the number is zero (no leading zeros) |
| Text.DigitsValueOfNatToString | src/hooks/useMemoryTimer.ts:104 | the decimal rendering reads back as the number |
| Lists.Filter | src/app/page.tsx:234 | no longer than the input, every kept element passes, and kept elements come from the input |
| Lists.FilterMembers | src/context/MemoryContext.tsx:168-170 | an element is kept exactly when it is in the input and passes |
| Lists.FilterIdempotent | src/context/MemoryContext.tsx:168-170 | filtering twice by the same test is filtering once |
| Lists.Map | src/components/ResetSequence.tsx:44 | same length, each element transformed |
| Lists.SliceTo | src/components/LogList.tsx:23 | `slice(0, end)` with end absent, negative or past the length, as JavaScript defines it |
| Lists.SortDesc | src/components/LogList.tsx:15-22 | a permutation, ordered by descending key, and stable: the elements of each key keep their input order |
| Lists.SortEqualKeys | src/components/RelationshipCard.tsx:111-115 | sorting elements of one rank leaves them in input order |
| Lists.SortTake | src/components/LogList.tsx:15-23 | the cut sorted copy has `slice`'s length, holds only input elements, is ordered, outranks everything it leaves out, and keeps each key's input order |
| Lists.PreviewDetails | src/components/PlaceCard.tsx:89-99 | `slice(0, 3)`: exactly the first min(3, n) entries are shown, and a `+n more` count exists exactly when there are more than three, equal to the length minus three |
| MemoryTimer.CalculatePhase | src/hooks/useMemoryTimer.ts:27-35 | each phase holds exactly on its range of the remaining time: reset at or below 0, critical at or below 17 %, urgency at or below 44 % |
| MemoryTimer.PhaseMonotone | src/hooks/useMemoryTimer.ts:27-35 | less time left never gives a less severe phase |
| MemoryTimer.Phases180 | src/hooks/useMemoryTimer.ts:31-33 | for the 180-second cycle, the phase boundaries fall between 80 and 79 seconds and between 31 and 30 seconds |
| MemoryTimer.FullCycle180 | src/hooks/useMemoryTimer.ts:68-89 | a full cycle of ticks announces urgency, critical and reset, once each, in that order |
| MemoryTimer.FullCycle180Announcements | src/hooks/useMemoryTimer.ts:68-89 | over a full cycle `onPhaseChange` is called with urgency, critical and reset, in that order |
| MemoryTimer.TickRunRises | src/hooks/useMemoryTimer.ts:68-89 | the phases announced while ticking rise strictly in severity and end with reset |
| MemoryTimer.PadStart2 | src/hooks/useMemoryTimer.ts:104 | a one-digit text is padded with `0` to two characters, and a longer one is unchanged |
| MemoryTimer.FormatTimeRoundTrip | src/hooks/useMemoryTimer.ts:101-105 | the `m:ss` clock reads back as the minutes and the seconds of the input |
| MemoryTimer.ClockAtStart | src/hooks/useMemoryTimer.ts:101-105 | 180 seconds is shown as `3:00` |
| MemoryTimer.ClockInLastMinute | src/hooks/useMemoryTimer.ts:101-105 | 59 seconds is shown as `0:59` |
| MemoryTimer.Timer.constructor | src/hooks/useMemoryTimer.ts:23-25 | full time, awareness, and active exactly when auto-start and the timer flag are both set |
| MemoryTimer.Timer.StartTimer | src/hooks/useMemoryTimer.ts:46-51 | active, full time, awareness, and `onTimerStateChange(true)` reported |
| MemoryTimer.Timer.PauseTimer | src/hooks/useMemoryTimer.ts:53-56 | inactive with the time and phase kept, and `onTimerStateChange(false)` reported |
| MemoryTimer.Timer.ResetTimer | src/hooks/useMemoryTimer.ts:58-63 | full time, awareness, active as the props say, and `onReset` reported |
| MemoryTimer.Timer.RunDown | src/hooks/useMemoryTimer.ts:65-99 | ticking an active timer until it stops leaves it at 0 in the reset phase with one delayed reset scheduled (remembering `autoStart && isTimerActive`), and its `onPhaseChange` calls are exactly those of the reference run `TickRun`; an inactive timer is unchanged |
| MemoryTimer.Timer.Tick | src/hooks/useMemoryTimer.ts:65-99 | an inactive timer is unchanged; an active one loses a second, takes the phase of the new time, announces a phase change, and at 0 stops and schedules the delayed reset, which remembers the props' `autoStart && isTimerActive` of that moment |
| MemoryTimer.Timer.FireDelayedReset | src/hooks/useMemoryTimer.ts:81-83 | the oldest scheduled reset runs the `resetTimer` its closure captured: full time, awareness, running exactly when the props it captured allowed it, `onReset` recorded, and the props themselves untouched |
| MemoryTimer.Timer.SetProps | src/hooks/useMemoryTimer.ts:15-22 | new `isTimerActive`/`autoStart` props change nothing else |
| MemoryTimer.Timer.Sync | src/hooks/useMemoryTimer.ts:37-44 | a switched-off timer stops, and a timer starts only when switched on, auto-starting and at full time |
| MemoryTimer.Timer.Clock | src/hooks/useMemoryTimer.ts:115 | the rendered clock reads back as the remaining minutes and seconds |
| Storage.LogsAfterUpdate | src/lib/storage.ts:66-70 | a log is kept exactly when it is persistent, CRITICAL, or from the new cycle or later |
| Storage.UpdateCycleKeepsPinned | src/lib/storage.ts:65-70 | the persistent and CRITICAL logs are all kept, in order |
| Storage.UpdateCycleOfOlderLogs | src/lib/storage.ts:65-70 | when every log is older than the new cycle, exactly the persistent and CRITICAL logs are kept |
| Storage.MemoryStorage.constructor | src/lib/storage.ts:3-5 | nothing is stored yet |
| Storage.MemoryStorage.Save | src/lib/storage.ts:6-12 | the stored snapshot becomes the state |
| Storage.MemoryStorage.Load | src/lib/storage.ts:14-22 | returns what is stored, or nothing |
| Storage.MemoryStorage.AddLog | src/lib/storage.ts:24-34 | with nothing stored, nothing changes; otherwise the log is appended, and queued as a reminder when pinned |
| Storage.MemoryStorage.AddRelationship | src/lib/storage.ts:36-42 | the person is appended to a stored snapshot |
| Storage.MemoryStorage.AddHobby | src/lib/storage.ts:44-50 | the hobby is appended to a stored snapshot |
| Storage.MemoryStorage.AddPlace | src/lib/storage.ts:52-58 | the place is appended to a stored snapshot |
| Storage.MemoryStorage.UpdateCycle | src/lib/storage.ts:60-73 | the cycle number and reset time are set, the logs are cut as `LogsAfterUpdate` says, and nothing else changes |
| Storage.MemoryStorage.Clear | src/lib/storage.ts:75-77 | nothing is stored |
| MemoryContext.InitialStateAtTopOfCycle | src/context/MemoryContext.tsx:22-32 | the initial state is at the top of cycle 1 of 180 seconds, in the phase the timer computes for it, with no logs or reminders |
| MemoryContext.LoadSnapshot | src/context/MemoryContext.tsx:36-53 | loading the snapshot of a state gives back that state |
| MemoryContext.ReplaceById | src/context/MemoryContext.tsx:86-95 | each person with the updated id is replaced, and every other is kept in place |
| MemoryContext.UpdateRelationshipFrame | src/context/MemoryContext.tsx:86-95 | UPDATE_RELATIONSHIP changes the relationship list and nothing else |
| MemoryContext.ResetFrame | src/context/MemoryContext.tsx:156-179 | RESET_CYCLE clears the confusion flag and the reminder queue, advances the cycle, stamps `lastResetTime` with the current time, restarts the timer as `autoStart` says, and keeps relationships, hobbies and places |
| MemoryContext.Apply | src/context/MemoryContext.tsx:34-189 | ADD_LOG appends one log stamped with the current cycle and queues it exactly when it is pinned; RESET_CYCLE keeps exactly the pinned logs, advances the cycle, empties the queue and restarts the phase and time; no other action drops logs; CLEAR_DATA and an empty LOAD_STATE give the initial state |
| MemoryContext.AddLogAgreesWithStorage | src/context/MemoryContext.tsx:55-71 | the reducer's ADD_LOG and storage's `addLog` build the same state |
| MemoryContext.AddItemsAppend | src/context/MemoryContext.tsx:73-121 | the add actions append their item with a fresh id and change nothing else |
| MemoryContext.SettersChangeOneField | src/context/MemoryContext.tsx:123-154 | each setter changes its one field only |
| MemoryContext.UpdateRelationshipReplaces | src/context/MemoryContext.tsx:86-95 | the updated person is in the list, every other entry was already there, and every person with another id is kept |
| MemoryContext.UpdateRelationshipWithSame | src/context/MemoryContext.tsx:86-95 | writing back an unchanged person with a unique id changes nothing |
| MemoryContext.ResetLogsIdempotent | src/context/MemoryContext.tsx:168-170 | a second cycle reset keeps the same logs as the first |
| MemoryContext.ResetKeepsPinned | src/context/MemoryContext.tsx:168-170 | a cycle reset keeps a log exactly when it was among the logs and is CRITICAL or persistent |
| MemoryContext.PinnedLogSurvivesReset | src/context/MemoryContext.tsx:55-68 | an added CRITICAL or persistent log is queued as a reminder and is still among the logs after the next reset |
| MemoryContext.InitialConsistent | src/context/MemoryContext.tsx:22-32 | the initial state is consistent: no log from a later cycle, and every reminder a pinned log still among the logs |
| MemoryContext.ApplyKeepsConsistent | src/context/MemoryContext.tsx:34-189 | every action keeps the state consistent, given a consistent stored state for LOAD_STATE |
| MemoryContext.ResetKeepsReminders | src/context/MemoryContext.tsx:156-179 | every reminder queued during the cycle is still among the logs after the reset |
| MemoryContext.ResetAgreesWithUpdateCycle | src/lib/storage.ts:60-73 | the reducer's reset and storage's `updateCycle` to the next cycle keep the same logs |
| MemoryContext.MemoryProvider.constructor | src/context/MemoryContext.tsx:208-213 | the provider starts from the stored state when there is one, otherwise from the initial state |
| MemoryContext.MemoryProvider.Dispatch | src/context/MemoryContext.tsx:208-228 | the new state is `Apply` of the action; the persisting actions write it to storage, CLEAR_DATA empties storage, and the rest leave storage alone |
| Keywords.AnyIncluded | src/components/PlaceCard.tsx:25 | true exactly when one of the words occurs in the text |
| Keywords.MatchIndex | src/components/PlaceCard.tsx:23-31 | the first group whose words occur, or past the end when none does |
| Keywords.Classify | src/components/PlaceCard.tsx:23-31 | the icon of the first matching group, or the fallback exactly when no group matches |
| LogList.SortedLogs | src/components/LogList.tsx:15-23 | the shown logs are a sub-multiset of the input of `slice`'s length, by priority and then newest first, outrank every log left out, and keep the input order of logs with the same priority and timestamp (the stable sort); without `maxItems` they are all the logs |
| LogList.CategoryIconIdentifies | src/components/LogList.tsx:35-44 | any icon other than the user icon identifies its category |
| LogList.CategoryIconUser | src/components/LogList.tsx:35-44 | the user icon is shown exactly for the personal, hobbies and places categories |
| RelationshipCard.SortedRelationships | src/components/RelationshipCard.tsx:111-116 | the people shown are ordered by importance, outrank those left out, and keep their input order within one importance |
| RelationshipCard.RelationIconHeart | src/components/RelationshipCard.tsx:23-32 | the heart icon is shown exactly for a wife, husband or spouse, and the user icon otherwise |
| RelationshipCard.RelationIconIgnoresCase | src/components/RelationshipCard.tsx:24 | the icon does not depend on letter case |
| HobbyCard.SortedHobbies | src/components/HobbyCard.tsx:107-112 | the hobbies shown are ordered by importance, outrank those left out, and keep their input order within one importance |
| HobbyCard.HobbyIconPhotoFirst | src/components/HobbyCard.tsx:25 | a name mentioning photo always gets the camera icon |
| HobbyCard.HobbyIconMusic | src/components/HobbyCard.tsx:23-31 | the music icon is shown exactly when the name mentions music and no earlier keyword |
| HobbyCard.HobbyPreview | src/components/HobbyCard.tsx:82-91 | the shown details are exactly the first min(3, n) of `details`, none without `details`, all of them when there is no `+n more` line, and a `+n more` line exactly when there are more than three, with n the count of the rest |
| PlaceCard.SortedPlaces | src/components/PlaceCard.tsx:113-119 | the places shown are ordered by importance, outrank those left out, and keep their input order within one importance |
| PlaceCard.PlaceIconFallback | src/components/PlaceCard.tsx:23-31 | the map pin is shown exactly when no keyword group matches |
| PlaceCard.PlaceIconIgnoresCase | src/components/PlaceCard.tsx:24 | the icon does not depend on letter case |
| PlaceCard.PlacePreview | src/components/PlaceCard.tsx:89-99 | exactly the first min(3, n) key details, all of them when there is no `+n more` line, and `+n more` exactly when there are more than three, with the count of the rest |
| Page.QuickLogButtons | src/app/page.tsx:61-70 | three buttons in the critical phase, none otherwise, all CRITICAL and about relationships or work |
| Page.QuickLogInput | src/app/page.tsx:72-80 | a quick log is the button's text, priority and category, marked emergency and persistent |
| Page.QuickLogSurvivesReset | src/app/page.tsx:72-80 | a quick log is queued as a reminder and is still among the logs after the next reset |
| Page.CriticalMemories | src/app/page.tsx:233-236 | the Critical Memories panel shows the three most recent CRITICAL logs, newest first |
| Page.FirstPassing | src/app/page.tsx:247-249 | `filter` then `slice(0, n)`: the first `n` passing elements, in order |
| Page.DashboardOf | src/app/page.tsx:225-292 | each panel is the first two entries of its list that pass the panel's filter (CRITICAL people, HIGH-or-above hobbies and places), so at most two, all from the state, and Key People is empty only when no person is CRITICAL |
| Page.KeyPeopleLeadResetSequence | src/app/page.tsx:247-249 | the Key People panel shows the people that step 4 of the reset sequence introduces first, in the same order |
| Page.MemoryApp.constructor | src/app/page.tsx:18-25 | the reset sequence starts closed |
| Page.MemoryApp.Screen | src/app/page.tsx:97-99 | the reset sequence is shown alone exactly while its flag is set |
| Page.MemoryApp.HandleReset | src/app/page.tsx:27-29 | the reset sequence opens |
| Page.MemoryApp.HandlePhaseChange | src/app/page.tsx:31-39 | the phase is stored; storage is untouched; the sequence opens exactly when the phase is reset |
| Page.MemoryApp.HandleResetComplete | src/app/page.tsx:56-59 | the sequence closes and the store runs exactly one cycle reset, which is saved |
| Page.MemoryApp.HandleQuickLog | src/app/page.tsx:72-80 | the store adds the button's log, which is saved |
| Page.MemoryApp.DeliverTimerEvent | src/app/page.tsx:41-54 | a phase change goes to `handlePhaseChange`, a timer-state change to `setTimerActive` (saved), and a reset to `handleReset`; only the timer-state change touches storage |
| ResetSequence.OrElse | src/components/ResetSequence.tsx:44-45 | JavaScript's `a \|\| b` on strings: the first unless it is empty |
| ResetSequence.FirstFactIgnoresKeyFacts | src/components/ResetSequence.tsx:44 | as written, a person without a `facts` list always reads "Important person" |
| ResetSequence.FirstFact | src/components/ResetSequence.tsx:44 | a usable first entry of `facts` is shown; otherwise the first key fact; otherwise "Important person" |
| ResetSequence.FirstFactExtendsWritten | src/components/ResetSequence.tsx:44 | the corrected fact agrees with the written one whenever the written one finds a fact, and when there are no key facts |
| ResetSequence.PeopleLines | src/components/ResetSequence.tsx:42-44 | one `name - relation: fact` line per CRITICAL person, in list order; the fact is the corrected reading `FirstFact` (see ## Findings; `PeopleContentAsWritten` is the text as written) |
| ResetSequence.PeopleJoin | src/components/ResetSequence.tsx:42-45 | there are lines exactly when a person is CRITICAL, and their join is never empty and never the fallback text |
| ResetSequence.PeopleContent | src/components/ResetSequence.tsx:42-45 | step 4 is the joined lines when a person is CRITICAL, and the fallback text exactly when none is; corrected reading (see ## Findings) |
| ResetSequence.BulletLines | src/components/ResetSequence.tsx:52-55 | the first `limit` matching logs, each as a `• ` bullet of its content |
| ResetSequence.CriticalMemoriesContent | src/components/ResetSequence.tsx:52-56 | step 5 lists the first five CRITICAL logs, or the fallback text when there are none |
| ResetSequence.HighMemoriesContent | src/components/ResetSequence.tsx:63-67 | step 6 lists the first three HIGH logs, or the fallback text when there are none |
| ResetSequence.Steps | src/components/ResetSequence.tsx:17-78 | seven steps with ids 1 to 7, their delays, and steps 4 to 6 built from the state; step 4 is the corrected reading (see ## Findings) |
| ResetSequence.StepList | src/components/ResetSequence.tsx:17-78 | the seven steps carry ids 1 to 7 and their delays, with the given people and memory texts as steps 4 to 6 |
| ResetSequence.BuiltInCriticalPeople | src/lib/storage.ts:97-163 | of the built-in people, Sarah and Amanda, in that order, are the CRITICAL ones |
| ResetSequence.TwoCriticalPeopleAsWritten | src/components/ResetSequence.tsx:42-45 | as written, with exactly two CRITICAL people step 4 is their two lines joined by a newline |
| ResetSequence.TwoCriticalPeople | src/components/ResetSequence.tsx:42-45 | corrected, with exactly two CRITICAL people step 4 is their two lines joined by a newline |
| ResetSequence.BuiltInPeopleAsWritten | src/components/ResetSequence.tsx:42-45 | as written, step 4 for the built-in people reads "Important person" for both Sarah and Amanda |
| ResetSequence.BuiltInPeople | src/components/ResetSequence.tsx:42-45 | corrected, step 4 for the built-in people shows Sarah's and Amanda's first key facts |
| ResetSequence.ResetSequenceView.View | src/components/ResetSequence.tsx:102-148 | the initializing screen exactly when not visible, the completion screen exactly when visible and past the last step, and the current step's screen exactly when visible before the end |
| ResetSequence.ResetSequenceView.constructor | src/components/ResetSequence.tsx:14-17 | the steps of the state (step 4 in the corrected reading, see ## Findings), at step 0, not yet visible |
| ResetSequence.ResetSequenceView.Mount | src/components/ResetSequence.tsx:80-82 | the sequence becomes visible at the same step |
| ResetSequence.ResetSequenceView.PendingDelay | src/components/ResetSequence.tsx:84-88 | the wait before the next step is the step's delay, or 2000 ms when that is 0 |
| ResetSequence.ResetSequenceView.Advance | src/components/ResetSequence.tsx:84-92 | a visible sequence before its end moves on by one step |
| ResetSequence.ResetSequenceView.Skip | src/components/ResetSequence.tsx:94-96 | skipping from a step jumps to the completion screen |
| ResetSequence.ResetSequenceView.Complete | src/components/ResetSequence.tsx:98-100 | the completion button calls `onComplete` once |
| LogForm.SubmitPayload | src/components/LogForm.tsx:20-30 | nothing for blank text; otherwise the trimmed, nonempty text, persistent exactly when the box is checked or the priority is CRITICAL, with the other fields as chosen |
| LogForm.CriticalSubmissionSurvivesReset | src/components/LogForm.tsx:29 | a CRITICAL memory from the form is queued and survives the next reset whatever the persistence box says |
| LogForm.LogFormView.constructor | src/components/LogForm.tsx:13-18 | an emergency form starts CRITICAL and persistent, any other MEDIUM and not; empty text, personal category |
| LogForm.LogFormView.SetContent | src/components/LogForm.tsx:15 | only the text changes |
| LogForm.LogFormView.SetPriority | src/components/LogForm.tsx:16 | only the priority changes |
| LogForm.LogFormView.SetCategory | src/components/LogForm.tsx:17 | only the category changes |
| LogForm.LogFormView.SetPersistent | src/components/LogForm.tsx:18 | only the persistence box changes |
| LogForm.LogFormView.Submit | src/components/LogForm.tsx:20-34 | blank text changes nothing; otherwise the payload is added and saved, the text is cleared and `onClose` runs when given |
| LogForm.LogFormView.Record | src/components/LogForm.tsx:24-33 | the input is added and saved, the text is cleared and `onClose` runs when given; the other fields keep their values |
| RelationshipForm.TextOf | src/components/RelationshipForm.tsx:19-25 | an absent optional field shows as empty text |
| RelationshipForm.InitialFormData | src/components/RelationshipForm.tsx:16-26 | a new form is empty, "other" and MEDIUM; an edit form shows the person's name, relation, photo, contact, birthday, last interaction (empty when absent), type and importance, and the facts one per line |
| RelationshipForm.ParseFacts | src/components/RelationshipForm.tsx:32-35 | every parsed fact is nonempty and trimmed |
| RelationshipForm.ParseFactsMembers | src/components/RelationshipForm.tsx:32-35 | a string is a parsed fact exactly when it is nonempty and is some line of the box, trimmed |
| RelationshipForm.ParseJoinedLines | src/components/RelationshipForm.tsx:32-35 | for lines without newlines, parsing their newline join gives the lines trimmed, in order, with the empty ones dropped |
| RelationshipForm.ParseJoinedFacts | src/components/RelationshipForm.tsx:24-35 | facts shown one per line parse back to the same facts |
| RelationshipForm.Normalize | src/components/RelationshipForm.tsx:48-50 | `trim() \|\| undefined`: absent exactly for blank text, otherwise the trimmed text |
| RelationshipForm.NormalizeTextOf | src/components/RelationshipForm.tsx:19-50 | showing an optional field and normalizing it gives it back |
| RelationshipForm.BuildSubmission | src/components/RelationshipForm.tsx:28-72 | rejected exactly when name or relation is blank; otherwise an update when editing, keeping the person's id and other fields, or else an add |
| RelationshipForm.SubmissionFields | src/components/RelationshipForm.tsx:32-69 | a submitted person has the trimmed name and relation, the normalized optional fields, the chosen type and importance, and the parsed facts |
| RelationshipForm.UnchangedEditWritesBack | src/components/RelationshipForm.tsx:16-57 | submitting an edit form that was not changed writes back the same person |
| RelationshipForm.RelationshipFormView.constructor | src/components/RelationshipForm.tsx:16-26 | the form starts from `InitialFormData` |
| RelationshipForm.RelationshipFormView.HandleInputChange | src/components/RelationshipForm.tsx:76-78 | exactly the named field takes the new value |
| RelationshipForm.RelationshipFormView.Submit | src/components/RelationshipForm.tsx:28-74 | a rejected form changes nothing; otherwise the person is added or updated in the store, saved, and `onClose` runs once |
| InitialData.PhaseFromString | src/hooks/useInitialData.ts:6-16 | a phase name gives that phase; anything else, or nothing, gives awareness |
| InitialData.PhaseNameRoundTrip | src/hooks/useInitialData.ts:6-16 | every phase is read back from its own name |
| InitialData.PhaseFromStringIdempotent | src/hooks/useInitialData.ts:6-16 | reading the name of a read phase gives the same phase |
| InitialData.CalculateTimeRemaining | src/hooks/useInitialData.ts:82-87 | never negative; three hours without a cycle or with a missing or zero start; otherwise three hours minus the time since the start, but not below 0 |
| InitialData.TimeRemainingNonIncreasing | src/hooks/useInitialData.ts:82-87 | the time left never grows as the clock moves on |
| InitialData.BuildPayload | src/hooks/useInitialData.ts:53-61 | each missing list becomes empty, a missing user is the current one, and the phase and the remaining time are those `calculateTimeRemaining` gives for the cycle (never negative) |
| InitialData.InitialDataLoader.constructor | src/hooks/useInitialData.ts:20 | nothing loaded or dispatched |
| InitialData.InitialDataLoader.ShouldFetch | src/hooks/useInitialData.ts:70-74 | a fetch starts exactly for a user with an id when nothing is loaded or loading |
| InitialData.InitialDataLoader.BeginFetch | src/hooks/useInitialData.ts:22-26 | a fetch starts exactly when none has, and the flag is then set |
| InitialData.InitialDataLoader.FinishFetch | src/hooks/useInitialData.ts:45-63 | a user error clears the flag and dispatches nothing; otherwise the payload is dispatched once |
| InitialData.InitialDataLoader.FailFetch | src/hooks/useInitialData.ts:64-67 | a thrown error clears the flag, so a later effect may fetch again |

## Left out

- Rendering, styling, icons' pictures, the tabs, the mobile menu, the forms' open/close flags, `EmergencyButton` and `CountdownTimer` are not modelled. The icon choice is modelled as a value.
- The backend (`backend/src`) and the API client (`src/lib/api.ts`) are not part of this model. The loader's responses come in as parameters.
- `getProgressPercentage` works on floating point numbers and is not modelled. Neither are the priority color tables.
- Text.ToLower: lower-cases ASCII letters only. JavaScript's `toLowerCase` also folds other scripts. Every keyword the classifiers test is ASCII.
- Relationships carry two fact lists and two type tags. `src/types/index.ts` declares `keyFacts` and `relationship`. The form and the reset sequence read and write `facts` and `relationshipType`. Both pairs are kept as separate fields. A `facts` entry is modelled by its text alone: `id`, `relationshipId` and `createdAt` are dropped.
- RelationshipForm.BuildSubmission: an edit also sets `updatedAt`, a timestamp that no other code reads. It is not modelled.
- A person added through the form has no `keyFacts` and no `relationship` tag. The source object literal leaves both out.
- In the model such a person's `keyFacts` is the empty list, where the source leaves the field undefined. `relationship.keyFacts.map` (src/components/RelationshipCard.tsx:80) and `r.keyFacts[0]` (src/components/EmergencyButton.tsx:47) would throw for that person. Those components are not part of this model, so the model does not show the failure.
- HobbyCard.HobbyPreview: the card reads `details`, which the built-in hobbies do not have. So the preview of a built-in hobby is empty, which matches the code as written.
- Page.MemoryApp.HandlePhaseChange: the zero-delay `setTimeout` is modelled as running at once.
- The reset sequence re-creates `steps` on every render. That restarts the pending step timer, but timer cancellation is not modelled. `Advance` is one timer firing.
- The loader's `timeRemaining` is in milliseconds, while the timer and the reducer count seconds. Both are modelled as written.
- The reducer has no `LOAD_INITIAL_DATA` case, and `useMemory` provides no `dispatch`. The loader model therefore records the payloads it would dispatch and does not apply them.
- MemoryTimer.Timer: `cycleLength` is fixed for the life of a timer. A change of the prop is not modelled.
- The three-second timeout after the last tick is never cancelled. The pending ones queue in `pendingResets`, each with the props its `resetTimer` closed over. The `onReset` callback is recorded as an event, whichever closure calls it.
- The reducer's `default` branch cannot be reached with a typed action, so it is not modelled.
- The dashboard's hobby and place panels are `filter` then `slice(0, 2)` with no sort. They are modelled that way.
- `JSON.stringify`/`JSON.parse` of the stored state are taken to give back the stored value. Storage errors, which the source logs and swallows, are not modelled.

## Findings

| source | as written | input that shows it | evidently intended | confidence | as-written member | corrected member |
|---|---|---|---|---|---|---|
| src/components/ResetSequence.tsx:44 | step 4 shows `r.facts?.[0]?.fact \|\| 'Important person'`, but the built-in people (src/lib/storage.ts:97-163) have only `keyFacts` | the initial state: step 4 reads "Sarah Chen - Wife: Important person" and "Dr. Amanda Rodriguez - Neurologist: Important person" | show each CRITICAL person's first fact, falling back to the key facts: "Anniversary May 15" for Sarah, "Treating your condition" for Amanda | high (not executed) | ResetSequence.BuiltInPeopleAsWritten | ResetSequence.BuiltInPeople |
