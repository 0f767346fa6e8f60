# BWY quest fix, modelled in Dafny

This project models the core of the BWY quest-fix SKSE plugin (`plugin.cpp`).

The plugin watches one quest, whose editor ID is configured. Once the quest runs and reaches the trigger stage, it shows a message box and a notification. It then watches the player's inventory for a configured potion. Five whole seconds after the potion turns up, it optionally removes one potion and moves the quest to its completion stage with a `setstage` console command. It shows a completion notification at the end.

Every visible request to the game happens at most once per game session:
- the message box;
- the stage notification;
- the potion notification;
- the console command;
- the removal;
- the completion notification.

A new game or a loaded save resets the session.

Around the state machine sit four more parts:
- three log channels, each keeping the newest 2000 lines in memory and writing to two destination files;
- an INI reader that fills the plugin's configuration;
- the resolution of a plugin-relative record key into a 32-bit form identifier;
- the in-memory disabling of features whose plugin is not loaded.

The modules follow the program's structure:

| module | what it holds |
|---|---|
| `Wrappers` | `Option` |
| `Text` | the `erase`/`find_first_not_of` trimming idiom, `NormalizeName`, splitting at the first `=` |
| `Numeric` | `std::to_string`, `std::stoi`, `std::stoul(…, 16)` on a platform with a 32-bit `long` |
| `FormIds` | `GetFormIDFromPlugin` |
| `Settings` | `PluginConfig`, its defaults and the INI reader, as a fold of `ApplyLine` over the file's lines |
| `DefaultFile` | `SaveDefaultConfiguration`'s lines, and the proof that the INI reader reads them back as the defaults |
| `Logging` | `WriteToDualPath` and the three log writers (one `LogChannel` class, instantiated per channel) |
| `Effects` | the requests made of the game, as an ordered trace |
| `Session` | what the plugin's flags and a session's trace must agree on, and the four steps that keep them agreeing |
| `Cache` | `ResolveFormIDs` and `ValidatePluginsInINI` on values |
| `QuestFix` | the `Monitor` class holding the plugin's globals, with one method per handler and check |

The game's answers are parameters of the methods:
- whether the quest is found, whether it runs, and its stage;
- the contents of the player's inventory;
- the plugin lookups;
- the INI file's lines;
- the steady clock in milliseconds.

Every request the plugin makes of the game is appended to `Monitor.effects`. A session reset clears `effects`, so `effects` is the request list of the current session. The class invariant `Monitor.Valid` includes `Session.Agrees(effects, flags)`. That invariant says the trace holds:
- exactly one message box per set `g_triggerMessageShown`;
- exactly one potion notification per set `g_potionDetectedMessageShown`;
- exactly one console command per set `completionDone`;
- exactly one completion notification per set `g_completionMessageShown`;
- at most one stage notification;
- at most one removal.

Every handler keeps `Valid`, so no sequence of handler calls can make any of these requests twice in a session.

## Model

| member | source | states |
|---|---|---|
| Text.FirstNotIn | plugin.cpp:894 | `find_first_not_of`: every character before the index is in the set, and the one at the index is not |
| Text.EndNotIn | plugin.cpp:895 | `find_last_not_of` plus one: every character from the index on is in the set, and the one before it is not |
| Text.Trim | plugin.cpp:894-895 | the result is a contiguous piece of the input after a prefix and before a suffix made only of stripped characters; it neither starts nor ends with one; it is empty exactly when the whole input is stripped characters |
| Text.TrimOfTrimmed | plugin.cpp:894-895 | a text that neither starts nor ends with a stripped character is left as it is |
| Text.TrimKeepsOut | plugin.cpp:911-914 | trimming never introduces a character (used to keep `=` out of a trimmed key) |
| Text.TrimIdempotent | plugin.cpp:894-895 | trimming twice equals trimming once |
| Text.NormalizeName | plugin.cpp:182-187 | the result is the name with its leading and trailing spaces, tabs, CRs and LFs removed: it is the piece of the name that starts at the first other character, and only those characters follow it; it neither starts nor ends with one; it is empty exactly when the name holds only those |
| Text.NormalizeNameIdempotent | plugin.cpp:182-187 | normalising a normalised name changes nothing |
| Text.IndexOf | plugin.cpp:906 | `find('=')`: no `=` before the index, and an `=` at it when it is in range |
| Text.SplitAtFirst | plugin.cpp:906-909 | None exactly when there is no `=`; otherwise the key, `=` and the value put back together give the line, and the key holds no `=` |
| Text.IndexOfAfter | plugin.cpp:906 | in `a + "=" + b` with no `=` in `a`, the first `=` is at the length of `a` |
| Text.SplitAtFirstOf | plugin.cpp:906-909 | splitting `a + "=" + b` with no `=` in `a` gives back `a` and `b` |
| Numeric.DigitRun | plugin.cpp:924 | the longest prefix of digits that `strtol` reads: all digits, followed by a non-digit or by the end |
| Numeric.NatToDecimal | plugin.cpp:1113 | `std::to_string` of a natural: non-empty decimal digits whose value is the number, with no leading zero; it starts with `0` exactly for 0 |
| Numeric.IntToDecimal | plugin.cpp:462 | `std::to_string` of an int: a minus sign exactly for a negative number, then the magnitude's digits without a leading zero |
| Numeric.SubjectOf | plugin.cpp:924 | the subject sequence `strtol` reads: none exactly when no digit of the base follows the leading white space and the optional sign; otherwise it is negative exactly when that sign is `-`, and it has at least one digit |
| Numeric.SubjectDigits | plugin.cpp:924 | the subject's digits are the whole digit run found after the white space, the sign and (in base 16) a `0x` prefix: they end at the end of the text or before a non-digit |
| Numeric.ParseInt | plugin.cpp:924 | `std::stoi`: a value exactly when a digit is read and the signed magnitude fits in 32 bits; that value is the subject's digits read in base 10, negated after `-`, and lies in the int range |
| Numeric.ParseHex | plugin.cpp:411 | `std::stoul(…, 16)` with a 32-bit `unsigned long`: a value exactly when a hex digit is read and the magnitude is below 2^32; below 2^32; without a minus sign it equals the hex value |
| Numeric.ParseIntOfDecimal | plugin.cpp:462 | `std::stoi` reads back `std::to_string(i)` as `i` for every 32-bit `i` |
| FormIds.StripPlaceholder | plugin.cpp:404-407 | a leading `XX` is removed; any other key is unchanged |
| FormIds.GetFormIDFromPlugin | plugin.cpp:391-425 | 0 without the plugin or when the key does not parse as hex; otherwise the top byte is the mod index (the small-file index in place of 0xFF, narrowed to 8 bits) and the low 24 bits are those of the parsed key |
| Settings.FieldOf | plugin.cpp:916-968 | a setting is found only under its own section and key name; when none is found, no setting has that section and key |
| Settings.FieldOfNames | plugin.cpp:916-968 | every setting is reached by its section and key, so no two settings share them |
| Settings.Get | plugin.cpp:916-968 | each setting's value has the setting's kind |
| Settings.Set | plugin.cpp:916-968 | assigning a setting changes that setting to the value and leaves every other setting unchanged |
| Settings.SameSettings | plugin.cpp:31-67 | the twenty settings determine the configuration |
| Settings.Decode | plugin.cpp:918-966 | the decoded value has the setting's kind; a boolean is true exactly for `1`, `true` or `True`; a text setting takes the value verbatim; an integer setting takes what `std::stoi` reads, and decoding fails exactly when `std::stoi` throws on it |
| Settings.ClassifyLine | plugin.cpp:894-913 | a line is blank exactly when it is all white space; after trimming it is a comment exactly when it starts with `;` or `#`, a header `[name]` exactly when it starts with `[` and ends with `]`, and an assignment exactly when it is neither and holds an `=`; the key and value are the two halves at the first `=`, each trimmed of spaces and tabs |
| Settings.ClassifyAsHeader | plugin.cpp:901-904 | a trimmed line between `[` and `]` is read as the header of the name between them |
| Settings.ClassifyAsAssignment | plugin.cpp:906-914 | a trimmed line that is neither a comment nor a header and splits at its first `=` is read as the assignment of the two trimmed halves; this covers a line like `[Quest=1` that opens a bracket it does not close |
| Settings.ApplyLine | plugin.cpp:893-968 | blank, comment and unrecognised lines change nothing; a header changes only the section; an assignment to a known setting in the current section sets exactly that setting (or throws when `std::stoi` throws); any other assignment changes nothing |
| Settings.RunAppend | plugin.cpp:893-970 | reading `a + b` is reading `a`, then, unless `a` threw, reading `b` from where `a` left off |
| Settings.ClassifyAssignment | plugin.cpp:906-914 | `key=value`, with a key made of letters and a value that trimming leaves alone, is read as exactly that assignment |
| Settings.KeyNameIsWord | plugin.cpp:916-968 | every key name the reader compares against is made of letters |
| Settings.HeaderLineSetsSection | plugin.cpp:901-904 | the header line of a section sets the current section to it and changes no setting |
| Settings.AssignmentLineSets | plugin.cpp:916-968 | inside a setting's section, its assignment line gives the setting the decoded value and changes nothing else |
| Settings.LastAssignmentWins | plugin.cpp:893-968 | whatever lines came before, a header and an assignment for a setting read last leave that setting at the assigned value, unless an earlier line threw |
| DefaultFile.DefaultTextReads | plugin.cpp:837-870 | the text the default file writes for each setting is left whole by trimming and decodes to that setting's default value |
| DefaultFile.NumberTextReads | plugin.cpp:841-865 | `21`, `30` and `1000` are the decimal texts of the integer defaults and `std::stoi` reads them back |
| DefaultFile.DecimalReads | plugin.cpp:841-842 | the decimal text of a number in the int range reads back as that number and is left whole by trimming |
| DefaultFile.MessageTextsClean | plugin.cpp:857-858 | trimming leaves both default messages whole |
| DefaultFile.EveryFieldWritten | plugin.cpp:837-870 | every setting is written under one of the five groups of the default file |
| DefaultFile.DefaultEntries | plugin.cpp:837-870 | one `key=value` line per listed setting, in order, each with the setting's default text |
| DefaultFile.ResetAll | plugin.cpp:31-67 | the listed settings take their default values and every other setting keeps its value |
| DefaultFile.EntriesRead | plugin.cpp:890-970 | inside their own section, the default lines of a group's settings are read without an exception and reset exactly those settings |
| DefaultFile.ThenGroup | plugin.cpp:890-970 | after any lines, a group's header and its lines switch to its section and reset exactly its settings |
| DefaultFile.ThenSkipped | plugin.cpp:890-970 | a line that changes nothing can follow any lines without changing where they leave the reader |
| DefaultFile.MaxDistanceSkipped | plugin.cpp:866 | inside `[Monitoring]`, the `MaxDetectionDistance=5000.0` line changes nothing |
| DefaultFile.LayoutRead | plugin.cpp:837-870 | five groups separated by empty lines, with the one unknown line after the fourth, read as resetting each group's settings in turn and end in the last group's section |
| DefaultFile.AllGroupsReset | plugin.cpp:31-67 | resetting the five groups in turn gives exactly the default configuration, from any configuration |
| DefaultFile.DefaultFileReadsBack | plugin.cpp:828-970 | the file `SaveDefaultConfiguration` writes reads back, from any prior settings, as exactly the default configuration, with no exception |
| Logging.FormatLineFrames | plugin.cpp:246-251 | a log line starts with the bracketed timestamp and ends with the message (the channel tag, `[info]` and the source line stand between them) |
| Logging.WriteToDualPath | plugin.cpp:211-234 | each destination independently either stays as it was (it cannot be opened) or receives the content and a line break, appended or replacing its contents |
| Logging.PushBounded | plugin.cpp:254-258 | `push_back` then `pop_front` past 2000: the buffer grows by one up to 2000 and holds the newest lines of the old buffer followed by the new one |
| Logging.Replay | plugin.cpp:254-258 | the buffer never exceeds 2000 lines |
| Logging.ReplayKeepsNewest | plugin.cpp:254-258 | after n writes the buffer is exactly the newest min(n, 2000) lines, oldest first and newest last |
| Logging.CountClosedForm | plugin.cpp:260-272 | the static counter counts up to 2499 and then cycles through 2000..2499 |
| Logging.CompactionSchedule | plugin.cpp:266-272 | the files are rewritten at the 2500th write and every 500th write after it, and at no other write |
| Logging.NextWrite | plugin.cpp:254-275 | one more write keeps the buffer and the counter in step with the history; the counter stays below 2500 and at least the buffer size |
| Logging.SerializeLoop | plugin.cpp:267-270 | the compaction loop builds every buffered line followed by a newline |
| Logging.LogChannel.constructor | plugin.cpp:85-87 | a channel starts with an empty buffer, a zero counter and its files as they are |
| Logging.LogChannel.Write | plugin.cpp:237-360 | the line is pushed onto the bounded buffer; at the compaction count both writable files become the whole buffer and the counter becomes the buffer's size; otherwise the counter grows by one and the line is appended to each writable file; an unwritable file is untouched either way |
| Effects.TallyMaybe | plugin.cpp:1106-1114 | a request made conditionally adds one of its kind or nothing |
| Effects.NoticeText | plugin.cpp:1112-1113 | the text of a notification (the stage notice here, the potion notice at line 1167, the completion notice at line 1217) is empty exactly for a completion notification whose configured text is empty, and a completion notification shows the configured text |
| Effects.StageNoticeNamesStage | plugin.cpp:1113 | the stage notification is `BWY-Fix - Quest stage `, the decimal stage and ` reached`, and the middle reads back as the stage |
| Effects.CommandNamesQuestAndStage | plugin.cpp:461-462 | for an editor ID without spaces, the console command (`CommandText`) is `setstage ` followed by the editor ID and the decimal completion stage, which `std::stoi` reads back as the stage |
| Session.ClearedAgrees | plugin.cpp:1548-1562 | a reset session, with no requests and every flag clear, satisfies the agreement |
| Session.TriggerStep | plugin.cpp:1093-1117 | the first trigger adds the message box only if it was not shown and the notification, and keeps the agreement |
| Session.DetectionStep | plugin.cpp:1146-1169 | the first detection adds the potion notification only if it was not shown, and keeps the agreement |
| Session.RemovalStep | plugin.cpp:1183-1195 | the end of the delay adds at most the one removal of the session, and keeps the agreement |
| Session.CompletionStep | plugin.cpp:1200-1226 | completion adds the one console command of the session and the completion notification only if it was not shown, and keeps the agreement |
| Cache.Resolve | plugin.cpp:1008-1037 | a resolved or disabled entry is left alone; an unresolved enabled item is looked up and is resolved exactly when its identifier is nonzero; an unresolved enabled quest is resolved exactly when it is found |
| Cache.ResolveRetries | plugin.cpp:1011-1022 | a failed item lookup keeps the cache valid and unresolved, and a later lookup that succeeds resolves it |
| Cache.ValidatePlugins | plugin.cpp:976-1006 | with no data handler nothing changes; otherwise each feature stays enabled exactly when it was and its plugin is loaded; no other setting changes |
| Cache.ValidateIdempotent | plugin.cpp:976-1006 | validating twice equals validating once |
| QuestFix.WholeSeconds | plugin.cpp:1177-1179 | `duration_cast<seconds>` truncates toward zero, and at least five whole seconds means at least 5000 ms |
| QuestFix.LoadOutcome | plugin.cpp:875-974 | opening fails exactly for a file that is missing and cannot be created, or that cannot be opened, and then nothing changes; a missing file that can be created loads exactly the defaults, whatever the settings were before |
| QuestFix.PlayerHasItem | plugin.cpp:474-495 | the player holds the item exactly when its identifier is nonzero and among the items the player carries |
| QuestFix.ReadLines | plugin.cpp:890-970 | the reading loop ends as the fold `Run` of `ApplyLine` over the lines ends, with the same settings |
| QuestFix.Monitor.constructor | plugin.cpp:31-115 | the globals start at the configuration defaults with every flag clear, an empty cache and no requests |
| QuestFix.Monitor.ProcessQuestTrigger | plugin.cpp:1093-1117 | once the trigger was reached nothing happens; otherwise it is recorded, the message box is shown if enabled and not yet shown, and the stage notification is shown if enabled |
| QuestFix.Monitor.ObserveQuest | plugin.cpp:1061-1090 | a found quest: active afterwards exactly when running, its stage recorded while active, the trigger fires by the shared rule with the reported stage |
| QuestFix.Monitor.CheckQuestState | plugin.cpp:1039-1091 | nothing changes when the quest feature is disabled, completion is done, or the interval has not passed; otherwise the check time is recorded, a quest that is not found only stops being active, and the item and completion flags never change |
| QuestFix.Monitor.QuestStageChanged | plugin.cpp:1319-1361 | events are ignored when the feature is disabled, completion is done, the form is not a quest, or the editor ID is empty or not the configured one; an accepted event makes the quest active at the event's stage and fires the trigger by the shared rule |
| QuestFix.Monitor.ProcessItemDetection | plugin.cpp:1146-1169 | once detected or while waiting nothing happens; otherwise detection and the delay start together at `now`, and the potion notification is shown only if not shown yet |
| QuestFix.Monitor.ResolveFormIDs | plugin.cpp:1008-1037 | the cache becomes `Resolve` of the old cache, keeping a resolved item's identifier nonzero; an unresolved enabled quest is resolved exactly when the lookup by editor ID found it, and then takes that quest's identifier |
| QuestFix.Monitor.CheckPlayerInventory | plugin.cpp:1119-1144 | nothing changes when the item feature is disabled, the trigger was not reached, the item was detected, completion is done, or the interval has not passed; otherwise an unresolved item is resolved first and a resolved item the player holds is detected |
| QuestFix.Monitor.InspectInventory | plugin.cpp:1134-1143 | after the gates: an unresolved item is resolved first; a resolved item the player holds is detected; otherwise nothing but the cache changes |
| QuestFix.Monitor.ContainerChanged | plugin.cpp:1269-1301 | only after the trigger, before detection and completion, with a player, and for the resolved item moved into the player's inventory is the item detected; every other event changes nothing |
| QuestFix.Monitor.ProcessQuestCompletion | plugin.cpp:1200-1226 | once done nothing happens; otherwise the `setstage` command is sent, completion is recorded, and the completion notification is shown if enabled and not yet shown |
| QuestFix.Monitor.ProcessDelayedQuestCompletion | plugin.cpp:1171-1198 | nothing happens unless the delay is pending after a detection before completion and at least five whole seconds have passed; then the delay ends, the removal is requested if configured, and completion follows whatever the removal's answer |
| QuestFix.Monitor.EndDelay | plugin.cpp:1183-1195 | the delay ends and, if configured, the removal of one potion is requested; it always names a nonzero identifier |
| QuestFix.Monitor.ValidatePluginsInINI | plugin.cpp:976-1006 | the configuration becomes `ValidatePlugins` of the old one |
| QuestFix.Monitor.LoadConfiguration | plugin.cpp:875-974 | the result and the new configuration are `LoadOutcome` of the file and the old configuration |
| QuestFix.Monitor.ResetLogicState | plugin.cpp:1416-1433 | quest state, shown flags, delay and cache cleared, identifiers 0, both check times now, no requests this session, whatever the prior state |
| QuestFix.Monitor.StartMonitoringThread | plugin.cpp:1410-1439 | when already active nothing changes; otherwise monitoring is active with no cycles, warm-up pending from now, and the logic reset |
| QuestFix.Monitor.StopMonitoringThread | plugin.cpp:1441-1449 | monitoring is no longer active |
| QuestFix.Monitor.Shutdown | plugin.cpp:1505-1532 | the shutdown flag is raised and monitoring stops |
| QuestFix.Monitor.PreLoadGame | plugin.cpp:1623-1628 | a game transition begins |
| QuestFix.Monitor.SessionStarted | plugin.cpp:1537-1578 | transition and shutdown cleared, warm-up pending, the logic reset whatever the prior state, monitoring active; an already running thread keeps its start time and cycle count |
| QuestFix.Monitor.DataLoaded | plugin.cpp:1580-1621 | the first time, the configuration is loaded; an exception from `std::stoi` leaves the handler uninitialised with the settings read so far; otherwise the plugins are validated, the plugin is initialised and monitoring runs, with the logic reset only if it was not running |
| QuestFix.Monitor.Initialize | plugin.cpp:1592-1605 | unless already initialised, the configuration is loaded as `LoadOutcome` states; the plugin counts as initialised exactly when `std::stoi` did not throw |
| QuestFix.Monitor.RunChecks | plugin.cpp:1400-1402 | the three checks run in order and keep the class invariant, and with it the once-per-session agreement of flags and requests |
| QuestFix.Monitor.Cycle | plugin.cpp:1375-1404 | nothing happens when monitoring stopped, during shutdown or a game transition, or during the five-second warm-up; otherwise the warm-up is complete and one more cycle is counted |
| QuestFix.Monitor.WarmUp | plugin.cpp:1383-1396 | ready exactly when the warm-up was complete or five whole seconds have passed since the thread started; the pass that ends it resolves the identifiers |

## Left out

- **Threads, mutexes and sleeps:** `std::thread`, `join`, the atomics, `g_questMutex`, `g_logMutex`, `g_cacheMutex` and `g_configMutex` are not modelled, nor is the sleep between cycles. Each handler and each pass of `MonitoringThreadFunction` is one atomic step taken at one instant `now`. Races between the monitoring thread and the event sinks are outside the model; `CheckQuestState` and `ProcessQuestCompletion` take no lock in the source.
- **Win32 and filesystem path discovery:** the documents and game paths, the registry, case-insensitive path building, the INI path, `SafeWideStringToString` and `GetEnvVar` are not modelled. The INI file is given as an `IniFile` value, and the two log destinations as a `Destinations` value.
- **Host game calls:** quest lookup, `IsRunning`, stage, inventory, `RemoveItemFromPlayer`, `DebugNotification`, `DebugMessageBox` and console execution are inputs or trace entries. The trace records what the plugin asks for, not what the game does. A failed removal therefore looks like a successful one, which is also how the source behaves: it ignores the answer.
- **The display and console wrappers' own checks:** `ExecuteConsoleCommand` gives up when the script factory is missing or the script cannot be created, and catches any exception from compiling and running it. `ShowMessageBox` shows a notification instead when there is no UI message queue. `ShowMessageBox` and `ShowNotificationMessage` both drop an empty text. None of this is modelled. A message-box entry of the trace may therefore reach the player as a notification, and an entry whose text is empty (by `Effects.NoticeText`, only a completion notification with an empty configured text) reaches the player as nothing. The flags are set either way, as in the source.
- **Timestamps:** the `localtime_s`/`put_time` text of a log line is an input to `LogChannel.Write`.
- **Non-core log contents:** other than the line layout, the text of individual messages is not modelled, and log calls inside the state machine are not modelled as log writes.
- **Same path for both log destinations:** the two destinations are independent files. The case where both paths name the same file, which would then receive each line twice, is not modelled.
- **SaveDefaultConfiguration:** modelled as the lines it writes (`DefaultFile.DefaultIniLines`), which are proved to read back as exactly `DefaultConfig`. Writing the file is not modelled, since the filesystem is outside the model: a missing file that cannot be created is the `Absent(false)` input, and a write that fails part way is not modelled.
- **MaxDetectionDistance:** `std::stof` and the float setting are not modelled. `FieldOf` treats its key as unknown, so an unparsable value does not throw in the model as `std::stof` would.
- **Numeric.ParseInt:** models `strtol` through an optional sign and a digit run after C white space; the `errno`-based overflow report is modelled as a range check.
- **The menu event sink** only logs and is not modelled.
- **Uncalled functions:** nothing in the source calls `ShutdownPlugin` (plugin.cpp:1505) or `InitializePlugin` (plugin.cpp:1467). `Monitor.Shutdown` models the first for completeness; the second is left out with the bootstrap.
- **Bootstrap:** `SetupLog`, `InitializePlugin`, `SKSEPluginLoad`, the version declaration, the `kPostLoad` and `kInputLoaded` messages, and event-sink registration are not modelled.
- **Exceptions in other handlers:** an exception from `std::stoi` during `kDataLoaded` is modelled as leaving the handler uninitialised with the settings read so far. Its propagation past `MessageListener` is not modelled.
- **QuestFix.Monitor.ProcessItemDetection:** requires the trigger reached and the item resolved, because both of its callers (`CheckPlayerInventory` and the container sink) establish this before calling.
- **QuestFix.Monitor.ProcessQuestCompletion:** requires a detection with the delay over, because its only caller, `ProcessDelayedQuestCompletion`, establishes this before calling.
- **QuestFix.Monitor.RunChecks:** promises only the class invariant, because what each check does is stated by `CheckQuestState`, `CheckPlayerInventory` and `ProcessDelayedQuestCompletion`; composing their three contracts into one would repeat them.
- **QuestFix.Monitor.Cycle:** states the gates and the cycle count; its checks are stated by `CheckQuestState`, `CheckPlayerInventory` and `ProcessDelayedQuestCompletion`, which it calls in order through `RunChecks`.
- **Steady-clock overflow:** the clock is an unbounded integer of milliseconds; overflow of the `count()` values is not modelled.
