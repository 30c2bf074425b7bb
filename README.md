# flatpack core, modelled in Dafny

flatpack is a set of Python tools that keep Flatpak applications and native
packages up to date on Linux, with extra support for CachyOS and Arch. This
project models the decision and bookkeeping code of those tools and proves
what it promises:

- the parallel package-operation scheduler (`Parallel`): worker count,
  dependency readiness, the priority queue of pending operations, the
  completed/failed bookkeeping, and the builders that turn app and package
  lists into operations;
- the plugin manager (`Plugins`): script-plugin header parsing, interpreter
  selection, the load/unload state machine over loaded plugins and hook lists,
  and hook execution;
- the configuration store (`Config`): the recursive default/user merge,
  dot-path `get` and `set`, CachyOS detection and the pacman flag table;
- the Flatpak front end (`Flatpak`): parsing the output of `flatpak list`
  and of the no-deploy `flatpak update`, app lookup, and the update command;
- native package-manager integration (`PackageManager`): distribution and
  manager detection, the installed-check, and install/update commands;
- update history (`Logger`): the bounded history, age/type/failure filters,
  cleanup, the statistics counts and the backup listing order;
- health checks (`Health`): thresholds, issues, warnings, status and advice;
- CachyOS recommendations (`Cachyos`).

Helper modules: `Wrappers` (Option and Result), `JsonValue` (JSON values and
Python truthiness) and `Strings` (Python's `strip`, `split`, `lower`, `in` and
friends on `seq<char>`).

Everything outside the process is an input. Command exit codes and standard
output, file contents, which files exist, which programs are on the path,
the CPU count, the clock and the sudo/root state are all parameters. A
Python object whose fields the code updates in place becomes a Dafny class
(`ParallelOperationManager`, `PluginManager`, `FlatpackConfig`,
`FlatpackLogger`). Each mutating method states its new state through a
function of the old state, and the lemmas are proved about those functions.

At the end of a batch the scheduler computes `sequential_duration`, the
summed estimates of the operations, and reports `parallel_efficiency` as
that sum over the batch's wall-clock time. The names say the sum is meant
to cover the work the batch ran. The code, however, sums over the queue
after the batch has drained it. The manager in this model records the
corrected figure, over the submitted operations (`FinishBatch`,
`Efficiency`); `EfficiencyAsWritten` models the code, and Findings records
the difference.

Modelling notes:

- `FlatpackConfig.set` raises `TypeError` when a path goes through a value
  that is not a dict. The model returns `Err` for that case and leaves the
  configuration unchanged. No partial change can happen in the code either:
  intermediate dicts are created only below a missing key, and everything
  below such a key is new.
- `get_cachyos_flatpak_recommendations` returns `list(set(...))`, whose order
  Python does not fix. The model keeps the first occurrence of each id.

## Model

| member | source | states |
|---|---|---|
| Parallel.MaxWorkers | flatpack_parallel.py:66-86 | A positive configured count is used as is. Otherwise the whole tier table: 4 workers from 8 CPUs up, 3 for 4-7 CPUs, 2 for 2-3 CPUs, and 1 when the CPU count is missing or at most 1; never above the CPU count. |
| Parallel.MaxWorkersMonotone | flatpack_parallel.py:73-86 | Without a configured value, more CPUs never give fewer workers. |
| Parallel.DependenciesMet | flatpack_parallel.py:100-112 | Ready exactly when every dependency is a completed operation whose result succeeded. |
| Parallel.Insert | flatpack_parallel.py:88-98 | Putting an entry keeps the queue in (key, insertion stamp) order, and the queue's contents grow by exactly that entry. |
| Parallel.InsertBetween | flatpack_parallel.py:200-202 | Putting back an entry that was taken out of an ordered queue restores that queue exactly. |
| Parallel.FirstReadyIndex | flatpack_parallel.py:180-204 | Finds the first ready entry in queue order, with every earlier entry not ready; None exactly when no entry is ready. |
| Parallel.ResultOf | flatpack_parallel.py:114-166 | A normal exit succeeds iff its code is 0 and carries the output. A timeout gives code -1 and "Operation timed out". Any other exception gives code -1 and its message. |
| Parallel.ResultSuccessIffZero | flatpack_parallel.py:134-162 | A result succeeds exactly when its return code is 0. |
| Parallel.ParallelOperationManager.constructor | flatpack_parallel.py:45-64 | A new manager has the worker count of MaxWorkers, empty queue and maps, zeroed statistics, and satisfies the queue invariant. |
| Parallel.ParallelOperationManager.AddOperation | flatpack_parallel.py:88-98 | Enqueues under key -priority and the next stamp, keeps the queue ordered, returns True, and adds 1 to the total-operations count only. |
| Parallel.ParallelOperationManager.GetNextReadyOperation | flatpack_parallel.py:180-204 | Returns the first ready operation in priority order and removes just that entry. With nothing ready, it returns None and leaves the queue unchanged. |
| Parallel.ParallelOperationManager.ExecuteSingleOperation | flatpack_parallel.py:114-166 | Returns the result ResultOf gives for the outcome and removes the package from the running set on every path. |
| Parallel.ParallelOperationManager.ProcessOperationResult | flatpack_parallel.py:168-178 | A success is stored under the package name in completed, a failure in failed. Exactly one of the two counters grows by 1, and the total duration grows by the result's duration. |
| Parallel.ParallelOperationManager.GetStatus | flatpack_parallel.py:341-351 | Reports the sizes of queue, running, completed and failed, the running types by package, and a copy of the statistics counters, which bound those sizes. |
| Parallel.ParallelOperationManager.SubmitReady | flatpack_parallel.py:217-222 | Corrected submission loop. Its end state is exactly as many passes of the loop body (SubmitPass, which takes the FirstReadyIndex entry each time) as it submitted operations. The submitted operations are those of the removed entries, in order: old queue = new queue + removed entries, as multisets. It never exceeds the worker bound, submits only ready operations, and stops when the pool is full, the queue is empty or nothing is ready. |
| Parallel.ParallelOperationManager.FinishBatch | flatpack_parallel.py:255-271 | Records the efficiency over the operations submitted in the batch and returns the batch summary from the manager's counters and maps. |
| Parallel.ScanForReady | flatpack_parallel.py:184-198 | The pop loop finds exactly the entry FirstReadyIndex names, and splits the queue around it. |
| Parallel.PutBack | flatpack_parallel.py:200-202 | Putting back the popped entries one by one rebuilds the queue without the taken entry. |
| Parallel.SubmitPass | flatpack_parallel.py:218-222 | One pass of the loop body as written never harvests results and submits at most one operation. |
| Parallel.SubmitLoopSpins | flatpack_parallel.py:217-222 | As written, when the loop guard holds and nothing is ready, every number of passes leaves the state unchanged with the guard still true. |
| Parallel.DependentPairSpins | flatpack_parallel.py:217-222 | For "b depends on a" with two workers, the loop submits a and then spins on b forever. |
| Parallel.EfficiencyAsWrittenNeverSet | flatpack_parallel.py:216-260 | When the batch loop's guard fails the queue is empty, so the efficiency as written, summed over that queue, keeps its old value. |
| Parallel.Efficiency | flatpack_parallel.py:258-260 | Corrected: efficiency times wall-clock time equals 100 times the submitted operations' estimated total, when that total is positive. |
| Parallel.EfficiencyCountsSubmitted | flatpack_parallel.py:258-260 | Corrected: any non-empty batch of positive estimates gives a positive efficiency. |
| Parallel.EstimatedTotalPositive | flatpack_parallel.py:258-260 | Positive estimates sum to a positive total. |
| Parallel.CreateFlatpakOperations | flatpack_parallel.py:273-297 | One operation per app id, in order, with the fixed flatpak command for the type, priority 100-i, no dependencies, and estimate 45 for install else 20. An unknown type gives no operations. |
| Parallel.ChunkAt | flatpack_parallel.py:305-307 | There are ceil(n/5) install groups, and group b holds the packages from 5b up to 5b+5. |
| Parallel.ChunksReassemble | flatpack_parallel.py:305-307 | The groups hold 1 to 5 packages each and concatenate back to the input. |
| Parallel.CreatePacmanOperations | flatpack_parallel.py:299-339 | Install: one operation per group of five, with pacman's fixed flags, priority 100-start and estimate 30 per package. Update/remove: one operation per package, with the fixed command, priority 100-i and estimate 15. Other types: none. |
| Parallel.InstallBatches | flatpack_parallel.py:304-318 | The install loop produces exactly one batch operation per group. |
| Parallel.SinglePackageOperations | flatpack_parallel.py:319-337 | The update/remove loop produces one operation per package, and none for another type. |
| Plugins.MakePluginInfo | flatpack_plugins.py:21-37 | A missing dependency list becomes [] and a missing config schema {}. Every other field is kept. |
| Plugins.DetectInterpreter | flatpack_plugins.py:83-102 | .py gives python3; .sh and .bash give bash; .zsh gives zsh; .fish gives fish. The result is never empty. |
| Plugins.ShebangSelectsProgram | flatpack_plugins.py:93-99 | With any other suffix, a "#!program args" first line selects that program. |
| Plugins.ShebangInterpreter | flatpack_plugins.py:93-102 | The shebang fallback never yields an empty interpreter. |
| Plugins.NoShebangMeansBash | flatpack_plugins.py:93-102 | With any other suffix, a first line that is not a shebang selects bash. |
| Plugins.ScanHeader | flatpack_plugins.py:202-209 | Header scanning only adds metadata keys and never drops one. |
| Plugins.HeaderOf | flatpack_plugins.py:203 | Only a prefix of at most 20 lines is looked at; a shorter file is read whole. |
| Plugins.ScanStopsAtCode | flatpack_plugins.py:208-209 | Nothing after the first stripped line that is not a comment affects the metadata. |
| Plugins.ScanAppend | flatpack_plugins.py:202-209 | Scanning comment lines and then more lines is scanning the second part from the metadata of the first. |
| Plugins.LaterTagWins | flatpack_plugins.py:205-207 | A later tag line with the same key overwrites the earlier value. |
| Plugins.ClassifyTagLine | flatpack_plugins.py:204-207 | "# PLUGIN: Key: value" gives the lower-cased key and the value. |
| Plugins.ClassifyMalformedLine | flatpack_plugins.py:205-206 | A "# PLUGIN:" line without a second colon is malformed, which makes discovery give up. |
| Plugins.ReadHeader | flatpack_plugins.py:202-209 | The header loop computes HeaderMetadata, including the failure on a malformed tag line. |
| Plugins.DiscoverScriptPlugin | flatpack_plugins.py:195-225 | A plugin is found iff the file is readable, its header parses and it names the plugin. Its fields come from the header, with defaults version "1.0", description "" and author "Unknown", type "script" and the file as entry point. |
| Plugins.RegisterEffect | flatpack_plugins.py:304-308 | After registration, each hook the plugin supports exists, and its list gains the plugin name once per mention. Other lists are unchanged. |
| Plugins.UnregisterAll | flatpack_plugins.py:346-349 | Unloading keeps every hook key and removes the first occurrence of the name from each list. |
| Plugins.LoadAnswer | flatpack_plugins.py:273-316 | load_plugin answers True iff the plugin ends up loaded, and False changes nothing. An already-loaded name answers True with nothing changed. At most the one name is added. |
| Plugins.LoadRegistersHooks | flatpack_plugins.py:296-316 | An initialised hook plugin is loaded and listed under every hook it supports, and no existing registration is lost. |
| Plugins.UnloadUndoesLoad | flatpack_plugins.py:273-353 | Unloading a freshly loaded plugin answers True, and restores the loaded set and every hook list. Hook keys created by the load remain, with empty lists. |
| Plugins.HookFoldAppend | flatpack_plugins.py:363-372 | Running hooks over two lists of names is running the second from the first one's context. |
| Plugins.Runnable | flatpack_plugins.py:363-368 | The names a hook actually runs are loaded hook plugins. |
| Plugins.HookFoldSkips | flatpack_plugins.py:363-372 | Names that are not loaded hook plugins do not change the context. |
| Plugins.ListPlugins | flatpack_plugins.py:391-417 | One listing per loaded plugin, plus the hook names and the count. A Python plugin is listed as "python" and a script as "script" with its interpreter; version, description and author are the plugin's info. |
| Plugins.LoadAllCount | flatpack_plugins.py:318-330 | load_all_plugins counts at most one per descriptor, loses no loaded plugin, and adds at most as many names as it counts. A count of 0 means no change. |
| Plugins.PluginManager.constructor | flatpack_plugins.py:119-130 | A new manager has no loaded plugins and no hooks. |
| Plugins.PluginManager.LoadPlugin | flatpack_plugins.py:273-316 | The manager's new registry and the answer are those of Load. |
| Plugins.PluginManager.UnloadPlugin | flatpack_plugins.py:332-353 | An unknown name answers False with no change. Otherwise the registry and answer are those of Unload. |
| Plugins.PluginManager.ExecuteHook | flatpack_plugins.py:355-374 | The returned context is RunHook's: unchanged for an unregistered hook, otherwise threaded through the registered plugins in order. A plugin that raises passes on the context as it left it, changes included. |
| Plugins.PluginManager.LoadAllPlugins | flatpack_plugins.py:318-330 | Loads each descriptor in turn and returns the number of True answers. |
| Config.Merge | flatpack_config.py:133-141 | The result's keys are the union of both sides. A default-only key keeps its value. A user value wins unless both values are dicts, which are merged with the union of their keys. |
| Config.MergeConfigs | flatpack_config.py:133-141 | The copy-and-assign loop computes Merge and leaves the default argument untouched. |
| Config.MergeUserLeafWins | flatpack_config.py:136-140 | Any non-dict value the user sets at a path is what the merged configuration holds there. |
| Config.MergeDefaultKept | flatpack_config.py:133-141 | A default value at any depth survives the merge when the user file does not reach its path: it holds dicts along the path until a segment is missing, so the dicts above the value are merged rather than replaced. |
| Config.MergeSelf | flatpack_config.py:133-141 | Merging a configuration with itself gives it back. |
| Config.Lookup | flatpack_config.py:153-164 | The empty path gives the value itself. A missing segment or a non-dict gives nothing. |
| Config.SetPath | flatpack_config.py:166-179 | A successful set adds at most the first segment at the top level and keeps every other top-level key. |
| Config.GetAfterSet | flatpack_config.py:166-179 | After a successful set, get of the same path returns the value. |
| Config.SetKeepsSiblings | flatpack_config.py:166-179 | Any path that leaves the set path at some segment reads the same before and after. |
| Config.MissingStaysMissing | flatpack_config.py:172-175 | In a new configuration, the dicts that set creates hold nothing besides the path. |
| Config.SetFailsIffNonDictPrefix | flatpack_config.py:170-177 | set fails exactly when some proper prefix of the path leads to an existing non-dict value. |
| Config.NoFailureInFresh | flatpack_config.py:172-175 | set into an empty configuration always succeeds. |
| Config.SetIn | flatpack_config.py:166-179 | The walk-down-then-assign procedure computes SetPath, failures included. |
| Config.FlatpackConfig.constructor | flatpack_config.py:15-19 | The store holds the configuration it was loaded with. |
| Config.FlatpackConfig.Get | flatpack_config.py:153-164 | Returns the value at the dot path if every segment resolves through dicts, else the default. |
| Config.FlatpackConfig.Set | flatpack_config.py:166-179 | On a path through a non-dict, answers an error and changes nothing. Otherwise it stores SetPath's result and answers what saving answered. |
| Config.DetectCachyos | flatpack_config.py:69-90 | "ID=cachyos" in os-release wins. Without it, "ID_LIKE=arch" or "ID=arch" gives "arch". An unreadable os-release gives "unknown". A missing os-release, or one with none of the three markers, falls back to the release files, cachyos first. The answer is always one of the three names. |
| Config.PacmanFlags | flatpack_config.py:92-114 | The four flag keys. Parallel downloads are 5 for cachyos, 3 for arch and 1 otherwise. Arch-family distros install with --needed --noconfirm and colour auto; the rest with --needed, no update flag and colour never. |
| Config.NoConfirmOnlyOnArchFamily | flatpack_config.py:92-114 | --noconfirm appears in the install flags exactly on cachyos and arch. |
| Config.CachyosOptimizations | flatpack_config.py:212-237 | Nothing unless distro_info.is_cachyos is truthy. When it is truthy, exactly the five fixed keys: the two True flags, the performance and Flatpak lists, and the three optimization flags. |
| Flatpak.AppOfLine | flatpack.py:59-68 | Only a non-blank line with at least three tab-separated fields gives an app. |
| Flatpak.Rows | flatpack.py:59-68 | Each output line is parsed on its own, in order. |
| Flatpak.PresentAppend | flatpack.py:58-68 | Parsing two blocks of output appends their apps. |
| Flatpak.ListInstalledApps | flatpack.py:49-70 | A failing command gives no apps. Otherwise, the apps of the stripped output's lines, in line order. |
| Flatpak.AppLineRoundTrip | flatpack.py:59-68 | A printed four-field row parses back to the same app. |
| Flatpak.ThreeFieldRow | flatpack.py:62-67 | A three-field row parses with branch "stable". |
| Flatpak.ParseListedLines | flatpack.py:58-68 | Printed rows parse back to the same apps in the same order. |
| Flatpak.ListingRoundTrip | flatpack.py:49-70 | A whole printed listing parses back to the list of apps. |
| Flatpak.UpdatableIdsAppend | flatpack.py:82-88 | Update lines of two blocks give the ids of the first, then of the second. |
| Flatpak.CheckForUpdates | flatpack.py:73-90 | The loop collects, in line order, the id of each update line. |
| Flatpak.UpdateLineOfRef | flatpack.py:84-88 | "Updating app/<id>/..." yields exactly <id>. |
| Flatpak.UpdateLineNamesApp | flatpack.py:84-88 | An update line yields the text after the prefix up to the first slash. |
| Flatpak.GetAppInfo | flatpack.py:93-99 | Returns the first app with the id, and None exactly when no app has it. |
| Flatpak.KeepInstalledMembers | flatpack.py:111-116 | The kept ids are exactly the requested ids that are installed. |
| Flatpak.KeepInstalledAll | flatpack.py:111-116 | When every requested id is installed, all are kept in order. |
| Flatpak.KeepInstalledAppend | flatpack.py:111-116 | Filtering keeps the requested order. |
| Flatpak.UpdatePlanRefuses | flatpack.py:104-122 | The update is refused exactly when ids were requested and none is installed. |
| Flatpak.UpdatePlanCommand | flatpack.py:104-122 | The command starts "flatpak update" and has --noninteractive iff not interactive. Its ids are exactly the requested installed ones. |
| Flatpak.UpdatePlanAllInstalled | flatpack.py:104-122 | With every requested id installed, the command is the base command followed by the ids. |
| Flatpak.UpdateApps | flatpack.py:102-138 | Runs UpdatePlan's command and succeeds iff there is one and it exits 0. |
| Flatpak.UpdateSpecificApps | flatpack.py:141-159 | Nothing to update succeeds without a command. An interactive "n..." answer fails without a command. Otherwise it is update_apps on the list. |
| Flatpak.DeclineAnswers | flatpack.py:154-155 | Example: "N" and "no" decline; "y" and an empty answer do not. |
| PackageManager.DetectDistribution | package_manager_integration.py:96-130 | The answer is a known distribution or "unknown". |
| PackageManager.FirstRuleWins | package_manager_integration.py:105-130 | The first rule whose marker is present decides, and no rule decides when none fires. |
| PackageManager.ReleaseDistroIsFirstRule | package_manager_integration.py:105-116 | The os-release tests are the ordered rules arch, ubuntu (with ID_LIKE=debian), fedora, opensuse, alpine. |
| PackageManager.MarkerDistroIsFirstRule | package_manager_integration.py:118-130 | The release-file fallback is an ordered rule list ending in "unknown". |
| PackageManager.ArchMarkersFirst | package_manager_integration.py:105-106 | Example of the first-rule order: an arch marker in os-release always gives "arch". |
| PackageManager.DetectPackageManager | package_manager_integration.py:132-147 | Picks the first available of pacman, apt, dnf, zypper and apk, and "unknown" exactly when none is available. |
| PackageManager.QueryCommand | package_manager_integration.py:155-169 | Each known manager queries with the package as the last word. |
| PackageManager.IsPackageInstalled | package_manager_integration.py:153-171 | Installed iff the manager is known and the query exits 0; apt also needs "ii" in the output. |
| PackageManager.ToInstallMembers | package_manager_integration.py:183-192 | The packages to install are exactly those that are not installed. |
| PackageManager.ToInstallAppend | package_manager_integration.py:183-192 | The filter keeps the input order. |
| PackageManager.FilterNotInstalled | package_manager_integration.py:183-192 | The loop computes the not-installed packages in input order. |
| PackageManager.InstallCommandLayout | package_manager_integration.py:199-216 | "sudo" comes first iff sudo is available and the user is not root. Then come the manager's install words, the packages, and -y, --noconfirm or nothing for apk. |
| PackageManager.InstallOutcomeCases | package_manager_integration.py:173-228 | No packages: True. Unknown manager: False. Everything installed: True with no command. Otherwise the install command, with success iff it exits 0. |
| PackageManager.InstallPackages | package_manager_integration.py:173-228 | The procedure computes InstallOutcome. |
| PackageManager.UpdateDatabase | package_manager_integration.py:230-250 | An unknown manager has no command and fails; a known one succeeds iff the command exits 0. |
| PackageManager.SameSudoRule | package_manager_integration.py:237-241 | The update command is prefixed with sudo under the same rule as the install command. |
| PackageManager.CategoriesCoverDistros | package_manager_integration.py:29-74 | Every category lists packages for each known distribution and none for any other. |
| PackageManager.InstallCategory | package_manager_integration.py:252-266 | An unknown category fails without a command. A known one installs its list for the distribution. |
| PackageManager.UnknownDistroInstallsNothing | package_manager_integration.py:259-263 | On an unknown distribution a category installs nothing and succeeds. |
| Logger.Appended | flatpack_logger.py:192-198 | The new record is last. The length is capped at 1000, and the kept records are the newest ones in order. |
| Logger.AppendedKeepsAll | flatpack_logger.py:192-198 | Below the cap nothing is dropped. |
| Logger.AppendedDropsOldest | flatpack_logger.py:196-198 | At the cap exactly the oldest record is dropped. |
| Logger.FilterMembers | flatpack_logger.py:207-214 | A filter keeps exactly the records that pass its test. |
| Logger.FilterAppend | flatpack_logger.py:207-214 | A filter keeps the original order. |
| Logger.FilterTwice | flatpack_logger.py:207-214 | Filtering twice with the same test is filtering once. |
| Logger.Cutoff | flatpack_logger.py:204 | The cutoff is not after now. |
| Logger.LocalTime | flatpack_logger.py:209 | A timestamp has a time exactly when it parses after 'Z' is rewritten to "+00:00". |
| Logger.RecentMembers | flatpack_logger.py:202-216 | The recent records are exactly the records whose timestamp parses, is not before the cutoff, and whose type matches. |
| Logger.FailedMembers | flatpack_logger.py:218-221 | The failed operations are exactly the recent records that did not succeed. |
| Logger.AsWrittenAgreesOnNaive | flatpack_logger.py:202-216 | On timestamps without a UTC offset, the code as written returns exactly Recent. |
| Logger.ZuluTimestampRaises | flatpack_logger.py:209-214 | As written, a first record stamped with 'Z' makes get_recent_history raise. |
| Logger.ZuluTimestampCompared | flatpack_logger.py:209-214 | Corrected: a 'Z' record is recent iff its time, moved to local time, is not before the cutoff. |
| Logger.BumpEffect | flatpack_logger.py:321-322 | Counting one key raises that key's count and the total by 1, and keeps keys distinct. |
| Logger.TallyCorrect | flatpack_logger.py:321-322 | Each key's count is its number of occurrences; the counts sum to the input length over distinct keys. |
| Logger.SuccessCount | flatpack_logger.py:323-324 | The success count is at most the number of records. |
| Logger.StatisticsConsistent | flatpack_logger.py:316-324 | The per-operation and per-type counts each sum to the number of recent records, and the successes are at most that. |
| Logger.OperationCount | flatpack_logger.py:321-322 | Each operation's count is its number of occurrences among the recent records. |
| Logger.Summarize | flatpack_logger.py:309-328 | No recent records give no statistics; otherwise the loop computes StatisticsOf. |
| Logger.StrLeTotal | flatpack_logger.py:284 | String order is total. |
| Logger.StrLeTrans | flatpack_logger.py:284 | String order is transitive. |
| Logger.InsertNewestPerm | flatpack_logger.py:284 | Inserting into the sorted list adds exactly that entry. |
| Logger.InsertNewestSorted | flatpack_logger.py:284 | Inserting keeps the list newest first. |
| Logger.SortNewestFirstCorrect | flatpack_logger.py:284 | The backups are ordered by timestamp, newest first, and are a permutation of the readable ones. |
| Logger.Readable | flatpack_logger.py:272-282 | Only readable backup entries are kept. |
| Logger.ListBackups | flatpack_logger.py:268-285 | The readable backups, sorted newest first. |
| Logger.FlatpackLogger.constructor | flatpack_logger.py:171-182 | The history is the stored list, or empty when none could be read. (As written, the Python constructor fails before this point; see Left out.) |
| Logger.FlatpackLogger.AddToHistory | flatpack_logger.py:184-200 | The history becomes Appended of the old one. The file then holds it if the save succeeds, and keeps its old contents if opening it for writing fails. |
| Logger.FlatpackLogger.LogPackageOperation | flatpack_logger.py:121-146 | The record built from the arguments is appended to the history, and saved unless opening the file fails. |
| Logger.FlatpackLogger.GetRecentHistory | flatpack_logger.py:202-216 | The filtering loop computes Recent (corrected comparison; see Findings). |
| Logger.FlatpackLogger.GetFailedOperations | flatpack_logger.py:218-221 | Returns the failed records within the day window (corrected comparison; see Findings). |
| Logger.FlatpackLogger.CleanupHistory | flatpack_logger.py:302-307 | The history becomes its recent part. It is saved only if it shrank and the file opens for writing, and the number removed is reported (corrected comparison; see Findings). |
| Logger.FlatpackLogger.ShowStatistics | flatpack_logger.py:309-328 | Gives the statistics of the recent records within the day window (corrected comparison; see Findings). |
| Logger.CleanupIdempotent | flatpack_logger.py:302-307 | A second cleanup in the same window removes nothing. |
| Health.MakeThresholds | flatpack_health.py:47-52 | The free-space minimum is the configured value or 2.0. Memory 90, CPU 95 and temperature 85 are fixed. |
| Health.DiskVerdict | flatpack_health.py:225-228 | An issue below the minimum; a warning in [min, 2 min). |
| Health.MemoryVerdict | flatpack_health.py:231-234 | An issue above the maximum; a warning in (max-10, max]. |
| Health.CpuVerdict | flatpack_health.py:237-238 | Never an issue; a warning above the maximum. |
| Health.LoadVerdict | flatpack_health.py:241-242 | Never an issue; a warning above 4.0. No reading or 0 is ignored. |
| Health.MaxReading | flatpack_health.py:246 | The highest reading is one of the readings and bounds them all. |
| Health.TemperatureVerdict | flatpack_health.py:245-250 | No readings: nothing. An issue when some zone is above the maximum; otherwise a warning when some zone is above max-10. |
| Health.NetworkVerdict | flatpack_health.py:253-254 | An issue exactly when disconnected, never a warning. |
| Health.RepoVerdict | flatpack_health.py:257-258 | An issue exactly when the repositories are unreachable, never a warning. |
| Health.StatusOf | flatpack_health.py:260-266 | "critical" iff more than 2 issues. "warning" iff 1-2 issues, or warnings only. "healthy" iff neither. |
| Health.HealthOf | flatpack_health.py:219-272 | The report keeps the sample, and it is safe to proceed exactly when there are no issues. |
| Health.Record | flatpack_health.py:224-258 | A check's message is appended to the issues or to the warnings, as its verdict says. |
| Health.CheckHealthStatus | flatpack_health.py:219-272 | The append-through-the-checks procedure computes HealthOf. |
| Health.IssueTally | flatpack_health.py:219-272 | The number of issues is the number of failing checks among disk, memory, temperature, network and repositories. |
| Health.NetworkLossAddsIssue | flatpack_health.py:253-254 | Losing the network adds exactly one issue and makes it unsafe to proceed. |
| Health.AdviceFor | flatpack_health.py:354-378 | Each issue gives three pieces of advice or none. |
| Health.AdviceByKeyword | flatpack_health.py:355-372 | Unfolds AdviceFor's keyword chain: the first matching keyword, in the order disk space, memory, temperature, decides the advice. |
| Health.AdviceAppend | flatpack_health.py:354-380 | Advice follows the order of the issues. |
| Health.RecommendAction | flatpack_health.py:350-380 | The loop computes Advice of the issues. |
| Health.LowDiskAdvice | flatpack_health.py:355-360 | The low-disk issue gets the disk advice. |
| Health.HighMemoryAdvice | flatpack_health.py:361-366 | The high-memory issue gets the memory advice. |
| Health.HighTemperatureAdvice | flatpack_health.py:367-372 | The high-temperature issue gets the temperature advice. |
| Health.NoNetworkAdvice | flatpack_health.py:373-378 | The network issue gets the network advice. |
| Health.ReposUnreachableAdvice | flatpack_health.py:354-378 | The repository issue matches no keyword and gets no advice. |
| Health.AdviceByCheck | flatpack_health.py:350-380 | The advice for a sample is the advice of each failing check, in check order. |
| Health.HealthAdvice | flatpack_health.py:350-380 | The advice for a sample is: the disk advice if disk is low, then memory, then temperature, then network. An unreachable repository adds nothing. |
| Cachyos.Find | cachyos_packages.py:238 | A lookup fails exactly when the category is not in the table. |
| Cachyos.FindAt | cachyos_packages.py:238 | With distinct keys, a lookup returns the entry for its key. |
| Cachyos.AllPackages | cachyos_packages.py:240 | Every category, in table order, with its package list. |
| Cachyos.PackageRecommendations | cachyos_packages.py:236-240 | A known category gives only that category with its packages. A missing or unknown one gives every category. Every answer is taken from the table. |
| Cachyos.PackageRecommendationsCover | cachyos_packages.py:240 | Without a known category, exactly the table's categories are answered. |
| Cachyos.FlattenedMembers | cachyos_packages.py:247-249 | The extended list holds exactly the ids of every category's list. |
| Cachyos.Dedup | cachyos_packages.py:251 | De-duplication keeps the same ids and leaves no duplicates. |
| Cachyos.FlatpakRecommendations | cachyos_packages.py:242-251 | A known category gives its list. Otherwise the de-duplicated union of all lists. |
| Cachyos.AllFlatpaks | cachyos_packages.py:246-251 | Without a known category, the answer holds every Flatpak of every category, nothing else and no duplicates. |
| Cachyos.TablesDistinct | cachyos_packages.py:11-168 | Fact about the constant tables: both have distinct category names (used by FindAt). |
| Cachyos.GamingFlatpaks | cachyos_packages.py:139-168 | Example: "gaming" is a known Flatpak category and maps to its list. |

## Left out

- Threads, locks, the thread pool, `as_completed` and `sleep` in the scheduler are not modelled. Operations run as sequential steps, and the insertion time of a queue entry is a strictly increasing counter.
- Parallel.ParallelOperationManager.SubmitReady: termination of the batch loop as a whole is not proved; the as-written loop does not terminate (see Findings).
- Every subprocess call is left out: flatpak, the package managers, ping, uname, systemctl and script plugin runs. Their exit codes, standard output and timeouts are inputs.
- Reading and writing files is left out: config, plugin configs, history, backups, `/etc/os-release` and `/proc`. File contents, and whether files exist, are inputs. A save's success is an input flag.
- Python plugins are loaded with importlib; that is not modelled. A Python plugin is abstract: its initialise outcome, its supported hooks (or an exception), and a context transformer that either returns a context or raises. A raise comes with the context as the plugin left it, since the dict is passed by reference. The caller's own dict, which the first plugin may change in place, is not modelled; only the returned context is.
- Health metric sampling (psutil, sysfs, disk usage), the monitor thread and `get_monitoring_summary` (averages and rounding of floats) are left out.
- Health.DiskVerdict: the text of a float formatted with one or two decimals is a parameter (`Render`), so message texts are exact only up to that rendering.
- `datetime.now()` and `datetime.fromisoformat` are parameters (the cutoff and a parser).
- The logger's md5 operation id, log handlers, `log_operation_start`/`end`, the system-info and rollback fields, and backup creation and deletion are left out: hashing and I/O.
- Logger.FlatpackLogger.constructor: models a logger the code as written cannot build. `setup_logging` uses `logging.handlers.RotatingFileHandler` (flatpack_logger.py:68 and :85), but the file imports only `logging`. Unless another module has already imported `logging.handlers`, `FlatpackLogger()` raises AttributeError.
- Logger.FlatpackLogger.AddToHistory: a save that fails after the file was opened for writing (for example a full disk during `json.dump`) leaves the file truncated or partly written. That case is not modelled: `persisted` is either the new history or, when the open fails, the old contents.
- Logger.Recent: timestamps are compared in whole seconds. The parser parameter gives seconds, so two records less than a second apart compare equal, and the sub-second ordering `datetime` keeps is lost.
- Logger.SortNewestFirstCorrect: stability is not proved; entries with equal timestamps are kept in arrival order by construction, but no lemma states it.
- Plugins.ListPlugins: a loaded Python module whose plugin object is not a `PluginBase` is skipped by `list_plugins` (flatpack_plugins.py:400); the model's abstract Python plugin is always a `PluginBase`, so it always lists.
- Plugins.ListPlugins: the order of Python dict keys (`available_hooks`) is not modelled; the hooks are a set.
- Strings.Lower changes only ASCII letters; Unicode case mapping is not modelled.
- Cachyos.FlatpakRecommendations: the order of `list(set(...))` is unspecified in Python; the model keeps each id's first occurrence.
- `add_custom_package_list` is left out: it fails as written, because `datetime` is only imported under `__main__`.
- flatpack-manager.py (the interactive menu), `generate_cachyos_setup_script` (a constant string) and `detect_cachyos_features` (all I/O) are not part of this model.
- `check_sudo` and the effective user id are inputs.

## Findings

| source | as written | input that shows it | evidently intended | confidence | as-written member | corrected member |
|---|---|---|---|---|---|---|
| flatpack_parallel.py:217-222 | The submission loop runs while the pool has room and the queue is non-empty. It only submits when an operation is ready, and it harvests results only after it exits. | Two workers; "b" depends on "a". The loop submits "a", then spins forever on "b", whose dependency can never complete inside the loop. | Leave the loop when nothing is ready, and harvest results before trying again. | not executed | Parallel.DependentPairSpins | Parallel.ParallelOperationManager.SubmitReady |
| flatpack_parallel.py:258-260 | The efficiency sums the estimates of the operations still in the queue, which the loop has already drained. | Any batch that completes: the sum is 0, so `parallel_efficiency` is never set. | Sum the estimates of the operations submitted in the batch. | not executed | Parallel.EfficiencyAsWrittenNeverSet | Parallel.EfficiencyCountsSubmitted |
| flatpack_logger.py:209-214 | A 'Z' timestamp becomes "+00:00", is parsed as an aware datetime, and is compared with the naive cutoff. That raises TypeError, which only ValueError handling does not catch. | A history record stamped "2024-01-01T00:00:00Z". | Compare the record's time, taken to local time, with the cutoff. | not executed | Logger.ZuluTimestampRaises | Logger.ZuluTimestampCompared |
