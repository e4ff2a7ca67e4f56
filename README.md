# DevToolbox operator console — a Dafny model of its decisions

DevToolbox is a Windows desktop console for a developer's servers. It keeps a list of SSH
servers. It shows and drives the Docker containers of a server. It builds a Maven project,
uploads its jar over SCP and runs a deployment script. It restores a MySQL database from an
SQL file. Its logic lives in form event handlers and one static configuration helper. This
project pulls that logic out and states what it does:

- `Containers` (Forms/DockerForm.cs). It parses the tab-separated `docker ps` listing into
  rows and replaces the container list wholesale. It derives the row colour and the enabled
  context-menu items from the status column. It builds the exact `docker` commands and turns
  a command's error stream into the success or failure message. It also models the log
  window's replace, append and clear actions.
- `JavaDeploy` (Forms/JavaDeployForm.cs). It models the server list and the restore of the
  most recent saved settings. It models the ordered input checks and the jar filter. It joins
  the remote path. It runs the build, list, connect, mkdir, upload, chmod and script steps,
  each with its early exit.
- `UploadProgress` (Forms/JavaDeployForm.cs). The upload callback is throttled to one
  accepted call per 100 ms and only moves the bar forward.
- `Units` (Forms/JavaDeployForm.cs, Forms/DatabaseRestoreForm.cs). It picks the unit a byte
  count is shown in and splits a duration into the parts it is shown as.
- `Restore` (Forms/DatabaseRestoreForm.cs). It models the input checks and the `mysql`
  command template. It models the simulated progress counter the timer drives. It classifies
  the client's exit code and error stream.
- `ConfigStore` (Utils/ConfigManager.cs). It models the three configuration files:
  - SSH profiles, keyed by name;
  - deployment settings, keyed by container and environment;
  - MySQL credentials, in a dictionary keyed by container.
- `SshConfigForm` (Forms/SSHConfigForm.cs). It models the add/edit dialog for an SSH
  profile: its defaults, its ordered checks and the trimmed write-back.
- `ProgressForm` (Forms/ProgressForm.cs). It models the small progress window, whose bar
  stays within 0..100.

Support modules hold the rest:

- `Text` gives the .NET string operations the source calls: `Split`, `Trim`, `TrimEnd`,
  `Contains`, `EndsWith`, `IsNullOrWhiteSpace`, `int.TryParse` and `int.ToString`.
- `Paths` gives `Path.Combine`, `Path.GetFileName` and `Path.GetDirectoryName`.
- `Models` gives the record shapes.
- `Wrappers` gives `Option` and `Result`.

Effects become values:

- A time is an integer number of milliseconds passed in.
- A remote command or process is an `ExecResult`: either the exception it threw, or the
  standard output and standard error it produced.
- The local file system is the set of paths that exist.
- A configuration file is `Missing`, `Unreadable`, `Null` or `Present(collection)`.
- A C# `null` string is the empty string.

Some methods of the source are `void` and report through message boxes. Their models return
the message, or the sequence of steps taken and the outcome.

Where the code and its description disagree, the model follows the code:

- `JavaDeployForm` loads and saves its settings through `ConfigManager.LoadJavaDeployConfigs`
  and `ConfigManager.SaveJavaDeployConfig`, but Utils/ConfigManager.cs defines neither. The
  saved Java settings are therefore an input to `RestoreLastConfig`. Saving them is a
  recorded step (`SaveConfig`) of the deployment.
- Lifecycle actions issue their command only for a non-empty container id when they come
  from the context menu. The buttons under the list check only that a row is selected.
  Both are modelled (`MenuCommand`, `ButtonCommand`).

## Model

| member | source | states |
|---|---|---|
| Containers.ParseLine | Forms/DockerForm.cs:203-212 | a line gives a row iff it is not blank and has at least six tab-separated fields. The row's columns are the first six fields, and the line is exactly those fields or those fields followed by a tab and more |
| Containers.ParseLineRoundTrip | Forms/DockerForm.cs:205-212 | a row with tab-free columns and a non-blank id is read back unchanged from its line, even when docker prints extra fields after the sixth |
| Containers.ParseLinesConcat | Forms/DockerForm.cs:201-226 | lines are parsed independently and in order: the rows of a concatenation are the concatenation of the rows |
| Containers.ParseLines | Forms/DockerForm.cs:201-226 | a listing never yields more rows than it has lines, and no column of a row holds a tab |
| Containers.ParseOutput | Forms/DockerForm.cs:197-226 | the output is split at newlines: at most one row per output line, and no column holds a tab |
| Containers.ParseLinesFormatLines | Forms/DockerForm.cs:201-226 | the lines printed for well-formed rows parse back to exactly those rows, in order |
| Containers.RenderRoundTrip | Forms/DockerForm.cs:197-226 | the whole newline-separated listing of well-formed rows refreshes the list to exactly those rows |
| Containers.RenderRoundTripNewline | Forms/DockerForm.cs:197-226 | the same holds for the listing as docker prints it, with a newline after the last line |
| Containers.RowColour | Forms/DockerForm.cs:215-222 | green iff the status contains "Up"; red iff it contains "Exited" and not "Up"; "Up" wins when both appear |
| Containers.Eligibility | Forms/DockerForm.cs:171-176 | with no selection all three lifecycle items are disabled; otherwise start is enabled iff the status contains "Exited", and stop and restart iff it contains "Up" |
| Containers.EligibilityMatchesColour | Forms/DockerForm.cs:171-176 | a green row can be stopped and restarted; a red row can only be started; an uncoloured row allows nothing |
| Containers.LifecycleCommandInjective | Forms/DockerForm.cs:117-142 | the start, stop and restart commands of different actions or different ids never coincide |
| Containers.ContextMenuCommand | Forms/DockerForm.cs:117-142 | a click on a lifecycle item issues a command iff the item is enabled and the menu's condition holds, and the command is `docker <verb> <id>` |
| Containers.ContextMenuFollowsStatus | Forms/DockerForm.cs:171-176 | with the items set as the menu opens, the menu starts only a container whose status contains "Exited", and stops or restarts only one whose status contains "Up" |
| Containers.MenuCommand | Forms/DockerForm.cs:117-142 | a context-menu lifecycle item issues a command iff a row is selected and its id is non-empty, and the command is `docker <verb> <id>` |
| Containers.ButtonCommand | Forms/DockerForm.cs:239-267 | a lifecycle button issues `docker <verb> <id>` iff a row is selected, whatever its id |
| Containers.MenuAndButtonAgree | Forms/DockerForm.cs:239-267 | the menu and the buttons issue the same command except for a selected row whose id is empty |
| Containers.LogsTarget | Forms/DockerForm.cs:144-150 | the logs menu item needs a non-empty id, the logs button any selection, and a double click opens a log window even without a selection, for the empty id |
| Containers.InspectTarget | Forms/DockerForm.cs:152-158 | the inspect window opens only for a selected row with a non-empty id |
| Containers.LogsCommand | Forms/DockerForm.cs:367 | the log fetch is `docker logs --tail 1000 ` followed by the container id |
| Containers.InspectCommand | Forms/DockerForm.cs:391 | the inspect command is `docker inspect ` followed by the container id |
| Containers.ReportOf | Forms/DockerForm.cs:278-297 | a command is reported successful iff it ran and its error stream is empty; otherwise the message carries the error text or the exception message |
| Containers.InspectView | Forms/DockerForm.cs:387-418 | the inspect window shows the command's output iff the command ran; an exception gives exactly "获取容器信息失败: " followed by its message |
| Containers.ContainerList.Refresh | Forms/DockerForm.cs:193-232 | a listing that throws leaves rows and selection as they were and reports the error; otherwise the list becomes exactly the parsed rows of the output, selection cleared |
| Containers.ContainerList.OnMenuOpening | Forms/DockerForm.cs:171-176 | the enabled flags of the three items become the eligibility of the selected row's status |
| Containers.ContainerList.RunLifecycle | Forms/DockerForm.cs:117-142 | the issued command is the button's for the selection, or the context menu's under the items' enabled flags; without one nothing changes and nothing is reported, with one the result is reported and the list refreshed, and a listing that throws reports "获取容器列表失败: " with its message |
| Containers.LogWindow.constructor | Forms/DockerForm.cs:304-347 | a new log window for a container starts with empty text |
| Containers.OpenLogWindow | Forms/DockerForm.cs:349-350 | opening a log window loads the logs once: it holds the fetched logs, or stays empty and reports "获取日志失败: " with the message when the fetch threw |
| Containers.LogWindow.Load | Forms/DockerForm.cs:363-385 | fetched logs replace the text, or are appended to it while following; an exception keeps the text and reports the error |
| Containers.LogWindow.Clear | Forms/DockerForm.cs:337-338 | the clear button empties the text |
| JavaDeploy.RemoteTargetShape | Forms/JavaDeployForm.cs:384 | the target starts with the remote directory up to its run of trailing '/' characters, so that part never ends in '/'; exactly one '/' follows, then the name |
| JavaDeploy.RemoteTargetNoDoubleSlash | Forms/JavaDeployForm.cs:383-384 | the join never creates "//": any "//" in the target was already inside the stripped directory |
| JavaDeploy.DeployableJars | Forms/JavaDeployForm.cs:336-338 | exactly the listed jars not ending in "-sources.jar" or "-javadoc.jar" remain |
| JavaDeploy.FirstDeployable | Forms/JavaDeployForm.cs:336-340 | the uploaded jar is the first deployable one listed, and there is one iff some listed jar is deployable |
| JavaDeploy.LatestIndex | Forms/JavaDeployForm.cs:158 | the chosen settings have the greatest last-used time, and no earlier entry has the same time (a stable descending sort's first) |
| JavaDeploy.FirstServerMatch | Forms/JavaDeployForm.cs:164-173 | the first server with the saved host and port, or none when no server has both |
| JavaDeploy.Validate | Forms/JavaDeployForm.cs:200-228 | the result is none iff every check passes; otherwise it is the first failing check in the order project path, pom.xml, server, remote path, script |
| JavaDeploy.DeployWindow.constructor | Forms/JavaDeployForm.cs:137-149 | the server list holds the saved profiles, and the first is selected when there is one |
| JavaDeploy.DeployWindow.RestoreLastConfig | Forms/JavaDeployForm.cs:151-180 | with saved settings, the latest fill the text boxes and the first server with their host and port is selected, the selection staying as it was when none matches; with none, nothing changes |
| JavaDeploy.DeployWindow.Browse | Forms/JavaDeployForm.cs:182-196 | a chosen folder replaces the project path; cancelling keeps it |
| JavaDeploy.DeployWindow.Deploy | Forms/JavaDeployForm.cs:198-243 | a failing check rejects the deployment with that check before any step; otherwise a server is selected and the steps run as `Run` states |
| JavaDeploy.RunSteps | Forms/JavaDeployForm.cs:269-600 | the steps taken are the full plan up to and including the first step that fails (`Taken`), and the deployment ends as `Ending` says |
| JavaDeploy.EndingShape | Forms/JavaDeployForm.cs:269-600 | the steps taken are a prefix of the plan of at least two steps, and nothing past the listing happens without a deployable jar |
| JavaDeploy.EndingThrows | Forms/JavaDeployForm.cs:269-600 | each step that throws is the last step taken, and the deployment ends with its exception's message |
| JavaDeploy.EndingVerdicts | Forms/JavaDeployForm.cs:269-600 | a non-zero build exit stops after the build, no deployable jar stops after the listing, and the script's error stream decides between deployed and failed |
| JavaDeploy.EndingMeetsRun | Forms/JavaDeployForm.cs:269-600 | the steps are a prefix of save, build, list, connect, mkdir, upload, chmod, script. A non-zero build exit stops after the build; no deployable jar stops before connecting. The deployment succeeds iff every step went through and the script ran with an empty error stream. A step that throws (build, listing, connect, mkdir, upload, chmod, script) is the last step taken, and the deployment ends with its exception's message |
| UploadProgress.Percent | Forms/JavaDeployForm.cs:436 | the percentage is the truncated quotient: p·length ≤ uploaded·100 < (p+1)·length |
| UploadProgress.PercentRange | Forms/JavaDeployForm.cs:436 | within the file the percentage is at most 100, and it is 100 exactly when the whole file is sent |
| UploadProgress.PercentMonotone | Forms/JavaDeployForm.cs:436 | more bytes sent never give a smaller percentage |
| UploadProgress.Tracker.constructor | Forms/JavaDeployForm.cs:391-394 | nothing shown and nothing sent; the last accepted time is the start |
| UploadProgress.Tracker.OnUploading | Forms/JavaDeployForm.cs:431-464 | a call within 100 ms of the last accepted one changes nothing. Otherwise the time and byte count are recorded and the bar moves to the new percentage only when it is larger. The bar never decreases and stays in 0..100. A zero-length file faults. Every accepted report is added to the tracker's history, and the bar always equals `ShownAfter` of that history |
| UploadProgress.ShownAfter | Forms/JavaDeployForm.cs:445-460 | after accepted reports the bar shows at most 100 and at least every reported percentage |
| UploadProgress.ShownAfterStep | Forms/JavaDeployForm.cs:445-460 | one more accepted report moves the bar to its percentage exactly when that is larger than what is shown |
| UploadProgress.ShownAfterAttained | Forms/JavaDeployForm.cs:445-460 | the bar shows one of the reported percentages, and the lemma returns its position |
| UploadProgress.ShownAfterComplete | Forms/JavaDeployForm.cs:445-460 | once the whole file has been reported, the bar shows 100 |
| Units.FormatFileSize | Forms/JavaDeployForm.cs:608-619 | the unit is B, KB, MB or GB by the size's order. Size times 1024 to that order is the byte count. The size is below 1024 unless the unit is GB |
| Units.UnitOrder | Forms/DatabaseRestoreForm.cs:333-344 | the restore window's copy picks the largest power of 1024 not above the count, capped at GB |
| Units.Parts | Forms/JavaDeployForm.cs:621-632 | hours and minutes from one hour on, minutes and seconds from one minute on, seconds otherwise; every part is truncated, and the parts bracket the duration |
| Restore.Validate | Forms/DatabaseRestoreForm.cs:204-220 | the result is none iff every check passes; otherwise it is the first failing check in the order SQL file, database, mysql executable |
| Restore.RestoreCommand | Forms/DatabaseRestoreForm.cs:232-235 | the command changes to the client's directory and runs `mysql` with host, port, user and quoted password, the database and the quoted SQL file as input |
| Restore.Classify | Forms/DatabaseRestoreForm.cs:308-323 | restored iff the exit code is 0 and the error stream is empty or mentions "Warning"; a failure is denied access iff the error mentions "Access denied", and otherwise carries the error text |
| Restore.WarningIsBenign | Forms/DatabaseRestoreForm.cs:308 | a zero exit whose error stream mentions "Warning" counts as restored |
| Restore.DeniedBeatsWarning | Forms/DatabaseRestoreForm.cs:308-313 | with a non-zero exit, an error mentioning "Access denied" gives the credentials message even when it also mentions "Warning" |
| Restore.RestoreOutcome | Forms/DatabaseRestoreForm.cs:202-331 | rejected iff a check fails, with that check. After the checks, a failed read of the file size or a client that could not start ends with that exception's message. A restore that succeeds had the checks pass and a zero exit; a client that ran is judged by `Classify` |
| Restore.MessageInjective | Forms/DatabaseRestoreForm.cs:206-329 | different outcomes show different message boxes |
| Restore.Advance | Forms/DatabaseRestoreForm.cs:274 | one accepted tick adds exactly one MiB while that fits within the file size, and otherwise reaches the size; it never goes down |
| Restore.AfterTicksClosedForm | Forms/DatabaseRestoreForm.cs:262-274 | from zero, n accepted ticks give min(n MiB, size) |
| Restore.TicksToComplete | Forms/DatabaseRestoreForm.cs:262-274 | the counter equals the size exactly from ⌈size / 1 MiB⌉ accepted ticks on |
| Restore.ProgressCounter.constructor | Forms/DatabaseRestoreForm.cs:262 | the counter starts at zero |
| Restore.ProgressCounter.Tick | Forms/DatabaseRestoreForm.cs:265-287 | nothing changes once the client has exited or before time has elapsed; otherwise the counter advances; it never decreases and never exceeds the size |
| ConfigStore.Load | Utils/ConfigManager.cs:31-48 | a missing, unreadable or null file loads as the empty collection, a present one as its content |
| ConfigStore.FindByName | Utils/ConfigManager.cs:83 | the position of the first profile with the name, or none iff no profile has it |
| ConfigStore.UpsertByName | Utils/ConfigManager.cs:83-91 | the first profile with the name is replaced in place and every other kept, or the profile is appended; the length grows by one only for a new name |
| ConfigStore.UpsertKeepsNamesUnique | Utils/ConfigManager.cs:83-91 | unique names stay unique, and the profile found by its name afterwards is the saved one |
| ConfigStore.RemoveByName | Utils/ConfigManager.cs:100 | deleting never lengthens the list |
| ConfigStore.RemoveByNameMembers | Utils/ConfigManager.cs:100 | exactly the profiles with another name remain |
| ConfigStore.RemoveByNameConcat | Utils/ConfigManager.cs:100 | deletion works element by element, so the remaining profiles keep their order |
| ConfigStore.RemoveByNameAbsent | Utils/ConfigManager.cs:100 | deleting a name that is not there changes nothing |
| ConfigStore.RemoveByNameIdempotent | Utils/ConfigManager.cs:100 | deleting twice is deleting once |
| ConfigStore.FindByKey | Utils/ConfigManager.cs:128-130 | the position of the first settings for the container and environment, or none iff there are none |
| ConfigStore.LoadLastDeployConfig | Utils/ConfigManager.cs:123-137 | the first settings for the container and environment in the loaded file, or none iff there are none |
| ConfigStore.SaveDeploy | Utils/ConfigManager.cs:146-154 | the first settings with the same key are removed and the others keep their order; the new settings come last |
| ConfigStore.KeptAvoidsKey | Utils/ConfigManager.cs:146-153 | with unique keys, what stays behind keeps unique keys and none has the saved key |
| ConfigStore.SaveDeployThenLoad | Utils/ConfigManager.cs:139-163 | unique keys stay unique, and loading the key afterwards returns the saved settings |
| ConfigStore.Files.SaveMySqlConfig | Utils/ConfigManager.cs:50-57 | the container's entry is set to the new credentials and every other entry is kept |
| ConfigStore.Files.SaveSshConfig | Utils/ConfigManager.cs:78-95 | the file afterwards holds the loaded profiles with the profile upserted by name; a missing, unreadable or null file is overwritten by the one saved profile |
| ConfigStore.SaveOverEmptyLoad | Utils/ConfigManager.cs:59-95 | a save over a file that does not load gives exactly the saved profile |
| ConfigStore.Files.DeleteSshConfig | Utils/ConfigManager.cs:97-104 | the file afterwards holds the loaded profiles without any of the given name |
| ConfigStore.Files.SaveDeployConfig | Utils/ConfigManager.cs:139-163 | the file afterwards holds the loaded settings with the first of the same key removed and the new ones appended |
| SshConfigForm.Profile.Fresh | Models/SSHConfig.cs:15-19 | a new profile has no id, port 22 and is last used now |
| SshConfigForm.Title | Forms/SSHConfigForm.cs:28 | the title says "add" iff the profile's id is 0, and "edit" otherwise |
| SshConfigForm.PortTextParses | Forms/SSHConfigForm.cs:57 | the port box shows "22" for port 0 and otherwise the port, and its text parses back to 22 or the port |
| SshConfigForm.Check | Forms/SSHConfigForm.cs:112-125 | success iff every check passes, with the parsed port; otherwise the first failing check in the order name, host, port, user name, password |
| SshConfigForm.MessageInjective | Forms/SSHConfigForm.cs:112-138 | each failed check shows its own message |
| SshConfigForm.AnyPortAccepted | Forms/SSHConfigForm.cs:118-129 | the port is not range-checked: every 32-bit integer, 0 and negatives included, passes |
| SshConfigForm.SavedFieldsTrimmed | Forms/SSHConfigForm.cs:127-131 | the saved name, host and user name are non-empty and already trimmed |
| SshConfigForm.Dialog.constructor | Forms/SSHConfigForm.cs:20-24 | the dialog edits the given profile object, or a fresh one; the title follows its id and the boxes show its fields |
| SshConfigForm.Dialog.Save | Forms/SSHConfigForm.cs:108-141 | a failing check shows its message, keeps the dialog open and leaves the profile untouched. Otherwise name, host and user are stored trimmed, the password as typed, the port as parsed and the time as now, and the dialog closes with OK |
| ProgressForm.BarAfter | Forms/ProgressForm.cs:92-96 | after a run of updates from a new window the bar is in 0..100, and it is 0 when no update was in range |
| ProgressForm.BarAfterStep | Forms/ProgressForm.cs:92-96 | one more update moves the bar to its percentage when that lies in 0..100, and otherwise leaves it where it was |
| ProgressForm.BarAfterIsLastInRange | Forms/ProgressForm.cs:92-96 | after a run of updates the bar shows the last in-range percentage |
| ProgressForm.ProgressWindow.constructor | Forms/ProgressForm.cs:40-59 | the bar starts at 0 within 0..100, and the status line reads "准备中..." |
| ProgressForm.ProgressWindow.UpdateProgress | Forms/ProgressForm.cs:67-84 | a disposed window ignores updates. Otherwise the status line takes the text, and the bar takes the percentage only when it lies in 0..100. The bar stays in 0..100. Every applied update is added to the window's history, and the bar always equals `BarAfter` of that history |
| ProgressForm.ProgressWindow.UpdateProgressInternal | Forms/ProgressForm.cs:86-99 | the same guarded update on the window's own thread. The bar stays `BarAfter` of the applied updates |

## Left out

- Layout, controls, message boxes, `Invoke`/`BeginInvoke` marshalling and timers are left out. The timer's effect is the `Tick` method. Message boxes become returned messages.
- The log-box texts of the deployment, and `this.Close()` after a successful deployment or restore, are left out.
- SSH, SCP, `cmd.exe`, `mvn` and `mysql` are not executed. Their results are inputs: an exit code, standard output and error, or the exception thrown.
- Each `try`/`catch` is modelled by the exception message it reports.
- The JSON files are `Stored` values. Serialisation, the files' paths and the write-back are not modelled.
- Exceptions swallowed inside `SaveDeployConfig` are not modelled.
- `Directory.GetFiles(target, "*.jar")` is an input listing. The wildcard match itself is not modelled.
- Floating point is left out:
  - upload speed, remaining time and instant speed;
  - the restore percentage and speed;
  - the two-decimal formatting of sizes.
- `FormatFileSize` is modelled over exact reals instead of doubles.
- `FormatTimeSpan` takes a whole number of milliseconds rather than a floating-point estimate.
- Units.FormatTimeSpan: carries no contract of its own, because its meaning is in `Units.Parts`. It only prints the parts it returns.
- UploadProgress.Tracker.OnUploading: requires the bytes sent to be at most the file length. The copy library guarantees this, so the 64-bit overflow of `uploaded * 100` is not modelled.
- `EndsWith` in the jar filter is culture-sensitive in .NET. It is modelled as an ordinal comparison.
- `Path.Combine`, `Path.GetFileName` and `Path.GetDirectoryName` are modelled for plain Windows paths. The model omits invalid-character exceptions, UNC paths and the normalisation of separators.
- Paths.DirectoryName: gives `""` for a drive-relative path such as `C:foo`, where .NET gives `C:`. The windows never build such a path.
- JavaDeploy.DeployWindow.Deploy: reads the text boxes and the selected server once, at the click. The source reads the project path, the remote path and the script again after the build's `await`, so edits made during the build change the later steps; the model does not capture this.
- JavaDeploy.RunSteps: runs one deployment at a time. The deploy button stays enabled, so a second click starts a second deployment alongside the first; their interleaving is not modelled.
- `int.TryParse` is modelled for an optional sign and decimal digits surrounded by white space, within the 32-bit range. The culture's other number styles are not modelled.
- A `null` string is modelled as the empty string, so `IsNullOrEmpty` is a test for `""`.
- `ConfigManager.LoadJavaDeployConfigs` and `ConfigManager.SaveJavaDeployConfig` are called but not defined in Utils/ConfigManager.cs. The saved Java settings are an input, and their save is a recorded step.
- The `Dispose` method of the progress window stands in for the framework disposing it.
- `Invoke` raising `ObjectDisposedException` or `InvalidOperationException` is not modelled. A disposed window is modelled as ignoring the update.
- Utils/LoadingForm.cs is not part of this model. Its size formatting copies `FormatFileSize`, and its percentage is floating point.
- Forms/MainForm.cs, Forms/SSHForm.cs, Forms/SSHLoginForm.cs, Utils/StreamExtensions.cs, Data/*.cs and Program.cs are not part of this model. They hold UI, I/O and database wrappers.
