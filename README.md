# OneLords Launcher: launch, login and settings logic in Dafny

This project models the decision logic of three renderer scripts of the
OneLords Minecraft launcher (`app/assets/js/scripts/landing.js`,
`login.js` and `settings.js`) and proves properties of that model. The
launcher's collaborators are parameters: the distribution index, the file
repair engine, the JVM tools, the process builder, Discord Rich Presence,
the Mojang status client, the configuration store and the DOM. Each one is
reduced to the answers it gives.

What is modelled:

- **Landing screen, Java resolution** (`JavaSetup`).
  - The launch button's gate: the maintenance flag and the allow-listed account, the configured JVM, and which errors reach the failure dialog.
  - `asyncSystemScan`.
  - `downloadJava`: progress percentages, the integrity branch and its errors.
- **Landing screen, launch suite** (`LaunchSuite`).
  - `dlAsync` as a sequence of phases over the collaborators' answers (`LaunchOracles`). The observable state is a `Suite` value: button labels, download percentages, failure dialogs, open repair receivers, the game process and its listeners, Rich Presence, pending timers.
  - The output listeners `tempListener`, `onLoadComplete`, `gameStateChange` and `gameErrorListener`.
  - The process's `close` handler and the repair child's `error`/`close` handlers.
  - EventEmitter dispatch: every listener attached when a chunk is emitted runs, in attachment order. `removeListener` drops the most recently attached instance.
  - The class `Launcher` performs each transition in place on its fields. Each method is proved to agree with the matching function on `Suite`.
- **Output patterns** (`OutputClassifier`). `GAME_JOINED_REGEX`, `GAME_LAUNCH_REGEX`, `SERVER_JOINED_REGEX` and the LaunchWrapper test are written out as the string splits they accept. `.+` is a non-empty run of non-line-terminators.
- **Mojang status** (`MojangStatus`). The imperative fold of `refreshMojangStatuses` with its `greenCount`/`greyCount` counters, proved equal to a priority rule.
- **Login form** (`Login`).
  - The `validUsername` and `basicEmail` patterns. `basicEmail` is proved equal to the x@y.z shape.
  - The `lu`/`lp` flags and the login button as a class.
  - `loginDisabled`, `formDisabled` and the cancel handler.
- **Settings screen.**
  - The invalid-field set that gates Save (`SettingsValidation`).
  - The JVM options split and join (`JvmOptions`).
  - The RAM string conversion, with JavaScript numbers as exact reals (`RamSetting`).
  - The range sliders, notch clamping, cancellation and min ≤ max coupling (`RangeSliders`).
  - The Java documentation link (`JvmDocs`).
  - `_saveModConfiguration` (`ModConfiguration`).
  - Tab and account single selection over arrays (`Selection`).
- `Text` holds JavaScript's `\s`, `trim`, `indexOf(..) > -1`, `split(/\s+/)` and `join(' ')`.

The model follows the code where a natural reading of the launcher's
intended behaviour differs from it:

- The LaunchWrapper failure dialog is raised again for every matching stderr chunk until loading completes. It is not deduplicated (`LaunchSuite.WrapperFailureReportedEachTime`).
- The repair receiver is released only when the files are ready. A failed verification or download returns with it still open (`LaunchSuite.ReceiverReleasedOnlyWhenReady`).
- With no selected account, `dlAsync` returns after its first label, without a dialog (`LaunchSuite.NoAccountStopsSilently`).
- Not every error reaches a dialog. In the launch button handler, only errors that reach the handler's own `catch` show the failure dialog: a distribution index that cannot be read, a missing server when no executable is configured, and a rejection of the awaited `asyncSystemScan` when no executable is configured, including one from the `dlAsync` it awaits (`GateOutcome.ScanFailed`). Errors inside the maintenance promise chain are only logged: a failed maintenance fetch, a missing account while the flag is on, and a missing server give `GateOutcome.Dropped`. When the chain goes on, the gate answers `RunDlAsync` or `SystemScan`; a later rejection of that call reaches only the chain's logging catch (landing.js:135-137). The rescan after a Java download is not awaited, so its rejection is unhandled.

## Model

| member | source | states |
|---|---|---|
| Text.Trim | app/assets/js/scripts/landing.js:549 | `trim()` returns no more than it was given, and what it returns neither starts nor ends with JavaScript whitespace |
| Text.TrimStartDropsWhitespace | app/assets/js/scripts/landing.js:549 | the leading trim keeps a suffix of the string and everything it drops is whitespace |
| Text.TrimEndDropsWhitespace | app/assets/js/scripts/landing.js:549 | the trailing trim keeps a prefix of the string and everything it drops is whitespace |
| Text.TrimOfTrimmed | app/assets/js/scripts/landing.js:549 | a string that neither starts nor ends with whitespace is its own trim |
| Text.TrimEmptyIff | app/assets/js/scripts/settings.js:174 | `!v.value.trim()` holds exactly when the field is empty or all whitespace |
| Text.IndexOfWhitespace | app/assets/js/scripts/settings.js:178 | the position where a `\s` match first starts: whitespace there, none before |
| Text.WhitespaceRun | app/assets/js/scripts/settings.js:178 | the greedy `\s+` run: all whitespace, followed by a non-whitespace character or the end |
| Text.SplitWhitespace | app/assets/js/scripts/settings.js:178 | `split(/\s+/)` yields at least one piece and no piece holds whitespace |
| Text.CollapseWhitespace | app/assets/js/scripts/settings.js:178 | collapsing whitespace runs keeps non-empty text non-empty, starts with whitespace exactly when the text does, and leaves only single spaces, never two whitespace characters in a row |
| Text.SplitJoinCollapses | app/assets/js/scripts/settings.js:178 | joining the pieces of `split(/\s+/)` with single spaces gives the text with every whitespace run collapsed to one space: the split keeps every non-whitespace character, in order |
| Text.SplitTrimmedYieldsTokens | app/assets/js/scripts/settings.js:178 | splitting a trimmed non-empty string yields only non-empty, whitespace-free tokens |
| Text.SplitJoinRoundTrip | app/assets/js/scripts/settings.js:132 | `join(' ')` followed by `split(/\s+/)` gives back any non-empty list of tokens |
| Text.JoinStartsWithToken | app/assets/js/scripts/settings.js:132 | a single-space join of tokens is non-empty and neither starts nor ends with whitespace |
| JavaSetup.LaunchGate | app/assets/js/scripts/landing.js:76-143 | `dlAsync` runs exactly for a found server, a configured and valid JVM, and the maintenance flag off or the allow-listed uuid. The maintenance notice goes exactly to the other accounts while the flag is on. A system scan happens exactly for a missing executable or a cleared invalid JVM. The failure dialog appears exactly for an unreadable distribution, or a missing executable with a missing server or a rejecting scan; errors in the promise chain are dropped |
| JavaSetup.ValidJvmLaunches | app/assets/js/scripts/landing.js:119-128 | with the flag off, a valid configured JVM proceeds to `dlAsync` for any account, whatever a scan would do |
| JavaSetup.LaunchClick | app/assets/js/scripts/landing.js:76-357 | a click followed through the gate and the scan it starts: the game is downloaded exactly for a cleared valid JVM or after a scan that finds a JVM; the install overlay appears exactly when a scan the gate starts finds none; the failure dialog exactly as the gate shows it; nothing is shown exactly when the gate drops the error |
| JavaSetup.Percents | app/assets/js/scripts/landing.js:371-374 | one percentage per progress callback, each `trunc(transferred / size * 100)` |
| JavaSetup.DownloadJava | app/assets/js/scripts/landing.js:359-383 | no asset throws before downloading; one report per callback, then 100 once the download resolves; the hash is checked iff the byte count differs from the size, and a failed check is the corruption error |
| JavaSetup.DownloadProgressMonotone | app/assets/js/scripts/landing.js:371-375 | for growing byte counts within the size, the reported percentages stay in [0, 100], never decrease and end at 100 |
| JavaSetup.PercentAtMostHundred | app/assets/js/scripts/landing.js:373 | a byte count within the size reports at most 100 |
| JavaSetup.PercentMonotone | app/assets/js/scripts/landing.js:373 | more bytes never report a smaller percentage |
| JavaSetup.InstallJavaHandlerAsWritten | app/assets/js/scripts/landing.js:311-322 | as written, the overlay handler never shows the Java download failure dialog, and every failed download is an unhandled rejection |
| JavaSetup.MissingJdkGoesUnreported | app/assets/js/scripts/landing.js:316-321 | a JDK lookup that finds nothing fails, yet the handler as written shows no dialog |
| JavaSetup.InstallJavaHandler | app/assets/js/scripts/landing.js:316-321 | the awaited handler shows the dialog exactly when the download fails and leaves no unhandled rejection |
| JavaSetup.EveryJavaDownloadFailureReported | app/assets/js/scripts/landing.js:359-383 | with the awaited handler, the dialog appears exactly for a missing JDK, a rejected download or a failed hash check |
| MojangStatus.RefreshMojangStatuses | app/assets/js/scripts/landing.js:190-246 | the counter loop returns the priority colour `Overall`, and splits the services into essential and non-essential rows in list order |
| MojangStatus.WorstStep | app/assets/js/scripts/landing.js:222-231 | one loop step updates the running colour as the body does: yellow unless red was seen, red on red, unchanged otherwise |
| MojangStatus.RedDominates | app/assets/js/scripts/landing.js:222-225 | a red service makes the indicator red wherever it stands in the list |
| MojangStatus.GreyOnlyWhenAllGrey | app/assets/js/scripts/landing.js:226-241 | without red or yellow, the indicator is grey iff every service is grey (the empty list included), and green means some service is green |
| MojangStatus.RowsPartition | app/assets/js/scripts/landing.js:216-220 | each service's row is in the tooltip of its own group, and the two tooltips together hold every service's row exactly once (as multisets) |
| OutputClassifier.UntaggedChunkIgnored | app/assets/js/scripts/landing.js:559-566 | a chunk whose trimmed text holds no `]: ` changes no presence |
| OutputClassifier.SoundEngineLineJoining | app/assets/js/scripts/landing.js:559-566 | a one-line `[tag]: Sound engine started` line, with no `]: ` inside the tag, is classified Joining for any display name |
| OutputClassifier.JoinedTakesPriority | app/assets/js/scripts/landing.js:561-565 | a chunk that matches both patterns yields Joined |
| OutputClassifier.OwnJoinRecognised | app/assets/js/scripts/landing.js:535 | the player's own `[tag]: [CHAT] <name> joined the game` line is classified Joined, whatever the tag |
| OutputClassifier.TaggedHasMessage | app/assets/js/scripts/landing.js:535 | every `[tag]: message` line with a non-empty one-line tag matches the unanchored `\[.+\]: message` pattern |
| OutputClassifier.ForgeBannerCounts | app/assets/js/scripts/landing.js:419 | every one-line `[tag]: MinecraftForge <version> Initialized` line matches the anchored launch pattern |
| OutputClassifier.ModLauncherBannerCounts | app/assets/js/scripts/landing.js:419 | every one-line `[tag]: ModLauncher <version> starting: <target>` line matches the anchored launch pattern |
| OutputClassifier.FabricBannerCounts | app/assets/js/scripts/landing.js:419 | every one-line `[tag]: Loading Minecraft <game> with Fabric Loader <loader>` line matches the anchored launch pattern |
| OutputClassifier.ContainsTrimIff | app/assets/js/scripts/landing.js:569-570 | for the LaunchWrapper message, testing the trimmed chunk finds it iff the raw chunk contains it |
| OutputClassifier.TrimBounds | app/assets/js/scripts/landing.js:569 | the trimmed chunk is a slice of the chunk with only whitespace before and after it |
| LaunchSuite.StageReached | app/assets/js/scripts/landing.js:422-605 | the stage one attempt stops at. NoAccount happens exactly for a login attempt without an account. The process builder is reached only with login and an account. A failed download means invalid files and a rejected download |
| LaunchSuite.RepairShows | app/assets/js/scripts/landing.js:448-514 | the repair phase writes its labels, raises the verification or download dialog, shows the download percentages ending at 100 when it resolves, and leaves a receiver open unless the files are ready; nothing else changes |
| LaunchSuite.RepairInfo | app/assets/js/scripts/landing.js:448-513 | the labels of the repair phase, case by case |
| LaunchSuite.RepairProgress | app/assets/js/scripts/landing.js:490-499 | the percentages of the repair phase: shown only when files are downloaded, followed by 100 when the download resolves |
| LaunchSuite.SpawnShows | app/assets/js/scripts/landing.js:528-602 | the launch branch writes 'launching' and, once built, 'done'. It raises the launch error when building or starting Rich Presence throws, and leaves progress, receivers and presence alone |
| LaunchSuite.SpawnProcess | app/assets/js/scripts/landing.js:546-597 | a built process gets exactly tempListener and gameErrorListener and the 'Jouer' timer. Rich Presence and the close handler come only with both Discord configurations and a successful start. The launch time and player name change only with a built process. A failed build leaves the old process, its listeners and the values they read |
| LaunchSuite.LaunchAttemptLabels | app/assets/js/scripts/landing.js:422-605 | the labels of one attempt are exactly those of the stages it passes |
| LaunchSuite.LaunchAttemptFailures | app/assets/js/scripts/landing.js:422-605 | one attempt raises at most one dialog, the one of the stage it stops at |
| LaunchSuite.LaunchAttemptProgress | app/assets/js/scripts/landing.js:490-507 | percentages are shown exactly when the attempt downloads, ending at 100 when the download resolves; presence is untouched |
| LaunchSuite.DownloadIffInvalidFiles | app/assets/js/scripts/landing.js:490-507 | the download phase runs iff verification reports invalid files |
| LaunchSuite.ReceiverReleasedOnlyWhenReady | app/assets/js/scripts/landing.js:461-511 | the receiver spawned by an attempt stays open exactly when verification or the download failed |
| LaunchSuite.NoAccountStopsSilently | app/assets/js/scripts/landing.js:441-446 | without an account, a login attempt only writes its first label |
| LaunchSuite.LaunchAttemptProcess | app/assets/js/scripts/landing.js:576-597 | only a built process replaces `proc` with the two launch listeners, the 'Jouer' timer, the launch time and the name; otherwise all of these stay as they were. `hasRPC` and the close handler are set only by a launch that starts Rich Presence |
| LaunchSuite.RemoveLast | app/assets/js/scripts/landing.js:543-544 | `removeListener` removes one instance when the listener is attached and changes nothing otherwise |
| LaunchSuite.RemoveLastMultiset | app/assets/js/scripts/landing.js:543-544 | `removeListener` takes away exactly one instance and keeps every other listener |
| LaunchSuite.LoadComplete | app/assets/js/scripts/landing.js:537-545 | `onLoadComplete` announces loading only with Rich Presence and touches neither dialogs, timers nor labels |
| LaunchSuite.LoadCompleteListeners | app/assets/js/scripts/landing.js:537-545 | on a live process it attaches gameStateChange iff `hasRPC` and detaches one tempListener and one gameErrorListener; on a cleared process it detaches nothing |
| LaunchSuite.LoadCompleteOnFreshLaunch | app/assets/js/scripts/landing.js:537-545 | on a fresh launch, stdout is left with gameStateChange exactly when Rich Presence runs, and stderr with nothing |
| LaunchSuite.LateBannerCompletesLoad | app/assets/js/scripts/landing.js:548-557 | a banner at or after 5000 ms completes loading on the spot |
| LaunchSuite.EarlyBannerWaitsForLinger | app/assets/js/scripts/landing.js:546-557 | an early banner schedules completion for exactly 5000 ms after the launch, and that timer completes loading |
| LaunchSuite.FireScheduled | app/assets/js/scripts/landing.js:552 | the scheduled completion timer runs `onLoadComplete` on the state as it was |
| LaunchSuite.GameStateStepSpec | app/assets/js/scripts/landing.js:559-566 | gameStateChange announces Joined on the join line, else Joining on the sound engine line, else nothing; only the presence changes |
| LaunchSuite.GameErrorStepSpec | app/assets/js/scripts/landing.js:568-574 | each chunk whose trimmed text contains the LaunchWrapper message raises one more dialog; nothing else changes |
| LaunchSuite.WrapperFailureReportedEachTime | app/assets/js/scripts/landing.js:568-574 | the same LaunchWrapper line emitted twice raises two dialogs: there is no deduplication |
| LaunchSuite.NoWrapperDialogAfterLoad | app/assets/js/scripts/landing.js:544 | after loading completes, stderr chunks change nothing |
| LaunchSuite.JoinShownAfterLoad | app/assets/js/scripts/landing.js:537-562 | after loading with Rich Presence, the player's join line leads the presence through Loading then Joined |
| LaunchSuite.JoinedStep | app/assets/js/scripts/landing.js:559-562 | a join line emitted to a stdout watched only by gameStateChange announces Joined |
| LaunchSuite.DispatchConcat | app/assets/js/scripts/landing.js:579-580 | emitting to the listeners `a + b` runs all of `a` first and then `b` on the state `a` left, so each listener sees its predecessors' effects in attachment order |
| LaunchSuite.FireTimer | app/assets/js/scripts/landing.js:546-584 | exactly the fired timer leaves the pending list and the others stay in their order; the 'Jouer' timer writes the Play label |
| LaunchSuite.ProcClosed | app/assets/js/scripts/landing.js:590-595 | a close with the Rich Presence handler shuts it down once and clears `hasRPC` and `proc`; otherwise nothing changes |
| LaunchSuite.ShutdownOnce | app/assets/js/scripts/landing.js:590-595 | a second close event changes nothing: Rich Presence is shut down at most once per launch |
| LaunchSuite.RepairChildEvent | app/assets/js/scripts/landing.js:463-472 | an error, or a close with any exit code other than 0 (signals included), raises one dialog; only the dialogs change |
| LaunchSuite.Launcher.constructor | app/assets/js/scripts/landing.js:416-417 | the landing screen starts with no process and Rich Presence off |
| LaunchSuite.Launcher.DlAsync | app/assets/js/scripts/landing.js:422-605 | the in-place `dlAsync` leaves the fields equal to `LaunchAttempt` of the old state |
| LaunchSuite.Launcher.SetLabel | app/assets/js/scripts/landing.js:425 | `setLaunchInfo` appends one label |
| LaunchSuite.Launcher.RepairFiles | app/assets/js/scripts/landing.js:448-513 | performs the repair phase in place and says whether `dlAsync` goes on: exactly when the files are ready |
| LaunchSuite.Launcher.RaiseFailure | app/assets/js/scripts/landing.js:435 | `showLaunchFailure` appends one dialog |
| LaunchSuite.Launcher.LaunchGame | app/assets/js/scripts/landing.js:528-602 | performs the launch branch in place, as `Spawn` |
| LaunchSuite.Launcher.OnLoadComplete | app/assets/js/scripts/landing.js:537-545 | performs `onLoadComplete` in place, as `LoadComplete` |
| LaunchSuite.Launcher.OnTempListener | app/assets/js/scripts/landing.js:548-557 | performs tempListener in place, as `TempStep` |
| LaunchSuite.Launcher.OnGameStateChange | app/assets/js/scripts/landing.js:559-566 | performs gameStateChange in place, as `GameStateStep` |
| LaunchSuite.Launcher.OnGameErrorListener | app/assets/js/scripts/landing.js:568-574 | performs gameErrorListener in place, as `GameErrorStep` |
| LaunchSuite.Launcher.RunListener | app/assets/js/scripts/landing.js:579-580 | runs one attached listener, as `Apply` |
| LaunchSuite.Launcher.Emit | app/assets/js/scripts/landing.js:579-580 | emitting a chunk runs every listener attached when the emission starts, in order, as `Dispatch` |
| LaunchSuite.Launcher.OnTimer | app/assets/js/scripts/landing.js:546-584 | a timer firing, as `FireTimer` |
| LaunchSuite.Launcher.OnProcClose | app/assets/js/scripts/landing.js:590-595 | the close handler, as `ProcClosed` |
| LaunchSuite.Launcher.OnRepairEvent | app/assets/js/scripts/landing.js:463-472 | the repair child's handlers, as `RepairChildEvent` |
| Login.BasicEmailIffShaped | app/assets/js/scripts/login.js:6 | `basicEmail` accepts exactly the whitespace-free x@y.z strings with x, y and z non-empty |
| Login.UsernameIsNeverEmail | app/assets/js/scripts/login.js:5-6 | no valid username is an e-mail address |
| Login.LoginForm.constructor | app/assets/js/scripts/login.js:18 | both flags start false with the button guarded |
| Login.LoginForm.LoginDisabled | app/assets/js/scripts/login.js:83-87 | the button takes the requested state and is written only when that state differs |
| Login.LoginForm.ValidateEmail | app/assets/js/scripts/login.js:33-51 | `lu` holds iff the value is non-empty and matches a pattern. An empty or unmatched value disables the button and shows the matching error. A good value hides the error and enables the button only with `lp`. The button stays guarded |
| Login.LoginForm.ValidatePassword | app/assets/js/scripts/login.js:53-65 | `lp` holds iff the value is non-empty. An empty value disables the button and shows the error. A good value hides it and enables the button only with `lu`. The button stays guarded |
| Login.LoginForm.FormDisabled | app/assets/js/scripts/login.js:99-110 | the button, cancel, username, password, checkmark and remember controls all take the requested state |
| Login.LoginForm.Cancel | app/assets/js/scripts/login.js:124-134 | both fields are cleared, the cancel area hidden, and the pending handler runs once and is forgotten |
| SettingsValidation.SettingsValidator.constructor | app/assets/js/scripts/settings.js:12-14 | the invalid set starts empty with Save enabled |
| SettingsValidation.SettingsValidator.OnKeyup | app/assets/js/scripts/settings.js:89-103 | a failing value adds the field and disables Save; a passing one removes it; Save comes back only on the keyup that empties the set; the set always equals the errored fields |
| JvmOptions.SaveJvmOptions | app/assets/js/scripts/settings.js:173-180 | only non-empty whitespace-free options are stored, and nothing is stored exactly for a blank field |
| JvmOptions.SaveKeepsTypedWords | app/assets/js/scripts/settings.js:173-180 | the stored options, shown again joined by spaces, are the typed text trimmed with its whitespace runs collapsed to single spaces |
| JvmOptions.LoadSaveRoundTrip | app/assets/js/scripts/settings.js:131-132 | a stored list of tokens survives being shown and saved again |
| JvmOptions.SaveIsStable | app/assets/js/scripts/settings.js:173-180 | showing and saving a saved list stores the same list |
| RamSetting.ModOnePositiveIff | app/assets/js/scripts/settings.js:196 | `val % 1 > 0` holds exactly for positive numbers with a fractional part |
| RamSetting.LoadRam | app/assets/js/scripts/settings.js:141-148 | an 'M' value loads as its megabytes over 1024, anything else as gigabytes |
| RamSetting.SaveRam | app/assets/js/scripts/settings.js:194-201 | megabytes are stored exactly for positive fractional values, as the value times 1024; whole gigabytes otherwise |
| RamSetting.SaveLoadRoundTrip | app/assets/js/scripts/settings.js:141-148 | every saved value reloads to the slider value it came from |
| RamSetting.MegabytesResaved | app/assets/js/scripts/settings.js:194-201 | "nM" reloads and saves back as "nM" unless n is a multiple of 1024, which comes back as whole gigabytes |
| RamSetting.GigabytesResaved | app/assets/js/scripts/settings.js:194-201 | a stored gigabyte value saves back unchanged when whole, and as megabytes when positive and fractional |
| RangeSliders.SliderMeta.Ticks | app/assets/js/scripts/settings.js:1051 | a sound slider has a positive number of ticks |
| RangeSliders.NotchIsProportion | app/assets/js/scripts/settings.js:1015 | the notch a handler computes is the value's position between min and max, in percent |
| RangeSliders.NotchBounds | app/assets/js/scripts/settings.js:1015 | min sits at notch 0, max at notch 100, and values between them inside the track |
| RangeSliders.NotchMonotone | app/assets/js/scripts/settings.js:1015 | a larger value never sits at a smaller notch |
| RangeSliders.Clamp | app/assets/js/scripts/settings.js:1096-1100 | the notch lands in [0, 100]: kept when inside, moved to the nearer end when outside |
| RangeSliders.NestedUpdate | app/assets/js/scripts/settings.js:1012-1017 | the nested update a handler makes never crosses the sliders again, so its own handler only relabels |
| RangeSliders.UpdateSliderEffect | app/assets/js/scripts/settings.js:1089-1117 | an accepted change keeps the value and the clamped notch; a cancelled one restores the old value and the track; the slider is relabelled; the other slider follows exactly when crossed, unless that nested change is cancelled |
| RangeSliders.UpdateKeepsOrder | app/assets/js/scripts/settings.js:1012-1017 | min ≤ max after any change whose nested update is accepted |
| RangeSliders.CancelledNestedUpdateLeavesCrossed | app/assets/js/scripts/settings.js:1036-1041 | a cancelled nested update can leave max below min |
| RangeSliders.UpdateKeepsNotchesInTrack | app/assets/js/scripts/settings.js:1096-1100 | the tracks never leave [0, 100] |
| RangeSliders.CancelledChangeRestores | app/assets/js/scripts/settings.js:1109-1116 | a cancelled change that crosses nothing changes only the slider's label |
| RangeSliders.RamSliders.constructor | app/assets/js/scripts/settings.js:1045-1054 | the sliders start from the given values and metadata |
| RangeSliders.RamSliders.SetValue | app/assets/js/scripts/settings.js:1094 | `setAttribute('value', ..)` changes one slider's value |
| RangeSliders.RamSliders.SetLabel | app/assets/js/scripts/settings.js:1016-1018 | writing a label changes one slider's label |
| RangeSliders.RamSliders.HandleChange | app/assets/js/scripts/settings.js:996-1043 | the in-place `onchange` handler, as `OnChange` |
| RangeSliders.RamSliders.UpdateRangedSlider | app/assets/js/scripts/settings.js:1089-1117 | the in-place `updateRangedSlider`, as `UpdateSlider` |
| JvmDocs.NatToString | app/assets/js/scripts/settings.js:1144 | a template literal prints a non-negative integer as a non-empty string of digits |
| JvmDocs.NatToStringValue | app/assets/js/scripts/settings.js:1144 | the printed digits denote the number printed |
| JvmDocs.IntToString | app/assets/js/scripts/settings.js:1144 | a printed integer is non-empty and holds no '/' |
| JvmDocs.IntToStringValue | app/assets/js/scripts/settings.js:1144 | reading a printed integer back gives the integer |
| JvmDocs.IntToStringInjective | app/assets/js/scripts/settings.js:1144 | different integers print differently |
| JvmDocs.LinkShape | app/assets/js/scripts/settings.js:1143-1154 | every link is the host, the section (`en/java/javase/` from 11, `javase/` below), the major, '/', and the page for its version range |
| JvmDocs.LinkIdentifiesMajor | app/assets/js/scripts/settings.js:1140-1155 | two equal links have the same major version and, below Java 9, the same platform |
| JvmDocs.PlatformOnlyBeforeJava9 | app/assets/js/scripts/settings.js:1149-1154 | the link depends on the platform exactly below Java 9 |
| JvmDocs.LinkSection | app/assets/js/scripts/settings.js:1143-1154 | the link is under `en/java/javase/` exactly from Java 11 |
| ModConfiguration.SaveModConfiguration | app/assets/js/scripts/settings.js:714-731 | the in-place walk returns what `SaveMods` specifies, or the first id without a switch |
| ModConfiguration.SavePreservesShape | app/assets/js/scripts/settings.js:714-731 | saving never adds, drops, renames or reorders an id, nor changes an entry's kind, at any level |
| ModConfiguration.SaveValuePreservesShape | app/assets/js/scripts/settings.js:717-727 | saving one entry's value keeps its kind and nested ids |
| ModConfiguration.SaveEntrywise | app/assets/js/scripts/settings.js:715-729 | each id has a switch; drop-in and null entries are kept; a boolean becomes its switch's state; an object gets its switch's state as `value` and its saved `mods` |
| ModConfiguration.SaveFailsIffSwitchMissing | app/assets/js/scripts/settings.js:716-717 | saving fails exactly when an id the walk looks up has no switch, and names such an id |
| ModConfiguration.SaveIdempotent | app/assets/js/scripts/settings.js:714-731 | saving a saved configuration with the same switches changes nothing |
| ModConfiguration.SaveValueIdempotent | app/assets/js/scripts/settings.js:717-727 | saving one saved value again changes nothing |
| Selection.OnlyAtSelectsOne | app/assets/js/scripts/settings.js:239-244 | selecting one of n items leaves exactly one selected |
| Selection.MatchingCount | app/assets/js/scripts/settings.js:530-543 | with distinct uuids, a refresh marks one account when the uuid is listed and none otherwise |
| Selection.NavTabs.constructor | app/assets/js/scripts/settings.js:234-249 | the tabs start with only the first selected |
| Selection.NavTabs.SelectTab | app/assets/js/scripts/settings.js:234-249 | a click on a selected tab changes nothing; otherwise exactly that tab is selected and its panel is current |
| Selection.AccountList.constructor | app/assets/js/scripts/settings.js:392-410 | no account starts selected and every button reads 'select' |
| Selection.AccountList.SelectAccount | app/assets/js/scripts/settings.js:392-410 | a click on a selected account changes nothing; otherwise exactly that account is selected, its button reads 'selected', every other previously selected button reads 'select', and its uuid is handed on; labels stay consistent |
| Selection.AccountList.RefreshAuthAccountSelected | app/assets/js/scripts/settings.js:530-543 | exactly the accounts whose uuid matches are selected, and each button reads 'selected' iff it is |

## Left out

- Collaborators are not modelled. Their answers are inputs: the distribution index, the helios-core repair engine, JVM validation and discovery, `latestOpenJDK`, `downloadFile`, `validateLocalFile`, `extractJdk`, `ProcessBuilder`, `DiscordWrapper`, the Mojang REST client, the configuration store and `fetch` of the maintenance flag.
- The network, clocks and real timers are not modelled. A timer is its delay and action, and `Date.now()` is a parameter. The extracting-dots `setInterval` (landing.js:391-399) is not modelled.
- DOM and animation work, language-table texts, HTML templates, the colour thresholds of the RAM bars and the mouse-drag geometry of `bindRangeSlider` are left out. A button label is an enumeration value.
- Floating point is not modelled. Numbers are exact reals, `Math.trunc` of a percentage is integer division, and slider labels keep the number that `toFixed(1)` displays.
- RamSetting.LoadRam: any stored string not ending in 'M' is read as gigabytes. `parseFloat` of malformed text (NaN) is not modelled.
- RangeSliders: slider metadata is assumed sound (`step > 0`, `max > min`); non-finite metadata is not modelled. Both handlers use the maximum slider's metadata, so the model has one metadata value for both.
- RangeSliders.OnChange: the outcome of a nested dispatch is a parameter, because whether listeners cancel the event is outside the script.
- ModConfiguration: the walk returns a new sequence rather than mutating the shared object, so aliasing of `modConf` is not modelled. Non-boolean, non-object mod values are not modelled. A failure returns the id instead of throwing mid-walk; the entries rewritten before the throw are not modelled.
- OutputClassifier: the display name is inserted into `SERVER_JOINED_REGEX` literally. Regular-expression metacharacters in a name are not modelled.
- LaunchSuite: `dlAsync` is modelled on its own. A rejection, such as a failure to load the version manifests, ends the attempt; when the handler awaits it through the scan, the handler's catch shows the failure (`JavaSetup.LaunchGate`'s `ScanFailed`). The log lines are not modelled.
- LaunchSuite: the 'Jouer' relabel is the `Play` label, and concurrent launch attempts are not modelled.
- LaunchSuite.FireTimer: any pending timer may fire. The order their delays impose is not enforced.
- JavaSetup.LaunchGate: a rejection of the `dlAsync` or scan that the maintenance chain starts is not an input. The gate answers `RunDlAsync` or `SystemScan` there, and such a rejection reaches only the chain's logging catch (landing.js:135-137), so nothing is shown.
- JavaSetup.AsyncSystemScan: the overlay's dismiss handlers and the rescan they start are not modelled.
- JavaSetup.DownloadJava: an asset of size 0 is not modelled (`Asset.size` is positive). Its progress reports would be NaN or Infinity, which exact numbers cannot express.
- JavaSetup.DownloadJava: the download is modelled up to the extraction. The configuration store write and the rescan after extraction are not modelled.
- The maintenance script, the Microsoft login IPC handlers, the news and RSS requests, `refreshServerStatus` and `isPrerelease` are not part of this model.

## Findings

| source | as written | input that shows it | evidently intended | confidence | as-written member | corrected member |
|---|---|---|---|---|---|---|
| app/assets/js/scripts/landing.js:316-321 | `downloadJava` is async and called without `await` inside `try`, so its rejection never reaches the `catch`: the Java download failure dialog is never shown and the rejection goes unhandled | the overlay handler when `latestOpenJDK` finds no JDK (asset null), or `downloadFile` rejects, or the hash check fails | `await downloadJava(..)` so that every download failure shows the failure dialog | not executed | JavaSetup.InstallJavaHandlerAsWritten, JavaSetup.MissingJdkGoesUnreported | JavaSetup.InstallJavaHandler, JavaSetup.EveryJavaDownloadFailureReported |
