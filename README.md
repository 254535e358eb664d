# Debug-event callbacks and the CMake build step, modelled in Dafny

This project models two parts of Qt Creator.

**Windows debugger front end** (`cdbdebugeventcallback.cpp`). These are the
callbacks that the Windows debugging engine (dbgeng) notifies about breakpoints,
exceptions, threads, processes and modules:

- `ExceptionFormat`:
  - classifies exception codes as fatal or benign (`isFatalException`);
  - renders an exception record as the diagnostic text that `formatException`
    streams, with and without a stack trace.
- `HexText`: QTextStream's base-16 rendering of numbers, with lowercase digits
  and no leading zeros.
- `DebugEventCallback`: the three callbacks.
  - The primary callback forwards each event to the debugger engine and reports
    fatal exceptions as crashes.
  - The exception logger keeps and shows the text of each exception.
  - The ignoring callback registers for nothing.
- `CallbackRedirection`: `getEventCallback` and `EventCallbackRedirector`. The
  redirector installs a callback on a debug client for its lifetime and puts
  back the previous one when it is destroyed.

**CMake build step** (`cmakebuildstep.cpp`):

- `CmakeProgress`: the output line parser that turns make's `[ 33%]` and
  ninja's `[33/100` lines into progress, and detects ninja.
- `CMakeBuild`:
  - the step's list of targets: defaults, filtering after a project parse,
    saving and restoring;
  - the `cmake --build` command line;
  - the checks `init` makes.

Helper modules:

- `Wrappers` holds `Option`.
- `TextFacts` holds generic sequence facts: containment, suffixes and
  re-association of concatenations.

Engine state that the code changes in place is modelled as classes:

- the engine's received calls;
- the logger's message list;
- the client's callback slot;
- the parser's ninja flag;
- the step's targets, signal counts and ignore-exit-code flag.

Each method is specified against pure functions, and the properties are proved
about those functions.

Conventions of the model:

- **Constants.**
  - The numeric `EXCEPTION_*` and `DEBUG_EVENT_*` values are those of the
    Windows SDK headers.
  - The three private codes are the source's: 0xe06d7363, 0x406d1388 and
    0x6ba.
  - `EXCEPTION_NONCONTINUABLE` is 1.
- **Exception codes** are 32-bit patterns. `isFatalException` takes a `LONG`,
  but its cases compare bit patterns, so a code is a natural below 2^32.
- **Phrases.** The switch's phrases are the source's spellings, including
  "arrary bounds exceeded" and the leading blank of the inexact-result phrase.
- **Stack trace.** What creating and formatting a stack trace yields is a
  parameter: `Some(text)`, or `None` when creation fails.
- **Whitespace and digits.** `\s` and `\d` in the progress patterns are ASCII
  whitespace (space and 9–13) and '0'..'9'.
- **`QString::toInt`** fails on an empty run and on a value above 2147483647.
- **Ninja progress.** The source computes the ninja percentage in double
  precision. For non-negative 32-bit counters the truncated double quotient
  equals the integer quotient `100 * done / all`, and that is what the model
  uses.
- **The build step's inputs** are parameters of the operations that read them:
  - the kit's CMake tool;
  - the active run configuration's build key;
  - the build configuration;
  - the targets the build system knows.
- **Translation** (`tr`) is the identity.

Every exception, fatal or not, is shown as application output before the
crash decision; see `DebugEventCallback.BreakpointThenAccessViolation`.

## Model

| member | source | states |
|---|---|---|
| ExceptionFormat.FatalIffNotBenign | src/plugins/debugger/cdb/cdbdebugeventcallback.cpp:343-355 | A code is not fatal exactly when it is EXCEPTION_BREAKPOINT, EXCEPTION_SINGLE_STEP, the startup-complete trap 0x406d1388 or the RPC-server-unavailable code 0x6ba. The C++ exception code is fatal. |
| ExceptionFormat.IsFatalException | src/plugins/debugger/cdb/cdbdebugeventcallback.cpp:343-355 | isFatalException: false for the four benign codes and true for every other code. FatalIffNotBenign states this as an if-and-only-if. |
| ExceptionFormat.CaseOfIsInverse | src/plugins/debugger/cdb/cdbdebugeventcallback.cpp:245-315 | The switch's labels are distinct. Each code selects the one case that names it. A code selects no case exactly when it is not among the 22 tabled codes. |
| ExceptionFormat.CodeOf | src/plugins/debugger/cdb/cdbdebugeventcallback.cpp:245-315 | Every case label's code is one of the tabled codes. |
| ExceptionFormat.PhraseFacts | src/plugins/debugger/cdb/cdbdebugeventcallback.cpp:246-314 | Every fixed phrase of the switch is non-empty and holds no '('. None starts with 'w' or 'r', so none can be mistaken for an access-violation report. |
| ExceptionFormat.Format | src/plugins/debugger/cdb/cdbdebugeventcallback.cpp:240-322 | formatException: the header, the switch's description, then the flags with the note when they equal EXCEPTION_NONCONTINUABLE, then two newlines. Its shape, its readable header and its note are stated by the lemmas that follow. |
| ExceptionFormat.FormatShape | src/plugins/debugger/cdb/cdbdebugeventcallback.cpp:240-322 | Whatever the record, the text starts with "\nException at 0x" + hex(address) + ", code: 0x" + hex(code) + ": ". It contains ", flags=0x" + hex(flags) and ends with "\n\n". |
| ExceptionFormat.DescriptionEmptyIff | src/plugins/debugger/cdb/cdbdebugeventcallback.cpp:245-315 | The switch writes something between the header and the flags exactly when the code is one of its 22 cases. |
| ExceptionFormat.DescriptionFacts | src/plugins/debugger/cdb/cdbdebugeventcallback.cpp:245-315 | The description is empty exactly when no case matches. It never holds '('. Only an access violation's description starts with 'w' or 'r'. |
| ExceptionFormat.UntabledCodeHasNoPhrase | src/plugins/debugger/cdb/cdbdebugeventcallback.cpp:245-316 | For a code outside the switch, the flags part follows the header directly. |
| ExceptionFormat.AccessViolationReport | src/plugins/debugger/cdb/cdbdebugeventcallback.cpp:252-256 | An access violation is reported as "write" when ExceptionInformation[0] is non-zero and "read" otherwise. After that come " access violation at: 0x" + hex(ExceptionInformation[1]) and then the flags. |
| ExceptionFormat.CharAfterHeader | src/plugins/debugger/cdb/cdbdebugeventcallback.cpp:244-316 | The text is longer than its header. The character after the header opens the description, or is the ',' of the flags when there is no description. |
| ExceptionFormat.AccessKindAfterHeader | src/plugins/debugger/cdb/cdbdebugeventcallback.cpp:252-256 | For w in {"write", "read"}: the header followed by w is a prefix of the text exactly when the record is an access violation of kind w. |
| ExceptionFormat.WriteReportIff | src/plugins/debugger/cdb/cdbdebugeventcallback.cpp:252-256 | The text reports a write access violation exactly when the code is EXCEPTION_ACCESS_VIOLATION and ExceptionInformation[0] != 0. |
| ExceptionFormat.ReadReportIff | src/plugins/debugger/cdb/cdbdebugeventcallback.cpp:252-256 | The text reports a read access violation exactly when the code is EXCEPTION_ACCESS_VIOLATION and ExceptionInformation[0] == 0. |
| ExceptionFormat.NoParenInHex | src/plugins/debugger/cdb/cdbdebugeventcallback.cpp:242 | No hexadecimal rendering holds '('. |
| ExceptionFormat.NoncontinuableNoteIff | src/plugins/debugger/cdb/cdbdebugeventcallback.cpp:316-319 | " (execution cannot be continued)" occurs in the text exactly when ExceptionFlags equals EXCEPTION_NONCONTINUABLE. This is an equality, not a bit test. |
| ExceptionFormat.ReadHeaderOfFormat | src/plugins/debugger/cdb/cdbdebugeventcallback.cpp:242-244 | The header can be parsed back: reading the text recovers the faulting address and the code. |
| ExceptionFormat.FormatDeterminesHeader | src/plugins/debugger/cdb/cdbdebugeventcallback.cpp:242-244 | Two records with the same text have the same address and code. |
| ExceptionFormat.FormatWithTrace | src/plugins/debugger/cdb/cdbdebugeventcallback.cpp:325-341 | The trace variant of formatException: the plain text, followed by "at:" and the trace only for a C++ exception whose trace could be created. TraceSection states this. |
| ExceptionFormat.TraceSection | src/plugins/debugger/cdb/cdbdebugeventcallback.cpp:325-341 | The trace variant always starts with the plain text. It equals the plain text unless the code is 0xe06d7363 and the trace could be created. In that case it appends exactly "at:\n" + trace + "\n". |
| HexText.HexIsCanonical | src/plugins/debugger/cdb/cdbdebugeventcallback.cpp:242 | A base-16 rendering is non-empty lowercase hex without leading zeros; it starts with '0' only for zero. |
| HexText.HexRoundTrip | src/plugins/debugger/cdb/cdbdebugeventcallback.cpp:242 | Reading a base-16 rendering back gives the number rendered. |
| HexText.CanonicalRoundTrip | src/plugins/debugger/cdb/cdbdebugeventcallback.cpp:242 | Every canonical hex string is the rendering of its value, so rendering is a bijection onto canonical strings. |
| HexText.HexInjective | src/plugins/debugger/cdb/cdbdebugeventcallback.cpp:242 | Different numbers have different renderings. |
| HexText.HexRunOfDigitsThen | src/plugins/debugger/cdb/cdbdebugeventcallback.cpp:243-244 | A hex rendering followed by a non-hex character is scanned as exactly that rendering. This is what makes the header unambiguous. |
| DebugEventCallback.PrimaryInterestMask | src/plugins/debugger/cdb/cdbdebugeventcallback.cpp:221-229 | The primary callback wants exactly breakpoint, exception, thread creation and exit, process creation and exit, and module load and unload events. |
| DebugEventCallback.LoggerInterestMask | src/plugins/debugger/cdb/cdbdebugeventcallback.cpp:503-507 | The exception logger wants exception events and nothing else. |
| DebugEventCallback.IgnoreInterestMask | src/plugins/debugger/cdb/cdbdebugeventcallback.cpp:531-535 | The ignoring callback wants no event at all. |
| DebugEventCallback.Response | src/plugins/debugger/cdb/cdbdebugeventcallback.cpp:231-493 | The engine calls the primary callback makes for one event, handler by handler. CrashNotifiedIffFatal, RespondsIffWanted and CrashCountOfRun state its properties. |
| DebugEventCallback.CrashNotifiedIffFatal | src/plugins/debugger/cdb/cdbdebugeventcallback.cpp:357-375 | For one event, the engine is told of a crash exactly once if the event is an exception with a fatal code, and never otherwise. An exception's first call always shows its formatted text with the trace. |
| DebugEventCallback.RespondsIffWanted | src/plugins/debugger/cdb/cdbdebugeventcallback.cpp:221-493 | The primary callback calls the engine exactly for the events its interest mask registers. System errors, session status and state changes cause no call. |
| DebugEventCallback.CrashCountOfRun | src/plugins/debugger/cdb/cdbdebugeventcallback.cpp:357-375 | Over any sequence of events, the number of crash notifications equals the number of fatal exceptions. |
| DebugEventCallback.CdbDebugEventCallback.Handle | src/plugins/debugger/cdb/cdbdebugeventcallback.cpp:231-493 | Each handler appends exactly its event's calls to the engine. These are: breakpoint handling; output and then, for a fatal code, a crash; a thread-list update on thread creation or exit; process attach with the process and initial-thread handles; termination with the exit code; module load with its name; a module update on unload. System errors and the base handlers add nothing. |
| DebugEventCallback.CdbDebugEventCallback.GetInterestMask | src/plugins/debugger/cdb/cdbdebugeventcallback.cpp:221-229 | Returns the primary mask. |
| DebugEventCallback.CdbExceptionLoggerEventCallback.GetInterestMask | src/plugins/debugger/cdb/cdbdebugeventcallback.cpp:503-507 | Returns the logger's mask, which wants exception events only. |
| DebugEventCallback.CdbExceptionLoggerEventCallback.Handle | src/plugins/debugger/cdb/cdbdebugeventcallback.cpp:509-524 | An exception adds exactly one message, the plain text of the record, and leaves earlier ones unchanged. It shows (log prefix, that text). Any other event changes nothing. |
| DebugEventCallback.BreakpointThenAccessViolation | src/plugins/debugger/cdb/cdbdebugeventcallback.cpp:357-375 | A breakpoint exception followed by an access violation produces: output for the breakpoint, output for the access violation, one crash notification. |
| DebugEventCallback.LoggerSession | src/plugins/debugger/cdb/cdbdebugeventcallback.cpp:509-524 | Two exceptions with a thread event between them leave the logger with exactly those two texts, in order. Both are shown under the logger's prefix. |
| CallbackRedirection.GetEventCallback | src/plugins/debugger/cdb/cdbdebugeventcallback.cpp:206-212 | The installed callback when the query succeeds, and null when it fails. |
| CallbackRedirection.EventCallbackRedirector.constructor | src/plugins/debugger/cdb/cdbdebugeventcallback.cpp:538-543 | Saves what getEventCallback returned, then installs the new callback. |
| CallbackRedirection.EventCallbackRedirector.Restore | src/plugins/debugger/cdb/cdbdebugeventcallback.cpp:545-548 | The destructor reinstalls the saved callback. |
| CallbackRedirection.NestedRedirection | src/plugins/debugger/cdb/cdbdebugeventcallback.cpp:538-548 | With nested redirectors destroyed in reverse order, each callback is installed while its redirector lives. The inner one's end restores the outer callback, and the outer one's end restores the original. |
| CallbackRedirection.CrossedRedirection | src/plugins/debugger/cdb/cdbdebugeventcallback.cpp:538-548 | Destroyed in construction order, the redirectors leave the outer callback installed rather than the original. |
| CallbackRedirection.RedirectionAfterFailedQuery | src/plugins/debugger/cdb/cdbdebugeventcallback.cpp:538-548 | When the slot cannot be queried, the redirector saves null. After it ends no callback is installed, whatever was there before. |
| CmakeProgress.SpaceRun | src/plugins/cmakeprojectmanager/cmakebuildstep.cpp:75-76 | Returns the end of the longest whitespace run from a position; the greedy `\s*`. |
| CmakeProgress.DigitRun | src/plugins/cmakeprojectmanager/cmakebuildstep.cpp:75-76 | Returns the end of the longest digit run from a position; the greedy `\d*`. |
| CmakeProgress.MatchPercentIff | src/plugins/cmakeprojectmanager/cmakebuildstep.cpp:75-79 | The scanner returns capture d exactly when `^\[\s*(\d*)%\]` matches the line with capture d. |
| CmakeProgress.MatchNinjaIff | src/plugins/cmakeprojectmanager/cmakebuildstep.cpp:76-87 | The scanner returns captures (d1, d2) exactly when `^\[\s*(\d*)/\s*(\d*)` matches the line with those greedy captures. |
| CmakeProgress.PatternsExclusive | src/plugins/cmakeprojectmanager/cmakebuildstep.cpp:78-99 | No line matches both patterns. The percent pattern's priority therefore never changes an outcome. |
| CmakeProgress.ToInt | src/plugins/cmakeprojectmanager/cmakebuildstep.cpp:81-92 | A capture converts exactly when it is a non-empty digit run of value at most 2147483647, and then to that value. |
| CmakeProgress.ToIntOfDecimal | src/plugins/cmakeprojectmanager/cmakebuildstep.cpp:81-92 | A printed counter up to 2147483647 converts back to itself. |
| CmakeProgress.Classify | src/plugins/cmakeprojectmanager/cmakebuildstep.cpp:75-99 | Which pattern a line matches. The percent pattern is tried first. Each match carries the progress its captures convert to. MatchPercentIff, MatchNinjaIff and PatternsExclusive tie it to the two regular expressions. |
| CmakeProgress.Outcome | src/plugins/cmakeprojectmanager/cmakebuildstep.cpp:70-101 | handleLine's status and emitted progress: NotHandled for other formats and for unmatched lines, and Done with the line's progress for a match. |
| CmakeProgress.NinjaProgress | src/plugins/cmakeprojectmanager/cmakebuildstep.cpp:89-97 | Progress is emitted exactly when both counters convert and `all` is not zero. It lies in 0..100 when done <= all. |
| CmakeProgress.PercentWithoutDigits | src/plugins/cmakeprojectmanager/cmakebuildstep.cpp:78-85 | "[%]" and any line that starts with it are handled (Done) without emitting progress. |
| CmakeProgress.PercentLineOf | src/plugins/cmakeprojectmanager/cmakebuildstep.cpp:78-85 | A make line "[n%]…" reports progress n. |
| CmakeProgress.NinjaLineOf | src/plugins/cmakeprojectmanager/cmakebuildstep.cpp:86-98 | Ninja's status "[done/all …" with all > 0 reports 100 * done / all, truncated. |
| CmakeProgress.NinjaWithoutCounters | src/plugins/cmakeprojectmanager/cmakebuildstep.cpp:86-98 | A line starting "[/" is a ninja line even though no counter converts. It emits no progress. |
| CmakeProgress.DetectedAfterIff | src/plugins/cmakeprojectmanager/cmakebuildstep.cpp:88-106 | After a sequence of lines, redirection is detected exactly when it already was, or some line was a ninja line on standard output. Nothing resets it. |
| CmakeProgress.CmakeProgressParser.HandleLine | src/plugins/cmakeprojectmanager/cmakebuildstep.cpp:70-101 | Lines not on standard output return NotHandled, emit nothing and change nothing. Make lines return Done with their progress. Ninja lines return Done, set the ninja flag and report their progress. Other lines return NotHandled. |
| CmakeProgress.CmakeProgressParser.HasDetectedRedirection | src/plugins/cmakeprojectmanager/cmakebuildstep.cpp:102-106 | Reports the ninja flag. DetectedAfterIff states when it is set. |
| CmakeProgress.DetectionSession | src/plugins/cmakeprojectmanager/cmakebuildstep.cpp:70-106 | A make line reports its percentage and leaves redirection undetected. A ninja line reports its ratio and detects redirection. Redirection stays detected whatever line comes next. |
| CMakeBuild.SpecialTargets | src/plugins/cmakeprojectmanager/cmakebuildstep.cpp:412-415 | Four distinct special targets. |
| CMakeBuild.DefaultBuildTarget | src/plugins/cmakeprojectmanager/cmakebuildstep.cpp:321-331 | defaultBuildTarget: "clean", "install" or "all" by step list, and "" outside a list. DefaultBuildTargetIsSpecial states its properties. |
| CMakeBuild.DefaultBuildTargetIsSpecial | src/plugins/cmakeprojectmanager/cmakebuildstep.cpp:321-331 | "clean" is the default exactly for the clean list and "install" exactly for the deploy list. The default is never "test". It is a special target exactly when the step is in a list; otherwise the empty string. |
| CMakeBuild.IndexOfSpec | src/plugins/cmakeprojectmanager/cmakebuildstep.cpp:364 | indexOf returns -1 exactly when the pattern does not occur; otherwise it returns the first occurrence. |
| CMakeBuild.BuildKeyTarget | src/plugins/cmakeprojectmanager/cmakebuildstep.cpp:363-367 | The target part of a build key: what follows the first "///::///", or the whole key. The three lemmas that follow state its behaviour. |
| CMakeBuild.BuildKeyWithoutSeparator | src/plugins/cmakeprojectmanager/cmakebuildstep.cpp:363-367 | A build key without "///::///" is used whole. |
| CMakeBuild.BuildKeySplit | src/plugins/cmakeprojectmanager/cmakebuildstep.cpp:363-367 | For a key "file///::///target", the target is everything after the separator, even when the target holds the separator again. The file part must not contain the separator and must not end in '/' or ':'; a project file path meets both. |
| CMakeBuild.PathBuildKey | src/plugins/cmakeprojectmanager/cmakebuildstep.cpp:363-367 | The key "/p/CMakeLists.txt///::///app" builds the target "app". |
| CMakeBuild.BuildKeyTargetIsSuffix | src/plugins/cmakeprojectmanager/cmakebuildstep.cpp:363-367 | The extracted target always ends the build key. |
| CMakeBuild.TargetArguments | src/plugins/cmakeprojectmanager/cmakebuildstep.cpp:359-373 | One argument per target, in order, each being that target's translation. |
| CMakeBuild.CMakeCommand | src/plugins/cmakeprojectmanager/cmakebuildstep.cpp:351-384 | cmakeCommand: the tool's executable, or none without a tool, with the argument list. CMakeCommandLayout states its layout. |
| CMakeBuild.CurrentExecutableArgument | src/plugins/cmakeprojectmanager/cmakebuildstep.cpp:359-373 | Ordinary targets pass through unchanged. "Current executable" becomes the build key's target when there is a run configuration, and the marked-up placeholder "<i>&lt;Current executable&gt;</i>" without one. |
| CMakeBuild.CMakeCommandLayout | src/plugins/cmakeprojectmanager/cmakebuildstep.cpp:351-384 | The arguments are "--build", ".", "--target", then one argument per target in order. After them come the raw CMake arguments, only when non-empty, then "--" and the raw tool arguments, only when non-empty. |
| CMakeBuild.FilterKnown | src/plugins/cmakeprojectmanager/cmakebuildstep.cpp:173-175 | Utils::filtered over knownBuildTargets. FilterKnownSpec and FilterKnownIdempotent state its properties. |
| CMakeBuild.FilterKnownSpec | src/plugins/cmakeprojectmanager/cmakebuildstep.cpp:173-175 | Filtering keeps an order-preserving subsequence. A target is kept exactly when it is in the list and known, and each known target is kept as often as it occurs. |
| CMakeBuild.FilterKnownIdempotent | src/plugins/cmakeprojectmanager/cmakebuildstep.cpp:173-175 | Filtering a filtered list changes nothing. |
| CMakeBuild.Retargeted | src/plugins/cmakeprojectmanager/cmakebuildstep.cpp:169-182 | The list after a successful parse: the filtered list, or the default target when the filter empties it. RetargetedSpec states its properties. |
| CMakeBuild.RetargetedSpec | src/plugins/cmakeprojectmanager/cmakebuildstep.cpp:169-182 | After a successful parse the list is never empty. When some target is known it is exactly the filtered list, an order-preserving subsequence. Otherwise it is just the default target. |
| CMakeBuild.TargetsFromMap | src/plugins/cmakeprojectmanager/cmakebuildstep.cpp:192-196 | The target list fromMap restores: ["Current executable"] when the add-run-configuration flag converts to true, and otherwise the stored list converted with toStringList. |
| CMakeBuild.TargetsRoundTrip | src/plugins/cmakeprojectmanager/cmakebuildstep.cpp:184-199 | Restoring saved settings gives back the saved target list. If the settings carry the old add-run-configuration flag, the list is exactly ["Current executable"]. |
| CMakeBuild.ArgumentsRoundTrip | src/plugins/cmakeprojectmanager/cmakebuildstep.cpp:184-199 | Saving and then restoring gives back both argument strings. Storing the target list does not disturb them. |
| CMakeBuild.InitErrors | src/plugins/cmakeprojectmanager/cmakebuildstep.cpp:203-229 | The checks init makes, in order: a disabled configuration, a missing or invalid CMake tool, and "Current executable" without a build key. InitErrorsIff states each condition. |
| CMakeBuild.InitErrorsIff | src/plugins/cmakeprojectmanager/cmakebuildstep.cpp:203-234 | Each init error is reported exactly on its own condition. The conditions are: the configuration is disabled; no valid CMake tool; "Current executable" is a target while there is no run configuration or its build key is empty. Init can proceed exactly when none holds. |
| CMakeBuild.CMakeBuildStep.constructor | src/plugins/cmakeprojectmanager/cmakebuildstep.cpp:131-162 | A new step builds exactly its list's default target and emits one targets change. |
| CMakeBuild.CMakeBuildStep.SetBuildTargets | src/plugins/cmakeprojectmanager/cmakebuildstep.cpp:343-349 | The targets become exactly the argument. The change signal is emitted only when the list differs; nothing else changes. |
| CMakeBuild.CMakeBuildStep.HandleBuildTargetsChanges | src/plugins/cmakeprojectmanager/cmakebuildstep.cpp:169-182 | A failed parse changes nothing. A successful one retargets the list and emits targetsToBuildChanged exactly when the list changes. It always emits buildTargetsChanged. |
| CMakeBuild.CMakeBuildStep.ToMap | src/plugins/cmakeprojectmanager/cmakebuildstep.cpp:184-190 | toMap: the base step's settings with both argument aspects, plus the target list as a string list. TargetsRoundTrip and ArgumentsRoundTrip state what restoring gives back. |
| CMakeBuild.CMakeBuildStep.FromMap | src/plugins/cmakeprojectmanager/cmakebuildstep.cpp:192-199 | The targets become the stored list, or ["Current executable"] when the flag is set. The two argument strings are read from their keys. Returns the base step's verdict. |
| CMakeBuild.CMakeBuildStep.Init | src/plugins/cmakeprojectmanager/cmakebuildstep.cpp:201-255 | Without a build configuration, init fails silently. Otherwise every failed check is reported and any of them stops init. A passing step ignores the exit code exactly when its targets are ["clean"]. It gets the cmake command line and returns the base step's verdict. |
| CMakeBuild.TargetLifecycle | src/plugins/cmakeprojectmanager/cmakebuildstep.cpp:131-255 | A step whose only target vanished falls back to "all". Restored from old settings, it builds "Current executable". Without a build key, init then fails with exactly that error. |

## Left out

- COM plumbing: `QueryInterface`, `AddRef` and `Release` of the callback base.
  `QueryInterface` answers for `IDebugOutputCallbacks` rather than the event
  interface, which the model does not capture. The engine calls each named
  handler directly; here `Handle` stands for that family of handlers.
- HRESULT results: every handler returns `S_OK`, which is not modelled.
- Engine internals are recorded as calls and not modelled further:
  - breakpoint handling;
  - thread-list updates;
  - process attach and termination;
  - module load and update;
  - `notifyCrashed`;
  - `showApplicationOutput`.
- Logging under `debugCDB` and the `SystemError` handler's `qDebug` output.
- Stack-trace creation and formatting, and `GetCurrentThreadId`: the trace is a
  given `Option<string>`.
- `QString::fromUtf16` decoding: module names are given strings.
- ExceptionFormat.Format: `NumberParameters` is not consulted, like in the
  source. ExceptionInformation is always the full 15-entry array.
- CmakeProgress.NinjaProgress: when done > all, the percentage can exceed the
  int range (up to 100 * 2147483647). There, `static_cast<int>` of the double is
  undefined behaviour in C++, but the model returns the exact integer quotient.
- PCRE's Unicode whitespace and digit classes: only ASCII is modelled.
- The progress signal and `targetsToBuildChanged` / `buildTargetsChanged` are
  modelled as returned values and emission counters. Their receivers are not
  modelled.
- In the CMake step:
  - the configuration widget;
  - the asynchronous `doRun` / `handleProjectWasParsed` flow;
  - the environment modifier that sets NINJA_STATUS;
  - `setupOutputFormatter`;
  - the `CMakeCache.txt` warning, which needs the file system;
  - `setupProcessParameters`.
- CMakeBuild.CMakeBuildStep.FromMap: `BuildStep::fromMap` is not part of this
  model.
  - The model assumes it restores each argument aspect as `QVariant::toString`
    of the value under the aspect's settings key, "" when absent.
  - Its verdict is a parameter.
- CMakeBuild.CMakeBuildStep.Init: the task messages' texts and
  `emitFaultyConfigurationMessage` are reduced to an error list.
  `AbstractProcessStep::init`'s verdict is a parameter.
- `Utils::CommandLine`'s quoting: arguments are kept as a list of plain and raw
  entries, not joined into one string.
- `knownBuildTargets`, `buildTargets`, `buildsBuildTarget` and
  `cmakeBuildConfiguration` are lookups. The known targets are a parameter.
- Kit and tool lookup, and translation of user-visible strings.
