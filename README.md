# nvidia-init-rs in Dafny

A model of the init process of a confidential-computing guest with NVIDIA GPUs,
along with proofs about it. The model covers these parts of the process:

- **Kernel command line** (`ProcCmdline`, proc_cmdline.dfy). `/proc/cmdline`
  is split on Unicode whitespace, and each token is split at its first `=`.
  Every key with a registered handler has its handler applied, in order, to a
  mutable parameter context. The first handler error ends the pass.
- **PCI scan** (`GetDevices`, get_devices.dfy). The entries of the PCI
  `devices` directory are scanned in order. The vendor, class and device files
  are read and trimmed; an unreadable file reads as the empty string. The
  scan keeps NVIDIA VGA and 3D controllers. It returns the bus addresses and
  the device ids as two sequences.
- **Support gate** (`CheckSupported`, check_supported.dfy). Every device id
  must equal a whole line of the allow-list file. A missing file means "not
  supported". A file that cannot be opened is an error.
- **Confidential-computing mode** (`QueryCcMode`, query_cc_mode.dfy). The GPU
  tool runs once per bus address. Its output means "on" when it contains
  `CC mode is on`, and "off" otherwise. The first GPU sets the consensus, and
  the first GPU that disagrees is an error. No GPUs is also an error.
- **CPU vendor** (`CpuVendor`, cpu_vendor.dfy). The first line of
  `/proc/cpuinfo` that matches the AMD, Intel or ARM rule decides the vendor.
  The rules are tried in that order within a line.
- **The process itself** (`Init`, supervisor.dfy). The boot stage leaves the
  support verdict unenforced. The fork follows: the parent execs the system
  init program and the child supervises. Each supervision pass waits for a
  device event, then rescans and requires GPUs that agree on their mode and
  are all supported. Only then does it provision the container toolkit.
  Every error is fatal.

`Text` (text.dfy) defines the Rust string operations the program relies on:
`char::is_whitespace`, `str::trim`, `str::split_whitespace`,
`str::split_once`, `str::contains` and `BufRead::lines`. Next to each of these
functions is a lemma that says what it means. `Results` (results.dfy) holds
`Option` and `Result`.

The code that updates state in place keeps its form in the model:

- The parameter context is a class, `ParamContext`, whose fields the handler
  methods assign.
- The command-line loop, the PCI scan and the mode query are methods with
  loops. Each is proved equal to a specification function over its inputs.
- The process is a class, `Supervisor`, whose `phase` field moves from
  `Booting` through `Booted`, and then to `Supervising(n)`, `HandedOff`,
  `ParentReturned` or `Stopped(reason)`. No method accepts `Stopped`, so a
  fatal error is final.

The boot-stage checks can be read as informational: the CPU vendor, for
instance, is only logged. In the code, though, each of them unwraps its
result (src/main.rs:36-47), so the model makes every boot-stage error fatal.
Only the support verdict itself is dropped (`Init.BootChecksAreFatal`,
`Init.BootIgnoresSupportVerdict`).

Collaborators appear as values:

- files are `Option` strings or line-read sequences;
- the GPU tool is a function from bus address to tool run;
- the container toolkit is a function from the context to a result.

## Model

| member | source | states |
|---|---|---|
| Text.IsWhitespace | src/proc_cmdline.rs:35 | definition: `char::is_whitespace`, the Unicode White_Space characters |
| Text.Trim | src/get_devices.rs:18-21 | definition: `str::trim`, left trim then right trim (its meaning is in the lemmas below) |
| Text.TrimStartSplits | src/get_devices.rs:18-21 | the input is an all-whitespace prefix followed by the left-trimmed string, which starts with a non-whitespace character or is empty |
| Text.TrimEndSplits | src/get_devices.rs:18-21 | the input is the right-trimmed string followed by an all-whitespace suffix, and the right-trimmed string ends with a non-whitespace character or is empty |
| Text.TrimSplits | src/get_devices.rs:18-21 | `trim` removes exactly a whitespace prefix and a whitespace suffix: the input is lead + result + trail, and the result is empty or has non-whitespace characters at both ends |
| Text.TrimStartPadded | src/get_devices.rs:18-21 | left-trimming whitespace padding in front of a string that starts with a non-whitespace character gives that string |
| Text.TrimEndPadded | src/get_devices.rs:18-21 | right-trimming whitespace padding after a string that ends with a non-whitespace character gives that string |
| Text.TrimPadded | src/get_devices.rs:18-21 | trimming any whitespace padding around a core with non-whitespace ends gives the core back |
| Text.TrimUnpadded | src/get_devices.rs:18-21 | a string with non-whitespace ends is its own trim |
| Text.WordEnd | src/proc_cmdline.rs:35 | the measured run has no whitespace, and it stops at the end or at a whitespace character |
| Text.SplitWhitespace | src/proc_cmdline.rs:35 | every token that `split_whitespace` yields is non-empty and free of whitespace; how the text is cut is stated by the three lemmas that follow it |
| Text.WordEndAt | src/proc_cmdline.rs:35 | a word followed by whitespace or by nothing ends where that word ends |
| Text.SplitJoinWords | src/proc_cmdline.rs:35 | splitting words joined by single spaces gives back exactly those words, in order |
| Text.SplitWhitespaceSkipsBlanks | src/proc_cmdline.rs:35 | whitespace in front of the text yields no token, so leading blanks and runs of separators (tabs included) are skipped |
| Text.SplitWhitespaceWord | src/proc_cmdline.rs:35 | a word followed by whitespace or by the end of the text is the next token, and splitting goes on after it |
| Text.SplitWordBlank | src/proc_cmdline.rs:35 | a word followed by one blank is a single token |
| Text.SplitTwoWordsNested | src/proc_cmdline.rs:35 | two words, each followed by one blank, split into those two words |
| Text.SplitTwoWordsTrailingBlank | src/proc_cmdline.rs:35 | two words, each followed by one blank, split into exactly those two words: a trailing blank adds no token |
| Text.IndexOf | src/proc_cmdline.rs:36 | the index is the first occurrence of the character, or the length when the character is absent |
| Text.IndexOfFirst | src/proc_cmdline.rs:36 | in a + [c] + b with no c in a, the first c is at index \|a\| |
| Text.SplitOnce | src/proc_cmdline.rs:36 | the result is None iff the separator is absent; otherwise key + separator + value is the token and the key contains no separator (the split is at the first one) |
| Text.SplitOnceAtFirst | src/proc_cmdline.rs:36 | a key without the separator, followed by the separator and any value, splits back into that key and value |
| Text.Contains | src/cpu_vendor.rs:12-16 | the result is true iff the pattern occurs at some position |
| Text.ContainsInfix | src/cpu_vendor.rs:12-16 | a string contains every pattern that appears in it as an infix |
| Text.ContainsInConcat | src/cpu_vendor.rs:12-16 | a pattern contained in either part is contained in the concatenation |
| Text.AbsentCharRulesOut | src/query_cc_mode.rs:20 | a string that lacks one of the pattern's characters does not contain the pattern |
| Text.Lines | src/check_supported.rs:22-25 | no line that `lines` yields contains a newline; how the text is cut is stated by the lemmas that follow it |
| Text.LinesCutAtNewline | src/check_supported.rs:22-25 | the text up to the first newline is the first line, without a CR just before the newline, and the rest is read on |
| Text.LastLineKept | src/check_supported.rs:22-25 | a last line without a newline is kept as it is, CR included |
| Text.LinesOfJoinLines | src/check_supported.rs:22-25 | reading newline-terminated lines gives back exactly those lines, in order |
| ProcCmdline.Apply | src/proc_cmdline.rs:46-57 | definition: what each handler does to the context, and whether it fails |
| ProcCmdline.KeyValue | src/proc_cmdline.rs:36 | definition: a token's key and value, split at its first '=' |
| ProcCmdline.Dispatch | src/proc_cmdline.rs:35-41 | definition: the pass over the tokens; split at the first '=', registered keys apply their handler, and the first failure stops the pass |
| ProcCmdline.ParamContext.constructor | src/proc_cmdline.rs:9-13 | the context holds the given debug flag and clock value |
| ProcCmdline.NvidiaInitDebug | src/proc_cmdline.rs:46-50 | never fails; debug is set iff the value is exactly "1"; the clock value is unchanged |
| ProcCmdline.NvidiaSmiLgc | src/proc_cmdline.rs:53-57 | never fails; stores the value as the clock value; debug is unchanged |
| ProcCmdline.CallHandler | src/proc_cmdline.rs:38 | the new context and the error are those of the handler's specification applied to the old context |
| ProcCmdline.CmdlineText | src/proc_cmdline.rs:24-33 | definition: the text to parse, the caller's command line if given, else the contents of /proc/cmdline (None when it cannot be read) |
| ProcCmdline.ProcessKernelParams | src/proc_cmdline.rs:19-44 | an unreadable command line is an error that leaves the context as it was; otherwise the new context is that of a dispatch pass over the whitespace-separated tokens, and the result is an error iff a handler failed, carrying that handler's message |
| ProcCmdline.FailureStopsDispatch | src/proc_cmdline.rs:35-41 | once a handler fails, the tokens after it change nothing |
| ProcCmdline.DispatchInOrder | src/proc_cmdline.rs:35-41 | a pass over before + after, when before has no failure, is the pass over after, run from the context before leaves |
| ProcCmdline.UnregisteredTokensIgnored | src/proc_cmdline.rs:36-37 | tokens without '=' or with an unregistered key have no effect |
| ProcCmdline.BootHandlers | src/main.rs:25-26 | definition: the boot handler table, with only the debug key registered |
| ProcCmdline.BootDispatchLastWins | src/proc_cmdline.rs:35-50 | with only the debug handler registered, a pass never fails, the last debug token decides debug, and the clock value stays as it was |
| ProcCmdline.LgcTokenParts | src/proc_cmdline.rs:87 | the clock token splits into its key and "1500" |
| ProcCmdline.DebugTokenParts | src/proc_cmdline.rs:36 | a debug token splits into the debug key and everything after the first '=' |
| ProcCmdline.DebugBetweenOtherTokens | src/proc_cmdline.rs:35-50 | with only the debug handler, a debug token between two tokens for another key sets debug from its value and changes nothing else |
| ProcCmdline.DebugBetweenClockTokens | src/proc_cmdline.rs:73-118 | the unit tests' token sequences: debug ends up on for "1" and off for "0", and the clock value stays unset |
| ProcCmdline.TestCommandLineTokens | src/proc_cmdline.rs:87-91 | the unit tests' command lines split into the clock token, the debug token and the clock token |
| ProcCmdline.JoinThreeWords | src/proc_cmdline.rs:35 | three words joined by single spaces |
| ProcCmdline.DebugBetweenClockTokensText | src/proc_cmdline.rs:73-118 | the same for the unit tests' command lines given as text |
| ProcCmdline.EmptyDebugValueIsOff | src/proc_cmdline.rs:119-135 | on the third unit test's tokens, an empty debug value turns debug off, whatever debug was before |
| ProcCmdline.EmptyDebugTestCommandLineTokens | src/proc_cmdline.rs:131 | the third unit test's command line, trailing blank included, splits into the clock token and the empty debug token |
| ProcCmdline.EmptyDebugValueIsOffText | src/proc_cmdline.rs:119-135 | the third unit test on its command-line text: debug stays off |
| GetDevices.Descriptor | src/get_devices.rs:18-21 | definition: a descriptor file's trimmed contents, or "" when the file cannot be read |
| GetDevices.IsNvidiaGpu | src/get_devices.rs:31 | definition: vendor 0x10de and class 0x030000 or 0x030200 |
| GetDevices.Bdfs | src/get_devices.rs:32-35 | definition: the names of the selected entries that have a valid name, in scan order |
| GetDevices.DeviceIds | src/get_devices.rs:37-43 | definition: the trimmed device file of each selected entry, in scan order |
| GetDevices.Enumerate | src/get_devices.rs:10-47 | definition: what the scan returns for a listing |
| GetDevices.GetGpuDevices | src/get_devices.rs:5-48 | the loop computes the scan's specification: its result is the `Enumerate` of the listing |
| GetDevices.EnumerationCases | src/get_devices.rs:10-47 | an unreadable directory, or any unreadable entry, is an error; otherwise the result is the bus addresses and the device ids of the selected entries, in scan order |
| GetDevices.ScanStep | src/get_devices.rs:10-45 | scanning one more entry appends that entry's contribution to each output |
| GetDevices.SelectedConcat | src/get_devices.rs:10-45 | the selection keeps scan order: the selection of a + b is the selection of a followed by that of b |
| GetDevices.SelectedMembers | src/get_devices.rs:30-31 | a device is selected iff its entry is in the listing and it has the NVIDIA vendor id and a VGA or 3D controller class |
| GetDevices.DeviceIdsFollowSelection | src/get_devices.rs:37-43 | there is one device id per selected device, and the k-th id is the trimmed device file of the k-th selected device |
| GetDevices.BdfsFollowSelection | src/get_devices.rs:32-35 | when every selected device has a valid name, the k-th bus address is the k-th selected device's name |
| GetDevices.BdfsAreSelectedNames | src/get_devices.rs:32-35 | in every case, named or not, the bus addresses are exactly the valid names of the selected devices, in scan order; an unnamed GPU is skipped and later ones still count |
| GetDevices.NamesOfConcat | src/get_devices.rs:32-35 | the names of two runs of devices are the names of the first followed by those of the second, so one unnamed device does not end the list |
| GetDevices.OutputsAligned | src/get_devices.rs:32-43 | when every selected device has a valid name, both outputs have equal length, and index k of both describes the same device |
| GetDevices.BdfsNoLongerThanIds | src/get_devices.rs:32-43 | there are never more bus addresses than device ids |
| GetDevices.UnnamedGpuBreaksAlignment | src/get_devices.rs:33-35 | a selected device without a valid name makes the bus-address list strictly shorter than the id list |
| GetDevices.UnreadableDescriptorNeverSelected | src/get_devices.rs:18-31 | a device whose vendor or class file cannot be read is never selected |
| GetDevices.TrimmedDescriptorsSelected | src/get_devices.rs:18-31 | descriptor files with a trailing newline still match the NVIDIA vendor and both display classes |
| GetDevices.NoMatchEmpty | src/get_devices.rs:30-47 | without a selected entry, both outputs are empty |
| GetDevices.ScanOfThree | src/get_devices.rs:10-45 | a scan of two selected named entries followed by one unselected entry reports the first two, in order |
| GetDevices.MockSelection | src/get_devices.rs:72-84 | the filter keeps both NVIDIA devices of the mock bus and drops the third |
| GetDevices.MockPciScan | src/get_devices.rs:56-99 | the unit test's mock bus gives the two GPUs' addresses and ids, and leaves out the third device |
| CheckSupported.AllListed | src/check_supported.rs:27-34 | the early-return search is true iff every id is one of the lines |
| CheckSupported.CheckGpuSupported | src/check_supported.rs:6-35 | a missing file gives false; a file that cannot be opened gives an error; otherwise the result is true iff every id equals a whole line of the file |
| CheckSupported.FirstUnlistedDecides | src/check_supported.rs:27-32 | the first unlisted id gives false, whatever ids follow it |
| CheckSupported.LineOrderIrrelevant | src/check_supported.rs:22-28 | only the set of lines matters, not their order or their repetitions |
| CheckSupported.FewerIdsStaySupported | src/check_supported.rs:27-34 | any subset of a supported id set is supported |
| CheckSupported.NoIdsSupported | src/check_supported.rs:27-34 | an empty id list is supported by any file that exists and can be opened |
| CheckSupported.NoTrimmingOfLines | src/check_supported.rs:22-28 | lines are compared whole: a line with a trailing blank does not list the id |
| CheckSupported.CrLfLinesMatch | src/check_supported.rs:22-25 | a line that ends in CR LF is read without the CR, so it lists the id |
| CheckSupported.PartlyListedScenario | src/check_supported.rs:27-32 | an allow list that holds "1234" does not support the ids "1234" and "5678" |
| CheckSupported.UnterminatedLastLineCounts | src/check_supported.rs:22-28 | a last line without a newline still lists its id |
| QueryCcMode.Classify | src/query_cc_mode.rs:20-24 | definition: on when the output contains the marker, off otherwise |
| QueryCcMode.Resolve | src/query_cc_mode.rs:5-39 | definition: the consensus fold over the bus addresses |
| QueryCcMode.QueryGpuCcMode | src/query_cc_mode.rs:4-40 | the loop computes the consensus fold, and no GPUs is the error "no GPUs found" |
| QueryCcMode.ConsensusNeverChanges | src/query_cc_mode.rs:26-36 | from a consensus m, the query succeeds iff every remaining GPU runs the tool and reports m, and its result is then m |
| QueryCcMode.ResolveOkIffUniform | src/query_cc_mode.rs:4-40 | the query returns mode m iff there is at least one GPU and every GPU reports m |
| QueryCcMode.FirstDisagreementReported | src/query_cc_mode.rs:26-34 | the first GPU that disagrees with the consensus ends the query with an error naming its address, its mode and the expected mode, whatever GPUs follow |
| QueryCcMode.DisagreementFrom | src/query_cc_mode.rs:26-34 | from a consensus, the first disagreeing GPU is the one the inconsistency error names |
| QueryCcMode.SpawnFailureReported | src/query_cc_mode.rs:8-16 | a tool that cannot be started, for the first GPU not yet agreed on, gives an error that names that GPU |
| QueryCcMode.FirstSpawnFailureReported | src/query_cc_mode.rs:8-16 | from the start of the query, a tool that cannot be started for a GPU after agreeing GPUs (or for the first GPU) gives an error naming that GPU, whatever GPUs follow |
| QueryCcMode.InconsistencyIsGenuine | src/query_cc_mode.rs:26-34 | an inconsistency error names a queried GPU whose reported mode really differs from the expected one |
| QueryCcMode.MarkerClassification | src/query_cc_mode.rs:18-24 | the output "CC mode is on" means on, and "CC mode is off" means off |
| QueryCcMode.TwoGpusOn | src/query_cc_mode.rs:4-40 | two GPUs that both report on give on |
| QueryCcMode.OnThenOffInconsistent | src/query_cc_mode.rs:26-34 | on, then off, is an inconsistency that names the second GPU |
| CpuVendor.ClassifyLine | src/cpu_vendor.rs:12-18 | definition: the AMD, Intel and ARM rules for one line, in that order |
| CpuVendor.ScanLines | src/cpu_vendor.rs:10-21 | definition: the scan of the line reads, where the first matching line or read failure decides |
| CpuVendor.QueryCpuVendor | src/cpu_vendor.rs:5-22 | a file that cannot be opened is an error; otherwise the result is the line scan, so the first-match lemmas below apply to it; a success names amd, intel or arm |
| CpuVendor.MatchingLineDecides | src/cpu_vendor.rs:10-19 | a line that matches vendor v, read after lines that match nothing, makes v the result |
| CpuVendor.ScanFoundOnLine | src/cpu_vendor.rs:10-19 | a scan that returns v found it on a line that matches v, read after lines that match nothing |
| CpuVendor.FirstMatchingLineDecides | src/cpu_vendor.rs:10-19 | the result is vendor v iff some line matches v and every earlier line was read without matching |
| CpuVendor.NotFoundIffNoMatch | src/cpu_vendor.rs:10-21 | "not found" comes back iff every line was read and none matched |
| CpuVendor.ReadFailureStopsScan | src/cpu_vendor.rs:11 | a read failure before any match is an error |
| CpuVendor.AmdRuleFirst | src/cpu_vendor.rs:12-15 | a line that names both AMD and Intel counts as AMD |
| CpuVendor.IntelRuleBeforeArm | src/cpu_vendor.rs:14-17 | a line that names Intel and holds the ARM implementer code counts as Intel |
| CpuVendor.ArmRuleNeedsOneLine | src/cpu_vendor.rs:16-17 | the implementer label and code 0x41 split over two lines match nothing; on one line they give ARM |
| Init.BootContext | src/main.rs:28-36 | definition: the context after boot, the boot-table pass's over /proc/cmdline, or the initial one (debug off, no clock value) when parsing never ran |
| Init.BootOutcome | src/main.rs:33-48 | definition: the boot stage, step by step |
| Init.IterationOutcome | src/main.rs:60-77 | definition: one supervision pass, step by step |
| Init.SupervisedPhase | src/main.rs:59-80 | definition: the phase after a run of passes, stopped by the first fatal one |
| Init.SplitPhase | src/main.rs:50-85 | only the child of the fork supervises, starting with zero passes; a fork error is fatal; the parent hands off when exec succeeds and returns otherwise |
| Init.Supervisor.constructor | src/main.rs:28-31 | the process starts booting, with debug off and no clock value |
| Init.Supervisor.Boot | src/main.rs:33-48 | the context becomes what the boot handler table leaves, and the phase becomes Booted or the first fatal error of the boot stage |
| Init.Supervisor.Split | src/main.rs:50-85 | the phase after fork: the parent hands off or returns, the child supervises, and a failed fork is fatal |
| Init.Supervisor.Iterate | src/main.rs:59-80 | one pass counts as done, or stops the process with its first fatal error; the context is only read |
| Init.Supervisor.Supervise | src/main.rs:59-80 | the loop over a sequence of device events reaches the phase the pass-by-pass fold gives |
| Init.BootCmdline | src/main.rs:25-36 | after boot the clock value is unset and the last debug token decides debug; boot fails on the command line iff /proc/cmdline cannot be read |
| Init.BootIgnoresSupportVerdict | src/main.rs:43-48 | at boot, any allow list that is missing or can be opened gives the same outcome: the verdict is dropped |
| Init.BootSkipsChecksWithoutGpus | src/main.rs:43-48 | without GPUs, boot neither runs the GPU tool nor reads the allow list |
| Init.BootChecksAreFatal | src/main.rs:38-48 | once the command line is parsed, a CPU vendor that cannot be found and a failed scan are fatal; with GPUs present, so are a mode-query error and an allow list that cannot be opened |
| Init.BootContinuesIff | src/main.rs:33-48 | boot goes through iff the logger is set up, /proc/cmdline is read, the vendor is found, and the scan succeeds; with GPUs found, they must also agree on their mode and the allow list must be missing or openable |
| Init.BootToleratesWhatLoopRejects | src/main.rs:43-73 | GPUs that agree on their mode but are not all supported pass boot, yet they stop the first supervision pass |
| Init.EmptyScanFatalInLoop | src/main.rs:61-63 | a pass that finds no GPUs stops the process with "no GPUs found" |
| Init.PassContinuesIff | src/main.rs:61-77 | a pass goes through iff the scan succeeds and finds GPUs, all GPUs report the same mode, the allow list exists and lists every id, and the toolkit provisions |
| Init.ProvisionOnlyAfterChecks | src/main.rs:61-77 | unless every check passed, the pass is fatal and does not depend on the toolkit |
| Init.PassReportsFirstFailedStage | src/main.rs:61-77 | a pass stops at the first failing stage, in the order scan, mode query, allow list, support verdict, toolkit, with that stage's reason, and the later stages' collaborators do not affect it |
| Init.SupervisionContinuesIff | src/main.rs:59-80 | a run of passes keeps supervising iff every pass goes through, and it then counts one pass per event |
| Init.FirstFatalPassStops | src/main.rs:59-80 | the first fatal pass decides why the process stops, whatever events follow it |

## Left out

- Mounting (`mount::mount_setup`, src/main.rs:33) is not part of this model. It neither returns a result nor touches anything the model tracks.
- The kernel logger is reduced to whether its setup succeeds. Log output is not modelled: `debug_info!`, `info!`, `println!`, and the debug flag's only use, gating those messages.
- The udev call (src/main.rs:60) is not part of this model. The device event that it waits for appears as the next `Host` value given to a pass.
- The container toolkit (src/container_toolkit.rs) is not part of this model. It is a function from the context to a result, and the commands it runs are not modelled.
- File-system and process I/O become values: file contents are `Option` strings, the directory is a listing, `/proc/cpuinfo` is a sequence of line reads, and the GPU tool is a function from bus address to output. The model has no paths, no joining of paths and no race between checking that the allow list exists and opening it.
- Failing to open `/proc/cmdline` and failing to read it are both `CmdlineUnreadable`. Error message texts are not modelled; the model keeps only the error kind and the data it carries.
- A read error, or invalid UTF-8, in the allow list's lines panics (`expect`, src/check_supported.rs:24). That panic is not modelled: the allow-list content is a string.
- The GPU tool's lossy UTF-8 decoding (src/query_cc_mode.rs:18) is not modelled: its output is already a string. A descriptor file with invalid UTF-8 fails to read, like any unreadable file, and so reads as "".
- Fork creates two processes; the model follows one of them through `Split`. The parent's exec is reduced to whether it succeeds.
- The supervision loop never ends. The model runs it over a finite sequence of device events, and panics and returned errors are both `Stopped`.
- ProcCmdline.Handler: handler functions other than the two that the program defines stand for `Other`, a function from value and context to a new context and an optional error.
- The unit tests that read the real machine are not modelled, because their results depend on the host's files: `test_get_gpu_devices_baremetal`, `test_check_gpu_supported` and `test_query_cpu_vendor`.
