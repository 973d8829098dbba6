# System monitor in Dafny

This project models the core of a small C system monitor. In its command-line mode the monitor forks three producer processes:

- the memory child writes one formatted memory line per sample;
- the user child writes the list of login sessions once, together with a session count;
- the CPU child writes pairs of raw CPU tick snapshots.

The parent reads these over five pipes and draws rows of text. Both the parent's output and the child pipe traffic depend on the option flags `-u`, `-s`, `--sequential` and `-g`. A GTK front end estimates the same CPU share with a smoothing filter. It keeps sixty-sample histories and colours labels and progress bars by level. A platform layer on Linux and on two macOS back-ends supplies CPU ticks, memory counters and uptime. An error log routes entries to standard output, standard error and a log file.

The model has one module per source file:

| module | what it models |
|---|---|
| `Common` | constants, bytes, C strings and C's truncating division |
| `Channel` | a pipe as a byte stream with a write budget, the byte encodings that cross it, and their round trips |
| `CpuCli` | `cpu.c` |
| `Memory` | `memory.c` |
| `Users` | `user.c` |
| `System` | `system.c` |
| `Main` | `main.c`, the parent's read side of every channel |
| `Gui`, `GuiUtils` | the two GUI files |
| `Platform`, `PlatformMac`, `PlatformDarwin`, `PlatformLinux` | the platform layer |
| `ErrorLog` | `error.c` |

The model takes the source's own form:

- State the C keeps in statics or structs is a class with methods, each proved against a pure function of the old state:
  - the CPU module's first-run flag and previous snapshot;
  - the GUI estimator;
  - the GUI data and its histories;
  - a GTK style context;
  - `struct sysinfo`;
  - the logger.
- Loops are methods with loop invariants:
  - the producers' sample loops;
  - the parent's read rounds;
  - the option parsers;
  - the history shifts.
- Pure computations are functions with lemmas:
  - usage formulas;
  - classifiers;
  - encodings;
  - uptime splits.

The operating system's answers are parameters of the operations that use them:

- `sysinfo`, `sysctl`, `host_statistics`, `/proc` files and utmp records;
- the clock, the log file's open result, and a failing write.

On macOS the GUI's memory figures (`Gui.AppleMemoryInfo`) are built from platform_mac.c's `calculate_memory_total`, `calculate_memory_usage` and swap functions. platform_darwin.c's `calculate_memory_usage` is modelled on its own as `PlatformDarwin.MemoryUsage`.

A failed write is modelled by the pipe's write budget. Once the budget is spent, the writer stops, as the C does when `write` returns -1.

## Model

| member | source | states |
|---|---|---|
| Channel.DecodeEncodeLE | src/core/memory.c:38 | a little-endian `k`-byte encoding of a value below 256^k decodes back to it |
| Channel.HeaderRoundTrip | src/main/main.c:202-203 | the 8-byte `size_t` header the memory child writes is read back as the same length, and the bytes after it are left in the stream |
| Channel.FrameParts | src/main/main.c:202-210 | a text frame at the front of a stream splits back into a header that decodes to the text length plus one, the text with its NUL, and the untouched rest |
| Channel.TextFrame | src/core/memory.c:35-49 | a length-prefixed text frame holds the header, the text and its terminating NUL: 8 + len + 1 bytes |
| Channel.EncodeWords | src/core/cpu.c:14-35 | seven `unsigned long` counters take 8 bytes each on the wire |
| Channel.DecodeWords | src/main/main.c:234-235 | reading 8-byte words back yields one counter per word, each below 2^64 |
| Channel.WordsRoundTrip | src/core/cpu.c:14-35 | any run of counters written as 8-byte words reads back as the same counters, in order |
| Channel.SnapshotRoundTrip | src/core/cpu.c:14-35 | the 56 bytes of `unsigned long[7]` the CPU child writes decode back to the same seven counters |
| Channel.SnapshotStream | src/core/system.c:299-303 | a run of snapshots is 56 bytes per snapshot on the wire |
| Channel.IntBytes | src/core/user.c:67-70 | the session count crosses the pipe as a 4-byte `int` |
| Channel.Pipe.constructor | src/main/main.c:121-125 | a new pipe holds no bytes and the given write budget |
| Channel.Pipe.Write | src/core/memory.c:38-49 | a write succeeds exactly while the reader still accepts writes; a success appends the bytes, a failure appends nothing and ends the budget |
| Channel.Pipe.Read | src/main/main.c:140-141 | a read of `n` bytes returns the first `n` unread bytes (fewer at the end of the stream) and consumes exactly those |
| CpuCli.DirectUsage | src/core/cpu.c:45-63 | the first-call share lies in [0, 100]; it is 0 when all ticks are idle or there are none, and 100 exactly when there are ticks and none is idle |
| CpuCli.ShareBounds | src/core/cpu.c:125-134 | a part of a positive total, scaled to a percentage, lies in [0, 100]; it hits 100 only for the whole and 0 only for nothing |
| CpuCli.CliUsage | src/core/cpu.c:43-143 | the reported CPU usage is always within [0, 100] |
| CpuCli.IntervalShareInRange | src/core/cpu.c:92-134 | when the interval has ticks, the busy share of the interval lies in [0, 100] and is what a later call reports |
| CpuCli.FirstCallIgnoresPrevious | src/core/cpu.c:45-63 | the first call depends only on the current snapshot, never on the previous one |
| CpuCli.ExtraSlotsIgnored | src/core/cpu.c:92-104 | only the user, nice, system and idle counters influence the result; the last three slots are ignored |
| CpuCli.RegressionFallsBackToDirect | src/core/cpu.c:111-122 | when no counter moved forward (no ticks in the interval), a later call falls back to the since-boot share of the current snapshot |
| CpuCli.CpuModule.constructor | src/core/cpu.c:43-50 | the module starts on its first run with a zeroed previous snapshot |
| CpuCli.CpuModule.CalculateCpuUsage | src/core/cpu.c:43-143 | returns the specified usage for the old first-run flag, clears the flag, and stores the snapshot the C keeps for the next call |
| CpuCli.CountBarsAppend | src/core/cpu.c:166-180 | bars counted in a concatenation add up |
| CpuCli.CountBarsRepeat | src/core/cpu.c:166-180 | a run of `n` bars counts `n` |
| CpuCli.NoBarsCounted | src/core/cpu.c:188-189 | text without `|` contributes no bars |
| CpuCli.RowBars | src/core/cpu.c:166-189 | a graphics row has exactly the requested number of bars (none when the request is negative) and never more than the cap |
| CpuCli.SetCpuGraphics | src/core/cpu.c:161-206 | writes this sample's row and no other, keeps it within the row buffer, prints rows 0..i, and hands back the current usage as the next previous value |
| CpuCli.StoreCpuInfo | src/core/cpu.c:14-35 | the CPU child's write appends the 56-byte encoding of the reading exactly when the reader still accepts it |
| Memory.FiguresSums | src/core/memory.c:21-28 | used = total − free; virtual used adds used swap; virtual total adds total swap; virtual total − virtual used is free RAM plus free swap |
| Memory.Payload | src/core/memory.c:14-35 | a failed `sysinfo` sends the fixed error text; otherwise the text up to its first NUL, cut to the 1023 bytes the buffer holds |
| Memory.DeliveredWhenStopped | src/core/memory.c:38-49 | when the writes run out in the middle of sample `i`, the stream holds the first `i` frames, plus the header of the `i`-th when only its body failed |
| Memory.DeliveredWhenComplete | src/core/memory.c:13-52 | with enough writes every frame is delivered in order |
| Memory.Payloads | src/core/memory.c:13-35 | one payload per sample |
| Memory.PayloadsAt | src/core/memory.c:13-35 | the payload of sample `k` depends only on reading `k` |
| Memory.WriteFrame | src/core/memory.c:35-49 | a frame is sent whole when two writes remain; if only the header fits, it is sent without its body, and the loop ends |
| Memory.StoreMemoryInfo | src/core/memory.c:12-53 | the stream grows by exactly the frames of the first `samples` readings that the write budget lets through, and the loop finishes only if all of them got through |
| Memory.PrintMemoryInfo | src/core/memory.c:63-81 | sequential mode prints one line per sample, showing only the current one's text; otherwise the texts of samples 0..iteration are printed; a heading comes first |
| Memory.ReserveSpace | src/core/memory.c:139-143 | prints `samples + 1` newlines |
| Memory.ReservedSpaceHoldsMemoryBlock | src/core/memory.c:139-143 | the reserved lines always hold the heading and the rows printed so far, with no spare line on the last sample |
| Memory.GraphicShape | src/core/memory.c:92-117 | a graphic starts with `|`; the first sample or a change under 0.01 gives the `o`/`@` marker; otherwise a run of `#` or `:` of the counted length is followed by `*` or `@`; it always fits its buffer |
| Memory.Graphic | src/core/memory.c:92-117 | the reference graphic: the marker form on the first sample or a change below 0.01, else the bar of change symbols, the closer and the figures, bounded by the row |
| Memory.DrawnSymbolsMonotone | src/core/memory.c:101-110 | a larger change in the same direction never draws fewer symbols, and the symbol follows the direction |
| Memory.BuildGraphic | src/core/memory.c:90-117 | the loop of `strncat` calls builds exactly the specified graphic |
| Memory.StrcatOverflowsRow | src/core/memory.c:120-121 | the `strcat` as written can put more bytes in a memory row than the row holds (see Findings) |
| Memory.AppendGraphic | src/core/memory.c:120-121 | the row gains the graphic after its text, cut so that row and terminator fit the 1024-byte row |
| Memory.AppendKeepsLine | src/core/memory.c:120-121 | appending a graphic never changes the memory text already in the row and adds no NUL inside it |
| Memory.CreateMemoryGraphics | src/core/memory.c:90-125 | only this sample's row changes, by the bounded append of its graphic, and the current usage becomes the next previous value |
| Users.SessionLine | src/core/user.c:27-29 | a session line fits the 256-byte line buffer and has no NUL inside |
| Users.AllLines | src/core/user.c:24-35 | the concatenated session lines of the user-process records contain no NUL |
| Users.SessionCount | src/core/user.c:33 | the count never exceeds the number of records |
| Users.AccumulateIsTake | src/core/user.c:32 | `strncat` bounded by the space left is the same as cutting the whole concatenation to 4095 bytes |
| Users.UserTextIsPrefixOfAllLines | src/core/user.c:24-35 | the accumulated text is exactly the first 4095 bytes of all session lines, with no NUL |
| Users.OtherRecordsIgnored | src/core/user.c:26 | records that are not user processes change neither the text nor the count |
| Users.CountIncludesTruncated | src/core/user.c:32-33 | once the buffer is full, further sessions are still counted but add no text |
| Users.ScanSessions | src/core/user.c:16-64 | the utmp loop yields the specified text and count |
| Users.StoreUserInfo | src/core/user.c:16-80 | nothing is sent when `utmpname` fails on Linux; otherwise the count is sent first, and the frame of the text follows only if the count got through |
| Users.SendText | src/core/user.c:73-79 | the header giving the length with the NUL, then the text and its NUL, as far as the pipe still accepts writes |
| Users.FullFrameOverrunsBuffer | src/core/user.c:93-102 | a frame that fills the 4096-byte buffer makes the reader write its terminator at index 4096, one past the buffer (see Findings) |
| Users.TerminatorInBounds | src/core/user.c:88-102 | with a buffer one byte larger, every terminator index stays inside it |
| Users.UserFrameRoundTrip | src/core/user.c:86-107 | a frame the user child sends is printed back under the heading as the same text, and the rest of the stream is untouched |
| Users.LaterReadsFindNoSessions | src/core/user.c:93-96 | once the single frame has been read, every later read reports no active sessions |
| Users.PrintUserInfo | src/core/user.c:86-107 | prints what the frame reader specifies and consumes what it consumes |
| Users.Terminated | src/core/user.c:101-103 | terminating the bytes read at their count and printing with `%s` shows exactly the text before the first NUL |
| System.ParseCommandLineOptions | src/core/system.c:107-150 | the parsing loops compute exactly the specified options |
| System.NoArgumentsGiveDefaults | src/core/system.c:108-115 | with no arguments: 10 samples, 1-second delay, every switch off |
| System.SwitchesFollowFlags | src/core/system.c:131-138 | each switch is on if and only if its flag was given |
| System.SwitchesFollowFlagsFrom | src/core/system.c:131-138 | the same if-and-only-if for any list of flags, proved by induction over it |
| System.CountOptionArguments | src/core/system.c:131-138 | `--samples`/`--tdelay` without a value changes nothing; with a value, the last one wins |
| System.PositionalsOverride | src/core/system.c:142-147 | the first two positionals override samples and delay; later ones are ignored; nothing else changes |
| System.ConfirmAcceptsExactly | src/core/system.c:57-80 | after one trailing newline is stripped, a line confirms termination exactly when it is `y` or `yes` in any letter case; end of input asks nothing |
| System.OneNewlineStripped | src/core/system.c:63-71 | for every NUL-free answer, one trailing newline decides like the bare answer (accepted spellings only), two trailing newlines never terminate, and end of input decides nothing |
| System.NoAnswerEndsInNewline | src/core/system.c:71 | no spelling `strcasecmp` accepts ends in a newline |
| System.ConfirmTerminate | src/core/system.c:63-71 | the prompt's decision: none at end of input, otherwise a case-insensitive match of `y` or `yes` after one newline is dropped; its meaning is stated by `System.ConfirmAcceptsExactly` |
| System.KeptEnds | src/core/system.c:226-318 | the parent keeps every read end; each child keeps only the write ends of the pipes it writes |
| System.OneWriterOneReader | src/core/system.c:226-318 | every pipe has exactly one writing process, and the parent writes none |
| System.StreamExtends | src/core/system.c:299-303 | sending one more snapshot extends the stream by its encoding |
| System.CpuProducer | src/core/system.c:299-303 | each loop pass sends the previous then the current snapshot; the stream sizes and contents are given by the write budgets, and the loop completes exactly when both budgets cover every sample |
| System.TotalHoursOfUptime | src/core/system.c:186-189 | hours + 24·days with the minutes and seconds recompose the uptime, and for a non-negative uptime equal its whole hours |
| Main.ScanMainArgs | src/main/main.c:81-98 | the argument loop computes exactly the specified refresh rate and help flag |
| Main.RefreshRatePositive | src/main/main.c:82-89 | the refresh rate is never below 1, whatever `atoi` returns |
| Main.HelpNeedsHelpWord | src/main/main.c:90-93 | help is reported only when some argument is `-h` or `--help` |
| Main.RefreshOptionCases | src/main/main.c:81-98 | for all words: a trailing refresh option keeps the rate; a refresh option always consumes the next word (even a help word) as its value, a non-positive one giving 1; a help word ends the scan whatever follows |
| Main.ScanArgs | src/main/main.c:81-98 | the reference scan of the argument words: refresh options with their values, stopping at a help word; `Main.ScanMainArgs`, `Main.RefreshRatePositive` and `Main.HelpNeedsHelpWord` are about it |
| Main.ReceiveCount | src/main/main.c:140-141 | the count is read from the next 4 bytes and consumes them |
| Main.CountRoundTrip | src/main/main.c:140-141 | the count the user child writes is read back unchanged |
| Main.MemoryFrameRead | src/main/main.c:202-207 | an accepted memory body is non-empty and shorter than the row |
| Main.Overlay | src/main/main.c:207-210 | the row's text after the read is exactly the text received, and the row keeps its old bytes beyond it |
| Main.ReceiveMemoryFrame | src/main/main.c:202-221 | the frame read consumes what the reader specifies; only an accepted frame changes the row, and only row `i` |
| Main.MemoryFrameRoundTrip | src/main/main.c:202-210 | a frame the memory child writes is accepted and the row shows the same text |
| Main.LongestFrameRejected | src/main/main.c:206 | a 1023-byte payload (length 1024) is refused, and its header is consumed while its body stays in the stream |
| Main.ReceiveSnapshot | src/main/main.c:234-235 | a full 56-byte read yields the next snapshot; a short one yields none |
| Main.SnapshotStreamFront | src/core/system.c:299-303 | a snapshot stream begins with the encoding of its first snapshot |
| Main.SnapshotReadsBack | src/main/main.c:234-235 | the parent reads the CPU child's snapshots back in the order sent |
| Main.FrontSnapshot | src/main/main.c:234-235 | the front 56 bytes decode to the snapshot encoded there, and the rest is left |
| Main.RoundReadCounts | src/main/main.c:198-250 | per round: memory and both CPU pipes are read once when the system section is shown, the user pipe once when users are shown |
| Main.RoundReadOrder | src/main/main.c:178-368 | memory is read first in sequential mode and last otherwise; the current snapshot is read right after the previous one |
| Main.SessionReads | src/main/main.c:178-368 | over all samples each pipe is read the number of times its section is shown; user-only mode reads only the user pipe |
| Main.ClosePipes | src/main/main.c:49-55 | closing leaves exactly the write ends that were open |
| Gui.BlendIsConvex | src/gui/gui.c:1482-1494 | the smoothed value lies between the last value and the raw share and moves at least 15% of the way toward the raw share |
| Gui.Blend | src/gui/gui.c:1482-1494 | the reference smoothing step: 85/15, 65/35 or 50/50 of last and raw by the size of the jump; `Gui.BlendIsConvex` states its meaning |
| Gui.Candidate | src/gui/gui.c:1450-1504 | the reference value before the decay floor: the last value on the first sample or an interval without ticks, else the blend toward the clamped busy share; `Gui.NoIntervalKeepsLast` and `Gui.IntervalMovesTowardShare` are about it |
| Gui.GuiEmit | src/gui/gui.c:1506-1512 | the reference shown value: the candidate, or 70% of the last value when the candidate drops below 2 from above 5; `Gui.GuiEmitInRange`, `Gui.DecayFloorNeverFires` and `Gui.Estimate` are about it |
| Gui.GuiEmitInRange | src/gui/gui.c:1431-1519 | the GUI CPU usage stays within [0, 100] |
| Gui.DecayFloorNeverFires | src/gui/gui.c:1507-1512 | the decay floor never changes the value: blending keeps at least half the last value |
| Gui.NoIntervalKeepsLast | src/gui/gui.c:1497-1504 | on the first sample or an interval with no ticks, the last value is kept |
| Gui.IntervalMovesTowardShare | src/gui/gui.c:1453-1494 | otherwise the value moves from the last value toward the interval's busy share and stays between the two |
| Gui.GuiCpuEstimator.constructor | src/gui/gui.c:1432-1435 | zeroed snapshots, the initial usage, no samples |
| Gui.GuiCpuEstimator.Tick | src/gui/gui.c:1431-1519 | the previous snapshot becomes the old current one, the reading becomes current, and the result is the specified estimate, which is remembered |
| Gui.Estimate | src/gui/gui.c:1443-1512 | the delta, blend and decay arithmetic yields the specified GUI usage for the two snapshots |
| Gui.CopyInto | src/gui/gui.c:1438 | after the copy the static snapshot array holds exactly the given counters |
| Gui.Window | src/gui/gui.c:1525-1542 | the history holds 60 values and ends with the newest |
| Gui.WindowShape | src/gui/gui.c:1525-1542 | the history is the first value repeated to pad the window, followed by the later values |
| Gui.WindowIsLastSixty | src/gui/gui.c:1535-1541 | after 60 samples the history is exactly the last 60 values |
| Gui.RecordSample | src/gui/gui.c:1525-1542 | a missing history is created and filled with the value; otherwise it shifts left by one and the value goes last |
| Gui.NewHistory | src/gui/gui.c:1526-1533 | a fresh 60-slot history with every slot holding the first value |
| Gui.ShiftIn | src/gui/gui.c:1535-1541 | in place, the history loses its oldest value, keeps the rest in order and ends with the new value |
| Gui.DetailedMemoryInfoFails | src/gui/gui.c:1115-1211 | the detailed query fails only on Linux with neither `/proc/meminfo` nor `sysinfo`, or on another OS without `sysinfo` |
| Gui.FromMeminfo | src/gui/gui.c:1162-1174 | the reference /proc/meminfo figures: total − free − buffers − cached floored at 0, totals, and swap total − swap free, in GB of 1024·1024 kB; `Gui.MeminfoUsedInRange` and `Gui.MeminfoSwapCanBeNegative` are about it |
| Gui.FromSysinfo | src/gui/gui.c:1126-1135 | the reference `sysinfo` fallback: totals and total − free for memory and swap, in GB of 2^30 bytes |
| Gui.AppleMemoryInfo | src/gui/gui.c:1178-1198 | the reference macOS figures from platform_mac.c's `calculate_memory_*`, used memory replaced by 85% of total when it exceeds total; `Gui.AppleUsedWithinTotal` is about it |
| Gui.DetailedMemoryInfo | src/gui/gui.c:1115-1211 | the reference `get_detailed_memory_info`: Linux tries /proc/meminfo then `sysinfo`, macOS always succeeds, other systems use `sysinfo`; `Gui.DetailedMemoryInfoFails` states when it fails |
| Gui.MeminfoUsedInRange | src/gui/gui.c:1162-1176 | used memory from `/proc/meminfo` is never negative nor, for non-negative fields, above total |
| Gui.MeminfoSwapCanBeNegative | src/gui/gui.c:1162-1176 | the swap figure there is not clamped: free above total gives negative use |
| Gui.AppleUsedWithinTotal | src/gui/gui.c:1183-1198 | on macOS used memory lies between 0 and total (figures from platform_mac.c's `calculate_memory_*`) |
| Gui.UsagePercent | src/gui/gui.c:1221-1224 | a percentage of a positive total scales used by 100/total and lies in [0, 100] for used within total; with no total it is 0 |
| Gui.CpuLevelMonotone | src/gui/gui.c:1044-1056 | a higher CPU value never gets a lower level; the thresholds are 40, 70 and 90 |
| Gui.CpuLevelOf | src/gui/gui.c:1044-1056 | the reference CPU grade: above 90 critical, above 70 high, above 40 moderate, else normal; `Gui.CpuLevelMonotone` is about it |
| Gui.CpuColourOf | src/gui/gui.c:1044-1056 | the CPU colour follows the CPU level |
| Gui.ColoursMonotone | src/gui/gui.c:1236-1275 | memory and swap colours never drop as the percentage grows; at any percentage swap is never greener than memory; the swap colour follows its level |
| Gui.MemoryColourOf | src/gui/gui.c:1236-1243 | the reference memory colour: above 90 red, above 70 orange, above 50 yellow, else green |
| Gui.SwapColourOf | src/gui/gui.c:1258-1265 | the reference swap colour: above 50 red, above 25 orange, above 10 yellow, else green |
| Gui.SwapLevelOf | src/gui/gui.c:1268-1275 | the reference swap grade with the swap colour's thresholds: high, moderate, low, normal |
| Gui.GuiData.constructor | src/gui/gui.c:20 | the GUI data starts with no histories |
| Gui.GuiData.Record | src/gui/gui.c:1525-1542 | recording a value in a history that shows the window of `seen` leaves one that shows the window of `seen` plus the value, allocating it on first use and reusing it after |
| Gui.GuiData.UpdateSystemData | src/gui/gui.c:1423-1654 | one tick: the estimate, the estimator's new static state (previous snapshot = old current one, current = the reading, one more sample), the detailed memory figures or the fallback ones, each value appended to its history, and the uptime |
| Gui.GuiData.UpdateCpu | src/gui/gui.c:1431-1519 | the data's CPU usage is the estimator's new value, and the estimator's statics move on: previous snapshot = old current one, current = the reading, one more sample |
| Gui.GuiData.SetMemoryFigures | src/gui/gui.c:1544-1552 | the four memory figures are the ones given |
| Gui.GuiData.RecordHistories | src/gui/gui.c:1525-1588 | each history gains its value and stays the 60-value window of everything seen |
| Gui.GuiData.RecordTick | src/gui/gui.c:1544-1613 | the memory figures become the given ones, each history gains its value, the uptime is stored, and every history stays the window of what it has seen |
| Gui.GuiData.RecordCpu | src/gui/gui.c:1525-1542 | the CPU history gains the value and stays the window of its values; the other histories are untouched |
| Gui.GuiData.RecordMemory | src/gui/gui.c:1555-1569 | the memory history gains the value and stays the window of its values; the other histories are untouched |
| Gui.GuiData.RecordSwap | src/gui/gui.c:1571-1585 | the swap history gains the value and stays the window of its values; the other histories are untouched |
| Gui.GuiData.UpdateCpuDisplay | src/gui/gui.c:1019-1056 | the usage is clamped to [0, 100] and the label gets that value's level and colour |
| GuiUtils.StyleContext.constructor | src/gui/gui_utils.c:437-448 | a style context holds the given classes |
| GuiUtils.StyleContext.RemoveClass | src/gui/gui_utils.c:449-463 | removes exactly that class |
| GuiUtils.StyleContext.AddClass | src/gui/gui_utils.c:466-482 | adds exactly that class |
| GuiUtils.StyledClassesExactlyOne | src/gui/gui_utils.c:437-483 | after styling, the bar carries exactly the level class chosen for the value, and its other classes are unchanged |
| GuiUtils.StyledClasses | src/gui/gui_utils.c:437-483 | the reference class set after styling: the named level classes removed and the chosen one added; the three lemmas beside it and `GuiUtils.StyleProgressBarByValue` are about it |
| GuiUtils.ChosenClassByRange | src/gui/gui_utils.c:466-482 | for ordered thresholds the class is critical, high, medium or low by the value's range |
| GuiUtils.StyledClassesIdempotent | src/gui/gui_utils.c:437-483 | styling twice with the same value is styling once |
| GuiUtils.StyleProgressBarByValue | src/gui/gui_utils.c:437-483 | a missing bar is left alone; otherwise its classes become the specified styled set |
| GuiUtils.Escape | src/gui/gui_utils.c:168-191 | escaping never shortens the text; `&`, `<`, `>`, `'`, `"` become entities and the C0/C1 control characters glib escapes become `&#x..;` references, as `g_markup_printf_escaped` does to each `%s`; `GuiUtils.EscapeRoundTrip` is its inverse |
| GuiUtils.HexDigit | src/gui/gui_utils.c:177-184 | a hex digit of a numeric reference reads back as the value it was written for |
| GuiUtils.HexValue | src/gui/gui_utils.c:177-184 | a character's hex value is -1 or a digit value below 16 |
| GuiUtils.Hex | src/gui/gui_utils.c:177-184 | `%x` of a value below 256 has one digit exactly when the value is below 16, two otherwise, all hex digits |
| GuiUtils.ReadReference | src/gui/gui_utils.c:177-184 | a numeric reference read from the front of text takes 5 or 6 characters, never more than there are |
| GuiUtils.ReadOne | src/gui/gui_utils.c:177-184 | reading one character back from escaped text consumes at least one and at most all of it |
| GuiUtils.ControlStep | src/gui/gui_utils.c:177-184 | an escaped control character is read back as itself, consuming exactly its reference |
| GuiUtils.EntityStep | src/gui/gui_utils.c:177-184 | a named entity or an unescaped character is read back as itself, consuming exactly its escaped form |
| GuiUtils.EscapeCharHasNoTags | src/gui/gui_utils.c:177-184 | no escaped character contains `<` or `>` |
| GuiUtils.UnescapeStep | src/gui/gui_utils.c:168-191 | unescaping an escaped character gives that character back and continues |
| GuiUtils.EscapeRoundTrip | src/gui/gui_utils.c:168-191 | escaped label text unescapes to the original |
| GuiUtils.EscapeHasNoTags | src/gui/gui_utils.c:168-191 | escaped text contains no `<` or `>`, so it cannot open a tag in the span |
| GuiUtils.MarkupLabelChoice | src/gui/gui_utils.c:200-213 | with no font and no colour the markup is used as is; otherwise it is wrapped in one span |
| GuiUtils.CreateLabel | src/gui/gui_utils.c:134-195 | the reference label content: the escaped span with a font or colour and text, else markup when asked for, else plain text, else nothing; `GuiUtils.MarkupLabelChoice` is about it |
| GuiUtils.CreateMarkupLabel | src/gui/gui_utils.c:200-213 | the options (or the defaults) with the text replaced by the markup and markup switched on, passed to `create_label` |
| Platform.SysInfo.constructor | src/platform/sysinfo.h:17-30 | a new `struct sysinfo` is all zero |
| Platform.SysInfo.Clear | src/platform/platform_mac.c:37 | `memset` zeroes every field |
| Platform.SysInfo.Counters | src/core/memory.c:21-25 | the memory counters read are the struct's four fields |
| Platform.SplitRealUptimeInPlace | src/platform/platform_darwin.c:174-182 | the in-place subtraction steps give the specified days, hours, minutes and seconds |
| Platform.FloorQuotient | src/platform/platform_darwin.c:174-182 | the truncated quotient of non-negative reals is the whole number of divisor units |
| Platform.FloorShift | src/platform/platform_darwin.c:182 | truncating a whole number plus a fraction adds the whole number |
| Platform.SplitRealUptimeSound | src/platform/platform_linux.c:60-77 | for a non-negative uptime the parts are in range and add back up to the whole seconds |
| Platform.SplitIntUptimeSound | src/platform/platform_mac.c:224-234 | with C's truncating `/` and `%`, the parts always add back up to the uptime, stay within a day, hour and minute, and are non-negative for a non-negative uptime |
| PlatformMac.WrapSub | src/platform/platform_mac.c:162-168 | a tick delta is the difference, taken modulo 2^32 when the counter wrapped |
| PlatformMac.WrapSubRecovers | src/platform/platform_mac.c:162-168 | adding the delta to the previous counter modulo 2^32 gives the current one; the delta is 0 only when they are equal |
| PlatformMac.ReportHasNoExtraSlots | src/platform/platform_mac.c:127-199 | seven slots are always reported, the last three 0 |
| PlatformMac.DeltasOfReading | src/platform/platform_mac.c:162-176 | an unchanged reading reports the idle-only reading; otherwise the deltas recover the current counters from the previous ones |
| PlatformMac.Deltas | src/platform/platform_mac.c:161-188 | the reference delta report: the four wrapped tick deltas, or the idle reading when they sum to 0 |
| PlatformMac.Report | src/platform/platform_mac.c:127-199 | the reference report: zeros on a failed query, the fixed baseline reading on the first call, the deltas after |
| PlatformMac.MacCpuSource.constructor | src/platform/platform_mac.c:127-131 | not initialized, zero baseline |
| PlatformMac.MacCpuSource.GetCpuStats | src/platform/platform_mac.c:127-199 | reports the specified deltas; the first success only sets the baseline, and every success moves the baseline to the reading |
| PlatformMac.GetSystemUptime | src/platform/platform_mac.c:211-235 | a failed boot-time query gives zeros; otherwise the truncating split of now − boot time |
| PlatformMac.UptimeRecomposes | src/platform/platform_mac.c:224-234 | the reported parts add back up to now − boot time, and are non-negative when now ≥ boot time |
| PlatformMac.Sysinfo | src/platform/platform_mac.c:29-117 | returns 0 exactly when every query succeeds, else −1; on success, memory in bytes, free pages times page size, swap and 16.16 fixed-point loads |
| PlatformMac.MemoryUsage | src/platform/platform_mac.c:244-275 | used memory is active plus wired pages times page size in GiB, 0 on a failed query |
| PlatformMac.MemoryTotal | src/platform/platform_mac.c:284-298 | total memory in GiB, 0 on a failed query |
| PlatformMac.SwapUsage | src/platform/platform_mac.c:307-325 | used swap in GiB, 0 on a failed query |
| PlatformMac.SwapTotal | src/platform/platform_mac.c:334-349 | total swap in GiB, 0 on a failed query |
| PlatformMac.SwapUsageWithinTotal | src/platform/platform_mac.c:307-349 | used swap never exceeds total swap |
| PlatformDarwin.ReportIsRawTicks | src/platform/platform_darwin.c:88-104 | this back-end reports the raw since-boot ticks (zeros on failure), last three slots 0 |
| PlatformDarwin.Report | src/platform/platform_darwin.c:88-104 | the reference report: the four raw tick counters then three zeros, or zeros on failure |
| PlatformDarwin.GetCpuStats | src/platform/platform_darwin.c:88-104 | the slots become the specified report |
| PlatformDarwin.Sysinfo | src/platform/platform_darwin.c:18-82 | returns 0 exactly when the required queries succeed; swap is optional and reads 0 when its query fails |
| PlatformDarwin.MemoryUsageIsVirtualUsed | src/platform/platform_darwin.c:110-154 | usage is physical used (size − free pages) plus used swap, in GiB |
| PlatformDarwin.MemoryUsage | src/platform/platform_darwin.c:110-154 | the reference figure: physical plus swap in use in GB, 0 when a memory query fails, no swap term when the swap query fails |
| PlatformDarwin.MemoryUsageFailure | src/platform/platform_darwin.c:110-154 | a failed required query gives 0 |
| PlatformDarwin.GetSystemUptime | src/platform/platform_darwin.c:163-183 | zeros on failure, else the floating-point split of now − boot time |
| PlatformDarwin.UptimeRecomposes | src/platform/platform_darwin.c:163-183 | for now ≥ boot time the parts are in range and recompose the uptime |
| PlatformLinux.ReportAllOrNothing | src/platform/platform_linux.c:14-29 | the report is either all seven scanned counters or all zeros |
| PlatformLinux.Report | src/platform/platform_linux.c:14-29 | the reference report: the seven /proc/stat fields when all were scanned, else zeros |
| PlatformLinux.GetCpuStats | src/platform/platform_linux.c:14-29 | the slots become the specified report |
| PlatformLinux.ClearSlots | src/platform/platform_linux.c:17-24 | every slot is zeroed |
| PlatformLinux.MemoryUsageIsVirtualUsed | src/platform/platform_linux.c:35-51 | usage is used RAM plus used swap in GiB, 0 when `sysinfo` fails |
| PlatformLinux.MemoryUsage | src/platform/platform_linux.c:35-51 | the reference figure: RAM and swap in use in GB, 0 when `sysinfo` fails |
| PlatformLinux.GetSystemUptime | src/platform/platform_linux.c:60-77 | the split of the scanned uptime |
| PlatformLinux.UptimeSplitSound | src/platform/platform_linux.c:60-77 | a non-negative uptime splits into in-range parts adding up to its whole seconds; an unopened file gives zeros |
| ErrorLog.LevelTableDistinct | src/utils/error.c:9-15 | distinct levels have distinct names in `error_level_strings` and distinct enum values, all below 5 |
| ErrorLog.CodeTableDistinct | src/utils/error.c:18-30 | distinct codes have distinct names in `error_code_strings` and distinct enum values, all below 11 |
| ErrorLog.Decimal | src/utils/error.c:104-110 | a line number prints as at least one digit |
| ErrorLog.Entry | src/utils/error.c:104-110 | an entry always fits its 2048-byte buffer |
| ErrorLog.EntryLayout | src/utils/error.c:104-110 | an entry starts with the time, level and code; when it fits, it is complete and ends with a newline |
| ErrorLog.TakeOfPrefix | src/utils/error.c:104-110 | truncating keeps a truncated prefix a prefix |
| ErrorLog.SinkRouting | src/utils/error.c:83-124 | debug entries are dropped unless verbose; warnings and worse go to standard error, the rest to standard output when verbose, never both; the file gets every kept entry |
| ErrorLog.Sinks | src/utils/error.c:83-124 | the reference routing: debug dropped unless verbose, warnings and worse to standard error, the rest to standard output when verbose, and the log file when open; `ErrorLog.SinkRouting` and `ErrorLog.LogRouting` are about it |
| ErrorLog.InitOutcome | src/utils/error.c:35-58 | initialisation fails only when a name was given and the file did not open; with no name the file state is untouched |
| ErrorLog.InitState | src/utils/error.c:35-58 | the reference `error_init` effect: the verbose flag set, then the log file opened with its start banner or the failure reported on standard error; `ErrorLog.InitOutcome` is about it |
| ErrorLog.CleanupIdempotent | src/utils/error.c:63-78 | cleanup closes the file; a second cleanup changes nothing, nor does one with no file open |
| ErrorLog.CleanupState | src/utils/error.c:63-78 | the reference `error_cleanup` effect: an open log file gets its end banner and is closed; `ErrorLog.CleanupIdempotent` is about it |
| ErrorLog.LogRouting | src/utils/error.c:83-124 | logging appends the entry to each destination the routing selects and to no other |
| ErrorLog.ExitCodeNonZero | src/utils/error.c:145 | a fatal exit status is between 1 and 10, equal to the code's value for a failure code, and distinct codes exit differently |
| ErrorLog.FatalReported | src/utils/error.c:129-146 | a fatal error always reaches standard error, reaches the open file before the closing banner, and leaves no file open |
| ErrorLog.CheckResultCases | src/utils/error.c:151-169 | the check reports failure exactly when the condition holds and the code is a failure code |
| ErrorLog.Logger.constructor | src/utils/error.c:5-6 | not verbose, no file, nothing written |
| ErrorLog.Logger.ErrorInit | src/utils/error.c:35-58 | the new state and status are the specified ones |
| ErrorLog.Logger.ErrorCleanup | src/utils/error.c:63-78 | the new state is the specified cleanup |
| ErrorLog.Logger.LogMessage | src/utils/error.c:83-124 | the new state is the specified routed log |
| ErrorLog.Logger.FatalError | src/utils/error.c:129-146 | the new state is the specified fatal report and the exit status is the code's |
| ErrorLog.Logger.CheckError | src/utils/error.c:151-169 | logs only when the condition holds and returns the specified result; the second formatting pass of error.c:163 is admitted under Left out |

## Left out

- Formatting: `printf`/`snprintf` with `%.2f`, ANSI cursor movement, screen clearing and the usage text of `printUsage`. Formatted numbers enter the model as byte strings given by the caller.
- Sleeping, `fork`, `exec`, `wait`, `kill`, signal installation and real concurrency. The producers and the parent are modelled as separate steps over the same pipes, and pipe reads never block.
- `getopt_long`'s reordering of arguments and `atoi`'s parsing. Flags and positionals arrive already split, and each argument carries its `atoi` value.
- The `fgets` buffer length of 32 bytes in the termination prompt. A line is taken whole, so longer answers are not split across prompts.
- The pipes are created twice, in `main.c` and in `setupPipes`. The model has one set.
- A short read of a snapshot is treated as no snapshot. The C keeps stale bytes in the array.
- CpuCli.CliUsage: does not model the 64-bit wrap of the `unsigned long` counter sums; counters are unbounded naturals.
- Gui.GuiEmit: same for the GUI estimator's sums. The `double`/`float` arithmetic is exact real arithmetic, and the CPU history's `float` cast is not modelled.
- Gui.AppleMemoryInfo: takes its figures from the platform_mac.c back-end only. A build linking platform_darwin.c instead would report used memory as physical plus swap in use (`PlatformDarwin.MemoryUsage`), and that pairing is not modelled in the GUI.
- GuiUtils.Escape: characters are Unicode code points. glib's UTF-8 validation of the text is not modelled, and neither are its replacement of invalid sequences nor any escaping beyond the five markup characters and the listed control characters.
- Floating-point rounding in all memory, percentage and uptime figures; they are reals.
- Users.StoreUserInfo: requires fewer than 2^31 utmp records, so that the `int` count does not overflow.
- `uname` strings in the system information block, `time`/`strftime` and the log file's open result. They are parameters or left out.
- ErrorLog.Logger.FatalError: the C passes the message through a format string a second time; the model logs it as given.
- ErrorLog.Logger.CheckError: error.c:163 passes the formatted message to `log_message` as its format string, so the C formats it a second time (a message `a%%b` is logged as `a%b`, and a `%d` in it reads a missing argument); the model logs the message as given.
- The GTK widget tree, drawing callbacks, timers and the GUI entry points (`init_gui`, `run_gui`, `cleanup_gui`) are not part of this model. Only the computations behind them are.
- Main.LongestFrameRejected: shows that a 1023-byte memory line would desynchronise the stream. No line the memory child formats is that long, so this is noted, not listed as a finding.

## Findings

| source | as written | input that shows it | evidently intended | confidence | as-written member | corrected member |
|---|---|---|---|---|---|---|
| src/core/user.c:88-102 | `len > sizeof(buffer)` lets a 4096-byte frame through, and `buffer[bytesRead] = '\0'` then writes index 4096 of a 4096-byte buffer | a session text of 4095 bytes (the user child's maximum), sent with its NUL | the terminator stays inside the buffer (a buffer one byte larger, or a `>=` test) | not executed | Users.FullFrameOverrunsBuffer | Users.PrintUserInfo |
| src/core/memory.c:120-121 | `strcat(memArr[iteration], graphicsStr)` appends up to 1023 bytes of graphic to a row that may already hold up to 1023 bytes of text | a 42-byte memory line with a graphic for a change of 10 GB | the append is bounded by the space left in the 1024-byte row | not executed | Memory.StrcatOverflowsRow | Memory.AppendGraphic |
