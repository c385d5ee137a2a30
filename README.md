# Bundler control plane in Dafny

This project models the control plane of a traffic "bundler": the Python
code that starts, checks and stops the bundler's processes, and builds the
tc filters that steer traffic through it. It covers three files.

- **tc.py.** The port-range-to-bitmask compiler `mask`, `range_from_mask`,
  and `make_filter`, which builds the `tc filter add … u32 …` invocation.
  It is modelled in the modules `Bits` (Python's `|` and `&` on
  non-negative integers) and `Tc`. The shifts of `mask` are written as
  halving (`mask >> 1`) and as doubling modulo 2^16 (`(mask << 1) & 0xffff`).
- **util.py.** `CommandRunner`, which builds every shell command line
  (`run`) and turns exit statuses into exceptions (`expect`, `check_proc`,
  `check_procs`, `check_file`, `search_file`). It is modelled in the
  modules `Shell` (functions over values) and `Util` (the class, proved
  against `Shell`).
- **bundler.py.** The `Bundler` lifecycle: `activate`, `check_alive`,
  `check_dead`, `_kill_all` and `deactivate`, over an activation flag and
  two parallel registries of process names and log files. It is modelled
  in the modules `Lifecycle` (functions over values) and `Orchestrator`
  (the class, proved against `Lifecycle`).

`Outcomes` holds the result type and the two exception classes.
`Text` holds Python's `str(int)`, `hex`, `str.join` and `os.path.join`.

The operating system is an oracle. `os(n, line)` is the exit status of the
n-th command line handed to `subprocess.call`. A runner records the lines
it has executed and the messages it has logged. In dry mode it executes
nothing, and every status is 0.

Exceptions are returned values. `Exception(msg)` is Python's built-in
class, raised by `expect` and `make_filter`. `BundlerException(msg)` is
bundler.py's own class. The distinction matters because `check_dead`
catches only the second.

Where the docstrings and the code disagree, the model follows the code:

- The docstring of `mask` (tc.py:8-9) gives `mask(5000, 6000)` as 61440
  (0xf000). The code returns the pair `('0xf800', (5000, 6143))`, which
  `Tc.MaskExample` proves.
- The docstring of `activate` (bundler.py:122) says a failed start raises
  `BundlerException`. The starts raise plain `Exception` through `expect`
  (`Lifecycle.StartAll`).
- The docstring of `check_alive` (bundler.py:151) says it raises when a
  log has error messages. The code raises when a log has none; see
  Findings.
- The docstring of `check_dead` (bundler.py:162) says it returns True when
  every component is dead. The code raises instead when `pgrep` finds
  nothing; see Findings.
- The docstring of `deactivate` (bundler.py:138) says it removes all
  associated tc and pcap filters. `_remove_all_filters` is a stub that
  never raises (bundler.py:173-176).
- The destination match of `make_filter` is `match dport …`, without the
  `ip` selector that the other matches carry (tc.py:72). The model keeps
  this text.

## Model

| member | source | states |
|---|---|---|
| Text.Digits | tc.py:71 | a printed number is never empty and has no leading zero |
| Text.DigitsRoundTrip | tc.py:15 | reading back the digits `str`/`hex` print gives the number itself |
| Text.PathJoin | bundler.py:187-190 | the joined path ends with the name, and starts with the directory unless the name is absolute |
| Bits.OrSetsLow | tc.py:18 | `n \| (2^k - 1)` is `n` with its low k bits set |
| Bits.AndClearsLow | tc.py:71-72 | and-ing a port below 2^w with the run mask 2^w - 2^k clears exactly its low k bits |
| Bits.GrowRun | tc.py:13 | or-ing a run mask with itself shifted right by one extends the run one bit lower |
| Bits.SetLowMonotone | tc.py:12 | freeing more bits never lowers the upper bound of the range |
| Bits.SetLowFull | tc.py:18 | a number below 2^w with all its w low bits set is 2^w - 1, so a fully free 16-bit range ends at 0xffff |
| Bits.SameHighBits | tc.py:71-72 | two ports agree above bit k exactly when one lies between the other with those bits cleared and with them set |
| Tc.RangeFromMask | tc.py:17-18 | the reported range starts at `n` and never ends below it, and a 16-bit port's range stays within 16 bits |
| Tc.RunMask | tc.py:11-14 | every mask the loop produces fits in 16 bits |
| Tc.RangeOfRunMask | tc.py:17-18 | the range of a mask with k free bits runs from `start` to `start` with its low k bits set |
| Tc.GrowMask | tc.py:13 | the loop body turns the mask with k free bits into the mask with k - 1 free bits |
| Tc.ShiftMask | tc.py:14 | `(mask << 1) & 0xffff` frees one more bit, turning 0x8000 into 0 |
| Tc.FinalFree | tc.py:11-14 | the number of free bits of the result is between 1 and 16; with one bit fewer the range ends at or below `end`; with that many it passes `end` unless all 16 are free |
| Tc.RelaxedIsResult | tc.py:12-14 | running the loop from 0x8000, or from any mask entered because the wider one overshot, ends at a result with that property |
| Tc.ResultIsUnique | tc.py:12-14 | only one number of free bits has that property |
| Tc.Mask | tc.py:5-15 | the loop terminates for `start <= end` and returns the hex text of that mask with `range_from_mask` of it |
| Tc.MaskCoversEnd | tc.py:12-15 | the reported range reaches `end` |
| Tc.MaskFreesABit | tc.py:11-14 | the returned mask always leaves at least one bit free; freeing one bit fewer would not reach past `end`; and when the loop body never runs the mask is 0 |
| Tc.MaskOvershootsEnd | tc.py:12-15 | once the loop body has run, the reported range ends strictly above `end` |
| Tc.MatchedRange | tc.py:71-72 | a u32 rule `value mask` with k free bits matches exactly the ports from `value` with its low k bits cleared to `value` with them set |
| Tc.ReportedWithinMatched | tc.py:15-18 | the reported range ends where the matched range ends and never starts below it |
| Tc.ReportedRangeIsMatched | tc.py:15-18 | every port of the reported range is matched by the rule `start mask` |
| Tc.MaskExampleFree | tc.py:8-15 | for 5000..6000 the mask keeps 11 bits free |
| Tc.MaskExample | tc.py:8-15 | `mask(5000, 6000)` is the mask 0xf800, returned as the text "0xf800", with range (5000, 6143), not the documented 61440 |
| Tc.ReportedRangeMissesMatches | tc.py:15-18 | the rule `5000 0xf800` matches port 4096, below the reported range; the matched range is 4096..6143 |
| Tc.ProtocolNumber | tc.py:48-53 | only "tcp" and "udp" are accepted |
| Tc.Filter | tc.py:24-74 | `make_filter` succeeds exactly for tcp and udp, raises the source's message otherwise, and never narrows a range: each reported range starts at the requested start and reaches the requested end |
| Tc.MakeFilter | tc.py:24-74 | `make_filter` rejects other protocols and otherwise runs `mask` on each direction independently and formats the tc invocation |
| Tc.FilterRejectsUnknownProtocol | tc.py:52-53 | any other protocol raises `Exception` with the source's message |
| Tc.FilterRanges | tc.py:55-74 | an accepted filter reports, for each direction, the range `mask` computes from that direction's own start and end |
| Tc.FilterCommandFor | tc.py:63-73 | the invocation uses 6 for tcp and 17 for udp, and each direction's start and computed mask |
| Tc.CommandNamesClass | tc.py:66-73 | the invocation contains the fixed `protocol ip prio 6` and `flowid 1:2` |
| Tc.CommandNamesProtocol | tc.py:68 | the invocation contains `protocol N 0xff` |
| Tc.CommandNamesAddresses | tc.py:69-70 | the invocation contains both addresses verbatim |
| Tc.CommandNamesSourcePort | tc.py:71 | the invocation contains `match ip sport <start> <hex mask>` |
| Tc.CommandNamesDestinationPort | tc.py:72 | the invocation contains `match dport <start> <hex mask>` |
| Tc.HexMaskReadsBack | tc.py:15 | the mask text starts with `0x` and reads back as the mask |
| Shell.Escape | util.py:18 | escaping never shortens a command and leaves only the empty command empty |
| Shell.EscapeWithoutQuotes | util.py:18 | a command without double quotes passes through unchanged |
| Shell.EscapeRoundTrip | util.py:18 | escaping double quotes loses nothing: unescaping gives the command back |
| Shell.EscapeInjective | util.py:18 | different commands escape to different text |
| Shell.EscapedQuotes | util.py:18 | every double quote of an escaped command follows a backslash |
| Shell.CommandLineFrame | util.py:13-38 | the line opens with `cd`/`screen`/`sudo`/`bash -c "` as the options ask, and closes with the redirections and the closing quote |
| Shell.CommandLineInjective | util.py:13-38 | with the same options, different commands give different command lines |
| Shell.CommandLineReadBack | util.py:13-38 | the command is recovered from its command line, between the fixed prefix and suffix |
| Shell.BackgroundIgnoresStdin | util.py:27-28 | a background command reads /dev/null whatever `stdin` says |
| Shell.VerboseKeepsOutput | util.py:22-26 | `ignore_out` has no effect on a verbose runner |
| Shell.SilentIgnoreOutDiscards | util.py:22-26 | a silent runner with `ignore_out` sends default output and errors to /dev/null |
| Shell.IgnoreOutKeepsNamedFiles | util.py:22-26 | `ignore_out` leaves explicitly named output files alone |
| Shell.Run | util.py:40-44 | a dry run returns 0 and executes nothing; a live run hands exactly its command line to the operating system and returns that line's status |
| Shell.RunEffects | util.py:40-44 | a dry run returns 0, executes nothing and logs `"> " + line`; a live run returns the oracle's status for exactly one executed line |
| Shell.Expect | util.py:86-88 | `expect` raises `Exception(msg)` exactly when its argument is truthy |
| Shell.CheckStatus | util.py:47-78 | a check hands its line to the operating system unless dry, passes exactly when dry or when the line exits 0, and otherwise raises its message |
| Shell.FileExists | util.py:47-51 | `ls fname` is checked, with message "file does not exist: fname" |
| Shell.ProgExists | util.py:53-57 | `which prog` is checked, with message "program does not exist: prog" |
| Shell.CheckProc | util.py:59-63 | `pgrep -f name` is checked, naming the process in its message |
| Shell.CheckProcs | util.py:65-69 | `pgrep -f -c "regex"` is checked as root, naming the regular expression in its message |
| Shell.CheckFile | util.py:71-78 | `grep "s" file` is checked: it passes when the string is found, and names both in its message |
| Shell.SearchFile | util.py:80-84 | the same grep with the opposite outcome: it passes exactly when live and the string is not found |
| Shell.CheckStatusLive | util.py:59-78 | outside dry mode a check passes exactly when its command exits 0, and otherwise raises its message |
| Shell.CheckStatusDry | util.py:40-42 | in dry mode every check passes without executing anything |
| Shell.SearchFileDry | util.py:80-84 | in dry mode `search_file` always raises, because the 0 a dry run returns reads as "found" |
| Shell.CheckFileOpposesSearchFile | util.py:71-84 | `check_file` and `search_file` issue the same grep, and exactly one of them raises |
| Util.CommandRunner.constructor | util.py:4-10 | the runner is silent unless verbose and has done nothing yet |
| Util.CommandRunner.Run | util.py:12-44 | building the line step by step gives the line and effect of `Shell.Run` |
| Util.CommandRunner.CheckProc | util.py:59-63 | has exactly the effect of `Shell.CheckProc` |
| Util.CommandRunner.CheckProcs | util.py:65-69 | has exactly the effect of `Shell.CheckProcs` |
| Util.CommandRunner.CheckFile | util.py:71-78 | has exactly the effect of `Shell.CheckFile` |
| Util.CommandRunner.SearchFile | util.py:80-84 | has exactly the effect of `Shell.SearchFile` |
| Util.CommandRunner.FileExists | util.py:47-51 | has exactly the effect of `Shell.FileExists` |
| Util.CommandRunner.ProgExists | util.py:53-57 | has exactly the effect of `Shell.ProgExists` |
| Lifecycle.LogPath | bundler.py:187-188 | a log path ends with `<name>.log` |
| Lifecycle.BinPath | bundler.py:189-190 | a binary path ends with the program's name |
| Lifecycle.LaunchOptions | bundler.py:205-208 | components start as root, in the background, reading /dev/null and writing both streams to their log |
| Lifecycle.InboxCommand | bundler.py:196-204 | the inbox command starts with the inbox binary and ends with `--qtype=prio --buffer=<size>` |
| Lifecycle.CcpCommand | bundler.py:227-234 | the CCP command starts with the algorithm's binary and `--ipc=unix`, with nothing after it when there are no arguments |
| Lifecycle.OutboxCommand | bundler.py:251-261 | the outbox command starts with the outbox binary and `--filter` |
| Lifecycle.CcpFlags | bundler.py:227 | one `--key="val"` flag per keyword argument, in order |
| Lifecycle.CcpFlagsInOrder | bundler.py:227-234 | each argument's `--key="val"` flag occurs in the CCP command after `--ipc=unix`, in dictionary order, and each flag after the first directly follows the previous flag and one space |
| Text.JoinOccurs | bundler.py:233 | every part occurs in `sep.join(parts)` at its offset, after the earlier parts and their separators |
| Text.JoinAdjacent | bundler.py:233 | in `sep.join(parts)` each part is followed by the separator and then by the next part |
| Lifecycle.OutboxFilter | bundler.py:252-257 | the outbox is given the quoted filter `src portrange a-b` of the other inbox's ports |
| Lifecycle.StartChecked | bundler.py:196-212 | a failed start or check always raises a plain `Exception` |
| Lifecycle.Launch | bundler.py:193-215 | a start registers its process and log together, and only when the start and all its checks pass |
| Lifecycle.LaunchLive | bundler.py:196-212 | outside dry mode a start succeeds exactly when the start, `pgrep` and marker grep commands all exit 0 |
| Lifecycle.LaunchDry | bundler.py:196-212 | in dry mode every start succeeds without executing anything |
| Lifecycle.StartInbox | bundler.py:193-215 | a successful start registers `inbox` with `inbox.log`; a failed one registers nothing and raises a plain `Exception` |
| Lifecycle.StartCcp | bundler.py:217-245 | a successful start registers the algorithm's name with `ccp.log`; a failed one registers nothing and raises a plain `Exception` |
| Lifecycle.StartOutbox | bundler.py:248-271 | a successful start registers `outbox` with `outbox.log`; a failed one registers nothing and raises a plain `Exception` |
| Lifecycle.StartAll | bundler.py:131-133 | the three starts never touch the flag and raise only plain exceptions |
| Lifecycle.Activate | bundler.py:114-133 | the bundler is activated afterwards even when a start failed; `activate` raises `BundlerException` exactly when already activated |
| Lifecycle.ActivateTwiceRejected | bundler.py:126-127 | `activate` on an activated bundler changes nothing and issues no command |
| Lifecycle.ActivateRegisters | bundler.py:129-133 | a successful `activate` registers inbox, the algorithm and outbox, with CCP logging to `ccp.log`; a failed one registers only the components started before the failure |
| Lifecycle.ActivateDry | bundler.py:114-133 | in dry mode `activate` succeeds and registers all three without executing anything |
| Lifecycle.ActivateKeepsParallel | bundler.py:214-215 | the process and log registries keep equal length |
| Lifecycle.CheckAliveNothingStarted | bundler.py:154-155 | `check_alive` with nothing registered raises `BundlerException` |
| Lifecycle.CheckLogs | bundler.py:157-158 | the log loop raises only plain exceptions, only when a log is registered, and issues at most one command per log |
| Lifecycle.CheckAlive | bundler.py:147-158 | `check_alive` raises `BundlerException` with the source's message exactly when nothing is registered, and only plain exceptions otherwise |
| Lifecycle.CheckLogsLive | bundler.py:157-158 | the log loop passes exactly when every log contains "err" |
| Lifecycle.CheckAliveLive | bundler.py:147-158 | outside dry mode `check_alive` passes exactly when `pgrep` finds the processes and every log contains "err" |
| Lifecycle.CheckLogsDry | bundler.py:157-158 | in dry mode the log loop passes without executing anything |
| Lifecycle.CheckDeadNothingStarted | bundler.py:165-166 | with nothing registered, `check_dead` answers true without a command |
| Lifecycle.CheckDead | bundler.py:160-171 | `check_dead` answers true exactly when nothing is registered, and raises only plain exceptions |
| Lifecycle.CheckDeadLive | bundler.py:160-171 | outside dry mode `check_dead` answers false when `pgrep` finds the processes and otherwise raises `Exception` |
| Lifecycle.CheckDeadNeverTrue | bundler.py:167-170 | for registered processes `check_dead` never answers true |
| Lifecycle.KillCommand | bundler.py:179-180 | the kill command is a `pkill -9` of the group of registered names |
| Lifecycle.KillAll | bundler.py:178-184 | `_kill_all` either empties both registries or raises and keeps them |
| Lifecycle.KillAllDry | bundler.py:178-184 | in dry mode `_kill_all` succeeds and forgets every process |
| Lifecycle.KillAllLiveFails | bundler.py:178-184 | outside dry mode `_kill_all` with registered processes always raises and keeps both registries |
| Lifecycle.KillAllLiveNothingStarted | bundler.py:178-184 | outside dry mode with nothing registered `_kill_all` succeeds after its empty pkill |
| Lifecycle.Deactivate | bundler.py:136-144 | a successful `deactivate` leaves an inactive bundler with nothing registered; a failed one changes no registry |
| Lifecycle.DeactivateThenActivate | bundler.py:136-144 | after a successful `deactivate` the next `activate` is not refused |
| Lifecycle.DryLifecycle | bundler.py:114-184 | in dry mode activate, check_alive and deactivate all succeed and return to an inactive, empty bundler |
| Lifecycle.KillAllIntendedLive | bundler.py:160-184 | with the intended `check_dead`, `_kill_all` succeeds exactly when `pgrep` finds no process after the kill, and otherwise raises `BundlerException` |
| Lifecycle.SearchLogsLive | bundler.py:157-158 | the intended log loop passes exactly when no log contains "err" |
| Lifecycle.CheckAliveIntendedLive | bundler.py:147-158 | the intended `check_alive` passes exactly when `pgrep` finds the processes and no log contains "err" |
| Lifecycle.CleanLogFailsCheckAlive | bundler.py:157-158 | a running bundler with a clean log fails the written `check_alive` and passes the intended one |
| Orchestrator.Bundler.constructor | bundler.py:96-112 | a new bundler is inactive with empty registries and a non-verbose runner |
| Orchestrator.Bundler.Launch | bundler.py:193-215 | updating the registries in place has exactly the effect of `Lifecycle.Launch` |
| Orchestrator.Bundler.StartInbox | bundler.py:193-215 | has exactly the effect of `Lifecycle.StartInbox` |
| Orchestrator.Bundler.StartCcp | bundler.py:217-245 | has exactly the effect of `Lifecycle.StartCcp` |
| Orchestrator.Bundler.StartOutbox | bundler.py:248-271 | has exactly the effect of `Lifecycle.StartOutbox` |
| Orchestrator.Bundler.Activate | bundler.py:114-133 | has exactly the effect of `Lifecycle.Activate` |
| Orchestrator.Bundler.CheckAlive | bundler.py:147-158 | its loop over the logs has exactly the effect of `Lifecycle.CheckAlive` |
| Orchestrator.Bundler.CheckDead | bundler.py:160-171 | has exactly the effect of `Lifecycle.CheckDead` |
| Orchestrator.Bundler.RemoveAllFilters | bundler.py:173-176 | never raises |
| Orchestrator.Bundler.KillAll | bundler.py:178-184 | has exactly the effect of `Lifecycle.KillAll` |
| Orchestrator.Bundler.Deactivate | bundler.py:136-144 | has exactly the effect of `Lifecycle.Deactivate` |

## Left out

- `subprocess.call` is an oracle on the line and its position. Its
  keyword arguments (`pty` and `**kwargs` of `run`) are not modelled.
- The log callback is a flag saying whether one was given. What it does
  with a message is not modelled.
- `pgrep`, `grep` and `pkill` are represented only by their exit
  statuses. Process tables and log contents are not modelled.
- `filter` and `apply_filter` of tc.py only hand fixed text to the
  operating system, so they are not modelled.
- `Tc.Mask` requires `start <= end`, because the loop of `mask` never
  ends otherwise.
- `Tc.Mask` and `Tc.MakeFilter` take ports in 0..65535. Python accepts
  any integer there; larger or negative values are not modelled.
- `Lifecycle.BundlerConfig` holds ports and the sample rate as integers
  formatted with `str`, and the buffer size as a string. Other Python
  values in these fields are not modelled. `outbox_inband_port` is unused
  by the code and by the model.
- `Lifecycle.CCAlg` holds keyword arguments as an ordered list of string
  pairs, in dictionary order. Non-string values, formatted by `str`, are
  not modelled.
- `Text.PathJoin` joins two components only, which is all bundler.py
  uses.
- `Orchestrator.Bundler.constructor` always creates a non-verbose runner,
  as `Bundler.__init__` does. The `verbose` flag of `CommandRunner` is
  modelled in `Util` and `Shell`.
- The orchestrator classes keep the code as written. The corrected
  `check_dead`, `_kill_all` and `check_alive` of the Findings exist only
  as functions in `Lifecycle`.
- test.py, which drives the real system, and the commented-out
  `BundlerConfig` class (bundler.py:52-75) are not part of this model.
- Concurrency is not modelled; the Python code is single-threaded.

## Findings

| source | as written | input that shows it | evidently intended | confidence | as-written member | corrected member |
|---|---|---|---|---|---|---|
| tc.py:15-18 | `range_from_mask` reports `start` as the lower bound of the new range, but the u32 rule `start mask` also matches every port below `start` that shares its fixed high bits | `mask(5000, 6000)` reports (5000, 6143), while the rule `5000 0xf800` matches 4096..6143, including 4096 | report the range the rule matches, from `start` with its free bits cleared to `start` with them set | not executed | Tc.ReportedRangeMissesMatches | Tc.MatchedRange |
| bundler.py:167-170 | `check_dead` catches only `BundlerException`, but `check_procs` raises plain `Exception` (util.py:88). When `pgrep` finds nothing, `check_dead` raises instead of answering true, and `_kill_all` outside dry mode always raises once anything is registered | live runner, registry `['inbox']`, `pgrep -f -c "inbox"` exits 1 after the pkill | treat a failing `check_procs` as "dead", so `_kill_all` succeeds when the processes are gone | not executed | Lifecycle.KillAllLiveFails | Lifecycle.KillAllIntendedLive |
| bundler.py:157-158 | `check_alive` checks each log with `check_file('err', …)`, which raises when "err" is absent, so a healthy bundler fails and a log with an error passes | live runner, processes running, `inbox.log` without "err": grep exits 1 and `check_alive` raises | use `search_file`, which raises when "err" is present | not executed | Lifecycle.CheckAliveLive | Lifecycle.CheckAliveIntendedLive |
