/** The lifecycle of a bundler (bundler.py), as functions over values: the
    commands that start the inbox, CCP and the outbox, and what `activate`,
    `check_alive`, `check_dead`, `_kill_all` and `deactivate` do to the
    bundler's state and to its command runner. The `Bundler` class of the
    Orchestrator module is proved to behave exactly as these functions say. */
module Lifecycle {
  import opened Outcomes
  import opened Text
  import opened Shell

  /** A CCP congestion control algorithm: its name and the `key=val`
      arguments passed to CCP, in the order of the keyword dictionary. */
  datatype CCAlg = CCAlg(name: string, kwargs: seq<(string, string)>)

  /** The `BundlerConfig` named tuple. */
  datatype BundlerConfig = BundlerConfig(
    outgoingIface: string,
    incomingIface: string,
    inboxInbandPort: int,
    outboxInbandPort: int,
    initialSampleRate: int,
    qdiscBufferSize: string,
    otherInbox: string,
    otherInboxPorts: (int, int))

  /** Where the binaries live and where the logs go. */
  datatype Dirs = Dirs(bin: string, log: string)

  /** The state of a bundler: the activation flag, the names of the
      processes it has started and their log files (two parallel lists), and
      what its command runner has done so far. */
  datatype State = State(activated: bool, procs: seq<string>, logs: seq<string>, io: Io)

  /** A freshly constructed bundler. */
  const Fresh := State(false, [], [], Io([], []))

  const AlreadyActivated := "bundler already activated, call deactivate() first"
  const NothingStarted := "called check_alive(), but no processes have been started yet"
  const KillFailed := "failed to kill all bundler processes"

  /** `_get_log_path`: `log_dir/<proc>.log`. */
  function LogPath(d: Dirs, proc: string): (p: string)
    ensures |p| >= |proc| + 4 && p[|p| - |proc| - 4..] == proc + ".log"
  {
    PathJoin(d.log, proc + ".log")
  }

  /** `_get_bin_path`: `bin_dir/<proc>`. */
  function BinPath(d: Dirs, proc: string): (p: string)
    ensures |p| >= |proc| && p[|p| - |proc|..] == proc
  {
    PathJoin(d.bin, proc)
  }

  /** How every component is started: as root, in the background, with both
      output streams going to its log file. */
  function LaunchOptions(outfile: string): (o: RunOptions)
    ensures o.sudo && o.background && o.stdout == outfile && o.stderr == outfile
    ensures Stdin(o) == "/dev/null"
  {
    Defaults.(sudo := true, background := true, stdout := outfile, stderr := outfile)
  }

  /** The inbox is started from its binary and ends its arguments with the
      queue type and the buffer size. */
  function InboxCommand(d: Dirs, c: BundlerConfig): (cmd: string)
    ensures |cmd| >= |BinPath(d, "inbox")| && cmd[..|BinPath(d, "inbox")|] == BinPath(d, "inbox")
    ensures var tail := " --qtype=prio --buffer=" + c.qdiscBufferSize;
      |cmd| >= |tail| && cmd[|cmd| - |tail|..] == tail
  {
    var bin := BinPath(d, "inbox");
    var middle := " --iface=" + c.outgoingIface
      + " --port=" + IntToString(c.inboxInbandPort)
      + " --sample_rate=" + IntToString(c.initialSampleRate);
    var tail := " --qtype=prio --buffer=" + c.qdiscBufferSize;
    assert (bin + middle + tail)[..|bin|] == bin;
    assert (bin + middle + tail)[|bin| + |middle|..] == tail;
    bin + middle + tail
  }

  /** One CCP flag `--key="val"` per keyword argument, in order. */
  function CcpFlags(kwargs: seq<(string, string)>): (flags: seq<string>)
    ensures |flags| == |kwargs|
    ensures forall i :: 0 <= i < |kwargs| ==> flags[i] == "--" + kwargs[i].0 + "=\"" + kwargs[i].1 + "\""
  {
    if kwargs == [] then []
    else ["--" + kwargs[0].0 + "=\"" + kwargs[0].1 + "\""] + CcpFlags(kwargs[1..])
  }

  /** CCP is started from the algorithm's binary with `--ipc=unix`; without
      keyword arguments nothing follows. */
  function CcpCommand(d: Dirs, alg: CCAlg): (cmd: string)
    ensures var head := BinPath(d, alg.name) + " --ipc=unix ";
      |cmd| >= |head| && cmd[..|head|] == head && (alg.kwargs == [] ==> cmd == head)
  {
    var head := BinPath(d, alg.name) + " --ipc=unix ";
    assert (head + Join(" ", CcpFlags(alg.kwargs)))[..|head|] == head;
    head + Join(" ", CcpFlags(alg.kwargs))
  }

  /** The pcap filter the outbox listens with. */
  function PortRange(ports: (int, int)): string
  {
    "src portrange " + IntToString(ports.0) + "-" + IntToString(ports.1)
  }

  function Quoted(s: string): string
  {
    "\"" + s + "\""
  }

  /** The outbox's arguments after its filter. */
  function OutboxOptions(c: BundlerConfig): string
  {
    " --iface " + c.incomingIface + " --inbox " + c.otherInbox
    + " --sample_rate " + IntToString(c.initialSampleRate)
  }

  /** The outbox is started from its binary, its pcap filter first. */
  function OutboxCommand(d: Dirs, c: BundlerConfig): (cmd: string)
    ensures var head := BinPath(d, "outbox") + " --filter ";
      |cmd| >= |head| && cmd[..|head|] == head
  {
    var head := BinPath(d, "outbox") + " --filter ";
    var rest := Quoted(PortRange(c.otherInboxPorts)) + OutboxOptions(c);
    assert head + Quoted(PortRange(c.otherInboxPorts)) + OutboxOptions(c) == head + rest;
    assert (head + rest)[..|head|] == head;
    head + Quoted(PortRange(c.otherInboxPorts)) + OutboxOptions(c)
  }

  /** The shared shape of `_start_inbox`, `_start_ccp` and `_start_outbox`:
      start the command, raise `msg` if that fails, check that the process
      runs and, when a marker is given, that its log shows the marker, and
      only then register the process and its log. The registries change
      together and only on success; the flag never changes. */
  function Launch(r: Runner, s: State, cmd: string, msg: string, proc: string,
                  marker: Option<string>, outfile: string): (res: (Result<()>, State))
    ensures Starts(s, res, proc, outfile)
  {
    var (checked, io) := StartChecked(r, s.io, cmd, msg, proc, marker, outfile);
    if checked.Err? then (checked, s.(io := io))
    else (Ok(()), s.(procs := s.procs + [proc], logs := s.logs + [outfile], io := io))
  }

  /** The commands of a launch: start, `check_proc` and, with a marker,
      `check_file`, stopping at the first that raises. Every failure is a
      plain `Exception`. */
  function StartChecked(r: Runner, io: Io, cmd: string, msg: string, proc: string,
                        marker: Option<string>, outfile: string): (res: (Result<()>, Io))
    ensures res.0.Err? ==> res.0.error.Exception?
  {
    var (status, io1) := Run(r, io, cmd, LaunchOptions(outfile));
    if status != 0 then (Expect(true, msg), io1)
    else
      var (running, io2) := CheckProc(r, io1, proc);
      if running.Err? then (running, io2)
      else if marker.Some? then CheckFile(r, io2, marker.value, outfile)
      else (Ok(()), io2)
  }

  /** What a start promises: the flag is untouched; on success the process
      and its log are registered, on failure nothing is and the error is a
      plain `Exception`. */
  predicate Starts(s: State, res: (Result<()>, State), proc: string, log: string)
  {
    res.1.activated == s.activated &&
    (res.0.Ok? ==> res.1.procs == s.procs + [proc] && res.1.logs == s.logs + [log]) &&
    (res.0.Err? ==> res.1.procs == s.procs && res.1.logs == s.logs && res.0.error.Exception?)
  }

  function StartInbox(r: Runner, d: Dirs, s: State, c: BundlerConfig): (res: (Result<()>, State))
    ensures Starts(s, res, "inbox", LogPath(d, "inbox"))
  {
    Launch(r, s, InboxCommand(d, c), "failed to start send side", "inbox",
      Some("Wait for CCP to install datapath program"), LogPath(d, "inbox"))
  }

  /** CCP runs under the algorithm's name but always logs to `ccp.log`. */
  function StartCcp(r: Runner, d: Dirs, s: State, alg: CCAlg): (res: (Result<()>, State))
    ensures Starts(s, res, alg.name, LogPath(d, "ccp"))
  {
    Launch(r, s, CcpCommand(d, alg), "failed to start ccp", alg.name,
      Some("starting CCP"), LogPath(d, "ccp"))
  }

  function StartOutbox(r: Runner, d: Dirs, s: State, c: BundlerConfig): (res: (Result<()>, State))
    ensures Starts(s, res, "outbox", LogPath(d, "outbox"))
  {
    Launch(r, s, OutboxCommand(d, c), "failed to start recv side", "outbox",
      None, LogPath(d, "outbox"))
  }

  /** The processes `activate` registers, in order, and their logs. */
  function Components(alg: CCAlg): seq<string>
  {
    ["inbox", alg.name, "outbox"]
  }

  function ComponentLogs(d: Dirs): seq<string>
  {
    [LogPath(d, "inbox"), LogPath(d, "ccp"), LogPath(d, "outbox")]
  }

  /** The three starts of `activate`, stopping at the first that raises. */
  function StartAll(r: Runner, d: Dirs, s: State, alg: CCAlg, c: BundlerConfig): (res: (Result<()>, State))
    ensures res.1.activated == s.activated
    ensures res.0.Err? ==> res.0.error.Exception?
  {
    var (inbox, s1) := StartInbox(r, d, s, c);
    if inbox.Err? then (inbox, s1)
    else
      var (ccp, s2) := StartCcp(r, d, s1, alg);
      if ccp.Err? then (ccp, s2)
      else StartOutbox(r, d, s2, c)
  }

  /** `activate`: refused on an activated bundler; otherwise the flag is set
      first and the three components are started. The bundler is activated
      afterwards even when a start failed, and the refusal is the only
      `BundlerException` it raises. */
  function Activate(r: Runner, d: Dirs, s: State, alg: CCAlg, c: BundlerConfig): (res: (Result<()>, State))
    ensures res.1.activated
    ensures res.0 == Err(BundlerException(AlreadyActivated)) <==> s.activated
  {
    if s.activated then (Err(BundlerException(AlreadyActivated)), s)
    else StartAll(r, d, s.(activated := true), alg, c)
  }

  /** The alternation `check_procs` is given: the names joined with `|`. */
  function ProcsRegex(procs: seq<string>): string
  {
    Join("|", procs)
  }

  /** The command line `check_procs` issues for the registered names. */
  function ProcsLine(r: Runner, procs: seq<string>): string
  {
    CommandLine(r.silent, ProcsCommand(ProcsRegex(procs)), Defaults.(sudo := true))
  }

  /** The command line `check_file` and `search_file` issue to look for
      "err" in a log. */
  function ErrLine(r: Runner, log: string): string
  {
    CommandLine(r.silent, GrepCommand("err", log), Defaults)
  }

  /** The loop of `check_alive`: `check_file('err', log)` on each log in
      order, stopping at the first that raises. */
  function CheckLogs(r: Runner, io: Io, logs: seq<string>): (res: (Result<()>, Io))
    ensures res.0.Err? ==> logs != [] && res.0.error.Exception?
    ensures |io.executed| <= |res.1.executed| <= |io.executed| + |logs|
    decreases |logs|
  {
    if logs == [] then (Ok(()), io)
    else
      var (res, io1) := CheckFile(r, io, "err", logs[0]);
      if res.Err? then (res, io1) else CheckLogs(r, io1, logs[1..])
  }

  /** `check_alive`: raises `BundlerException` exactly when nothing is
      registered, and only plain exceptions otherwise. */
  function CheckAlive(r: Runner, s: State): (res: (Result<()>, Io))
    ensures s.procs == [] ==> res == (Err(BundlerException(NothingStarted)), s.io)
    ensures s.procs != [] && res.0.Err? ==> res.0.error.Exception?
  {
    if s.procs == [] then (Err(BundlerException(NothingStarted)), s.io)
    else
      var (res, io1) := CheckProcs(r, s.io, ProcsRegex(s.procs));
      if res.Err? then (res, io1) else CheckLogs(r, io1, s.logs)
  }

  /** `check_dead`: true when nothing is registered; otherwise false when
      `check_procs` passes. Only a `BundlerException` from `check_procs`
      counts as "dead"; any other exception propagates. */
  function CheckDead(r: Runner, s: State): (res: (Result<bool>, Io))
    ensures res.0 == Ok(true) <==> s.procs == []
    ensures res.0.Err? ==> res.0.error.Exception?
  {
    if s.procs == [] then (Ok(true), s.io)
    else
      var (res, io1) := CheckProcs(r, s.io, ProcsRegex(s.procs));
      if res.Ok? then (Ok(false), io1)
      else if res.error.BundlerException? then (Ok(true), io1)
      else (Err(res.error), io1)
  }

  /** The `pkill` command `_kill_all` runs as root. */
  function KillCommand(procs: seq<string>): (cmd: string)
    ensures |cmd| >= 9 && cmd[..9] == "pkill -9 "
    ensures Contains(cmd, "(" + ProcsRegex(procs) + ")")
  {
    var group := "(" + ProcsRegex(procs) + ")";
    ContainsInfix("pkill -9 \"", group, "\"");
    assert "pkill -9 \"(" + ProcsRegex(procs) + ")\"" == "pkill -9 \"" + group + "\"";
    "pkill -9 \"(" + ProcsRegex(procs) + ")\""
  }

  /** `_kill_all`: kill every registered process, ignoring pkill's status;
      raise if they are not dead (unless dry); then forget them all. */
  function KillAll(r: Runner, s: State): (res: (Result<()>, State))
    ensures res.1.activated == s.activated
    ensures res.0.Ok? ==> res.1.procs == [] && res.1.logs == []
    ensures res.0.Err? ==> res.1.procs == s.procs && res.1.logs == s.logs
  {
    var (_, io1) := Run(r, s.io, KillCommand(s.procs), Defaults.(sudo := true));
    var (dead, io2) := CheckDead(r, s.(io := io1));
    if dead.Err? then (Err(dead.error), s.(io := io2))
    else if !dead.value && !r.dry then (Err(BundlerException(KillFailed)), s.(io := io2))
    else (Ok(()), s.(procs := [], logs := [], io := io2))
  }

  /** `deactivate`: kill everything, remove the filters (a stub that never
      raises) and clear the flag. */
  function Deactivate(r: Runner, s: State): (res: (Result<()>, State))
    ensures res.0.Ok? ==> !res.1.activated && res.1.procs == [] && res.1.logs == []
    ensures res.0.Err? ==> res.1.activated == s.activated && res.1.procs == s.procs && res.1.logs == s.logs
  {
    var (killed, s1) := KillAll(r, s);
    if killed.Err? then (killed, s1) else (Ok(()), s1.(activated := false))
  }

  // ---------------------------------------------------------------------
  // Properties of the lifecycle

  /** Each keyword argument's flag occurs in the CCP command after
      `--ipc=unix`, in dictionary order: where the previous flag ends, one
      space follows and then this flag starts. */
  lemma CcpFlagsInOrder(d: Dirs, alg: CCAlg, i: nat)
    requires i < |alg.kwargs|
    ensures var head := BinPath(d, alg.name) + " --ipc=unix ";
      var flags := CcpFlags(alg.kwargs);
      OccursAt(CcpCommand(d, alg), flags[i], |head| + JoinOffset(" ", flags, i)) &&
      (i > 0 ==> OccursAt(CcpCommand(d, alg), flags[i - 1] + " " + flags[i],
                          |head| + JoinOffset(" ", flags, i - 1)))
  {
    var head := BinPath(d, alg.name) + " --ipc=unix ";
    var flags := CcpFlags(alg.kwargs);
    JoinOccurs(" ", flags, i);
    OccursShift(head, Join(" ", flags), flags[i], JoinOffset(" ", flags, i));
    if i > 0 {
      JoinAdjacent(" ", flags, i);
      OccursShift(head, Join(" ", flags), flags[i - 1] + " " + flags[i], JoinOffset(" ", flags, i - 1));
    }
  }

  /** The outbox is given, quoted, the filter `src portrange a-b` for the
      port range of the other inbox. */
  lemma OutboxFilter(d: Dirs, c: BundlerConfig)
    ensures Contains(OutboxCommand(d, c), Quoted(PortRange(c.otherInboxPorts)))
  {
    ContainsInfix(BinPath(d, "outbox") + " --filter ", Quoted(PortRange(c.otherInboxPorts)), OutboxOptions(c));
  }

  /** Outside dry mode a launch succeeds exactly when the start command, the
      process check and (when there is a marker) the log check all exit with
      status 0, in that order. */
  lemma LaunchLive(r: Runner, s: State, cmd: string, msg: string, proc: string,
                   marker: Option<string>, outfile: string)
    requires !r.dry
    ensures var n := |s.io.executed|;
      var start := CommandLine(r.silent, cmd, LaunchOptions(outfile));
      var check := CommandLine(r.silent, "pgrep -f " + proc, Defaults);
      Launch(r, s, cmd, msg, proc, marker, outfile).0.Ok? <==>
        r.os(n, start) == 0 && r.os(n + 1, check) == 0 &&
        (marker.Some? ==> r.os(n + 2, CommandLine(r.silent, GrepCommand(marker.value, outfile), Defaults)) == 0)
  {
    var n := |s.io.executed|;
    var start := CommandLine(r.silent, cmd, LaunchOptions(outfile));
    var (status, io1) := Run(r, s.io, cmd, LaunchOptions(outfile));
    assert status == r.os(n, start) && |io1.executed| == n + 1;
    var (running, io2) := CheckProc(r, io1, proc);
    CheckStatusLive(r, io1, "pgrep -f " + proc, Defaults,
      "failed to find running process with name \"" + proc + "\"");
    if marker.Some? {
      CheckStatusLive(r, io2, GrepCommand(marker.value, outfile), Defaults,
        "unable to find search string (\"" + marker.value + "\") in process output file " + outfile);
    }
  }

  /** In dry mode every launch succeeds without reaching the operating
      system. */
  lemma LaunchDry(r: Runner, s: State, cmd: string, msg: string, proc: string,
                  marker: Option<string>, outfile: string)
    requires r.dry
    ensures Launch(r, s, cmd, msg, proc, marker, outfile).0 == Ok(())
    ensures Launch(r, s, cmd, msg, proc, marker, outfile).1.io.executed == s.io.executed
  {
    var (status, io1) := Run(r, s.io, cmd, LaunchOptions(outfile));
    var (running, io2) := CheckProc(r, io1, proc);
    if marker.Some? {
      CheckStatusDry(r, io2, GrepCommand(marker.value, outfile), Defaults,
        "unable to find search string (\"" + marker.value + "\") in process output file " + outfile);
    }
  }

  /** `activate` on an activated bundler raises `BundlerException` and
      changes nothing: no command is issued. */
  lemma ActivateTwiceRejected(r: Runner, d: Dirs, s: State, alg: CCAlg, c: BundlerConfig)
    requires s.activated
    ensures Activate(r, d, s, alg, c) == (Err(BundlerException(AlreadyActivated)), s)
  {}

  /** `s'` has registered `procs` and `files` on top of what `s` had. */
  predicate Registered(s: State, s': State, procs: seq<string>, files: seq<string>)
  {
    s'.procs == s.procs + procs && s'.logs == s.logs + files
  }

  lemma AppendTwo<T>(a: seq<T>, x: T, y: T)
    ensures a + [x] + [y] == a + [x, y]
  {}

  lemma AppendThree<T>(a: seq<T>, x: T, y: T, z: T)
    ensures a + [x] + [y] + [z] == a + [x, y, z]
  {}

  /** What `activate` registers: inbox, the algorithm and the outbox with
      their logs (CCP's log is `ccp.log` whatever the algorithm's name) when
      it succeeds, and only the components started before the failure when
      it raises. */
  lemma ActivateRegisters(r: Runner, d: Dirs, s: State, alg: CCAlg, c: BundlerConfig)
    requires !s.activated
    ensures var (res, s') := Activate(r, d, s, alg, c);
      res.Ok? ==> Registered(s, s', Components(alg), ComponentLogs(d))
    ensures var (res, s') := Activate(r, d, s, alg, c);
      res.Err? ==>
        Registered(s, s', [], []) ||
        Registered(s, s', ["inbox"], [LogPath(d, "inbox")]) ||
        Registered(s, s', ["inbox", alg.name], [LogPath(d, "inbox"), LogPath(d, "ccp")])
  {
    var s0 := s.(activated := true);
    var (inbox, s1) := StartInbox(r, d, s0, c);
    if inbox.Err? {
      assert s1.procs == s.procs + [] && s1.logs == s.logs + [];
    } else {
      var (ccp, s2) := StartCcp(r, d, s1, alg);
      AppendTwo(s.procs, "inbox", alg.name);
      AppendTwo(s.logs, LogPath(d, "inbox"), LogPath(d, "ccp"));
      if ccp.Ok? {
        AppendThree(s.procs, "inbox", alg.name, "outbox");
        AppendThree(s.logs, LogPath(d, "inbox"), LogPath(d, "ccp"), LogPath(d, "outbox"));
      }
    }
  }

  /** In dry mode `activate` on an inactive bundler succeeds and registers
      all three components without reaching the operating system. */
  lemma ActivateDry(r: Runner, d: Dirs, s: State, alg: CCAlg, c: BundlerConfig)
    requires r.dry && !s.activated
    ensures var (res, s') := Activate(r, d, s, alg, c);
      res == Ok(()) && s'.activated &&
      s'.procs == s.procs + Components(alg) && s'.logs == s.logs + ComponentLogs(d) &&
      s'.io.executed == s.io.executed
  {
    var s0 := s.(activated := true);
    LaunchDry(r, s0, InboxCommand(d, c), "failed to start send side", "inbox",
      Some("Wait for CCP to install datapath program"), LogPath(d, "inbox"));
    var s1 := StartInbox(r, d, s0, c).1;
    LaunchDry(r, s1, CcpCommand(d, alg), "failed to start ccp", alg.name,
      Some("starting CCP"), LogPath(d, "ccp"));
    var s2 := StartCcp(r, d, s1, alg).1;
    LaunchDry(r, s2, OutboxCommand(d, c), "failed to start recv side", "outbox",
      None, LogPath(d, "outbox"));
    ActivateRegisters(r, d, s, alg, c);
  }

  /** The two registries stay parallel: `activate` keeps them the same
      length (`_kill_all` and `deactivate` either keep or empty both). */
  lemma ActivateKeepsParallel(r: Runner, d: Dirs, s: State, alg: CCAlg, c: BundlerConfig)
    requires |s.procs| == |s.logs|
    ensures |Activate(r, d, s, alg, c).1.procs| == |Activate(r, d, s, alg, c).1.logs|
  {
    if !s.activated {
      ActivateRegisters(r, d, s, alg, c);
    }
  }

  /** `check_alive` with nothing registered raises `BundlerException` and
      issues no command. */
  lemma CheckAliveNothingStarted(r: Runner, s: State)
    requires s.procs == []
    ensures CheckAlive(r, s) == (Err(BundlerException(NothingStarted)), s.io)
  {}

  /** The greps for "err" in `logs`, issued from position `start` on, all
      exit with status 0: every log contains "err". */
  predicate ErrsFound(r: Runner, start: nat, logs: seq<string>)
  {
    forall i :: 0 <= i < |logs| ==> r.os(start + i, ErrLine(r, logs[i])) == 0
  }

  /** The greps for "err" in `logs`, issued from position `start` on, all
      fail: no log contains "err". */
  predicate ErrsAbsent(r: Runner, start: nat, logs: seq<string>)
  {
    forall i :: 0 <= i < |logs| ==> r.os(start + i, ErrLine(r, logs[i])) != 0
  }

  lemma ErrsFoundStep(r: Runner, start: nat, logs: seq<string>)
    requires logs != []
    ensures ErrsFound(r, start, logs) <==>
      r.os(start, ErrLine(r, logs[0])) == 0 && ErrsFound(r, start + 1, logs[1..])
  {
    if r.os(start, ErrLine(r, logs[0])) == 0 && ErrsFound(r, start + 1, logs[1..]) {
      forall i | 0 < i < |logs|
        ensures r.os(start + i, ErrLine(r, logs[i])) == 0
      {
        assert logs[i] == logs[1..][i - 1];
      }
    }
  }

  lemma ErrsAbsentStep(r: Runner, start: nat, logs: seq<string>)
    requires logs != []
    ensures ErrsAbsent(r, start, logs) <==>
      r.os(start, ErrLine(r, logs[0])) != 0 && ErrsAbsent(r, start + 1, logs[1..])
  {
    if r.os(start, ErrLine(r, logs[0])) != 0 && ErrsAbsent(r, start + 1, logs[1..]) {
      forall i | 0 < i < |logs|
        ensures r.os(start + i, ErrLine(r, logs[i])) != 0
      {
        assert logs[i] == logs[1..][i - 1];
      }
    }
  }

  /** Outside dry mode the log loop passes exactly when every grep for
      "err" exits with status 0, that is when every log CONTAINS "err". */
  lemma {:induction false} CheckLogsLive(r: Runner, io: Io, logs: seq<string>)
    requires !r.dry
    ensures CheckLogs(r, io, logs).0.Ok? <==> ErrsFound(r, |io.executed|, logs)
    decreases |logs|
  {
    if logs != [] {
      var (res, io1) := CheckFile(r, io, "err", logs[0]);
      assert |io1.executed| == |io.executed| + 1;
      CheckLogsLive(r, io1, logs[1..]);
      ErrsFoundStep(r, |io.executed|, logs);
      if res.Ok? {
        assert CheckLogs(r, io, logs) == CheckLogs(r, io1, logs[1..]);
      }
    }
  }


  /** Outside dry mode `check_alive` on registered processes passes exactly
      when `pgrep` finds them and every log contains "err": a healthy log
      without an error message makes it raise. */
  lemma CheckAliveLive(r: Runner, s: State)
    requires !r.dry && s.procs != []
    ensures var n := |s.io.executed|;
      CheckAlive(r, s).0.Ok? <==> r.os(n, ProcsLine(r, s.procs)) == 0 && ErrsFound(r, n + 1, s.logs)
  {
    var regex := ProcsRegex(s.procs);
    var io1 := CheckProcs(r, s.io, regex).1;
    CheckLogsLive(r, io1, s.logs);
  }

  /** In dry mode `check_alive` passes on any registered processes. */
  lemma {:induction false} CheckLogsDry(r: Runner, io: Io, logs: seq<string>)
    requires r.dry
    ensures CheckLogs(r, io, logs).0 == Ok(())
    ensures CheckLogs(r, io, logs).1.executed == io.executed
    decreases |logs|
  {
    if logs != [] {
      CheckLogsDry(r, CheckFile(r, io, "err", logs[0]).1, logs[1..]);
    }
  }

  /** A bundler with nothing registered is dead, without a command. */
  lemma CheckDeadNothingStarted(r: Runner, s: State)
    requires s.procs == []
    ensures CheckDead(r, s) == (Ok(true), s.io)
  {}

  /** Outside dry mode `check_dead` on registered processes answers false
      when `pgrep` finds them, and otherwise raises the plain `Exception` of
      `check_procs` instead of answering true. */
  lemma CheckDeadLive(r: Runner, s: State)
    requires !r.dry && s.procs != []
    ensures var (res, io') := CheckDead(r, s);
      var regex := ProcsRegex(s.procs);
      io'.executed == s.io.executed + [ProcsLine(r, s.procs)] &&
      (r.os(|s.io.executed|, ProcsLine(r, s.procs)) == 0 ==> res == Ok(false)) &&
      (r.os(|s.io.executed|, ProcsLine(r, s.procs)) != 0 ==>
        res == Err(Exception("failed to find any of the running processes: \"" + regex + "\"")))
  {}

  /** `check_dead` never answers true for registered processes: the
      `except BundlerException` clause never catches anything. */
  lemma CheckDeadNeverTrue(r: Runner, s: State)
    requires s.procs != []
    ensures CheckDead(r, s).0 != Ok(true)
  {
    var regex := ProcsRegex(s.procs);
    var res := CheckProcs(r, s.io, regex).0;
    assert res.Err? ==> res.error.Exception?;
  }

  /** In dry mode `_kill_all` always succeeds and forgets every process,
      issuing nothing. */
  lemma KillAllDry(r: Runner, s: State)
    requires r.dry
    ensures var (res, s') := KillAll(r, s);
      res == Ok(()) && s'.procs == [] && s'.logs == [] &&
      s'.activated == s.activated && s'.io.executed == s.io.executed
  {}

  /** Outside dry mode `_kill_all` with registered processes always raises
      and keeps both registries: if the processes survive it raises
      `BundlerException`, and if they are gone `check_dead` raises the plain
      `Exception` of `check_procs`. */
  lemma KillAllLiveFails(r: Runner, s: State)
    requires !r.dry && s.procs != []
    ensures var (res, s') := KillAll(r, s);
      res.Err? && s'.procs == s.procs && s'.logs == s.logs && s'.activated == s.activated
  {
    var io1 := Run(r, s.io, KillCommand(s.procs), Defaults.(sudo := true)).1;
    CheckDeadNeverTrue(r, s.(io := io1));
  }

  /** Outside dry mode, with nothing registered, `_kill_all` succeeds after
      issuing its (empty) pkill. */
  lemma KillAllLiveNothingStarted(r: Runner, s: State)
    requires !r.dry && s.procs == []
    ensures var (res, s') := KillAll(r, s);
      res == Ok(()) && s'.procs == [] && s'.logs == [] &&
      s'.io.executed == s.io.executed + [CommandLine(r.silent, KillCommand([]), Defaults.(sudo := true))]
  {}

  /** A successful `deactivate` leaves an inactive bundler with nothing
      registered, so the next `activate` is not refused. */
  lemma DeactivateThenActivate(r: Runner, d: Dirs, s: State, alg: CCAlg, c: BundlerConfig)
    requires Deactivate(r, s).0.Ok?
    ensures var s' := Deactivate(r, s).1;
      !s'.activated && s'.procs == [] && s'.logs == [] &&
      Activate(r, d, s', alg, c).0 != Err(BundlerException(AlreadyActivated))
  {}

  /** A dry bundler goes through a whole lifecycle: activate, check that it
      is alive, deactivate, and it is back to an inactive bundler with
      nothing registered and nothing executed. */
  lemma DryLifecycle(r: Runner, d: Dirs, alg: CCAlg, c: BundlerConfig)
    requires r.dry
    ensures var (up, s1) := Activate(r, d, Fresh, alg, c);
      var (alive, io2) := CheckAlive(r, s1);
      var (down, s3) := Deactivate(r, s1.(io := io2));
      up.Ok? && alive.Ok? && down.Ok? &&
      !s3.activated && s3.procs == [] && s3.logs == [] && s3.io.executed == []
  {
    ActivateDry(r, d, Fresh, alg, c);
    var s1 := Activate(r, d, Fresh, alg, c).1;
    var regex := ProcsRegex(s1.procs);
    CheckStatusDry(r, s1.io, ProcsCommand(regex), Defaults.(sudo := true),
      "failed to find any of the running processes: \"" + regex + "\"");
    CheckLogsDry(r, CheckProcs(r, s1.io, regex).1, s1.logs);
    var io2 := CheckAlive(r, s1).1;
    KillAllDry(r, s1.(io := io2));
  }

  // ---------------------------------------------------------------------
  // The evidently intended `check_dead`, `_kill_all` and `check_alive`

  /** `check_dead` as its documentation says: false when `check_procs`
      passes, true when it raises, whatever the kind of exception. */
  function CheckDeadIntended(r: Runner, s: State): (Result<bool>, Io)
  {
    if s.procs == [] then (Ok(true), s.io)
    else
      var (res, io1) := CheckProcs(r, s.io, ProcsRegex(s.procs));
      (Ok(res.Err?), io1)
  }

  /** `_kill_all` over the intended `check_dead`. */
  function KillAllIntended(r: Runner, s: State): (Result<()>, State)
  {
    var (_, io1) := Run(r, s.io, KillCommand(s.procs), Defaults.(sudo := true));
    var (dead, io2) := CheckDeadIntended(r, s.(io := io1));
    if !dead.value && !r.dry then (Err(BundlerException(KillFailed)), s.(io := io2))
    else (Ok(()), s.(procs := [], logs := [], io := io2))
  }

  /** Outside dry mode the intended `_kill_all` succeeds and forgets every
      process exactly when `pgrep` finds none of them after the pkill, and
      otherwise raises `BundlerException` and keeps the registries. */
  lemma KillAllIntendedLive(r: Runner, s: State)
    requires !r.dry && s.procs != []
    ensures var (res, s') := KillAllIntended(r, s);
      var probe := r.os(|s.io.executed| + 1, ProcsLine(r, s.procs));
      (res.Ok? <==> probe != 0) &&
      (res.Ok? ==> s'.procs == [] && s'.logs == []) &&
      (res.Err? ==> res.error == BundlerException(KillFailed) && s'.procs == s.procs && s'.logs == s.logs)
  {
    var io1 := Run(r, s.io, KillCommand(s.procs), Defaults.(sudo := true)).1;
    var regex := ProcsRegex(s.procs);
    CheckStatusLive(r, io1, ProcsCommand(regex), Defaults.(sudo := true),
      "failed to find any of the running processes: \"" + regex + "\"");
  }

  /** `search_file('err', log)` on each log in order. */
  function SearchLogs(r: Runner, io: Io, logs: seq<string>): (Result<()>, Io)
    decreases |logs|
  {
    if logs == [] then (Ok(()), io)
    else
      var (res, io1) := SearchFile(r, io, "err", logs[0]);
      if res.Err? then (res, io1) else SearchLogs(r, io1, logs[1..])
  }

  /** `check_alive` as its documentation says: raise when a process is gone
      or a log shows an error message. */
  function CheckAliveIntended(r: Runner, s: State): (Result<()>, Io)
  {
    if s.procs == [] then (Err(BundlerException(NothingStarted)), s.io)
    else
      var (res, io1) := CheckProcs(r, s.io, ProcsRegex(s.procs));
      if res.Err? then (res, io1) else SearchLogs(r, io1, s.logs)
  }

  /** Outside dry mode the intended log loop passes exactly when no grep
      for "err" succeeds, that is when no log contains "err". */
  lemma {:induction false} SearchLogsLive(r: Runner, io: Io, logs: seq<string>)
    requires !r.dry
    ensures SearchLogs(r, io, logs).0.Ok? <==> ErrsAbsent(r, |io.executed|, logs)
    decreases |logs|
  {
    if logs != [] {
      var (res, io1) := SearchFile(r, io, "err", logs[0]);
      assert |io1.executed| == |io.executed| + 1;
      SearchLogsLive(r, io1, logs[1..]);
      ErrsAbsentStep(r, |io.executed|, logs);
      if res.Ok? {
        assert SearchLogs(r, io, logs) == SearchLogs(r, io1, logs[1..]);
      }
    }
  }


  /** Outside dry mode the intended `check_alive` passes exactly when
      `pgrep` finds the processes and no log contains "err". */
  lemma CheckAliveIntendedLive(r: Runner, s: State)
    requires !r.dry && s.procs != []
    ensures var n := |s.io.executed|;
      CheckAliveIntended(r, s).0.Ok? <==> r.os(n, ProcsLine(r, s.procs)) == 0 && ErrsAbsent(r, n + 1, s.logs)
  {
    var regex := ProcsRegex(s.procs);
    var io1 := CheckProcs(r, s.io, regex).1;
    SearchLogsLive(r, io1, s.logs);
  }

  /** Where the two `check_alive`s part: a running bundler whose one log is
      clean passes the intended check and fails the written one. */
  lemma CleanLogFailsCheckAlive(r: Runner, s: State)
    requires !r.dry && s.procs != [] && |s.logs| == 1
    requires r.os(|s.io.executed|, ProcsLine(r, s.procs)) == 0
    requires r.os(|s.io.executed| + 1, ErrLine(r, s.logs[0])) != 0
    ensures CheckAlive(r, s).0.Err?
    ensures CheckAliveIntended(r, s).0.Ok?
  {
    CheckAliveLive(r, s);
    CheckAliveIntendedLive(r, s);
  }
}
