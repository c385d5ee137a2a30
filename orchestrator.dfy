/** The `Bundler` class of bundler.py: it owns a command runner, an
    activation flag and the two parallel registries of started processes and
    their log files, and updates them in place. Each method is proved to have
    exactly the effect the Lifecycle module gives it, so the properties
    proved there hold of the object. */
module Orchestrator {
  import opened Outcomes
  import Shell
  import Util
  import Lifecycle

  class Bundler {
    const binDir: string
    const logDir: string
    const shell: Util.CommandRunner
    var runningLogs: seq<string>
    var runningProcs: seq<string>
    var activated: bool

    function Dirs(): Lifecycle.Dirs
    {
      Lifecycle.Dirs(binDir, logDir)
    }

    /** The bundler's state as the Lifecycle module sees it. */
    function State(): Lifecycle.State
      reads this, shell
    {
      Lifecycle.State(activated, runningProcs, runningLogs, shell.Effects())
    }

    /** `Bundler(bin_dir, log_dir, dry, logf)`: a non-verbose runner and an
        inactive bundler with nothing registered. */
    constructor (binDir: string, logDir: string, dry: bool, hasLog: bool, os: Shell.Oracle)
      ensures fresh(shell)
      ensures Dirs() == Lifecycle.Dirs(binDir, logDir)
      ensures shell.Settings() == Shell.Runner(dry, true, hasLog, os)
      ensures State() == Lifecycle.Fresh
    {
      this.binDir := binDir;
      this.logDir := logDir;
      shell := new Util.CommandRunner(dry, false, hasLog, os);
      runningLogs := [];
      runningProcs := [];
      activated := false;
    }

    /** One `_start_*`: start, check, and register only on success. */
    method Launch(cmd: string, msg: string, proc: string, marker: Option<string>, outfile: string)
      returns (r: Result<()>)
      modifies this, shell
      ensures (r, State()) == Lifecycle.Launch(shell.Settings(), old(State()), cmd, msg, proc, marker, outfile)
    {
      var status := shell.Run(cmd, Lifecycle.LaunchOptions(outfile));
      if status != 0 {
        r := Shell.Expect(true, msg);
        return;
      }
      r := shell.CheckProc(proc);
      if r.Err? {
        return;
      }
      if marker.Some? {
        r := shell.CheckFile(marker.value, outfile);
        if r.Err? {
          return;
        }
      }
      runningLogs := runningLogs + [outfile];
      runningProcs := runningProcs + [proc];
    }

    method StartInbox(config: Lifecycle.BundlerConfig) returns (r: Result<()>)
      modifies this, shell
      ensures (r, State()) == Lifecycle.StartInbox(shell.Settings(), Dirs(), old(State()), config)
    {
      var outfile := Lifecycle.LogPath(Dirs(), "inbox");
      r := Launch(Lifecycle.InboxCommand(Dirs(), config), "failed to start send side", "inbox",
        Some("Wait for CCP to install datapath program"), outfile);
    }

    method StartCcp(alg: Lifecycle.CCAlg) returns (r: Result<()>)
      modifies this, shell
      ensures (r, State()) == Lifecycle.StartCcp(shell.Settings(), Dirs(), old(State()), alg)
    {
      var outfile := Lifecycle.LogPath(Dirs(), "ccp");
      r := Launch(Lifecycle.CcpCommand(Dirs(), alg), "failed to start ccp", alg.name,
        Some("starting CCP"), outfile);
    }

    method StartOutbox(config: Lifecycle.BundlerConfig) returns (r: Result<()>)
      modifies this, shell
      ensures (r, State()) == Lifecycle.StartOutbox(shell.Settings(), Dirs(), old(State()), config)
    {
      var outfile := Lifecycle.LogPath(Dirs(), "outbox");
      r := Launch(Lifecycle.OutboxCommand(Dirs(), config), "failed to start recv side", "outbox",
        None, outfile);
    }

    /** `activate`. */
    method Activate(alg: Lifecycle.CCAlg, config: Lifecycle.BundlerConfig) returns (r: Result<()>)
      modifies this, shell
      ensures (r, State()) == Lifecycle.Activate(shell.Settings(), Dirs(), old(State()), alg, config)
    {
      if activated {
        return Err(BundlerException(Lifecycle.AlreadyActivated));
      }
      activated := true;
      r := StartInbox(config);
      if r.Err? {
        return;
      }
      r := StartCcp(alg);
      if r.Err? {
        return;
      }
      r := StartOutbox(config);
    }

    /** `check_alive`: changes nothing but what the runner has done. */
    method CheckAlive() returns (r: Result<()>)
      modifies shell
      ensures (r, shell.Effects()) == Lifecycle.CheckAlive(shell.Settings(), old(State()))
    {
      if runningProcs == [] {
        return Err(BundlerException(Lifecycle.NothingStarted));
      }
      r := shell.CheckProcs(Lifecycle.ProcsRegex(runningProcs));
      if r.Err? {
        return;
      }
      ghost var start := shell.Effects();
      for i := 0 to |runningLogs|
        invariant Lifecycle.CheckLogs(shell.Settings(), start, runningLogs)
          == Lifecycle.CheckLogs(shell.Settings(), shell.Effects(), runningLogs[i..])
      {
        r := shell.CheckFile("err", runningLogs[i]);
        if r.Err? {
          return;
        }
        assert runningLogs[i..][1..] == runningLogs[i + 1..];
      }
      r := Ok(());
    }

    /** `check_dead`. */
    method CheckDead() returns (r: Result<bool>)
      modifies shell
      ensures (r, shell.Effects()) == Lifecycle.CheckDead(shell.Settings(), old(State()))
    {
      if runningProcs == [] {
        return Ok(true);
      }
      var checked := shell.CheckProcs(Lifecycle.ProcsRegex(runningProcs));
      if checked.Ok? {
        return Ok(false);
      }
      if checked.error.BundlerException? {
        return Ok(true);
      }
      r := Err(checked.error);
    }

    /** `_remove_all_filters`: a stub that never raises. */
    method RemoveAllFilters() returns (r: Result<()>)
      ensures r == Ok(())
    {
      r := Ok(());
    }

    /** `_kill_all`. */
    method KillAll() returns (r: Result<()>)
      modifies this, shell
      ensures (r, State()) == Lifecycle.KillAll(shell.Settings(), old(State()))
    {
      var _ := shell.Run(Lifecycle.KillCommand(runningProcs), Shell.Defaults.(sudo := true));
      var dead := CheckDead();
      if dead.Err? {
        return Err(dead.error);
      }
      if !dead.value && !shell.dry {
        return Err(BundlerException(Lifecycle.KillFailed));
      }
      runningLogs := [];
      runningProcs := [];
      r := Ok(());
    }

    /** `deactivate`. */
    method Deactivate() returns (r: Result<()>)
      modifies this, shell
      ensures (r, State()) == Lifecycle.Deactivate(shell.Settings(), old(State()))
    {
      r := KillAll();
      if r.Err? {
        return;
      }
      r := RemoveAllFilters();
      activated := false;
    }
  }
}
