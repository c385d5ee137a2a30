/** `CommandRunner` of util.py: the object through which the bundler runs
    every shell command. Its settings are fixed at construction; what it
    changes is what it has handed to the operating system and what it has
    passed to its log callback, recorded in `executed` and `logged`. Each
    method is proved to have exactly the effect the Shell module gives it. */
module Util {
  import opened Outcomes
  import Shell

  class CommandRunner {
    const dry: bool
    const silent: bool
    /** Whether a log callback was given; without one, logging is a no-op. */
    const hasLog: bool
    const os: Shell.Oracle
    var executed: seq<string>
    var logged: seq<string>

    function Settings(): Shell.Runner
    {
      Shell.Runner(dry, silent, hasLog, os)
    }

    function Effects(): Shell.Io
      reads this
    {
      Shell.Io(executed, logged)
    }

    /** `CommandRunner(dry, verbose, log)`: silent unless verbose. */
    constructor (dry: bool, verbose: bool, hasLog: bool, os: Shell.Oracle)
      ensures Settings() == Shell.Runner(dry, !verbose, hasLog, os)
      ensures executed == [] && logged == []
    {
      this.dry := dry;
      this.silent := !verbose;
      this.hasLog := hasLog;
      this.os := os;
      executed := [];
      logged := [];
    }

    /** `run`: builds the command line piece by piece, then either logs it
        (dry mode) or hands it to the operating system. */
    method Run(cmd: string, o: Shell.RunOptions) returns (status: int)
      modifies this
      ensures (status, Effects()) == Shell.Run(Settings(), old(Effects()), cmd, o)
    {
      var pre := "";
      if o.wd != "" {
        pre := pre + "cd " + o.wd + " && ";
      }
      ghost var wd := pre;
      if o.background {
        pre := pre + "screen -d -m ";
      }
      var escaped := Shell.Escape(cmd);
      if o.sudo {
        pre := pre + "sudo ";
      }
      assert pre == wd + (if o.background then "screen -d -m " else "") + (if o.sudo then "sudo " else "");
      pre := pre + "bash -c \"";
      assert pre == Shell.Prefix(o);
      var stdin, stdout, stderr := o.stdin, o.stdout, o.stderr;
      if o.ignoreOut {
        if silent && stdout == "/dev/stdout" {
          stdout := "/dev/null";
        }
        if silent && stderr == "/dev/stderr" {
          stderr := "/dev/null";
        }
      }
      if o.background {
        stdin := "/dev/null";
      }
      var redirections := " > " + stdout + " 2> " + stderr + " < " + stdin;
      assert redirections == Shell.Redirections(silent, o);
      var fullCmd := pre + escaped + redirections;
      fullCmd := fullCmd + "\"";
      assert fullCmd == pre + escaped + Shell.Suffix(silent, o);
      if dry {
        if hasLog {
          logged := logged + ["> " + fullCmd];
        }
        status := 0;
      } else {
        status := os(|executed|, fullCmd);
        executed := executed + [fullCmd];
      }
    }

    method FileExists(fname: string) returns (r: Result<()>)
      modifies this
      ensures (r, Effects()) == Shell.FileExists(Settings(), old(Effects()), fname)
    {
      var status := Run("ls " + fname, Shell.Defaults);
      r := Shell.Expect(status != 0, "file does not exist: " + fname);
    }

    method ProgExists(prog: string) returns (r: Result<()>)
      modifies this
      ensures (r, Effects()) == Shell.ProgExists(Settings(), old(Effects()), prog)
    {
      var status := Run("which " + prog, Shell.Defaults);
      r := Shell.Expect(status != 0, "program does not exist: " + prog);
    }

    method CheckProc(name: string) returns (r: Result<()>)
      modifies this
      ensures (r, Effects()) == Shell.CheckProc(Settings(), old(Effects()), name)
    {
      var status := Run("pgrep -f " + name, Shell.Defaults);
      r := Shell.Expect(status != 0, "failed to find running process with name \"" + name + "\"");
    }

    method CheckProcs(regex: string) returns (r: Result<()>)
      modifies this
      ensures (r, Effects()) == Shell.CheckProcs(Settings(), old(Effects()), regex)
    {
      var status := Run(Shell.ProcsCommand(regex), Shell.Defaults.(sudo := true));
      r := Shell.Expect(status != 0, "failed to find any of the running processes: \"" + regex + "\"");
    }

    method CheckFile(grep: string, where: string) returns (r: Result<()>)
      modifies this
      ensures (r, Effects()) == Shell.CheckFile(Settings(), old(Effects()), grep, where)
    {
      var status := Run(Shell.GrepCommand(grep, where), Shell.Defaults);
      r := Shell.Expect(status != 0,
        "unable to find search string (\"" + grep + "\") in process output file " + where);
    }

    method SearchFile(grep: string, where: string) returns (r: Result<()>)
      modifies this
      ensures (r, Effects()) == Shell.SearchFile(Settings(), old(Effects()), grep, where)
    {
      var status := Run(Shell.GrepCommand(grep, where), Shell.Defaults);
      r := Shell.Expect(status == 0, "found error message in log file " + where);
    }
  }
}
