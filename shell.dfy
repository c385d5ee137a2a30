/** What `CommandRunner` in util.py does to the outside world, as functions
    over values: the command line `run` builds, and the effect of handing it
    to the operating system (or, in dry mode, to the log callback).

    The operating system is an oracle: `os(n, line)` is the exit status of
    the n-th command line the runner hands to `subprocess.call`. */
module Shell {
  import opened Outcomes

  /** Exit status of the n-th command line handed to the operating system. */
  type Oracle = (nat, string) -> int

  /** What a runner has done so far: the command lines it handed to the
      operating system, in order, and the messages it passed to its log
      callback, in order. */
  datatype Io = Io(executed: seq<string>, logged: seq<string>)

  /** The settings of a `CommandRunner`, fixed at construction: dry mode,
      silence (`not verbose`), whether a log callback was given, and the
      operating system it talks to. */
  datatype Runner = Runner(dry: bool, silent: bool, hasLog: bool, os: Oracle)

  /** The keyword arguments of `run`; an empty `wd` stands for `None`, which
      `run` treats the same way (both are falsy). */
  datatype RunOptions = RunOptions(
    stdin: string, stdout: string, stderr: string,
    ignoreOut: bool, wd: string, sudo: bool, background: bool)

  /** The defaults of `run`'s keyword arguments. */
  const Defaults := RunOptions("/dev/stdin", "/dev/stdout", "/dev/stderr", false, "", false, false)

  /** `subprocess.call(line, ...)`: the line is handed to the operating system,
      which answers with the status the oracle fixes for it. */
  function Call(os: Oracle, io: Io, line: string): (res: (int, Io))
  {
    (os(|io.executed|, line), io.(executed := io.executed + [line]))
  }

  /** `cmd.replace("\"", "\\\"")`: every double quote gets a backslash. */
  function Escape(s: string): (r: string)
    ensures |r| >= |s|
    ensures r == [] <==> s == []
  {
    if s == [] then []
    else (if s[0] == '"' then "\\\"" else [s[0]]) + Escape(s[1..])
  }

  /** A command without double quotes is passed on unchanged. */
  lemma {:induction false} EscapeWithoutQuotes(s: string)
    requires forall i :: 0 <= i < |s| ==> s[i] != '"'
    ensures Escape(s) == s
  {
    if s != [] {
      EscapeWithoutQuotes(s[1..]);
      assert [s[0]] + s[1..] == s;
    }
  }

  /** Reads an escaped command back: a backslash followed by a double quote
      stands for the quote. */
  function Unescape(s: string): string
  {
    if s == [] then []
    else if |s| >= 2 && s[0] == '\\' && s[1] == '"' then "\"" + Unescape(s[2..])
    else [s[0]] + Unescape(s[1..])
  }

  /** An escaped command never starts with a bare double quote. */
  lemma EscapeHead(s: string)
    requires s != []
    ensures Escape(s) != [] && Escape(s)[0] != '"'
  {}

  /** Escaping loses nothing: the original command is recovered from the
      escaped one. */
  lemma {:induction false} EscapeRoundTrip(s: string)
    ensures Unescape(Escape(s)) == s
  {
    if s != [] {
      var rest := Escape(s[1..]);
      EscapeRoundTrip(s[1..]);
      if s[0] == '"' {
        assert Escape(s) == "\\\"" + rest;
        assert Escape(s)[2..] == rest;
      } else {
        assert Escape(s) == [s[0]] + rest;
        assert Escape(s)[1..] == rest;
        if s[0] == '\\' && s[1..] != [] {
          EscapeHead(s[1..]);
          assert Escape(s)[1] == rest[0];
        }
      }
    }
  }

  /** Different commands escape to different text. */
  lemma EscapeInjective(a: string, b: string)
    requires Escape(a) == Escape(b)
    ensures a == b
  {
    EscapeRoundTrip(a);
    EscapeRoundTrip(b);
  }

  /** Every double quote of an escaped command is preceded by a backslash. */
  lemma {:induction false} EscapedQuotes(s: string, i: nat)
    requires i < |Escape(s)| && Escape(s)[i] == '"'
    ensures i > 0 && Escape(s)[i - 1] == '\\'
  {
    if s != [] {
      var head := if s[0] == '"' then "\\\"" else [s[0]];
      assert Escape(s) == head + Escape(s[1..]);
      if i >= |head| {
        EscapedQuotes(s[1..], i - |head|);
      }
    }
  }

  /** The part of the command line before the escaped command:
      `cd wd && `, `screen -d -m `, `sudo ` and the opening `bash -c "`. */
  function Prefix(o: RunOptions): string
  {
    (if o.wd != "" then "cd " + o.wd + " && " else "")
    + (if o.background then "screen -d -m " else "")
    + (if o.sudo then "sudo " else "")
    + "bash -c \""
  }

  /** Where standard output goes: with `ignore_out` a silent runner sends an
      output left at its default to /dev/null. */
  function Stdout(silent: bool, o: RunOptions): string
  {
    if o.ignoreOut && silent && o.stdout == "/dev/stdout" then "/dev/null" else o.stdout
  }

  function Stderr(silent: bool, o: RunOptions): string
  {
    if o.ignoreOut && silent && o.stderr == "/dev/stderr" then "/dev/null" else o.stderr
  }

  /** A command started in the background reads from /dev/null. */
  function Stdin(o: RunOptions): string
  {
    if o.background then "/dev/null" else o.stdin
  }

  /** The redirections that follow the escaped command. */
  function Redirections(silent: bool, o: RunOptions): string
  {
    " > " + Stdout(silent, o) + " 2> " + Stderr(silent, o) + " < " + Stdin(o)
  }

  /** Everything after the escaped command: the redirections and the
      closing quote. */
  function Suffix(silent: bool, o: RunOptions): string
  {
    Redirections(silent, o) + "\""
  }

  /** The full command line `run` hands to the shell. */
  function CommandLine(silent: bool, cmd: string, o: RunOptions): (line: string)
  {
    Prefix(o) + Escape(cmd) + Suffix(silent, o)
  }

  /** Two runs with the same options issue the same command line only for
      the same command: the command can be read back from the line. */
  lemma CommandLineInjective(silent: bool, a: string, b: string, o: RunOptions)
    requires CommandLine(silent, a, o) == CommandLine(silent, b, o)
    ensures a == b
  {
    var p, s := Prefix(o), Suffix(silent, o);
    var la, lb := CommandLine(silent, a, o), CommandLine(silent, b, o);
    assert la == p + Escape(a) + s;
    assert lb == p + Escape(b) + s;
    assert |Escape(a)| == |Escape(b)|;
    assert Escape(a) == la[|p|..|la| - |s|];
    assert Escape(b) == lb[|p|..|lb| - |s|];
    EscapeInjective(a, b);
  }

  /** The line opens with the prefix (`cd`, `screen`, `sudo`, `bash -c "`),
      closes with the redirections and the closing quote, and holds at least
      as many characters of command as the command has. */
  lemma CommandLineFrame(silent: bool, cmd: string, o: RunOptions)
    ensures var line := CommandLine(silent, cmd, o);
      |line| >= |Prefix(o)| + |cmd| + |Suffix(silent, o)| &&
      line[..|Prefix(o)|] == Prefix(o) &&
      line[|line| - |Suffix(silent, o)|..] == Suffix(silent, o)
  {
    var p, e, t := Prefix(o), Escape(cmd), Suffix(silent, o);
    assert CommandLine(silent, cmd, o) == p + e + t;
    assert (p + e + t)[..|p|] == p;
    assert (p + e + t)[|p| + |e|..] == t;
  }

  /** The escaped command sits between the prefix and the suffix, so the
      command is recovered from the line by unescaping that part. */
  lemma CommandLineReadBack(silent: bool, cmd: string, o: RunOptions)
    ensures var line := CommandLine(silent, cmd, o);
      |Prefix(o)| + |Suffix(silent, o)| <= |line| &&
      Unescape(line[|Prefix(o)|..|line| - |Suffix(silent, o)|]) == cmd
  {
    var line := CommandLine(silent, cmd, o);
    assert line == Prefix(o) + Escape(cmd) + Suffix(silent, o);
    assert line[|Prefix(o)|..|line| - |Suffix(silent, o)|] == Escape(cmd);
    EscapeRoundTrip(cmd);
  }

  /** A background command reads from /dev/null whatever `stdin` says. */
  lemma BackgroundIgnoresStdin(silent: bool, cmd: string, o: RunOptions, input: string)
    requires o.background
    ensures CommandLine(silent, cmd, o.(stdin := input)) == CommandLine(silent, cmd, o)
    ensures Stdin(o) == "/dev/null"
  {}

  /** `ignore_out` has no effect on a verbose runner. */
  lemma VerboseKeepsOutput(cmd: string, o: RunOptions)
    ensures CommandLine(false, cmd, o.(ignoreOut := true)) == CommandLine(false, cmd, o.(ignoreOut := false))
  {}

  /** A silent runner with `ignore_out` discards output and errors left at
      their defaults, exactly as if /dev/null had been named. */
  lemma SilentIgnoreOutDiscards(cmd: string, o: RunOptions)
    requires o.stdout == "/dev/stdout" && o.stderr == "/dev/stderr"
    ensures CommandLine(true, cmd, o.(ignoreOut := true))
      == CommandLine(true, cmd, o.(stdout := "/dev/null", stderr := "/dev/null", ignoreOut := false))
  {}

  /** `ignore_out` leaves explicitly named output files alone. */
  lemma IgnoreOutKeepsNamedFiles(silent: bool, cmd: string, o: RunOptions)
    requires o.stdout != "/dev/stdout" && o.stderr != "/dev/stderr"
    ensures CommandLine(silent, cmd, o.(ignoreOut := true)) == CommandLine(silent, cmd, o.(ignoreOut := false))
  {}

  /** `run`: in dry mode the command line is only logged (prefixed with
      "> ", when a log callback was given) and the status is 0; otherwise it
      is handed to the operating system, whose status is returned. */
  function Run(r: Runner, io: Io, cmd: string, o: RunOptions): (res: (int, Io))
    ensures res.1.executed == io.executed + (if r.dry then [] else [CommandLine(r.silent, cmd, o)])
    ensures r.dry ==> res.0 == 0
    ensures !r.dry ==> res.0 == r.os(|io.executed|, CommandLine(r.silent, cmd, o))
  {
    var line := CommandLine(r.silent, cmd, o);
    if r.dry then (0, if r.hasLog then io.(logged := io.logged + ["> " + line]) else io)
    else Call(r.os, io, line)
  }

  /** A dry runner never reaches the operating system and always reports
      success; a live one never logs and hands over exactly one line. */
  lemma RunEffects(r: Runner, io: Io, cmd: string, o: RunOptions)
    ensures var (status, io') := Run(r, io, cmd, o);
      var line := CommandLine(r.silent, cmd, o);
      (r.dry ==> status == 0 && io'.executed == io.executed
                 && io'.logged == io.logged + (if r.hasLog then ["> " + line] else [])) &&
      (!r.dry ==> status == r.os(|io.executed|, line) && io'.logged == io.logged
                  && io'.executed == io.executed + [line])
  {}

  /** `expect(res, msg)`: raises `Exception(msg)` when `res` is truthy. */
  function Expect(res: bool, msg: string): (r: Result<()>)
    ensures r.Err? <==> res
    ensures r.Err? ==> r.error == Exception(msg)
  {
    if res then Err(Exception(msg)) else Ok(())
  }

  /** What a check that runs `line` promises: it hands the line to the
      operating system unless dry, passes exactly when dry or when the line
      exits with status 0, and otherwise raises `Exception(msg)`. */
  predicate Checks(r: Runner, io: Io, line: string, msg: string, res: (Result<()>, Io))
  {
    res.1.executed == io.executed + (if r.dry then [] else [line]) &&
    (res.0.Ok? <==> r.dry || r.os(|io.executed|, line) == 0) &&
    (res.0.Err? ==> res.0.error == Exception(msg))
  }

  /** The shared shape of `file_exists`, `prog_exists`, `check_proc`,
      `check_procs` and `check_file`: run one command and raise `msg` when
      its status is nonzero. */
  function CheckStatus(r: Runner, io: Io, cmd: string, o: RunOptions, msg: string): (res: (Result<()>, Io))
    ensures Checks(r, io, CommandLine(r.silent, cmd, o), msg, res)
  {
    var (status, io') := Run(r, io, cmd, o);
    (Expect(status != 0, msg), io')
  }

  function FileExists(r: Runner, io: Io, fname: string): (res: (Result<()>, Io))
    ensures Checks(r, io, CommandLine(r.silent, "ls " + fname, Defaults), "file does not exist: " + fname, res)
  {
    CheckStatus(r, io, "ls " + fname, Defaults, "file does not exist: " + fname)
  }

  function ProgExists(r: Runner, io: Io, prog: string): (res: (Result<()>, Io))
    ensures Checks(r, io, CommandLine(r.silent, "which " + prog, Defaults), "program does not exist: " + prog, res)
  {
    CheckStatus(r, io, "which " + prog, Defaults, "program does not exist: " + prog)
  }

  function CheckProc(r: Runner, io: Io, name: string): (res: (Result<()>, Io))
    ensures Checks(r, io, CommandLine(r.silent, "pgrep -f " + name, Defaults),
                   "failed to find running process with name \"" + name + "\"", res)
  {
    CheckStatus(r, io, "pgrep -f " + name, Defaults,
      "failed to find running process with name \"" + name + "\"")
  }

  /** The command `check_procs` runs: count the processes matching the
      regular expression, as root. */
  function ProcsCommand(regex: string): string
  {
    "pgrep -f -c \"" + regex + "\""
  }

  function CheckProcs(r: Runner, io: Io, regex: string): (res: (Result<()>, Io))
    ensures Checks(r, io, CommandLine(r.silent, ProcsCommand(regex), Defaults.(sudo := true)),
                   "failed to find any of the running processes: \"" + regex + "\"", res)
  {
    CheckStatus(r, io, ProcsCommand(regex), Defaults.(sudo := true),
      "failed to find any of the running processes: \"" + regex + "\"")
  }

  /** The command `check_file` and `search_file` run. */
  function GrepCommand(grep: string, where: string): string
  {
    "grep \"" + grep + "\" " + where
  }

  function CheckFile(r: Runner, io: Io, grep: string, where: string): (res: (Result<()>, Io))
    ensures Checks(r, io, CommandLine(r.silent, GrepCommand(grep, where), Defaults),
                   "unable to find search string (\"" + grep + "\") in process output file " + where, res)
  {
    CheckStatus(r, io, GrepCommand(grep, where), Defaults,
      "unable to find search string (\"" + grep + "\") in process output file " + where)
  }

  /** `search_file`: raises when grep succeeds, that is when the string is
      found. */
  function SearchFile(r: Runner, io: Io, grep: string, where: string): (res: (Result<()>, Io))
    ensures var line := CommandLine(r.silent, GrepCommand(grep, where), Defaults);
      res.1.executed == io.executed + (if r.dry then [] else [line]) &&
      (res.0.Ok? <==> !r.dry && r.os(|io.executed|, line) != 0) &&
      (res.0.Err? ==> res.0.error == Exception("found error message in log file " + where))
  {
    var (status, io') := Run(r, io, GrepCommand(grep, where), Defaults);
    (Expect(status == 0, "found error message in log file " + where), io')
  }

  /** A live check passes exactly when its command exits with status 0, and
      otherwise raises its message; either way it issues one command line. */
  lemma CheckStatusLive(r: Runner, io: Io, cmd: string, o: RunOptions, msg: string)
    requires !r.dry
    ensures var line := CommandLine(r.silent, cmd, o);
      var (res, io') := CheckStatus(r, io, cmd, o, msg);
      (res.Ok? <==> r.os(|io.executed|, line) == 0) &&
      (res.Err? ==> res.error == Exception(msg)) &&
      io' == io.(executed := io.executed + [line])
  {}

  /** In dry mode every check passes without reaching the operating system. */
  lemma CheckStatusDry(r: Runner, io: Io, cmd: string, o: RunOptions, msg: string)
    requires r.dry
    ensures CheckStatus(r, io, cmd, o, msg).0 == Ok(())
    ensures CheckStatus(r, io, cmd, o, msg).1.executed == io.executed
  {}

  /** In dry mode `search_file` always raises: the 0 a dry run returns reads
      as "found". */
  lemma SearchFileDry(r: Runner, io: Io, grep: string, where: string)
    requires r.dry
    ensures SearchFile(r, io, grep, where).0 == Err(Exception("found error message in log file " + where))
    ensures SearchFile(r, io, grep, where).1.executed == io.executed
  {}

  /** Outside dry mode `check_file` and `search_file` issue the same grep and
      have opposite outcomes: exactly one of them raises. */
  lemma CheckFileOpposesSearchFile(r: Runner, io: Io, grep: string, where: string)
    requires !r.dry
    ensures CheckFile(r, io, grep, where).1 == SearchFile(r, io, grep, where).1
    ensures CheckFile(r, io, grep, where).0.Ok? <==> SearchFile(r, io, grep, where).0.Err?
  {}
}
