/** `ShellExecutor`, the production executor. Starting a process is an
    oracle: a `Launcher` maps a launch request (program, arguments, bound
    streams, working directory) to the error the child's run yields. The
    process-wide working directory is an abstract `Process` state whose
    `os.Getwd` and `os.Chdir` outcomes are fixed by fault fields. */
module ShellExec {
  import opened Errors
  import opened Text
  import opened Executor

  /** The working directory, the error `os.Getwd` gives (`Nil` when it
      works) and, for each directory `os.Chdir` cannot enter, the cause. */
  datatype Process = Process(cwd: string, getwdFault: Error, chdirFaults: map<string, string>)

  /** What `exec.Command(...).Run()` is asked to start. */
  datatype Launch = Launch(name: string, args: seq<string>, streams: set<Stream>, cwd: string)

  type Launcher = Launch -> Error

  /** A launch request together with the error `cmd.Run()` returned. */
  datatype Ran = Ran(request: Launch, err: Error)

  /** Start the program in the current directory with the streams of `v`. */
  function Start(p: Process, launch: Launcher, v: Variant, name: string, args: seq<string>): Ran
  {
    var request := Launch(name, args, Bindings(v), p.cwd);
    Ran(request, launch(request))
  }

  /** `Run`: no stream is bound; the child's error is returned unchanged. */
  function Run(p: Process, launch: Launcher, name: string, args: seq<string>): (r: Ran)
    ensures r.request.name == name && r.request.args == args && r.request.cwd == p.cwd
    ensures r.request.streams == {}
    ensures r.err == launch(r.request)
  {
    Start(p, launch, Bare, name, args)
  }

  /** `RunWithBoundOutput`: exactly stdout and stderr are bound. */
  function RunWithBoundOutput(p: Process, launch: Launcher, name: string, args: seq<string>): (r: Ran)
    ensures r.request.name == name && r.request.args == args && r.request.cwd == p.cwd
    ensures r.request.streams == {Stdout, Stderr}
    ensures r.err == launch(r.request)
  {
    Start(p, launch, BoundOutput, name, args)
  }

  /** `RunWithBoundInputOutput`: stdin, stdout and stderr are bound. */
  function RunWithBoundInputOutput(p: Process, launch: Launcher, name: string, args: seq<string>): (r: Ran)
    ensures r.request.name == name && r.request.args == args && r.request.cwd == p.cwd
    ensures r.request.streams == {Stdin, Stdout, Stderr}
    ensures r.err == launch(r.request)
  {
    Start(p, launch, BoundInputOutput, name, args)
  }

  /** The result of `os.Getwd`: the directory, or an error and `""`. */
  datatype Wd = Wd(dir: string, err: Error)

  function Getwd(p: Process): (w: Wd)
    ensures w.err == p.getwdFault
    ensures w.err == Nil ==> w.dir == p.cwd
  {
    if p.getwdFault == Nil then Wd(p.cwd, Nil) else Wd("", p.getwdFault)
  }

  /** The result of `os.Chdir`: the new state and the error. A failed
      change leaves the working directory where it was. */
  datatype Moved = Moved(process: Process, err: Error)

  function Chdir(p: Process, dir: string): (m: Moved)
    ensures m.err == Nil <==> dir !in p.chdirFaults
    ensures m.err == Nil ==> m.process == p.(cwd := dir)
    ensures m.err != Nil ==> m.process == p
  {
    if dir in p.chdirFaults then Moved(p, Fail(p.chdirFaults[dir])) else Moved(p.(cwd := dir), Nil)
  }

  /** The wrapped `os.Getwd` error keeps its cause at the end. */
  function GetwdMessage(cause: string): (msg: string)
    ensures Contains(msg, cause)
    ensures |msg| > |cause| && msg[|msg| - |cause|..] == cause
  {
    var msg := "Unable to get current directory: " + cause;
    assert OccursAt(msg, cause, |msg| - |cause|);
    ContainsAt(msg, cause, |msg| - |cause|);
    msg
  }

  /** The wrapped `os.Chdir` error names the directory and keeps its
      cause at the end. */
  function ChdirMessage(dir: string, cause: string): (msg: string)
    ensures Contains(msg, dir)
    ensures Contains(msg, cause)
    ensures |msg| > |cause| && msg[|msg| - |cause|..] == cause
  {
    var msg := "Unable to chdir to " + dir + ": " + cause;
    assert OccursAt(dir, dir, 0);
    OccursInContext("Unable to chdir to ", dir, ": " + cause, dir, 0);
    assert "Unable to chdir to " + dir + (": " + cause) == msg;
    ContainsAt(msg, dir, |"Unable to chdir to "|);
    assert OccursAt(msg, cause, |msg| - |cause|);
    ContainsAt(msg, cause, |msg| - |cause|);
    msg
  }

  /** Whether, and in which working directory, the scoped command ran. */
  datatype Invocation = NotInvoked | InvokedIn(cwd: string)

  /** The error `executeInDir` returns, the process state it leaves, and
      what happened to the command. */
  datatype Scoped = Scoped(err: Error, after: Process, invocation: Invocation)

  /** `executeInDir`: remember the working directory, enter `dir`, run
      `cmd` there, then change back (a deferred `os.Chdir` whose error is
      dropped) and return `cmd`'s error. Failing to read the directory or
      to enter `dir` returns at once, before `cmd` runs. */
  function ExecuteInDir(p: Process, dir: string, cmd: Process -> Error): (r: Scoped)
    ensures r.invocation == NotInvoked <==> p.getwdFault != Nil || dir in p.chdirFaults
    ensures r.invocation == NotInvoked ==> r.err != Nil && r.after == p
    ensures p.getwdFault == Nil && dir in p.chdirFaults ==> Contains(r.err.message, dir)
    ensures r.invocation != NotInvoked ==>
              && r.invocation == InvokedIn(dir)
              && r.err == cmd(p.(cwd := dir))
              && r.after.cwd == (if p.cwd in p.chdirFaults then dir else p.cwd)
              && r.after.getwdFault == p.getwdFault
              && r.after.chdirFaults == p.chdirFaults
  {
    var wd := Getwd(p);
    if wd.err != Nil then
      Scoped(Fail(GetwdMessage(wd.err.message)), p, NotInvoked)
    else
      var currentDir := wd.dir;
      var entered := Chdir(p, dir);
      if entered.err != Nil then
        Scoped(Fail(ChdirMessage(dir, entered.err.message)), p, NotInvoked)
      else
        var inside := entered.process;
        var err := cmd(inside);
        var restored := Chdir(inside, currentDir);
        Scoped(err, restored.process, InvokedIn(inside.cwd))
  }

  /** `RunInDir`: `Run` inside `executeInDir`. */
  function RunInDir(p: Process, launch: Launcher, dir: string, name: string, args: seq<string>): (r: Scoped)
    ensures r.invocation != NotInvoked ==> r.err == Run(p.(cwd := dir), launch, name, args).err
  {
    ExecuteInDir(p, dir, q => Run(q, launch, name, args).err)
  }

  /** `RunInDirWithBoundOutput`: `RunWithBoundOutput` inside `executeInDir`. */
  function RunInDirWithBoundOutput(p: Process, launch: Launcher, dir: string, name: string, args: seq<string>): (r: Scoped)
    ensures r.invocation != NotInvoked ==> r.err == RunWithBoundOutput(p.(cwd := dir), launch, name, args).err
  {
    ExecuteInDir(p, dir, q => RunWithBoundOutput(q, launch, name, args).err)
  }

  /** `RunInDirWithBoundInputOutput`: `RunWithBoundInputOutput` inside
      `executeInDir`. */
  function RunInDirWithBoundInputOutput(p: Process, launch: Launcher, dir: string, name: string, args: seq<string>): (r: Scoped)
    ensures r.invocation != NotInvoked ==> r.err == RunWithBoundInputOutput(p.(cwd := dir), launch, name, args).err
  {
    ExecuteInDir(p, dir, q => RunWithBoundInputOutput(q, launch, name, args).err)
  }

  /** The scoped variant of `v`. */
  function RunInDirVariant(p: Process, launch: Launcher, v: Variant, dir: string, name: string, args: seq<string>): Scoped
  {
    match v
    case Bare => RunInDir(p, launch, dir, name, args)
    case BoundOutput => RunInDirWithBoundOutput(p, launch, dir, name, args)
    case BoundInputOutput => RunInDirWithBoundInputOutput(p, launch, dir, name, args)
  }

  /** When the directory step succeeds, every scoped variant launches the
      program in `dir`, with its own variant's streams, and returns the
      launch's error unchanged. */
  lemma ScopedLaunchesInDir(p: Process, launch: Launcher, v: Variant, dir: string, name: string, args: seq<string>)
    requires p.getwdFault == Nil && dir !in p.chdirFaults
    ensures RunInDirVariant(p, launch, v, dir, name, args).invocation == InvokedIn(dir)
    ensures RunInDirVariant(p, launch, v, dir, name, args).err == launch(Launch(name, args, Bindings(v), dir))
  {
  }

  /** When the directory step fails the launcher is never consulted: any
      two launchers give the same result, which is an error, and the
      working directory is untouched. */
  lemma SetupFailureNeverLaunches(p: Process, l1: Launcher, l2: Launcher, v: Variant, dir: string, name: string, args: seq<string>)
    requires p.getwdFault != Nil || dir in p.chdirFaults
    ensures RunInDirVariant(p, l1, v, dir, name, args) == RunInDirVariant(p, l2, v, dir, name, args)
    ensures RunInDirVariant(p, l1, v, dir, name, args).err != Nil
    ensures RunInDirVariant(p, l1, v, dir, name, args).after == p
  {
  }

  /** After the command has run, the original directory is back whether the
      command succeeded or failed, provided the restoring `os.Chdir` works;
      its error, if any, never reaches the caller. */
  lemma RestoresDirectory(p: Process, dir: string, cmd: Process -> Error)
    requires p.getwdFault == Nil && dir !in p.chdirFaults
    ensures ExecuteInDir(p, dir, cmd).err == cmd(p.(cwd := dir))
    ensures p.cwd !in p.chdirFaults ==> ExecuteInDir(p, dir, cmd).after == p
  {
  }

  /** A failed `os.Getwd` is reported with its cause, and a failed
      `os.Chdir` with the directory and its cause. */
  lemma SetupErrorMessages(p: Process, dir: string, cmd: Process -> Error)
    ensures p.getwdFault != Nil ==>
              ExecuteInDir(p, dir, cmd).err == Fail(GetwdMessage(p.getwdFault.message))
    ensures p.getwdFault == Nil && dir in p.chdirFaults ==>
              ExecuteInDir(p, dir, cmd).err == Fail(ChdirMessage(dir, p.chdirFaults[dir]))
  {
  }
}
