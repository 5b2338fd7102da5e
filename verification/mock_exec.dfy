/** `MockShellExecutor`: a test double for the `Executor` interface that
    spawns nothing. It records a rendering of every call, remembers the last
    directory a `RunInDir*` call named, and answers every call with the
    outcome fixed when it was built. Each method is a pure transition from
    one executor state to the next. */
module MockExec {
  import opened Errors
  import opened Text
  import opened Executor

  datatype MockShellExecutor = MockShellExecutor(
    success: bool,
    executedCommands: seq<string>,
    executedCommandDir: string)

  /** The state after a call together with the error the call returned. */
  datatype Step = Step(exec: MockShellExecutor, err: Error)

  /** The constant error every call returns in failure mode. */
  const MockError: Error := Fail("Mock error")

  /** `CreateSuccessMockExecutor`: nothing recorded, every call succeeds. */
  function CreateSuccessMockExecutor(): (m: MockShellExecutor)
    ensures m.success
    ensures m.executedCommands == [] && m.executedCommandDir == ""
  {
    MockShellExecutor(true, [], "")
  }

  /** `CreateFailureMockExecutor`: nothing recorded, every call fails. */
  function CreateFailureMockExecutor(): (m: MockShellExecutor)
    ensures !m.success
    ensures m.executedCommands == [] && m.executedCommandDir == ""
  {
    MockShellExecutor(false, [], "")
  }

  /** The record of a call: `fmt.Sprintf("%s %v", name, args)`. The name
      can be read back from the front of the record and the space-joined
      arguments from between the brackets at its end. */
  function CommandRecord(name: string, args: seq<string>): (r: string)
    ensures HasPrefix(r, name + " [")
    ensures |r| == |name| + |Join(args, " ")| + 3 && r[|r| - 1] == ']'
    ensures r[|name| + 2..|r| - 1] == Join(args, " ")
  {
    var r := name + " " + FormatSlice(args);
    assert r[..|name + " ["|] == name + " [";
    r
  }

  /** A keyword search for the program name or for any single argument
      finds the call's record. */
  lemma RecordMentionsCall(name: string, args: seq<string>)
    ensures Contains(CommandRecord(name, args), name)
    ensures forall k :: 0 <= k < |args| ==> Contains(CommandRecord(name, args), args[k])
  {
    var r := CommandRecord(name, args);
    assert r[..|name|] == name;
    forall k | 0 <= k < |args|
      ensures Contains(r, args[k])
    {
      FormatSliceMentions(args, k);
      ContainsIffOccurs(FormatSlice(args), args[k]);
      var at :| OccursAt(FormatSlice(args), args[k], at);
      OccursInContext(name + " ", FormatSlice(args), "", args[k], at);
      assert name + " " + FormatSlice(args) + "" == r;
      ContainsAt(r, args[k], |name + " "| + at);
    }
  }

  /** Arguments are rendered with plain spaces, so an argument holding a
      space gives the same record as the argument split in two. */
  lemma RecordIsAmbiguous()
    ensures CommandRecord("git", ["commit -m"]) == CommandRecord("git", ["commit", "-m"])
  {
  }

  /** What every `Run*` call does to the recorded state and its result:
      the success flag is kept, exactly one record is appended after the
      untouched earlier ones (whatever the result), and the error is nil
      exactly in success mode and the fixed mock error otherwise. */
  ghost predicate Recorded(m: MockShellExecutor, s: Step, name: string, args: seq<string>)
  {
    && s.exec.success == m.success
    && |s.exec.executedCommands| == |m.executedCommands| + 1
    && s.exec.executedCommands[..|m.executedCommands|] == m.executedCommands
    && s.exec.executedCommands[|m.executedCommands|] == CommandRecord(name, args)
    && (s.err == Nil <==> m.success)
    && (!m.success ==> s.err == MockError)
  }

  /** `mockCommand`: append the record, then answer per the mode. */
  function MockCommand(m: MockShellExecutor, name: string, args: seq<string>): (s: Step)
    ensures Recorded(m, s, name, args)
    ensures s.exec.executedCommandDir == m.executedCommandDir
  {
    var recorded := m.(executedCommands := m.executedCommands + [CommandRecord(name, args)]);
    if m.success then Step(recorded, Nil) else Step(recorded, MockError)
  }

  /** `Run`. */
  function Run(m: MockShellExecutor, name: string, args: seq<string>): (s: Step)
    ensures Recorded(m, s, name, args)
    ensures s.exec.executedCommandDir == m.executedCommandDir
  {
    MockCommand(m, name, args)
  }

  /** `RunWithBoundOutput`: the mock does not distinguish stream bindings. */
  function RunWithBoundOutput(m: MockShellExecutor, name: string, args: seq<string>): (s: Step)
    ensures Recorded(m, s, name, args)
    ensures s.exec.executedCommandDir == m.executedCommandDir
  {
    MockCommand(m, name, args)
  }

  /** `RunWithBoundInputOutput`. */
  function RunWithBoundInputOutput(m: MockShellExecutor, name: string, args: seq<string>): (s: Step)
    ensures Recorded(m, s, name, args)
    ensures s.exec.executedCommandDir == m.executedCommandDir
  {
    MockCommand(m, name, args)
  }

  /** The mock's `executeInDir`: overwrite the last directory, then run
      `cmd` on the updated state. It never fails on its own. */
  function ExecuteInDir(m: MockShellExecutor, dir: string, cmd: MockShellExecutor -> Step): Step
  {
    cmd(m.(executedCommandDir := dir))
  }

  /** The directory held before a scoped call has no influence on it: the
      field is overwritten, not stacked, and the command sees `dir`. */
  lemma ExecuteInDirOverwrites(m: MockShellExecutor, earlier: string, dir: string, cmd: MockShellExecutor -> Step)
    ensures ExecuteInDir(m, dir, cmd) == ExecuteInDir(m.(executedCommandDir := earlier), dir, cmd)
    ensures ExecuteInDir(m, dir, cmd) == cmd(MockShellExecutor(m.success, m.executedCommands, dir))
  {
  }

  /** `RunInDir`. */
  function RunInDir(m: MockShellExecutor, dir: string, name: string, args: seq<string>): (s: Step)
    ensures Recorded(m, s, name, args)
    ensures s.exec.executedCommandDir == dir
  {
    ExecuteInDir(m, dir, e => Run(e, name, args))
  }

  /** `RunInDirWithBoundOutput`. */
  function RunInDirWithBoundOutput(m: MockShellExecutor, dir: string, name: string, args: seq<string>): (s: Step)
    ensures Recorded(m, s, name, args)
    ensures s.exec.executedCommandDir == dir
  {
    ExecuteInDir(m, dir, e => RunWithBoundOutput(e, name, args))
  }

  /** `RunInDirWithBoundInputOutput`. */
  function RunInDirWithBoundInputOutput(m: MockShellExecutor, dir: string, name: string, args: seq<string>): (s: Step)
    ensures Recorded(m, s, name, args)
    ensures s.exec.executedCommandDir == dir
  {
    ExecuteInDir(m, dir, e => RunWithBoundInputOutput(e, name, args))
  }

  /** Each `RunInDir*` call records and returns exactly what its plain
      counterpart does; the only difference is the remembered directory. */
  lemma InDirMatchesPlain(m: MockShellExecutor, dir: string, name: string, args: seq<string>)
    ensures RunInDir(m, dir, name, args).err == Run(m, name, args).err
    ensures RunInDir(m, dir, name, args).exec == Run(m, name, args).exec.(executedCommandDir := dir)
    ensures RunInDirWithBoundOutput(m, dir, name, args).err == RunWithBoundOutput(m, name, args).err
    ensures RunInDirWithBoundOutput(m, dir, name, args).exec
         == RunWithBoundOutput(m, name, args).exec.(executedCommandDir := dir)
    ensures RunInDirWithBoundInputOutput(m, dir, name, args).err == RunWithBoundInputOutput(m, name, args).err
    ensures RunInDirWithBoundInputOutput(m, dir, name, args).exec
         == RunWithBoundInputOutput(m, name, args).exec.(executedCommandDir := dir)
  {
  }

  /** Dispatch one interface call to the matching method. */
  function Apply(m: MockShellExecutor, c: Call): (s: Step)
    ensures Recorded(m, s, c.name, c.args)
    ensures s.exec.executedCommandDir == (if c.InDir? then c.dir else m.executedCommandDir)
  {
    match c
    case Plain(Bare, name, args) => Run(m, name, args)
    case Plain(BoundOutput, name, args) => RunWithBoundOutput(m, name, args)
    case Plain(BoundInputOutput, name, args) => RunWithBoundInputOutput(m, name, args)
    case InDir(dir, Bare, name, args) => RunInDir(m, dir, name, args)
    case InDir(dir, BoundOutput, name, args) => RunInDirWithBoundOutput(m, dir, name, args)
    case InDir(dir, BoundInputOutput, name, args) => RunInDirWithBoundInputOutput(m, dir, name, args)
  }

  /** The final state and the per-call errors of a sequence of calls. */
  datatype Trace = Trace(exec: MockShellExecutor, errs: seq<Error>)

  function ApplyAll(m: MockShellExecutor, calls: seq<Call>): Trace
    decreases |calls|
  {
    if |calls| == 0 then Trace(m, [])
    else
      var first := Apply(m, calls[0]);
      var rest := ApplyAll(first.exec, calls[1..]);
      Trace(rest.exec, [first.err] + rest.errs)
  }

  /** The records a sequence of calls leaves, in call order. */
  function Records(calls: seq<Call>): (rs: seq<string>)
    ensures |rs| == |calls|
    ensures forall i :: 0 <= i < |calls| ==> rs[i] == CommandRecord(calls[i].name, calls[i].args)
  {
    if |calls| == 0 then [] else [CommandRecord(calls[0].name, calls[0].args)] + Records(calls[1..])
  }

  /** Over any sequence of calls the success flag never changes, and every
      call's error is determined by the mode alone. */
  lemma {:induction false} ApplyAllKeepsMode(m: MockShellExecutor, calls: seq<Call>)
    ensures ApplyAll(m, calls).exec.success == m.success
    ensures |ApplyAll(m, calls).errs| == |calls|
    ensures forall i :: 0 <= i < |calls| ==>
              ApplyAll(m, calls).errs[i] == (if m.success then Nil else MockError)
    decreases |calls|
  {
    if |calls| > 0 {
      var first := Apply(m, calls[0]);
      var rest := ApplyAll(first.exec, calls[1..]);
      ApplyAllKeepsMode(first.exec, calls[1..]);
      var expected := if m.success then Nil else MockError;
      assert first.err == expected;
      forall i | 0 <= i < |calls|
        ensures ([first.err] + rest.errs)[i] == expected
      {
        if i > 0 {
          assert ([first.err] + rest.errs)[i] == rest.errs[i - 1];
        }
      }
    }
  }

  /** One call extends the log by exactly its own record. */
  lemma AppliedLog(m: MockShellExecutor, c: Call)
    ensures Apply(m, c).exec.executedCommands == m.executedCommands + [CommandRecord(c.name, c.args)]
  {
    var log := Apply(m, c).exec.executedCommands;
    assert log == log[..|m.executedCommands|] + [log[|m.executedCommands|]];
  }

  /** Over any sequence of calls the log grows by one record per call, in
      call order, with the earlier records kept as a prefix. */
  lemma {:induction false} ApplyAllRecords(m: MockShellExecutor, calls: seq<Call>)
    ensures ApplyAll(m, calls).exec.executedCommands == m.executedCommands + Records(calls)
    decreases |calls|
  {
    if |calls| > 0 {
      ApplyAllRecords(Apply(m, calls[0]).exec, calls[1..]);
      AppliedLog(m, calls[0]);
      assert Records(calls) == [CommandRecord(calls[0].name, calls[0].args)] + Records(calls[1..]);
    }
  }

  /** Calls without a directory leave the remembered directory alone. */
  lemma {:induction false} PlainCallsKeepDir(m: MockShellExecutor, calls: seq<Call>)
    requires forall i :: 0 <= i < |calls| ==> calls[i].Plain?
    ensures ApplyAll(m, calls).exec.executedCommandDir == m.executedCommandDir
    decreases |calls|
  {
    if |calls| > 0 {
      PlainCallsKeepDir(Apply(m, calls[0]).exec, calls[1..]);
    }
  }

  /** The remembered directory is the one named by the LAST directory-scoped
      call: later calls overwrite it, they do not stack. */
  lemma {:induction false} LastInDirWins(m: MockShellExecutor, calls: seq<Call>, k: int)
    requires 0 <= k < |calls| && calls[k].InDir?
    requires forall i :: k < i < |calls| ==> calls[i].Plain?
    ensures ApplyAll(m, calls).exec.executedCommandDir == calls[k].dir
    decreases |calls|
  {
    var first := Apply(m, calls[0]);
    if k == 0 {
      PlainCallsKeepDir(first.exec, calls[1..]);
    } else {
      LastInDirWins(first.exec, calls[1..], k - 1);
    }
  }

  /** Reference meaning of `AssertKeywordIncludedInCommand`: some record
      contains the keyword. */
  ghost predicate KeywordIncluded(m: MockShellExecutor, keyword: string)
  {
    exists i :: 0 <= i < |m.executedCommands| && Contains(m.executedCommands[i], keyword)
  }

  /** `AssertKeywordIncludedInCommand`, with the `*testing.T` failure
      replaced by the returned verdict: scan every record and remember
      whether any contains the keyword. */
  method AssertKeywordIncludedInCommand(m: MockShellExecutor, keyword: string) returns (passes: bool)
    ensures passes <==> KeywordIncluded(m, keyword)
  {
    var anyMatches := false;
    for i := 0 to |m.executedCommands|
      invariant anyMatches <==> exists j :: 0 <= j < i && Contains(m.executedCommands[j], keyword)
    {
      if Contains(m.executedCommands[i], keyword) {
        anyMatches := true;
      }
    }
    passes := anyMatches;
  }

  /** `AssertCommandIssuedInSubdirectoryOf`: the last directory begins with
      `parentDir` as a string, not necessarily at a path separator. */
  function AssertCommandIssuedInSubdirectoryOf(m: MockShellExecutor, parentDir: string): (passes: bool)
    ensures passes <==> exists rest :: m.executedCommandDir == parentDir + rest
  {
    PrefixIffConcat(m.executedCommandDir, parentDir);
    HasPrefix(m.executedCommandDir, parentDir)
  }

  /** With nothing recorded the keyword assertion fails for every keyword,
      the empty one included. */
  lemma NothingRecordedFailsKeyword(m: MockShellExecutor, keyword: string)
    requires m.executedCommands == []
    ensures !KeywordIncluded(m, keyword)
  {
  }

  /** After any call, a keyword search for its program name or for any of
      its arguments passes. */
  lemma {:induction false} CallIsFindable(m: MockShellExecutor, c: Call)
    ensures KeywordIncluded(Apply(m, c).exec, c.name)
    ensures forall k :: 0 <= k < |c.args| ==> KeywordIncluded(Apply(m, c).exec, c.args[k])
  {
    var s := Apply(m, c);
    var last := |m.executedCommands|;
    RecordMentionsCall(c.name, c.args);
    assert Contains(s.exec.executedCommands[last], c.name);
    forall k | 0 <= k < |c.args|
      ensures KeywordIncluded(s.exec, c.args[k])
    {
      assert Contains(s.exec.executedCommands[last], c.args[k]);
    }
  }

  /** A later call never makes an earlier keyword search fail. */
  lemma KeywordSurvivesCalls(m: MockShellExecutor, c: Call, keyword: string)
    requires KeywordIncluded(m, keyword)
    ensures KeywordIncluded(Apply(m, c).exec, keyword)
  {
    var i :| 0 <= i < |m.executedCommands| && Contains(m.executedCommands[i], keyword);
    assert Apply(m, c).exec.executedCommands[i] == m.executedCommands[i];
  }

  /** After a directory-scoped call into `dir`, the subdirectory assertion
      passes for `dir` itself. */
  lemma InDirPassesSubdirectory(m: MockShellExecutor, c: Call)
    requires c.InDir?
    ensures AssertCommandIssuedInSubdirectoryOf(Apply(m, c).exec, c.dir)
  {
    assert Apply(m, c).exec.executedCommandDir == c.dir + "";
  }

  /** The subdirectory assertion is a raw prefix test: a sibling directory
      whose name extends the parent's passes, and a parent with a trailing
      separator rejects the parent directory itself. */
  lemma SubdirectoryIsRawPrefix()
    ensures AssertCommandIssuedInSubdirectoryOf(MockShellExecutor(true, [], "/tmp/workx"), "/tmp/work")
    ensures !AssertCommandIssuedInSubdirectoryOf(MockShellExecutor(true, [], "/tmp/work"), "/tmp/work/")
  {
    assert "/tmp/workx" == "/tmp/work" + "x";
    assert !HasPrefix("/tmp/work", "/tmp/work/");
  }

  /** A success-mode mock running `echo hello` with bound output in
      `/tmp/work` succeeds, records one call mentioning both words, and
      remembers the directory. */
  lemma EchoInWorkDir()
    ensures var s := RunInDirWithBoundOutput(CreateSuccessMockExecutor(), "/tmp/work", "echo", ["hello"]);
      && s.err == Nil
      && |s.exec.executedCommands| == 1
      && KeywordIncluded(s.exec, "echo")
      && KeywordIncluded(s.exec, "hello")
      && s.exec.executedCommandDir == "/tmp/work"
  {
    var c := InDir("/tmp/work", BoundOutput, "echo", ["hello"]);
    CallIsFindable(CreateSuccessMockExecutor(), c);
  }

  /** A failure-mode mock running `false` returns the mock error and still
      records the call. */
  lemma FalseInFailureMode()
    ensures var s := Run(CreateFailureMockExecutor(), "false", []);
      && s.err == MockError
      && s.exec.executedCommands == ["false []"]
      && KeywordIncluded(s.exec, "false")
  {
    assert CommandRecord("false", []) == "false []";
    CallIsFindable(CreateFailureMockExecutor(), Plain(Bare, "false", []));
  }
}
