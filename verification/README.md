# wutils executor and reporter, modelled in Dafny

This project models the sequential core of the `executor` and `reporter` packages of wutils, a Go command-line helper library:

- **`MockShellExecutor`** is the executor's test double. It never spawns a process. Its state has three parts: a success flag fixed when it is built, an append-only log of rendered commands, and the last directory a `RunInDir*` call named. Each of the six `Run*` methods is a pure transition `MockShellExecutor -> Step`. The two `Assert*` helpers are modelled as verdicts (a method and a function) with the `*testing.T` failure left out.
- **`ShellExecutor`** is the production executor. Starting a program is an oracle (`Launcher`). It maps a launch request to the error the child's run yields. The request holds the program, its arguments, the bound streams and the working directory. The process-wide working directory is an abstract `Process` state. Fault fields in that state decide whether `os.Getwd` and `os.Chdir` succeed. `executeInDir` returns the command's error, the process state it leaves behind, and whether the command ran and in which directory.
- **`MockReporter`** is the reporter's test double. It holds one flag, `reported`. `Reported()` is a plain read of that field, so it cannot change the state. Its behaviour is stated through the contracts of `ReportIfError`.

Files:

- `errors.dfy`: a Go `error` as `Nil | Fail(message)`.
- `text.dfy`: `strings.HasPrefix`, `strings.Contains`, `strings.Join` and the `%v` rendering of a `[]string`. Prefix and substring tests are proved equal to reference definitions. `Join` is characterised by its one- and many-element cases, and every element is proved to occur in the result.
- `executor.dfy`: the `Executor` interface, meaning the variants, their stream bindings and a call descriptor.
- `mock_exec.dfy`, `exec.dfy`, `mock_reporter.dfy`: the three components.

Points where the code does less than its names or comments suggest:

- The name `AssertCommandIssuedInSubdirectoryOf` suggests a path test, but pkg/executor/mock_exec.go:113 uses `strings.HasPrefix`, a raw string-prefix test. So `/tmp/workx` passes for `/tmp/work` (`MockExec.SubdirectoryIsRawPrefix`).
- The mock's `executeInDir` (pkg/executor/mock_exec.go:89-92) cannot fail. So a directory-scoped mock call always records its command.
- The deferred `os.Chdir` (pkg/executor/exec.go:93) drops its error. If it fails, the process stays in `dir` and the caller still gets the command's own error. `ShellExec.ExecuteInDir` states both outcomes.

## Model

| member | source | states |
|---|---|---|
| Text.PrefixIffConcat | pkg/executor/mock_exec.go:113 | `strings.HasPrefix(s, p)` holds exactly when `s` is `p` followed by some rest |
| Text.ContainsIffOccurs | pkg/executor/mock_exec.go:100 | the substring scan used for keyword search succeeds exactly when the keyword occurs at some index of the record |
| Text.JoinOffset | pkg/executor/mock_exec.go:79 | every element of a space-joined argument list occurs in the joined text, at the returned offset |
| Text.JoinAppend | pkg/executor/mock_exec.go:79 | joining no elements gives the empty string, one element gives itself, and appending an element appends the separator then that element |
| Text.FormatSliceMentions | pkg/executor/mock_exec.go:79 | every argument occurs in the `%v` rendering `[a b ...]` of the argument slice |
| Executor.BindingsChain | pkg/executor/exec.go:24-70 | `Run` binds no stream, `RunWithBoundOutput` binds stdout and stderr but not stdin, `RunWithBoundInputOutput` binds all three, and each binds a strict superset of the one before |
| MockExec.CreateSuccessMockExecutor | pkg/executor/mock_exec.go:19-23 | a success-mode executor starts with no records and an empty directory |
| MockExec.CreateFailureMockExecutor | pkg/executor/mock_exec.go:27-31 | a failure-mode executor starts with no records and an empty directory |
| MockExec.CommandRecord | pkg/executor/mock_exec.go:79 | the record `Sprintf("%s %v")` starts with the name and a space and a bracket, ends with a bracket, and holds exactly the space-joined arguments between the brackets |
| MockExec.RecordMentionsCall | pkg/executor/mock_exec.go:79 | the record `name [args]` is found by a keyword search for the name and for each single argument |
| MockExec.RecordIsAmbiguous | pkg/executor/mock_exec.go:79 | one argument holding a space gives the same record as two arguments, so records cannot tell such calls apart |
| MockExec.MockCommand | pkg/executor/mock_exec.go:78-87 | appends exactly one record after the unchanged earlier ones, even when it fails; keeps the flag and directory; returns nil iff success mode, else the constant "Mock error" |
| MockExec.Run | pkg/executor/mock_exec.go:34-36 | records the call and answers per the mode; the directory is unchanged |
| MockExec.RunWithBoundOutput | pkg/executor/mock_exec.go:49-51 | records the call and answers per the mode; the directory is unchanged |
| MockExec.RunWithBoundInputOutput | pkg/executor/mock_exec.go:64-66 | records the call and answers per the mode; the directory is unchanged |
| MockExec.RunInDir | pkg/executor/mock_exec.go:39-45 | records the call and answers per the mode; the directory becomes `dir` |
| MockExec.RunInDirWithBoundOutput | pkg/executor/mock_exec.go:54-60 | records the call and answers per the mode; the directory becomes `dir` |
| MockExec.RunInDirWithBoundInputOutput | pkg/executor/mock_exec.go:70-76 | records the call and answers per the mode; the directory becomes `dir` |
| MockExec.ExecuteInDirOverwrites | pkg/executor/mock_exec.go:89-92 | the mock's `executeInDir` runs the command on the state whose directory is `dir`; the directory held before has no influence, so it is overwritten and not stacked |
| MockExec.InDirMatchesPlain | pkg/executor/mock_exec.go:38-76 | each `RunInDir*` call gives the same error and the same log as its plain counterpart; only the directory differs |
| MockExec.Apply | pkg/executor/mock_exec.go:34-76 | any interface call records itself; the directory changes only for directory-scoped calls and then becomes their `dir` |
| MockExec.ApplyAllKeepsMode | pkg/executor/mock_exec.go:82-86 | over any sequence of calls the success flag never changes, and every call returns nil in success mode and "Mock error" in failure mode |
| MockExec.ApplyAllRecords | pkg/executor/mock_exec.go:79-80 | over any sequence of calls the log is the old log followed by one record per call, in call order |
| MockExec.AppliedLog | pkg/executor/mock_exec.go:79-80 | one call of any of the six methods extends the log by exactly its own record, keeping the earlier log as a prefix |
| MockExec.PlainCallsKeepDir | pkg/executor/mock_exec.go:34-36 | calls without a directory never change the remembered directory |
| MockExec.LastInDirWins | pkg/executor/mock_exec.go:89-92 | the remembered directory is the one named by the last directory-scoped call; later calls overwrite it and nothing is stacked |
| MockExec.AssertKeywordIncludedInCommand | pkg/executor/mock_exec.go:96-108 | the scan passes iff some record contains the keyword |
| MockExec.AssertCommandIssuedInSubdirectoryOf | pkg/executor/mock_exec.go:112-116 | passes iff the last directory is `parentDir` followed by any string |
| MockExec.NothingRecordedFailsKeyword | pkg/executor/mock_exec.go:96-108 | with no records the keyword assertion fails for every keyword, including the empty one |
| MockExec.CallIsFindable | pkg/executor/mock_exec.go:78-80 | after any call, keyword searches for its name and for each argument pass |
| MockExec.KeywordSurvivesCalls | pkg/executor/mock_exec.go:80 | a keyword that was found is still found after any further call, because records are only appended |
| MockExec.InDirPassesSubdirectory | pkg/executor/mock_exec.go:89-92 | after a directory-scoped call into `dir`, the subdirectory assertion passes for `dir` |
| MockExec.SubdirectoryIsRawPrefix | pkg/executor/mock_exec.go:113 | `/tmp/workx` passes for `/tmp/work`, and `/tmp/work` fails for `/tmp/work/` |
| MockExec.EchoInWorkDir | pkg/executor/mock_exec.go:53-60 | a success-mode `RunInDirWithBoundOutput("/tmp/work", "echo", "hello")` returns nil, leaves one record mentioning both words, and remembers `/tmp/work` |
| MockExec.FalseInFailureMode | pkg/executor/mock_exec.go:78-87 | a failure-mode `Run("false")` returns "Mock error" and records exactly `false []` |
| ShellExec.Run | pkg/executor/exec.go:24-28 | launches the program with its arguments verbatim in the current directory, binds no stream, and returns the launch's error unchanged |
| ShellExec.RunWithBoundOutput | pkg/executor/exec.go:41-48 | launches in the current directory with exactly stdout and stderr bound and returns the launch's error unchanged |
| ShellExec.RunWithBoundInputOutput | pkg/executor/exec.go:62-70 | launches in the current directory with stdin, stdout and stderr bound and returns the launch's error unchanged |
| ShellExec.Getwd | pkg/executor/exec.go:83 | the directory read is the current one when the read does not fail |
| ShellExec.GetwdMessage | pkg/executor/exec.go:85 | the error for a failed directory read contains the cause, which ends the message |
| ShellExec.Chdir | pkg/executor/exec.go:88 | a change succeeds iff the directory is enterable; success moves there, failure leaves the state unchanged |
| ShellExec.ChdirMessage | pkg/executor/exec.go:90 | the error for a failed change of directory mentions that directory and contains the cause, which ends the message |
| ShellExec.ExecuteInDir | pkg/executor/exec.go:82-96 | fails without running the command iff the directory read or the change into `dir` fails, leaving the state unchanged; otherwise runs the command in `dir`, returns its error unchanged, and restores the original directory unless the dropped restoring change fails |
| ShellExec.RunInDir | pkg/executor/exec.go:31-37 | when the command runs, its error is what `Run` gives with `dir` as the working directory |
| ShellExec.RunInDirWithBoundOutput | pkg/executor/exec.go:52-58 | when the command runs, its error is what `RunWithBoundOutput` gives in `dir` |
| ShellExec.RunInDirWithBoundInputOutput | pkg/executor/exec.go:74-80 | when the command runs, its error is what `RunWithBoundInputOutput` gives in `dir` |
| ShellExec.ScopedLaunchesInDir | pkg/executor/exec.go:88-95 | once the directory steps succeed, every scoped variant launches in `dir` with its own streams and returns the launch's error |
| ShellExec.SetupFailureNeverLaunches | pkg/executor/exec.go:83-91 | when the directory steps fail the launcher is never consulted, the result is an error, and the working directory is untouched |
| ShellExec.RestoresDirectory | pkg/executor/exec.go:93-95 | after the command runs, the original directory is back whether the command failed or not, provided the restoring change works; the command's error is returned either way |
| ShellExec.SetupErrorMessages | pkg/executor/exec.go:83-91 | a failed directory read is reported with its cause, and a failed change with the directory and its cause |
| MockReport.NewMockReporter | pkg/reporter/mock_reporter.go:5-7 | a fresh reporter has not reported |
| MockReport.ReportIfError | pkg/reporter/mock_reporter.go:11-17 | after a call, `Reported()` is true iff the error is non-nil |
| MockReport.Reported | pkg/reporter/mock_reporter.go:20-22 | the accessor is true exactly in the state that remembers a non-nil error, and it returns a value without producing a new state |
| MockReport.ReportDependsOnErrorOnly | pkg/reporter/mock_reporter.go:11-17 | the state after a call ignores the previous flag, the format and its arguments; repeating a call changes nothing |
| MockReport.LastReportWins | pkg/reporter/mock_reporter.go:12 | after any sequence of calls the flag reflects only the last call's error |
| MockReport.ResetAfterNil | pkg/reporter/mock_reporter.go:11-17 | a non-nil report followed by a nil one leaves the flag false |

## Left out

- Spawning processes, `PATH` lookup, exit statuses and the real wiring of standard streams (`exec.Command`, `cmd.Run`). A launch is the abstract `Launcher` oracle, and the streams it would bind are recorded in the request.
- The file-system meaning of `os.Getwd` and `os.Chdir`. They are modelled as an abstract working directory plus fault fields. A failed `os.Chdir` is taken to leave the directory where it was. Directories are compared as strings, and a relative `dir` is not resolved against the current directory. The faults are fixed for the whole call, so the launched command cannot change them.
- `FmtReporter.ReportIfError` (pkg/reporter/reporter.go:22-30). It is two `fmt.Printf` calls and `os.Exit(1)`, which is output and process termination. Its nil/non-nil decision is the same as the mock reporter's.
- The `*testing.T` side of the two `Assert*` helpers. Each is modelled as a verdict: true where the Go helper returns normally, false where it calls `t.Fatalf`.
- Go `fmt` verb semantics beyond the `%v` rendering of a `[]string` used for command records. The text of `Getwd` and `Chdir` causes is an opaque string.
- Go strings are byte sequences; here they are character sequences. For valid UTF-8, a substring or prefix test gives the same answer either way.
- MockExec.MockCommand: the log is a Go slice and the executor is returned by value (pkg/executor/mock_exec.go:19-31). Two copies of one executor can share the slice's backing array, and then an append through one copy overwrites a record the other copy appended. The model treats each executor as an immutable value with its own log. So "earlier records stay unchanged" (here and in `MockExec.KeywordSurvivesCalls`) is proved only for one executor used through one pointer.
- MockExec.MockError: `fmt.Errorf("Mock error")` (pkg/executor/mock_exec.go:86) makes a new error value on each call, so two failures compare unequal in Go. The model has one error value, compared by its message.
- Concurrent use of the process-wide working directory. The code assumes one scoped call at a time.
- The reporter's message arguments are strings rather than `interface{}` values. The reporter ignores them either way.
