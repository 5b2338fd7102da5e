/** `MockReporter`: a test double for the `Reporter` interface that only
    remembers whether its latest `ReportIfError` call saw a non-nil error. */
module MockReport {
  import opened Errors

  datatype MockReporter = MockReporter(reported: bool)

  /** A freshly declared reporter is Go's zero value. */
  function NewMockReporter(): (f: MockReporter)
    ensures !Reported(f)
  {
    MockReporter(false)
  }

  /** `Reported`: read the flag. It is true exactly in the one state that
      remembers a non-nil error; being a query, it leaves the state alone. */
  function Reported(f: MockReporter): (b: bool)
    ensures b <==> f == MockReporter(true)
  {
    f.reported
  }

  /** `ReportIfError`: clear the flag, then set it when `err` is non-nil.
      The message format and its arguments are ignored. */
  function ReportIfError(f: MockReporter, err: Error, format: string, a: seq<string>): (f': MockReporter)
    ensures Reported(f') <==> err != Nil
  {
    var cleared := f.(reported := false);
    if err != Nil then cleared.(reported := true) else cleared
  }

  /** The state after a call depends on the error alone: not on the prior
      flag, the format or its arguments. Repeating a call changes nothing. */
  lemma ReportDependsOnErrorOnly(f: MockReporter, g: MockReporter, err: Error,
                                 format: string, a: seq<string>, format': string, a': seq<string>)
    ensures ReportIfError(f, err, format, a) == ReportIfError(g, err, format', a')
    ensures ReportIfError(ReportIfError(f, err, format, a), err, format, a) == ReportIfError(f, err, format, a)
  {
  }

  /** One `ReportIfError` call: its error, format and arguments. */
  datatype Report = Report(err: Error, format: string, args: seq<string>)

  function ReportAll(f: MockReporter, calls: seq<Report>): MockReporter
    decreases |calls|
  {
    if |calls| == 0 then f
    else ReportAll(ReportIfError(f, calls[0].err, calls[0].format, calls[0].args), calls[1..])
  }

  /** The flag does not accumulate: after any non-empty sequence of calls it
      reflects the last call only, and no calls leave it as it was. */
  lemma {:induction false} LastReportWins(f: MockReporter, calls: seq<Report>)
    ensures |calls| == 0 ==> ReportAll(f, calls) == f
    ensures |calls| > 0 ==> (Reported(ReportAll(f, calls)) <==> calls[|calls| - 1].err != Nil)
    decreases |calls|
  {
    if |calls| > 0 {
      var next := ReportIfError(f, calls[0].err, calls[0].format, calls[0].args);
      LastReportWins(next, calls[1..]);
    }
  }

  /** A non-nil report followed by a nil one leaves the flag false. */
  lemma ResetAfterNil(f: MockReporter, cause: string)
    ensures Reported(ReportIfError(f, Fail(cause), "%s", []))
    ensures !Reported(ReportIfError(ReportIfError(f, Fail(cause), "%s", []), Nil, "%s", []))
  {
  }
}
