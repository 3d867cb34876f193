// The fixed-size buffer in which the exchange answers one request.
module ReportBatch {
  import opened Types

  const MAX_REPORTS := 16

  const BLANK_REPORT := ExecutionReport(0, 0, ExecType.Ack, PendingNew, NoReason, "", Buy, 0, 0, 0, 0, 0, 0)

  // What a batch holds after `log` was pushed into it: the rest is dropped.
  function Kept(log: seq<ExecutionReport>): (kept: seq<ExecutionReport>)
    ensures |log| <= MAX_REPORTS ==> kept == log
  {
    if |log| <= MAX_REPORTS then log else log[..MAX_REPORTS]
  }

  class ExecutionReportBatch {
    const reports: array<ExecutionReport>
    var count: nat

    ghost predicate Valid()
      reads this
    {
      reports.Length == MAX_REPORTS && count <= MAX_REPORTS
    }

    ghost function Contents(): seq<ExecutionReport>
      requires Valid()
      reads this, reports
    {
      reports[..count]
    }

    constructor ()
      ensures Valid() && Contents() == [] && fresh(reports)
    {
      reports := new ExecutionReport[MAX_REPORTS](_ => BLANK_REPORT);
      count := 0;
    }

    method Push(report: ExecutionReport) returns (pushed: bool)
      requires Valid()
      modifies this, reports
      ensures Valid()
      ensures pushed <==> |old(Contents())| < MAX_REPORTS
      ensures Contents() == Kept(old(Contents()) + [report])
    {
      if count == MAX_REPORTS {
        return false;
      }
      reports[count] := report;
      count := count + 1;
      return true;
    }

    // push() as the exchange uses it: its answer is ignored.
    method Add(report: ExecutionReport, ghost log: seq<ExecutionReport>)
      requires Valid() && Contents() == Kept(log)
      modifies this, reports
      ensures Valid() && Contents() == Kept(log + [report])
    {
      var _ := Push(report);
    }

    method Size() returns (n: nat)
      requires Valid()
      ensures n == |Contents()|
    {
      n := count;
    }

    method At(i: nat) returns (report: ExecutionReport)
      requires Valid() && i < |Contents()|
      ensures report == Contents()[i]
    {
      report := reports[i];
    }
  }
}
