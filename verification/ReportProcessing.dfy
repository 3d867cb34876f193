// A batch goes through the handler report by report (apps/trading_sim.cpp:79-94).
module ReportProcessing {
  import opened Types
  import opened ReportBatch
  import opened ReportHandler

  lemma HandlingOneMore(h: HandlerState, log: seq<ExecutionReport>, i: nat)
    requires i < |log|
    ensures HandleAll(h, log[..i + 1]) == Handle(HandleAll(h, log[..i]), log[i]).0
  {
    assert log[..i + 1] == log[..i] + [log[i]];
    HandlingComposes(h, log[..i], [log[i]]);
    assert [log[i]][1..] == [];
  }

  lemma HandlingNone(h: HandlerState, log: seq<ExecutionReport>)
    ensures HandleAll(h, log[..0]) == h
    ensures log[..|log|] == log
  {
  }

  method ProcessExecutionReports(batch: ExecutionReportBatch, handler: ExecutionReportHandler)
    requires handler.Valid() && batch.Valid()
    modifies handler, handler.positions, handler.orders.orders.Values
    ensures handler.Valid()
    ensures handler.View() == HandleAll(old(handler.View()), batch.Contents())
  {
    hide HandleAll, Handle, ExecutionReportHandler.View, ExecutionReportHandler.Valid,
         ExecutionReportBatch.Contents, ExecutionReportBatch.Valid;
    ghost var h, log := handler.View(), batch.Contents();
    HandlingNone(h, log);
    var size := batch.Size();
    for i := 0 to size
      invariant batch.Contents() == log
      invariant handler.Valid()
      invariant handler.View() == HandleAll(h, log[..i])
    {
      HandlingOneMore(h, log, i);
      var report := batch.At(i);
      var _ := handler.OnReport(report);
    }
  }
}
