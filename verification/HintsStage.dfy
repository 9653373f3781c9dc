/** The hints stage: stores every hint, cuts records, and reports each one twice, to storage
    and to the snapshot stage. */
module HintsStage {
  import opened Wrappers
  import opened Events
  import opened RecordBuilder
  import opened PipelineTypes

  /** The sends of a finished record, stamped with the run it belongs to. */
  function Report(records: seq<Record>, runId: Option<string>): seq<Send>
  {
    if records == [] then []
    else
      var record := records[|records| - 1].(runId := runId);
      Report(records[..|records| - 1], runId) + [ToStorage(RecordCmd(record)), ToSnapshot(RecordDone(record))]
  }

  /** One hint. */
  function HandleHint(b: Builder, h: TimedHint, runId: Option<string>): (Builder, seq<Send>) {
    var (b', records) := HintStep(b, h);
    (b', [ToStorage(EnvelopeCmd(h.env))] + Report(records, runId))
  }

  /** The channel is empty and disconnected: the open record is flushed. */
  function FinishHints(b: Builder, now: Time, runId: Option<string>): (Builder, seq<Send>) {
    (b.(record := None), Report(Closed(b, now), runId) + [ToSnapshot(HintsComplete)])
  }

  class HintsStage {
    const builder: RecordBuilder
    const runId: Option<string>
    var sent: seq<Send>

    constructor (runId: Option<string>, nextRecordId: nat)
      ensures builder.Value() == NewBuilder(Inactive, nextRecordId)
      ensures this.runId == runId && sent == [] && fresh(builder)
    {
      builder := new RecordBuilder.WithNextRecordId(Inactive, nextRecordId);
      this.runId, sent := runId, [];
    }

    method ReportRecord(completed: Option<Record>)
      modifies this
      ensures sent == old(sent) + Report(if completed.Some? then [completed.value] else [], runId)
    {
      if completed.Some? {
        var record := completed.value.(runId := runId);
        sent := sent + [ToStorage(RecordCmd(record))];
        sent := sent + [ToSnapshot(RecordDone(record))];
        assert [completed.value][..0] == [];
      }
    }

    method Receive(h: TimedHint)
      modifies this, builder
      ensures builder.Value() == HandleHint(old(builder.Value()), h, runId).0
      ensures sent == old(sent) + HandleHint(old(builder.Value()), h, runId).1
    {
      sent := sent + [ToStorage(EnvelopeCmd(h.env))];
      var completed := builder.OnHint(h.env, h.closeAt, h.openAt);
      ReportRecord(completed);
    }

    method Disconnected(now: Time)
      modifies this, builder
      ensures builder.Value() == FinishHints(old(builder.Value()), now, runId).0
      ensures sent == old(sent) + FinishHints(old(builder.Value()), now, runId).1
    {
      var completed := builder.FinalizeAll(now);
      ReportRecord(completed);
      sent := sent + [ToSnapshot(HintsComplete)];
    }
  }
}
