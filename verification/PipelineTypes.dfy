/** The messages of the five channels. */
module PipelineTypes {
  import opened Wrappers
  import opened Events
  import opened RecordBuilder

  /** Why a transition happened: the signal's name, or the idle timeout. */
  datatype Reason = BySignal(signal: SignalKind) | IdleTimeout

  datatype Transition = Transition(from: ActivityState, to: ActivityState, at: Time, bySignal: Option<Reason>,
                                   runId: Option<string>)

  datatype SnapshotUpdate = SnapshotUpdate(hintsDelta: nat, signalsDelta: nat, focus: Option<Focus>,
                                           focusTitle: Option<(nat, string)>, transition: Option<Transition>,
                                           state: Option<ActivityState>)

  const EMPTY_UPDATE: SnapshotUpdate := SnapshotUpdate(0, 0, None, None, None, None)

  datatype DeriveCommand = Batch(events: seq<RawEvent>) | Tick(now: Time) | DeriveShutdown

  datatype CompressionCommand =
    | Process(batch: seq<RawEvent>, envelopes: seq<Envelope>)
    | CompressionShutdown

  datatype SnapshotMessage =
    | Update(update: SnapshotUpdate)
    | RecordDone(record: Record)
    | Publish
    | HintsComplete
    | SnapshotShutdown

  /** Compact events are opaque: the compression engine is not part of this model. */
  datatype StorageCommand =
    | RawEventCmd(raw: RawEvent)
    | RecordCmd(record: Record)
    | EnvelopeCmd(env: Envelope)
    | CompactEventsCmd(events: seq<nat>)
    | TransitionCmd(transition: Transition)
    | StorageShutdown

  /** One send: the channel and the message. */
  datatype Send =
    | ToDerive(derive: DeriveCommand)
    | ToHints(env: Envelope)
    | ToCompression(compression: CompressionCommand)
    | ToSnapshot(snapshot: SnapshotMessage)
    | ToStorage(storage: StorageCommand)
}
