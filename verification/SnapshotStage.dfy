/** The snapshot stage: counts, current state and focus, the retained records, and the decision
    when storage may shut down. */
module SnapshotStage {
  import opened Wrappers
  import opened Events
  import opened RecordBuilder
  import opened PipelineTypes

  datatype Counts = Counts(signalsSeen: nat, hintsSeen: nat, recordsEmitted: nat)

  /** What a publish puts on the bus, as far as this stage decides it. */
  datatype Published = Published(state: ActivityState, focus: Option<Focus>, lastTransition: Option<Transition>,
                                 counts: Counts, records: seq<Record>, now: Time)

  datatype Config = Config(runId: Option<string>, retention: nat)

  datatype Snap = Snap(counts: Counts, state: ActivityState, focus: Option<Focus>,
                       lastTransition: Option<Transition>, recent: seq<Record>,
                       bus: seq<Transition>, published: seq<Published>,
                       shutdownRequested: bool, hintsComplete: bool, storageShutdownSent: bool)

  function WithRunId(t: Transition, runId: Option<string>): Transition {
    if t.runId.None? then t.(runId := runId) else t
  }

  function Retitle(focus: Option<Focus>, title: Option<(nat, string)>): Option<Focus> {
    if title.Some? && focus.Some? && focus.value.windowId == title.value.0
    then Some(focus.value.(windowTitle := title.value.1))
    else focus
  }

  function ApplyUpdate(s: Snap, u: SnapshotUpdate, runId: Option<string>): (Snap, seq<Send>) {
    var counted := s.(
      counts := s.counts.(hintsSeen := Saturate(s.counts.hintsSeen + u.hintsDelta),
                          signalsSeen := Saturate(s.counts.signalsSeen + u.signalsDelta)),
      focus := Retitle(if u.focus.Some? then u.focus else s.focus, u.focusTitle),
      state := if u.state.Some? then u.state.value else s.state);
    if u.transition.None? then (counted, [])
    else
      var t := WithRunId(u.transition.value, runId);
      (counted.(bus := s.bus + [t], lastTransition := Some(t)), [ToStorage(TransitionCmd(t))])
  }

  function AddRecord(s: Snap, r: Record): Snap {
    s.(recent := s.recent + [r], counts := s.counts.(recordsEmitted := Saturate(s.counts.recordsEmitted + 1)))
  }

  /** When a record ended; an open one is still running. */
  function EndOf(r: Record, now: Time): Time {
    if r.endTime.Some? then r.endTime.value else now
  }

  /** Drops records from the front as long as they ended before the retention window. */
  function Prune(records: seq<Record>, since: Time, now: Time): seq<Record> {
    if records != [] && EndOf(records[0], now) < since then Prune(records[1..], since, now) else records
  }

  function PublishSnapshot(s: Snap, cfg: Config, now: Time): Snap {
    var recent := Prune(s.recent, now - cfg.retention, now);
    s.(recent := recent,
       published := s.published + [Published(s.state, s.focus, s.lastTransition, s.counts, recent, now)])
  }

  /** Publishes once more and shuts storage down, as soon as both ends are reported, once. */
  function MaybeFinalize(s: Snap, cfg: Config, requested: bool, complete: bool, now: Time): (Snap, seq<Send>) {
    if !requested || !complete || s.storageShutdownSent then (s, [])
    else (PublishSnapshot(s, cfg, now).(storageShutdownSent := true), [ToStorage(StorageShutdown)])
  }

  function HandleMessage(s: Snap, cfg: Config, msg: SnapshotMessage, now: Time): (Snap, seq<Send>) {
    match msg
    case Update(u) => ApplyUpdate(s, u, cfg.runId)
    case RecordDone(r) => (AddRecord(s, r), [])
    case Publish => (PublishSnapshot(s, cfg, now), [])
    case HintsComplete => MaybeFinalize(s.(hintsComplete := true), cfg, s.shutdownRequested, true, now)
    case SnapshotShutdown => MaybeFinalize(s.(shutdownRequested := true), cfg, true, s.hintsComplete, now)
  }

  /** All senders are gone. */
  function Disconnect(s: Snap, cfg: Config, now: Time): (Snap, seq<Send>) {
    MaybeFinalize(s, cfg, true, true, now)
  }

  /** The state before the first message: hydrated records and transitions, published once. */
  function NewSnap(cfg: Config, records: seq<Record>, transitions: seq<Transition>, now: Time): Snap {
    var bus := seq(|transitions|, i requires 0 <= i < |transitions| => WithRunId(transitions[i], cfg.runId));
    var last := if bus == [] then None else Some(bus[|bus| - 1]);
    PublishSnapshot(
      Snap(Counts(0, 0, 0), if last.Some? then last.value.to else Inactive, None, last, records, bus, [],
           false, false, false), cfg, now)
  }

  class SnapshotStage {
    const cfg: Config
    var counts: Counts
    var currentState: ActivityState
    var currentFocus: Option<Focus>
    var lastTransition: Option<Transition>
    var recentRecords: seq<Record>
    var bus: seq<Transition>
    var published: seq<Published>
    var shutdownRequested: bool
    var hintsComplete: bool
    var storageShutdownSent: bool
    var sent: seq<Send>

    function Value(): Snap
      reads this
    {
      Snap(counts, currentState, currentFocus, lastTransition, recentRecords, bus, published,
           shutdownRequested, hintsComplete, storageShutdownSent)
    }

    constructor (cfg: Config, initialRecords: seq<Record>, initialTransitions: seq<Transition>, now: Time)
      ensures this.cfg == cfg && sent == []
      ensures Value() == NewSnap(cfg, initialRecords, initialTransitions, now)
    {
      this.cfg := cfg;
      counts, currentState, currentFocus, lastTransition := Counts(0, 0, 0), Inactive, None, None;
      recentRecords, bus, published, sent := initialRecords, [], [], [];
      shutdownRequested, hintsComplete, storageShutdownSent := false, false, false;
      new;
      for i := 0 to |initialTransitions|
        invariant bus == seq(i, j requires 0 <= j < i => WithRunId(initialTransitions[j], cfg.runId))
        invariant lastTransition == if i == 0 then None else Some(bus[i - 1])
        invariant currentState == if i == 0 then Inactive else bus[i - 1].to
        invariant Value() == Snap(Counts(0, 0, 0), currentState, None, lastTransition, initialRecords, bus, [], false,
                                  false, false)
        invariant sent == []
      {
        var transition := WithRunId(initialTransitions[i], cfg.runId);
        currentState := transition.to;
        lastTransition := Some(transition);
        bus := bus + [transition];
      }
      PublishNow(now);
    }

    method ApplyUpdateInPlace(u: SnapshotUpdate)
      modifies this
      ensures Value() == ApplyUpdate(old(Value()), u, cfg.runId).0
      ensures sent == old(sent) + ApplyUpdate(old(Value()), u, cfg.runId).1
    {
      hide Saturate;
      counts := counts.(hintsSeen := Saturate(counts.hintsSeen + u.hintsDelta));
      counts := counts.(signalsSeen := Saturate(counts.signalsSeen + u.signalsDelta));
      if u.focus.Some? {
        currentFocus := u.focus;
      }
      if u.state.Some? {
        currentState := u.state.value;
      }
      if u.focusTitle.Some? && currentFocus.Some? && currentFocus.value.windowId == u.focusTitle.value.0 {
        currentFocus := Some(currentFocus.value.(windowTitle := u.focusTitle.value.1));
      }
      if u.transition.Some? {
        PushTransition(WithRunId(u.transition.value, cfg.runId));
      }
    }

    method PushTransition(transition: Transition)
      modifies this`bus, this`lastTransition, this`sent
      ensures bus == old(bus) + [transition] && lastTransition == Some(transition)
      ensures sent == old(sent) + [ToStorage(TransitionCmd(transition))]
    {
      bus := bus + [transition];
      lastTransition := Some(transition);
      sent := sent + [ToStorage(TransitionCmd(transition))];
    }

    method UpdateRecords(r: Record)
      modifies this`recentRecords, this`counts
      ensures Value() == AddRecord(old(Value()), r)
    {
      recentRecords := recentRecords + [r];
      counts := counts.(recordsEmitted := Saturate(counts.recordsEmitted + 1));
    }

    method PublishNow(now: Time)
      modifies this`recentRecords, this`published
      ensures Value() == PublishSnapshot(old(Value()), cfg, now)
    {
      var since := now - cfg.retention;
      while recentRecords != [] && EndOf(recentRecords[0], now) < since
        invariant Value() == old(Value()).(recent := recentRecords)
        invariant Prune(recentRecords, since, now) == Prune(old(recentRecords), since, now)
        decreases |recentRecords|
      {
        recentRecords := recentRecords[1..];
      }
      published := published + [Published(currentState, currentFocus, lastTransition, counts, recentRecords, now)];
    }

    method MaybeFinalizeNow(requested: bool, complete: bool, now: Time) returns (stop: bool)
      modifies this`recentRecords, this`published, this`storageShutdownSent, this`sent
      ensures Value() == MaybeFinalize(old(Value()), cfg, requested, complete, now).0
      ensures sent == old(sent) + MaybeFinalize(old(Value()), cfg, requested, complete, now).1
      ensures stop <==> requested && complete && !old(storageShutdownSent)
    {
      if !requested || !complete || storageShutdownSent {
        return false;
      }
      PublishNow(now);
      sent := sent + [ToStorage(StorageShutdown)];
      storageShutdownSent := true;
      return true;
    }

    method Receive(msg: SnapshotMessage, now: Time) returns (stop: bool)
      modifies this
      ensures Value() == HandleMessage(old(Value()), cfg, msg, now).0
      ensures sent == old(sent) + HandleMessage(old(Value()), cfg, msg, now).1
      ensures stop <==> storageShutdownSent && !old(storageShutdownSent)
    {
      stop := false;
      match msg {
        case Update(u) => ApplyUpdateInPlace(u);
        case RecordDone(r) => UpdateRecords(r);
        case Publish => PublishNow(now);
        case HintsComplete =>
          hintsComplete := true;
          stop := MaybeFinalizeNow(shutdownRequested, hintsComplete, now);
        case SnapshotShutdown =>
          shutdownRequested := true;
          stop := MaybeFinalizeNow(shutdownRequested, hintsComplete, now);
      }
    }

    /** All senders are gone: what is left to do is done as if both ends had been reported. */
    method Disconnected(now: Time)
      modifies this`recentRecords, this`published, this`storageShutdownSent, this`sent
      ensures Value() == Disconnect(old(Value()), cfg, now).0
      ensures sent == old(sent) + Disconnect(old(Value()), cfg, now).1
    {
      if !storageShutdownSent {
        var _ := MaybeFinalizeNow(true, true, now);
      }
    }
  }
}
