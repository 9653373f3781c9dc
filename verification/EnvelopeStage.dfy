/** The envelope stage: adapts a batch, derives locks and states, and tells the hints,
    compression, snapshot and storage stages. */
module EnvelopeStage {
  import opened Wrappers
  import opened Events
  import opened Mealy
  import opened EventAdapter
  import opened LockDeriver
  import opened StateEngine
  import opened RecordBuilder
  import opened PipelineTypes

  // ---------- The accumulating update ----------

  function WithFocus(u: SnapshotUpdate, env: Envelope): SnapshotUpdate {
    match env.payload
    case FocusData(f) => u.(focus := Some(f))
    case Title(windowId, title) => u.(focusTitle := Some((windowId, title)))
    case _ => u
  }

  function TransitionReason(env: Envelope, signal: Option<SignalKind>): Option<Reason> {
    if signal.Some? then Some(BySignal(signal.value))
    else if env.kind == Hint(StateChanged) && env.source == Derived then Some(IdleTimeout)
    else None
  }

  function WithState(u: SnapshotUpdate, env: Envelope, signal: Option<SignalKind>): SnapshotUpdate {
    match env.payload
    case State(from, to) =>
      u.(transition := Some(Transition(from, to, env.timestamp, TransitionReason(env, signal), None)),
         state := Some(to))
    case _ => u
  }

  /** A pending transition is sent at once; anything else waits for the end of the batch. */
  function FlushTransition(u: SnapshotUpdate): (SnapshotUpdate, seq<Send>) {
    if u.transition.Some? then (EMPTY_UPDATE, [ToSnapshot(Update(u))]) else (u, [])
  }

  /** The hint envelope the state deriver makes of a change. */
  function StateHint(id: nat, at: Time, change: Change): Envelope {
    Envelope(id, at, Derived, Hint(StateChanged), State(change.from, change.to), true, false, false)
  }

  function ForwardHint(u: SnapshotUpdate, env: Envelope, signal: Option<SignalKind>): (SnapshotUpdate, seq<Send>) {
    var (u', flushed) := FlushTransition(WithState(WithFocus(u.(hintsDelta := u.hintsDelta + 1), env), env, signal));
    (u', [ToHints(env)] + flushed)
  }

  function ForwardSignal(u: SnapshotUpdate, env: Envelope, kind: SignalKind): (SnapshotUpdate, seq<Send>) {
    var counted := u.(signalsDelta := u.signalsDelta + 1);
    var (u', flushed) := FlushTransition(WithState(WithFocus(counted, env), env, Some(kind)));
    (u', [ToStorage(EnvelopeCmd(env))] + flushed)
  }

  datatype Work = Work(engine: Engine, update: SnapshotUpdate)

  function EnvelopeStep(w: Work, env: Envelope): (Work, seq<Send>) {
    match env.kind
    case Hint(_) =>
      var (u, sends) := ForwardHint(w.update, env, None);
      (w.(update := u), sends)
    case Signal(kind) =>
      var (u, sends) := ForwardSignal(w.update, env, kind);
      var (engine, change) := SignalStep(w.engine, env.kind, env.timestamp);
      if change == [] then (Work(engine, u), sends)
      else
        var (u', more) := ForwardHint(u, StateHint(env.id, env.timestamp, change[0]), Some(kind));
        (Work(engine, u'), sends + more)
  }

  // ---------- The commands ----------

  /** Everything the stage remembers between commands. */
  datatype Local = Local(lastFocus: Option<Focus>, locked: bool, engine: Engine)

  function NewLocal(now: Time, activeGraceSecs: int, idleThresholdSecs: int): Local {
    Local(None, false, NewEngine(now, activeGraceSecs, idleThresholdSecs))
  }

  function FinishBatch(events: seq<RawEvent>, envs: seq<Envelope>, u: SnapshotUpdate): seq<Send> {
    [ToCompression(Process(events, envs))]
    + (if u == EMPTY_UPDATE then [] else [ToSnapshot(Update(u))])
    + [ToSnapshot(Publish)]
  }

  function HandleBatch(l: Local, events: seq<RawEvent>): (Local, seq<Send>) {
    if events == [] then (l, [])
    else
      var (lastFocus, adapted) := Run(AdaptStep, l.lastFocus, events);
      var (locked, envs) := Run(LockStep, l.locked, adapted);
      var (w, sends) := Run(EnvelopeStep, Work(l.engine, EMPTY_UPDATE), envs);
      (Local(lastFocus, locked, w.engine), sends + FinishBatch(events, envs, w.update))
  }

  function HandleTick(l: Local, now: Time): (Local, seq<Send>) {
    var (engine, change) := TickStep(l.engine, now);
    if change == [] then (l.(engine := engine), [])
    else
      (l.(engine := engine),
       ForwardHint(EMPTY_UPDATE, StateHint(UnixMillis(now), now, change[0]), None).1 + [ToSnapshot(Publish)])
  }

  const SHUTDOWN_SENDS: seq<Send> := [ToSnapshot(SnapshotShutdown), ToCompression(CompressionShutdown)]

  function Handle(l: Local, cmd: DeriveCommand): (Local, seq<Send>) {
    match cmd
    case Batch(events) => HandleBatch(l, events)
    case Tick(now) => HandleTick(l, now)
    case DeriveShutdown => (l, SHUTDOWN_SENDS)
  }

  /** The first `i` envelopes have been handled, from the work `w0` and the sends `before` on. */
  predicate HandledFirst(w0: Work, before: seq<Send>, envs: seq<Envelope>, i: nat, w: Work, sent: seq<Send>)
    requires i <= |envs|
  {
    w == Run(EnvelopeStep, w0, envs[..i]).0 && sent == before + Run(EnvelopeStep, w0, envs[..i]).1
  }

  lemma {:induction false} HandledMore(w0: Work, before: seq<Send>, envs: seq<Envelope>, i: nat, w: Work,
                                       sent: seq<Send>)
    requires i < |envs| && HandledFirst(w0, before, envs, i, w, sent)
    ensures HandledFirst(w0, before, envs, i + 1, EnvelopeStep(w, envs[i]).0, sent + EnvelopeStep(w, envs[i]).1)
  {
    hide EnvelopeStep;
    RunPrefix(EnvelopeStep, w0, envs, i);
  }

  /** The stage's receive loop, one command at a time; `sent` lists its sends in order.
      That no send of this stage ever fails is shown for the whole pipeline. */
  class EnvelopeStage {
    const adapter: EventAdapter
    const lockDeriver: LockDeriver
    const engine: DefaultStateEngine
    var update: SnapshotUpdate
    var sent: seq<Send>

    function Value(): Local
      reads adapter, lockDeriver, engine
    {
      Local(adapter.lastFocus, lockDeriver.locked, engine.Value())
    }

    constructor (now: Time, activeGraceSecs: int, idleThresholdSecs: int)
      ensures Value() == NewLocal(now, activeGraceSecs, idleThresholdSecs)
      ensures update == EMPTY_UPDATE && sent == []
      ensures fresh(adapter) && fresh(lockDeriver) && fresh(engine)
    {
      adapter := new EventAdapter();
      lockDeriver := new LockDeriver();
      engine := new DefaultStateEngine(now, activeGraceSecs, idleThresholdSecs);
      update, sent := EMPTY_UPDATE, [];
    }

    method FlushSnapshotUpdate()
      modifies this`update, this`sent
      ensures update == FlushTransition(old(update)).0 && sent == old(sent) + FlushTransition(old(update)).1
    {
      if update.transition.Some? {
        sent := sent + [ToSnapshot(Update(update))];
        update := EMPTY_UPDATE;
      }
    }

    method ForwardHintEnvelope(env: Envelope, signal: Option<SignalKind>)
      modifies this`update, this`sent
      ensures update == ForwardHint(old(update), env, signal).0
      ensures sent == old(sent) + ForwardHint(old(update), env, signal).1
    {
      update := update.(hintsDelta := update.hintsDelta + 1);
      update := WithFocus(update, env);
      update := WithState(update, env, signal);
      sent := sent + [ToHints(env)];
      FlushSnapshotUpdate();
    }

    method HandleEnvelope(env: Envelope)
      modifies this`update, this`sent, engine
      ensures var (w, sends) := EnvelopeStep(old(Work(engine.Value(), update)), env);
              Work(engine.Value(), update) == w && sent == old(sent) + sends
    {
      match env.kind {
        case Hint(_) =>
          ForwardHintEnvelope(env, None);
        case Signal(kind) =>
          update := update.(signalsDelta := update.signalsDelta + 1);
          update := WithFocus(update, env);
          update := WithState(update, env, Some(kind));
          sent := sent + [ToStorage(EnvelopeCmd(env))];
          FlushSnapshotUpdate();
          var change := engine.OnSignal(env.kind, env.timestamp);
          if change.Some? {
            ForwardHintEnvelope(StateHint(env.id, env.timestamp, change.value), Some(kind));
          }
      }
    }

    method HandleEnvelopes(envs: seq<Envelope>)
      modifies this`update, this`sent, engine
      ensures var (w, sends) := Run(EnvelopeStep, old(Work(engine.Value(), update)), envs);
              Work(engine.Value(), update) == w && sent == old(sent) + sends
    {
      ghost var w0 := Work(engine.Value(), update);
      for i := 0 to |envs|
        invariant HandledFirst(w0, old(sent), envs, i, Work(engine.Value(), update), sent)
      {
        ghost var w, before := Work(engine.Value(), update), sent;
        HandleEnvelope(envs[i]);
        HandledMore(w0, old(sent), envs, i, w, before);
      }
      assert envs[..|envs|] == envs;
    }

    method SendBatchEnd(events: seq<RawEvent>, envs: seq<Envelope>)
      modifies this`update, this`sent
      ensures update == EMPTY_UPDATE && sent == old(sent) + FinishBatch(events, envs, old(update))
    {
      sent := sent + [ToCompression(Process(events, envs))];
      if update != EMPTY_UPDATE {
        sent := sent + [ToSnapshot(Update(update))];
        update := EMPTY_UPDATE;
      }
      sent := sent + [ToSnapshot(Publish)];
    }

    /** The adapter and the lock deriver, one after the other. */
    method DeriveEnvelopes(events: seq<RawEvent>) returns (envs: seq<Envelope>)
      modifies adapter, lockDeriver
      ensures adapter.lastFocus == Run(AdaptStep, old(adapter.lastFocus), events).0
      ensures lockDeriver.locked
                == Run(LockStep, old(lockDeriver.locked), Run(AdaptStep, old(adapter.lastFocus), events).1).0
      ensures envs == Run(LockStep, old(lockDeriver.locked), Run(AdaptStep, old(adapter.lastFocus), events).1).1
    {
      var adapted := adapter.AdaptBatch(events);
      envs := lockDeriver.Derive(adapted);
    }

    method ProcessBatch(events: seq<RawEvent>)
      requires update == EMPTY_UPDATE
      modifies this`update, this`sent, adapter, lockDeriver, engine
      ensures Value() == HandleBatch(old(Value()), events).0 && sent == old(sent) + HandleBatch(old(Value()), events).1
      ensures update == EMPTY_UPDATE
    {
      hide EnvelopeStep, FinishBatch;
      if events == [] {
        return;
      }
      ghost var l := Value();
      var envs := DeriveEnvelopes(events);
      HandleEnvelopes(envs);
      ghost var (w, sends) := Run(EnvelopeStep, Work(l.engine, EMPTY_UPDATE), envs);
      assert engine.Value() == w.engine && update == w.update && sent == old(sent) + sends;
      SendBatchEnd(events, envs);
      assert sent == old(sent) + (sends + FinishBatch(events, envs, w.update));
    }

    method ProcessTick(now: Time)
      requires update == EMPTY_UPDATE
      modifies this`update, this`sent, engine
      ensures Value() == HandleTick(old(Value()), now).0 && sent == old(sent) + HandleTick(old(Value()), now).1
      ensures update == EMPTY_UPDATE
    {
      var change := engine.OnTick(now);
      if change.Some? {
        ForwardHintEnvelope(StateHint(UnixMillis(now), now, change.value), None);
        sent := sent + [ToSnapshot(Publish)];
      }
    }

    method SendShutdown()
      modifies this`sent
      ensures sent == old(sent) + SHUTDOWN_SENDS
    {
      sent := sent + [ToSnapshot(SnapshotShutdown)];
      sent := sent + [ToCompression(CompressionShutdown)];
    }

    /** One command; the shutdown is passed on to the snapshot and compression stages and ends the loop. */
    method Receive(cmd: DeriveCommand) returns (stop: bool)
      requires update == EMPTY_UPDATE
      modifies this`update, this`sent, adapter, lockDeriver, engine
      ensures Value() == Handle(old(Value()), cmd).0 && sent == old(sent) + Handle(old(Value()), cmd).1
      ensures update == EMPTY_UPDATE && stop == cmd.DeriveShutdown?
    {
      stop := false;
      match cmd {
        case Batch(events) => ProcessBatch(events);
        case Tick(now) => ProcessTick(now);
        case DeriveShutdown =>
          SendShutdown();
          stop := true;
      }
    }
  }
}
