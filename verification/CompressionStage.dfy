/** The compression stage, as far as it decides what is stored of the raw events.  The compression engine hands
    them back unchanged; what it makes of them is opaque. */
module CompressionStage {
  import opened Events
  import opened PipelineTypes
  import opened Seqs

  predicate IsInput(env: Envelope) {
    env.kind == Signal(KeyboardSignal) || env.kind == Signal(MouseSignal)
  }

  /** After these envelopes of one batch, the last lock boundary was a lock. */
  predicate LockSeen(envs: seq<Envelope>) {
    envs != []
    && var last := envs[|envs| - 1];
    if last.kind == Signal(LockStart) then true
    else if last.kind == Signal(LockEnd) then false
    else LockSeen(envs[..|envs| - 1])
  }

  /** The identifiers of input signals behind a lock of the same batch. */
  function Suppressed(envs: seq<Envelope>): set<nat> {
    if envs == [] then {}
    else
      var init, last := envs[..|envs| - 1], envs[|envs| - 1];
      Suppressed(init) + if IsInput(last) && LockSeen(init) then {last.id} else {}
  }

  predicate Stores(suppressed: set<nat>, e: RawEvent) {
    e.WindowFocusChange? || e.eventId !in suppressed
  }

  function Stored(suppressed: set<nat>, events: seq<RawEvent>): seq<RawEvent> {
    if events == [] then []
    else
      var last := events[|events| - 1];
      Stored(suppressed, events[..|events| - 1]) + if Stores(suppressed, last) then [last] else []
  }

  function RawSends(events: seq<RawEvent>): seq<Send> {
    seq(|events|, i requires 0 <= i < |events| => ToStorage(RawEventCmd(events[i])))
  }

  function CompactSends(compact: seq<nat>): seq<Send> {
    if compact == [] then [] else [ToStorage(CompactEventsCmd(compact))]
  }

  /** The raw events forwarded of one job. */
  function Persisted(persistRaw: bool, events: seq<RawEvent>, envs: seq<Envelope>): seq<RawEvent> {
    if persistRaw then Stored(Suppressed(envs), events) else []
  }

  /** One job, with what the engine makes of it. */
  function HandleJob(persistRaw: bool, events: seq<RawEvent>, envs: seq<Envelope>, compact: seq<nat>): seq<Send> {
    if events == [] then [] else RawSends(Persisted(persistRaw, events, envs)) + CompactSends(compact)
  }

  class CompressionStage {
    const persistRaw: bool
    var sent: seq<Send>

    constructor (persistRaw: bool)
      ensures this.persistRaw == persistRaw && sent == []
    {
      this.persistRaw, sent := persistRaw, [];
    }

    static method FindSuppressed(envs: seq<Envelope>) returns (suppress: set<nat>)
      ensures suppress == Suppressed(envs)
    {
      suppress := {};
      var locked := false;
      for i := 0 to |envs|
        invariant suppress == Suppressed(envs[..i]) && locked == LockSeen(envs[..i])
      {
        assert envs[..i + 1][..i] == envs[..i];
        if envs[i].kind.Signal? {
          match envs[i].kind.signal {
            case LockStart => locked := true;
            case LockEnd => locked := false;
            case KeyboardSignal | MouseSignal =>
              if locked {
                suppress := suppress + {envs[i].id};
              }
            case _ =>
          }
        }
      }
      assert envs[..|envs|] == envs;
    }

    method ForwardRawEvents(envs: seq<Envelope>, events: seq<RawEvent>)
      modifies this`sent
      ensures sent == old(sent) + RawSends(Stored(Suppressed(envs), events))
    {
      if events == [] {
        return;
      }
      var suppress := FindSuppressed(envs);
      for i := 0 to |events|
        invariant sent == old(sent) + RawSends(Stored(suppress, events[..i]))
      {
        assert events[..i + 1][..i] == events[..i];
        var shouldStore := events[i].WindowFocusChange? || events[i].eventId !in suppress;
        if shouldStore {
          sent := sent + [ToStorage(RawEventCmd(events[i]))];
        }
      }
      assert events[..|events|] == events;
    }

    method Process(events: seq<RawEvent>, envs: seq<Envelope>, compact: seq<nat>)
      modifies this`sent
      ensures sent == old(sent) + HandleJob(persistRaw, events, envs, compact)
    {
      if events == [] {
        return;
      }
      if persistRaw {
        ForwardRawEvents(envs, events);
      }
      if compact != [] {
        sent := sent + [ToStorage(CompactEventsCmd(compact))];
      }
    }
  }
}
