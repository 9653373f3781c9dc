/** Raw events become envelopes; focus changes are compared with the last focus seen. */
module EventAdapter {
  import opened Wrappers
  import opened Events
  import opened Mealy

  function HookEnvelope(id: nat, at: Time, kind: EventKind, payload: EventPayload): Envelope {
    Envelope(id, at, Hook, kind, payload, false, false, false)
  }

  /** The envelopes of a change of application or window. */
  function FocusChange(id: nat, at: Time, signal: SignalKind, f: Focus): seq<Envelope> {
    [HookEnvelope(id, at, Signal(signal), FocusData(f)), HookEnvelope(id, at, Hint(FocusChanged), FocusData(f))]
    + if IsLoginWindow(f.appName) then [] else [HookEnvelope(id, at, Signal(ActivityPulse), NoPayload)]
  }

  predicate SameApp(a: Focus, b: Focus) {
    a.pid == b.pid && a.processStartTime == b.processStartTime && a.appName == b.appName
  }

  /** One raw event: the new last focus and the envelopes emitted. */
  function AdaptStep(last: Option<Focus>, e: RawEvent): (Option<Focus>, seq<Envelope>) {
    match e
    case KeyboardInput(at, id, data) =>
      (last, [HookEnvelope(id, at, Signal(KeyboardSignal), InputData(data))])
    case MouseInput(at, id, data) =>
      (last, [HookEnvelope(id, at, Signal(MouseSignal), InputData(data))])
    case WindowFocusChange(at, id, f) =>
      (Some(f),
       if last.None? || !SameApp(last.value, f) then FocusChange(id, at, AppChanged, f)
       else if last.value.windowId != f.windowId then FocusChange(id, at, WindowChanged, f)
       else if last.value.windowTitle != f.windowTitle then
         [Envelope(id, at, Polling, Hint(TitleChanged), Title(f.windowId, f.windowTitle), false, true, false)]
       else [])
  }

  class EventAdapter {
    var lastFocus: Option<Focus>

    constructor ()
      ensures lastFocus == None
    {
      lastFocus := None;
    }

    method AdaptBatch(raw: seq<RawEvent>) returns (out: seq<Envelope>)
      modifies this
      ensures (lastFocus, out) == Run(AdaptStep, old(lastFocus), raw)
    {
      out := [];
      for i := 0 to |raw|
        invariant (lastFocus, out) == Run(AdaptStep, old(lastFocus), raw[..i])
      {
        RunPrefix(AdaptStep, old(lastFocus), raw, i);
        ghost var before, step := out, AdaptStep(lastFocus, raw[i]);
        match raw[i] {
          case KeyboardInput(at, id, data) =>
            out := out + [HookEnvelope(id, at, Signal(KeyboardSignal), InputData(data))];
          case MouseInput(at, id, data) =>
            out := out + [HookEnvelope(id, at, Signal(MouseSignal), InputData(data))];
          case WindowFocusChange(at, id, current) =>
            if lastFocus.Some? {
              var last := lastFocus.value;
              if !SameApp(last, current) {
                out := out + FocusChange(id, at, AppChanged, current);
              } else if last.windowId != current.windowId {
                out := out + FocusChange(id, at, WindowChanged, current);
              } else if last.windowTitle != current.windowTitle {
                out := out + [Envelope(id, at, Polling, Hint(TitleChanged),
                                       Title(current.windowId, current.windowTitle), false, true, false)];
              }
            } else {
              out := out + FocusChange(id, at, AppChanged, current);
            }
            lastFocus := Some(current);
        }
        assert lastFocus == step.0 && out == before + step.1;
      }
      assert raw[..|raw|] == raw;
    }
  }
}
