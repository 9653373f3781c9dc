module Wrappers {
  datatype Option<+T> = None | Some(value: T)
}

/** The values that travel between the stages: raw events, envelopes, states and focus. */
module Events {
  import opened Wrappers

  /** A point in time, in nanoseconds. */
  type Time = int

  const NANOS_PER_SECOND: int := 1_000_000_000
  const NANOS_PER_MILLI: int := 1_000_000

  /** Whole seconds of a duration, truncated toward zero as chrono does. */
  function NumSeconds(d: int): (s: int)
  {
    if d >= 0 then d / NANOS_PER_SECOND else -((-d) / NANOS_PER_SECOND)
  }

  const U64: int := 0x1_0000_0000_0000_0000

  const U64_MAX: nat := U64 - 1

  /** What a 64-bit counter that saturates shows. */
  function Saturate(n: nat): nat {
    if n <= U64_MAX then n else U64_MAX
  }

  /** Milliseconds since the epoch, cast to an unsigned 64-bit number. */
  function UnixMillis(now: Time): nat {
    (now / NANOS_PER_MILLI) % U64
  }

  datatype ActivityState = Active | Passive | Inactive | Locked

  datatype Focus = Focus(pid: int, processStartTime: nat, appName: string, windowTitle: string,
                         windowId: nat, instanceStart: Time)

  function AsciiLower(c: char): char {
    if 'A' <= c <= 'Z' then c + 32 as char else c
  }

  predicate EqIgnoreAsciiCase(a: string, b: string) {
    |a| == |b| && forall i :: 0 <= i < |a| ==> AsciiLower(a[i]) == AsciiLower(b[i])
  }

  lemma {:induction false} SameName(a: string)
    ensures EqIgnoreAsciiCase(a, a)
  {
  }

  const LOGINWINDOW_APP: string := "loginwindow"

  predicate IsLoginWindow(app: string) {
    EqIgnoreAsciiCase(app, LOGINWINDOW_APP)
  }

  datatype RawEvent =
    | KeyboardInput(timestamp: Time, eventId: nat, data: nat)
    | MouseInput(timestamp: Time, eventId: nat, data: nat)
    | WindowFocusChange(timestamp: Time, eventId: nat, focusInfo: Focus)

  datatype EventSource = Hook | Derived | Polling

  datatype SignalKind =
    KeyboardSignal | MouseSignal | AppChanged | WindowChanged | ActivityPulse | LockStart | LockEnd

  datatype HintKind = FocusChanged | StateChanged | TitleChanged | PositionChanged | SizeChanged

  datatype EventKind = Signal(signal: SignalKind) | Hint(hint: HintKind)

  /** Keyboard and mouse details are carried as opaque data. */
  datatype EventPayload =
    | InputData(data: nat)
    | FocusData(focus: Focus)
    | LockReason(reason: string)
    | Title(windowId: nat, title: string)
    | State(from: ActivityState, to: ActivityState)
    | NoPayload

  datatype Envelope = Envelope(id: nat, timestamp: Time, source: EventSource, kind: EventKind,
                               payload: EventPayload, derived: bool, polling: bool, sensitive: bool)
}
