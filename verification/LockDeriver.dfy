/** Focus on the login window becomes a lock boundary; input is dropped while locked. */
module LockDeriver {
  import opened Events
  import opened Mealy

  function LockBoundary(e: Envelope, kind: SignalKind, reason: string): Envelope {
    Envelope(e.id, e.timestamp, Derived, Signal(kind), LockReason(reason), true, false, false)
  }

  predicate IsLoginFocus(e: Envelope) {
    e.payload.FocusData? && IsLoginWindow(e.payload.focus.appName)
  }

  function LockStep(locked: bool, e: Envelope): (bool, seq<Envelope>) {
    match e.kind
    case Signal(kind) =>
      (match kind
       case AppChanged | WindowChanged =>
         if IsLoginFocus(e) then
           (true, if locked then [] else [LockBoundary(e, LockStart, "loginwindow")])
         else
           (false, if locked then [LockBoundary(e, LockEnd, "unlock"), e] else [e])
       case LockStart => (true, [e])
       case LockEnd => (false, [e])
       case _ => (locked, if locked then [] else [e]))
    case Hint(hint) =>
      (locked, if locked && !hint.FocusChanged? then [] else [e])
  }

  class LockDeriver {
    var locked: bool

    constructor ()
      ensures !locked
    {
      locked := false;
    }

    method Derive(input: seq<Envelope>) returns (out: seq<Envelope>)
      modifies this
      ensures (locked, out) == Run(LockStep, old(locked), input)
    {
      out := [];
      for i := 0 to |input|
        invariant (locked, out) == Run(LockStep, old(locked), input[..i])
      {
        RunPrefix(LockStep, old(locked), input, i);
        ghost var before, step := out, LockStep(locked, input[i]);
        var e := input[i];
        var forwardOriginal := true;
        if e.kind.Signal? {
          match e.kind.signal {
            case AppChanged | WindowChanged =>
              if IsLoginFocus(e) {
                if !locked {
                  out := out + [LockBoundary(e, LockStart, "loginwindow")];
                }
                locked := true;
                forwardOriginal := false;
              } else if locked {
                out := out + [LockBoundary(e, LockEnd, "unlock")];
                locked := false;
              }
            case LockStart => locked := true;
            case LockEnd => locked := false;
            case _ =>
              if locked {
                forwardOriginal := false;
              }
          }
        } else if locked {
          forwardOriginal := e.kind.hint.FocusChanged?;
        }
        if forwardOriginal {
          out := out + [e];
        }
        assert locked == step.0 && out == before + step.1;
      }
      assert input[..|input|] == input;
    }
  }
}
