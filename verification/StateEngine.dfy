/** The activity state: computed from the time since the last signal, or Locked. */
module StateEngine {
  import opened Wrappers
  import opened Events
  import opened Mealy

  datatype Change = Change(from: ActivityState, to: ActivityState)

  datatype Engine = Engine(current: ActivityState, lastSignalTime: Time, activeGraceSecs: int,
                           idleThresholdSecs: int, locked: bool)

  function NewEngine(now: Time, activeGraceSecs: int, idleThresholdSecs: int): Engine {
    Engine(Inactive, now, activeGraceSecs, idleThresholdSecs, false)
  }

  function Compute(e: Engine, now: Time): ActivityState {
    if e.locked then Locked
    else
      var dt := NumSeconds(now - e.lastSignalTime);
      if dt <= e.activeGraceSecs then Active
      else if dt <= e.idleThresholdSecs then Passive
      else Inactive
  }

  function SignalStep(e: Engine, kind: EventKind, now: Time): (Engine, seq<Change>) {
    match kind
    case Signal(LockStart) =>
      if e.locked then (e, [])
      else (e.(locked := true, current := Locked), [Change(e.current, Locked)])
    case Signal(LockEnd) =>
      if !e.locked then (e, [])
      else
        var open := e.(locked := false);
        (open.(current := Compute(open, now)), [Change(e.current, Compute(open, now))])
    case Signal(_) =>
      if e.locked then (e, [])
      else MoveTo(e.(lastSignalTime := now), now)
    case Hint(_) => (e, [])
  }

  function TickStep(e: Engine, now: Time): (Engine, seq<Change>) {
    if e.locked then (e, []) else MoveTo(e, now)
  }

  function MoveTo(e: Engine, now: Time): (Engine, seq<Change>) {
    var to := Compute(e, now);
    (e.(current := to), if to != e.current then [Change(e.current, to)] else [])
  }

  /** The engine as the daemon holds it, updated in place. */
  class DefaultStateEngine {
    var current: ActivityState
    var lastSignalTime: Time
    const activeGraceSecs: int
    const idleThresholdSecs: int
    var locked: bool

    function Value(): Engine
      reads this
    {
      Engine(current, lastSignalTime, activeGraceSecs, idleThresholdSecs, locked)
    }

    constructor (now: Time, activeGraceSecs: int, idleThresholdSecs: int)
      ensures Value() == NewEngine(now, activeGraceSecs, idleThresholdSecs)
    {
      current, lastSignalTime, locked := Inactive, now, false;
      this.activeGraceSecs, this.idleThresholdSecs := activeGraceSecs, idleThresholdSecs;
    }

    method OnSignal(kind: EventKind, now: Time) returns (change: Option<Change>)
      modifies this
      ensures Value() == SignalStep(old(Value()), kind, now).0
      ensures AsSeq(change) == SignalStep(old(Value()), kind, now).1
    {
      change := None;
      if kind.Signal? {
        match kind.signal {
          case LockStart =>
            if locked {
              return;
            }
            var from := current;
            locked, current := true, Locked;
            change := Some(Change(from, current));
          case LockEnd =>
            if !locked {
              return;
            }
            locked := false;
            var from := current;
            current := Compute(Value(), now);
            change := Some(Change(from, current));
          case _ =>
            if locked {
              return;
            }
            lastSignalTime := now;
            var from, to := current, Compute(Value(), now);
            if to != from {
              current := to;
              change := Some(Change(from, to));
            }
        }
      }
    }

    method OnTick(now: Time) returns (change: Option<Change>)
      modifies this
      ensures Value() == TickStep(old(Value()), now).0
      ensures AsSeq(change) == TickStep(old(Value()), now).1
    {
      change := None;
      if locked {
        return;
      }
      var from, to := current, Compute(Value(), now);
      if to != from {
        current := to;
        change := Some(Change(from, to));
      }
    }
  }

  function AsSeq<T>(o: Option<T>): seq<T> {
    if o.Some? then [o.value] else []
  }

  // ---------- Runs of the engine ----------

  datatype EngineEvent = At(kind: EventKind, time: Time) | Tick(time: Time)

  function EngineStep(e: Engine, ev: EngineEvent): (Engine, seq<Change>) {
    match ev
    case At(kind, time) => SignalStep(e, kind, time)
    case Tick(time) => TickStep(e, time)
  }

  predicate LockAgrees(e: Engine) {
    e.locked <==> e.current == Locked
  }

  /** The state never lags: after every event it is the state computed for that event's time.
      The only events that leave it alone are an unlock of an unlocked engine and a hint. */
  lemma {:induction false} StateIsComputed(e: Engine, ev: EngineEvent)
    requires LockAgrees(e)
    ensures var e' := EngineStep(e, ev).0;
            && LockAgrees(e')
            && (e'.current == Compute(e', ev.time)
                || (ev.At? && (ev.kind.Hint? || (ev.kind == Signal(LockEnd) && !e.locked)) && e' == e))
  {
  }

  /** A transition reports a real move out of the state that was current. */
  lemma {:induction false} ChangesAreReal(e: Engine, ev: EngineEvent)
    requires LockAgrees(e)
    ensures var (e', out) := EngineStep(e, ev);
            && |out| <= 1
            && (out == [] <==> e'.current == e.current)
            && (out != [] ==> out[0] == Change(e.current, e'.current) && out[0].from != out[0].to)
  {
  }

  /** An event the engine acts on: a tick, or a signal other than the unlock of an unlocked engine. */
  predicate Heard(e: Engine, ev: EngineEvent) {
    ev.Tick? || (ev.kind.Signal? && (ev.kind.signal.LockEnd? ==> e.locked))
  }

  /** When the engine last acted on an event of a run. */
  function LastHeard(e: Engine, evs: seq<EngineEvent>): Option<Time> {
    if evs == [] then None
    else
      var init, last := evs[..|evs| - 1], evs[|evs| - 1];
      if Heard(Run(EngineStep, e, init).0, last) then Some(last.time) else LastHeard(e, init)
  }

  /** Over every run the state is the one computed for the last event heard; before that nothing
      has changed. */
  lemma {:induction false} StateNeverLags(e: Engine, evs: seq<EngineEvent>)
    requires LockAgrees(e)
    ensures var e' := Run(EngineStep, e, evs).0;
            && LockAgrees(e')
            && (LastHeard(e, evs).None? ==> e' == e)
            && (LastHeard(e, evs).Some? ==> e'.current == Compute(e', LastHeard(e, evs).value))
  {
    if evs != [] {
      var init, last := evs[..|evs| - 1], evs[|evs| - 1];
      StateNeverLags(e, init);
      StateIsComputed(Run(EngineStep, e, init).0, last);
    }
  }

  // ---------- The idle clock, read off the events alone ----------

  /** Whether the screen is locked after some events. */
  function LockedAfter(locked: bool, evs: seq<EngineEvent>): bool {
    if evs == [] then locked
    else
      var last := evs[|evs| - 1];
      if last.At? && last.kind == Signal(LockStart) then true
      else if last.At? && last.kind == Signal(LockEnd) then false
      else LockedAfter(locked, evs[..|evs| - 1])
  }

  /** A sign of somebody at the machine, as opposed to the screen being locked or unlocked. */
  predicate IsActivity(ev: EngineEvent) {
    ev.At? && ev.kind.Signal? && !ev.kind.signal.LockStart? && !ev.kind.signal.LockEnd?
  }

  /** When somebody last gave a sign while the screen was not locked; `since` if nobody has. */
  function LastActivity(since: Time, locked: bool, evs: seq<EngineEvent>): Time {
    if evs == [] then since
    else
      var init, last := evs[..|evs| - 1], evs[|evs| - 1];
      if IsActivity(last) && !LockedAfter(locked, init) then last.time else LastActivity(since, locked, init)
  }

  /** The idle clock restarts at every activity signal heard while unlocked, and at nothing else. */
  lemma {:induction false} ActivityRestartsTheClock(e: Engine, evs: seq<EngineEvent>)
    ensures var e' := Run(EngineStep, e, evs).0;
            && e'.locked == LockedAfter(e.locked, evs)
            && e'.lastSignalTime == LastActivity(e.lastSignalTime, e.locked, evs)
            && e'.activeGraceSecs == e.activeGraceSecs && e'.idleThresholdSecs == e.idleThresholdSecs
  {
    if evs != [] {
      ActivityRestartsTheClock(e, evs[..|evs| - 1]);
    }
  }

  /** The time of the last event but for hints and for unlocking what is not locked. */
  function LastMattering(locked: bool, evs: seq<EngineEvent>): Option<Time> {
    if evs == [] then None
    else
      var init, last := evs[..|evs| - 1], evs[|evs| - 1];
      if last.Tick? || IsActivity(last) || last.kind == Signal(LockStart)
         || (last.kind == Signal(LockEnd) && LockedAfter(locked, init)) then Some(last.time)
      else LastMattering(locked, init)
  }

  lemma {:induction false} MatteringIsHeard(e: Engine, evs: seq<EngineEvent>)
    ensures LastHeard(e, evs) == LastMattering(e.locked, evs)
  {
    if evs != [] {
      MatteringIsHeard(e, evs[..|evs| - 1]);
      ActivityRestartsTheClock(e, evs[..|evs| - 1]);
    }
  }

  /** So the state after a run is a function of three things read off the events: whether the screen is
      locked, when somebody last gave a sign, and when the engine last heard anything. */
  lemma {:induction false} StateFromEvents(start: Time, grace: int, idle: int, evs: seq<EngineEvent>)
    ensures var state := Run(EngineStep, NewEngine(start, grace, idle), evs).0.current;
            var heard, sign := LastMattering(false, evs), LastActivity(start, false, evs);
            && (heard.None? ==> state == Inactive)
            && (heard.Some? ==>
                  var age := NumSeconds(heard.value - sign);
                  && (state == Locked <==> LockedAfter(false, evs))
                  && (state == Active <==> !LockedAfter(false, evs) && age <= grace)
                  && (state == Passive <==> !LockedAfter(false, evs) && grace < age <= idle))
  {
    var e := NewEngine(start, grace, idle);
    StateNeverLags(e, evs);
    MatteringIsHeard(e, evs);
    ActivityRestartsTheClock(e, evs);
  }

  /** Somebody at the unlocked machine makes the engine Active, whatever it was before. */
  lemma {:induction false} ActivityMakesActive(e: Engine, evs: seq<EngineEvent>, ev: EngineEvent)
    requires LockAgrees(e) && e.activeGraceSecs >= 0
    requires IsActivity(ev) && !LockedAfter(e.locked, evs)
    ensures Run(EngineStep, e, evs + [ev]).0.current == Active
  {
    ActivityRestartsTheClock(e, evs);
    RunAppend(EngineStep, e, evs, ev);
  }

  /** Each change leaves the state the one before it reached, and really moves. */
  predicate Chains(from: ActivityState, changes: seq<Change>) {
    changes == []
    || (var init, last := changes[..|changes| - 1], changes[|changes| - 1];
        Chains(from, init) && last.from == EndState(from, init) && last.from != last.to)
  }

  /** The changes reported over a run chain, from the first state to the last. */
  lemma {:induction false} ReportsChain(e: Engine, evs: seq<EngineEvent>)
    requires LockAgrees(e)
    ensures var (e', out) := Run(EngineStep, e, evs);
            LockAgrees(e') && Chains(e.current, out) && EndState(e.current, out) == e'.current
  {
    if evs != [] {
      var init, last := evs[..|evs| - 1], evs[|evs| - 1];
      ReportsChain(e, init);
      var (mid, out) := Run(EngineStep, e, init);
      StateIsComputed(mid, last);
      ChangesAreReal(mid, last);
      var more := EngineStep(mid, last).1;
      assert out + more == out || (out + more)[..|out + more| - 1] == out;
    }
  }

  function SignalsOf(evs: seq<EngineEvent>): (out: seq<EngineEvent>)
    ensures forall i :: 0 <= i < |out| ==> out[i].At?
  {
    if evs == [] then []
    else SignalsOf(evs[..|evs| - 1]) + if evs[|evs| - 1].At? then [evs[|evs| - 1]] else []
  }

  /** Equal in everything but the current state. */
  predicate SameTimers(a: Engine, b: Engine) {
    a.(current := Active) == b.(current := Active)
  }

  lemma {:induction false} TimersStep(a: Engine, b: Engine, ev: EngineEvent)
    requires LockAgrees(a) && LockAgrees(b) && SameTimers(a, b)
    ensures var a', b' := EngineStep(a, ev).0, EngineStep(b, ev).0;
            && LockAgrees(a') && LockAgrees(b') && SameTimers(a', b')
            && (ev.Tick? ==> a' == b' && SameTimers(a', b))
  {
  }

  lemma {:induction false} TicksKeepTimers(e: Engine, evs: seq<EngineEvent>)
    requires LockAgrees(e)
    ensures var a, b := Run(EngineStep, e, evs).0, Run(EngineStep, e, SignalsOf(evs)).0;
            LockAgrees(a) && LockAgrees(b) && SameTimers(a, b)
  {
    if evs != [] {
      var init, last := evs[..|evs| - 1], evs[|evs| - 1];
      TicksKeepTimers(e, init);
      TimersStep(Run(EngineStep, e, init).0, Run(EngineStep, e, SignalsOf(init)).0, last);
      if last.At? {
        assert SignalsOf(evs)[..|SignalsOf(evs)| - 1] == SignalsOf(init);
      } else {
        assert SignalsOf(evs) == SignalsOf(init);
      }
    }
  }

  /** How often the engine was ticked, and when, does not matter: two histories with the same
      signals reach the same engine at the next tick. */
  lemma {:induction false} TickingDoesNotMatter(e: Engine, xs: seq<EngineEvent>, ys: seq<EngineEvent>, now: Time)
    requires LockAgrees(e)
    requires SignalsOf(xs) == SignalsOf(ys)
    ensures Run(EngineStep, e, xs + [Tick(now)]).0 == Run(EngineStep, e, ys + [Tick(now)]).0
  {
    TicksKeepTimers(e, xs);
    TicksKeepTimers(e, ys);
    TimersStep(Run(EngineStep, e, xs).0, Run(EngineStep, e, ys).0, Tick(now));
    assert (xs + [Tick(now)])[..|xs|] == xs;
    assert (ys + [Tick(now)])[..|ys|] == ys;
  }

  function Rank(s: ActivityState): nat {
    match s
    case Active => 2
    case Passive => 1
    case _ => 0
  }

  predicate TicksFrom(t: Time, evs: seq<EngineEvent>) {
    forall i :: 0 <= i < |evs| ==> evs[i].Tick? && t <= evs[i].time && (i > 0 ==> evs[i - 1].time <= evs[i].time)
  }

  /** The state a list of changes leads to. */
  function EndState(from: ActivityState, changes: seq<Change>): ActivityState {
    if changes == [] then from else changes[|changes| - 1].to
  }

  /** Each change starts in the state the one before it ended in, and moves down. */
  predicate Descends(from: ActivityState, changes: seq<Change>) {
    changes == []
    || (var init, last := changes[..|changes| - 1], changes[|changes| - 1];
        Descends(from, init) && last.from == EndState(from, init) && Rank(last.from) > Rank(last.to))
  }

  lemma {:induction false} ComputeFades(e: Engine, t: Time, t': Time)
    requires t <= t'
    ensures Rank(Compute(e, t')) <= Rank(Compute(e, t))
  {
  }

  /** `e'`, reached at time `t` after the changes `out`, has only faded since `e`. */
  predicate HasFaded(e: Engine, e': Engine, t: Time, out: seq<Change>) {
    && Descends(e.current, out)
    && |out| <= Rank(e.current) - Rank(e'.current)
    && e' == e.(current := EndState(e.current, out))
    && e'.current == Compute(e', t)
  }

  lemma {:induction false} FadeStep(e: Engine, mid: Engine, tMid: Time, out: seq<Change>, now: Time)
    requires !e.locked && HasFaded(e, mid, tMid, out) && tMid <= now
    ensures HasFaded(e, TickStep(mid, now).0, now, out + TickStep(mid, now).1)
  {
    ComputeFades(mid, tMid, now);
    var all := out + TickStep(mid, now).1;
    assert all == out || all[..|all| - 1] == out;
  }

  /** Between two signals the state only fades: any number of ticks of a clock that does not
      run backwards makes at most two transitions, each one downward. */
  lemma {:induction false} TicksOnlyFade(e: Engine, t: Time, evs: seq<EngineEvent>)
    requires !e.locked && e.current == Compute(e, t)
    requires TicksFrom(t, evs)
    ensures var (e', out) := Run(EngineStep, e, evs);
            HasFaded(e, e', if evs == [] then t else evs[|evs| - 1].time, out) && |out| <= 2
  {
    if evs != [] {
      var init, now := evs[..|evs| - 1], evs[|evs| - 1].time;
      TicksOnlyFade(e, t, init);
      var (mid, out) := Run(EngineStep, e, init);
      FadeStep(e, mid, if init == [] then t else init[|init| - 1].time, out, now);
    }
  }

  // ---------- Two moves that the documented state table has no row for ----------

  /** The seconds since the last signal. */
  function Age(e: Engine, now: Time): int {
    NumSeconds(now - e.lastSignalTime)
  }

  /** A tick moves up exactly if the engine is unlocked and in a lower state than the age of its last
      signal calls for. */
  lemma {:induction false} TickMovesUpIff(e: Engine, now: Time)
    requires LockAgrees(e)
    ensures Rank(TickStep(e, now).0.current) > Rank(e.current)
       <==> && !e.locked
            && ((Age(e, now) <= e.activeGraceSecs && e.current != Active)
                || (e.activeGraceSecs < Age(e, now) <= e.idleThresholdSecs && e.current == Inactive))
  {
  }

  /** Over the runs of the daemon's engine on a clock that does not run backwards: a tick moves up exactly
      if it is the first event the engine hears and comes within one of the thresholds of the start. */
  lemma {:induction false} OnlyTheFirstTickMovesUp(start: Time, grace: int, idle: int, evs: seq<EngineEvent>, now: Time)
    requires var heard := LastHeard(NewEngine(start, grace, idle), evs); heard.Some? ==> heard.value <= now
    ensures var first := NewEngine(start, grace, idle);
            var e := Run(EngineStep, first, evs).0;
            Rank(TickStep(e, now).0.current) > Rank(e.current)
            <==> LastHeard(first, evs).None? && (NumSeconds(now - start) <= grace || NumSeconds(now - start) <= idle)
  {
    var first := NewEngine(start, grace, idle);
    StateNeverLags(first, evs);
    var e, heard := Run(EngineStep, first, evs).0, LastHeard(first, evs);
    if heard.Some? {
      ComputeFades(e, heard.value, now);
    } else {
      TickMovesUpIff(e, now);
    }
  }

  /** It does happen: a daemon started with the default thresholds is Active after half a second,
      without any input. */
  lemma {:induction false} FreshEngineBecomesActive()
    ensures TickStep(NewEngine(0, 30, 300), NANOS_PER_SECOND / 2).1 == [Change(Inactive, Active)]
  {
  }

  /** A tick skips Passive exactly if an Active engine's last signal is older than both thresholds. */
  lemma {:induction false} TickSkipsPassiveIff(e: Engine, now: Time)
    requires LockAgrees(e)
    ensures TickStep(e, now).1 == [Change(Active, Inactive)]
       <==> e.current == Active && Age(e, now) > e.activeGraceSecs && Age(e, now) > e.idleThresholdSecs
  {
  }

  /** It does happen: with the default thresholds, a keystroke and then no tick for five minutes and a second. */
  lemma {:induction false} PassiveIsSkipped()
    ensures var e := SignalStep(NewEngine(0, 30, 300), Signal(KeyboardSignal), 0).0;
            TickStep(e, 301 * NANOS_PER_SECOND).1 == [Change(Active, Inactive)]
  {
  }
}
