/** What adapter, lock deriver, state engine and envelope loop guarantee together, over every
    sequence of raw events and ticks. */
module EventChain {
  import opened Wrappers
  import opened Events
  import opened Mealy
  import opened Seqs
  import opened EventAdapter
  import opened LockDeriver
  import opened StateEngine
  import opened RecordBuilder
  import opened PipelineTypes
  import opened EnvelopeStage

  // ---------- Accounting: what the sends of the stage say ----------

  function HintOf(s: Send): seq<Envelope> {
    match s case ToHints(env) => [env] case _ => []
  }

  function StoredOf(s: Send): seq<Envelope> {
    match s case ToStorage(EnvelopeCmd(env)) => [env] case _ => []
  }

  function HintsDeltaOf(s: Send): nat {
    match s case ToSnapshot(Update(u)) => u.hintsDelta case _ => 0
  }

  function SignalsDeltaOf(s: Send): nat {
    match s case ToSnapshot(Update(u)) => u.signalsDelta case _ => 0
  }

  /** A state move and its time, as a hint reports it and as a snapshot update reports it. */
  datatype Move = Move(from: ActivityState, to: ActivityState, at: Time)

  function MoveOfEnvelope(env: Envelope): seq<Move> {
    match env.payload case State(from, to) => [Move(from, to, env.timestamp)] case _ => []
  }

  function MoveOfUpdate(u: SnapshotUpdate): seq<Move> {
    if u.transition.Some? then [Move(u.transition.value.from, u.transition.value.to, u.transition.value.at)] else []
  }

  function HintMoveOf(s: Send): seq<Move> {
    match s case ToHints(env) => MoveOfEnvelope(env) case _ => []
  }

  function UpdateMoveOf(s: Send): seq<Move> {
    match s case ToSnapshot(Update(u)) => MoveOfUpdate(u) case _ => []
  }

  /** Sends so far and the update still pending together account for every envelope handled:
      counts of hints and signals, and every state move once, in order. */
  predicate Accounts(u: SnapshotUpdate, sends: seq<Send>) {
    && Sum(HintsDeltaOf, sends) + u.hintsDelta == |FlatMap(HintOf, sends)|
    && Sum(SignalsDeltaOf, sends) + u.signalsDelta == |FlatMap(StoredOf, sends)|
    && FlatMap(UpdateMoveOf, sends) == FlatMap(HintMoveOf, sends)
    && u.transition.None?
  }

  lemma {:induction false} SendAppend(sends: seq<Send>, s: Send)
    ensures Sum(HintsDeltaOf, sends + [s]) == Sum(HintsDeltaOf, sends) + HintsDeltaOf(s)
    ensures Sum(SignalsDeltaOf, sends + [s]) == Sum(SignalsDeltaOf, sends) + SignalsDeltaOf(s)
    ensures FlatMap(HintOf, sends + [s]) == FlatMap(HintOf, sends) + HintOf(s)
    ensures FlatMap(StoredOf, sends + [s]) == FlatMap(StoredOf, sends) + StoredOf(s)
    ensures FlatMap(UpdateMoveOf, sends + [s]) == FlatMap(UpdateMoveOf, sends) + UpdateMoveOf(s)
    ensures FlatMap(HintMoveOf, sends + [s]) == FlatMap(HintMoveOf, sends) + HintMoveOf(s)
  {
    assert (sends + [s])[..|sends|] == sends;
  }

  lemma {:induction false} HintAccounts(u: SnapshotUpdate, env: Envelope, signal: Option<SignalKind>, sends: seq<Send>)
    requires Accounts(u, sends)
    ensures var (u', more) := ForwardHint(u, env, signal);
            Accounts(u', sends + more)
  {
    hide FlatMap;
    var (u', more) := ForwardHint(u, env, signal);
    SendAppend(sends, more[0]);
    if |more| == 2 {
      SendAppend(sends + [more[0]], more[1]);
      assert sends + more == sends + [more[0]] + [more[1]];
    } else {
      assert sends + more == sends + [more[0]];
    }
  }

  lemma {:induction false} SignalAccounts(u: SnapshotUpdate, env: Envelope, kind: SignalKind, sends: seq<Send>)
    requires Accounts(u, sends) && !env.payload.State?
    ensures var (u', more) := ForwardSignal(u, env, kind);
            Accounts(u', sends + more)
  {
    var (u', more) := ForwardSignal(u, env, kind);
    SendAppend(sends, more[0]);
    assert sends + more == sends + [more[0]];
  }

  lemma {:induction false} EnvelopeAccounts(w: Work, env: Envelope, sends: seq<Send>)
    requires Accounts(w.update, sends) && (env.kind.Signal? ==> !env.payload.State?)
    ensures var (w', more) := EnvelopeStep(w, env);
            Accounts(w'.update, sends + more)
  {
    match env.kind
    case Hint(_) =>
      HintAccounts(w.update, env, None, sends);
    case Signal(kind) =>
      SignalAccounts(w.update, env, kind, sends);
      var (u, first) := ForwardSignal(w.update, env, kind);
      var change := SignalStep(w.engine, env.kind, env.timestamp).1;
      if change != [] {
        var hint := StateHint(env.id, env.timestamp, change[0]);
        HintAccounts(u, hint, Some(kind), sends + first);
        assert sends + (first + ForwardHint(u, hint, Some(kind)).1)
            == sends + first + ForwardHint(u, hint, Some(kind)).1;
      }
  }

  // ---------- The hint stream ----------

  /** A hint that splits the record before it; a state hint leaves the current state, and a
      focus hint arrives locked exactly when it focuses the login window. */
  predicate GoodHint(c: Cut, env: Envelope) {
    && Splits(c, env)
    && (env.kind == Hint(StateChanged) ==> env.payload.from == c.state)
    && (env.kind == Hint(FocusChanged) ==> (c.state == Locked <==> IsLoginFocus(env)))
  }

  predicate GoodHints(c: Cut, hints: seq<Envelope>) {
    Accepts(NextCut, GoodHint, c, hints)
  }

  lemma {:induction false} GoodHintsSplit(c: Cut, hints: seq<Envelope>)
    requires GoodHints(c, hints)
    ensures AllSplit(c, hints)
  {
    if hints != [] {
      GoodHintsSplit(c, hints[..|hints| - 1]);
    }
  }

  /** An envelope the stage can meet when the engine and the focus are at `c`. */
  predicate Expected(c: Cut, env: Envelope) {
    match env.kind
    case Signal(_) => !env.payload.State?
    case Hint(FocusChanged) => env.payload.FocusData? && (c.state == Locked <==> IsLoginFocus(env))
    case Hint(TitleChanged) => env.payload.Title? && c.window == Some(env.payload.windowId)
    case Hint(_) => false
  }

  /** The cut after one envelope: the engine's state, and the window of the last focus hint. */
  function CutStep(w: Work, c: Cut, env: Envelope): Cut {
    NextCut(c, env).(state := EnvelopeStep(w, env).0.engine.current)
  }

  lemma {:induction false} EnvelopeHints(w: Work, c: Cut, env: Envelope)
    requires LockAgrees(w.engine) && c.state == w.engine.current && Expected(c, env) && w.update.transition.None?
    ensures var (w', sends) := EnvelopeStep(w, env);
            var hints := FlatMap(HintOf, sends);
            && GoodHints(c, hints) && CutAfter(c, hints) == CutStep(w, c, env)
            && LockAgrees(w'.engine) && w'.update.transition.None?
  {
    var (w', sends) := EnvelopeStep(w, env);
    match env.kind
    case Hint(_) =>
      assert sends == [ToHints(env)];
      FlatMapOne(HintOf, sends[0]);
      AcceptsOne(NextCut, GoodHint, c, env);
    case Signal(kind) =>
      ChangesAreReal(w.engine, At(env.kind, env.timestamp));
      StateIsComputed(w.engine, At(env.kind, env.timestamp));
      var change := SignalStep(w.engine, env.kind, env.timestamp).1;
      var stored := ToStorage(EnvelopeCmd(env));
      if change == [] {
        assert sends == [stored];
        FlatMapOne(HintOf, stored);
      } else {
        var hint := StateHint(env.id, env.timestamp, change[0]);
        var u := ForwardSignal(w.update, env, kind).0;
        var more := ForwardHint(u, hint, Some(kind)).1;
        assert sends == [stored] + [ToHints(hint)] + [more[1]];
        FlatMapOne(HintOf, stored);
        FlatMapAppend(HintOf, [stored], ToHints(hint));
        FlatMapAppend(HintOf, [stored] + [ToHints(hint)], more[1]);
        AcceptsOne(NextCut, GoodHint, c, hint);
      }
  }

  // ---------- One raw event through adapter, lock deriver and loop ----------

  datatype Stage = Stage(local: Local, update: SnapshotUpdate)

  function RawStep(st: Stage, e: RawEvent): (Stage, seq<Send>) {
    var (lastFocus, adapted) := AdaptStep(st.local.lastFocus, e);
    var (locked, envs) := Run(LockStep, st.local.locked, adapted);
    var (w, sends) := Run(EnvelopeStep, Work(st.local.engine, st.update), envs);
    (Stage(Local(lastFocus, locked, w.engine), w.update), sends)
  }

  /** Where the batches are cut does not matter to what adapter and lock deriver emit. */
  lemma {:induction false} BatchBoundariesDoNotMatter(last: Option<Focus>, locked: bool, xs: seq<RawEvent>,
                                                      ys: seq<RawEvent>)
    ensures var (lastX, adaptedX) := Run(AdaptStep, last, xs);
            var (lockedX, envsX) := Run(LockStep, locked, adaptedX);
            var (lastXY, adaptedY) := Run(AdaptStep, lastX, ys);
            var (lockedXY, envsY) := Run(LockStep, lockedX, adaptedY);
            var (last', adapted) := Run(AdaptStep, last, xs + ys);
            Run(LockStep, locked, adapted) == (lockedXY, envsX + envsY) && last' == lastXY
  {
    RunConcat(AdaptStep, last, xs, ys);
    var (lastX, adaptedX) := Run(AdaptStep, last, xs);
    RunConcat(LockStep, locked, adaptedX, Run(AdaptStep, lastX, ys).1);
  }

  /** A whole batch is its raw events one by one. */
  lemma {:induction false} BatchByEvent(l: Local, u: SnapshotUpdate, events: seq<RawEvent>)
    ensures var (last, adapted) := Run(AdaptStep, l.lastFocus, events);
            var (locked, envs) := Run(LockStep, l.locked, adapted);
            var (w, sends) := Run(EnvelopeStep, Work(l.engine, u), envs);
            Run(RawStep, Stage(l, u), events) == (Stage(Local(last, locked, w.engine), w.update), sends)
  {
    if events != [] {
      var init, e := events[..|events| - 1], events[|events| - 1];
      BatchByEvent(l, u, init);
      var (last, adapted) := Run(AdaptStep, l.lastFocus, init);
      var more := AdaptStep(last, e).1;
      RunConcat(LockStep, l.locked, adapted, more);
      var (locked, envs) := Run(LockStep, l.locked, adapted);
      RunConcat(EnvelopeStep, Work(l.engine, u), envs, Run(LockStep, locked, more).1);
    }
  }

  /** The login window is focused, the deriver is locked, the engine is locked and the state is
      Locked: four ways of saying the same thing. */
  predicate Agree(l: Local) {
    && LockAgrees(l.engine)
    && l.locked == l.engine.locked
    && (l.locked <==> l.lastFocus.Some? && IsLoginWindow(l.lastFocus.value.appName))
  }

  function CutOfLocal(l: Local): Cut {
    Cut(l.engine.current, if l.lastFocus.Some? then Some(l.lastFocus.value.windowId) else None)
  }

  /** The envelopes one raw event contributes, spelled out. */
  function EnvelopesOf(last: Option<Focus>, locked: bool, e: RawEvent): seq<Envelope> {
    var adapted := AdaptStep(last, e).1;
    if adapted == [] then []
    else if |adapted| == 1 then if locked then [] else adapted
    else if IsLoginFocus(adapted[0]) then
      (if locked then [] else [LockBoundary(adapted[0], LockStart, "loginwindow")]) + [adapted[1]]
    else
      (if locked then [LockBoundary(adapted[0], LockEnd, "unlock")] else []) + adapted
  }

  lemma {:induction false} RunTwo<S, I, O>(step: (S, I) -> (S, seq<O>), s: S, x: I, y: I)
    ensures var (s1, o1) := step(s, x); var (s2, o2) := step(s1, y);
            Run(step, s, [x, y]) == (s2, o1 + o2)
  {
    RunCons(step, s, x, [y]);
    RunCons(step, step(s, x).0, y, []);
    assert [x] + [y] == [x, y];
  }

  lemma {:induction false} RunNone<S, I, O>(step: (S, I) -> (S, seq<O>), s: S)
    ensures Run(step, s, []) == (s, [])
  {
  }

  lemma {:induction false} LockOfEvent(last: Option<Focus>, locked: bool, e: RawEvent)
    requires locked <==> last.Some? && IsLoginWindow(last.value.appName)
    ensures var (last', adapted) := AdaptStep(last, e);
            && Run(LockStep, locked, adapted).0 == (last'.Some? && IsLoginWindow(last'.value.appName))
            && Run(LockStep, locked, adapted).1 == EnvelopesOf(last, locked, e)
  {
    hide Run;
    var adapted := AdaptStep(last, e).1;
    if adapted == [] {
      RunNone(LockStep, locked);
    } else if |adapted| == 1 {
      RunCons(LockStep, locked, adapted[0], []);
      assert [adapted[0]] == adapted;
      assert LockStep(locked, adapted[0]).1 + [] == LockStep(locked, adapted[0]).1;
    } else if |adapted| == 2 {
      RunTwo(LockStep, locked, adapted[0], adapted[1]);
      assert adapted == [adapted[0], adapted[1]];
    } else {
      LockOfThree(locked, adapted);
    }
  }

  /** A change to another app than the login window. */
  lemma {:induction false} LockOfThree(locked: bool, adapted: seq<Envelope>)
    requires |adapted| == 3 && !IsLoginFocus(adapted[0])
    requires adapted[0].kind.Signal? && (adapted[0].kind.signal.AppChanged? || adapted[0].kind.signal.WindowChanged?)
    requires adapted[1].kind == Hint(FocusChanged) && adapted[2].kind == Signal(ActivityPulse)
    ensures !Run(LockStep, locked, adapted).0
    ensures Run(LockStep, locked, adapted).1
              == (if locked then [LockBoundary(adapted[0], LockEnd, "unlock")] else []) + adapted
  {
    var unlock := if locked then [LockBoundary(adapted[0], LockEnd, "unlock")] else [];
    RunTwo(LockStep, locked, adapted[0], adapted[1]);
    RunAppend(LockStep, locked, [adapted[0], adapted[1]], adapted[2]);
    assert adapted == [adapted[0], adapted[1]] + [adapted[2]];
    assert LockStep(locked, adapted[0]).1 == unlock + [adapted[0]];
    assert unlock + [adapted[0]] + [adapted[1]] + [adapted[2]] == unlock + adapted;
  }

  /** Work of the loop together with the cut its hints have led to. */
  datatype Watch = Watch(work: Work, cut: Cut)

  function WatchNext(v: Watch, env: Envelope): Watch {
    Watch(EnvelopeStep(v.work, env).0, CutStep(v.work, v.cut, env))
  }

  predicate WatchOk(v: Watch, env: Envelope) {
    Expected(v.cut, env)
  }

  predicate InStep(v: Watch) {
    LockAgrees(v.work.engine) && v.cut.state == v.work.engine.current && v.work.update.transition.None?
  }

  lemma {:induction false} WatchedHints(v: Watch, envs: seq<Envelope>)
    requires InStep(v) && Accepts(WatchNext, WatchOk, v, envs)
    ensures var v' := Fold(WatchNext, v, envs);
            var (w', sends) := Run(EnvelopeStep, v.work, envs);
            var hints := FlatMap(HintOf, sends);
            && InStep(v') && w' == v'.work
            && GoodHints(v.cut, hints) && CutAfter(v.cut, hints) == v'.cut
  {
    if envs != [] {
      var init, env := envs[..|envs| - 1], envs[|envs| - 1];
      WatchedHints(v, init);
      var mid, sends := Fold(WatchNext, v, init), Run(EnvelopeStep, v.work, init).1;
      EnvelopeHints(mid.work, mid.cut, env);
      var more := EnvelopeStep(mid.work, env).1;
      FlatMapConcat(HintOf, sends, more);
      AcceptsConcat(NextCut, GoodHint, v.cut, FlatMap(HintOf, sends), FlatMap(HintOf, more));
    }
  }

  lemma {:induction false} StepAccounts(w: Work, env: Envelope, before: seq<Send>, sends: seq<Send>)
    requires Accounts(w.update, before + sends) && (env.kind.Signal? ==> !env.payload.State?)
    ensures var (w', more) := EnvelopeStep(w, env);
            Accounts(w'.update, before + (sends + more))
  {
    EnvelopeAccounts(w, env, before + sends);
    assert before + (sends + EnvelopeStep(w, env).1) == before + sends + EnvelopeStep(w, env).1;
  }

  lemma {:induction false} RunAccounts(w: Work, envs: seq<Envelope>, before: seq<Send>)
    requires Accounts(w.update, before)
    requires forall i :: 0 <= i < |envs| && envs[i].kind.Signal? ==> !envs[i].payload.State?
    ensures var (w', sends) := Run(EnvelopeStep, w, envs);
            Accounts(w'.update, before + sends)
  {
    if envs == [] {
      assert before + [] == before;
    } else {
      var init := envs[..|envs| - 1];
      assert forall i :: 0 <= i < |init| ==> init[i] == envs[i];
      RunAccounts(w, init, before);
      var (mid, sends) := Run(EnvelopeStep, w, init);
      var env := envs[|envs| - 1];
      StepAccounts(mid, env, before, sends);
    }
  }

  /** The engine and the cut after two envelopes in a row. */
  lemma {:induction false} WatchTwo(v: Watch, x: Envelope, ys: seq<Envelope>)
    ensures Accepts(WatchNext, WatchOk, v, [x] + ys) <==>
              Expected(v.cut, x) && Accepts(WatchNext, WatchOk, WatchNext(v, x), ys)
    ensures Fold(WatchNext, v, [x] + ys) == Fold(WatchNext, WatchNext(v, x), ys)
  {
    AcceptsConcat(WatchNext, WatchOk, v, [x], ys);
    AcceptsOne(WatchNext, WatchOk, v, x);
  }

  lemma {:induction false} SignalMoves(v: Watch, env: Envelope)
    requires InStep(v) && env.kind.Signal? && !env.payload.State?
    ensures var v' := WatchNext(v, env);
            && InStep(v') && v'.cut.window == v.cut.window
            && v'.work.engine == SignalStep(v.work.engine, env.kind, env.timestamp).0
  {
    EnvelopeHints(v.work, v.cut, env);
  }

  lemma {:induction false} FocusMoves(v: Watch, env: Envelope)
    requires InStep(v) && env.kind == Hint(FocusChanged) && env.payload.FocusData? && Expected(v.cut, env)
    ensures var v' := WatchNext(v, env);
            && InStep(v') && v'.cut.window == Some(env.payload.focus.windowId)
            && v'.work.engine == v.work.engine
  {
    EnvelopeHints(v.work, v.cut, env);
  }

  /** A focus hint, followed by an activity pulse unless the login window has the focus. */
  lemma {:induction false} FocusTail(v: Watch, hint: Envelope, pulse: seq<Envelope>)
    requires InStep(v) && hint.kind == Hint(FocusChanged) && hint.payload.FocusData?
    requires v.work.engine.locked == IsLoginFocus(hint)
    requires pulse == [] || (!v.work.engine.locked && |pulse| == 1 && pulse[0].kind == Signal(ActivityPulse)
                             && pulse[0].payload == NoPayload)
    ensures Accepts(WatchNext, WatchOk, v, [hint] + pulse)
    ensures var v' := Fold(WatchNext, v, [hint] + pulse);
            v'.cut.window == Some(hint.payload.focus.windowId) && v'.work.engine.locked == v.work.engine.locked
  {
    WatchTwo(v, hint, pulse);
    FocusMoves(v, hint);
    var mid := WatchNext(v, hint);
    if pulse != [] {
      assert pulse == [pulse[0]];
      AcceptsOne(WatchNext, WatchOk, mid, pulse[0]);
      SignalMoves(mid, pulse[0]);
    }
  }

  lemma {:induction false} UnlockedFocus(v: Watch, adapted: seq<Envelope>)
    requires InStep(v) && !v.work.engine.locked && |adapted| == 3
    requires adapted[0].kind.Signal? && adapted[0].kind.signal in {AppChanged, WindowChanged}
             && !adapted[0].payload.State?
    requires adapted[1].kind == Hint(FocusChanged) && adapted[1].payload.FocusData? && !IsLoginFocus(adapted[1])
    requires adapted[2].kind == Signal(ActivityPulse) && adapted[2].payload == NoPayload
    ensures var envs := [adapted[0]] + ([adapted[1]] + [adapted[2]]);
            var v' := Fold(WatchNext, v, envs);
            && Accepts(WatchNext, WatchOk, v, envs)
            && v'.cut.window == Some(adapted[1].payload.focus.windowId) && !v'.work.engine.locked
  {
    WatchTwo(v, adapted[0], [adapted[1]] + [adapted[2]]);
    SignalMoves(v, adapted[0]);
    FocusTail(WatchNext(v, adapted[0]), adapted[1], [adapted[2]]);
  }

  lemma {:induction false} LoginExpected(v: Watch, start: Envelope, hint: Envelope)
    requires InStep(v)
    requires hint.kind == Hint(FocusChanged) && hint.payload.FocusData? && IsLoginFocus(hint)
    requires start.kind == Signal(LockStart) && !start.payload.State?
    ensures var envs := (if v.work.engine.locked then [] else [start]) + [hint];
            var v' := Fold(WatchNext, v, envs);
            && Accepts(WatchNext, WatchOk, v, envs)
            && v'.cut.window == Some(hint.payload.focus.windowId) && v'.work.engine.locked
  {
    if v.work.engine.locked {
      assert [] + [hint] == [hint] + [];
      FocusTail(v, hint, []);
    } else {
      assert [start] + [hint] == [start] + ([hint] + []);
      WatchTwo(v, start, [hint] + []);
      SignalMoves(v, start);
      FocusTail(WatchNext(v, start), hint, []);
    }
  }

  lemma {:induction false} OtherAppExpected(v: Watch, end: Envelope, adapted: seq<Envelope>)
    requires InStep(v) && |adapted| == 3
    requires adapted[0].kind.Signal? && adapted[0].kind.signal in {AppChanged, WindowChanged}
             && !adapted[0].payload.State?
    requires adapted[1].kind == Hint(FocusChanged) && adapted[1].payload.FocusData? && !IsLoginFocus(adapted[1])
    requires adapted[2].kind == Signal(ActivityPulse) && adapted[2].payload == NoPayload
    requires end.kind == Signal(LockEnd) && !end.payload.State?
    ensures var envs := (if v.work.engine.locked then [end] else []) + adapted;
            var v' := Fold(WatchNext, v, envs);
            && Accepts(WatchNext, WatchOk, v, envs)
            && v'.cut.window == Some(adapted[1].payload.focus.windowId) && !v'.work.engine.locked
  {
    assert adapted == [adapted[0]] + ([adapted[1]] + [adapted[2]]);
    if v.work.engine.locked {
      WatchTwo(v, end, adapted);
      SignalMoves(v, end);
      UnlockedFocus(WatchNext(v, end), adapted);
    } else {
      assert [] + adapted == adapted;
      UnlockedFocus(v, adapted);
    }
  }

  /** The envelopes of one raw event are the expected ones, and leave everything in agreement. */
  lemma {:induction false} EventExpected(l: Local, u: SnapshotUpdate, e: RawEvent)
    requires Agree(l) && u.transition.None?
    ensures var v := Watch(Work(l.engine, u), CutOfLocal(l));
            var last' := AdaptStep(l.lastFocus, e).0;
            var envs := EnvelopesOf(l.lastFocus, l.locked, e);
            var v' := Fold(WatchNext, v, envs);
            && Accepts(WatchNext, WatchOk, v, envs)
            && v'.cut.window == (if last'.Some? then Some(last'.value.windowId) else None)
            && v'.work.engine.locked == (last'.Some? && IsLoginWindow(last'.value.appName))
  {
    var v := Watch(Work(l.engine, u), CutOfLocal(l));
    var adapted := AdaptStep(l.lastFocus, e).1;
    var envs := EnvelopesOf(l.lastFocus, l.locked, e);
    if envs == [] {
    } else if |adapted| == 1 {
      assert envs == [envs[0]];
      AcceptsOne(WatchNext, WatchOk, v, envs[0]);
      if envs[0].kind.Signal? {
        SignalMoves(v, envs[0]);
      }
    } else if IsLoginFocus(adapted[0]) {
      LoginExpected(v, LockBoundary(adapted[0], LockStart, "loginwindow"), adapted[1]);
    } else {
      OtherAppExpected(v, LockBoundary(adapted[0], LockEnd, "unlock"), adapted);
    }
  }

  lemma {:induction false} SignalsArePlain(last: Option<Focus>, locked: bool, e: RawEvent)
    ensures var envs := EnvelopesOf(last, locked, e);
            forall i :: 0 <= i < |envs| && envs[i].kind.Signal? ==> !envs[i].payload.State?
  {
  }

  lemma {:induction false} RawEventHints(st: Stage, e: RawEvent)
    requires Agree(st.local) && st.update.transition.None?
    ensures var (st', sends) := RawStep(st, e);
            var hints := FlatMap(HintOf, sends);
            && Agree(st'.local)
            && GoodHints(CutOfLocal(st.local), hints)
            && CutAfter(CutOfLocal(st.local), hints) == CutOfLocal(st'.local)
  {
    var l := st.local;
    LockOfEvent(l.lastFocus, l.locked, e);
    EventExpected(l, st.update, e);
    WatchedHints(Watch(Work(l.engine, st.update), CutOfLocal(l)), EnvelopesOf(l.lastFocus, l.locked, e));
  }

  lemma {:induction false} RawEventAccounts(st: Stage, e: RawEvent, before: seq<Send>)
    requires Agree(st.local) && Accounts(st.update, before)
    ensures var (st', sends) := RawStep(st, e);
            Accounts(st'.update, before + sends)
  {
    var l := st.local;
    LockOfEvent(l.lastFocus, l.locked, e);
    SignalsArePlain(l.lastFocus, l.locked, e);
    RunAccounts(Work(l.engine, st.update), EnvelopesOf(l.lastFocus, l.locked, e), before);
  }

  /** One raw event keeps the agreement, hands on only good hints and accounts for everything. */
  lemma {:induction false} RawEventKeeps(st: Stage, e: RawEvent, before: seq<Send>)
    requires Agree(st.local) && Accounts(st.update, before)
    ensures var (st', sends) := RawStep(st, e);
            var hints := FlatMap(HintOf, sends);
            && Agree(st'.local) && Accounts(st'.update, before + sends)
            && GoodHints(CutOfLocal(st.local), hints)
            && CutAfter(CutOfLocal(st.local), hints) == CutOfLocal(st'.local)
  {
    RawEventHints(st, e);
    RawEventAccounts(st, e, before);
  }

  lemma {:induction false} RawEventsKeep(st: Stage, events: seq<RawEvent>)
    requires Agree(st.local) && Accounts(st.update, [])
    ensures var (st', sends) := Run(RawStep, st, events);
            var hints := FlatMap(HintOf, sends);
            && Agree(st'.local) && Accounts(st'.update, sends)
            && GoodHints(CutOfLocal(st.local), hints)
            && CutAfter(CutOfLocal(st.local), hints) == CutOfLocal(st'.local)
  {
    if events != [] {
      var init, e := events[..|events| - 1], events[|events| - 1];
      RawEventsKeep(st, init);
      var (mid, sends) := Run(RawStep, st, init);
      RawEventKeeps(mid, e, sends);
      var more := RawStep(mid, e).1;
      FlatMapConcat(HintOf, sends, more);
      AcceptsConcat(NextCut, GoodHint, CutOfLocal(st.local), FlatMap(HintOf, sends), FlatMap(HintOf, more));
    }
  }

  /** What the stage guarantees of the sends of one command. */
  predicate Sound(l: Local, l': Local, sends: seq<Send>) {
    var hints := FlatMap(HintOf, sends);
    && Agree(l')
    && Accounts(EMPTY_UPDATE, sends)
    && GoodHints(CutOfLocal(l), hints)
    && CutAfter(CutOfLocal(l), hints) == CutOfLocal(l')
  }

  /** A send that is neither a hint, nor an envelope, nor an update changes no account. */
  lemma {:induction false} NeutralSend(u: SnapshotUpdate, sends: seq<Send>, m: Send)
    requires Accounts(u, sends) && (m.ToCompression? || m == ToSnapshot(Publish))
    ensures Accounts(u, sends + [m]) && FlatMap(HintOf, sends + [m]) == FlatMap(HintOf, sends)
  {
    SendAppend(sends, m);
    assert FlatMap(HintOf, sends) + [] == FlatMap(HintOf, sends);
  }

  /** Sending the pending update settles the accounts. */
  lemma {:induction false} UpdateSend(u: SnapshotUpdate, sends: seq<Send>)
    requires Accounts(u, sends)
    ensures Accounts(EMPTY_UPDATE, sends + [ToSnapshot(Update(u))])
    ensures FlatMap(HintOf, sends + [ToSnapshot(Update(u))]) == FlatMap(HintOf, sends)
  {
    SendAppend(sends, ToSnapshot(Update(u)));
    assert FlatMap(HintOf, sends) + [] == FlatMap(HintOf, sends);
  }

  lemma {:induction false} FinishAccounts(events: seq<RawEvent>, envs: seq<Envelope>, u: SnapshotUpdate,
                                          sends: seq<Send>)
    requires Accounts(u, sends)
    ensures var all := sends + FinishBatch(events, envs, u);
            Accounts(EMPTY_UPDATE, all) && FlatMap(HintOf, all) == FlatMap(HintOf, sends)
  {
    var process := ToCompression(Process(events, envs));
    var processed := sends + [process];
    NeutralSend(u, sends, process);
    if u == EMPTY_UPDATE {
      NeutralSend(u, processed, ToSnapshot(Publish));
      assert sends + FinishBatch(events, envs, u) == processed + [ToSnapshot(Publish)];
    } else {
      UpdateSend(u, processed);
      NeutralSend(EMPTY_UPDATE, processed + [ToSnapshot(Update(u))], ToSnapshot(Publish));
      assert sends + FinishBatch(events, envs, u) == processed + [ToSnapshot(Update(u))] + [ToSnapshot(Publish)];
    }
  }

  lemma {:induction false} HintThenUpdate(hint: Envelope, more: Send)
    requires more.ToSnapshot?
    ensures FlatMap(HintOf, [ToHints(hint)] + [more]) == [hint]
  {
    FlatMapOne(HintOf, ToHints(hint));
    FlatMapAppend(HintOf, [ToHints(hint)], more);
    assert [hint] + [] == [hint];
  }

  lemma {:induction false} LoneHintSends(hint: Envelope, u: SnapshotUpdate, sends: seq<Send>)
    requires hint.payload.State? && (u, sends) == ForwardHint(EMPTY_UPDATE, hint, None)
    ensures u == EMPTY_UPDATE && |sends| == 2 && sends[0] == ToHints(hint) && sends[1].ToSnapshot?
  {
  }

  /** A lone state hint, forwarded and published, is accounted for. */
  lemma {:induction false} LoneHint(hint: Envelope, u: SnapshotUpdate, sends: seq<Send>)
    requires hint.payload.State? && (u, sends) == ForwardHint(EMPTY_UPDATE, hint, None)
    ensures Accounts(EMPTY_UPDATE, sends + [ToSnapshot(Publish)]) && FlatMap(HintOf, sends + [ToSnapshot(Publish)])
            == [hint]
  {
    HintAccounts(EMPTY_UPDATE, hint, None, []);
    LoneHintSends(hint, u, sends);
    assert [] + sends == sends == [sends[0]] + [sends[1]];
    HintThenUpdate(hint, sends[1]);
    NeutralSend(EMPTY_UPDATE, sends, ToSnapshot(Publish));
  }

  lemma {:induction false} TickSound(l: Local, now: Time)
    requires Agree(l)
    ensures var (l', sends) := HandleTick(l, now);
            Sound(l, l', sends)
  {
    ChangesAreReal(l.engine, StateEngine.Tick(now));
    StateIsComputed(l.engine, StateEngine.Tick(now));
    var change := TickStep(l.engine, now).1;
    if change != [] {
      var hint := StateHint(UnixMillis(now), now, change[0]);
      LoneHint(hint, ForwardHint(EMPTY_UPDATE, hint, None).0, ForwardHint(EMPTY_UPDATE, hint, None).1);
      AcceptsOne(NextCut, GoodHint, CutOfLocal(l), hint);
    }
  }

  lemma {:induction false} BatchSound(l: Local, events: seq<RawEvent>)
    requires Agree(l)
    ensures var (l', sends) := HandleBatch(l, events);
            Sound(l, l', sends)
  {
    hide EnvelopeStep, AdaptStep, LockStep, FinishBatch;
    BatchByEvent(l, EMPTY_UPDATE, events);
    RawEventsKeep(Stage(l, EMPTY_UPDATE), events);
    if events != [] {
      var (st, sends) := Run(RawStep, Stage(l, EMPTY_UPDATE), events);
      var adapted := Run(AdaptStep, l.lastFocus, events).1;
      FinishAccounts(events, Run(LockStep, l.locked, adapted).1, st.update, sends);
    }
  }

  lemma {:induction false} ShutdownSound(l: Local)
    requires Agree(l)
    ensures Sound(l, l, SHUTDOWN_SENDS)
  {
    assert SHUTDOWN_SENDS == [] + [SHUTDOWN_SENDS[0]] + [SHUTDOWN_SENDS[1]];
    SendAppend([], SHUTDOWN_SENDS[0]);
    SendAppend([] + [SHUTDOWN_SENDS[0]], SHUTDOWN_SENDS[1]);
  }

  /** Every command of the stage: the four notions of "locked" agree afterwards, every hint
      splits, and the sends account for every envelope handled. */
  lemma {:induction false} HandleSound(l: Local, cmd: DeriveCommand)
    requires Agree(l)
    ensures var (l', sends) := Handle(l, cmd);
            Sound(l, l', sends)
  {
    hide Sound, Agree;
    match cmd
    case Batch(events) => BatchSound(l, events);
    case Tick(now) => TickSound(l, now);
    case DeriveShutdown => ShutdownSound(l);
  }

  /** The same over a whole run of commands, from any state in agreement. */
  lemma {:induction false} RunSound(l: Local, cmds: seq<DeriveCommand>)
    requires Agree(l)
    ensures var (l', sends) := Run(Handle, l, cmds);
            Sound(l, l', sends)
  {
    if cmds != [] {
      var init, cmd := cmds[..|cmds| - 1], cmds[|cmds| - 1];
      RunSound(l, init);
      var (mid, sends) := Run(Handle, l, init);
      HandleSound(mid, cmd);
      SoundConcat(l, mid, sends, Handle(mid, cmd).0, Handle(mid, cmd).1);
    }
  }

  lemma {:induction false} SoundConcat(l: Local, mid: Local, sends: seq<Send>, l': Local, more: seq<Send>)
    requires Sound(l, mid, sends) && Sound(mid, l', more)
    ensures Sound(l, l', sends + more)
  {
    FlatMapConcat(HintOf, sends, more);
    FlatMapConcat(StoredOf, sends, more);
    FlatMapConcat(HintMoveOf, sends, more);
    FlatMapConcat(UpdateMoveOf, sends, more);
    SumConcat(HintsDeltaOf, sends, more);
    SumConcat(SignalsDeltaOf, sends, more);
    AcceptsConcat(NextCut, GoodHint, CutOfLocal(l), FlatMap(HintOf, sends), FlatMap(HintOf, more));
  }

  // ---------- Lock boundaries alternate ----------

  function LockAfter(locked: bool, env: Envelope): bool {
    if env.kind == Signal(LockStart) then true else if env.kind == Signal(LockEnd) then false else locked
  }

  /** A lock starts only unlocked and ends only locked; between the two nothing passes but focus
      hints of the login window, and outside of them no such hint does. */
  predicate LockLegal(locked: bool, env: Envelope) {
    match env.kind
    case Signal(LockStart) => !locked
    case Signal(LockEnd) => locked
    case Hint(FocusChanged) => locked <==> IsLoginFocus(env)
    case _ => !locked
  }

  lemma {:induction false} LegalCons(locked: bool, x: Envelope, ys: seq<Envelope>)
    ensures Accepts(LockAfter, LockLegal, locked, [x] + ys) <==>
              LockLegal(locked, x) && Accepts(LockAfter, LockLegal, LockAfter(locked, x), ys)
    ensures Fold(LockAfter, locked, [x] + ys) == Fold(LockAfter, LockAfter(locked, x), ys)
  {
    AcceptsConcat(LockAfter, LockLegal, locked, [x], ys);
    AcceptsOne(LockAfter, LockLegal, locked, x);
  }

  lemma {:induction false} LoginAlternates(locked: bool, start: Envelope, hint: Envelope)
    requires start.kind == Signal(LockStart) && hint.kind == Hint(FocusChanged) && IsLoginFocus(hint)
    ensures var envs := (if locked then [] else [start]) + [hint];
            Accepts(LockAfter, LockLegal, locked, envs) && Fold(LockAfter, locked, envs)
  {
    AcceptsOne(LockAfter, LockLegal, true, hint);
    if locked {
      assert [] + [hint] == [hint];
    } else {
      LegalCons(locked, start, [hint]);
    }
  }

  lemma {:induction false} OtherAppAlternates(locked: bool, end: Envelope, adapted: seq<Envelope>)
    requires end.kind == Signal(LockEnd) && |adapted| == 3 && adapted[0].kind.Signal?
    requires adapted[0].kind.signal.AppChanged? || adapted[0].kind.signal.WindowChanged?
    requires adapted[1].kind == Hint(FocusChanged) && !IsLoginFocus(adapted[1])
             && adapted[2].kind == Signal(ActivityPulse)
    ensures var envs := (if locked then [end] else []) + adapted;
            Accepts(LockAfter, LockLegal, locked, envs) && !Fold(LockAfter, locked, envs)
  {
    assert adapted == [adapted[0]] + ([adapted[1]] + [adapted[2]]);
    LegalCons(false, adapted[0], [adapted[1]] + [adapted[2]]);
    LegalCons(false, adapted[1], [adapted[2]]);
    AcceptsOne(LockAfter, LockLegal, false, adapted[2]);
    if locked {
      LegalCons(locked, end, adapted);
    } else {
      assert [] + adapted == adapted;
    }
  }

  lemma {:induction false} EventAlternates(last: Option<Focus>, locked: bool, e: RawEvent)
    requires locked <==> last.Some? && IsLoginWindow(last.value.appName)
    ensures var last' := AdaptStep(last, e).0;
            var envs := EnvelopesOf(last, locked, e);
            && Accepts(LockAfter, LockLegal, locked, envs)
            && Fold(LockAfter, locked, envs) == (last'.Some? && IsLoginWindow(last'.value.appName))
  {
    var adapted := AdaptStep(last, e).1;
    var envs := EnvelopesOf(last, locked, e);
    if envs == [] {
    } else if |adapted| == 1 {
      assert envs == [envs[0]];
      AcceptsOne(LockAfter, LockLegal, locked, envs[0]);
    } else if IsLoginFocus(adapted[0]) {
      LoginAlternates(locked, LockBoundary(adapted[0], LockStart, "loginwindow"), adapted[1]);
    } else {
      OtherAppAlternates(locked, LockBoundary(adapted[0], LockEnd, "unlock"), adapted);
    }
  }

  /** Over the whole stream of raw events, lock starts and lock ends alternate. */
  lemma {:induction false} LocksAlternate(last: Option<Focus>, locked: bool, events: seq<RawEvent>)
    requires locked <==> last.Some? && IsLoginWindow(last.value.appName)
    ensures var (last', adapted) := Run(AdaptStep, last, events);
            var (locked', envs) := Run(LockStep, locked, adapted);
            && (locked' <==> last'.Some? && IsLoginWindow(last'.value.appName))
            && Accepts(LockAfter, LockLegal, locked, envs)
            && Fold(LockAfter, locked, envs) == locked'
  {
    if events != [] {
      var init, e := events[..|events| - 1], events[|events| - 1];
      LocksAlternate(last, locked, init);
      var (lastMid, adapted) := Run(AdaptStep, last, init);
      var (lockedMid, envs) := Run(LockStep, locked, adapted);
      var more := AdaptStep(lastMid, e).1;
      RunConcat(LockStep, locked, adapted, more);
      LockOfEvent(lastMid, lockedMid, e);
      EventAlternates(lastMid, lockedMid, e);
      AcceptsConcat(LockAfter, LockLegal, locked, envs, EnvelopesOf(lastMid, lockedMid, e));
    }
  }

  // ---------- Consequences for transitions and records ----------

  /** Each move leaves the state the one before it reached, and really moves. */
  predicate Chained(from: ActivityState, moves: seq<Move>) {
    moves == []
    || (var init, last := moves[..|moves| - 1], moves[|moves| - 1];
        Chained(from, init) && last.from == Reached(from, init) && last.from != last.to)
  }

  function Reached(from: ActivityState, moves: seq<Move>): ActivityState {
    if moves == [] then from else moves[|moves| - 1].to
  }

  lemma {:induction false} GoodHintsChain(c: Cut, hints: seq<Envelope>)
    requires GoodHints(c, hints)
    ensures var moves := FlatMap(MoveOfEnvelope, hints);
            Chained(c.state, moves) && Reached(c.state, moves) == CutAfter(c, hints).state
  {
    if hints != [] {
      var init, env := hints[..|hints| - 1], hints[|hints| - 1];
      GoodHintsChain(c, init);
      var moves := FlatMap(MoveOfEnvelope, init);
      if env.payload.State? {
        assert (moves + MoveOfEnvelope(env))[..|moves|] == moves;
      } else {
        assert moves + [] == moves;
      }
    }
  }

  lemma {:induction false} GoodHintAt(c: Cut, hints: seq<Envelope>, i: nat)
    requires GoodHints(c, hints) && i < |hints|
    ensures GoodHint(CutAfter(c, hints[..i]), hints[i])
  {
    if i < |hints| - 1 {
      GoodHintAt(c, hints[..|hints| - 1], i);
      assert hints[..|hints| - 1][..i] == hints[..i];
    }
  }

  /** The state that a stream of splitting hints leads to is the state of its cut. */
  lemma {:induction false} CutIsStateAfter(c: Cut, hints: seq<Envelope>)
    requires AllSplit(c, hints)
    ensures CutAfter(c, hints).state == StateAfter(c.state, hints)
  {
    if hints != [] {
      CutIsStateAfter(c, hints[..|hints| - 1]);
    }
  }

  lemma {:induction false} GoodHintsFront(c: Cut, hints: seq<Envelope>, i: nat)
    requires GoodHints(c, hints) && i <= |hints|
    ensures GoodHints(c, hints[..i])
  {
    AcceptsConcat(NextCut, GoodHint, c, hints[..i], hints[i..]);
    assert hints[..i] + hints[i..] == hints;
  }

  /** The state and focus in which a focus hint of the stream leaves its record. */
  lemma {:induction false} FocusHintState(c: Cut, focus: Option<Focus>, hints: seq<Envelope>, i: nat)
    requires GoodHints(c, hints) && i < |hints| && hints[i].kind == Hint(FocusChanged)
    ensures hints[i].payload.FocusData? && FocusAfter(focus, hints[..i + 1]) == Some(hints[i].payload.focus)
    ensures StateAfter(c.state, hints[..i + 1]) == Locked <==> IsLoginWindow(hints[i].payload.focus.appName)
  {
    GoodHintAt(c, hints, i);
    GoodHintsFront(c, hints, i);
    GoodHintsSplit(c, hints[..i]);
    CutIsStateAfter(c, hints[..i]);
    assert hints[..i + 1][..i] == hints[..i];
  }

  lemma {:induction false} EnvsOfFront(hs: seq<TimedHint>, i: nat)
    requires i <= |hs|
    ensures EnvsOf(hs[..i]) == EnvsOf(hs)[..i]
  {
  }

  /** Over every run of good hints: each record that a focus hint opened, closed since or flushed at the
      end, is about that focus, and Locked exactly if that is the login window. */
  lemma {:induction false} FocusRecordsAreLockedExactly(b: Builder, hs: seq<TimedHint>, now: Time, i: nat)
    requires b.record == None && GoodHints(CutOf(b), EnvsOf(hs))
    requires i < |hs| && hs[i].env.kind == Hint(FocusChanged)
    ensures var (b', records) := Run(HintStep, b, hs);
            var all := records + Closed(b', now);
            && |all| == |hs| && hs[i].env.payload.FocusData? && all[i].focusInfo == Some(hs[i].env.payload.focus)
            && (all[i].state == Locked <==> IsLoginWindow(hs[i].env.payload.focus.appName))
  {
    GoodHintsSplit(CutOf(b), EnvsOf(hs));
    RecordsFollowHints(b, hs, now);
    FocusHintState(CutOf(b), b.focus, EnvsOf(hs), i);
    EnvsOfFront(hs, i + 1);
  }
}
