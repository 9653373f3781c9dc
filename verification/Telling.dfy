/** What the envelope stage tells the others, over every run of commands: which events its engine hears,
    what it stores, and which application, window and state the snapshot stage is told of. */
module Telling {
  import opened Wrappers
  import opened Events
  import opened Mealy
  import opened Seqs
  import opened EventAdapter
  import opened LockDeriver
  import opened StateEngine
  import opened PipelineTypes
  import opened EnvelopeStage
  import opened EventChain
  import opened RawToEnvelopes

  // ---------- What is told of the focus ----------

  /** Which window of which application is in front, whatever its title. */
  datatype Place = Place(pid: int, processStartTime: nat, appName: string, windowId: nat)

  function PlaceOf(focus: Option<Focus>): Option<Place> {
    if focus.None? then None
    else Some(Place(focus.value.pid, focus.value.processStartTime, focus.value.appName, focus.value.windowId))
  }

  /** What one update says of it. */
  function PlaceAfter(place: Option<Place>, u: SnapshotUpdate): Option<Place> {
    if u.focus.Some? then PlaceOf(u.focus) else place
  }

  function PlaceSent(place: Option<Place>, m: Send): Option<Place> {
    match m case ToSnapshot(Update(u)) => PlaceAfter(place, u) case _ => place
  }

  /** What a reader of the updates among some sends believes. */
  function PlaceTold(place: Option<Place>, sends: seq<Send>): Option<Place> {
    Fold(PlaceSent, place, sends)
  }

  function PlaceIn(place: Option<Place>, env: Envelope): Option<Place> {
    match env.payload case FocusData(f) => PlaceOf(Some(f)) case _ => place
  }

  // ---------- What is told of the state ----------

  /** An update tells of a new state exactly if it tells of a move, of the state that leads to, and why. */
  predicate TellsState(u: SnapshotUpdate) {
    && u.state == (if u.transition.Some? then Some(u.transition.value.to) else None)
    && (u.transition.Some? ==> u.transition.value.runId.None? && u.transition.value.bySignal.Some?)
  }

  /** An update that does not. */
  function Mistold(m: Send): seq<Send> {
    match m case ToSnapshot(Update(u)) => if TellsState(u) then [] else [m] case _ => []
  }

  // ---------- One envelope ----------

  function HeardOf(env: Envelope): seq<EngineEvent> {
    if env.kind.Signal? then [At(env.kind, env.timestamp)] else []
  }

  function SignalOnly(env: Envelope): seq<Envelope> {
    if env.kind.Signal? then [env] else []
  }

  /** Hints about the focus, as opposed to those about the state. */
  function FocusHintOnly(env: Envelope): seq<Envelope> {
    if env.kind.Hint? && !env.payload.State? then [env] else []
  }

  /** What one step of the loop adds. */
  ghost predicate Adds(w: Work, env: Envelope, w': Work, more: seq<Send>) {
    && w'.engine == Run(EngineStep, w.engine, HeardOf(env)).0
    && FlatMap(StoredOf, more) == SignalOnly(env)
    && FlatMap(FocusHintOnly, FlatMap(HintOf, more)) == FocusHintOnly(env)
    && (forall p :: PlaceAfter(PlaceTold(p, more), w'.update) == PlaceIn(PlaceAfter(p, w.update), env))
    && (TellsState(w.update) ==> TellsState(w'.update) && FlatMap(Mistold, more) == [])
  }

  lemma {:induction false} OneSend(m: Send)
    ensures FlatMap(StoredOf, [m]) == StoredOf(m) && FlatMap(HintOf, [m]) == HintOf(m)
    ensures FlatMap(Mistold, [m]) == Mistold(m)
    ensures forall p :: PlaceTold(p, [m]) == PlaceSent(p, m)
  {
    FlatMapOne(StoredOf, m);
    FlatMapOne(HintOf, m);
    FlatMapOne(Mistold, m);
    forall p
      ensures PlaceTold(p, [m]) == PlaceSent(p, m)
    {
      AcceptsOne(PlaceSent, (_, _) => true, p, m);
    }
  }

  lemma {:induction false} MoreSends(xs: seq<Send>, ys: seq<Send>)
    ensures FlatMap(StoredOf, xs + ys) == FlatMap(StoredOf, xs) + FlatMap(StoredOf, ys)
    ensures FlatMap(HintOf, xs + ys) == FlatMap(HintOf, xs) + FlatMap(HintOf, ys)
    ensures FlatMap(Mistold, xs + ys) == FlatMap(Mistold, xs) + FlatMap(Mistold, ys)
    ensures forall p :: PlaceTold(p, xs + ys) == PlaceTold(PlaceTold(p, xs), ys)
  {
    FlatMapConcat(StoredOf, xs, ys);
    FlatMapConcat(HintOf, xs, ys);
    FlatMapConcat(Mistold, xs, ys);
    forall p
      ensures PlaceTold(p, xs + ys) == PlaceTold(PlaceTold(p, xs), ys)
    {
      FoldConcat(PlaceSent, p, xs, ys);
    }
  }

  lemma {:induction false} FoldConcat<S, I>(next: (S, I) -> S, s: S, xs: seq<I>, ys: seq<I>)
    ensures Fold(next, s, xs + ys) == Fold(next, Fold(next, s, xs), ys)
    decreases |ys|
  {
    if ys == [] {
      assert xs + ys == xs;
    } else {
      FoldConcat(next, s, xs, ys[..|ys| - 1]);
      assert (xs + ys)[..|xs + ys| - 1] == xs + ys[..|ys| - 1];
    }
  }

  /** Forwarding counts as told what it collects and what it flushes. */
  lemma {:induction false} ForwardTells(u: SnapshotUpdate, env: Envelope, signal: Option<SignalKind>, first: Send)
    requires StoredOf(first) + HintOf(first) == [env] && !first.ToSnapshot?
    requires u.transition.None? && (env.payload.State? ==> TransitionReason(env, signal).Some?)
    ensures var (u', flushed) := FlushTransition(WithState(WithFocus(u, env), env, signal));
            && u'.transition.None?
            && FlatMap(StoredOf, [first] + flushed) == StoredOf(first)
            && FlatMap(HintOf, [first] + flushed) == HintOf(first)
            && (forall p :: PlaceAfter(PlaceTold(p, [first] + flushed), u') == PlaceIn(PlaceAfter(p, u), env))
            && (TellsState(u) ==> TellsState(u') && FlatMap(Mistold, [first] + flushed) == [])
  {
    var (u', flushed) := FlushTransition(WithState(WithFocus(u, env), env, signal));
    OneSend(first);
    MoreSends([first], flushed);
    if flushed != [] {
      OneSend(flushed[0]);
      assert flushed == [flushed[0]];
    }
  }

  lemma {:induction false} HintAdds(w: Work, env: Envelope)
    requires env.kind.Hint? && !env.payload.State? && w.update.transition.None?
    ensures var (w', more) := EnvelopeStep(w, env);
            Adds(w, env, w', more) && w'.update.transition.None?
  {
    hide FlatMap, PlaceTold, Run;
    ForwardTells(w.update.(hintsDelta := w.update.hintsDelta + 1), env, None, ToHints(env));
    FlatMapOne(FocusHintOnly, env);
    RunNone(EngineStep, w.engine);
  }

  lemma {:induction false} HearOne(e: Engine, ev: EngineEvent)
    ensures Run(EngineStep, e, [ev]).0 == EngineStep(e, ev).0
  {
    assert [ev][..0] == [];
  }

  lemma {:induction false} SignalAdds(w: Work, env: Envelope, kind: SignalKind)
    requires env.kind == Signal(kind) && !env.payload.State? && w.update.transition.None?
    ensures var (w', more) := EnvelopeStep(w, env);
            Adds(w, env, w', more) && w'.update.transition.None?
  {
    hide FlatMap, PlaceTold, Run;
    var counted := w.update.(signalsDelta := w.update.signalsDelta + 1);
    var stored := ToStorage(EnvelopeCmd(env));
    ForwardTells(counted, env, Some(kind), stored);
    HearOne(w.engine, At(env.kind, env.timestamp));
    var (u, first) := ForwardSignal(w.update, env, kind);
    var (engine, change) := SignalStep(w.engine, env.kind, env.timestamp);
    if change != [] {
      var hint := StateHint(env.id, env.timestamp, change[0]);
      ForwardTells(u.(hintsDelta := u.hintsDelta + 1), hint, Some(kind), ToHints(hint));
      var more := ForwardHint(u, hint, Some(kind)).1;
      MoreSends(first, more);
      FlatMapOne(FocusHintOnly, hint);
      assert [] + [hint] == [hint] && [env] + [] == [env];
    }
    FlatMapNone(FocusHintOnly);
  }

  // ---------- A list of envelopes ----------

  ghost predicate AddsAll(w: Work, envs: seq<Envelope>, w': Work, more: seq<Send>) {
    && w'.engine == Run(EngineStep, w.engine, FlatMap(HeardOf, envs)).0
    && FlatMap(StoredOf, more) == FlatMap(SignalOnly, envs)
    && FlatMap(FocusHintOnly, FlatMap(HintOf, more)) == FlatMap(FocusHintOnly, envs)
    && (forall p :: PlaceAfter(PlaceTold(p, more), w'.update) == Fold(PlaceIn, PlaceAfter(p, w.update), envs))
    && (TellsState(w.update) ==> TellsState(w'.update) && FlatMap(Mistold, more) == [])
  }

  /** No state is told in envelopes that come from outside. */
  predicate Stateless(envs: seq<Envelope>) {
    forall i :: 0 <= i < |envs| ==> !envs[i].payload.State?
  }

  lemma {:induction false} AddsMore(w: Work, envs: seq<Envelope>, mid: Work, sends: seq<Send>, env: Envelope, w': Work,
                                    more: seq<Send>)
    requires AddsAll(w, envs, mid, sends) && Adds(mid, env, w', more)
    ensures AddsAll(w, envs + [env], w', sends + more)
  {
    hide EngineStep, PlaceAfter, PlaceIn, TellsState, Mistold;
    FlatMapAppend(HeardOf, envs, env);
    RunConcat(EngineStep, w.engine, FlatMap(HeardOf, envs), HeardOf(env));
    MoreSends(sends, more);
    FlatMapAppend(SignalOnly, envs, env);
    FlatMapAppend(FocusHintOnly, envs, env);
    FlatMapConcat(FocusHintOnly, FlatMap(HintOf, sends), FlatMap(HintOf, more));
    assert (envs + [env])[..|envs|] == envs;
  }

  lemma {:induction false} AddsNone(w: Work)
    ensures AddsAll(w, [], w, [])
  {
  }

  lemma {:induction false} EnvelopesAdd(w: Work, envs: seq<Envelope>)
    requires w.update.transition.None? && Stateless(envs)
    ensures var (w', sends) := Run(EnvelopeStep, w, envs);
            AddsAll(w, envs, w', sends) && w'.update.transition.None?
  {
    hide Adds, AddsAll;
    if envs == [] {
      AddsNone(w);
    } else {
      var init, env := envs[..|envs| - 1], envs[|envs| - 1];
      EnvelopesAdd(w, init);
      var (mid, sends) := Run(EnvelopeStep, w, init);
      match env.kind {
        case Hint(_) => HintAdds(mid, env);
        case Signal(kind) => SignalAdds(mid, env, kind);
      }
      AddsMore(w, init, mid, sends, env, EnvelopeStep(mid, env).0, EnvelopeStep(mid, env).1);
      assert init + [env] == envs;
    }
  }

  // ---------- What commands carry ----------

  function RawIn(cmd: DeriveCommand): seq<RawEvent> {
    match cmd case Batch(events) => events case _ => []
  }

  /** What the engine hears of one command, if `before` is the focus before it. */
  function HeardIn(before: Option<Focus>, cmd: DeriveCommand): seq<EngineEvent> {
    match cmd
    case Batch(events) => FlatMap(HeardOf, AllTold(before, events))
    case Tick(now) => [StateEngine.Tick(now)]
    case DeriveShutdown => []
  }

  function HeardAll(before: Option<Focus>, cmds: seq<DeriveCommand>): seq<EngineEvent> {
    if cmds == [] then []
    else
      var init := cmds[..|cmds| - 1];
      HeardAll(before, init) + HeardIn(LastFocus(before, FlatMap(RawIn, init)), cmds[|cmds| - 1])
  }

  lemma {:induction false} FocusConcat(before: Option<Focus>, xs: seq<RawEvent>, ys: seq<RawEvent>)
    ensures LastFocus(before, xs + ys) == LastFocus(LastFocus(before, xs), ys)
    decreases |ys|
  {
    if ys == [] {
      assert xs + ys == xs;
    } else {
      FocusConcat(before, xs, ys[..|ys| - 1]);
      assert (xs + ys)[..|xs + ys| - 1] == xs + ys[..|ys| - 1];
    }
  }

  lemma {:induction false} ToldMore(before: Option<Focus>, xs: seq<RawEvent>, e: RawEvent)
    ensures AllTold(before, xs + [e]) == AllTold(before, xs) + Told(LastFocus(before, xs), e)
  {
    hide Told;
    assert (xs + [e])[..|xs|] == xs;
  }

  lemma {:induction false} ToldNone(before: Option<Focus>)
    ensures AllTold(before, []) == []
  {
  }

  lemma {:induction false} LastFocusConcat(before: Option<Focus>, xs: seq<RawEvent>, ys: seq<RawEvent>)
    ensures LastFocus(before, xs + ys) == LastFocus(LastFocus(before, xs), ys)
    ensures AllTold(before, xs + ys) == AllTold(before, xs) + AllTold(LastFocus(before, xs), ys)
    decreases |ys|
  {
    hide Told, LastFocus, AllTold;
    FocusConcat(before, xs, ys);
    var mid := LastFocus(before, xs);
    if ys == [] {
      ToldNone(mid);
      assert xs + ys == xs && AllTold(before, xs) + [] == AllTold(before, xs);
    } else {
      var init, last := ys[..|ys| - 1], ys[|ys| - 1];
      LastFocusConcat(before, xs, init);
      ToldMore(before, xs + init, last);
      ToldMore(mid, init, last);
      assert xs + init + [last] == xs + ys && init + [last] == ys;
    }
  }

  /** Envelopes of raw events: none tells a state, and their focus leads where the raw events' does. */
  lemma {:induction false} ToldAreStateless(before: Option<Focus>, events: seq<RawEvent>)
    ensures Stateless(AllTold(before, events))
  {
    hide Told;
    if events != [] {
      ToldAreStateless(before, events[..|events| - 1]);
      OneIsStateless(LastFocus(before, events[..|events| - 1]), events[|events| - 1]);
    }
  }

  lemma {:induction false} OneIsStateless(before: Option<Focus>, e: RawEvent)
    ensures Stateless(Told(before, e))
  {
  }

  lemma {:induction false} EventPlace(before: Option<Focus>, e: RawEvent)
    ensures Fold(PlaceIn, PlaceOf(before), Told(before, e))
            == PlaceOf(if e.WindowFocusChange? then Some(e.focusInfo) else before)
    ensures FlatMap(FocusHintOnly, Told(before, e)) == FlatMap(HintOnly, Told(before, e))
  {
    PlaceOfFew(PlaceOf(before), Told(before, e));
    SameHints(Told(before, e));
  }

  lemma {:induction false} SameHints(envs: seq<Envelope>)
    requires Stateless(envs)
    ensures FlatMap(FocusHintOnly, envs) == FlatMap(HintOnly, envs)
  {
    if envs != [] {
      SameHints(envs[..|envs| - 1]);
    }
  }

  /** At most four envelopes, spelled out. */
  lemma {:induction false} PlaceOfFew(p: Option<Place>, envs: seq<Envelope>)
    requires |envs| <= 4
    ensures Fold(PlaceIn, p, envs)
         == if |envs| == 0 then p
            else if |envs| == 1 then PlaceIn(p, envs[0])
            else if |envs| == 2 then PlaceIn(PlaceIn(p, envs[0]), envs[1])
            else if |envs| == 3 then PlaceIn(PlaceIn(PlaceIn(p, envs[0]), envs[1]), envs[2])
            else PlaceIn(PlaceIn(PlaceIn(PlaceIn(p, envs[0]), envs[1]), envs[2]), envs[3])
  {
    if envs != [] {
      PlaceOfFew(p, envs[..|envs| - 1]);
    }
  }

  lemma {:induction false} PlaceOfAll(before: Option<Focus>, events: seq<RawEvent>)
    ensures Fold(PlaceIn, PlaceOf(before), AllTold(before, events)) == PlaceOf(LastFocus(before, events))
    ensures FlatMap(FocusHintOnly, AllTold(before, events)) == FlatMap(HintOnly, AllTold(before, events))
  {
    if events != [] {
      var init, e := events[..|events| - 1], events[|events| - 1];
      PlaceOfAll(before, init);
      var mid := LastFocus(before, init);
      FoldConcat(PlaceIn, PlaceOf(before), AllTold(before, init), Told(mid, e));
      EventPlace(mid, e);
      FlatMapConcat(FocusHintOnly, AllTold(before, init), Told(mid, e));
      FlatMapConcat(HintOnly, AllTold(before, init), Told(mid, e));
    }
  }

  // ---------- Why the state moved ----------

  const NO_TICKS: set<Time> := {}

  function TransitionTold(m: Send): seq<Transition> {
    match m case ToSnapshot(Update(u)) => if u.transition.Some? then [u.transition.value] else [] case _ => []
  }

  /** The envelope is the signal that the transition names, at the transition's time. */
  predicate Causes(env: Envelope, t: Transition) {
    env.kind.Signal? && t.bySignal == Some(BySignal(env.kind.signal)) && t.at == env.timestamp
  }

  /** Every transition told names a signal stored with it, or the tick that found the machine idle. */
  ghost predicate Explained(ticks: set<Time>, sends: seq<Send>) {
    forall t :: t in FlatMap(TransitionTold, sends) ==>
      || (t.bySignal == Some(IdleTimeout) && t.at in ticks)
      || exists env :: env in FlatMap(StoredOf, sends) && Causes(env, t)
  }

  lemma {:induction false} ExplainedConcat(a: set<Time>, xs: seq<Send>, b: set<Time>, ys: seq<Send>)
    requires Explained(a, xs) && Explained(b, ys)
    ensures Explained(a + b, xs + ys)
  {
    FlatMapConcat(TransitionTold, xs, ys);
    FlatMapConcat(StoredOf, xs, ys);
    forall t | t in FlatMap(TransitionTold, xs + ys)
      ensures (t.bySignal == Some(IdleTimeout) && t.at in a + b)
              || exists env :: env in FlatMap(StoredOf, xs + ys) && Causes(env, t)
    {
      assert t in FlatMap(TransitionTold, xs) || t in FlatMap(TransitionTold, ys);
    }
  }

  lemma {:induction false} NothingToExplain(sends: seq<Send>)
    requires forall i :: 0 <= i < |sends| ==> TransitionTold(sends[i]) == []
    ensures FlatMap(TransitionTold, sends) == [] && Explained(NO_TICKS, sends)
  {
    if sends != [] {
      NothingToExplain(sends[..|sends| - 1]);
    }
  }

  lemma {:induction false} SignalExplained(w: Work, env: Envelope, kind: SignalKind)
    requires env.kind == Signal(kind) && !env.payload.State? && w.update.transition.None?
    ensures Explained(NO_TICKS, EnvelopeStep(w, env).1)
  {
    var sends := EnvelopeStep(w, env).1;
    var stored := ToStorage(EnvelopeCmd(env));
    var (u, first) := ForwardSignal(w.update, env, kind);
    var change := SignalStep(w.engine, env.kind, env.timestamp).1;
    assert first == [stored];
    if change == [] {
      NothingToExplain(sends);
    } else {
      var hint := StateHint(env.id, env.timestamp, change[0]);
      var more := ForwardHint(u, hint, Some(kind)).1;
      assert sends == [stored] + [ToHints(hint)] + [more[1]];
      FlatMapOne(TransitionTold, stored);
      FlatMapAppend(TransitionTold, [stored], ToHints(hint));
      FlatMapAppend(TransitionTold, [stored] + [ToHints(hint)], more[1]);
      FlatMapOne(StoredOf, stored);
      FlatMapAppend(StoredOf, [stored], ToHints(hint));
      FlatMapAppend(StoredOf, [stored] + [ToHints(hint)], more[1]);
      assert Causes(env, TransitionTold(more[1])[0]) && env in FlatMap(StoredOf, sends);
    }
  }

  lemma {:induction false} HintExplained(w: Work, env: Envelope)
    requires env.kind.Hint? && !env.payload.State? && w.update.transition.None?
    ensures Explained(NO_TICKS, EnvelopeStep(w, env).1)
  {
    NothingToExplain(EnvelopeStep(w, env).1);
  }

  lemma {:induction false} EnvelopesExplained(w: Work, envs: seq<Envelope>)
    requires w.update.transition.None? && Stateless(envs)
    ensures Explained(NO_TICKS, Run(EnvelopeStep, w, envs).1)
  {
    hide EnvelopeStep, Explained;
    if envs == [] {
      NothingToExplain([]);
    } else {
      var init, env := envs[..|envs| - 1], envs[|envs| - 1];
      EnvelopesExplained(w, init);
      EnvelopesAdd(w, init);
      var (mid, sends) := Run(EnvelopeStep, w, init);
      match env.kind {
        case Hint(_) => HintExplained(mid, env);
        case Signal(kind) => SignalExplained(mid, env, kind);
      }
      ExplainedConcat(NO_TICKS, sends, NO_TICKS, EnvelopeStep(mid, env).1);
      assert NO_TICKS + NO_TICKS == NO_TICKS;
    }
  }

  // ---------- One command ----------

  function TicksIn(cmds: seq<DeriveCommand>): set<Time> {
    set i | 0 <= i < |cmds| && cmds[i].Tick? :: cmds[i].now
  }

  ghost predicate FollowsOne(l: Local, cmd: DeriveCommand, l': Local, more: seq<Send>) {
    && l'.lastFocus == LastFocus(l.lastFocus, RawIn(cmd))
    && l'.engine == Run(EngineStep, l.engine, HeardIn(l.lastFocus, cmd)).0
    && FlatMap(StoredOf, more) == FlatMap(SignalOnly, AllTold(l.lastFocus, RawIn(cmd)))
    && FlatMap(FocusHintOnly, FlatMap(HintOf, more)) == FlatMap(HintOnly, AllTold(l.lastFocus, RawIn(cmd)))
    && PlaceTold(PlaceOf(l.lastFocus), more) == PlaceOf(l'.lastFocus)
    && FlatMap(Mistold, more) == []
    && Explained(TicksIn([cmd]), more)
  }

  /** The sends at the end of a batch. */
  lemma {:induction false} FinishTells(events: seq<RawEvent>, envs: seq<Envelope>, u: SnapshotUpdate)
    requires TellsState(u) && u.transition.None?
    ensures var finish := FinishBatch(events, envs, u);
            && FlatMap(StoredOf, finish) == [] && FlatMap(HintOf, finish) == [] && FlatMap(Mistold, finish) == []
            && (forall p :: PlaceTold(p, finish) == PlaceAfter(p, u))
            && Explained(NO_TICKS, finish)
  {
    var finish := FinishBatch(events, envs, u);
    NothingToExplain(finish);
    OneSend(finish[0]);
    if |finish| == 2 {
      OneSend(finish[1]);
      MoreSends([finish[0]], [finish[1]]);
      assert finish == [finish[0]] + [finish[1]];
    } else {
      OneSend(finish[1]);
      OneSend(finish[2]);
      MoreSends([finish[0]], [finish[1]]);
      MoreSends([finish[0]] + [finish[1]], [finish[2]]);
      assert finish == [finish[0]] + [finish[1]] + [finish[2]];
    }
  }

  lemma {:induction false} BatchFollows(l: Local, events: seq<RawEvent>)
    requires Agree(l) && events != []
    ensures FollowsOne(l, Batch(events), HandleBatch(l, events).0, HandleBatch(l, events).1)
  {
    hide EnvelopeStep, FlatMap, Run, PlaceTold, TellsState, FinishBatch, Told, Explained;
    EnvelopesAreTold(l.lastFocus, events);
    var envs := AllTold(l.lastFocus, events);
    var w := Work(l.engine, EMPTY_UPDATE);
    ToldAreStateless(l.lastFocus, events);
    EnvelopesAdd(w, envs);
    EnvelopesExplained(w, envs);
    var (w', sends) := Run(EnvelopeStep, w, envs);
    EmptyTells();
    FinishTells(events, envs, w'.update);
    MoreSends(sends, FinishBatch(events, envs, w'.update));
    ExplainedConcat(NO_TICKS, sends, NO_TICKS, FinishBatch(events, envs, w'.update));
    PlaceOfAll(l.lastFocus, events);
    NoTicks(Batch(events));
    FlatMapConcat(FocusHintOnly, FlatMap(HintOf, sends), []);
    FlatMapNone(FocusHintOnly);
  }

  lemma {:induction false} EmptyTells()
    ensures TellsState(EMPTY_UPDATE)
  {
  }

  lemma {:induction false} NoTicks(cmd: DeriveCommand)
    requires !cmd.Tick?
    ensures TicksIn([cmd]) == NO_TICKS == NO_TICKS + NO_TICKS
  {
  }

  /** A tick that moves the engine. */
  lemma {:induction false} MovingTickTells(now: Time, change: Change)
    ensures var sends := ForwardHint(EMPTY_UPDATE, StateHint(UnixMillis(now), now, change), None).1
                         + [ToSnapshot(Publish)];
            && FlatMap(StoredOf, sends) == [] && FlatMap(Mistold, sends) == []
            && FlatMap(FocusHintOnly, FlatMap(HintOf, sends)) == []
            && (forall p :: PlaceTold(p, sends) == p)
            && Explained({now}, sends)
  {
    var hint := StateHint(UnixMillis(now), now, change);
    var (u, first) := ForwardHint(EMPTY_UPDATE, hint, None);
    LoneHintSends(hint, u, first);
    assert first == [first[0]] + [first[1]];
    OneSend(first[0]);
    OneSend(first[1]);
    OneSend(ToSnapshot(Publish));
    MoreSends([first[0]], [first[1]]);
    MoreSends(first, [ToSnapshot(Publish)]);
    FlatMapOne(FocusHintOnly, hint);
    assert [hint] + [] == [hint];
    TickExplained(now, first[0], first[1]);
  }

  lemma {:induction false} TickExplained(now: Time, hint: Send, told: Send)
    requires hint.ToHints? && told.ToSnapshot? && told.snapshot.Update?
    requires forall t :: t in TransitionTold(told) ==> t.bySignal == Some(IdleTimeout) && t.at == now
    ensures Explained({now}, [hint] + [told] + [ToSnapshot(Publish)])
  {
    FlatMapOne(TransitionTold, hint);
    FlatMapAppend(TransitionTold, [hint], told);
    FlatMapAppend(TransitionTold, [hint] + [told], ToSnapshot(Publish));
  }

  lemma {:induction false} TickFollows(l: Local, now: Time)
    ensures FollowsOne(l, DeriveCommand.Tick(now), HandleTick(l, now).0, HandleTick(l, now).1)
  {
    HearOne(l.engine, StateEngine.Tick(now));
    var change := TickStep(l.engine, now).1;
    assert TicksIn([DeriveCommand.Tick(now)]) == {now} by {
      assert [DeriveCommand.Tick(now)][0] == DeriveCommand.Tick(now);
    }
    if change == [] {
      NothingFollows(l, {now});
    } else {
      MovingTickTells(now, change[0]);
    }
  }

  lemma {:induction false} NothingFollows(l: Local, ticks: set<Time>)
    ensures AllTold(l.lastFocus, []) == [] && PlaceTold(PlaceOf(l.lastFocus), []) == PlaceOf(l.lastFocus)
    ensures Run(EngineStep, l.engine, []).0 == l.engine
    ensures FlatMap(StoredOf, []) == [] && FlatMap(SignalOnly, []) == [] && FlatMap(HintOf, []) == []
    ensures FlatMap(FocusHintOnly, []) == [] && FlatMap(HintOnly, []) == [] && FlatMap(Mistold, []) == []
    ensures Explained(ticks, [])
  {
  }

  lemma {:induction false} ShutdownFollows(l: Local)
    ensures FollowsOne(l, DeriveShutdown, l, SHUTDOWN_SENDS)
  {
    NothingFollows(l, NO_TICKS);
    NoTicks(DeriveShutdown);
    NothingToExplain(SHUTDOWN_SENDS);
    assert SHUTDOWN_SENDS == [SHUTDOWN_SENDS[0]] + [SHUTDOWN_SENDS[1]];
    OneSend(SHUTDOWN_SENDS[0]);
    OneSend(SHUTDOWN_SENDS[1]);
    MoreSends([SHUTDOWN_SENDS[0]], [SHUTDOWN_SENDS[1]]);
  }

  lemma {:induction false} HandleFollows(l: Local, cmd: DeriveCommand)
    requires Agree(l)
    ensures FollowsOne(l, cmd, Handle(l, cmd).0, Handle(l, cmd).1)
  {
    hide FollowsOne;
    match cmd
    case Batch(events) =>
      if events == [] {
        EmptyBatchFollows(l);
      } else {
        BatchFollows(l, events);
      }
    case Tick(now) => TickFollows(l, now);
    case DeriveShutdown => ShutdownFollows(l);
  }

  lemma {:induction false} EmptyBatchFollows(l: Local)
    ensures FollowsOne(l, Batch([]), l, [])
  {
    NothingFollows(l, NO_TICKS);
    NoTicks(Batch([]));
  }

  // ---------- A run of commands ----------

  /** What a stage that started as `l0` is after some commands, and what it has sent: it has the focus of the
      last focus event, its engine has heard the signals and the ticks, every signal is stored and every
      focus hint forwarded, the snapshot stage has been told of the application and window now in front,
      every update tells the state truly, and every transition has its reason. */
  ghost predicate Follows(l0: Local, cmds: seq<DeriveCommand>, l: Local, sends: seq<Send>) {
    var events := FlatMap(RawIn, cmds);
    && l.lastFocus == LastFocus(l0.lastFocus, events)
    && l.engine == Run(EngineStep, l0.engine, HeardAll(l0.lastFocus, cmds)).0
    && FlatMap(StoredOf, sends) == FlatMap(SignalOnly, AllTold(l0.lastFocus, events))
    && FlatMap(FocusHintOnly, FlatMap(HintOf, sends)) == FlatMap(HintOnly, AllTold(l0.lastFocus, events))
    && PlaceTold(PlaceOf(l0.lastFocus), sends) == PlaceOf(l.lastFocus)
    && FlatMap(Mistold, sends) == []
    && Explained(TicksIn(cmds), sends)
  }

  lemma {:induction false} TicksInMore(cmds: seq<DeriveCommand>, cmd: DeriveCommand)
    ensures TicksIn(cmds + [cmd]) == TicksIn(cmds) + TicksIn([cmd])
  {
    var all := cmds + [cmd];
    assert all[|cmds|] == cmd == [cmd][0];
    assert forall i :: 0 <= i < |cmds| ==> all[i] == cmds[i];
  }

  lemma {:induction false} FollowsMore(l0: Local, cmds: seq<DeriveCommand>, mid: Local, sends: seq<Send>,
                                       cmd: DeriveCommand, l: Local, more: seq<Send>)
    requires Follows(l0, cmds, mid, sends) && FollowsOne(mid, cmd, l, more)
    ensures Follows(l0, cmds + [cmd], l, sends + more)
  {
    hide FlatMap, Run, PlaceTold, LastFocus, AllTold, Explained, TicksIn, HeardIn, Fold, EngineStep;
    var events := FlatMap(RawIn, cmds);
    FlatMapAppend(RawIn, cmds, cmd);
    LastFocusConcat(l0.lastFocus, events, RawIn(cmd));
    HeardMore(l0.lastFocus, cmds, cmd);
    RunConcat(EngineStep, l0.engine, HeardAll(l0.lastFocus, cmds), HeardIn(mid.lastFocus, cmd));
    MoreSends(sends, more);
    var told, toldMore := AllTold(l0.lastFocus, events), AllTold(mid.lastFocus, RawIn(cmd));
    FlatMapConcat(SignalOnly, told, toldMore);
    FlatMapConcat(HintOnly, told, toldMore);
    FlatMapConcat(FocusHintOnly, FlatMap(HintOf, sends), FlatMap(HintOf, more));
    TicksInMore(cmds, cmd);
    ExplainedConcat(TicksIn(cmds), sends, TicksIn([cmd]), more);
  }

  lemma {:induction false} HeardMore(before: Option<Focus>, cmds: seq<DeriveCommand>, cmd: DeriveCommand)
    ensures HeardAll(before, cmds + [cmd])
            == HeardAll(before, cmds) + HeardIn(LastFocus(before, FlatMap(RawIn, cmds)), cmd)
  {
    assert (cmds + [cmd])[..|cmds|] == cmds;
  }

  /** Over every run of the stage, from any state in which the four notions of "locked" agree. */
  lemma {:induction false} RunFollows(l0: Local, cmds: seq<DeriveCommand>)
    requires Agree(l0)
    ensures Follows(l0, cmds, Run(Handle, l0, cmds).0, Run(Handle, l0, cmds).1)
  {
    hide Follows, FollowsOne, Sound;
    if cmds == [] {
      StartFollows(l0);
    } else {
      var init, cmd := cmds[..|cmds| - 1], cmds[|cmds| - 1];
      RunFollows(l0, init);
      var (mid, sends) := Run(Handle, l0, init);
      RunAgrees(l0, init);
      HandleFollows(mid, cmd);
      FollowsMore(l0, init, mid, sends, cmd, Handle(mid, cmd).0, Handle(mid, cmd).1);
      assert init + [cmd] == cmds;
    }
  }

  lemma {:induction false} RunAgrees(l0: Local, cmds: seq<DeriveCommand>)
    requires Agree(l0)
    ensures Agree(Run(Handle, l0, cmds).0)
  {
    RunSound(l0, cmds);
  }

  lemma {:induction false} StartFollows(l: Local)
    ensures Follows(l, [], l, [])
  {
    NothingFollows(l, NO_TICKS);
    assert TicksIn([]) == NO_TICKS;
  }

  /** The snapshot stage never waits for news: what a command tells it is published at the end of that command. */
  lemma {:induction false} UpdatesArePublished(l: Local, cmd: DeriveCommand, i: nat)
    requires var sends := Handle(l, cmd).1; i < |sends| && sends[i].ToSnapshot? && sends[i].snapshot.Update?
    ensures var sends := Handle(l, cmd).1; sends[|sends| - 1] == ToSnapshot(Publish)
  {
  }
}
