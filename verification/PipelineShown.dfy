/** From end to end: what is shown and stored, told from the commands that ingest delivered. */
module PipelineShown {
  import opened Wrappers
  import opened Events
  import opened Mealy
  import opened Seqs
  import opened StateEngine
  import opened RecordBuilder
  import opened PipelineTypes
  import opened Pipeline
  import opened PipelineInvariant
  import opened PipelineSafety
  import opened PipelineProgress
  import opened EventChain
  import opened RawToEnvelopes
  import opened Telling
  import opened SnapshotShows
  import opened PipelineOutcome
  import ES = EnvelopeStage
  import SS = SnapshotStage

  /** The raw events in the commands that the envelope thread has taken. */
  function Delivered(s: Net): seq<RawEvent> {
    FlatMap(RawIn, Commands(s))
  }

  /** The envelope thread, in every reachable state. */
  lemma {:induction false} EnvelopeFollows(u: Setup, s: Net)
    requires Fresh(u) && Reachable(u, s)
    ensures Follows(u.local0, Commands(s), s.local, s.envelope.trace)
  {
    hide Follows, Inv, HintsContent, SnapContent, Logs, ES.Handle, Run;
    ReachableContent(u, s);
    FreshAgrees(u);
    RunFollows(u.local0, Commands(s));
  }

  /** In every reachable state the engine is what the signals and ticks of the commands taken have made of it. */
  lemma {:induction false} EngineFollows(u: Setup, s: Net, start: Time, grace: int, idle: int)
    requires Fresh(u) && Reachable(u, s) && u.local0.engine == NewEngine(start, grace, idle)
    ensures var state, evs := s.local.engine.current, HeardAll(None, Commands(s));
            var heard, sign := LastMattering(false, evs), LastActivity(start, false, evs);
            && s.local.lastFocus == LastFocus(None, Delivered(s))
            && (heard.None? ==> state == Inactive)
            && (heard.Some? ==>
                  var age := NumSeconds(heard.value - sign);
                  && (state == Locked <==> LockedAfter(false, evs))
                  && (state == Active <==> !LockedAfter(false, evs) && age <= grace)
                  && (state == Passive <==> !LockedAfter(false, evs) && grace < age <= idle))
  {
    hide Reachable, HeardAll, FlatMap, Run, LastMattering, LastActivity, LockedAfter;
    EnvelopeFollows(u, s);
    StateFromEvents(start, grace, idle, HeardAll(None, Commands(s)));
  }

  // ---------- All updates tell the state truly ----------

  lemma {:induction false} NothingInFront<B>(f: Send -> seq<B>, xs: seq<Send>, ys: seq<Send>)
    requires FlatMap(f, xs + ys) == []
    ensures FlatMap(f, xs) == []
  {
    FlatMapConcat(f, xs, ys);
  }

  lemma {:induction false} MsgsConcat(xs: seq<Entry>, ys: seq<Entry>)
    ensures Msgs(xs + ys) == Msgs(xs) + Msgs(ys)
    decreases |ys|
  {
    if ys == [] {
      assert xs + ys == xs;
    } else {
      MsgsConcat(xs, ys[..|ys| - 1]);
      assert (xs + ys)[..|xs + ys| - 1] == xs + ys[..|ys| - 1];
    }
  }

  lemma {:induction false} OnlyEnvelopeTells(s: Net)
    requires Locals(s)
    ensures OnlySeen(Mistold, EnvelopeThread, s.snapshot.log)
  {
    assert GoodChannel(SnapshotChan, ChannelOf(s, SnapshotChan));
  }

  lemma {:induction false} EnvelopeLog(s: Net)
    requires Logs(s)
    ensures s.envelope.sent <= |s.envelope.trace|
            && By(EnvelopeThread, s.snapshot.log) == On(SnapshotChan, s.envelope.trace[..s.envelope.sent])
  {
    assert LogOf(s, EnvelopeThread, SnapshotChan);
  }

  lemma {:induction false} TracesTell(s: Net)
    requires Locals(s) && Logs(s) && FlatMap(Mistold, s.envelope.trace) == []
    ensures FlatMap(Mistold, Msgs(s.snapshot.Taken())) == []
  {
    hide Locals, Logs, FlatMap, By, On;
    OnlyEnvelopeTells(s);
    EnvelopeLog(s);
    var sent, log, k := s.envelope.trace[..s.envelope.sent], s.snapshot.log, s.snapshot.taken;
    assert s.envelope.trace == sent + s.envelope.trace[s.envelope.sent..];
    NothingInFront(Mistold, sent, s.envelope.trace[s.envelope.sent..]);
    SeenBy(Mistold, EnvelopeThread, log);
    SeenOn(Mistold, SnapshotChan, sent);
    if k <= |log| {
      assert log == log[..k] + log[k..];
      MsgsConcat(log[..k], log[k..]);
      NothingInFront(Mistold, Msgs(log[..k]), Msgs(log[k..]));
    }
  }

  /** In every reachable state: the last transition is the last on the bus, the state shown is the one it led to,
      and so it was in every snapshot ever published. */
  lemma {:induction false} ShownStateIsRight(u: Setup, s: Net)
    requires Fresh(u) && Reachable(u, s)
    ensures FlatMap(Mistold, Msgs(s.snapshot.Taken())) == []
    ensures Shows(u.Snap0(), u.cfg.runId, s.snap, s.snapper.trace, Msgs(s.snapshot.Taken()))
    ensures s.snap.lastTransition == LastOf(s.snap.bus)
            && (s.snap.bus != [] ==> s.snap.state == s.snap.bus[|s.snap.bus| - 1].to)
    ensures forall i :: 0 <= i < |s.snap.published| ==>
              var p := s.snap.published[i]; p.lastTransition.Some? ==> p.state == p.lastTransition.value.to
  {
    hide Reachable, Fresh, Stops, Marks, Flags, Keeper, HintsContent, EnvelopeContent, Logs, Locals, FlatMap;
    ReachableContent(u, s);
    EnvelopeFollows(u, s);
    TracesTell(s);
    assert forall i :: 0 <= i < |s.snap.published| ==> Right(s.snap.published[i]);
  }

  // ---------- The end ----------

  lemma {:induction false} AllDelivered(u: Setup, s: Net)
    requires Fresh(u) && Reachable(u, s) && Final(s)
    ensures Commands(s) == FlatMap(CommandOf, Msgs(s.derive.log))
  {
    ReachableHolds(u, s);
    assert PortOf(s, EnvelopeThread).phase.Exited?;
    assert s.derive.log[..|s.derive.log|] == s.derive.log;
  }

  lemma {:induction false} PlacesShown(log: seq<Entry>, trace: seq<Send>)
    requires AllowedLog(log) && By(EnvelopeThread, log) == On(SnapshotChan, trace)
    ensures PlaceTold(None, Msgs(log)) == PlaceTold(None, trace)
  {
    SeenBy(PlacesTold, EnvelopeThread, log);
    SeenOn(PlacesTold, SnapshotChan, trace);
    PlaceIsLastTold(None, Msgs(log));
    PlaceIsLastTold(None, trace);
  }

  lemma {:induction false} SettledShows(u: Setup, s: Net)
    requires Settled(u, s) && FlatMap(Mistold, Msgs(s.snapshot.log)) == []
    ensures s.snap.published != []
    ensures var p := s.snap.published[|s.snap.published| - 1];
            && p.state == Reached(u.Snap0().state, FlatMap(UpdateMoveOf, Msgs(s.snapshot.log)))
            && PlaceOf(p.focus) == PlaceTold(None, Msgs(s.snapshot.log))
    ensures FlatMap(StoredTransition, s.snapper.trace) == FlatMap(Stamps(u.cfg.runId), Msgs(s.snapshot.log))
    ensures AllowedLog(s.snapshot.log) && By(EnvelopeThread, s.snapshot.log) == On(SnapshotChan, s.envelope.trace)
  {
    hide FlatMap, PlaceTold, Reached, Sound, SettledStorage, SettledHints, By, On, AllowedLog, PlaceOf;
  }

  lemma {:induction false} FinalTaken(u: Setup, s: Net)
    requires Fresh(u) && Reachable(u, s) && Final(s)
    ensures s.snapshot.Taken() == s.snapshot.log
  {
    ReachableHolds(u, s);
    FinalDrained(s);
  }

  /** The last snapshot shows the application and window of the last focus event delivered; and the state the
      last move led to, or the one hydrated if the engine never moved. */
  lemma {:induction false} ShownAtTheEnd(u: Setup, s: Net)
    requires Fresh(u) && Reachable(u, s) && Final(s)
    ensures s.snap.published != []
    ensures var p := s.snap.published[|s.snap.published| - 1];
            && PlaceOf(p.focus) == PlaceOf(LastFocus(None, Delivered(s)))
            && p.state == if FlatMap(MoveOfEnvelope, AllHints(s)) == [] then u.Snap0().state
                          else s.local.engine.current
  {
    hide Reachable, Fresh, Final, Settled, FlatMap, PlaceTold, By, On, AllowedLog, PlaceOf, LastFocus, Shows;
    ShownStateIsRight(u, s);
    FinalTaken(u, s);
    AtTheEnd(u, s);
    SettledShows(u, s);
    PlacesShown(s.snapshot.log, s.envelope.trace);
    EnvelopeFollows(u, s);
    FreshPlace(u);
    TransitionsAtTheEnd(u, s);
    MovesTold(u, s);
  }

  lemma {:induction false} FreshPlace(u: Setup)
    requires Fresh(u)
    ensures u.local0.lastFocus == None && PlaceOf(u.local0.lastFocus) == None
  {
  }

  lemma {:induction false} MovesTold(u: Setup, s: Net)
    requires Settled(u, s)
    ensures FlatMap(UpdateMoveOf, Msgs(s.snapshot.log)) == FlatMap(MoveOfEnvelope, AllHints(s))
  {
    hide FlatMap, By, On, AllowedLog, SettledStorage, SettledHints, SnapFacts, GoodHints, CutAfter;
    ShownMoves(s.snapshot.log, s.envelope.trace);
    MovesOfHints(s.envelope.trace);
  }

  /** So the last snapshot shows the engine's state exactly if the engine has moved, or the hydrated state happens
      to be the one that every engine starts in. */
  lemma {:induction false} EngineShownIff(u: Setup, s: Net)
    requires Fresh(u) && Reachable(u, s) && Final(s)
    ensures s.snap.published != []
    ensures s.snap.published[|s.snap.published| - 1].state == s.local.engine.current
       <==> FlatMap(MoveOfEnvelope, AllHints(s)) != [] || u.Snap0().state == Inactive
  {
    hide Reachable, Fresh, Final, FlatMap;
    ShownAtTheEnd(u, s);
    TransitionsAtTheEnd(u, s);
  }

  lemma {:induction false} InputsOfSignals(envs: seq<Envelope>)
    ensures FlatMap(InputOnly, FlatMap(SignalOnly, envs)) == FlatMap(InputOnly, envs)
  {
    if envs != [] {
      var init, env := envs[..|envs| - 1], envs[|envs| - 1];
      InputsOfSignals(init);
      FlatMapConcat(InputOnly, FlatMap(SignalOnly, init), SignalOnly(env));
      if env.kind.Signal? {
        FlatMapOne(InputOnly, env);
      }
    }
  }

  /** At the end of every run, storage holds each keystroke and mouse event that ingest delivered while the login
      window was not in front, once and in order, with its id, time and data; and the hints about the focus,
      each of which opened or renamed a record, are exactly those due to the focus events delivered. */
  lemma {:induction false} RawEventsAtTheEnd(u: Setup, s: Net)
    requires Fresh(u) && Reachable(u, s) && Final(s)
    ensures Commands(s) == FlatMap(CommandOf, Msgs(s.derive.log))
    ensures FlatMap(InputOnly, FlatMap(StoredOf, By(EnvelopeThread, s.stored))) == InputsArriving(None, Delivered(s))
    ensures FlatMap(FocusHintOnly, AllHints(s)) == HintsDue(None, Delivered(s))
  {
    hide Reachable, Fresh, Final, FlatMap, By, AllTold, InputsArriving, HintsDue, FollowsHints, Numbered;
    AllDelivered(u, s);
    EnvelopeFollows(u, s);
    FreshPlace(u);
    var _ := RecordsAtTheEnd(u, s);
    var told := AllTold(None, Delivered(s));
    InputsOfSignals(told);
    InputsPass(None, Delivered(s));
    HintsPass(None, Delivered(s));
  }

  // ---------- The transitions stored ----------

  lemma {:induction false} StampedTold(runId: Option<string>, sends: seq<Send>, t: Transition)
    requires t in FlatMap(Stamps(runId), sends)
    ensures t.runId == runId && exists told :: told in FlatMap(TransitionTold, sends) && t == told.(runId := runId)
  {
    var init, m := sends[..|sends| - 1], sends[|sends| - 1];
    if t in FlatMap(Stamps(runId), init) {
      StampedTold(runId, init, t);
      var told :| told in FlatMap(TransitionTold, init) && t == told.(runId := runId);
      assert told in FlatMap(TransitionTold, sends);
    } else {
      assert t in Stamps(runId)(m);
      var told := m.snapshot.update.transition.value;
      assert told in TransitionTold(m) && told in FlatMap(TransitionTold, sends);
    }
  }

  lemma {:induction false} TransitionsTold(log: seq<Entry>, trace: seq<Send>)
    requires AllowedLog(log) && By(EnvelopeThread, log) == On(SnapshotChan, trace)
    ensures FlatMap(TransitionTold, Msgs(log)) == FlatMap(TransitionTold, trace)
  {
    SeenBy(TransitionTold, EnvelopeThread, log);
    SeenOn(TransitionTold, SnapshotChan, trace);
  }

  lemma {:induction false} TransitionsKept(log: seq<Entry>, k: nat, trace: seq<Send>)
    requires LateOnly(log, k) && AllowedLog(log) && By(SnapshotThread, log) == On(StorageChan, trace)
    ensures FlatMap(StoredTransition, Msgs(log[..k])) == FlatMap(StoredTransition, trace)
  {
    Kept(StoredTransition, SnapshotThread, StorageChan, log, k, trace);
  }

  lemma {:induction false} SettledKeeps(u: Setup, s: Net)
    requires Settled(u, s)
    ensures FlatMap(StoredTransition, Msgs(s.stored)) == FlatMap(StoredTransition, s.snapper.trace)
  {
    hide FlatMap, By, On, AllowedLog, SettledSnapshot, SettledHints, SnapFacts, Sound, LateOnly;
    TransitionsKept(s.storage.log, |s.stored|, s.snapper.trace);
  }

  /** At the end of every run, each stored transition names the run, and the signal that caused it, stored with the
      transition's time, or the idle timeout and a tick at that time. */
  lemma {:induction false} TransitionsAreExplained(u: Setup, s: Net, t: Transition)
    requires Fresh(u) && Reachable(u, s) && Final(s) && t in FlatMap(StoredTransition, Msgs(s.stored))
    ensures t.runId == u.cfg.runId
    ensures || (t.bySignal == Some(IdleTimeout) && t.at in TicksIn(Commands(s)))
            || exists env :: env in FlatMap(StoredOf, s.envelope.trace) && Causes(env, t)
  {
    hide Reachable, Fresh, Final, Settled, FlatMap, By, On, AllowedLog, Shows, TicksIn;
    ShownStateIsRight(u, s);
    FinalTaken(u, s);
    AtTheEnd(u, s);
    SettledShows(u, s);
    SettledKeeps(u, s);
    StampedTold(u.cfg.runId, Msgs(s.snapshot.log), t);
    TransitionsTold(s.snapshot.log, s.envelope.trace);
    EnvelopeFollows(u, s);
    var told :| told in FlatMap(TransitionTold, Msgs(s.snapshot.log)) && t == told.(runId := u.cfg.runId);
    if !(told.bySignal == Some(IdleTimeout) && told.at in TicksIn(Commands(s))) {
      var env :| env in FlatMap(StoredOf, s.envelope.trace) && Causes(env, told);
      assert Causes(env, t);
    }
  }
}
