/** What the snapshot stage shows of state and focus, over every run of messages. */
module SnapshotShows {
  import opened Wrappers
  import opened Events
  import opened Mealy
  import opened Seqs
  import opened RecordBuilder
  import opened PipelineTypes
  import opened EventChain
  import opened Telling
  import opened SnapshotStage

  /** What is published shows the state that the last transition led to. */
  predicate Right(p: Published) {
    p.lastTransition.Some? ==> p.state == p.lastTransition.value.to
  }

  function LastOf(bus: seq<Transition>): Option<Transition> {
    if bus == [] then None else Some(bus[|bus| - 1])
  }

  function StoredTransition(m: Send): seq<Transition> {
    match m case ToStorage(TransitionCmd(t)) => [t] case _ => []
  }

  /** The transitions told, stamped with the run they belong to. */
  function Stamps(runId: Option<string>): Send -> seq<Transition> {
    (m: Send) => match m
      case ToSnapshot(Update(u)) =>
        if u.transition.Some? then [u.transition.value.(runId := runId)] else []
      case _ => []
  }

  /** What the stage knows, after some messages whose updates tell the state truly: the last transition is the
      last on the bus and led to the state it knows, which is where the moves told lead; the window in front
      is the one last told; all it ever published was right; and it has stored each transition told, stamped. */
  ghost predicate Shows(snap0: Snap, runId: Option<string>, snap: Snap, trace: seq<Send>, taken: seq<Send>) {
    FlatMap(Mistold, taken) == [] ==>
      && snap.lastTransition == LastOf(snap.bus)
      && (snap.lastTransition.Some? ==> snap.state == snap.lastTransition.value.to)
      && snap.state == Reached(snap0.state, FlatMap(UpdateMoveOf, taken))
      && PlaceOf(snap.focus) == PlaceTold(None, taken)
      && (forall i :: 0 <= i < |snap.published| ==> Right(snap.published[i]))
      && FlatMap(StoredTransition, trace) == FlatMap(Stamps(runId), taken)
      && (snap.storageShutdownSent ==> snap.published != [] && Current(snap, snap.published[|snap.published| - 1]))
  }

  /** The snapshot shows what the stage knows now. */
  predicate Current(snap: Snap, p: Published) {
    p.state == snap.state && p.focus == snap.focus && p.lastTransition == snap.lastTransition
  }

  lemma {:induction false} StartShows(cfg: Config, records: seq<Record>, transitions: seq<Transition>, now: Time)
    ensures var snap0 := NewSnap(cfg, records, transitions, now);
            Shows(snap0, cfg.runId, snap0, [], [])
  {
  }

  lemma {:induction false} TellMore(taken: seq<Send>, m: Send)
    ensures FlatMap(Mistold, taken + [m]) == FlatMap(Mistold, taken) + Mistold(m)
    ensures FlatMap(UpdateMoveOf, taken + [m]) == FlatMap(UpdateMoveOf, taken) + UpdateMoveOf(m)
    ensures forall runId :: FlatMap(Stamps(runId), taken + [m]) == FlatMap(Stamps(runId), taken) + Stamps(runId)(m)
    ensures PlaceTold(None, taken + [m]) == PlaceSent(PlaceTold(None, taken), m)
  {
    assert (taken + [m])[..|taken|] == taken;
  }

  lemma {:induction false} ReachedMore(from: ActivityState, moves: seq<Move>, more: seq<Move>)
    requires |more| <= 1
    ensures Reached(from, moves + more) == if more == [] then Reached(from, moves) else more[0].to
  {
    assert more == [] ==> moves + more == moves;
  }

  /** One update. */
  lemma {:induction false} UpdateShows(snap0: Snap, runId: Option<string>, snap: Snap, trace: seq<Send>,
                                       taken: seq<Send>, u: SnapshotUpdate)
    requires Shows(snap0, runId, snap, trace, taken) && !snap.storageShutdownSent
    ensures var (snap', sends) := ApplyUpdate(snap, u, runId);
            Shows(snap0, runId, snap', trace + sends, taken + [ToSnapshot(Update(u))])
  {
    hide FlatMap, PlaceTold, Reached, Saturate;
    var m := ToSnapshot(Update(u));
    TellMore(taken, m);
    ReachedMore(snap0.state, FlatMap(UpdateMoveOf, taken), UpdateMoveOf(m));
    var sends := ApplyUpdate(snap, u, runId).1;
    FlatMapConcat(StoredTransition, trace, sends);
    FlatMapNone(StoredTransition);
    if sends != [] {
      FlatMapOne(StoredTransition, sends[0]);
      assert sends == [sends[0]];
    }
  }

  /** A message that is not an update tells nothing new. */
  lemma {:induction false} OtherTells(taken: seq<Send>, m: Send, runId: Option<string>)
    requires m.ToSnapshot? && !m.snapshot.Update?
    ensures FlatMap(Mistold, taken + [m]) == FlatMap(Mistold, taken)
    ensures FlatMap(UpdateMoveOf, taken + [m]) == FlatMap(UpdateMoveOf, taken)
    ensures FlatMap(Stamps(runId), taken + [m]) == FlatMap(Stamps(runId), taken)
    ensures PlaceTold(None, taken + [m]) == PlaceTold(None, taken)
  {
    TellMore(taken, m);
  }

  /** Publishing, and perhaps shutting storage down with it. */
  lemma {:induction false} PublishShows(snap0: Snap, runId: Option<string>, snap: Snap, trace: seq<Send>,
                                        taken: seq<Send>, snap': Snap, sends: seq<Send>)
    requires Shows(snap0, runId, snap, trace, taken)
    requires snap'.lastTransition == snap.lastTransition && snap'.bus == snap.bus && snap'.state == snap.state
             && snap'.focus == snap.focus
    requires || snap'.published == snap.published
             || exists p :: snap'.published == snap.published + [p] && Current(snap, p)
    requires snap'.storageShutdownSent ==> snap'.published != []
                                           && Current(snap', snap'.published[|snap'.published| - 1])
    requires FlatMap(StoredTransition, trace + sends) == FlatMap(StoredTransition, trace)
    ensures Shows(snap0, runId, snap', trace + sends, taken)
  {
    hide FlatMap, PlaceTold, Reached;
  }

  lemma {:induction false} MessageShows(snap0: Snap, cfg: Config, snap: Snap, trace: seq<Send>, taken: seq<Send>,
                                        msg: SnapshotMessage, now: Time)
    requires Shows(snap0, cfg.runId, snap, trace, taken) && !snap.storageShutdownSent
    ensures var (snap', sends) := HandleMessage(snap, cfg, msg, now);
            Shows(snap0, cfg.runId, snap', trace + sends, taken + [ToSnapshot(msg)])
  {
    if msg.Update? {
      UpdateShows(snap0, cfg.runId, snap, trace, taken, msg.update);
    } else {
      QuietMessage(snap, cfg, msg, now);
      var (snap', sends) := HandleMessage(snap, cfg, msg, now);
      hide FlatMap, Shows, HandleMessage, Current;
      NoTransition(trace, sends);
      PublishShows(snap0, cfg.runId, snap, trace, taken, snap', sends);
      OtherTells(taken, ToSnapshot(msg), cfg.runId);
      SameShows(snap0, cfg.runId, snap', trace + sends, taken, taken + [ToSnapshot(msg)]);
    }
  }

  lemma {:induction false} SameShows(snap0: Snap, runId: Option<string>, snap: Snap, trace: seq<Send>,
                                     taken: seq<Send>, taken': seq<Send>)
    requires Shows(snap0, runId, snap, trace, taken)
    requires FlatMap(Mistold, taken') == FlatMap(Mistold, taken)
    requires FlatMap(UpdateMoveOf, taken') == FlatMap(UpdateMoveOf, taken)
    requires FlatMap(Stamps(runId), taken') == FlatMap(Stamps(runId), taken)
    requires PlaceTold(None, taken') == PlaceTold(None, taken)
    ensures Shows(snap0, runId, snap, trace, taken')
  {
  }

  lemma {:induction false} NoTransition(trace: seq<Send>, sends: seq<Send>)
    requires sends == [] || sends == [ToStorage(StorageShutdown)]
    ensures FlatMap(StoredTransition, trace + sends) == FlatMap(StoredTransition, trace)
  {
    if sends == [] {
      assert trace + sends == trace;
    } else {
      FlatMapAppend(StoredTransition, trace, ToStorage(StorageShutdown));
    }
  }

  /** Exactly a publish and the final shutdown put a snapshot on the bus, and it shows what is known then. */
  lemma {:induction false} QuietMessage(snap: Snap, cfg: Config, msg: SnapshotMessage, now: Time)
    requires !msg.Update? && !snap.storageShutdownSent
    ensures var (snap', sends) := HandleMessage(snap, cfg, msg, now);
            && snap'.lastTransition == snap.lastTransition && snap'.bus == snap.bus && snap'.state == snap.state
            && snap'.focus == snap.focus
            && (sends == [] || sends == [ToStorage(StorageShutdown)])
            && (if msg.Publish? || snap'.storageShutdownSent
                then |snap'.published| == |snap.published| + 1
                     && snap'.published[..|snap.published|] == snap.published
                     && Current(snap, snap'.published[|snap.published|])
                     && snap'.published == snap.published + [snap'.published[|snap.published|]]
                else snap'.published == snap.published)
            && (snap'.storageShutdownSent ==> Current(snap', snap'.published[|snap'.published| - 1]))
  {
    hide EndOf, Prune;
  }

  lemma {:induction false} GoneShows(snap0: Snap, cfg: Config, snap: Snap, trace: seq<Send>, taken: seq<Send>,
                                     now: Time)
    requires Shows(snap0, cfg.runId, snap, trace, taken) && !snap.storageShutdownSent
    ensures var (snap', sends) := Disconnect(snap, cfg, now);
            Shows(snap0, cfg.runId, snap', trace + sends, taken)
  {
    var (snap', sends) := Disconnect(snap, cfg, now);
    NoTransition(trace, sends);
    assert snap'.published == snap.published + [snap'.published[|snap.published|]];
    PublishShows(snap0, cfg.runId, snap, trace, taken, snap', sends);
  }

  // ---------- The window last told ----------

  function PlacesTold(m: Send): seq<Option<Place>> {
    match m case ToSnapshot(Update(u)) => if u.focus.Some? then [PlaceOf(u.focus)] else [] case _ => []
  }

  lemma {:induction false} PlaceIsLastTold(place: Option<Place>, sends: seq<Send>)
    ensures var places := FlatMap(PlacesTold, sends);
            PlaceTold(place, sends) == if places == [] then place else places[|places| - 1]
  {
    if sends != [] {
      PlaceIsLastTold(place, sends[..|sends| - 1]);
    }
  }
}
