/** The remaining steps keep the invariant, so it holds in every reachable state; and what that
    says about the storage queue. */
module PipelineSafety {
  import opened Events
  import opened RecordBuilder
  import opened PipelineTypes
  import opened Pipeline
  import opened PipelineInvariant
  import ES = EnvelopeStage
  import HS = HintsStage
  import SS = SnapshotStage

  lemma {:induction false} LocalsFrame(s: Net, s': Net)
    requires Locals(s)
    requires s' == s.(local := s'.local, hintsLocal := s'.hintsLocal, snap := s'.snap, stored := s'.stored)
    ensures Locals(s')
  {
    assert forall t: Thread :: PortOf(s', t) == PortOf(s, t);
    assert forall c: Chan :: ChannelOf(s', c) == ChannelOf(s, c);
  }

  /** Taking a message and deciding what to send keeps the local conditions. */
  lemma {:induction false} ReceiveLocals(s: Net, c: Chan, p: Port, s': Net)
    requires Locals(s) && CanReceive(s, c) && GoodPort(Owner(c), p)
    requires s' == WithChannel(WithPort(s, Owner(c), p), c, Take(ChannelOf(s, c))).(
                     local := s'.local, hintsLocal := s'.hintsLocal, snap := s'.snap, stored := s'.stored)
    ensures Locals(s')
  {
    hide GoodPort, GoodTrace, Plain;
    PortChange(s, Owner(c), p);
    var s1 := WithPort(s, Owner(c), p);
    assert GoodChannel(c, ChannelOf(s, c)) && ChannelOf(s1, c) == ChannelOf(s, c);
    ChannelChange(s1, c, Take(ChannelOf(s, c)));
    LocalsFrame(WithChannel(s1, c, Take(ChannelOf(s, c))), s');
  }

  /** A mark that is the last word of a channel's only sender is the end of the log. */
  lemma {:induction false} MarkIsLast(log: seq<Entry>, t: Thread, m: Send, i: nat)
    requires LastFrom(log, t, m) && i < |log| && log[i].msg == m
    requires forall j :: 0 <= j < |log| ==> log[j].sender == t
    ensures i == |log| - 1
  {
    assert log[|log| - 1].sender == t;
  }

  lemma {:induction false} ReceiveDeriveKeeps(u: Setup, s: Net)
    requires Inv(s) && Enabled(s, ReceiveDerive)
    ensures Inv(Apply(u, s, ReceiveDerive))
  {
    hide GoodTrace, Plain, ShutdownLast;
    var s' := Apply(u, s, ReceiveDerive);
    assert GoodChannel(DeriveChan, ChannelOf(s, DeriveChan)) && GoodPort(EnvelopeThread, PortOf(s, EnvelopeThread));
    var cmd := s.derive.log[s.derive.taken].msg.derive;
    var sends := ES.Handle(s.local, cmd).1;
    HandlePlain(s.local, cmd);
    if cmd.DeriveShutdown? {
      DecideGood(EnvelopeThread, s.envelope, [], sends, true);
      assert [] + sends == sends;
      MarkIsLast(s.derive.log, Ingest, ToDerive(DeriveShutdown), s.derive.taken);
    } else {
      DecideGood(EnvelopeThread, s.envelope, sends, [], false);
      assert sends + [] == sends;
    }
    ReceiveLocals(s, DeriveChan, s'.envelope, s');
  }

  lemma {:induction false} ReceiveHintKeeps(u: Setup, s: Net, closeAt: Time, openAt: Time)
    requires Inv(s) && Enabled(s, ReceiveHint(closeAt, openAt))
    ensures Inv(Apply(u, s, ReceiveHint(closeAt, openAt)))
  {
    hide GoodPort, Plain, Has, ShutdownLast, LastFrom;
    var s' := Apply(u, s, ReceiveHint(closeAt, openAt));
    assert GoodChannel(HintsChan, ChannelOf(s, HintsChan)) && GoodPort(HintsThread, PortOf(s, HintsThread));
    var h := TimedHint(s.hints.log[s.hints.taken].msg.env, closeAt, openAt);
    var sends := HS.HandleHint(s.hintsLocal.builder, h, u.cfg.runId).1;
    HintPlain(s.hintsLocal.builder, h, u.cfg.runId);
    DecideGood(HintsThread, s.hinter, sends, [], false);
    assert sends + [] == sends;
    ReceiveLocals(s, HintsChan, s'.hinter, s');
  }

  lemma {:induction false} ReceiveCompressionKeeps(u: Setup, s: Net, compact: seq<nat>)
    requires Inv(s) && Enabled(s, ReceiveCompression(compact))
    ensures Inv(Apply(u, s, ReceiveCompression(compact)))
  {
    hide GoodTrace, Plain, ShutdownLast, Forwarded;
    var s' := Apply(u, s, ReceiveCompression(compact));
    assert GoodChannel(CompressionChan, ChannelOf(s, CompressionChan))
           && GoodPort(CompressionThread, PortOf(s, CompressionThread));
    if s.compression.log[s.compression.taken].msg == ToCompression(CompressionShutdown) {
      DecideGood(CompressionThread, s.compressor, [], [], true);
      MarkIsLast(s.compression.log, EnvelopeThread, ToCompression(CompressionShutdown), s.compression.taken);
    } else {
      var m := s.compression.log[s.compression.taken].msg;
      var sends := Forwarded(u.persistRaw, m, compact);
      ForwardedPlain(u.persistRaw, m, compact);
      DecideGood(CompressionThread, s.compressor, sends, [], false);
      assert sends + [] == sends;
    }
    ReceiveLocals(s, CompressionChan, s'.compressor, s');
  }

  /** The finalization guard is exact: storage is shut down once, and precisely when both the
      shutdown request and the end of the hints have been seen. */
  lemma {:induction false} FinalizeExactly(snap: SS.Snap, cfg: SS.Config, msg: SnapshotMessage, now: Time)
    requires !snap.storageShutdownSent
    ensures var (snap', sends) := SS.HandleMessage(snap, cfg, msg, now);
            && snap'.shutdownRequested == (snap.shutdownRequested || msg.SnapshotShutdown?)
            && snap'.hintsComplete == (snap.hintsComplete || msg.HintsComplete?)
            && (snap'.storageShutdownSent <==>
                  (msg.SnapshotShutdown? || msg.HintsComplete?) && snap'.shutdownRequested && snap'.hintsComplete)
            && (if snap'.storageShutdownSent then sends == MarksOf(SnapshotThread) else Plain(SnapshotThread, sends))
  {
  }

  lemma {:induction false} SnapshotSenders(s: Net, j: nat)
    requires Locals(s) && j < |s.snapshot.log|
    ensures s.snapshot.log[j].msg.ToSnapshot?
    ensures s.snapshot.log[j].sender == EnvelopeThread || s.snapshot.log[j].sender == HintsThread
  {
    assert GoodChannel(SnapshotChan, ChannelOf(s, SnapshotChan));
  }

  /** With both marks taken the snapshot queue is empty for good. */
  lemma {:induction false} BothMarksDrain(s: Net, taken: seq<Entry>)
    requires Inv(s) && taken <= s.snapshot.log
    requires Has(taken, ToSnapshot(SnapshotShutdown)) && Has(taken, ToSnapshot(HintsComplete))
    ensures taken == s.snapshot.log && NearlySilent(s.envelope) && Silent(s.hinter)
  {
    var i :| 0 <= i < |taken| && taken[i].msg == ToSnapshot(SnapshotShutdown);
    var k :| 0 <= k < |taken| && taken[k].msg == ToSnapshot(HintsComplete);
    assert s.snapshot.log[i].msg == taken[i].msg && s.snapshot.log[k].msg == taken[k].msg;
    if |taken| < |s.snapshot.log| {
      SnapshotSenders(s, |taken|);
    }
  }

  lemma {:induction false} TakeNext(ch: Channel)
    requires ch.Pending()
    ensures Take(ch).Taken() == ch.Taken() + [ch.log[ch.taken]]
    ensures Take(ch).Taken() <= ch.log
  {
  }

  lemma {:induction false} ReceiveSnapshotKeeps(u: Setup, s: Net, now: Time)
    requires Inv(s) && Enabled(s, ReceiveSnapshot(now))
    ensures Inv(Apply(u, s, ReceiveSnapshot(now)))
  {
    hide GoodTrace, Plain, ShutdownLast, LastFrom, GoodChannel, SS.HandleMessage;
    var s' := Apply(u, s, ReceiveSnapshot(now));
    assert GoodPort(SnapshotThread, PortOf(s, SnapshotThread));
    SnapshotSenders(s, s.snapshot.taken);
    var e := s.snapshot.log[s.snapshot.taken];
    var (snap, sends) := SS.HandleMessage(s.snap, u.cfg, e.msg.snapshot, now);
    FinalizeExactly(s.snap, u.cfg, e.msg.snapshot, now);
    TakeNext(s.snapshot);
    HasPush(s.snapshot.Taken(), e, ToSnapshot(SnapshotShutdown));
    HasPush(s.snapshot.Taken(), e, ToSnapshot(HintsComplete));
    if snap.storageShutdownSent {
      DecideGood(SnapshotThread, s.snapper, [], sends, true);
      assert [] + sends == sends;
      BothMarksDrain(s, s'.snapshot.Taken());
    } else {
      DecideGood(SnapshotThread, s.snapper, sends, [], false);
      assert sends + [] == sends;
    }
    ReceiveLocals(s, SnapshotChan, s'.snapper, s');
  }

  lemma {:induction false} ReceiveStorageKeeps(u: Setup, s: Net)
    requires Inv(s) && Enabled(s, ReceiveStorage)
    ensures Inv(Apply(u, s, ReceiveStorage))
  {
    hide GoodPort, Plain, Has, ShutdownLast, LastFrom, GoodChannel;
    var s' := Apply(u, s, ReceiveStorage);
    assert GoodPort(StorageThread, PortOf(s, StorageThread));
    var e := s.storage.log[s.storage.taken];
    TakeNext(s.storage);
    HasPush(s.stored, e, ToStorage(StorageShutdown));
    if e.msg == ToStorage(StorageShutdown) {
      DecideGood(StorageThread, s.keeper, [], [], true);
    }
    ReceiveLocals(s, StorageChan, s'.keeper, s');
  }

  /** A sender whose end of a channel is gone has exited. */
  lemma {:induction false} GoneMeansExited(s: Net, t: Thread, c: Chan)
    requires Locals(s) && !t.Main? && c in EndsOf(t) && c !in PortOf(s, t).ends
    ensures PortOf(s, t).phase.Exited? && Silent(PortOf(s, t))
  {
    assert GoodPort(t, PortOf(s, t));
  }

  lemma {:induction false} InputGoneKeeps(u: Setup, s: Net, t: Thread, now: Time)
    requires Inv(s) && Enabled(s, Disconnected(t, now)) && (t.EnvelopeThread? || t.CompressionThread?)
    ensures Inv(Apply(u, s, Disconnected(t, now)))
  {
    hide GoodTrace, Plain, Has, ShutdownLast;
    var c := ChannelIn(t);
    assert GoodPort(t, PortOf(s, t)) && GoodChannel(c, ChannelOf(s, c));
    GoneMeansExited(s, if t.EnvelopeThread? then Ingest else EnvelopeThread, c);
    DecideGood(t, PortOf(s, t), [], [], true);
    PortChange(s, t, Decide(PortOf(s, t), [], true));
  }

  lemma {:induction false} HintsGoneKeeps(u: Setup, s: Net, now: Time)
    requires Inv(s) && Enabled(s, Disconnected(HintsThread, now))
    ensures Inv(Apply(u, s, Disconnected(HintsThread, now)))
  {
    hide GoodTrace, Plain, ShutdownLast, Has, LastFrom;
    var s' := Apply(u, s, Disconnected(HintsThread, now));
    assert GoodPort(HintsThread, PortOf(s, HintsThread)) && GoodChannel(HintsChan, ChannelOf(s, HintsChan));
    GoneMeansExited(s, EnvelopeThread, HintsChan);
    var report := HS.Report(Closed(s.hintsLocal.builder, now), u.cfg.runId);
    ReportPlain(Closed(s.hintsLocal.builder, now), u.cfg.runId);
    DecideGood(HintsThread, s.hinter, report, MarksOf(HintsThread), true);
    PortChange(s, HintsThread, s'.hinter);
    LocalsFrame(WithPort(s, HintsThread, s'.hinter), s');
  }

  lemma {:induction false} SnapshotGoneKeeps(u: Setup, s: Net, now: Time)
    requires Inv(s) && Enabled(s, Disconnected(SnapshotThread, now))
    ensures Inv(Apply(u, s, Disconnected(SnapshotThread, now)))
  {
    hide GoodTrace, Plain, ShutdownLast, LastFrom;
    var s' := Apply(u, s, Disconnected(SnapshotThread, now));
    assert GoodPort(SnapshotThread, PortOf(s, SnapshotThread)) && GoodChannel(SnapshotChan, ChannelOf(s, SnapshotChan));
    GoneMeansExited(s, EnvelopeThread, SnapshotChan);
    GoneMeansExited(s, HintsThread, SnapshotChan);
    DecideGood(SnapshotThread, s.snapper, [], MarksOf(SnapshotThread), true);
    assert [] + MarksOf(SnapshotThread) == MarksOf(SnapshotThread);
    PortChange(s, SnapshotThread, s'.snapper);
    LocalsFrame(WithPort(s, SnapshotThread, s'.snapper), s');
  }

  /** Storage never sees its channel disconnected: the shutdown command comes first. */
  lemma {:induction false} StorageNeverDisconnected(s: Net, now: Time)
    requires Inv(s)
    ensures !Enabled(s, Disconnected(StorageThread, now))
  {
    assert GoodChannel(StorageChan, ChannelOf(s, StorageChan));
    if Enabled(s, Disconnected(StorageThread, now)) {
      assert s.storage.Taken() == s.storage.log;
      GoneMeansExited(s, SnapshotThread, StorageChan);
      assert false;
    }
  }

  lemma {:induction false} DisconnectedKeeps(u: Setup, s: Net, t: Thread, now: Time)
    requires Inv(s) && Enabled(s, Disconnected(t, now))
    ensures Inv(Apply(u, s, Disconnected(t, now)))
  {
    hide Inv, Apply;
    match t
    case HintsThread => HintsGoneKeeps(u, s, now);
    case SnapshotThread => SnapshotGoneKeeps(u, s, now);
    case StorageThread => StorageNeverDisconnected(s, now);
    case _ => InputGoneKeeps(u, s, t, now);
  }

  lemma {:induction false} StepKeeps(u: Setup, s: Net, a: Action)
    requires Inv(s) && Enabled(s, a)
    ensures Inv(Apply(u, s, a))
  {
    hide Inv, Apply;
    match a
    case SendNext(t) => SendKeeps(u, s, t);
    case ReceiveDerive => ReceiveDeriveKeeps(u, s);
    case ReceiveHint(closeAt, openAt) => ReceiveHintKeeps(u, s, closeAt, openAt);
    case ReceiveCompression(compact) => ReceiveCompressionKeeps(u, s, compact);
    case ReceiveSnapshot(now) => ReceiveSnapshotKeeps(u, s, now);
    case ReceiveStorage => ReceiveStorageKeeps(u, s);
    case Disconnected(t, now) => DisconnectedKeeps(u, s, t, now);
    case Exit(t) => ExitKeeps(u, s, t);
    case DropSender(t, c) => DropKeeps(u, s, t, c);
    case CloseReceiver(c) => CloseKeeps(u, s, c);
    case _ => IngestKeeps(u, s, a);
  }

  lemma {:induction false} StartHolds(u: Setup)
    requires Fresh(u)
    ensures Inv(Start(u))
  {
    assert forall t: Thread :: !t.Main? ==> PortOf(Start(u), t) == NewPort(t);
    assert forall t: Thread :: NewPort(t).Unsent() == [];
    assert forall c: Chan :: ChannelOf(Start(u), c) == NEW_CHANNEL;
  }

  lemma {:induction false} RunKeeps(u: Setup, s: Net, run: seq<Action>, s': Net)
    requires Inv(s) && Leads(u, s, run, s')
    ensures Inv(s')
    decreases |run|
  {
    hide Inv, Apply, Enabled;
    if run != [] {
      StepKeeps(u, s, run[0]);
      RunKeeps(u, Apply(u, s, run[0]), run[1..], s');
    }
  }

  /** The invariant holds in every state of every interleaving. */
  lemma {:induction false} ReachableHolds(u: Setup, s: Net)
    requires Fresh(u) && Reachable(u, s)
    ensures Inv(s)
  {
    hide Inv, Fresh, Start, Leads;
    var run: seq<Action> :| Leads(u, Start(u), run, s);
    StartHolds(u);
    RunKeeps(u, Start(u), run, s);
  }

  /** In every reachable state storage has been sent at most one shutdown command; after it only
      raw and compact events of the compression thread arrive, and every record, envelope and
      transition is ahead of it. */
  lemma {:induction false} NothingAfterShutdown(u: Setup, s: Net, i: nat, j: nat)
    requires Fresh(u) && Reachable(u, s)
    requires i < |s.storage.log| && j < |s.storage.log| && i != j
    requires s.storage.log[i].msg == ToStorage(StorageShutdown)
    ensures j > i ==> s.storage.log[j].sender == CompressionThread
                      && s.storage.log[j].msg.ToStorage?
                      && (s.storage.log[j].msg.storage.RawEventCmd? || s.storage.log[j].msg.storage.CompactEventsCmd?)
    ensures s.storage.log[j].msg != ToStorage(StorageShutdown)
  {
    hide Marks, Stops, Flags, Reachable;
    ReachableHolds(u, s);
    assert GoodChannel(StorageChan, ChannelOf(s, StorageChan));
  }

  /** In no reachable state can a send fail, but for the compression thread's to storage: the exits
      that ingest and envelope take when a send fails are never taken. */
  lemma {:induction false} EarlyExitsAreNeverTaken(u: Setup, s: Net, t: Thread)
    requires Fresh(u) && Reachable(u, s) && PortOf(s, t).Unsent() != []
    ensures !ChannelOf(s, ChanOf(NextSend(s, t))).open ==>
              t.CompressionThread? && ChanOf(NextSend(s, t)) == StorageChan && !EndsLoopOnFailure(t, NextSend(s, t))
  {
    ReachableHolds(u, s);
    OnlyCompressionIsLost(s, t);
  }

  /** Once the shutdown command is in the queue, envelope, hints and snapshot thread have no
      send to storage left, now or later, whichever way the end came. */
  lemma {:induction false} NobodyElseSpeaksToStorage(u: Setup, s: Net, run: seq<Action>, s': Net, t: Thread)
    requires Fresh(u) && Reachable(u, s) && Leads(u, s, run, s')
    requires Has(s.storage.log, ToStorage(StorageShutdown))
    requires t.EnvelopeThread? || t.HintsThread? || t.SnapshotThread?
    ensures Has(s'.storage.log, ToStorage(StorageShutdown))
    ensures !PortOf(s', t).phase.Running?
    ensures forall m :: m in PortOf(s', t).Unsent() ==> !m.ToStorage?
    decreases |run|
  {
    hide Apply, Flags;
    ReachableHolds(u, s);
    if run != [] {
      StepKeeps(u, s, run[0]);
      LogOnlyGrows(u, s, run[0]);
      RunKeepsShutdown(u, Apply(u, s, run[0]), run[1..], s');
    }
  }

  lemma {:induction false} LogOnlyGrows(u: Setup, s: Net, a: Action)
    requires Enabled(s, a) && Has(s.storage.log, ToStorage(StorageShutdown))
    ensures Has(Apply(u, s, a).storage.log, ToStorage(StorageShutdown))
  {
    if a.SendNext? {
      var p := PortOf(s, a.t);
      HasPush(s.storage.log, Entry(a.t, p.trace[p.sent]), ToStorage(StorageShutdown));
    }
  }

  lemma {:induction false} RunKeepsShutdown(u: Setup, s: Net, run: seq<Action>, s': Net)
    requires Inv(s) && Leads(u, s, run, s') && Has(s.storage.log, ToStorage(StorageShutdown))
    ensures Inv(s') && Has(s'.storage.log, ToStorage(StorageShutdown))
    decreases |run|
  {
    hide Inv, Apply, Enabled, Has;
    if run != [] {
      StepKeeps(u, s, run[0]);
      LogOnlyGrows(u, s, run[0]);
      RunKeepsShutdown(u, Apply(u, s, run[0]), run[1..], s');
    }
  }
}
