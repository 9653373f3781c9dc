/** Once ingest has stopped, the whole pipeline comes to an end: it cannot run forever, and it
    cannot get stuck before everything has exited. */
module PipelineProgress {
  import opened Events
  import opened PipelineTypes
  import opened Pipeline
  import opened PipelineInvariant
  import opened PipelineSafety

  function PhaseRank(p: Phase): nat {
    match p case Running => 2 case Stopping => 1 case Exited => 0
  }

  function PortRank(p: Port): nat {
    PhaseRank(p.phase) + |p.ends|
  }

  function OpenRank(ch: Channel): nat {
    if ch.open then 1 else 0
  }

  /** Phases to go through and ends to give up. */
  function HandlesLeft(s: Net): nat {
    PortRank(s.ingest) + PortRank(s.envelope) + PortRank(s.hinter) + PortRank(s.compressor) + PortRank(s.snapper)
    + PortRank(s.keeper) + |s.spawner|
    + OpenRank(s.derive) + OpenRank(s.hints) + OpenRank(s.compression) + OpenRank(s.snapshot) + OpenRank(s.storage)
  }

  function Waiting(ch: Channel): nat {
    if ch.taken <= |ch.log| then |ch.log| - ch.taken else 0
  }

  /** What is left to do at level `k`: handles first, then upstream work before downstream. */
  function Left(s: Net, k: nat): nat {
    if k == 0 then HandlesLeft(s)
    else if k == 1 then |s.ingest.Unsent()|
    else if k == 2 then Waiting(s.derive)
    else if k == 3 then |s.envelope.Unsent()|
    else if k == 4 then Waiting(s.hints)
    else if k == 5 then |s.hinter.Unsent()|
    else if k == 6 then Waiting(s.compression)
    else if k == 7 then |s.compressor.Unsent()|
    else if k == 8 then Waiting(s.snapshot)
    else if k == 9 then |s.snapper.Unsent()|
    else Waiting(s.storage)
  }

  /** `s'` has less left to do than `s`, lexicographically. */
  predicate Lower(s': Net, s: Net) {
    exists k: nat :: k <= 10 && LowerAt(s', s, k)
  }

  predicate LowerAt(s': Net, s: Net, k: nat) {
    Left(s', k) < Left(s, k) && forall i: nat :: i < k ==> Left(s', i) == Left(s, i)
  }

  lemma {:induction false} DropLowers(u: Setup, s: Net, t: Thread, c: Chan)
    requires Enabled(s, DropSender(t, c))
    ensures Lower(Apply(u, s, DropSender(t, c)), s)
  {
    var ends := PortOf(s, t).ends;
    assert ends == (ends - {c}) + {c};
    assert LowerAt(Apply(u, s, DropSender(t, c)), s, 0);
  }

  lemma {:induction false} DeliveredLowers(s: Net, t: Thread)
    requires PortOf(s, t).Unsent() != [] && Allowed(t, NextSend(s, t))
    ensures Lower(Delivered(s, t), s)
  {
    var s' := Delivered(s, t);
    match t
    case Ingest => assert LowerAt(s', s, 1);
    case EnvelopeThread => assert LowerAt(s', s, 3);
    case HintsThread => assert LowerAt(s', s, 5);
    case CompressionThread => assert LowerAt(s', s, 7);
    case SnapshotThread => assert LowerAt(s', s, 9);
    case _ =>
  }

  lemma {:induction false} LostLowers(s: Net)
    requires s.compressor.Unsent() != []
    ensures Lower(s.(compressor := s.compressor.(sent := s.compressor.sent + 1)), s)
  {
    assert LowerAt(s.(compressor := s.compressor.(sent := s.compressor.sent + 1)), s, 7);
  }

  lemma {:induction false} SendLowers(u: Setup, s: Net, t: Thread)
    requires Inv(s) && Enabled(s, SendNext(t))
    ensures Lower(Apply(u, s, SendNext(t)), s)
  {
    OnlyCompressionIsLost(s, t);
    assert !t.Main? ==> GoodPort(t, PortOf(s, t));
    AdvanceGood(t, PortOf(s, t));
    DeliveredLowers(s, t);
    if t.CompressionThread? {
      LostLowers(s);
    }
  }

  lemma {:induction false} PhaseLowers(s: Net, t: Thread, p: Port)
    requires !t.Main? && PortRank(p) < PortRank(PortOf(s, t))
    ensures HandlesLeft(WithPort(s, t, p)) < HandlesLeft(s)
  {
  }

  function LevelOf(c: Chan): nat {
    match c
    case DeriveChan => 2
    case HintsChan => 4
    case CompressionChan => 6
    case SnapshotChan => 8
    case StorageChan => 10
  }

  /** Taking a message, deciding sends and perhaps stopping. */
  lemma {:induction false} TakeLowers(s: Net, c: Chan, p: Port, s': Net)
    requires ChannelOf(s, c).Pending() && p.phase == PortOf(s, Owner(c)).phase && p.ends == PortOf(s, Owner(c)).ends
    requires s' == WithChannel(WithPort(s, Owner(c), p), c, Take(ChannelOf(s, c))).(
                     local := s'.local, hintsLocal := s'.hintsLocal, snap := s'.snap, stored := s'.stored)
    ensures Lower(s', s)
  {
    assert HandlesLeft(s') == HandlesLeft(s);
    assert LowerAt(s', s, LevelOf(c));
  }

  lemma {:induction false} TakeStopLowers(s: Net, c: Chan, p: Port, s': Net)
    requires PortRank(p) < PortRank(PortOf(s, Owner(c)))
    requires s' == WithChannel(WithPort(s, Owner(c), p), c, Take(ChannelOf(s, c))).(
                     local := s'.local, hintsLocal := s'.hintsLocal, snap := s'.snap, stored := s'.stored)
    ensures Lower(s', s)
  {
    PhaseLowers(s, Owner(c), p);
    assert HandlesLeft(s') == HandlesLeft(WithPort(s, Owner(c), p));
    assert LowerAt(s', s, 0);
  }

  lemma {:induction false} ReceivedLowers(s: Net, c: Chan, s': Net)
    requires ChannelOf(s, c).Pending() && PortOf(s, Owner(c)).phase.Running?
             && PortOf(s', Owner(c)).ends == PortOf(s, Owner(c)).ends
    requires s' == WithChannel(WithPort(s, Owner(c), PortOf(s', Owner(c))), c, Take(ChannelOf(s, c))).(
                     local := s'.local, hintsLocal := s'.hintsLocal, snap := s'.snap, stored := s'.stored)
    ensures Lower(s', s)
  {
    if PortOf(s', Owner(c)).phase.Running? {
      TakeLowers(s, c, PortOf(s', Owner(c)), s');
    } else {
      TakeStopLowers(s, c, PortOf(s', Owner(c)), s');
    }
  }

  lemma {:induction false} ReceiveDeriveLowers(u: Setup, s: Net)
    requires Locals(s) && Enabled(s, ReceiveDerive)
    ensures Lower(Apply(u, s, ReceiveDerive), s)
  {
    assert GoodChannel(DeriveChan, ChannelOf(s, DeriveChan));
    ReceivedLowers(s, DeriveChan, Apply(u, s, ReceiveDerive));
  }

  lemma {:induction false} ReceiveHintLowers(u: Setup, s: Net, closeAt: Time, openAt: Time)
    requires Locals(s) && Enabled(s, ReceiveHint(closeAt, openAt))
    ensures Lower(Apply(u, s, ReceiveHint(closeAt, openAt)), s)
  {
    assert GoodChannel(HintsChan, ChannelOf(s, HintsChan));
    ReceivedLowers(s, HintsChan, Apply(u, s, ReceiveHint(closeAt, openAt)));
  }

  lemma {:induction false} ReceiveSnapshotLowers(u: Setup, s: Net, now: Time)
    requires Locals(s) && Enabled(s, ReceiveSnapshot(now))
    ensures Lower(Apply(u, s, ReceiveSnapshot(now)), s)
  {
    assert GoodChannel(SnapshotChan, ChannelOf(s, SnapshotChan));
    ReceivedLowers(s, SnapshotChan, Apply(u, s, ReceiveSnapshot(now)));
  }

  lemma {:induction false} ReceiveLowers(u: Setup, s: Net, a: Action)
    requires Locals(s) && Enabled(s, a)
    requires a.ReceiveDerive? || a.ReceiveHint? || a.ReceiveCompression? || a.ReceiveSnapshot? || a.ReceiveStorage?
    ensures Lower(Apply(u, s, a), s)
  {
    match a
    case ReceiveDerive =>
      ReceiveDeriveLowers(u, s);
    case ReceiveHint(closeAt, openAt) =>
      ReceiveHintLowers(u, s, closeAt, openAt);
    case ReceiveCompression(_) =>
      ReceivedLowers(s, CompressionChan, Apply(u, s, a));
    case ReceiveSnapshot(now) =>
      ReceiveSnapshotLowers(u, s, now);
    case ReceiveStorage =>
      ReceivedLowers(s, StorageChan, Apply(u, s, a));
  }

  lemma {:induction false} ExitLowers(u: Setup, s: Net, t: Thread)
    requires Enabled(s, Exit(t))
    ensures Lower(Apply(u, s, Exit(t)), s)
  {
    PhaseLowers(s, t, PortOf(s, t).(phase := Exited));
    assert LowerAt(Apply(u, s, Exit(t)), s, 0);
  }

  lemma {:induction false} DisconnectLowers(u: Setup, s: Net, t: Thread, now: Time)
    requires Enabled(s, Disconnected(t, now))
    ensures Lower(Apply(u, s, Disconnected(t, now)), s)
  {
    var s' := Apply(u, s, Disconnected(t, now));
    PhaseLowers(s, t, PortOf(s', t));
    assert HandlesLeft(s') == HandlesLeft(WithPort(s, t, PortOf(s', t)));
    assert LowerAt(s', s, 0);
  }

  lemma {:induction false} CloseLowers(u: Setup, s: Net, c: Chan)
    requires Enabled(s, CloseReceiver(c))
    ensures Lower(Apply(u, s, CloseReceiver(c)), s)
  {
    assert LowerAt(Apply(u, s, CloseReceiver(c)), s, 0);
  }

  /** Ingest, once stopped, stays stopped. */
  lemma {:induction false} IngestStaysStopped(u: Setup, s: Net, a: Action)
    requires Enabled(s, a) && !s.ingest.phase.Running?
    ensures !Apply(u, s, a).ingest.phase.Running?
  {
  }

  /** Every step after ingest stopped lowers what is left to do. */
  lemma {:induction false} StepLowers(u: Setup, s: Net, a: Action)
    requires Inv(s) && Enabled(s, a) && !s.ingest.phase.Running?
    ensures Lower(Apply(u, s, a), s)
  {
    match a
    case SendNext(t) => SendLowers(u, s, t);
    case DropSender(t, c) => DropLowers(u, s, t, c);
    case Disconnected(t, now) => DisconnectLowers(u, s, t, now);
    case Exit(t) => ExitLowers(u, s, t);
    case CloseReceiver(c) => CloseLowers(u, s, c);
    case IngestEmit(_) =>
    case IngestShutdown(_) =>
    case IngestDisconnect =>
    case _ => ReceiveLowers(u, s, a);
  }

  lemma {:induction false} StepDescends(u: Setup, s: Net, a: Action, s': Net)
    requires Inv(s) && Enabled(s, a) && s' == Apply(u, s, a) && !s.ingest.phase.Running?
    ensures Lower(s', s) && Inv(s') && !s'.ingest.phase.Running?
  {
    StepKeeps(u, s, a);
    StepLowers(u, s, a);
    IngestStaysStopped(u, s, a);
  }

  /** An endless schedule of steps. */
  ghost predicate RunsForever(u: Setup, states: nat -> Net, actions: nat -> Action) {
    forall i: nat :: Enabled(states(i), actions(i)) && states(i + 1) == Apply(u, states(i), actions(i))
  }

  lemma {:induction false} EndlessDescent(u: Setup, states: nat -> Net, actions: nat -> Action, i: nat)
    requires RunsForever(u, states, actions)
    requires Inv(states(i)) && !states(i).ingest.phase.Running?
    ensures false
    decreases Left(states(i), 0), Left(states(i), 1), Left(states(i), 2), Left(states(i), 3), Left(states(i), 4),
              Left(states(i), 5), Left(states(i), 6), Left(states(i), 7), Left(states(i), 8), Left(states(i), 9),
              Left(states(i), 10)
  {
    hide Inv, Enabled, Apply;
    StepDescends(u, states(i), actions(i), states(i + 1));
    EndlessDescent(u, states, actions, i + 1);
  }

  /** No schedule keeps the pipeline busy forever once ingest has stopped. */
  lemma {:induction false} PipelineTerminates(u: Setup, states: nat -> Net, actions: nat -> Action)
    requires Fresh(u) && Reachable(u, states(0)) && !states(0).ingest.phase.Running?
    ensures !RunsForever(u, states, actions)
  {
    ReachableHolds(u, states(0));
    if RunsForever(u, states, actions) {
      EndlessDescent(u, states, actions, 0);
    }
  }

  /** Every thread has exited and given up everything it held. */
  predicate Final(s: Net) {
    && s.spawner == {}
    && (forall t: Thread :: !t.Main? ==> PortOf(s, t).phase.Exited? && PortOf(s, t).ends == {})
    && (forall c: Chan :: !ChannelOf(s, c).open)
  }

  predicate Gone(s: Net, t: Thread) {
    PortOf(s, t).phase.Exited? && PortOf(s, t).ends == {}
  }

  /** The thread that takes a step. */
  function Actor(a: Action): Thread {
    match a
    case IngestEmit(_) => Ingest
    case IngestShutdown(_) => Ingest
    case IngestDisconnect => Ingest
    case SendNext(t) => t
    case ReceiveDerive => EnvelopeThread
    case ReceiveHint(_, _) => HintsThread
    case ReceiveCompression(_) => CompressionThread
    case ReceiveSnapshot(_) => SnapshotThread
    case ReceiveStorage => StorageThread
    case Disconnected(t, _) => t
    case Exit(t) => t
    case DropSender(t, _) => t
    case CloseReceiver(c) => Owner(c)
  }

  /** A thread that is not waiting for its channel can move, or is gone. */
  lemma {:induction false} IdleOrMoves(s: Net, t: Thread) returns (a: Action)
    requires Locals(s) && !t.Main? && !Gone(s, t) && !PortOf(s, t).Idle()
    ensures Enabled(s, a) && Actor(a) == t
  {
    var p := PortOf(s, t);
    assert GoodPort(t, p);
    if p.Unsent() != [] {
      a := SendNext(t);
    } else if p.phase.Stopping? {
      a := Exit(t);
    } else {
      var c :| c in p.ends;
      a := DropSender(t, c);
    }
  }

  /** A waiting thread receives, or sees its channel disconnected. */
  lemma {:induction false} WaitingMoves(s: Net, t: Thread) returns (a: Action)
    requires Locals(s) && !t.Main? && !t.Ingest? && PortOf(s, t).Idle()
    requires s.spawner == {}
    requires forall t': Thread :: !t'.Main? && ChannelIn(t) in EndsOf(t') ==> Gone(s, t')
    ensures Enabled(s, a) && Actor(a) == t
  {
    var c := ChannelIn(t);
    if ChannelOf(s, c).Pending() {
      a := match t case EnvelopeThread => ReceiveDerive case HintsThread => ReceiveHint(0, 0)
           case CompressionThread => ReceiveCompression([]) case SnapshotThread => ReceiveSnapshot(0)
           case _ => ReceiveStorage;
    } else {
      forall t': Thread
        ensures c !in PortOf(s, t').ends
      {
        if !t'.Main? {
          assert GoodPort(t', PortOf(s, t'));
        }
      }
      a := Disconnected(t, 0);
    }
  }

  lemma {:induction false} AllGoneCloses(s: Net)
    requires s.spawner == {} && !Final(s)
    requires forall t: Thread :: !t.Main? ==> Gone(s, t)
    ensures exists a: Action :: Enabled(s, a)
  {
    var c: Chan :| ChannelOf(s, c).open;
    assert Gone(s, Owner(c));
    assert Enabled(s, CloseReceiver(c));
  }

  /** The most upstream thread that is still there. */
  function FirstLeft(s: Net): Thread {
    if !Gone(s, EnvelopeThread) then EnvelopeThread
    else if !Gone(s, HintsThread) then HintsThread
    else if !Gone(s, CompressionThread) then CompressionThread
    else if !Gone(s, SnapshotThread) then SnapshotThread
    else StorageThread
  }

  lemma {:induction false} UpstreamGone(s: Net, t: Thread)
    requires Gone(s, Ingest) && !t.Main? && ChannelIn(FirstLeft(s)) in EndsOf(t)
    ensures Gone(s, t)
  {
  }

  lemma {:induction false} WaitersMove(s: Net)
    requires Locals(s) && s.spawner == {} && Gone(s, Ingest)
    requires forall t: Thread :: !t.Main? ==> Gone(s, t) || PortOf(s, t).Idle()
    requires !Gone(s, FirstLeft(s))
    ensures exists a: Action :: Enabled(s, a)
  {
    var t := FirstLeft(s);
    assert PortOf(s, t).Idle();
    forall t': Thread | !t'.Main? && ChannelIn(t) in EndsOf(t')
      ensures Gone(s, t')
    {
      UpstreamGone(s, t');
    }
    var a := WaitingMoves(s, t);
  }

  lemma {:induction false} SomeoneMoves(s: Net)
    requires Locals(s) && !s.ingest.phase.Running? && !Final(s)
    ensures exists a: Action :: Enabled(s, a)
  {
    if s.spawner != {} {
      var c :| c in s.spawner;
      assert Enabled(s, DropSender(Main, c));
    } else if t: Thread :| !t.Main? && !Gone(s, t) && !PortOf(s, t).Idle() {
      var a := IdleOrMoves(s, t);
    } else {
      AllWait(s);
    }
  }

  lemma {:induction false} AllWait(s: Net)
    requires Locals(s) && !s.ingest.phase.Running? && !Final(s) && s.spawner == {}
    requires forall t: Thread :: !t.Main? ==> Gone(s, t) || PortOf(s, t).Idle()
    ensures exists a: Action :: Enabled(s, a)
  {
    assert Gone(s, Ingest) || PortOf(s, Ingest).Idle();
    if Gone(s, FirstLeft(s)) {
      NobodyLeft(s);
      AllGoneCloses(s);
    } else {
      WaitersMove(s);
    }
  }

  lemma {:induction false} NobodyLeft(s: Net)
    requires Gone(s, Ingest) && Gone(s, FirstLeft(s))
    ensures forall t: Thread :: !t.Main? ==> Gone(s, t)
  {
  }

  /** Whatever the interleaving, as long as the pipeline is not finished some step is possible. */
  lemma {:induction false} NeverStuck(u: Setup, s: Net)
    requires Fresh(u) && Reachable(u, s) && !s.ingest.phase.Running? && !Final(s)
    ensures exists a: Action :: Enabled(s, a)
  {
    ReachableHolds(u, s);
    SomeoneMoves(s);
  }
}
