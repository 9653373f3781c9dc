/** Six threads joined by five unbounded FIFO channels, as an interleaved step relation.

    A thread takes one message, decides all sends it causes, and then makes them one step at a
    time, so every interleaving of the single sends is a run.  A thread that stopped drops its
    sending ends and closes its receiving end one by one, in any order. */
module Pipeline {
  import opened Wrappers
  import opened Events
  import opened RecordBuilder
  import opened PipelineTypes
  import CS = CompressionStage
  import ES = EnvelopeStage
  import HS = HintsStage
  import SS = SnapshotStage

  datatype Thread = Main | Ingest | EnvelopeThread | HintsThread | CompressionThread | SnapshotThread | StorageThread

  datatype Chan = DeriveChan | HintsChan | CompressionChan | SnapshotChan | StorageChan

  function ChanOf(m: Send): Chan {
    match m
    case ToDerive(_) => DeriveChan
    case ToHints(_) => HintsChan
    case ToCompression(_) => CompressionChan
    case ToSnapshot(_) => SnapshotChan
    case ToStorage(_) => StorageChan
  }

  /** The thread that owns the receiving end. */
  function Owner(c: Chan): Thread {
    match c
    case DeriveChan => EnvelopeThread
    case HintsChan => HintsThread
    case CompressionChan => CompressionThread
    case SnapshotChan => SnapshotThread
    case StorageChan => StorageThread
  }

  /** A message in a channel, with the thread that sent it. */
  datatype Entry = Entry(sender: Thread, msg: Send)

  /** Everything ever sent on a channel, how much of it was taken, and whether it is open. */
  datatype Channel = Channel(log: seq<Entry>, taken: nat, open: bool) {
    predicate Pending() { taken < |log| }

    function Taken(): seq<Entry> {
      if taken <= |log| then log[..taken] else log
    }
  }

  datatype Phase = Running | Stopping | Exited

  /** All sends a thread has decided on, how many of them it has made, its phase, and the
      channels it still holds a sending end of. */
  datatype Port = Port(trace: seq<Send>, sent: nat, phase: Phase, ends: set<Chan>) {
    predicate Idle() { phase.Running? && sent >= |trace| }

    function Unsent(): seq<Send> {
      if sent <= |trace| then trace[sent..] else []
    }
  }

  /** The hints thread remembers its builder and the hints it has handled. */
  datatype HintsLocal = HintsLocal(builder: Builder, timed: seq<TimedHint>)

  /** What stays the same over a run; raw events are persisted only if the configuration says so.  The
      snapshot stage starts with the records and transitions of earlier runs. */
  datatype Setup = Setup(cfg: SS.Config, persistRaw: bool, local0: ES.Local, nextId: nat, records0: seq<Record>,
                         transitions0: seq<Transition>, startedAt: Time) {
    function Snap0(): SS.Snap { SS.NewSnap(cfg, records0, transitions0, startedAt) }
  }

  datatype Net = Net(
    derive: Channel, hints: Channel, compression: Channel, snapshot: Channel, storage: Channel,
    ingest: Port, envelope: Port, hinter: Port, compressor: Port, snapper: Port, keeper: Port,
    local: ES.Local, hintsLocal: HintsLocal, snap: SS.Snap, stored: seq<Entry>,
    spawner: set<Chan>)

  function ChannelOf(s: Net, c: Chan): Channel {
    match c
    case DeriveChan => s.derive
    case HintsChan => s.hints
    case CompressionChan => s.compression
    case SnapshotChan => s.snapshot
    case StorageChan => s.storage
  }

  function WithChannel(s: Net, c: Chan, ch: Channel): Net {
    match c
    case DeriveChan => s.(derive := ch)
    case HintsChan => s.(hints := ch)
    case CompressionChan => s.(compression := ch)
    case SnapshotChan => s.(snapshot := ch)
    case StorageChan => s.(storage := ch)
  }

  function PortOf(s: Net, t: Thread): Port {
    match t
    case Main => Port([], 0, Exited, s.spawner)
    case Ingest => s.ingest
    case EnvelopeThread => s.envelope
    case HintsThread => s.hinter
    case CompressionThread => s.compressor
    case SnapshotThread => s.snapper
    case StorageThread => s.keeper
  }

  function WithPort(s: Net, t: Thread, p: Port): Net {
    match t
    case Main => s.(spawner := p.ends)
    case Ingest => s.(ingest := p)
    case EnvelopeThread => s.(envelope := p)
    case HintsThread => s.(hinter := p)
    case CompressionThread => s.(compressor := p)
    case SnapshotThread => s.(snapper := p)
    case StorageThread => s.(keeper := p)
  }

  /** The sending ends each thread is given; the spawning thread holds four originals. */
  function EndsOf(t: Thread): set<Chan> {
    match t
    case Main => {HintsChan, CompressionChan, SnapshotChan, StorageChan}
    case Ingest => {DeriveChan}
    case EnvelopeThread => {HintsChan, CompressionChan, SnapshotChan, StorageChan}
    case HintsThread => {StorageChan, SnapshotChan}
    case CompressionThread => {StorageChan}
    case SnapshotThread => {StorageChan}
    case StorageThread => {}
  }

  const NEW_CHANNEL: Channel := Channel([], 0, true)

  function NewPort(t: Thread): Port {
    Port([], 0, Running, EndsOf(t))
  }

  function Start(u: Setup): Net {
    Net(NEW_CHANNEL, NEW_CHANNEL, NEW_CHANNEL, NEW_CHANNEL, NEW_CHANNEL,
        NewPort(Ingest), NewPort(EnvelopeThread), NewPort(HintsThread), NewPort(CompressionThread),
        NewPort(SnapshotThread), NewPort(StorageThread),
        u.local0, HintsLocal(NewBuilder(Inactive, u.nextId), []), u.Snap0(), [], EndsOf(Main))
  }

  // ---------- Steps ----------

  datatype Action =
    | IngestEmit(cmd: DeriveCommand)
    | IngestShutdown(pending: seq<RawEvent>)
    | IngestDisconnect
    | SendNext(t: Thread)
    | ReceiveDerive
    | ReceiveHint(closeAt: Time, openAt: Time)
    | ReceiveCompression(compact: seq<nat>)
    | ReceiveSnapshot(now: Time)
    | ReceiveStorage
    | Disconnected(t: Thread, now: Time)
    | Exit(t: Thread)
    | DropSender(t: Thread, c: Chan)
    | CloseReceiver(c: Chan)

  predicate CanReceive(s: Net, c: Chan) {
    PortOf(s, Owner(c)).Idle() && ChannelOf(s, c).Pending()
  }

  /** The receiver sees a disconnected channel once it is empty and nobody can send. */
  predicate IsDisconnected(s: Net, c: Chan) {
    !ChannelOf(s, c).Pending() && forall t: Thread :: c !in PortOf(s, t).ends
  }

  function ChannelIn(t: Thread): Chan
    requires !t.Main? && !t.Ingest?
  {
    match t
    case EnvelopeThread => DeriveChan
    case HintsThread => HintsChan
    case CompressionThread => CompressionChan
    case SnapshotThread => SnapshotChan
    case StorageThread => StorageChan
  }

  ghost predicate Enabled(s: Net, a: Action) {
    match a
    case IngestEmit(cmd) => s.ingest.Idle() && (cmd.Tick? || (cmd.Batch? && cmd.events != []))
    case IngestShutdown(_) => s.ingest.Idle()
    case IngestDisconnect => s.ingest.Idle()
    case SendNext(t) => PortOf(s, t).Unsent() != []
    case ReceiveDerive => CanReceive(s, DeriveChan)
    case ReceiveHint(_, _) => CanReceive(s, HintsChan)
    case ReceiveCompression(_) => CanReceive(s, CompressionChan)
    case ReceiveSnapshot(_) => CanReceive(s, SnapshotChan)
    case ReceiveStorage => CanReceive(s, StorageChan)
    case Disconnected(t, _) => !t.Main? && !t.Ingest? && PortOf(s, t).Idle() && IsDisconnected(s, ChannelIn(t))
    case Exit(t) => PortOf(s, t).phase.Stopping? && PortOf(s, t).Unsent() == []
    case DropSender(t, c) => c in PortOf(s, t).ends && PortOf(s, t).phase.Exited?
    case CloseReceiver(c) => ChannelOf(s, c).open && PortOf(s, Owner(c)).phase.Exited?
  }

  /** A send whose failure ends the thread's loop. */
  predicate EndsLoopOnFailure(t: Thread, m: Send) {
    match t
    case Ingest => m != ToDerive(DeriveShutdown)
    case EnvelopeThread =>
      (m.ToSnapshot? && !m.snapshot.SnapshotShutdown?) || (m.ToCompression? && !m.compression.CompressionShutdown?)
    case _ => false
  }

  function Decide(p: Port, sends: seq<Send>, stop: bool): Port {
    p.(trace := p.trace + sends, phase := if stop then Stopping else p.phase)
  }

  function Take(ch: Channel): Channel {
    ch.(taken := ch.taken + 1)
  }

  /** The next send of a thread: delivered if the receiver is still there, lost otherwise. */
  function ApplySend(s: Net, t: Thread): Net
    requires PortOf(s, t).Unsent() != []
  {
    var p := PortOf(s, t);
    var m := p.trace[p.sent];
    var ch := ChannelOf(s, ChanOf(m));
    if ch.open then
      WithChannel(WithPort(s, t, p.(sent := p.sent + 1)), ChanOf(m), ch.(log := ch.log + [Entry(t, m)]))
    else if EndsLoopOnFailure(t, m) then
      WithPort(s, t, p.(trace := p.trace[..p.sent], phase := Stopping))
    else
      WithPort(s, t, p.(sent := p.sent + 1))
  }

  /** What the compression stage forwards of a job; what its engine makes of one is arbitrary. */
  function Forwarded(persistRaw: bool, m: Send, compact: seq<nat>): seq<Send> {
    match m case ToCompression(Process(events, envs)) => CS.HandleJob(persistRaw, events, envs, compact) case _ => []
  }

  function ApplyReceive(u: Setup, s: Net, a: Action): Net
    requires a.ReceiveDerive? || a.ReceiveHint? || a.ReceiveCompression? || a.ReceiveSnapshot? || a.ReceiveStorage?
    requires Enabled(s, a)
  {
    match a
    case ReceiveDerive =>
      var m := s.derive.log[s.derive.taken].msg;
      if !m.ToDerive? then s
      else
        var (local, sends) := ES.Handle(s.local, m.derive);
        s.(derive := Take(s.derive), local := local, envelope := Decide(s.envelope, sends, m.derive.DeriveShutdown?))
    case ReceiveHint(closeAt, openAt) =>
      var m := s.hints.log[s.hints.taken].msg;
      if !m.ToHints? then s
      else
        var h := TimedHint(m.env, closeAt, openAt);
        var (builder, sends) := HS.HandleHint(s.hintsLocal.builder, h, u.cfg.runId);
        s.(hints := Take(s.hints), hintsLocal := HintsLocal(builder, s.hintsLocal.timed + [h]),
           hinter := Decide(s.hinter, sends, false))
    case ReceiveCompression(compact) =>
      var m := s.compression.log[s.compression.taken].msg;
      if m == ToCompression(CompressionShutdown)
      then s.(compression := Take(s.compression), compressor := Decide(s.compressor, [], true))
      else
        var sends := Forwarded(u.persistRaw, m, compact);
        s.(compression := Take(s.compression), compressor := Decide(s.compressor, sends, false))
    case ReceiveSnapshot(now) =>
      var m := s.snapshot.log[s.snapshot.taken].msg;
      if !m.ToSnapshot? then s
      else
        var (snap, sends) := SS.HandleMessage(s.snap, u.cfg, m.snapshot, now);
        s.(snapshot := Take(s.snapshot), snap := snap,
           snapper := Decide(s.snapper, sends, snap.storageShutdownSent && !s.snap.storageShutdownSent))
    case ReceiveStorage =>
      var e := s.storage.log[s.storage.taken];
      if e.msg == ToStorage(StorageShutdown)
      then s.(storage := Take(s.storage), keeper := Decide(s.keeper, [], true))
      else s.(storage := Take(s.storage), stored := s.stored + [e])
  }

  function ApplyDisconnected(u: Setup, s: Net, t: Thread, now: Time): Net {
    match t
    case HintsThread =>
      var (builder, sends) := HS.FinishHints(s.hintsLocal.builder, now, u.cfg.runId);
      s.(hintsLocal := s.hintsLocal.(builder := builder), hinter := Decide(s.hinter, sends, true))
    case SnapshotThread =>
      var (snap, sends) := SS.Disconnect(s.snap, u.cfg, now);
      s.(snap := snap, snapper := Decide(s.snapper, sends, true))
    case _ => WithPort(s, t, Decide(PortOf(s, t), [], true))
  }

  function Apply(u: Setup, s: Net, a: Action): Net
    requires Enabled(s, a)
  {
    match a
    case IngestEmit(cmd) => s.(ingest := Decide(s.ingest, [ToDerive(cmd)], false))
    case IngestShutdown(pending) =>
      var rest := if pending == [] then [] else [ToDerive(Batch(pending))];
      s.(ingest := Decide(s.ingest, rest + [ToDerive(DeriveShutdown)], true))
    case IngestDisconnect => s.(ingest := Decide(s.ingest, [], true))
    case SendNext(t) => ApplySend(s, t)
    case Disconnected(t, now) => ApplyDisconnected(u, s, t, now)
    case Exit(t) => WithPort(s, t, PortOf(s, t).(phase := Exited))
    case DropSender(t, c) => WithPort(s, t, PortOf(s, t).(ends := PortOf(s, t).ends - {c}))
    case CloseReceiver(c) => WithChannel(s, c, ChannelOf(s, c).(open := false))
    case _ => ApplyReceive(u, s, a)
  }

  /** The steps `run` lead from one state to another. */
  ghost predicate Leads(u: Setup, from: Net, run: seq<Action>, to: Net)
    decreases |run|
  {
    if run == [] then to == from
    else Enabled(from, run[0]) && Leads(u, Apply(u, from, run[0]), run[1..], to)
  }

  ghost predicate Reachable(u: Setup, s: Net) {
    exists run: seq<Action> :: Leads(u, Start(u), run, s)
  }

  /** The pipeline may start: nothing is known, locked or finished yet. */
  ghost predicate Fresh(u: Setup) {
    && u.local0.lastFocus == None && !u.local0.locked
    && !u.local0.engine.locked && u.local0.engine.current == Inactive
  }
}
