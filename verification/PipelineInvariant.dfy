/** What holds in every reachable state of the pipeline. */
module PipelineInvariant {
  import opened Wrappers
  import opened Events
  import opened Mealy
  import opened EventAdapter
  import opened LockDeriver
  import opened RecordBuilder
  import opened PipelineTypes
  import opened Pipeline
  import ES = EnvelopeStage
  import HS = HintsStage

  /** Which sends a thread ever makes. */
  predicate Allowed(t: Thread, m: Send) {
    match t
    case Main => false
    case Ingest => m.ToDerive?
    case EnvelopeThread =>
      || m.ToHints? || m.ToCompression?
      || (m.ToSnapshot? && (m.snapshot.Update? || m.snapshot.Publish? || m.snapshot.SnapshotShutdown?))
      || (m.ToStorage? && m.storage.EnvelopeCmd?)
    case HintsThread =>
      || (m.ToStorage? && (m.storage.EnvelopeCmd? || m.storage.RecordCmd?))
      || (m.ToSnapshot? && (m.snapshot.RecordDone? || m.snapshot.HintsComplete?))
    case CompressionThread => m.ToStorage? && (m.storage.RawEventCmd? || m.storage.CompactEventsCmd?)
    case SnapshotThread => m.ToStorage? && (m.storage.TransitionCmd? || m.storage.StorageShutdown?)
    case StorageThread => false
  }

  /** The messages with which a thread announces its end, in order. */
  function MarksOf(t: Thread): seq<Send> {
    match t
    case Ingest => [ToDerive(DeriveShutdown)]
    case EnvelopeThread => ES.SHUTDOWN_SENDS
    case HintsThread => [ToSnapshot(HintsComplete)]
    case SnapshotThread => [ToStorage(StorageShutdown)]
    case _ => []
  }

  predicate NoMark(t: Thread, sends: seq<Send>) {
    forall i :: 0 <= i < |sends| ==> sends[i] !in MarksOf(t)
  }

  /** An ordinary send of a thread: one it may make, announcing no end. */
  predicate Plain(t: Thread, sends: seq<Send>) {
    NoMark(t, sends) && forall i :: 0 <= i < |sends| ==> Allowed(t, sends[i])
  }

  predicate EndsIn(sends: seq<Send>, last: seq<Send>) {
    |last| <= |sends| && sends[|sends| - |last|..] == last
  }

  /** A running thread has announced nothing; a stopped one has its marks at the end, or, if
      its input was disconnected, none at all. */
  predicate GoodTrace(t: Thread, p: Port) {
    if p.phase.Running? then Plain(t, p.trace)
    else
      || (EndsIn(p.trace, MarksOf(t)) && Plain(t, p.trace[..|p.trace| - |MarksOf(t)|]))
      || ((t.Ingest? || t.EnvelopeThread?) && Plain(t, p.trace))
  }

  /** A thread gives up its sending ends only after it stopped with nothing left to send. */
  predicate GoodPort(t: Thread, p: Port) {
    && p.sent <= |p.trace|
    && GoodTrace(t, p)
    && p.ends <= EndsOf(t)
    && (if p.phase.Exited? then p.Unsent() == [] else p.ends == EndsOf(t))
  }

  predicate GoodChannel(c: Chan, ch: Channel) {
    ch.taken <= |ch.log|
    && forall i :: 0 <= i < |ch.log| ==> ChanOf(ch.log[i].msg) == c && Allowed(ch.log[i].sender, ch.log[i].msg)
  }

  ghost predicate Locals(s: Net) {
    && (forall t: Thread :: !t.Main? ==> GoodPort(t, PortOf(s, t)))
    && (forall c: Chan :: GoodChannel(c, ChannelOf(s, c)))
    && (forall c: Chan :: !ChannelOf(s, c).open ==> PortOf(s, Owner(c)).phase.Exited?)
    && s.spawner <= EndsOf(Main)
  }

  predicate Has(log: seq<Entry>, m: Send) {
    exists i :: 0 <= i < |log| && log[i].msg == m
  }

  /** After the message `m` nothing follows from `t`. */
  predicate LastFrom(log: seq<Entry>, t: Thread, m: Send) {
    forall i, j :: 0 <= i < j < |log| && log[i].msg == m ==> log[j].sender != t
  }

  /** Once `t` has announced its end with `m`, it has stopped and has at most `left` to say, none
      of it on this channel. */
  predicate Announced(log: seq<Entry>, p: Port, t: Thread, m: Send, left: seq<Send>) {
    && LastFrom(log, t, m)
    && (Has(log, m) ==> !p.phase.Running? && (p.Unsent() == [] || p.Unsent() == left))
  }

  const WORD_TO_COMPRESSION: seq<Send> := [ToCompression(CompressionShutdown)]

  predicate Marks(s: Net) {
    && Announced(s.derive.log, s.ingest, Ingest, ToDerive(DeriveShutdown), [])
    && Announced(s.snapshot.log, s.envelope, EnvelopeThread, ToSnapshot(SnapshotShutdown), WORD_TO_COMPRESSION)
    && Announced(s.compression.log, s.envelope, EnvelopeThread, ToCompression(CompressionShutdown), [])
    && Announced(s.snapshot.log, s.hinter, HintsThread, ToSnapshot(HintsComplete), [])
    && Announced(s.storage.log, s.snapper, SnapshotThread, ToStorage(StorageShutdown), [])
  }

  predicate Silent(p: Port) {
    !p.phase.Running? && p.Unsent() == []
  }

  /** The envelope thread has nothing left but its word to the compression thread. */
  predicate NearlySilent(p: Port) {
    !p.phase.Running? && (p.Unsent() == [] || p.Unsent() == WORD_TO_COMPRESSION)
  }

  predicate Drained(ch: Channel) {
    ch.taken == |ch.log|
  }

  /** Who must have finished before a thread stops. */
  predicate Stops(s: Net) {
    && (!s.envelope.phase.Running? ==> Silent(s.ingest) && Drained(s.derive))
    && (!s.hinter.phase.Running? ==> s.envelope.phase.Exited? && Drained(s.hints))
    && (!s.compressor.phase.Running? ==> Silent(s.envelope) && Drained(s.compression))
    && (!s.snapper.phase.Running? ==> NearlySilent(s.envelope) && Silent(s.hinter) && Drained(s.snapshot))
  }

  predicate Flags(s: Net) {
    && (s.snap.storageShutdownSent <==> !s.snapper.phase.Running?)
    && (s.snap.shutdownRequested ==> Has(s.snapshot.Taken(), ToSnapshot(SnapshotShutdown)))
    && (s.snap.hintsComplete ==> Has(s.snapshot.Taken(), ToSnapshot(HintsComplete)))
  }

  /** Only the compression thread still reaches storage after the shutdown command. */
  predicate ShutdownLast(log: seq<Entry>) {
    forall i, j :: 0 <= i < j < |log| && log[i].msg == ToStorage(StorageShutdown) ==> log[j].sender == CompressionThread
  }

  /** Storage took everything up to the shutdown command and stopped there. */
  predicate StoppedAtShutdown(s: Net) {
    && 0 < s.storage.taken <= |s.storage.log|
    && s.storage.log[s.storage.taken - 1].msg == ToStorage(StorageShutdown)
    && s.stored == s.storage.log[..s.storage.taken - 1]
  }

  predicate Keeper(s: Net) {
    && (if s.keeper.phase.Running?
        then s.stored == s.storage.Taken() && !Has(s.stored, ToStorage(StorageShutdown))
        else StoppedAtShutdown(s))
    && ShutdownLast(s.storage.log)
    && (Silent(s.snapper) ==> Has(s.storage.log, ToStorage(StorageShutdown)))
  }

  ghost predicate Inv(s: Net) {
    Locals(s) && Marks(s) && Stops(s) && Flags(s) && Keeper(s)
  }

  // ---------- What the stages send ----------

  lemma {:induction false} EnvelopeStepPlain(w: ES.Work, env: Envelope)
    ensures Plain(EnvelopeThread, ES.EnvelopeStep(w, env).1)
  {
  }

  lemma {:induction false} EnvelopeRunPlain(w: ES.Work, envs: seq<Envelope>)
    ensures Plain(EnvelopeThread, Run(ES.EnvelopeStep, w, envs).1)
  {
    if envs != [] {
      EnvelopeRunPlain(w, envs[..|envs| - 1]);
      EnvelopeStepPlain(Run(ES.EnvelopeStep, w, envs[..|envs| - 1]).0, envs[|envs| - 1]);
    }
  }

  lemma {:induction false} PlainConcat(t: Thread, xs: seq<Send>, ys: seq<Send>)
    requires Plain(t, xs) && Plain(t, ys)
    ensures Plain(t, xs + ys)
  {
  }

  lemma {:induction false} FinishPlain(events: seq<RawEvent>, envs: seq<Envelope>, u: SnapshotUpdate)
    ensures Plain(EnvelopeThread, ES.FinishBatch(events, envs, u))
  {
  }

  lemma {:induction false} HandlePlain(l: ES.Local, cmd: DeriveCommand)
    ensures !cmd.DeriveShutdown? ==> Plain(EnvelopeThread, ES.Handle(l, cmd).1)
  {
    if cmd.Batch? && cmd.events != [] {
      var adapted := Run(AdaptStep, l.lastFocus, cmd.events).1;
      var envs := Run(LockStep, l.locked, adapted).1;
      var (w, sends) := Run(ES.EnvelopeStep, ES.Work(l.engine, EMPTY_UPDATE), envs);
      EnvelopeRunPlain(ES.Work(l.engine, EMPTY_UPDATE), envs);
      FinishPlain(cmd.events, envs, w.update);
      PlainConcat(EnvelopeThread, sends, ES.FinishBatch(cmd.events, envs, w.update));
    }
  }

  lemma {:induction false} ReportPlain(records: seq<Record>, runId: Option<string>)
    ensures Plain(HintsThread, HS.Report(records, runId))
  {
    if records != [] {
      ReportPlain(records[..|records| - 1], runId);
    }
  }

  lemma {:induction false} HintPlain(b: Builder, h: TimedHint, runId: Option<string>)
    ensures Plain(HintsThread, HS.HandleHint(b, h, runId).1)
  {
    ReportPlain(HintStep(b, h).1, runId);
  }

  lemma {:induction false} ForwardedPlain(persistRaw: bool, m: Send, compact: seq<nat>)
    ensures Plain(CompressionThread, Forwarded(persistRaw, m, compact))
  {
  }

  // ---------- Local conditions, one port or channel at a time ----------

  lemma {:induction false} PortFrame(s: Net, t: Thread, p: Port, t': Thread)
    ensures !t'.Main? ==> PortOf(WithPort(s, t, p), t') == if t == t' then p else PortOf(s, t')
    ensures t.Main? ==> PortOf(WithPort(s, t, p), Main).ends == p.ends
    ensures !t.Main? ==> WithPort(s, t, p).spawner == s.spawner
  {
  }

  lemma {:induction false} PortChange(s: Net, t: Thread, p: Port)
    requires Locals(s)
    requires if t.Main? then p.ends <= EndsOf(Main) else GoodPort(t, p)
                                                         && (PortOf(s, t).phase.Exited? ==> p.phase.Exited?)
    ensures Locals(WithPort(s, t, p))
  {
    hide GoodTrace, GoodChannel;
    var s' := WithPort(s, t, p);
    forall t': Thread | !t'.Main?
      ensures GoodPort(t', PortOf(s', t'))
    {
      PortFrame(s, t, p, t');
    }
    forall c: Chan
      ensures ChannelOf(s', c) == ChannelOf(s, c)
      ensures !ChannelOf(s', c).open ==> PortOf(s', Owner(c)).phase.Exited?
    {
      PortFrame(s, t, p, Owner(c));
    }
  }

  lemma {:induction false} ChannelChange(s: Net, c: Chan, ch: Channel)
    requires Locals(s) && GoodChannel(c, ch) && (!ch.open ==> PortOf(s, Owner(c)).phase.Exited?)
    ensures Locals(WithChannel(s, c, ch))
  {
    var s' := WithChannel(s, c, ch);
    forall t: Thread
      ensures PortOf(s', t) == PortOf(s, t)
    {
    }
    forall c': Chan
      ensures ChannelOf(s', c') == if c == c' then ch else ChannelOf(s, c')
    {
    }
  }

  /** A thread that decides ordinary sends, and its marks if it stops, stays well behaved. */
  lemma {:induction false} DecideGood(t: Thread, p: Port, plain: seq<Send>, marks: seq<Send>, stop: bool)
    requires GoodPort(t, p) && p.Idle() && Plain(t, plain)
    requires marks == [] || (stop && marks == MarksOf(t))
    requires stop && marks == [] ==> t.Ingest? || t.EnvelopeThread? || MarksOf(t) == []
    ensures GoodPort(t, Decide(p, plain + marks, stop))
  {
    PlainConcat(t, p.trace, plain);
    assert p.trace + (plain + marks) == p.trace + plain + marks;
    if stop {
      StoppedTrace(t, p.trace + plain, marks, Decide(p, plain + marks, true));
    } else {
      assert p.trace + plain + [] == p.trace + plain;
    }
  }

  lemma {:induction false} StoppedTrace(t: Thread, plain: seq<Send>, marks: seq<Send>, p: Port)
    requires Plain(t, plain) && p.trace == plain + marks && p.phase.Stopping?
    requires marks == MarksOf(t) || (marks == [] && (t.Ingest? || t.EnvelopeThread?))
    ensures GoodTrace(t, p)
  {
    assert p.trace[..|p.trace| - |marks|] == plain;
    assert p.trace[|p.trace| - |marks|..] == marks;
    assert plain + [] == plain;
  }

  // ---------- Every step keeps the invariant ----------

  lemma {:induction false} IngestKeeps(u: Setup, s: Net, a: Action)
    requires Inv(s) && Enabled(s, a) && (a.IngestEmit? || a.IngestShutdown? || a.IngestDisconnect?)
    ensures Inv(Apply(u, s, a))
  {
    hide Has, LastFrom, ShutdownLast, GoodChannel;
    assert GoodPort(Ingest, PortOf(s, Ingest));
    var s' := Apply(u, s, a);
    match a {
      case IngestEmit(cmd) =>
        DecideGood(Ingest, s.ingest, [ToDerive(cmd)], [], false);
        assert [ToDerive(cmd)] + [] == [ToDerive(cmd)];
      case IngestShutdown(pending) =>
        DecideGood(Ingest, s.ingest, if pending == [] then [] else [ToDerive(Batch(pending))], MarksOf(Ingest), true);
      case _ =>
        DecideGood(Ingest, s.ingest, [], [], true);
    }
    PortChange(s, Ingest, s'.ingest);
  }

  lemma {:induction false} ExitedGood(t: Thread, p: Port)
    requires GoodPort(t, p) && p.phase.Stopping? && p.Unsent() == []
    ensures GoodPort(t, p.(phase := Exited))
  {
    assert p.(phase := Exited).Unsent() == p.Unsent();
  }

  lemma {:induction false} DroppedGood(t: Thread, p: Port, c: Chan)
    requires GoodPort(t, p) && p.phase.Exited?
    ensures GoodPort(t, p.(ends := p.ends - {c}))
  {
    assert p.(ends := p.ends - {c}).Unsent() == p.Unsent();
  }

  lemma {:induction false} ExitKeeps(u: Setup, s: Net, t: Thread)
    requires Inv(s) && Enabled(s, Exit(t))
    ensures Inv(Apply(u, s, Exit(t)))
  {
    hide GoodTrace, EndsIn, Plain, GoodChannel, Has, LastFrom, ShutdownLast, MarksOf;
    var p := PortOf(s, t);
    assert GoodPort(t, p);
    ExitedGood(t, p);
    PortChange(s, t, p.(phase := Exited));
  }

  lemma {:induction false} DropKeeps(u: Setup, s: Net, t: Thread, c: Chan)
    requires Inv(s) && Enabled(s, DropSender(t, c))
    ensures Inv(Apply(u, s, DropSender(t, c)))
  {
    hide GoodTrace, EndsIn, Plain, GoodChannel, Has, LastFrom, ShutdownLast, MarksOf, Allowed;
    var p := PortOf(s, t);
    if !t.Main? {
      assert GoodPort(t, p);
      DroppedGood(t, p, c);
    }
    PortChange(s, t, p.(ends := p.ends - {c}));
  }

  lemma {:induction false} CloseKeeps(u: Setup, s: Net, c: Chan)
    requires Inv(s) && Enabled(s, CloseReceiver(c))
    ensures Inv(Apply(u, s, CloseReceiver(c)))
  {
    hide GoodTrace, EndsIn, Plain, Has, LastFrom, ShutdownLast, MarksOf, Announced, Silent, Allowed;
    ChannelChange(s, c, ChannelOf(s, c).(open := false));
  }

  // ---------- Sending ----------

  /** The message a thread sends next. */
  function NextSend(s: Net, t: Thread): Send
    requires PortOf(s, t).Unsent() != []
  {
    PortOf(s, t).Unsent()[0]
  }

  lemma {:induction false} StoppedHasShutdown(s: Net)
    requires Keeper(s) && !s.keeper.phase.Running?
    ensures Has(s.storage.log, ToStorage(StorageShutdown))
  {
    assert s.storage.log[s.storage.taken - 1].msg == ToStorage(StorageShutdown);
  }

  lemma {:induction false} TraceAllowed(t: Thread, p: Port, i: nat)
    requires GoodTrace(t, p) && i < |p.trace|
    ensures Allowed(t, p.trace[i])
  {
    var k := |p.trace| - |MarksOf(t)|;
    if !Plain(t, p.trace) {
      if i < k {
        assert p.trace[..k][i] == p.trace[i];
      } else {
        assert p.trace[k..][i - k] == p.trace[i];
      }
    }
  }

  /** Once storage has stopped, only the envelope thread's word to the compression thread is unsent. */
  lemma {:induction false} StorageStopped(s: Net)
    requires Marks(s) && Stops(s) && Keeper(s) && !s.keeper.phase.Running?
    ensures NearlySilent(s.envelope) && Silent(s.hinter) && s.snapper.Unsent() == []
  {
    StoppedHasShutdown(s);
  }

  lemma {:induction false} StoppedHearsNothing(s: Net, t: Thread, m: Send)
    requires Marks(s) && Stops(s) && Keeper(s) && Allowed(t, m) && GoodPort(EnvelopeThread, s.envelope)
    requires PortOf(s, t).Unsent() != [] && PortOf(s, t).Unsent()[0] == m
    requires PortOf(s, Owner(ChanOf(m))).phase.Exited?
    ensures t.CompressionThread? && ChanOf(m) == StorageChan
  {
    if ChanOf(m) == StorageChan {
      StorageStopped(s);
    }
  }

  /** No thread ever finds a channel closed, but for the compression thread, whose events may
      come after storage has shut down.  So the early exits of ingest and envelope on a failed
      send are never taken. */
  lemma {:induction false} OnlyCompressionIsLost(s: Net, t: Thread)
    requires Inv(s) && PortOf(s, t).Unsent() != []
    ensures ChannelOf(s, ChanOf(NextSend(s, t))).open || (t.CompressionThread? && ChanOf(NextSend(s, t)) == StorageChan)
  {
    assert GoodPort(t, PortOf(s, t));
    TraceAllowed(t, PortOf(s, t), PortOf(s, t).sent);
    if !ChannelOf(s, ChanOf(NextSend(s, t))).open {
      assert GoodPort(EnvelopeThread, PortOf(s, EnvelopeThread));
      StoppedHearsNothing(s, t, NextSend(s, t));
    }
  }

  lemma {:induction false} AnnouncedOther(log: seq<Entry>, e: Entry, p: Port, t: Thread, m: Send, left: seq<Send>)
    requires Announced(log, p, t, m, left) && e.sender != t && e.msg != m
    ensures Announced(log + [e], p, t, m, left)
  {
  }

  lemma {:induction false} PlainHasNoMark(t: Thread, sends: seq<Send>, i: nat)
    requires Plain(t, sends) && i < |sends|
    ensures sends[i] !in MarksOf(t)
  {
  }

  lemma {:induction false} OnlyPlace(tail: seq<Send>, before: seq<Send>, m: Send, left: seq<Send>, i: nat)
    requires tail == before + [m] + left && m !in before && m !in left
    requires i < |tail| && tail[i] == m
    ensures i == |before| && tail[i + 1..] == left
  {
  }

  /** A mark is met only at the end of a stopped thread's trace; what follows it is known. */
  lemma {:induction false} MarkPosition(t: Thread, p: Port, m: Send, before: seq<Send>, left: seq<Send>)
    requires GoodTrace(t, p) && p.sent < |p.trace| && p.trace[p.sent] == m
    requires MarksOf(t) == before + [m] + left && m !in before && m !in left
    ensures !p.phase.Running? && p.trace[p.sent + 1..] == left
  {
    hide Plain, MarksOf;
    assert m in MarksOf(t) by {
      assert (before + [m] + left)[|before|] == m;
    }
    if Plain(t, p.trace) {
      PlainHasNoMark(t, p.trace, p.sent);
    }
    var k := |p.trace| - |MarksOf(t)|;
    if p.sent < k {
      PlainHasNoMark(t, p.trace[..k], p.sent);
    }
    OnlyPlace(p.trace[k..], before, m, left, p.sent - k);
    assert p.trace[k..][p.sent - k + 1..] == p.trace[p.sent + 1..];
  }

  lemma {:induction false} AnnouncedOwn(log: seq<Entry>, p: Port, t: Thread, m: Send, before: seq<Send>,
                                        left: seq<Send>)
    requires Announced(log, p, t, m, left) && GoodTrace(t, p) && p.sent < |p.trace|
    requires MarksOf(t) == before + [m] + left && m !in before && m !in left
    requires |left| <= 1 && forall x :: x in left ==> ChanOf(x) != ChanOf(m)
    ensures var e := Entry(t, p.trace[p.sent]);
            Announced(if ChanOf(e.msg) == ChanOf(m) then log + [e] else log, p.(sent := p.sent + 1), t, m, left)
  {
    var e, p' := Entry(t, p.trace[p.sent]), p.(sent := p.sent + 1);
    assert p.Unsent() == [e.msg] + p'.Unsent();
    if Has(log, m) {
      assert e.msg == left[0];
    } else {
      if e.msg == m {
        MarkPosition(t, p, m, before, left);
      }
      assert Has(log + [e], m) ==> e.msg == m;
    }
  }

  lemma {:induction false} HasPush(log: seq<Entry>, e: Entry, m: Send)
    ensures Has(log + [e], m) <==> Has(log, m) || e.msg == m
  {
    if Has(log, m) {
      var i :| 0 <= i < |log| && log[i].msg == m;
      assert (log + [e])[i].msg == m;
    }
    assert (log + [e])[|log|] == e;
  }

  /** The state after a send that found its channel open. */
  function Delivered(s: Net, t: Thread): Net
    requires PortOf(s, t).Unsent() != []
  {
    var p, c := PortOf(s, t), ChanOf(NextSend(s, t));
    var ch := ChannelOf(s, c);
    WithChannel(WithPort(s, t, p.(sent := p.sent + 1)), c, ch.(log := ch.log + [Entry(t, NextSend(s, t))]))
  }

  lemma {:induction false} AdvanceGood(t: Thread, p: Port)
    requires GoodPort(t, p) && p.Unsent() != []
    ensures GoodPort(t, p.(sent := p.sent + 1)) && Allowed(t, p.trace[p.sent]) && p.Unsent()[0] == p.trace[p.sent]
  {
    TraceAllowed(t, p, p.sent);
  }

  lemma {:induction false} PushGood(c: Chan, ch: Channel, e: Entry)
    requires GoodChannel(c, ch) && ChanOf(e.msg) == c && Allowed(e.sender, e.msg)
    ensures GoodChannel(c, ch.(log := ch.log + [e]))
  {
  }

  lemma {:induction false} DeliveredLocals(s: Net, t: Thread)
    requires Locals(s) && PortOf(s, t).Unsent() != []
    ensures Locals(Delivered(s, t))
  {
    var p := PortOf(s, t);
    assert GoodPort(t, p);
    AdvanceGood(t, p);
    PortChange(s, t, p.(sent := p.sent + 1));
    DeliveredChannel(s, WithPort(s, t, p.(sent := p.sent + 1)), Entry(t, NextSend(s, t)));
  }

  lemma {:induction false} DeliveredChannel(s: Net, s1: Net, e: Entry)
    requires Locals(s1) && Allowed(e.sender, e.msg)
    requires ChannelOf(s1, ChanOf(e.msg)) == ChannelOf(s, ChanOf(e.msg))
    ensures var ch := ChannelOf(s, ChanOf(e.msg));
            Locals(WithChannel(s1, ChanOf(e.msg), ch.(log := ch.log + [e])))
  {
    var c := ChanOf(e.msg);
    assert GoodChannel(c, ChannelOf(s1, c));
    PushGood(c, ChannelOf(s1, c), e);
    var ch := ChannelOf(s, c);
    ChannelChange(s1, c, ch.(log := ch.log + [e]));
  }

  lemma {:induction false} EnvelopeMarks(s: Net)
    requires Marks(s) && GoodPort(EnvelopeThread, s.envelope) && s.envelope.Unsent() != []
    ensures Marks(Delivered(s, EnvelopeThread))
  {
    hide Announced, GoodTrace;
    var p, e := s.envelope, Entry(EnvelopeThread, NextSend(s, EnvelopeThread));
    TraceAllowed(EnvelopeThread, p, p.sent);
    AnnouncedOwn(s.snapshot.log, p, EnvelopeThread, ToSnapshot(SnapshotShutdown), [], WORD_TO_COMPRESSION);
    AnnouncedOwn(s.compression.log, p, EnvelopeThread, ToCompression(CompressionShutdown),
                 [ToSnapshot(SnapshotShutdown)], []);
    AnnouncedOther(s.snapshot.log, e, s.hinter, HintsThread, ToSnapshot(HintsComplete), []);
    AnnouncedOther(s.storage.log, e, s.snapper, SnapshotThread, ToStorage(StorageShutdown), []);
  }

  lemma {:induction false} HintsMarks(s: Net)
    requires Marks(s) && GoodPort(HintsThread, s.hinter) && s.hinter.Unsent() != []
    ensures Marks(Delivered(s, HintsThread))
  {
    hide Announced, GoodTrace;
    var p, e := s.hinter, Entry(HintsThread, NextSend(s, HintsThread));
    TraceAllowed(HintsThread, p, p.sent);
    AnnouncedOwn(s.snapshot.log, p, HintsThread, ToSnapshot(HintsComplete), [], []);
    AnnouncedOther(s.snapshot.log, e, s.envelope, EnvelopeThread, ToSnapshot(SnapshotShutdown), WORD_TO_COMPRESSION);
    AnnouncedOther(s.storage.log, e, s.snapper, SnapshotThread, ToStorage(StorageShutdown), []);
  }

  lemma {:induction false} OtherMarks(s: Net, t: Thread)
    requires Marks(s) && GoodPort(t, PortOf(s, t)) && PortOf(s, t).Unsent() != []
    requires !t.EnvelopeThread? && !t.HintsThread?
    ensures Marks(Delivered(s, t))
  {
    hide Announced, GoodTrace;
    var p, e := PortOf(s, t), Entry(t, NextSend(s, t));
    TraceAllowed(t, p, p.sent);
    match t
    case Main =>
    case Ingest => AnnouncedOwn(s.derive.log, p, t, ToDerive(DeriveShutdown), [], []);
    case CompressionThread =>
      AnnouncedOther(s.storage.log, e, s.snapper, SnapshotThread, ToStorage(StorageShutdown), []);
    case SnapshotThread => AnnouncedOwn(s.storage.log, p, t, ToStorage(StorageShutdown), [], []);
    case StorageThread =>
  }

  lemma {:induction false} DeliveredMarks(s: Net, t: Thread)
    requires Marks(s) && GoodPort(t, PortOf(s, t)) && PortOf(s, t).Unsent() != []
    ensures Marks(Delivered(s, t))
  {
    if t.EnvelopeThread? {
      EnvelopeMarks(s);
    } else if t.HintsThread? {
      HintsMarks(s);
    } else {
      OtherMarks(s, t);
    }
  }

  lemma {:induction false} DeliveredStops(s: Net, t: Thread)
    requires Inv(s) && PortOf(s, t).Unsent() != []
    ensures Stops(Delivered(s, t))
  {
    hide Marks, Flags, Keeper, GoodTrace, MarksOf, GoodChannel;
    var p, m := PortOf(s, t), NextSend(s, t);
    var p' := p.(sent := p.sent + 1);
    assert GoodPort(t, p);
    assert p.Unsent() == [m] + p'.Unsent();
    TraceAllowed(t, p, p.sent);
    match t
    case Main =>
    case Ingest =>
    case EnvelopeThread =>
    case HintsThread =>
    case CompressionThread =>
    case SnapshotThread =>
    case StorageThread =>
  }

  lemma {:induction false} PushKeepsTaken(ch: Channel, e: Entry)
    requires ch.taken <= |ch.log|
    ensures ch.(log := ch.log + [e]).Taken() == ch.Taken()
  {
  }

  lemma {:induction false} DeliveredFrame(s: Net, t: Thread)
    requires PortOf(s, t).Unsent() != []
    ensures var s', m := Delivered(s, t), NextSend(s, t);
            && s'.snapshot == (if m.ToSnapshot? then s.snapshot.(log := s.snapshot.log + [Entry(t, m)]) else s.snapshot)
            && s'.storage == (if m.ToStorage? then s.storage.(log := s.storage.log + [Entry(t, m)]) else s.storage)
            && s'.snap == s.snap && s'.snapper.phase == s.snapper.phase && s'.keeper.phase == s.keeper.phase
  {
  }

  lemma {:induction false} DeliveredFlags(s: Net, t: Thread)
    requires Flags(s) && Locals(s) && PortOf(s, t).Unsent() != []
    ensures Flags(Delivered(s, t))
    ensures Delivered(s, t).storage.Taken() == s.storage.Taken()
  {
    var e := Entry(t, NextSend(s, t));
    assert GoodChannel(SnapshotChan, ChannelOf(s, SnapshotChan)) && GoodChannel(StorageChan, ChannelOf(s, StorageChan));
    PushKeepsTaken(s.snapshot, e);
    PushKeepsTaken(s.storage, e);
    DeliveredFrame(s, t);
    assert Delivered(s, t).snapshot.Taken() == s.snapshot.Taken();
  }

  lemma {:induction false} LastSendIsMark(s: Net)
    requires Inv(s) && s.snapper.Unsent() != [] && !s.snapper.phase.Running?
    requires s.snapper.sent + 1 == |s.snapper.trace|
    ensures NextSend(s, SnapshotThread) == ToStorage(StorageShutdown)
  {
    assert GoodPort(SnapshotThread, PortOf(s, SnapshotThread));
    assert s.snapper.trace[|s.snapper.trace| - 1..] == [ToStorage(StorageShutdown)];
  }

  lemma {:induction false} ShutdownLastPush(log: seq<Entry>, e: Entry)
    requires ShutdownLast(log) && (Has(log, ToStorage(StorageShutdown)) ==> e.sender == CompressionThread)
    ensures ShutdownLast(log + [e])
  {
  }

  /** One more entry in storage's channel. */
  lemma {:induction false} KeeperPush(s: Net, s': Net, e: Entry)
    requires Keeper(s) && s.storage.taken <= |s.storage.log|
    requires s'.stored == s.stored && s'.keeper.phase == s.keeper.phase
    requires s'.storage == s.storage.(log := s.storage.log + [e])
    requires Has(s.storage.log, ToStorage(StorageShutdown)) ==> e.sender == CompressionThread
    requires Silent(s'.snapper) ==> Silent(s.snapper) || e.msg == ToStorage(StorageShutdown)
    ensures Keeper(s')
  {
    HasPush(s.storage.log, e, ToStorage(StorageShutdown));
    ShutdownLastPush(s.storage.log, e);
    PushKeepsTaken(s.storage, e);
  }

  /** Once storage has been told to shut down, only the compression thread can still send to it. */
  lemma {:induction false} LateSender(s: Net, t: Thread)
    requires Inv(s) && PortOf(s, t).Unsent() != [] && NextSend(s, t).ToStorage?
    requires Has(s.storage.log, ToStorage(StorageShutdown))
    ensures t == CompressionThread
  {
    assert GoodPort(t, PortOf(s, t));
    TraceAllowed(t, PortOf(s, t), PortOf(s, t).sent);
  }

  lemma {:induction false} SilencedByMark(s: Net, t: Thread)
    requires Inv(s) && PortOf(s, t).Unsent() != [] && Silent(Delivered(s, t).snapper)
    ensures Silent(s.snapper) || (t.SnapshotThread? && NextSend(s, t) == ToStorage(StorageShutdown))
  {
    hide Marks, Stops, Flags, Keeper, GoodTrace;
    assert !t.Main? ==> GoodPort(t, PortOf(s, t));
    if t.SnapshotThread? {
      LastSendIsMark(s);
    }
  }

  lemma {:induction false} DeliveredStored(s: Net, t: Thread)
    requires PortOf(s, t).Unsent() != []
    ensures Delivered(s, t).stored == s.stored
  {
  }

  lemma {:induction false} KeeperFrame(s: Net, s': Net)
    requires Keeper(s) && s'.stored == s.stored && s'.storage == s.storage && s'.keeper.phase == s.keeper.phase
    requires Silent(s'.snapper) ==> Silent(s.snapper)
    ensures Keeper(s')
  {
  }

  lemma {:induction false} DeliveredKeeper(s: Net, t: Thread)
    requires Inv(s) && PortOf(s, t).Unsent() != []
    ensures Keeper(Delivered(s, t))
  {
    hide Marks, Stops, Flags, Silent, ShutdownLast, Keeper;
    var s', m := Delivered(s, t), NextSend(s, t);
    DeliveredFrame(s, t);
    DeliveredStored(s, t);
    assert GoodChannel(StorageChan, ChannelOf(s, StorageChan));
    if Silent(s'.snapper) {
      SilencedByMark(s, t);
    }
    if m.ToStorage? {
      if Has(s.storage.log, ToStorage(StorageShutdown)) {
        LateSender(s, t);
      }
      KeeperPush(s, s', Entry(t, m));
    } else {
      KeeperFrame(s, s');
    }
  }

  lemma {:induction false} SendKeeps(u: Setup, s: Net, t: Thread)
    requires Inv(s) && Enabled(s, SendNext(t))
    ensures Inv(Apply(u, s, SendNext(t)))
  {
    hide GoodTrace, Announced, GoodChannel, ShutdownLast, Has;
    OnlyCompressionIsLost(s, t);
    var p := PortOf(s, t);
    assert !t.Main? ==> GoodPort(t, p);
    if ChannelOf(s, ChanOf(NextSend(s, t))).open {
      DeliveredLocals(s, t);
      assert GoodPort(t, PortOf(s, t));
      DeliveredMarks(s, t);
      DeliveredStops(s, t);
      DeliveredFlags(s, t);
      DeliveredKeeper(s, t);
    } else {
      AdvanceGood(t, p);
      PortChange(s, t, p.(sent := p.sent + 1));
    }
  }
}
