/** A raw event can reach storage's channel behind the shutdown command, whenever raw events are persisted
    at all: the compression thread is not waited for. */
module PipelineLateEvents {
  import opened Wrappers
  import opened Events
  import opened Mealy
  import opened PipelineTypes
  import opened Pipeline
  import opened PipelineInvariant
  import opened PipelineSafety
  import opened PipelineProgress
  import opened RawToEnvelopes
  import opened RawPersistence
  import ES = EnvelopeStage

  lemma {:induction false} LeadsOn(u: Setup, s: Net, run: seq<Action>, mid: Net, more: seq<Action>, s': Net)
    requires Leads(u, s, run, mid) && Leads(u, mid, more, s')
    ensures Leads(u, s, run + more, s')
    decreases |run|
  {
    if run == [] {
      assert run + more == more;
    } else {
      LeadsOn(u, Apply(u, s, run[0]), run[1..], mid, more, s');
      assert (run + more)[1..] == run[1..] + more;
    }
  }

  lemma {:induction false} LeadsOne(u: Setup, s: Net, a: Action)
    requires Enabled(s, a)
    ensures Leads(u, s, [a], Apply(u, s, a))
  {
    assert [a][1..] == [];
  }

  // ---------- The compression thread sleeps ----------

  /** Neither the compression nor the storage thread has moved. */
  predicate Asleep(s: Net, s': Net) {
    s'.compressor == s.compressor && s'.keeper == s.keeper && s'.storage.open == s.storage.open
  }

  lemma {:induction false} OthersLetSleep(u: Setup, s: Net, a: Action)
    requires Enabled(s, a) && !Actor(a).CompressionThread? && !Actor(a).StorageThread?
    ensures Asleep(s, Apply(u, s, a))
  {
  }

  /** Until storage has been told to shut down, one of the other threads can move. */
  lemma {:induction false} SomeoneElseMoves(s: Net) returns (a: Action)
    requires Inv(s) && !s.ingest.phase.Running? && !Has(s.storage.log, ToStorage(StorageShutdown))
    ensures Enabled(s, a) && !Actor(a).CompressionThread? && !Actor(a).StorageThread?
  {
    hide Marks, Stops, Flags, GoodTrace, GoodChannel, ShutdownLast;
    assert GoodPort(SnapshotThread, PortOf(s, SnapshotThread));
    if s.spawner != {} {
      var c :| c in s.spawner;
      a := DropSender(Main, c);
    } else if !Gone(s, Ingest) {
      a := IdleOrMoves(s, Ingest);
    } else if !Gone(s, EnvelopeThread) {
      a := StageMoves(s, EnvelopeThread);
    } else if !Gone(s, HintsThread) {
      a := StageMoves(s, HintsThread);
    } else {
      a := StageMoves(s, SnapshotThread);
    }
  }

  /** A stage whose senders are gone can move, unless it is gone itself. */
  lemma {:induction false} StageMoves(s: Net, t: Thread) returns (a: Action)
    requires Locals(s) && !t.Main? && !t.Ingest? && !Gone(s, t) && s.spawner == {}
    requires forall t': Thread :: !t'.Main? && ChannelIn(t) in EndsOf(t') ==> Gone(s, t')
    ensures Enabled(s, a) && Actor(a) == t
  {
    if PortOf(s, t).Idle() {
      a := WaitingMoves(s, t);
    } else {
      a := IdleOrMoves(s, t);
    }
  }

  /** So the others get storage shut down, however long the compression thread sleeps. */
  lemma {:induction false} ShutdownWithoutCompression(u: Setup, s: Net) returns (run: seq<Action>, s': Net)
    requires Inv(s) && !s.ingest.phase.Running?
    ensures Leads(u, s, run, s') && Asleep(s, s') && Has(s'.storage.log, ToStorage(StorageShutdown))
    decreases Left(s, 0), Left(s, 1), Left(s, 2), Left(s, 3), Left(s, 4), Left(s, 5), Left(s, 6), Left(s, 7),
              Left(s, 8),
              Left(s, 9), Left(s, 10)
  {
    hide Inv, Has, Apply;
    if Has(s.storage.log, ToStorage(StorageShutdown)) {
      run, s' := [], s;
    } else {
      var a := SomeoneElseMoves(s);
      var next := Apply(u, s, a);
      StepDescends(u, s, a, next);
      OthersLetSleep(u, s, a);
      var rest;
      rest, s' := ShutdownWithoutCompression(u, next);
      run := [a] + rest;
      assert run[1..] == rest;
    }
  }

  // ---------- An event that the compression thread holds ----------

  /** One send of the running envelope thread, delivered. */
  lemma {:induction false} EnvelopeSends(u: Setup, s: Net) returns (s': Net)
    requires Inv(s) && s.envelope.phase.Running? && s.envelope.sent < |s.envelope.trace|
    ensures Enabled(s, SendNext(EnvelopeThread)) && s' == Apply(u, s, SendNext(EnvelopeThread))
    ensures Asleep(s, s') && s'.ingest == s.ingest && s'.envelope == s.envelope.(sent := s.envelope.sent + 1)
    ensures var m := s.envelope.trace[s.envelope.sent];
            && m != ToCompression(CompressionShutdown)
            && s'.compression
               == (if m.ToCompression? then s.compression.(log := s.compression.log + [Entry(EnvelopeThread, m)])
                   else s.compression)
  {
    hide Marks, Stops, Flags, Keeper;
    assert GoodPort(EnvelopeThread, PortOf(s, EnvelopeThread));
    assert s.envelope.Unsent()[0] == s.envelope.trace[s.envelope.sent];
    OnlyCompressionIsLost(s, EnvelopeThread);
    s' := Apply(u, s, SendNext(EnvelopeThread));
  }

  /** The envelope thread sends until the first job has reached the compression thread's channel. */
  lemma {:induction false} JobArrives(u: Setup, s: Net, k: nat) returns (run: seq<Action>, s': Net)
    requires Inv(s) && s.envelope.phase.Running? && s.compression.log == []
    requires s.envelope.sent <= k < |s.envelope.trace| && s.envelope.trace[k].ToCompression?
    requires forall i :: s.envelope.sent <= i < k ==> !s.envelope.trace[i].ToCompression?
    ensures Leads(u, s, run, s') && Inv(s') && Asleep(s, s') && s'.ingest == s.ingest
    ensures s'.compression.taken == s.compression.taken && |s'.compression.log| == 1
    ensures s'.compression.log[0].msg == s.envelope.trace[k]
    decreases k - s.envelope.sent
  {
    hide Inv;
    var next := EnvelopeSends(u, s);
    var a := SendNext(EnvelopeThread);
    StepKeeps(u, s, a);
    LeadsOne(u, s, a);
    if s.envelope.trace[s.envelope.sent].ToCompression? {
      run, s' := [a], next;
    } else {
      var rest;
      rest, s' := JobArrives(u, next, k);
      run := [a] + rest;
      LeadsOn(u, s, [a], next, rest, s');
    }
  }

  lemma {:induction false} BatchSent(u: Setup, e: RawEvent) returns (run: seq<Action>, s: Net)
    ensures Leads(u, Start(u), run, s)
    ensures s == Start(u).(ingest := s.ingest, derive := Channel([Entry(Ingest, ToDerive(Batch([e])))], 0, true))
    ensures s.ingest == Port([ToDerive(Batch([e]))], 1, Running, {DeriveChan})
  {
    var s0 := Start(u);
    var a, b := IngestEmit(Batch([e])), SendNext(Ingest);
    var s1 := Apply(u, s0, a);
    assert s1.ingest.trace == [ToDerive(Batch([e]))];
    s := Apply(u, s1, b);
    assert s.derive.log == [Entry(Ingest, ToDerive(Batch([e])))];
    LeadsOne(u, s0, a);
    LeadsOne(u, s1, b);
    run := [a] + [b];
    LeadsOn(u, s0, [a], s1, [b], s);
  }

  /** The job of a batch with one event, the first of a run. */
  function JobOfOne(e: RawEvent): Send {
    ToCompression(Process([e], AllTold(None, [e])))
  }

  /** The envelope thread takes the batch. */
  lemma {:induction false} BatchTaken(u: Setup, s: Net, e: RawEvent) returns (s': Net)
    requires s == Start(u).(ingest := s.ingest, derive := Channel([Entry(Ingest, ToDerive(Batch([e])))], 0, true))
    ensures Enabled(s, ReceiveDerive) && s' == Apply(u, s, ReceiveDerive)
    ensures s'.envelope.trace == ES.HandleBatch(u.local0, [e]).1 && s'.envelope.sent == 0
    ensures s'.envelope.phase.Running? && s'.compression == NEW_CHANNEL
    ensures s'.compressor == NewPort(CompressionThread) && s'.storage.open && s'.ingest == s.ingest
  {
    hide ES.HandleBatch;
    s' := Apply(u, s, ReceiveDerive);
    assert s'.envelope.trace == [] + ES.HandleBatch(u.local0, [e]).1;
  }

  /** The first batch has been taken and decided on; nothing else has happened. */
  lemma {:induction false} FirstBatch(u: Setup, e: RawEvent) returns (run: seq<Action>, s: Net, k: nat)
    requires Fresh(u)
    ensures Leads(u, Start(u), run, s) && s.envelope.phase.Running? && s.compression == NEW_CHANNEL
    ensures s.envelope.sent <= k < |s.envelope.trace| && s.envelope.trace[k] == JobOfOne(e)
    ensures forall i :: s.envelope.sent <= i < k ==> !s.envelope.trace[i].ToCompression?
    ensures s.compressor == NewPort(CompressionThread) && s.storage.open && s.ingest.Idle()
  {
    hide Apply, ES.HandleBatch, AllTold, Start;
    var sent, s1 := BatchSent(u, e);
    s := BatchTaken(u, s1, e);
    LeadsOne(u, s1, ReceiveDerive);
    run := sent + [ReceiveDerive];
    LeadsOn(u, Start(u), sent, s1, [ReceiveDerive], s);
    k := BatchHasOneJob(u.local0, [e]);
    forall i | 0 <= i < k
      ensures !s.envelope.trace[i].ToCompression?
    {
      assert s.envelope.trace[..k][i] == s.envelope.trace[i];
    }
  }

  /** The compression thread has decided to forward the event, and has not; ingest has stopped. */
  lemma {:induction false} EventHeld(u: Setup, e: RawEvent) returns (run: seq<Action>, s: Net)
    requires Fresh(u) && u.persistRaw
    ensures Leads(u, Start(u), run, s) && Inv(s) && !s.ingest.phase.Running? && s.storage.open
    ensures s.compressor.Unsent() == [ToStorage(RawEventCmd(e))]
  {
    var first, s1, k := FirstBatch(u, e);
    StartHolds(u);
    RunKeeps(u, Start(u), first, s1);
    var job, s2 := JobArrives(u, s1, k);
    LeadsOn(u, Start(u), first, s1, job, s2);
    var last;
    last, s := JobTaken(u, s2, e);
    LeadsOn(u, Start(u), first + job, s2, last, s);
    run := first + job + last;
  }

  lemma {:induction false} ForwardsOne(e: RawEvent)
    ensures Forwarded(true, JobOfOne(e), []) == [ToStorage(RawEventCmd(e))]
  {
    hide AllTold;
    SuppressesIff(None, [e]);
  }

  lemma {:induction false} JobTaken(u: Setup, s: Net, e: RawEvent) returns (run: seq<Action>, s': Net)
    requires Inv(s) && u.persistRaw
    requires s.ingest.Idle() && s.storage.open && s.compressor == NewPort(CompressionThread)
    requires s.compression.Pending() && s.compression.log[s.compression.taken].msg == JobOfOne(e)
    ensures Leads(u, s, run, s') && Inv(s') && !s'.ingest.phase.Running? && s'.storage.open
    ensures s'.compressor.Unsent() == [ToStorage(RawEventCmd(e))]
  {
    hide Inv, Forwarded;
    var a, b := ReceiveCompression([]), IngestShutdown([]);
    var mid := Apply(u, s, a);
    ForwardsOne(e);
    s' := Apply(u, mid, b);
    LeadsOne(u, s, a);
    LeadsOne(u, mid, b);
    run := [a] + [b];
    LeadsOn(u, s, [a], mid, [b], s');
    StepKeeps(u, s, a);
    StepKeeps(u, mid, b);
  }

  /** If raw events are persisted, every one of them may arrive behind the shutdown command, where nothing
      reads it. */
  lemma {:induction false} RawEventBehindShutdown(u: Setup, e: RawEvent) returns (s: Net, i: nat, j: nat)
    requires Fresh(u) && u.persistRaw
    ensures Reachable(u, s) && i < j < |s.storage.log|
    ensures s.storage.log[i].msg == ToStorage(StorageShutdown) && s.storage.log[j].msg == ToStorage(RawEventCmd(e))
  {
    hide Inv, Apply, Fresh;
    var run, held := EventHeld(u, e);
    var more, down := ShutdownWithoutCompression(u, held);
    LeadsOn(u, Start(u), run, held, more, down);
    var a := SendNext(CompressionThread);
    s := SentLate(u, down, e);
    LeadsOne(u, down, a);
    LeadsOn(u, Start(u), run + more, down, [a], s);
    i :| 0 <= i < |down.storage.log| && down.storage.log[i].msg == ToStorage(StorageShutdown);
    j := |down.storage.log|;
  }

  lemma {:induction false} SentLate(u: Setup, s: Net, e: RawEvent) returns (s': Net)
    requires s.compressor.Unsent() == [ToStorage(RawEventCmd(e))] && s.storage.open
    ensures Enabled(s, SendNext(CompressionThread)) && s' == Apply(u, s, SendNext(CompressionThread))
    ensures s'.storage.log == s.storage.log + [Entry(CompressionThread, ToStorage(RawEventCmd(e)))]
  {
    var p := s.compressor;
    assert p.trace[p.sent] == p.Unsent()[0];
    s' := Apply(u, s, SendNext(CompressionThread));
  }

  // ---------- Without raw events ----------

  predicate IsRaw(m: Send) {
    m.ToStorage? && m.storage.RawEventCmd?
  }

  predicate NoRaw(s: Net) {
    && (forall i :: 0 <= i < |s.compressor.trace| ==> !IsRaw(s.compressor.trace[i]))
    && (forall i :: 0 <= i < |s.storage.log| ==> !IsRaw(s.storage.log[i].msg))
  }

  /** Only the compression thread could send one. */
  lemma {:induction false} SendsNoRaw(s: Net, t: Thread)
    requires Locals(s) && NoRaw(s) && PortOf(s, t).Unsent() != []
    ensures !IsRaw(NextSend(s, t))
  {
    var p := PortOf(s, t);
    assert GoodPort(t, p);
    TraceAllowed(t, p, p.sent);
    assert t.CompressionThread? ==> !IsRaw(s.compressor.trace[p.sent]);
  }

  /** A send adds at most itself to storage's channel. */
  lemma {:induction false} SendExtends(u: Setup, s: Net, t: Thread)
    requires Enabled(s, SendNext(t))
    ensures var s' := Apply(u, s, SendNext(t));
            && s'.compressor.trace <= s.compressor.trace
            && s.storage.log <= s'.storage.log <= s.storage.log + [Entry(t, NextSend(s, t))]
  {
    var p, c := PortOf(s, t), ChanOf(NextSend(s, t));
    assert p.trace[p.sent] == NextSend(s, t);
    if ChannelOf(s, c).open {
      assert Apply(u, s, SendNext(t)) == Delivered(s, t);
    }
  }

  lemma {:induction false} SendNoRaw(u: Setup, s: Net, t: Thread)
    requires Locals(s) && NoRaw(s) && Enabled(s, SendNext(t))
    ensures NoRaw(Apply(u, s, SendNext(t)))
  {
    hide IsRaw, Locals, Apply, NextSend;
    SendsNoRaw(s, t);
    SendExtends(u, s, t);
  }

  lemma {:induction false} ReceiveNoRaw(u: Setup, s: Net, compact: seq<nat>)
    requires !u.persistRaw && NoRaw(s) && Enabled(s, ReceiveCompression(compact))
    ensures NoRaw(Apply(u, s, ReceiveCompression(compact)))
  {
    var sends := Forwarded(false, s.compression.log[s.compression.taken].msg, compact);
    assert forall i :: 0 <= i < |sends| ==> !IsRaw(sends[i]);
  }

  /** No other step decides what the compression thread sends, or adds to storage's channel. */
  lemma {:induction false} NothingForStorage(u: Setup, s: Net, a: Action)
    requires Enabled(s, a) && !a.SendNext? && !a.ReceiveCompression?
    ensures Apply(u, s, a).storage.log == s.storage.log && Apply(u, s, a).compressor.trace == s.compressor.trace
  {
  }

  lemma {:induction false} NoRawFrame(s: Net, s': Net)
    requires NoRaw(s) && s'.storage.log == s.storage.log && s'.compressor.trace == s.compressor.trace
    ensures NoRaw(s')
  {
  }

  lemma {:induction false} StepNoRaw(u: Setup, s: Net, a: Action)
    requires !u.persistRaw && Locals(s) && NoRaw(s) && Enabled(s, a)
    ensures NoRaw(Apply(u, s, a))
  {
    hide Locals, NoRaw;
    if a.SendNext? {
      SendNoRaw(u, s, a.t);
    } else if a.ReceiveCompression? {
      ReceiveNoRaw(u, s, a.compact);
    } else {
      NothingForStorage(u, s, a);
      NoRawFrame(s, Apply(u, s, a));
    }
  }

  lemma {:induction false} RunNoRaw(u: Setup, s: Net, run: seq<Action>, s': Net)
    requires !u.persistRaw && Inv(s) && NoRaw(s) && Leads(u, s, run, s')
    ensures NoRaw(s')
    decreases |run|
  {
    if run != [] {
      StepKeeps(u, s, run[0]);
      StepNoRaw(u, s, run[0]);
      RunNoRaw(u, Apply(u, s, run[0]), run[1..], s');
    }
  }

  predicate LateRaw(log: seq<Entry>, e: RawEvent) {
    exists i, j :: 0 <= i < j < |log|
                   && log[i].msg == ToStorage(StorageShutdown) && log[j].msg == ToStorage(RawEventCmd(e))
  }

  /** So a raw event can come too late exactly if raw events are persisted. */
  lemma {:induction false} RawEventsComeLateIff(u: Setup, e: RawEvent)
    requires Fresh(u)
    ensures (exists s: Net :: Reachable(u, s) && LateRaw(s.storage.log, e)) <==> u.persistRaw
  {
    if u.persistRaw {
      var s, i, j := RawEventBehindShutdown(u, e);
      assert LateRaw(s.storage.log, e);
    } else {
      forall s: Net | Reachable(u, s)
        ensures !LateRaw(s.storage.log, e)
      {
        var run: seq<Action> :| Leads(u, Start(u), run, s);
        StartHolds(u);
        RunNoRaw(u, Start(u), run, s);
        assert forall j :: 0 <= j < |s.storage.log| ==> !IsRaw(s.storage.log[j].msg);
      }
    }
  }
}
