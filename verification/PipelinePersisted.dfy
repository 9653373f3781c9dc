/** What becomes of the raw events: over every run of the pipeline, which of them reach storage. */
module PipelinePersisted {
  import opened Wrappers
  import opened Events
  import opened Mealy
  import opened Seqs
  import opened PipelineTypes
  import opened Pipeline
  import opened PipelineInvariant
  import opened PipelineSafety
  import opened PipelineProgress
  import opened PipelineOutcome
  import opened RawToEnvelopes
  import opened RawPersistence
  import opened EventChain
  import CS = CompressionStage
  import ES = EnvelopeStage
  import HS = HintsStage
  import SS = SnapshotStage
  import Shown = PipelineShown

  function RawOf(m: Send): seq<RawEvent> {
    match m case ToStorage(RawEventCmd(e)) => [e] case _ => []
  }

  function JobsTaken(s: Net): seq<Job> {
    FlatMap(JobOf, Msgs(s.compression.Taken()))
  }

  /** The compression thread has forwarded what is persisted of the jobs it took. */
  ghost predicate Forwards(u: Setup, s: Net) {
    FlatMap(RawOf, s.compressor.trace) == FlatMap(PersistedOf(u.persistRaw), JobsTaken(s))
  }

  /** Storage's channel has got the raw events sent, in order, but for those sent after it was closed. */
  ghost predicate RawLog(s: Net) {
    var p, got := s.compressor, FlatMap(RawOf, Msgs(s.storage.log));
    && p.sent <= |p.trace|
    && got <= FlatMap(RawOf, p.trace[..p.sent])
    && (s.storage.open ==> got == FlatMap(RawOf, p.trace[..p.sent]))
  }

  // ---------- One step ----------

  lemma {:induction false} RawsOfSends(events: seq<RawEvent>)
    ensures FlatMap(RawOf, CS.RawSends(events)) == events
  {
    if events != [] {
      var init, last := events[..|events| - 1], events[|events| - 1];
      RawsOfSends(init);
      assert CS.RawSends(events) == CS.RawSends(init) + [ToStorage(RawEventCmd(last))];
      FlatMapAppend(RawOf, CS.RawSends(init), ToStorage(RawEventCmd(last)));
    }
  }

  lemma {:induction false} RawsOfJob(persistRaw: bool, m: Send, compact: seq<nat>)
    ensures FlatMap(RawOf, Forwarded(persistRaw, m, compact)) == FlatMap(PersistedOf(persistRaw), JobOf(m))
  {
    if m.ToCompression? && m.compression.Process? {
      var events, envs := m.compression.batch, m.compression.envelopes;
      var raws := CS.Persisted(persistRaw, events, envs);
      FlatMapOne(PersistedOf(persistRaw), Job(events, envs));
      if events != [] {
        RawsOfSends(raws);
        FlatMapConcat(RawOf, CS.RawSends(raws), CS.CompactSends(compact));
        NoRaws(compact);
      }
    }
  }

  lemma {:induction false} NoRaws(compact: seq<nat>)
    ensures FlatMap(RawOf, CS.CompactSends(compact)) == []
  {
    if compact != [] {
      FlatMapOne(RawOf, ToStorage(CompactEventsCmd(compact)));
    }
  }

  lemma {:induction false} JobTaken(u: Setup, s: Net, compact: seq<nat>)
    requires Forwards(u, s) && Enabled(s, ReceiveCompression(compact))
    ensures Forwards(u, Apply(u, s, ReceiveCompression(compact)))
  {
    hide FlatMap, Forwarded, JobOf, Msgs;
    var m := s.compression.log[s.compression.taken].msg;
    TakenMsgs(s.compression);
    FlatMapAppend(JobOf, Msgs(s.compression.Taken()), m);
    FlatMapConcat(PersistedOf(u.persistRaw), JobsTaken(s), JobOf(m));
    if m == ToCompression(CompressionShutdown) {
      ShutdownIsNone(u.persistRaw);
      FlatMapConcat(RawOf, s.compressor.trace, []);
      FlatMapNone(RawOf);
    } else {
      var sends := Forwarded(u.persistRaw, m, compact);
      RawsOfJob(u.persistRaw, m, compact);
      FlatMapConcat(RawOf, s.compressor.trace, sends);
    }
  }

  lemma {:induction false} ShutdownIsNone(persistRaw: bool)
    ensures FlatMap(PersistedOf(persistRaw), JobOf(ToCompression(CompressionShutdown))) == []
  {
  }

  lemma {:induction false} SameForwards(u: Setup, s: Net, s': Net)
    requires Forwards(u, s)
    requires s'.compressor.trace == s.compressor.trace && s'.compression.Taken() == s.compression.Taken()
    ensures Forwards(u, s')
  {
  }

  /** Neither what the compression thread decided and took, nor storage's channel, is changed. */
  predicate Untouched(s: Net, s': Net) {
    && s'.compressor.trace == s.compressor.trace && s'.compressor.sent == s.compressor.sent
    && s'.compression.Taken() == s.compression.Taken()
    && s'.storage.log == s.storage.log && (s'.storage.open ==> s.storage.open)
  }

  lemma {:induction false} OtherReceives(u: Setup, s: Net, a: Action)
    requires Enabled(s, a) && (a.ReceiveDerive? || a.ReceiveHint? || a.ReceiveSnapshot? || a.ReceiveStorage?)
    ensures Untouched(s, Apply(u, s, a))
  {
    hide ES.Handle, HS.HandleHint, SS.HandleMessage;
  }

  lemma {:induction false} OthersDecideNothing(u: Setup, s: Net, a: Action)
    requires Enabled(s, a) && !a.SendNext? && !a.ReceiveCompression?
    ensures Untouched(s, Apply(u, s, a))
  {
    hide ApplyReceive, HS.FinishHints, SS.Disconnect;
    if a.ReceiveDerive? || a.ReceiveHint? || a.ReceiveSnapshot? || a.ReceiveStorage? {
      OtherReceives(u, s, a);
    }
  }

  lemma {:induction false} SendDecidesNothing(u: Setup, s: Net, t: Thread)
    requires Locals(s) && Enabled(s, SendNext(t))
    ensures var s' := Apply(u, s, SendNext(t));
            s'.compressor.trace == s.compressor.trace && s'.compression.Taken() == s.compression.Taken()
  {
    hide Locals, ES.Handle;
    TakenInLog(s, CompressionChan);
    var p, m := PortOf(s, t), NextSend(s, t);
    assert p.trace[p.sent] == m;
    PushKeepsTaken(s.compression, Entry(t, m));
  }

  lemma {:induction false} ForwardsStep(u: Setup, s: Net, a: Action)
    requires Locals(s) && Forwards(u, s) && Enabled(s, a)
    ensures Forwards(u, Apply(u, s, a))
  {
    hide Locals, Forwards, Apply;
    if a.ReceiveCompression? {
      JobTaken(u, s, a.compact);
    } else if a.SendNext? {
      SendDecidesNothing(u, s, a.t);
      SameForwards(u, s, Apply(u, s, a));
    } else {
      OthersDecideNothing(u, s, a);
      SameForwards(u, s, Apply(u, s, a));
    }
  }

  lemma {:induction false} LogFrame(s: Net, s': Net)
    requires RawLog(s)
    requires s.compressor.trace <= s'.compressor.trace && s'.compressor.sent == s.compressor.sent
    requires s'.storage.log == s.storage.log && (s'.storage.open ==> s.storage.open)
    ensures RawLog(s')
  {
    assert s'.compressor.trace[..s.compressor.sent] == s.compressor.trace[..s.compressor.sent];
  }

  lemma {:induction false} JobLogsNothing(u: Setup, s: Net, compact: seq<nat>)
    requires Enabled(s, ReceiveCompression(compact))
    ensures var s' := Apply(u, s, ReceiveCompression(compact));
            && s.compressor.trace <= s'.compressor.trace && s'.compressor.sent == s.compressor.sent
            && s'.storage.log == s.storage.log && s'.storage.open == s.storage.open
  {
  }

  /** The compression thread's next send is delivered, or lost. */
  lemma {:induction false} OwnSendLogs(u: Setup, s: Net)
    requires Locals(s) && RawLog(s) && Enabled(s, SendNext(CompressionThread))
    ensures RawLog(Apply(u, s, SendNext(CompressionThread)))
  {
    hide Locals, FlatMap, Msgs, RawOf;
    var p := s.compressor;
    var m := p.trace[p.sent];
    OnlyToStorage(s);
    assert p.trace[..p.sent + 1] == p.trace[..p.sent] + [m];
    FlatMapAppend(RawOf, p.trace[..p.sent], m);
    LogAppend(s.storage.log, Entry(CompressionThread, m));
  }

  lemma {:induction false} OnlyToStorage(s: Net)
    requires Locals(s) && s.compressor.Unsent() != []
    ensures s.compressor.trace[s.compressor.sent].ToStorage?
  {
    assert GoodPort(CompressionThread, PortOf(s, CompressionThread));
    TraceAllowed(CompressionThread, s.compressor, s.compressor.sent);
  }

  lemma {:induction false} LogAppend(log: seq<Entry>, e: Entry)
    ensures FlatMap(RawOf, Msgs(log + [e])) == FlatMap(RawOf, Msgs(log)) + RawOf(e.msg)
  {
    PushLog(Main, log, e);
    FlatMapAppend(RawOf, Msgs(log), e.msg);
  }

  /** No other thread sends raw events. */
  lemma {:induction false} OthersSendNoRaw(s: Net, t: Thread)
    requires Locals(s) && !t.CompressionThread? && PortOf(s, t).Unsent() != []
    ensures RawOf(NextSend(s, t)) == []
  {
    assert GoodPort(t, PortOf(s, t));
    TraceAllowed(t, PortOf(s, t), PortOf(s, t).sent);
  }

  lemma {:induction false} OtherSend(u: Setup, s: Net, t: Thread)
    requires Enabled(s, SendNext(t)) && !t.CompressionThread?
    ensures var s' := Apply(u, s, SendNext(t));
            && s'.compressor == s.compressor && s'.storage.open == s.storage.open
            && (s'.storage.log == s.storage.log || s'.storage.log == s.storage.log + [Entry(t, NextSend(s, t))])
  {
    assert PortOf(s, t).trace[PortOf(s, t).sent] == NextSend(s, t);
  }

  lemma {:induction false} OtherSendLogs(u: Setup, s: Net, t: Thread)
    requires Locals(s) && RawLog(s) && Enabled(s, SendNext(t)) && !t.CompressionThread?
    ensures RawLog(Apply(u, s, SendNext(t)))
  {
    hide Locals, FlatMap, Msgs, RawOf, Apply;
    OthersSendNoRaw(s, t);
    OtherSend(u, s, t);
    LogAppend(s.storage.log, Entry(t, NextSend(s, t)));
    assert FlatMap(RawOf, Msgs(s.storage.log)) + [] == FlatMap(RawOf, Msgs(s.storage.log));
  }

  lemma {:induction false} JobLogs(u: Setup, s: Net, compact: seq<nat>)
    requires RawLog(s) && Enabled(s, ReceiveCompression(compact))
    ensures RawLog(Apply(u, s, ReceiveCompression(compact)))
  {
    hide RawLog, Apply;
    JobLogsNothing(u, s, compact);
    LogFrame(s, Apply(u, s, ReceiveCompression(compact)));
  }

  lemma {:induction false} OthersLog(u: Setup, s: Net, a: Action)
    requires RawLog(s) && Enabled(s, a) && !a.SendNext? && !a.ReceiveCompression?
    ensures RawLog(Apply(u, s, a))
  {
    hide RawLog, Apply;
    OthersDecideNothing(u, s, a);
    LogFrame(s, Apply(u, s, a));
  }

  lemma {:induction false} LogStep(u: Setup, s: Net, a: Action)
    requires Locals(s) && RawLog(s) && Enabled(s, a)
    ensures RawLog(Apply(u, s, a))
  {
    hide Locals, RawLog, Apply, Enabled;
    match a
    case SendNext(t) =>
      if t.CompressionThread? {
        OwnSendLogs(u, s);
      } else {
        OtherSendLogs(u, s, t);
      }
    case ReceiveCompression(compact) => JobLogs(u, s, compact);
    case _ => OthersLog(u, s, a);
  }

  // ---------- Every run ----------

  lemma {:induction false} RunForwards(u: Setup, s: Net, run: seq<Action>, s': Net)
    requires Inv(s) && Forwards(u, s) && RawLog(s) && Leads(u, s, run, s')
    ensures Forwards(u, s') && RawLog(s')
    decreases |run|
  {
    hide Forwards, RawLog, Apply, Locals, Marks, Stops, Flags, Keeper;
    if run != [] {
      StepKeeps(u, s, run[0]);
      ForwardsStep(u, s, run[0]);
      LogStep(u, s, run[0]);
      RunForwards(u, Apply(u, s, run[0]), run[1..], s');
    }
  }

  lemma {:induction false} ReachableForwards(u: Setup, s: Net)
    requires Fresh(u) && Reachable(u, s)
    ensures Forwards(u, s) && RawLog(s)
  {
    hide Forwards, RawLog, Leads, Inv, Start, Fresh;
    var run: seq<Action> :| Leads(u, Start(u), run, s);
    StartHolds(u);
    StartForwards(u);
    RunForwards(u, Start(u), run, s);
  }

  lemma {:induction false} StartForwards(u: Setup)
    ensures Forwards(u, Start(u)) && RawLog(Start(u))
  {
  }

  // ---------- The end ----------

  /** The jobs in the compression thread's channel are those that the envelope thread has sent. */
  lemma {:induction false} JobsSent(s: Net)
    requires Inv(s) && Logs(s) && Final(s)
    ensures JobsTaken(s) == FlatMap(JobOf, s.envelope.trace)
  {
    hide Marks, Flags, Keeper, FlatMap, By, On, Msgs, Logs;
    JobsDrained(s);
    FinalTraces(s);
    OnlyEnvelopeHasJobs(s);
    SeenBy(JobOf, EnvelopeThread, s.compression.log);
    SeenOn(JobOf, CompressionChan, s.envelope.trace);
    JobsWhole(s);
  }

  lemma {:induction false} JobsWhole(s: Net)
    requires WholeTraces(s)
    ensures By(EnvelopeThread, s.compression.log) == On(CompressionChan, s.envelope.trace)
  {
    assert PortOf(s, EnvelopeThread) == s.envelope && ChannelOf(s, CompressionChan) == s.compression;
  }

  lemma {:induction false} JobsDrained(s: Net)
    requires Stops(s) && Final(s)
    ensures s.compression.Taken() == s.compression.log
  {
    assert PortOf(s, CompressionThread).phase.Exited?;
    assert s.compression.log[..|s.compression.log|] == s.compression.log;
  }

  lemma {:induction false} OnlyEnvelopeHasJobs(s: Net)
    requires Locals(s)
    ensures OnlySeen(JobOf, EnvelopeThread, s.compression.log)
  {
    assert GoodChannel(CompressionChan, ChannelOf(s, CompressionChan));
  }

  lemma {:induction false} JobsOfCommands(u: Setup, s: Net)
    requires Fresh(u) && EnvelopeContent(u, s)
    ensures FlatMap(JobOf, s.envelope.trace) == JobsDue(None, Commands(s))
  {
    hide FlatMap, ES.Handle, JobsDue, Run;
    FreshAgrees(u);
    JobsFollow(u.local0, Commands(s));
    Shown.FreshPlace(u);
  }

  lemma {:induction false} PrefixOfPrefix<T>(a: seq<T>, b: seq<T>, c: seq<T>)
    requires a <= b && b <= c
    ensures a <= c
  {
  }

  lemma {:induction false} SeenInFront<B>(f: Send -> seq<B>, sends: seq<Send>, k: nat)
    requires k <= |sends|
    ensures FlatMap(f, sends[..k]) <= FlatMap(f, sends)
  {
    FlatMapConcat(f, sends[..k], sends[k..]);
    assert sends == sends[..k] + sends[k..];
  }

  /** In every reachable state, what has reached storage's channel of the raw events is a front part of what the
      jobs taken so far contain. */
  lemma {:induction false} RawsSoFar(u: Setup, s: Net)
    requires Fresh(u) && Reachable(u, s)
    ensures FlatMap(RawOf, Msgs(s.storage.log)) <= FlatMap(PersistedOf(u.persistRaw), JobsTaken(s))
  {
    hide Reachable, FlatMap, JobsTaken, Msgs;
    ReachableForwards(u, s);
    SeenInFront(RawOf, s.compressor.trace, s.compressor.sent);
  }

  /** At the end of every run in which raw events are persisted, the compression thread has sent every raw event
      that ingest delivered, once and in order, and so also the input at the login window, which the
      documentation wants suppressed: it is, exactly if there was none.  What storage got is a front part. */
  lemma {:induction false} RawsAtTheEnd(u: Setup, s: Net)
    requires Fresh(u) && Reachable(u, s) && Final(s)
    ensures var delivered, sent := Shown.Delivered(s), FlatMap(RawOf, s.compressor.trace);
            && sent == (if u.persistRaw then delivered else [])
            && (u.persistRaw ==> (sent == Unlocked(None, delivered) <==> !TypesAtLogin(None, delivered)))
            && FlatMap(RawOf, Msgs(s.storage.log)) <= sent
  {
    hide Reachable, Final, FlatMap, Inv, Logs, EnvelopeContent, HintsContent, SnapContent, Fresh, JobsTaken, JobsDue,
         TypesAtLogin, Unlocked, Msgs;
    ReachableContent(u, s);
    ReachableForwards(u, s);
    JobsSent(s);
    JobsOfCommands(u, s);
    JobsPersistAll(u.persistRaw, None, Commands(s));
    RawsSoFar(u, s);
    UnlockedIff(None, Shown.Delivered(s));
  }
}
