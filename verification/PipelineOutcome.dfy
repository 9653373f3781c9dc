/** What has been stored and published when the pipeline has come to its end. */
module PipelineOutcome {
  import opened Wrappers
  import opened Events
  import opened Mealy
  import opened Seqs
  import opened RecordBuilder
  import opened PipelineTypes
  import opened Pipeline
  import opened PipelineInvariant
  import opened PipelineSafety
  import opened PipelineProgress
  import opened EventChain
  import opened RawToEnvelopes
  import opened Telling
  import opened SnapshotShows
  import ES = EnvelopeStage
  import HS = HintsStage
  import SS = SnapshotStage

  // ---------- Logs and traces ----------

  function Msgs(log: seq<Entry>): seq<Send> {
    if log == [] then [] else Msgs(log[..|log| - 1]) + [log[|log| - 1].msg]
  }

  /** What `t` has put on a channel, in order. */
  function By(t: Thread, log: seq<Entry>): seq<Send> {
    if log == [] then []
    else By(t, log[..|log| - 1]) + if log[|log| - 1].sender == t then [log[|log| - 1].msg] else []
  }

  /** The sends that go to one channel, in order. */
  function On(c: Chan, sends: seq<Send>): seq<Send> {
    if sends == [] then []
    else On(c, sends[..|sends| - 1]) + if ChanOf(sends[|sends| - 1]) == c then [sends[|sends| - 1]] else []
  }

  lemma {:induction false} PushLog(t: Thread, log: seq<Entry>, e: Entry)
    ensures By(t, log + [e]) == By(t, log) + if e.sender == t then [e.msg] else []
    ensures Msgs(log + [e]) == Msgs(log) + [e.msg]
  {
    assert (log + [e])[..|log|] == log;
  }

  lemma {:induction false} OnNext(c: Chan, trace: seq<Send>, i: nat)
    requires i < |trace|
    ensures On(c, trace[..i + 1]) == On(c, trace[..i]) + if ChanOf(trace[i]) == c then [trace[i]] else []
  {
    assert trace[..i + 1][..i] == trace[..i];
  }

  /** Nobody but `t` sends anything that `f` sees. */
  predicate OnlySeen<B>(f: Send -> seq<B>, t: Thread, log: seq<Entry>) {
    forall i :: 0 <= i < |log| && log[i].sender != t ==> f(log[i].msg) == []
  }

  lemma {:induction false} OnlySeenFront<B>(f: Send -> seq<B>, t: Thread, log: seq<Entry>, init: seq<Entry>, e: Entry)
    requires OnlySeen(f, t, log) && log == init + [e]
    ensures OnlySeen(f, t, init) && (e.sender != t ==> f(e.msg) == [])
  {
    assert log[|init|] == e && forall i :: 0 <= i < |init| ==> init[i] == log[i];
  }

  lemma {:induction false} SeenByMore<B>(f: Send -> seq<B>, t: Thread, init: seq<Entry>, e: Entry)
    requires FlatMap(f, Msgs(init)) == FlatMap(f, By(t, init)) && (e.sender != t ==> f(e.msg) == [])
    ensures FlatMap(f, Msgs(init + [e])) == FlatMap(f, By(t, init + [e]))
  {
    PushLog(t, init, e);
    FlatMapAppend(f, Msgs(init), e.msg);
    if e.sender == t {
      FlatMapAppend(f, By(t, init), e.msg);
    } else {
      assert FlatMap(f, Msgs(init)) + [] == FlatMap(f, Msgs(init)) && By(t, init) + [] == By(t, init);
    }
  }

  /** If only `t` sends anything that `f` sees, `f` sees as much in the log as in its part. */
  lemma {:induction false} SeenBy<B>(f: Send -> seq<B>, t: Thread, log: seq<Entry>)
    requires OnlySeen(f, t, log)
    ensures FlatMap(f, Msgs(log)) == FlatMap(f, By(t, log))
  {
    if log != [] {
      var init, e := log[..|log| - 1], log[|log| - 1];
      assert log == init + [e];
      OnlySeenFront(f, t, log, init, e);
      SeenBy(f, t, init);
      SeenByMore(f, t, init, e);
    }
  }

  lemma {:induction false} PushOn(c: Chan, sends: seq<Send>, m: Send)
    ensures On(c, sends + [m]) == On(c, sends) + if ChanOf(m) == c then [m] else []
  {
    assert (sends + [m])[..|sends|] == sends;
  }

  lemma {:induction false} SeenOn<B>(f: Send -> seq<B>, c: Chan, sends: seq<Send>)
    requires forall m: Send :: ChanOf(m) != c ==> f(m) == []
    ensures FlatMap(f, On(c, sends)) == FlatMap(f, sends)
  {
    if sends != [] {
      var init, m := sends[..|sends| - 1], sends[|sends| - 1];
      assert sends == init + [m];
      SeenOn(f, c, init);
      PushOn(c, init, m);
      FlatMapAppend(f, init, m);
      if ChanOf(m) == c {
        FlatMapAppend(f, On(c, init), m);
      } else {
        assert On(c, init) + [] == On(c, init) && FlatMap(f, init) + [] == FlatMap(f, init);
      }
    }
  }

  /** A number as so many tokens: sums are lengths. */
  function Tokens(f: Send -> nat): Send -> seq<()> {
    m => seq(f(m), _ => ())
  }

  lemma {:induction false} SumIsLength(f: Send -> nat, sends: seq<Send>)
    ensures Sum(f, sends) == |FlatMap(Tokens(f), sends)|
  {
    if sends != [] {
      SumIsLength(f, sends[..|sends| - 1]);
    }
  }

  lemma {:induction false} SumSeenBy(f: Send -> nat, t: Thread, log: seq<Entry>)
    requires forall i :: 0 <= i < |log| && log[i].sender != t ==> f(log[i].msg) == 0
    ensures Sum(f, Msgs(log)) == Sum(f, By(t, log))
  {
    assert OnlySeen(Tokens(f), t, log);
    SeenBy(Tokens(f), t, log);
    SumIsLength(f, Msgs(log));
    SumIsLength(f, By(t, log));
  }

  lemma {:induction false} SumSeenOn(f: Send -> nat, c: Chan, sends: seq<Send>)
    requires forall m: Send :: ChanOf(m) != c ==> f(m) == 0
    ensures Sum(f, On(c, sends)) == Sum(f, sends)
  {
    SeenOn(Tokens(f), c, sends);
    SumIsLength(f, On(c, sends));
    SumIsLength(f, sends);
  }

  /** Every channel holds of a thread exactly what that thread has sent to it so far. */
  ghost predicate LogOf(s: Net, t: Thread, c: Chan) {
    var p := PortOf(s, t);
    p.sent <= |p.trace| && By(t, ChannelOf(s, c).log) == On(c, p.trace[..p.sent])
  }

  predicate Tracked(t: Thread) {
    t.EnvelopeThread? || t.HintsThread? || t.SnapshotThread?
  }

  ghost predicate Logs(s: Net) {
    forall t: Thread, c: Chan :: Tracked(t) ==> LogOf(s, t, c)
  }

  lemma {:induction false} DeliveredPort(s: Net, t: Thread, t': Thread)
    requires PortOf(s, t).Unsent() != [] && !t'.Main?
    ensures PortOf(Delivered(s, t), t') == if t == t' then PortOf(s, t).(sent := PortOf(s, t).sent + 1)
                                           else PortOf(s, t')
  {
    PortFrame(s, t, PortOf(s, t).(sent := PortOf(s, t).sent + 1), t');
  }

  lemma {:induction false} DeliveredLog(s: Net, t: Thread, c: Chan)
    requires PortOf(s, t).Unsent() != []
    ensures ChannelOf(Delivered(s, t), c).log
         == ChannelOf(s, c).log + if c == ChanOf(NextSend(s, t)) then [Entry(t, NextSend(s, t))] else []
  {
    var p, ch := PortOf(s, t), ChannelOf(s, c);
    assert ChannelOf(WithPort(s, t, p.(sent := p.sent + 1)), c) == ch;
    assert ch.log + [] == ch.log;
  }

  /** A log and a trace that agree still do after one more entry. */
  lemma {:induction false} LogPush(t: Thread, c: Chan, log: seq<Entry>, e: Entry, trace: seq<Send>, sent: nat)
    requires sent <= |trace| && By(t, log) == On(c, trace[..sent])
    requires e.sender == t ==> sent < |trace| && trace[sent] == e.msg
    ensures By(t, log + if c == ChanOf(e.msg) then [e] else [])
         == On(c, trace[..if e.sender == t then sent + 1 else sent])
  {
    PushLog(t, log, e);
    assert log + [] == log;
    if e.sender == t {
      OnNext(c, trace, sent);
    }
    assert On(c, trace[..sent]) + [] == On(c, trace[..sent]);
  }

  lemma {:induction false} SendLogs(s: Net, t: Thread, t': Thread, c: Chan)
    requires LogOf(s, t', c) && Tracked(t') && PortOf(s, t).Unsent() != []
    ensures LogOf(Delivered(s, t), t', c)
  {
    var p, e := PortOf(s, t'), Entry(t, NextSend(s, t));
    DeliveredPort(s, t, t');
    DeliveredLog(s, t, c);
    LogPush(t', c, ChannelOf(s, c).log, e, p.trace, p.sent);
  }

  /** A step other than a send extends traces and leaves logs and send positions alone. */
  ghost predicate Quiet(s: Net, s': Net, t: Thread, c: Chan) {
    && ChannelOf(s', c).log == ChannelOf(s, c).log
    && PortOf(s', t).sent == PortOf(s, t).sent
    && PortOf(s, t).trace <= PortOf(s', t).trace
  }

  /** Receiving leaves every log and every send position alone, and extends traces. */
  ghost predicate OnlyDecides(s: Net, s': Net) {
    && s'.derive.log == s.derive.log && s'.hints.log == s.hints.log && s'.compression.log == s.compression.log
    && s'.snapshot.log == s.snapshot.log && s'.storage.log == s.storage.log
    && s'.envelope.sent == s.envelope.sent && s.envelope.trace <= s'.envelope.trace
    && s'.hinter.sent == s.hinter.sent && s.hinter.trace <= s'.hinter.trace
    && s'.snapper.sent == s.snapper.sent && s.snapper.trace <= s'.snapper.trace
  }

  lemma {:induction false} ReceiveDecides(u: Setup, s: Net, a: Action)
    requires Enabled(s, a)
    requires a.ReceiveDerive? || a.ReceiveHint? || a.ReceiveCompression? || a.ReceiveSnapshot? || a.ReceiveStorage?
    ensures OnlyDecides(s, Apply(u, s, a))
  {
    hide ES.Handle, HS.HandleHint, SS.HandleMessage, Forwarded;
  }

  lemma {:induction false} QuietReceive(u: Setup, s: Net, a: Action, t: Thread, c: Chan)
    requires Enabled(s, a) && Tracked(t)
    requires a.ReceiveDerive? || a.ReceiveHint? || a.ReceiveCompression? || a.ReceiveSnapshot? || a.ReceiveStorage?
    ensures Quiet(s, Apply(u, s, a), t, c)
  {
    hide Apply;
    ReceiveDecides(u, s, a);
  }

  lemma {:induction false} QuietDisconnected(u: Setup, s: Net, x: Thread, now: Time, t: Thread, c: Chan)
    requires Enabled(s, Disconnected(x, now)) && Tracked(t)
    ensures Quiet(s, Apply(u, s, Disconnected(x, now)), t, c)
  {
  }

  lemma {:induction false} QuietIngest(u: Setup, s: Net, a: Action, t: Thread, c: Chan)
    requires Enabled(s, a) && Tracked(t)
             && (a.IngestEmit? || a.IngestShutdown? || a.IngestDisconnect? || a.CloseReceiver?)
    ensures Quiet(s, Apply(u, s, a), t, c)
  {
  }

  lemma {:induction false} QuietPort(s: Net, x: Thread, p: Port, t: Thread, c: Chan)
    requires Tracked(t) && p.sent == PortOf(s, x).sent && p.trace == PortOf(s, x).trace
    ensures Quiet(s, WithPort(s, x, p), t, c)
  {
    PortFrame(s, x, p, t);
  }

  lemma {:induction false} QuietStep(u: Setup, s: Net, a: Action, t: Thread, c: Chan)
    requires Enabled(s, a) && !a.SendNext? && Tracked(t)
    ensures Quiet(s, Apply(u, s, a), t, c)
  {
    hide Quiet;
    match a
    case Disconnected(x, now) => QuietDisconnected(u, s, x, now, t, c);
    case Exit(x) => QuietPort(s, x, PortOf(s, x).(phase := Exited), t, c);
    case DropSender(x, d) => QuietPort(s, x, PortOf(s, x).(ends := PortOf(s, x).ends - {d}), t, c);
    case IngestEmit(_) => QuietIngest(u, s, a, t, c);
    case IngestShutdown(_) => QuietIngest(u, s, a, t, c);
    case IngestDisconnect => QuietIngest(u, s, a, t, c);
    case CloseReceiver(_) => QuietIngest(u, s, a, t, c);
    case _ => QuietReceive(u, s, a, t, c);
  }

  lemma {:induction false} QuietKeepsLog(s: Net, s': Net, t: Thread, c: Chan)
    requires LogOf(s, t, c) && Quiet(s, s', t, c)
    ensures LogOf(s', t, c)
  {
    var p, p' := PortOf(s, t), PortOf(s', t);
    assert p'.trace[..p.sent] == p.trace[..p.sent];
  }

  /** A send is delivered, or it is a late one of the compression thread. */
  lemma {:induction false} SendStepLogs(u: Setup, s: Net, x: Thread, t: Thread, c: Chan)
    requires LogOf(s, t, c) && Tracked(t) && Enabled(s, SendNext(x))
    requires ChannelOf(s, ChanOf(NextSend(s, x))).open || x.CompressionThread?
    ensures LogOf(Apply(u, s, SendNext(x)), t, c)
  {
    hide By, On;
    if ChannelOf(s, ChanOf(NextSend(s, x))).open {
      SendLogs(s, x, t, c);
    } else {
      PortFrame(s, x, PortOf(Apply(u, s, SendNext(x)), x), t);
    }
  }

  lemma {:induction false} LogsStep(u: Setup, s: Net, a: Action)
    requires Inv(s) && Logs(s) && Enabled(s, a)
    ensures Logs(Apply(u, s, a))
  {
    if a.SendNext? {
      OnlyCompressionIsLost(s, a.t);
    }
    LogsStepAt(u, s, a);
  }

  lemma {:induction false} LogsStepAt(u: Setup, s: Net, a: Action)
    requires Logs(s) && Enabled(s, a)
    requires a.SendNext? ==> ChannelOf(s, ChanOf(NextSend(s, a.t))).open || a.t.CompressionThread?
    ensures Logs(Apply(u, s, a))
  {
    hide LogOf, Quiet;
    var s' := Apply(u, s, a);
    forall t: Thread, c: Chan | Tracked(t)
      ensures LogOf(s', t, c)
    {
      assert LogOf(s, t, c);
      if a.SendNext? {
        SendStepLogs(u, s, a.t, t, c);
      } else {
        QuietStep(u, s, a, t, c);
        QuietKeepsLog(s, s', t, c);
      }
    }
  }

  // ---------- Steps that do not concern a stage ----------

  /** Nothing has changed for `w`: what it took, what it decided, what it knows. */
  predicate Same(s: Net, s': Net, w: Thread)
    requires Tracked(w)
  {
    && PortOf(s', w).trace == PortOf(s, w).trace
    && PortOf(s', w).phase.Running? == PortOf(s, w).phase.Running?
    && ChannelOf(s', ChannelIn(w)).Taken() == ChannelOf(s, ChannelIn(w)).Taken()
    && s'.local == (if w.EnvelopeThread? then s.local else s'.local)
    && s'.hintsLocal == (if w.HintsThread? then s.hintsLocal else s'.hintsLocal)
    && s'.snap == (if w.SnapshotThread? then s.snap else s'.snap)
  }

  predicate Concerns(a: Action, w: Thread) {
    match a
    case ReceiveDerive => w.EnvelopeThread?
    case ReceiveHint(_, _) => w.HintsThread?
    case ReceiveSnapshot(_) => w.SnapshotThread?
    case Disconnected(t, _) => t == w
    case _ => false
  }

  lemma {:induction false} TakenInLog(s: Net, c: Chan)
    requires Locals(s)
    ensures ChannelOf(s, c).taken <= |ChannelOf(s, c).log|
  {
    assert GoodChannel(c, ChannelOf(s, c));
  }

  lemma {:induction false} DeliveredSame(s: Net, t: Thread, w: Thread)
    requires Locals(s) && PortOf(s, t).Unsent() != [] && Tracked(w)
    ensures Same(s, Delivered(s, t), w)
  {
    TakenInLog(s, ChannelIn(w));
    DeliveredIsSame(s, t, w);
  }

  lemma {:induction false} DeliveredIsSame(s: Net, t: Thread, w: Thread)
    requires PortOf(s, t).Unsent() != [] && Tracked(w)
    requires ChannelOf(s, ChannelIn(w)).taken <= |ChannelOf(s, ChannelIn(w)).log|
    ensures Same(s, Delivered(s, t), w)
  {
    DeliveredPort(s, t, w);
    DeliveredChannelIn(s, t, ChannelIn(w));
    PushKeepsTaken(ChannelOf(s, ChannelIn(w)), Entry(t, NextSend(s, t)));
  }

  lemma {:induction false} DeliveredChannelIn(s: Net, t: Thread, c: Chan)
    requires PortOf(s, t).Unsent() != []
    ensures var ch := ChannelOf(s, c);
            ChannelOf(Delivered(s, t), c) == if c == ChanOf(NextSend(s, t))
                                             then ch.(log := ch.log + [Entry(t, NextSend(s, t))]) else ch
  {
  }

  lemma {:induction false} ReceiveSame(u: Setup, s: Net, a: Action, w: Thread)
    requires Enabled(s, a) && Tracked(w) && !Concerns(a, w)
    requires a.ReceiveDerive? || a.ReceiveHint? || a.ReceiveCompression? || a.ReceiveSnapshot? || a.ReceiveStorage?
    ensures Same(s, Apply(u, s, a), w)
  {
    hide ES.Handle, HS.HandleHint, SS.HandleMessage, Forwarded;
  }

  lemma {:induction false} QuietSame(u: Setup, s: Net, a: Action, w: Thread)
    requires Enabled(s, a) && Tracked(w) && !Concerns(a, w)
    requires a.IngestEmit? || a.IngestShutdown? || a.IngestDisconnect? || a.Disconnected? || a.CloseReceiver?
    ensures Same(s, Apply(u, s, a), w)
  {
    hide HS.FinishHints, SS.Disconnect;
  }

  lemma {:induction false} HandleSame(u: Setup, s: Net, a: Action, w: Thread)
    requires Enabled(s, a) && Tracked(w) && (a.Exit? || a.DropSender?)
    ensures Same(s, Apply(u, s, a), w)
  {
    var p := PortOf(s, a.t);
    if a.Exit? {
      PortFrame(s, a.t, p.(phase := Exited), w);
    } else {
      PortFrame(s, a.t, p.(ends := p.ends - {a.c}), w);
    }
  }

  lemma {:induction false} SendSame(u: Setup, s: Net, t: Thread, w: Thread)
    requires Inv(s) && Enabled(s, SendNext(t)) && Tracked(w)
    ensures Same(s, Apply(u, s, SendNext(t)), w)
  {
    hide Marks, Stops, Flags, Keeper;
    OnlyCompressionIsLost(s, t);
    if ChannelOf(s, ChanOf(NextSend(s, t))).open {
      DeliveredSame(s, t, w);
    } else {
      PortFrame(s, t, PortOf(Apply(u, s, SendNext(t)), t), w);
    }
  }

  lemma {:induction false} StepSame(u: Setup, s: Net, a: Action, w: Thread)
    requires Inv(s) && Enabled(s, a) && Tracked(w) && !Concerns(a, w)
    ensures Same(s, Apply(u, s, a), w)
  {
    hide Same, Inv;
    match a
    case SendNext(t) => SendSame(u, s, t, w);
    case Exit(_) => HandleSame(u, s, a, w);
    case DropSender(_, _) => HandleSame(u, s, a, w);
    case ReceiveDerive => ReceiveSame(u, s, a, w);
    case ReceiveHint(_, _) => ReceiveSame(u, s, a, w);
    case ReceiveCompression(_) => ReceiveSame(u, s, a, w);
    case ReceiveSnapshot(_) => ReceiveSame(u, s, a, w);
    case ReceiveStorage => ReceiveSame(u, s, a, w);
    case _ => QuietSame(u, s, a, w);
  }

  // ---------- What the records, counts and transitions say ----------

  function RecordStored(m: Send): seq<Record> {
    match m case ToStorage(RecordCmd(r)) => [r] case _ => []
  }

  function RecordShown(m: Send): seq<Record> {
    match m case ToSnapshot(RecordDone(r)) => [r] case _ => []
  }

  function MoveOfTransition(t: Transition): seq<Move> {
    [Move(t.from, t.to, t.at)]
  }

  function MoveStored(m: Send): seq<Move> {
    match m case ToStorage(TransitionCmd(t)) => MoveOfTransition(t) case _ => []
  }

  function Stamped(records: seq<Record>, runId: Option<string>): (out: seq<Record>)
    ensures |out| == |records|
  {
    seq(|records|, i requires 0 <= i < |records| => records[i].(runId := runId))
  }

  // Envelope thread

  function CommandOf(m: Send): seq<DeriveCommand> {
    match m case ToDerive(cmd) => [cmd] case _ => []
  }

  /** The commands that the envelope thread has taken. */
  function Commands(s: Net): seq<DeriveCommand> {
    FlatMap(CommandOf, Msgs(s.derive.Taken()))
  }

  /** The envelope thread has run exactly these: that is what it remembers and all it has decided to send. */
  ghost predicate EnvelopeContent(u: Setup, s: Net) {
    && s.local == Run(ES.Handle, u.local0, Commands(s)).0
    && s.envelope.trace == Run(ES.Handle, u.local0, Commands(s)).1
  }

  lemma {:induction false} FreshAgrees(u: Setup)
    requires Fresh(u)
    ensures Agree(u.local0)
  {
  }

  lemma {:induction false} EnvelopeSound(u: Setup, s: Net)
    requires Fresh(u) && EnvelopeContent(u, s)
    ensures Sound(u.local0, s.local, s.envelope.trace)
  {
    hide Sound, ES.Handle, Fresh, Agree;
    FreshAgrees(u);
    RunSound(u.local0, Commands(s));
  }

  lemma {:induction false} NextCommand(s: Net)
    requires Locals(s) && s.derive.Pending()
    ensures s.derive.log[s.derive.taken].msg.ToDerive?
  {
    assert GoodChannel(DeriveChan, ChannelOf(s, DeriveChan));
  }

  lemma {:induction false} CommandTaken(u: Setup, s: Net, cmd: DeriveCommand)
    requires Enabled(s, ReceiveDerive) && s.derive.log[s.derive.taken].msg == ToDerive(cmd)
    requires EnvelopeContent(u, s)
    requires Msgs(Take(s.derive).Taken()) == Msgs(s.derive.Taken()) + [ToDerive(cmd)]
    ensures EnvelopeContent(u, Apply(u, s, ReceiveDerive))
  {
    hide ES.Handle, Run, FlatMap, Msgs;
    FlatMapAppend(CommandOf, Msgs(s.derive.Taken()), ToDerive(cmd));
    RunAppend(ES.Handle, u.local0, Commands(s), cmd);
  }

  lemma {:induction false} SameEnvelopeContent(u: Setup, s: Net, s': Net)
    requires EnvelopeContent(u, s) && Same(s, s', EnvelopeThread)
    ensures EnvelopeContent(u, s')
  {
    hide Run, FlatMap, Msgs;
  }

  lemma {:induction false} EnvelopeGoneContent(u: Setup, s: Net, now: Time)
    requires EnvelopeContent(u, s) && Enabled(s, Disconnected(EnvelopeThread, now))
    ensures EnvelopeContent(u, Apply(u, s, Disconnected(EnvelopeThread, now)))
  {
    hide Run, FlatMap, Msgs;
    assert s.envelope.trace + [] == s.envelope.trace;
  }

  lemma {:induction false} EnvelopeContentStep(u: Setup, s: Net, a: Action)
    requires Inv(s) && Enabled(s, a) && EnvelopeContent(u, s)
    ensures EnvelopeContent(u, Apply(u, s, a))
  {
    hide EnvelopeContent, Marks, Stops, Flags, Keeper, Locals, Apply, Same;
    if a.ReceiveDerive? {
      NextCommand(s);
      TakenMsgs(s.derive);
      CommandTaken(u, s, s.derive.log[s.derive.taken].msg.derive);
    } else if a.Disconnected? && a.t.EnvelopeThread? {
      EnvelopeGoneContent(u, s, a.now);
    } else {
      StepSame(u, s, a, EnvelopeThread);
      SameEnvelopeContent(u, s, Apply(u, s, a));
    }
  }

  // Hints thread

  /** Record `i` is the one hint `i` opened, stamped with the run; the last one was closed at `end`. */
  predicate FollowsHints(u: Setup, timed: seq<TimedHint>, records: seq<Record>, end: Time) {
    && |records| == |timed|
    && forall i :: 0 <= i < |timed| ==>
         records[i] == RecordAt(NewBuilder(Inactive, u.nextId), timed, i, Some(end)).(runId := u.cfg.runId)
  }

  ghost predicate Flushed(u: Setup, timed: seq<TimedHint>, records: seq<Record>) {
    exists end: Time :: FollowsHints(u, timed, records, end)
  }

  ghost predicate HintsContent(u: Setup, s: Net) {
    var trace, timed := s.hinter.trace, s.hintsLocal.timed;
    var (builder, records) := Run(HintStep, NewBuilder(Inactive, u.nextId), timed);
    && EnvsOf(timed) == FlatMap(HintOf, Msgs(s.hints.Taken()))
    && FlatMap(StoredOf, trace) == EnvsOf(timed)
    && FlatMap(RecordShown, trace) == FlatMap(RecordStored, trace)
    && (s.hinter.phase.Running? ==> s.hintsLocal.builder == builder
                                    && FlatMap(RecordStored, trace) == Stamped(records, u.cfg.runId))
    && (!s.hinter.phase.Running? ==> Flushed(u, timed, FlatMap(RecordStored, trace)))
  }

  lemma {:induction false} ReportContent(r: Record, runId: Option<string>)
    ensures FlatMap(RecordStored, HS.Report([r], runId)) == Stamped([r], runId)
            == FlatMap(RecordShown, HS.Report([r], runId))
    ensures FlatMap(StoredOf, HS.Report([r], runId)) == []
  {
    var stamped := r.(runId := runId);
    assert [r][..0] == [];
    assert HS.Report([r], runId) == [ToStorage(RecordCmd(stamped))] + [ToSnapshot(RecordDone(stamped))];
    FlatMapOne(RecordStored, ToStorage(RecordCmd(stamped)));
    FlatMapOne(RecordShown, ToStorage(RecordCmd(stamped)));
    FlatMapOne(StoredOf, ToStorage(RecordCmd(stamped)));
    FlatMapAppend(RecordStored, [ToStorage(RecordCmd(stamped))], ToSnapshot(RecordDone(stamped)));
    FlatMapAppend(RecordShown, [ToStorage(RecordCmd(stamped))], ToSnapshot(RecordDone(stamped)));
    FlatMapAppend(StoredOf, [ToStorage(RecordCmd(stamped))], ToSnapshot(RecordDone(stamped)));
  }

  lemma {:induction false} ReportsContent(records: seq<Record>, runId: Option<string>)
    requires |records| <= 1
    ensures FlatMap(RecordStored, HS.Report(records, runId)) == Stamped(records, runId)
            == FlatMap(RecordShown, HS.Report(records, runId))
    ensures FlatMap(StoredOf, HS.Report(records, runId)) == []
  {
    if records != [] {
      assert records == [records[0]];
      ReportContent(records[0], runId);
    }
  }

  lemma {:induction false} StampedConcat(xs: seq<Record>, ys: seq<Record>, runId: Option<string>)
    ensures Stamped(xs + ys, runId) == Stamped(xs, runId) + Stamped(ys, runId)
  {
  }

  /** What one hint adds to the sends, given the records it completes. */
  lemma {:induction false} HintAdds(runId: Option<string>, envs: seq<Envelope>, records: seq<Record>, env: Envelope,
                                    closed: seq<Record>, trace: seq<Send>)
    requires FlatMap(StoredOf, trace) == envs && |closed| <= 1
    requires FlatMap(RecordShown, trace) == FlatMap(RecordStored, trace) == Stamped(records, runId)
    ensures var all := trace + ([ToStorage(EnvelopeCmd(env))] + HS.Report(closed, runId));
            && FlatMap(StoredOf, all) == envs + [env]
            && FlatMap(RecordShown, all) == FlatMap(RecordStored, all) == Stamped(records + closed, runId)
  {
    ReportsContent(closed, runId);
    StampedConcat(records, closed, runId);
    HintSends(trace, ToStorage(EnvelopeCmd(env)), HS.Report(closed, runId));
    assert envs + [env] + [] == envs + [env];
    assert Stamped(records, runId) + [] + Stamped(closed, runId) == Stamped(records, runId) + Stamped(closed, runId);
  }

  /** What a running hints stage has handled, holds and has decided. */
  ghost predicate HintsRunning(u: Setup, timed: seq<TimedHint>, builder: Builder, trace: seq<Send>, taken: seq<Send>) {
    && EnvsOf(timed) == FlatMap(HintOf, taken) && FlatMap(StoredOf, trace) == EnvsOf(timed)
    && FlatMap(RecordShown, trace) == FlatMap(RecordStored, trace)
    && builder == Run(HintStep, NewBuilder(Inactive, u.nextId), timed).0
    && FlatMap(RecordStored, trace) == Stamped(Run(HintStep, NewBuilder(Inactive, u.nextId), timed).1, u.cfg.runId)
  }

  lemma {:induction false} HintsRunningStep(u: Setup, timed: seq<TimedHint>, builder: Builder, trace: seq<Send>,
                                            taken: seq<Send>, h: TimedHint)
    requires HintsRunning(u, timed, builder, trace, taken)
    ensures var (builder', sends) := HS.HandleHint(builder, h, u.cfg.runId);
            HintsRunning(u, timed + [h], builder', trace + sends, taken + [ToHints(h.env)])
  {
    hide FlatMap, Run, Stamped, HS.Report;
    var b := NewBuilder(Inactive, u.nextId);
    RunAppend(HintStep, b, timed, h);
    HintAdds(u.cfg.runId, EnvsOf(timed), Run(HintStep, b, timed).1, h.env, HintStep(builder, h).1, trace);
    FlatMapAppend(HintOf, taken, ToHints(h.env));
    assert EnvsOf(timed + [h]) == EnvsOf(timed) + [h.env];
  }

  lemma {:induction false} TakenMsgs(ch: Channel)
    requires ch.Pending()
    ensures Msgs(Take(ch).Taken()) == Msgs(ch.Taken()) + [ch.log[ch.taken].msg]
  {
    TakeNext(ch);
    PushLog(Main, ch.Taken(), ch.log[ch.taken]);
  }

  lemma {:induction false} NextHint(s: Net)
    requires Locals(s) && s.hints.Pending()
    ensures s.hints.log[s.hints.taken].msg.ToHints?
  {
    assert GoodChannel(HintsChan, ChannelOf(s, HintsChan));
  }

  lemma {:induction false} HintsSoFar(u: Setup, s: Net)
    requires HintsContent(u, s) && s.hinter.phase.Running?
    ensures HintsRunning(u, s.hintsLocal.timed, s.hintsLocal.builder, s.hinter.trace, Msgs(s.hints.Taken()))
  {
  }

  lemma {:induction false} ReceiveHintContent(u: Setup, s: Net, closeAt: Time, openAt: Time)
    requires Inv(s) && Enabled(s, ReceiveHint(closeAt, openAt)) && HintsContent(u, s)
    ensures HintsContent(u, Apply(u, s, ReceiveHint(closeAt, openAt)))
  {
    hide FlatMap, HintsRunning, Stamped, EnvsOf;
    hide Marks, Stops, Flags, Keeper, Locals, HintsContent, HintsRunning, Msgs, HS.HandleHint, Apply;
    var e := s.hints.log[s.hints.taken];
    NextHint(s);
    HintsSoFar(u, s);
    TakenMsgs(s.hints);
    var h := TimedHint(e.msg.env, closeAt, openAt);
    HintsRunningStep(u, s.hintsLocal.timed, s.hintsLocal.builder, s.hinter.trace, Msgs(s.hints.Taken()), h);
    HintTaken(u, s, e.msg.env, closeAt, openAt);
  }

  lemma {:induction false} HintTaken(u: Setup, s: Net, env: Envelope, closeAt: Time, openAt: Time)
    requires Enabled(s, ReceiveHint(closeAt, openAt)) && s.hints.log[s.hints.taken].msg == ToHints(env)
             && s.hinter.phase.Running?
    requires var h := TimedHint(env, closeAt, openAt);
             var (builder', sends) := HS.HandleHint(s.hintsLocal.builder, h, u.cfg.runId);
             HintsRunning(u, s.hintsLocal.timed + [h], builder', s.hinter.trace + sends, Msgs(Take(s.hints).Taken()))
    ensures HintsContent(u, Apply(u, s, ReceiveHint(closeAt, openAt)))
  {
  }

  lemma {:induction false} HintSends(trace: seq<Send>, m: Send, more: seq<Send>)
    ensures FlatMap(RecordStored, trace + ([m] + more)) == FlatMap(RecordStored, trace) + RecordStored(m)
            + FlatMap(RecordStored, more)
    ensures FlatMap(RecordShown, trace + ([m] + more)) == FlatMap(RecordShown, trace) + RecordShown(m)
            + FlatMap(RecordShown, more)
    ensures FlatMap(StoredOf, trace + ([m] + more))
         == FlatMap(StoredOf, trace) + StoredOf(m) + FlatMap(StoredOf, more)
  {
    assert trace + ([m] + more) == trace + [m] + more;
    FlatMapConcat(RecordStored, trace + [m], more);
    FlatMapConcat(RecordShown, trace + [m], more);
    FlatMapConcat(StoredOf, trace + [m], more);
    FlatMapAppend(RecordStored, trace, m);
    FlatMapAppend(RecordShown, trace, m);
    FlatMapAppend(StoredOf, trace, m);
  }

  /** All hints in the channel are hints the envelope thread decided on, in its order. */
  lemma {:induction false} HintsInChannel(s: Net)
    requires Locals(s) && Logs(s)
    ensures s.envelope.sent <= |s.envelope.trace|
    ensures FlatMap(HintOf, Msgs(s.hints.log)) == FlatMap(HintOf, s.envelope.trace[..s.envelope.sent])
  {
    assert LogOf(s, EnvelopeThread, HintsChan);
    assert GoodChannel(HintsChan, ChannelOf(s, HintsChan));
    SeenBy(HintOf, EnvelopeThread, s.hints.log);
    SeenOn(HintOf, HintsChan, s.envelope.trace[..s.envelope.sent]);
  }

  lemma {:induction false} FinishAdds(u: Setup, timed: seq<TimedHint>, trace: seq<Send>, builder: Builder, now: Time)
    requires builder == Run(HintStep, NewBuilder(Inactive, u.nextId), timed).0
    requires AllSplit(CutOf(NewBuilder(Inactive, u.nextId)), EnvsOf(timed))
    requires FlatMap(StoredOf, trace) == EnvsOf(timed)
    requires FlatMap(RecordShown, trace) == FlatMap(RecordStored, trace)
    requires FlatMap(RecordStored, trace)
             == Stamped(Run(HintStep, NewBuilder(Inactive, u.nextId), timed).1, u.cfg.runId)
    ensures var all := trace + HS.FinishHints(builder, now, u.cfg.runId).1;
            && FlatMap(StoredOf, all) == EnvsOf(timed)
            && FlatMap(RecordShown, all) == FlatMap(RecordStored, all)
            && FollowsHints(u, timed, FlatMap(RecordStored, all), now)
  {
    hide Run;
    var closed, records := Closed(builder, now), Run(HintStep, NewBuilder(Inactive, u.nextId), timed).1;
    RecordsFollowHints(NewBuilder(Inactive, u.nextId), timed, now);
    StampedConcat(records, closed, u.cfg.runId);
    ReportsContent(closed, u.cfg.runId);
    var report, done := HS.Report(closed, u.cfg.runId), ToSnapshot(HintsComplete);
    FlatMapThree(StoredOf, trace, report, done);
    FlatMapThree(RecordShown, trace, report, done);
    FlatMapThree(RecordStored, trace, report, done);
  }

  /** When the hints channel is drained and gone, all hints the envelope thread decided on have been taken. */
  lemma {:induction false} HintsDrained(s: Net, now: Time)
    requires Inv(s) && Logs(s) && Enabled(s, Disconnected(HintsThread, now))
    ensures FlatMap(HintOf, Msgs(s.hints.Taken())) == FlatMap(HintOf, s.envelope.trace)
  {
    hide Marks, Stops, Keeper, Flags, FlatMap, Msgs, LogOf;
    assert GoodChannel(HintsChan, ChannelOf(s, HintsChan)) && GoodPort(EnvelopeThread, PortOf(s, EnvelopeThread));
    GoneMeansExited(s, EnvelopeThread, HintsChan);
    HintsInChannel(s);
    assert s.hints.Taken() == s.hints.log;
    assert s.envelope.trace[..s.envelope.sent] == s.envelope.trace;
  }

  /** Every hint taken is one that splits, so each has been cut into a record. */
  lemma {:induction false} HintsAllCut(u: Setup, s: Net, now: Time)
    requires Fresh(u) && Inv(s) && Logs(s) && EnvelopeContent(u, s) && HintsContent(u, s)
    requires Enabled(s, Disconnected(HintsThread, now))
    ensures AllSplit(CutOf(NewBuilder(Inactive, u.nextId)), EnvsOf(s.hintsLocal.timed))
  {
    hide Inv, Logs, Run, Stamped, Flushed, FlatMap, Msgs, EnvsOf, AllSplit, GoodHints, EnvelopeContent;
    EnvelopeSound(u, s);
    HintsDrained(s, now);
    GoodHintsSplit(CutOfLocal(u.local0), EnvsOf(s.hintsLocal.timed));
  }

  lemma {:induction false} HintsFlushed(u: Setup, s: Net, now: Time)
    requires Enabled(s, Disconnected(HintsThread, now))
    requires EnvsOf(s.hintsLocal.timed) == FlatMap(HintOf, Msgs(s.hints.Taken()))
    requires var all := s.hinter.trace + HS.FinishHints(s.hintsLocal.builder, now, u.cfg.runId).1;
             && FlatMap(StoredOf, all) == EnvsOf(s.hintsLocal.timed)
             && FlatMap(RecordShown, all) == FlatMap(RecordStored, all)
             && FollowsHints(u, s.hintsLocal.timed, FlatMap(RecordStored, all), now)
    ensures HintsContent(u, Apply(u, s, Disconnected(HintsThread, now)))
  {
    hide FlatMap, Run, Stamped, HS.FinishHints, FollowsHints;
  }

  /** When the hints channel is drained and gone, every hint has been cut into a record. */
  lemma {:induction false} HintsGoneContent(u: Setup, s: Net, now: Time)
    requires Fresh(u) && Inv(s) && Logs(s) && EnvelopeContent(u, s) && HintsContent(u, s)
    requires Enabled(s, Disconnected(HintsThread, now))
    ensures HintsContent(u, Apply(u, s, Disconnected(HintsThread, now)))
  {
    hide Marks, Stops, Keeper, Flags, FlatMap, Run, Stamped, HS.FinishHints, FollowsHints, Apply;
    HintsAllCut(u, s, now);
    FinishAdds(u, s.hintsLocal.timed, s.hinter.trace, s.hintsLocal.builder, now);
    HintsFlushed(u, s, now);
  }

  lemma {:induction false} SameHintsContent(u: Setup, s: Net, s': Net)
    requires HintsContent(u, s) && Same(s, s', HintsThread)
    ensures HintsContent(u, s')
  {
    hide FlatMap, Flushed, Stamped, Run;
  }

  lemma {:induction false} HintsContentStep(u: Setup, s: Net, a: Action)
    requires Fresh(u) && Inv(s) && Logs(s) && EnvelopeContent(u, s) && HintsContent(u, s)
    requires Enabled(s, a)
    ensures HintsContent(u, Apply(u, s, a))
  {
    hide Inv, Logs, EnvelopeContent, HintsContent, Same, Apply, Fresh;
    if a.ReceiveHint? {
      ReceiveHintContent(u, s, a.closeAt, a.openAt);
    } else if a.Disconnected? && a.t.HintsThread? {
      HintsGoneContent(u, s, a.now);
    } else {
      StepSame(u, s, a, HintsThread);
      SameHintsContent(u, s, Apply(u, s, a));
    }
  }

  // Snapshot thread

  /** What the stage knows, has decided and has taken fit together. */
  ghost predicate SnapFacts(u: Setup, snap: SS.Snap, trace: seq<Send>, taken: seq<Send>) {
    && snap.counts.hintsSeen == Saturate(Sum(HintsDeltaOf, taken))
    && snap.counts.signalsSeen == Saturate(Sum(SignalsDeltaOf, taken))
    && snap.counts.recordsEmitted == Saturate(|FlatMap(RecordShown, taken)|)
    && FlatMap(MoveStored, trace) == FlatMap(UpdateMoveOf, taken)
    && FlatMap(MoveOfTransition, snap.bus) == FlatMap(MoveOfTransition, u.Snap0().bus) + FlatMap(UpdateMoveOf, taken)
    && (snap.storageShutdownSent ==> snap.published != [] && snap.published[|snap.published| - 1].counts == snap.counts)
    && Shows(u.Snap0(), u.cfg.runId, snap, trace, taken)
  }

  ghost predicate SnapContent(u: Setup, s: Net) {
    SnapFacts(u, s.snap, s.snapper.trace, Msgs(s.snapshot.Taken()))
  }

  /** What one message adds to the counts; a shutdown is published with the counts it ends with. */
  lemma {:induction false} MessageCounts(snap: SS.Snap, cfg: SS.Config, msg: SnapshotMessage, now: Time)
    requires snap.counts.hintsSeen <= U64_MAX && snap.counts.signalsSeen <= U64_MAX
             && snap.counts.recordsEmitted <= U64_MAX
    ensures var snap', m := SS.HandleMessage(snap, cfg, msg, now).0, ToSnapshot(msg);
            && snap'.counts.hintsSeen == Saturate(snap.counts.hintsSeen + HintsDeltaOf(m))
            && snap'.counts.signalsSeen == Saturate(snap.counts.signalsSeen + SignalsDeltaOf(m))
            && snap'.counts.recordsEmitted == Saturate(snap.counts.recordsEmitted + |RecordShown(m)|)
            && (snap'.storageShutdownSent && !snap.storageShutdownSent ==>
                  snap'.published != [] && snap'.published[|snap'.published| - 1].counts == snap'.counts)
  {
    hide SS.EndOf, SS.Prune;
  }

  /** What one message adds to the bus and the stored transitions. */
  lemma {:induction false} MessageMoves(snap: SS.Snap, cfg: SS.Config, msg: SnapshotMessage, now: Time)
    ensures var (snap', sends) := SS.HandleMessage(snap, cfg, msg, now);
            var m := ToSnapshot(msg);
            && FlatMap(MoveStored, sends) == UpdateMoveOf(m)
            && FlatMap(MoveOfTransition, snap'.bus) == FlatMap(MoveOfTransition, snap.bus) + UpdateMoveOf(m)
  {
    hide SS.EndOf, SS.Prune, Saturate;
    var sends := SS.HandleMessage(snap, cfg, msg, now).1;
    if sends != [] {
      assert sends == [sends[0]];
      FlatMapOne(MoveStored, sends[0]);
      if msg.Update? {
        FlatMapAppend(MoveOfTransition, snap.bus, sends[0].storage.transition);
      }
    }
    assert FlatMap(MoveOfTransition, snap.bus) + [] == FlatMap(MoveOfTransition, snap.bus);
  }

  lemma {:induction false} SnapFactsStep(u: Setup, snap: SS.Snap, trace: seq<Send>, taken: seq<Send>,
                                         msg: SnapshotMessage, now: Time)
    requires SnapFacts(u, snap, trace, taken) && !snap.storageShutdownSent
    ensures var (snap', sends) := SS.HandleMessage(snap, u.cfg, msg, now);
            SnapFacts(u, snap', trace + sends, taken + [ToSnapshot(msg)])
  {
    hide FlatMap, Sum, SS.HandleMessage, HintsDeltaOf, SignalsDeltaOf, UpdateMoveOf, RecordShown, Shows, SS.NewSnap;
    var m := ToSnapshot(msg);
    MessageCounts(snap, u.cfg, msg, now);
    MessageMoves(snap, u.cfg, msg, now);
    MessageShows(u.Snap0(), u.cfg, snap, trace, taken, msg, now);
    SumConcat(HintsDeltaOf, taken, [m]);
    SumOne(HintsDeltaOf, m);
    SumConcat(SignalsDeltaOf, taken, [m]);
    SumOne(SignalsDeltaOf, m);
    FlatMapAppend(RecordShown, taken, m);
    FlatMapAppend(UpdateMoveOf, taken, m);
    FlatMapConcat(MoveStored, trace, SS.HandleMessage(snap, u.cfg, msg, now).1);
  }

  lemma {:induction false} ReceiveSnapshotContent(u: Setup, s: Net, now: Time)
    requires Inv(s) && Enabled(s, ReceiveSnapshot(now)) && SnapContent(u, s)
    ensures SnapContent(u, Apply(u, s, ReceiveSnapshot(now)))
  {
    hide Marks, Stops, Locals, Keeper, SnapFacts, Msgs, SS.HandleMessage, Apply;
    SnapshotSenders(s, s.snapshot.taken);
    var e := s.snapshot.log[s.snapshot.taken];
    TakenMsgs(s.snapshot);
    SnapFactsStep(u, s.snap, s.snapper.trace, Msgs(s.snapshot.Taken()), e.msg.snapshot, now);
    MessageTaken(u, s, e.msg.snapshot, now);
  }

  lemma {:induction false} MessageTaken(u: Setup, s: Net, msg: SnapshotMessage, now: Time)
    requires Enabled(s, ReceiveSnapshot(now)) && s.snapshot.log[s.snapshot.taken].msg == ToSnapshot(msg)
    requires var (snap', sends) := SS.HandleMessage(s.snap, u.cfg, msg, now);
             SnapFacts(u, snap', s.snapper.trace + sends, Msgs(Take(s.snapshot).Taken()))
    ensures SnapContent(u, Apply(u, s, ReceiveSnapshot(now)))
  {
    hide SnapFacts, Msgs, SS.HandleMessage;
  }

  lemma {:induction false} GoneFacts(u: Setup, snap: SS.Snap, trace: seq<Send>, taken: seq<Send>, now: Time)
    requires SnapFacts(u, snap, trace, taken) && !snap.storageShutdownSent
    ensures var (snap', sends) := SS.Disconnect(snap, u.cfg, now);
            SnapFacts(u, snap', trace + sends, taken)
  {
    hide FlatMap, Shows, SS.NewSnap, SS.Prune;
    FlatMapAppend(MoveStored, trace, ToStorage(StorageShutdown));
    assert FlatMap(MoveStored, trace) + [] == FlatMap(MoveStored, trace);
    GoneShows(u.Snap0(), u.cfg, snap, trace, taken, now);
  }

  lemma {:induction false} SnapshotGoneContent(u: Setup, s: Net, now: Time)
    requires Inv(s) && Enabled(s, Disconnected(SnapshotThread, now)) && SnapContent(u, s)
    ensures SnapContent(u, Apply(u, s, Disconnected(SnapshotThread, now)))
  {
    GoneFacts(u, s.snap, s.snapper.trace, Msgs(s.snapshot.Taken()), now);
  }

  lemma {:induction false} SameSnapContent(u: Setup, s: Net, s': Net)
    requires SnapContent(u, s) && Same(s, s', SnapshotThread)
    ensures SnapContent(u, s')
  {
    hide SnapFacts, Msgs;
  }

  lemma {:induction false} SnapContentStep(u: Setup, s: Net, a: Action)
    requires Inv(s) && SnapContent(u, s) && Enabled(s, a)
    ensures SnapContent(u, Apply(u, s, a))
  {
    hide Inv, SnapContent, Same, Apply;
    if a.ReceiveSnapshot? {
      ReceiveSnapshotContent(u, s, a.now);
    } else if a.Disconnected? && a.t.SnapshotThread? {
      SnapshotGoneContent(u, s, a.now);
    } else {
      StepSame(u, s, a, SnapshotThread);
      SameSnapContent(u, s, Apply(u, s, a));
    }
  }

  // ---------- All of it, in every reachable state ----------

  ghost predicate Content(u: Setup, s: Net) {
    Logs(s) && EnvelopeContent(u, s) && HintsContent(u, s) && SnapContent(u, s)
  }

  lemma {:induction false} ContentStep(u: Setup, s: Net, a: Action)
    requires Fresh(u) && Inv(s) && Content(u, s) && Enabled(s, a)
    ensures Content(u, Apply(u, s, a))
  {
    hide Inv, Logs, EnvelopeContent, HintsContent, SnapContent, Enabled, Apply;
    LogsStep(u, s, a);
    EnvelopeContentStep(u, s, a);
    HintsContentStep(u, s, a);
    SnapContentStep(u, s, a);
  }

  lemma {:induction false} StartContent(u: Setup)
    requires Fresh(u)
    ensures Content(u, Start(u))
  {
    var s := Start(u);
    forall t: Thread, c: Chan | Tracked(t)
      ensures LogOf(s, t, c)
    {
      assert ChannelOf(s, c) == NEW_CHANNEL;
    }
    assert FlatMap(MoveOfTransition, u.Snap0().bus) + [] == FlatMap(MoveOfTransition, u.Snap0().bus);
    StartShows(u.cfg, u.records0, u.transitions0, u.startedAt);
  }

  lemma {:induction false} RunContent(u: Setup, s: Net, run: seq<Action>, s': Net)
    requires Fresh(u) && Inv(s) && Content(u, s) && Leads(u, s, run, s')
    ensures Content(u, s')
    decreases |run|
  {
    hide Inv, Content, Apply, Enabled, Fresh;
    if run != [] {
      StepKeeps(u, s, run[0]);
      ContentStep(u, s, run[0]);
      RunContent(u, Apply(u, s, run[0]), run[1..], s');
    }
  }

  lemma {:induction false} ReachableContent(u: Setup, s: Net)
    requires Fresh(u) && Reachable(u, s)
    ensures Inv(s) && Content(u, s)
  {
    hide Inv, Content, Leads, Fresh, Start;
    var run: seq<Action> :| Leads(u, Start(u), run, s);
    StartHolds(u);
    StartContent(u);
    RunKeeps(u, Start(u), run, s);
    RunContent(u, Start(u), run, s);
  }

  // ---------- The end ----------

  /** What lies behind the last entry `f` sees does not matter to `f`. */
  lemma {:induction false} UnseenTail<B>(f: Send -> seq<B>, log: seq<Entry>, k: nat)
    requires k <= |log| && forall i :: k <= i < |log| ==> f(log[i].msg) == []
    ensures FlatMap(f, Msgs(log[..k])) == FlatMap(f, Msgs(log))
    decreases |log|
  {
    if k == |log| {
      assert log[..k] == log;
    } else {
      var init := log[..|log| - 1];
      assert init[..k] == log[..k];
      assert forall i :: k <= i < |init| ==> init[i] == log[i];
      UnseenTail(f, init, k);
      FlatMapAppend(f, Msgs(init), log[|log| - 1].msg);
      assert FlatMap(f, Msgs(init)) + [] == FlatMap(f, Msgs(init));
    }
  }

  lemma {:induction false} ByTail(t: Thread, log: seq<Entry>, k: nat)
    requires k <= |log| && forall i :: k <= i < |log| ==> log[i].sender != t
    ensures By(t, log[..k]) == By(t, log)
    decreases |log|
  {
    if k == |log| {
      assert log[..k] == log;
    } else {
      var init := log[..|log| - 1];
      assert init[..k] == log[..k];
      assert forall i :: k <= i < |init| ==> init[i] == log[i];
      ByTail(t, init, k);
      assert By(t, init) + [] == By(t, init);
    }
  }

  lemma {:induction false} FinalDrained(s: Net)
    requires Stops(s) && Final(s)
    ensures !s.hinter.phase.Running? && !s.snapper.phase.Running? && !s.keeper.phase.Running?
    ensures s.hints.Taken() == s.hints.log && s.snapshot.Taken() == s.snapshot.log
  {
    assert PortOf(s, StorageThread).phase.Exited? && PortOf(s, HintsThread).phase.Exited?
           && PortOf(s, SnapshotThread).phase.Exited?;
    assert s.hints.log[..|s.hints.log|] == s.hints.log && s.snapshot.log[..|s.snapshot.log|] == s.snapshot.log;
  }

  /** In a final state every thread has sent all it decided. */
  lemma {:induction false} FinalSent(s: Net)
    requires Locals(s) && Final(s)
    ensures forall t: Thread :: Tracked(t) ==> PortOf(s, t).sent == |PortOf(s, t).trace|
  {
    forall t: Thread | Tracked(t)
      ensures PortOf(s, t).sent == |PortOf(s, t).trace|
    {
      assert GoodPort(t, PortOf(s, t));
    }
  }

  /** Storage has kept all but what the compression thread sent late. */
  lemma {:induction false} FinalStored(s: Net)
    requires Keeper(s) && !s.keeper.phase.Running?
    ensures LateOnly(s.storage.log, |s.stored|) && s.stored == s.storage.log[..|s.stored|]
  {
    var k := s.storage.taken - 1;
    assert |s.stored| == k;
    forall i | k <= i < |s.storage.log|
      ensures s.storage.log[i].msg == ToStorage(StorageShutdown) || s.storage.log[i].sender.CompressionThread?
    {
      if k < i {
        assert s.storage.log[k].msg == ToStorage(StorageShutdown);
      }
    }
  }

  /** Every hint the envelope thread ever derived. */
  function AllHints(s: Net): seq<Envelope> {
    FlatMap(HintOf, s.envelope.trace)
  }

  predicate AllowedLog(log: seq<Entry>) {
    forall i :: 0 <= i < |log| ==> Allowed(log[i].sender, log[i].msg)
  }

  /** Behind position `k` nothing but the shutdown and the compression thread's late sends. */
  predicate LateOnly(log: seq<Entry>, k: nat) {
    k <= |log| && forall i :: k <= i < |log| ==> log[i].msg == ToStorage(StorageShutdown)
                                                 || log[i].sender.CompressionThread?
  }

  predicate KeptPrefix(s: Net) {
    && LateOnly(s.storage.log, |s.stored|) && s.stored == s.storage.log[..|s.stored|]
    && AllowedLog(s.storage.log)
  }

  ghost predicate SettledStorage(s: Net) {
    && KeptPrefix(s)
    && By(EnvelopeThread, s.storage.log) == On(StorageChan, s.envelope.trace)
    && By(HintsThread, s.storage.log) == On(StorageChan, s.hinter.trace)
    && By(SnapshotThread, s.storage.log) == On(StorageChan, s.snapper.trace)
  }

  ghost predicate SettledSnapshot(s: Net) {
    && AllowedLog(s.snapshot.log)
    && By(EnvelopeThread, s.snapshot.log) == On(SnapshotChan, s.envelope.trace)
    && By(HintsThread, s.snapshot.log) == On(SnapshotChan, s.hinter.trace)
  }

  ghost predicate SettledHints(u: Setup, s: Net) {
    && FlatMap(StoredOf, s.hinter.trace) == AllHints(s)
    && EnvsOf(s.hintsLocal.timed) == AllHints(s)
    && Flushed(u, s.hintsLocal.timed, FlatMap(RecordStored, s.hinter.trace))
    && FlatMap(RecordShown, s.hinter.trace) == FlatMap(RecordStored, s.hinter.trace)
  }

  /** How the logs and the stages' memories fit together once everything has been sent. */
  ghost predicate Settled(u: Setup, s: Net) {
    && SettledStorage(s) && SettledSnapshot(s) && SettledHints(u, s)
    && Sound(u.local0, s.local, s.envelope.trace)
    && SnapFacts(u, s.snap, s.snapper.trace, Msgs(s.snapshot.log)) && s.snap.storageShutdownSent
  }

  /** Every channel holds of every stage all that the stage decided to send to it. */
  ghost predicate WholeTraces(s: Net) {
    forall t: Thread, c: Chan :: Tracked(t) ==> By(t, ChannelOf(s, c).log) == On(c, PortOf(s, t).trace)
  }

  lemma {:induction false} FinalTraces(s: Net)
    requires Inv(s) && Final(s) && Logs(s)
    ensures WholeTraces(s)
  {
    forall t: Thread, c: Chan | Tracked(t)
      ensures By(t, ChannelOf(s, c).log) == On(c, PortOf(s, t).trace)
    {
      FinalSent(s);
      assert LogOf(s, t, c);
      assert PortOf(s, t).trace[..PortOf(s, t).sent] == PortOf(s, t).trace;
    }
  }

  lemma {:induction false} FinalHints(u: Setup, s: Net)
    requires Inv(s) && Logs(s) && HintsContent(u, s) && Final(s)
    ensures SettledHints(u, s)
  {
    hide Marks, Keeper, Flags, FlatMap, Flushed, Run, Stamped, LogOf;
    FinalSent(s);
    FinalDrained(s);
    HintsInChannel(s);
    assert PortOf(s, EnvelopeThread).sent == |s.envelope.trace|;
    assert s.envelope.trace[..s.envelope.sent] == s.envelope.trace;
  }

  lemma {:induction false} FinalPrefix(s: Net)
    requires Inv(s) && Final(s)
    ensures KeptPrefix(s)
  {
    FinalDrained(s);
    FinalStored(s);
    assert GoodChannel(StorageChan, ChannelOf(s, StorageChan));
  }

  lemma {:induction false} FinalStorage(s: Net)
    requires WholeTraces(s) && KeptPrefix(s)
    ensures SettledStorage(s)
  {
    assert ChannelOf(s, StorageChan).log == s.storage.log;
    assert By(EnvelopeThread, s.storage.log) == On(StorageChan, PortOf(s, EnvelopeThread).trace);
    assert By(HintsThread, s.storage.log) == On(StorageChan, PortOf(s, HintsThread).trace);
    assert By(SnapshotThread, s.storage.log) == On(StorageChan, PortOf(s, SnapshotThread).trace);
  }

  lemma {:induction false} FinalSnapshot(s: Net)
    requires WholeTraces(s) && AllowedLog(s.snapshot.log)
    ensures SettledSnapshot(s)
  {
    assert ChannelOf(s, SnapshotChan).log == s.snapshot.log;
    assert By(EnvelopeThread, s.snapshot.log) == On(SnapshotChan, PortOf(s, EnvelopeThread).trace);
    assert By(HintsThread, s.snapshot.log) == On(SnapshotChan, PortOf(s, HintsThread).trace);
  }

  lemma {:induction false} FinalSnap(u: Setup, s: Net)
    requires Inv(s) && SnapContent(u, s) && Final(s)
    ensures SnapFacts(u, s.snap, s.snapper.trace, Msgs(s.snapshot.log)) && s.snap.storageShutdownSent
    ensures AllowedLog(s.snapshot.log)
  {
    hide SnapFacts;
    FinalDrained(s);
    assert GoodChannel(SnapshotChan, ChannelOf(s, SnapshotChan));
  }

  lemma {:induction false} FinalSettled(u: Setup, s: Net)
    requires Fresh(u) && Inv(s) && Content(u, s) && Final(s)
    ensures Settled(u, s)
  {
    hide Inv, Fresh, Logs, Final, EnvelopeContent, HintsContent, SnapContent, SnapFacts, Sound, WholeTraces, KeptPrefix,
         SettledStorage, SettledSnapshot, SettledHints, AllowedLog;
    EnvelopeSound(u, s);
    FinalHints(u, s);
    FinalTraces(s);
    FinalPrefix(s);
    FinalStorage(s);
    FinalSnap(u, s);
    FinalSnapshot(s);
  }

  /** What `f` sees of all that `t` decided to send to `c` is what it sees in the log up to `k`. */
  lemma {:induction false} Kept<B>(f: Send -> seq<B>, t: Thread, c: Chan, log: seq<Entry>, k: nat, trace: seq<Send>)
    requires k <= |log| && By(t, log) == On(c, trace)
    requires forall i :: k <= i < |log| ==> f(log[i].msg) == []
    requires forall i :: 0 <= i < |log| && log[i].sender != t ==> f(log[i].msg) == []
    requires forall m: Send :: ChanOf(m) != c ==> f(m) == []
    ensures FlatMap(f, Msgs(log[..k])) == FlatMap(f, trace)
  {
    UnseenTail(f, log, k);
    SeenBy(f, t, log);
    SeenOn(f, c, trace);
  }

  lemma {:induction false} KeptRecords(log: seq<Entry>, k: nat, trace: seq<Send>)
    requires LateOnly(log, k) && AllowedLog(log) && By(HintsThread, log) == On(StorageChan, trace)
    ensures FlatMap(RecordStored, Msgs(log[..k])) == FlatMap(RecordStored, trace)
  {
    Kept(RecordStored, HintsThread, StorageChan, log, k, trace);
  }

  lemma {:induction false} ShownRecords(log: seq<Entry>, trace: seq<Send>)
    requires AllowedLog(log) && By(HintsThread, log) == On(SnapshotChan, trace)
    ensures FlatMap(RecordShown, Msgs(log)) == FlatMap(RecordShown, trace)
  {
    SeenBy(RecordShown, HintsThread, log);
    SeenOn(RecordShown, SnapshotChan, trace);
  }

  lemma {:induction false} KeptMoves(log: seq<Entry>, k: nat, trace: seq<Send>)
    requires LateOnly(log, k) && AllowedLog(log) && By(SnapshotThread, log) == On(StorageChan, trace)
    ensures FlatMap(MoveStored, Msgs(log[..k])) == FlatMap(MoveStored, trace)
  {
    Kept(MoveStored, SnapshotThread, StorageChan, log, k, trace);
  }

  lemma {:induction false} ShownMoves(log: seq<Entry>, trace: seq<Send>)
    requires AllowedLog(log) && By(EnvelopeThread, log) == On(SnapshotChan, trace)
    ensures FlatMap(UpdateMoveOf, Msgs(log)) == FlatMap(UpdateMoveOf, trace)
  {
    SeenBy(UpdateMoveOf, EnvelopeThread, log);
    SeenOn(UpdateMoveOf, SnapshotChan, trace);
  }

  lemma {:induction false} ShownDeltas(log: seq<Entry>, trace: seq<Send>)
    requires AllowedLog(log) && By(EnvelopeThread, log) == On(SnapshotChan, trace)
    ensures Sum(HintsDeltaOf, Msgs(log)) == Sum(HintsDeltaOf, trace)
    ensures Sum(SignalsDeltaOf, Msgs(log)) == Sum(SignalsDeltaOf, trace)
  {
    SumSeenBy(HintsDeltaOf, EnvelopeThread, log);
    SumSeenOn(HintsDeltaOf, SnapshotChan, trace);
    SumSeenBy(SignalsDeltaOf, EnvelopeThread, log);
    SumSeenOn(SignalsDeltaOf, SnapshotChan, trace);
  }

  lemma {:induction false} KeptEnvelopes(t: Thread, log: seq<Entry>, k: nat, trace: seq<Send>)
    requires LateOnly(log, k) && AllowedLog(log) && By(t, log) == On(StorageChan, trace)
    requires t.HintsThread? || t.EnvelopeThread?
    ensures FlatMap(StoredOf, By(t, log[..k])) == FlatMap(StoredOf, trace)
  {
    ByTail(t, log, k);
    SeenOn(StoredOf, StorageChan, trace);
  }

  lemma {:induction false} MovesOfHints(sends: seq<Send>)
    ensures FlatMap(HintMoveOf, sends) == FlatMap(MoveOfEnvelope, FlatMap(HintOf, sends))
  {
    if sends != [] {
      var init, m := sends[..|sends| - 1], sends[|sends| - 1];
      MovesOfHints(init);
      FlatMapConcat(MoveOfEnvelope, FlatMap(HintOf, init), HintOf(m));
      if m.ToHints? {
        FlatMapOne(MoveOfEnvelope, m.env);
      }
    }
  }

  lemma {:induction false} AtTheEnd(u: Setup, s: Net)
    requires Fresh(u) && Reachable(u, s) && Final(s)
    ensures Settled(u, s)
  {
    ReachableContent(u, s);
    FinalSettled(u, s);
  }

  lemma {:induction false} FollowersAreNumbered(u: Setup, timed: seq<TimedHint>, records: seq<Record>)
    requires Flushed(u, timed, records)
    ensures |records| == |timed| && Numbered(records, u.nextId)
  {
  }

  /** Records at the end: one per hint, numbered without gaps, with the state and focus its hint led to
      and the times of its hint and the next; the same in storage and in the snapshot stage.  And every
      hint and every signal itself is stored, in order. */
  lemma {:induction false} RecordsAtTheEnd(u: Setup, s: Net) returns (end: Time)
    requires Fresh(u) && Reachable(u, s) && Final(s)
    ensures var records := FlatMap(RecordStored, Msgs(s.stored));
            && |records| == |AllHints(s)| && Numbered(records, u.nextId)
            && FlatMap(RecordShown, Msgs(s.snapshot.log)) == records
            && EnvsOf(s.hintsLocal.timed) == AllHints(s) && FollowsHints(u, s.hintsLocal.timed, records, end)
    ensures FlatMap(StoredOf, By(HintsThread, s.stored)) == AllHints(s)
    ensures FlatMap(StoredOf, By(EnvelopeThread, s.stored)) == FlatMap(StoredOf, s.envelope.trace)
  {
    hide FlatMap, By, On, Msgs, AllowedLog, LateOnly;
    AtTheEnd(u, s);
    FollowersAreNumbered(u, s.hintsLocal.timed, FlatMap(RecordStored, s.hinter.trace));
    end :| FollowsHints(u, s.hintsLocal.timed, FlatMap(RecordStored, s.hinter.trace), end);
    KeptRecords(s.storage.log, |s.stored|, s.hinter.trace);
    ShownRecords(s.snapshot.log, s.hinter.trace);
    KeptEnvelopes(HintsThread, s.storage.log, |s.stored|, s.hinter.trace);
    KeptEnvelopes(EnvelopeThread, s.storage.log, |s.stored|, s.envelope.trace);
  }

  /** Locked records at the end: every stored record that a focus hint opened is about that focus, and
      Locked exactly if that is the login window. */
  lemma {:induction false} LockedRecordsAtTheEnd(u: Setup, s: Net, i: nat)
    requires Fresh(u) && Reachable(u, s) && Final(s)
    requires i < |AllHints(s)| && AllHints(s)[i].kind == Hint(FocusChanged)
    ensures var records, hint := FlatMap(RecordStored, Msgs(s.stored)), AllHints(s)[i];
            && |records| == |AllHints(s)| && hint.payload.FocusData? && records[i].focusInfo == Some(hint.payload.focus)
            && (records[i].state == Locked <==> IsLoginWindow(hint.payload.focus.appName))
  {
    AtTheEnd(u, s);
    var end := RecordsAtTheEnd(u, s);
    FocusHintState(CutOfLocal(u.local0), None, AllHints(s), i);
    EnvsOfFront(s.hintsLocal.timed, i + 1);
  }

  /** In the end storage has been told to shut down exactly once, and has kept exactly what came before. */
  lemma {:induction false} ShutdownExactlyOnce(u: Setup, s: Net) returns (i: nat)
    requires Fresh(u) && Reachable(u, s) && Final(s)
    ensures i < |s.storage.log| && s.stored == s.storage.log[..i]
    ensures forall j :: 0 <= j < |s.storage.log| ==> (s.storage.log[j].msg == ToStorage(StorageShutdown) <==> j == i)
  {
    ReachableHolds(u, s);
    FinalDrained(s);
    FinalStored(s);
    i := s.storage.taken - 1;
    forall j | 0 <= j < |s.storage.log| && j != i
      ensures s.storage.log[j].msg != ToStorage(StorageShutdown)
    {
      NothingAfterShutdown(u, s, i, j);
    }
  }

  /** Transitions at the end: storage and the bus hold each state change the engine made exactly
      once, in order, each leaving the state the one before it reached. */
  lemma {:induction false} TransitionsAtTheEnd(u: Setup, s: Net)
    requires Fresh(u) && Reachable(u, s) && Final(s)
    ensures var moves := FlatMap(MoveOfEnvelope, AllHints(s));
            && FlatMap(MoveStored, Msgs(s.stored)) == moves
            && FlatMap(MoveOfTransition, s.snap.bus) == FlatMap(MoveOfTransition, u.Snap0().bus) + moves
            && Chained(Inactive, moves) && Reached(Inactive, moves) == s.local.engine.current
  {
    hide FlatMap, By, On, Msgs, AllowedLog, LateOnly;
    AtTheEnd(u, s);
    KeptMoves(s.storage.log, |s.stored|, s.snapper.trace);
    ShownMoves(s.snapshot.log, s.envelope.trace);
    MovesOfHints(s.envelope.trace);
    GoodHintsChain(CutOfLocal(u.local0), AllHints(s));
  }

  /** Counts at the end: the last published snapshot has seen every hint and every signal, and
      as many records as hints (up to the saturation of its 64-bit counters). */
  lemma {:induction false} CountsAtTheEnd(u: Setup, s: Net)
    requires Fresh(u) && Reachable(u, s) && Final(s)
    ensures s.snap.published != []
    ensures var counts := s.snap.published[|s.snap.published| - 1].counts;
            && counts.recordsEmitted == counts.hintsSeen == Saturate(|AllHints(s)|)
            && counts.signalsSeen == Saturate(|FlatMap(StoredOf, s.envelope.trace)|)
            && counts.hintsSeen <= U64_MAX && (|AllHints(s)| <= U64_MAX ==> counts.hintsSeen == |AllHints(s)|)
            && (|FlatMap(StoredOf, s.envelope.trace)| <= U64_MAX ==>
                  counts.signalsSeen == |FlatMap(StoredOf, s.envelope.trace)|)
  {
    AtTheEnd(u, s);
    FollowersAreNumbered(u, s.hintsLocal.timed, FlatMap(RecordStored, s.hinter.trace));
    ShownRecords(s.snapshot.log, s.hinter.trace);
    ShownDeltas(s.snapshot.log, s.envelope.trace);
  }
}
