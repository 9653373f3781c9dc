/** Which raw events the compression stage forwards to storage.  The documentation wants input suppressed while the
    screen is locked.  The stage looks for input signals behind a lock; but those are exactly the ones that the
    lock deriver has dropped before, so it never finds any. */
module RawPersistence {
  import opened Wrappers
  import opened Events
  import opened Mealy
  import opened Seqs
  import opened PipelineTypes
  import opened EnvelopeStage
  import opened EventChain
  import opened RawToEnvelopes
  import opened Telling
  import opened CompressionStage

  // ---------- Nothing is ever suppressed ----------

  predicate IsBoundary(env: Envelope) {
    env.kind == Signal(LockStart) || env.kind == Signal(LockEnd)
  }

  lemma {:induction false} OneMoreEnvelope(envs: seq<Envelope>, env: Envelope)
    ensures Suppressed(envs + [env]) == Suppressed(envs) + if IsInput(env) && LockSeen(envs) then {env.id} else {}
    ensures LockSeen(envs + [env]) <==> env.kind == Signal(LockStart) || (!IsBoundary(env) && LockSeen(envs))
  {
    assert (envs + [env])[..|envs|] == envs;
  }

  lemma {:induction false} NothingToSuppress(envs: seq<Envelope>, more: seq<Envelope>)
    requires forall i :: 0 <= i < |more| ==> !IsBoundary(more[i]) && !IsInput(more[i])
    ensures Suppressed(envs + more) == Suppressed(envs) && LockSeen(envs + more) == LockSeen(envs)
    decreases |more|
  {
    if more == [] {
      assert envs + more == envs;
    } else {
      var init, last := more[..|more| - 1], more[|more| - 1];
      NothingToSuppress(envs, init);
      OneMoreEnvelope(envs + init, last);
      assert envs + more == envs + init + [last];
    }
  }

  /** Only the first envelope of a raw event may be input, which then arrives unlocked, or a lock boundary, which is
      there whenever the login window is left. */
  lemma {:induction false} FirstOfTold(before: Option<Focus>, e: RawEvent)
    ensures var told, after := Told(before, e), if e.WindowFocusChange? then Some(e.focusInfo) else before;
            && (forall i :: 0 < i < |told| ==> !IsBoundary(told[i]) && !IsInput(told[i]))
            && (|told| > 0 && IsInput(told[0]) ==> !AtLogin(before))
            && (|told| > 0 && told[0].kind == Signal(LockStart) ==> AtLogin(after))
            && (AtLogin(before) && !AtLogin(after) ==> |told| > 0 && told[0].kind == Signal(LockEnd))
  {
  }

  lemma {:induction false} OneEventSuppressesNothing(envs: seq<Envelope>, before: Option<Focus>, e: RawEvent)
    requires Suppressed(envs) == {} && (LockSeen(envs) ==> AtLogin(before))
    ensures var all := envs + Told(before, e);
            Suppressed(all) == {}
            && (LockSeen(all) ==> AtLogin(if e.WindowFocusChange? then Some(e.focusInfo) else before))
  {
    hide Told, AtLogin, Suppressed, LockSeen;
    var told := Told(before, e);
    FirstOfTold(before, e);
    if |told| == 0 {
      assert envs + told == envs;
    } else {
      OneMoreEnvelope(envs, told[0]);
      NothingToSuppress(envs + [told[0]], told[1..]);
      assert envs + told == envs + [told[0]] + told[1..];
    }
  }

  /** Whatever the raw events, and wherever a batch of them starts. */
  lemma {:induction false} NothingIsSuppressed(before: Option<Focus>, events: seq<RawEvent>)
    ensures Suppressed(AllTold(before, events)) == {}
    ensures LockSeen(AllTold(before, events)) ==> AtLogin(LastFocus(before, events))
  {
    if events != [] {
      var init, e := events[..|events| - 1], events[|events| - 1];
      NothingIsSuppressed(before, init);
      OneEventSuppressesNothing(AllTold(before, init), LastFocus(before, init), e);
    }
  }

  lemma {:induction false} StoredWithout(events: seq<RawEvent>)
    ensures Stored({}, events) == events
  {
    if events != [] {
      StoredWithout(events[..|events| - 1]);
    }
  }

  // ---------- When is that what the documentation wants? ----------

  /** The raw events without the input that arrives while the login window is in front. */
  function Unlocked(before: Option<Focus>, events: seq<RawEvent>): seq<RawEvent> {
    if events == [] then []
    else
      var init, last := events[..|events| - 1], events[|events| - 1];
      Unlocked(before, init) + if IsTypedAtLogin(LastFocus(before, init), last) then [] else [last]
  }

  predicate IsTypedAtLogin(before: Option<Focus>, e: RawEvent) {
    !e.WindowFocusChange? && AtLogin(before)
  }

  /** A key or the mouse is used while the login window is in front. */
  predicate TypesAtLogin(before: Option<Focus>, events: seq<RawEvent>) {
    exists i :: 0 <= i < |events| && IsTypedAtLogin(LastFocus(before, events[..i]), events[i])
  }

  lemma {:induction false} TypesMore(before: Option<Focus>, init: seq<RawEvent>, last: RawEvent)
    ensures TypesAtLogin(before, init + [last])
       <==> TypesAtLogin(before, init) || IsTypedAtLogin(LastFocus(before, init), last)
  {
    hide LastFocus, AtLogin;
    var events := init + [last];
    assert events[..|init|] == init;
    if TypesAtLogin(before, init) {
      var i :| 0 <= i < |init| && IsTypedAtLogin(LastFocus(before, init[..i]), init[i]);
      assert events[..i] == init[..i] && events[i] == init[i];
    }
    if TypesAtLogin(before, events) && !IsTypedAtLogin(LastFocus(before, init), last) {
      var i :| 0 <= i < |events| && IsTypedAtLogin(LastFocus(before, events[..i]), events[i]);
      assert events[|init|] == last && events[..i] == init[..i] && events[i] == init[i];
    }
  }

  lemma {:induction false} UnlockedIff(before: Option<Focus>, events: seq<RawEvent>)
    ensures |Unlocked(before, events)| <= |events|
    ensures Unlocked(before, events) == events <==> !TypesAtLogin(before, events)
  {
    hide TypesAtLogin, LastFocus, AtLogin;
    if events == [] {
      assert !TypesAtLogin(before, []) by {
        NobodyTypes(before);
      }
    } else {
      var init, last := events[..|events| - 1], events[|events| - 1];
      UnlockedIff(before, init);
      assert events == init + [last];
      TypesMore(before, init, last);
    }
  }

  lemma {:induction false} NobodyTypes(before: Option<Focus>)
    ensures !TypesAtLogin(before, [])
  {
  }

  /** With raw events persisted, a batch is forwarded whole; so input while locked is suppressed exactly if there
      is none. */
  lemma {:induction false} SuppressesIff(before: Option<Focus>, events: seq<RawEvent>)
    ensures Persisted(true, events, AllTold(before, events)) == events
    ensures Persisted(true, events, AllTold(before, events)) == Unlocked(before, events)
       <==> !TypesAtLogin(before, events)
  {
    NothingIsSuppressed(before, events);
    StoredWithout(events);
    UnlockedIff(before, events);
  }

  /** An instance: a key pressed at the login window, which no envelope tells of. */
  lemma {:induction false} KeyAtLoginIsStored(at: Time, data: nat)
    ensures var login := Focus(1, 1, LOGINWINDOW_APP, "", 0, at);
            var events := [WindowFocusChange(at, 0, login), KeyboardInput(at, 1, data)];
            && InputsArriving(None, events) == [] && Unlocked(None, events) == events[..1]
            && Persisted(true, events, AllTold(None, events)) == events
  {
    var login := Focus(1, 1, LOGINWINDOW_APP, "", 0, at);
    var first, second := WindowFocusChange(at, 0, login), KeyboardInput(at, 1, data);
    SuppressesIff(None, [first] + [second]);
    OneFocus(first);
    assert ([first] + [second])[..1] == [first] && [first] + [second] == [first, second];
    assert AtLogin(Some(login));
  }

  lemma {:induction false} OneFocus(e: RawEvent)
    requires e.WindowFocusChange?
    ensures LastFocus(None, [e]) == Some(e.focusInfo) && Unlocked(None, [e]) == [e] && InputsArriving(None, [e]) == []
  {
    assert [e][..0] == [];
    assert Unlocked(None, [e]) == [] + [e] && InputsArriving(None, [e]) == [] + [];
  }

  // ---------- The jobs ----------

  datatype Job = Job(events: seq<RawEvent>, envelopes: seq<Envelope>)

  function JobOf(m: Send): seq<Job> {
    match m case ToCompression(Process(events, envs)) => [Job(events, envs)] case _ => []
  }

  /** The jobs of some commands: each batch that is not empty, with the envelopes told of it. */
  function JobsDue(before: Option<Focus>, cmds: seq<DeriveCommand>): seq<Job> {
    if cmds == [] then []
    else
      var init := cmds[..|cmds| - 1];
      JobsDue(before, init) + JobDue(LastFocus(before, FlatMap(RawIn, init)), cmds[|cmds| - 1])
  }

  function JobDue(before: Option<Focus>, cmd: DeriveCommand): seq<Job> {
    if cmd.Batch? && cmd.events != [] then [Job(cmd.events, AllTold(before, cmd.events))] else []
  }

  predicate NoJob(sends: seq<Send>) {
    forall i :: 0 <= i < |sends| ==> !sends[i].ToCompression?
  }

  lemma {:induction false} LoopHasNoJob(w: Work, envs: seq<Envelope>)
    ensures NoJob(Run(EnvelopeStep, w, envs).1)
  {
    if envs != [] {
      LoopHasNoJob(w, envs[..|envs| - 1]);
      StepHasNoJob(Run(EnvelopeStep, w, envs[..|envs| - 1]).0, envs[|envs| - 1]);
    }
  }

  lemma {:induction false} StepHasNoJob(w: Work, env: Envelope)
    ensures NoJob(EnvelopeStep(w, env).1)
  {
  }

  /** A batch is handed to the compression stage once, whole, with its envelopes. */
  lemma {:induction false} BatchHasOneJob(l: Local, events: seq<RawEvent>) returns (k: nat)
    requires Agree(l) && events != []
    ensures var sends := HandleBatch(l, events).1;
            && k < |sends| && sends[k] == ToCompression(Process(events, AllTold(l.lastFocus, events)))
            && NoJob(sends[..k]) && NoJob(sends[k + 1..])
  {
    hide EnvelopeStep, AllTold, FinishBatch, NoJob;
    EnvelopesAreTold(l.lastFocus, events);
    var envs, w := AllTold(l.lastFocus, events), Work(l.engine, EMPTY_UPDATE);
    LoopHasNoJob(w, envs);
    var (w', sends) := Run(EnvelopeStep, w, envs);
    k := |sends|;
    FinishHasOneJob(sends, events, envs, w'.update);
  }

  lemma {:induction false} FinishHasOneJob(sends: seq<Send>, events: seq<RawEvent>, envs: seq<Envelope>,
                                           u: SnapshotUpdate)
    requires NoJob(sends)
    ensures var all, k := sends + FinishBatch(events, envs, u), |sends|;
            && k < |all| && all[k] == ToCompression(Process(events, envs)) && NoJob(all[..k]) && NoJob(all[k + 1..])
  {
    var finish := FinishBatch(events, envs, u);
    assert (sends + finish)[..|sends|] == sends && (sends + finish)[|sends| + 1..] == finish[1..];
  }

  lemma {:induction false} NoJobs(sends: seq<Send>)
    requires NoJob(sends)
    ensures FlatMap(JobOf, sends) == []
  {
    if sends != [] {
      NoJobs(sends[..|sends| - 1]);
    }
  }

  lemma {:induction false} OneJob(sends: seq<Send>, k: nat)
    requires k < |sends| && NoJob(sends[..k]) && NoJob(sends[k + 1..])
    ensures FlatMap(JobOf, sends) == JobOf(sends[k])
  {
    NoJobs(sends[..k]);
    NoJobs(sends[k + 1..]);
    FlatMapAppend(JobOf, sends[..k], sends[k]);
    FlatMapConcat(JobOf, sends[..k] + [sends[k]], sends[k + 1..]);
    assert sends == sends[..k] + [sends[k]] + sends[k + 1..];
  }

  lemma {:induction false} EmptyBatchHasNoJob(l: Local)
    ensures FlatMap(JobOf, HandleBatch(l, []).1) == []
  {
  }

  lemma {:induction false} TickHasNoJob(l: Local, now: Time)
    ensures NoJob(HandleTick(l, now).1)
  {
  }

  lemma {:induction false} ShutdownIsNoJob()
    ensures FlatMap(JobOf, SHUTDOWN_SENDS) == []
  {
    FlatMapOne(JobOf, SHUTDOWN_SENDS[0]);
    FlatMapAppend(JobOf, [SHUTDOWN_SENDS[0]], SHUTDOWN_SENDS[1]);
    assert SHUTDOWN_SENDS == [SHUTDOWN_SENDS[0]] + [SHUTDOWN_SENDS[1]];
  }

  lemma {:induction false} CommandJobs(l: Local, cmd: DeriveCommand)
    requires Agree(l)
    ensures FlatMap(JobOf, Handle(l, cmd).1) == JobDue(l.lastFocus, cmd)
  {
    hide HandleBatch, HandleTick, AllTold;
    match cmd
    case Batch(events) =>
      if events == [] {
        EmptyBatchHasNoJob(l);
      } else {
        var k := BatchHasOneJob(l, events);
        OneJob(HandleBatch(l, events).1, k);
      }
    case Tick(now) =>
      TickHasNoJob(l, now);
      NoJobs(HandleTick(l, now).1);
    case DeriveShutdown =>
      ShutdownIsNoJob();
  }

  /** Over every run of commands. */
  lemma {:induction false} JobsFollow(l0: Local, cmds: seq<DeriveCommand>)
    requires Agree(l0)
    ensures FlatMap(JobOf, Run(Handle, l0, cmds).1) == JobsDue(l0.lastFocus, cmds)
  {
    hide Handle, Follows, JobDue, Agree;
    if cmds != [] {
      var init, cmd := cmds[..|cmds| - 1], cmds[|cmds| - 1];
      JobsFollow(l0, init);
      RunFollows(l0, init);
      RunAgrees(l0, init);
      var (mid, sends) := Run(Handle, l0, init);
      assert mid.lastFocus == LastFocus(l0.lastFocus, FlatMap(RawIn, init)) by {
        FollowsFocus(l0, init, mid, sends);
      }
      CommandJobs(mid, cmd);
      FlatMapConcat(JobOf, sends, Handle(mid, cmd).1);
    }
  }

  lemma {:induction false} FollowsFocus(l0: Local, cmds: seq<DeriveCommand>, l: Local, sends: seq<Send>)
    requires Follows(l0, cmds, l, sends)
    ensures l.lastFocus == LastFocus(l0.lastFocus, FlatMap(RawIn, cmds))
  {
  }

  function PersistedOf(persistRaw: bool): Job -> seq<RawEvent> {
    (job: Job) => Persisted(persistRaw, job.events, job.envelopes)
  }

  /** So what is forwarded of all jobs is all raw events, or none. */
  lemma {:induction false} JobsPersistAll(persistRaw: bool, before: Option<Focus>, cmds: seq<DeriveCommand>)
    ensures FlatMap(PersistedOf(persistRaw), JobsDue(before, cmds))
         == if persistRaw then FlatMap(RawIn, cmds) else []
  {
    if cmds != [] {
      var init, cmd := cmds[..|cmds| - 1], cmds[|cmds| - 1];
      var before' := LastFocus(before, FlatMap(RawIn, init));
      JobsPersistAll(persistRaw, before, init);
      FlatMapConcat(PersistedOf(persistRaw), JobsDue(before, init), JobDue(before', cmd));
      JobPersistsAll(persistRaw, before', cmd);
    }
  }

  lemma {:induction false} JobPersistsAll(persistRaw: bool, before: Option<Focus>, cmd: DeriveCommand)
    ensures FlatMap(PersistedOf(persistRaw), JobDue(before, cmd)) == if persistRaw then RawIn(cmd) else []
  {
    if cmd.Batch? && cmd.events != [] {
      SuppressesIff(before, cmd.events);
      FlatMapOne(PersistedOf(persistRaw), Job(cmd.events, AllTold(before, cmd.events)));
    } else {
      FlatMapNone(PersistedOf(persistRaw));
    }
  }
}
