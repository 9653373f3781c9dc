/** The snapshot stage forgets records at the front that are over; no aggregate ever misses them. */
module Retention {
  import opened Wrappers
  import opened Events
  import opened RecordBuilder
  import opened PipelineTypes
  import opened SnapshotStage
  import opened Accumulation

  // ---------- Records that do not count ----------

  lemma {:induction false} OldFrontIsEmpty(gone: seq<Record>, since: Time, now: Time)
    requires forall i :: 0 <= i < |gone| ==> ClipOf(gone[i], since, now).None?
    ensures Accumulated(gone, since, now) == map[]
  {
    if gone != [] {
      OldFrontIsEmpty(gone[..|gone| - 1], since, now);
    }
  }

  lemma {:induction false} OldFrontDoesNotCount(gone: seq<Record>, recent: seq<Record>, since: Time, now: Time)
    requires forall i :: 0 <= i < |gone| ==> ClipOf(gone[i], since, now).None?
    ensures Accumulated(gone + recent, since, now) == Accumulated(recent, since, now)
    decreases |recent|
  {
    if recent == [] {
      assert gone + recent == gone;
      OldFrontIsEmpty(gone, since, now);
    } else {
      assert (gone + recent)[..|gone + recent| - 1] == gone + recent[..|recent| - 1];
      OldFrontDoesNotCount(gone, recent[..|recent| - 1], since, now);
    }
  }

  // ---------- What is retained ----------

  /** `recent` is the end of `all`, and what is before it was over before `limit`. */
  predicate Retains(all: seq<Record>, recent: seq<Record>, limit: Time) {
    var dropped := |all| - |recent|;
    && 0 <= dropped && all[dropped..] == recent
    && forall i :: 0 <= i < dropped ==> all[i].endTime.Some? && all[i].endTime.value < limit
  }

  lemma {:induction false} PruneRetains(all: seq<Record>, recent: seq<Record>, retention: nat, now: Time)
    requires Retains(all, recent, now - retention)
    ensures Retains(all, Prune(recent, now - retention, now), now - retention)
    decreases |recent|
  {
    if recent != [] && EndOf(recent[0], now) < now - retention {
      assert all[|all| - |recent|] == recent[0];
      PruneRetains(all, recent[1..], retention, now);
    }
  }

  lemma {:induction false} PruneStops(records: seq<Record>, since: Time, now: Time)
    ensures var kept := Prune(records, since, now); kept != [] ==> EndOf(kept[0], now) >= since
    decreases |records|
  {
    if records != [] && EndOf(records[0], now) < since {
      PruneStops(records[1..], since, now);
    }
  }

  lemma {:induction false} RetainedAggregate(all: seq<Record>, recent: seq<Record>, since: Time, now: Time)
    requires Retains(all, recent, since)
    ensures Accumulated(recent, since, now) == Accumulated(all, since, now)
  {
    var gone := all[..|all| - |recent|];
    assert all == gone + recent;
    OldFrontDoesNotCount(gone, recent, since, now);
  }

  // ---------- Over a run ----------

  /** A message with the clock reading the stage takes on it. */
  datatype TimedMessage = TimedMessage(msg: SnapshotMessage, now: Time)

  function After(cfg: Config, s: Snap, ms: seq<TimedMessage>): Snap {
    if ms == [] then s
    else HandleMessage(After(cfg, s, ms[..|ms| - 1]), cfg, ms[|ms| - 1].msg, ms[|ms| - 1].now).0
  }

  /** Every record the stage was ever given. */
  function Received(initial: seq<Record>, ms: seq<TimedMessage>): seq<Record> {
    if ms == [] then initial
    else Received(initial, ms[..|ms| - 1]) + NewRecords(ms[|ms| - 1].msg)
  }

  predicate Nondecreasing(start: Time, ms: seq<TimedMessage>) {
    && (forall i :: 0 <= i < |ms| ==> start <= ms[i].now)
    && forall i, j :: 0 <= i < j < |ms| ==> ms[i].now <= ms[j].now
  }

  function LastNow(start: Time, ms: seq<TimedMessage>): Time {
    if ms == [] then start else ms[|ms| - 1].now
  }

  /** What a message does to the retained records, and what it publishes. */
  lemma {:induction false} MessageRecent(cfg: Config, s: Snap, msg: SnapshotMessage, now: Time)
    ensures var s' := HandleMessage(s, cfg, msg, now).0;
            if |s'.published| > |s.published|
            then && !msg.RecordDone? && s'.recent == Prune(s.recent, now - cfg.retention, now)
                 && s'.published[|s'.published| - 1].records == s'.recent && s'.published[|s'.published| - 1].now == now
            else s'.recent == s.recent + if msg.RecordDone? then [msg.record] else []
  {
    assert s.recent + [] == s.recent;
  }

  lemma {:induction false} RetainsMore(all: seq<Record>, recent: seq<Record>, more: seq<Record>, limit: Time,
                                       limit': Time)
    requires Retains(all, recent, limit) && limit <= limit'
    ensures Retains(all + more, recent + more, limit')
  {
    assert (all + more)[|all| - |recent|..] == recent + more;
  }

  function NewRecords(msg: SnapshotMessage): seq<Record> {
    if msg.RecordDone? then [msg.record] else []
  }

  lemma {:induction false} StepRetains(cfg: Config, s: Snap, all: seq<Record>, m: TimedMessage, before: Time)
    requires Retains(all, s.recent, before - cfg.retention) && before <= m.now
    ensures Retains(all + NewRecords(m.msg), HandleMessage(s, cfg, m.msg, m.now).0.recent, m.now - cfg.retention)
  {
    hide Retains, HandleMessage;
    MessageRecent(cfg, s, m.msg, m.now);
    RetainsMore(all, s.recent, NewRecords(m.msg), before - cfg.retention, m.now - cfg.retention);
    if !m.msg.RecordDone? {
      assert all + NewRecords(m.msg) == all && s.recent + NewRecords(m.msg) == s.recent;
      PruneRetains(all, s.recent, cfg.retention, m.now);
    }
  }

  lemma {:induction false} RunRetains(cfg: Config, s0: Snap, initial: seq<Record>, start: Time, ms: seq<TimedMessage>)
    requires Retains(initial, s0.recent, start - cfg.retention) && Nondecreasing(start, ms)
    ensures Retains(Received(initial, ms), After(cfg, s0, ms).recent, LastNow(start, ms) - cfg.retention)
  {
    if ms != [] {
      var init, m := ms[..|ms| - 1], ms[|ms| - 1];
      RunRetains(cfg, s0, initial, start, init);
      StepRetains(cfg, After(cfg, s0, init), Received(initial, init), m, LastNow(start, init));
    }
  }

  /** The first publish prunes the hydrated records in the same way. */
  lemma {:induction false} StartRetains(cfg: Config, initial: seq<Record>, transitions: seq<Transition>, start: Time)
    ensures Retains(initial, NewSnap(cfg, initial, transitions, start).recent, start - cfg.retention)
  {
    assert initial[0..] == initial;
    PruneRetains(initial, initial, cfg.retention, start);
  }

  /** What was published are these records from the first on that was not over before the retention window,
      and it gives the same as all of them. */
  ghost predicate AggregatesAll(p: Published, all: seq<Record>, retention: nat) {
    && Retains(all, p.records, p.now - retention)
    && (p.records != [] ==> EndOf(p.records[0], p.now) >= p.now - retention)
    && Accumulated(p.records, p.now - retention, p.now) == Accumulated(all, p.now - retention, p.now)
  }

  /** If the stage published between two states, what it published aggregates all these records. */
  ghost predicate PublishesAll(s: Snap, s': Snap, all: seq<Record>, retention: nat) {
    |s'.published| > |s.published| ==> AggregatesAll(s'.published[|s'.published| - 1], all, retention)
  }

  lemma {:induction false} PublishStep(cfg: Config, s: Snap, s': Snap, msg: SnapshotMessage, now: Time,
                                       all: seq<Record>)
    requires s' == HandleMessage(s, cfg, msg, now).0 && Retains(all, s'.recent, now - cfg.retention)
    ensures PublishesAll(s, s', all, cfg.retention)
  {
    hide HandleMessage, Prune, Accumulated;
    MessageRecent(cfg, s, msg, now);
    PruneStops(s.recent, now - cfg.retention, now);
    RetainedAggregate(all, s'.recent, now - cfg.retention, now);
  }

  lemma {:induction false} AfterMore(cfg: Config, s0: Snap, ms: seq<TimedMessage>)
    requires ms != []
    ensures After(cfg, s0, ms)
            == HandleMessage(After(cfg, s0, ms[..|ms| - 1]), cfg, ms[|ms| - 1].msg, ms[|ms| - 1].now).0
  {
  }

  lemma {:induction false} PublishAfter(cfg: Config, s0: Snap, initial: seq<Record>, start: Time, ms: seq<TimedMessage>)
    requires Retains(initial, s0.recent, start - cfg.retention) && Nondecreasing(start, ms) && ms != []
    ensures PublishesAll(After(cfg, s0, ms[..|ms| - 1]), After(cfg, s0, ms), Received(initial, ms), cfg.retention)
  {
    var s, s', m := After(cfg, s0, ms[..|ms| - 1]), After(cfg, s0, ms), ms[|ms| - 1];
    RunRetains(cfg, s0, initial, start, ms);
    AfterMore(cfg, s0, ms);
    PublishStep(cfg, s, s', m.msg, m.now, Received(initial, ms));
  }

  /** The publish on the way out, when all senders are gone, is no exception. */
  lemma {:induction false} LastPublish(cfg: Config, s: Snap, s': Snap, all: seq<Record>, before: Time, now: Time)
    requires Retains(all, s.recent, before - cfg.retention) && before <= now && s' == Disconnect(s, cfg, now).0
    ensures |s'.published| == |s.published| + (if s.storageShutdownSent then 0 else 1)
    ensures PublishesAll(s, s', all, cfg.retention)
  {
    if !s.storageShutdownSent {
      assert all + [] == all && s.recent + [] == s.recent;
      RetainsMore(all, s.recent, [], before - cfg.retention, now - cfg.retention);
      PruneRetains(all, s.recent, cfg.retention, now);
      PruneStops(s.recent, now - cfg.retention, now);
      RetainedAggregate(all, s'.recent, now - cfg.retention, now);
    }
  }

  /** Pruned aggregation is full aggregation: whenever the stage publishes, at the start, on a message, or
      when all senders are gone, its retained records give the same as every record it was ever given. */
  lemma {:induction false} PublishAggregatesAll(cfg: Config, initial: seq<Record>, transitions: seq<Transition>,
                                                start: Time, ms: seq<TimedMessage>, end: Time)
    requires Nondecreasing(start, ms) && LastNow(start, ms) <= end
    ensures AggregatesAll(NewSnap(cfg, initial, transitions, start).published[0], initial, cfg.retention)
    ensures var s0 := NewSnap(cfg, initial, transitions, start);
            && (ms != [] ==> PublishesAll(After(cfg, s0, ms[..|ms| - 1]), After(cfg, s0, ms), Received(initial, ms),
                                          cfg.retention))
            && PublishesAll(After(cfg, s0, ms), Disconnect(After(cfg, s0, ms), cfg, end).0, Received(initial, ms),
                            cfg.retention)
  {
    hide PublishesAll, Accumulated, Prune;
    var s0 := NewSnap(cfg, initial, transitions, start);
    StartRetains(cfg, initial, transitions, start);
    PruneStops(initial, start - cfg.retention, start);
    RetainedAggregate(initial, s0.recent, start - cfg.retention, start);
    PublishRun(cfg, s0, initial, start, ms, end);
  }

  lemma {:induction false} PublishRun(cfg: Config, s0: Snap, initial: seq<Record>, start: Time, ms: seq<TimedMessage>,
                                      end: Time)
    requires Retains(initial, s0.recent, start - cfg.retention) && Nondecreasing(start, ms) && LastNow(start, ms) <= end
    ensures ms != [] ==> PublishesAll(After(cfg, s0, ms[..|ms| - 1]), After(cfg, s0, ms), Received(initial, ms),
                                      cfg.retention)
    ensures PublishesAll(After(cfg, s0, ms), Disconnect(After(cfg, s0, ms), cfg, end).0, Received(initial, ms),
                         cfg.retention)
  {
    if ms != [] {
      PublishAfter(cfg, s0, initial, start, ms);
    }
    RunRetains(cfg, s0, initial, start, ms);
    var s := After(cfg, s0, ms);
    LastPublish(cfg, s, Disconnect(s, cfg, end).0, Received(initial, ms), LastNow(start, ms), end);
  }
}
