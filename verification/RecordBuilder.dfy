/** Hints split the timeline into activity records. */
module RecordBuilder {
  import opened Wrappers
  import opened Events
  import opened Mealy

  datatype Record = Record(recordId: nat, runId: Option<string>, startTime: Time, endTime: Option<Time>,
                           state: ActivityState, focusInfo: Option<Focus>)

  datatype Builder = Builder(state: ActivityState, record: Option<Record>, focus: Option<Focus>, nextId: nat)

  function NewBuilder(state: ActivityState, nextId: nat): Builder {
    Builder(state, None, None, nextId)
  }

  /** Closes the open record, if there is one, at `now`. */
  function Closed(b: Builder, now: Time): seq<Record> {
    if b.record.Some? then [b.record.value.(endTime := Some(now))] else []
  }

  function Open(b: Builder, now: Time): Builder {
    b.(record := Some(Record(b.nextId, None, now, None, b.state, b.focus)), nextId := b.nextId + 1)
  }

  /** A hint with the two clock readings it takes: one to close a record, one to open the next. */
  datatype TimedHint = TimedHint(env: Envelope, closeAt: Time, openAt: Time)

  function HintStep(b: Builder, h: TimedHint): (Builder, seq<Record>) {
    match (h.env.kind, h.env.payload)
    case (Hint(FocusChanged), FocusData(f)) =>
      (Open(b.(focus := Some(f)), h.openAt), Closed(b, h.closeAt))
    case (Hint(StateChanged), State(_, to)) =>
      if b.state != to then (Open(b.(state := to), h.openAt), Closed(b, h.closeAt)) else (b, [])
    case (Hint(TitleChanged), Title(windowId, title)) =>
      if b.focus.Some? && b.focus.value.windowId == windowId then
        (Open(b.(focus := Some(b.focus.value.(windowTitle := title))), h.openAt), Closed(b, h.closeAt))
      else (b, [])
    case _ => (b, [])
  }

  /** The builder as the hints stage holds it, updated in place. */
  class RecordBuilder {
    var currentState: ActivityState
    var currentRecord: Option<Record>
    var currentFocus: Option<Focus>
    var nextRecordId: nat

    function Value(): Builder
      reads this
    {
      Builder(currentState, currentRecord, currentFocus, nextRecordId)
    }

    constructor WithNextRecordId(initialState: ActivityState, nextRecordId: nat)
      ensures Value() == NewBuilder(initialState, nextRecordId)
    {
      currentState, currentRecord, currentFocus := initialState, None, None;
      this.nextRecordId := nextRecordId;
    }

    method OnHint(env: Envelope, closeAt: Time, openAt: Time) returns (completed: Option<Record>)
      modifies this
      ensures Value() == HintStep(old(Value()), TimedHint(env, closeAt, openAt)).0
      ensures (if completed.Some? then [completed.value] else [])
           == HintStep(old(Value()), TimedHint(env, closeAt, openAt)).1
    {
      completed := None;
      match (env.kind, env.payload) {
        case (Hint(FocusChanged), FocusData(f)) =>
          currentFocus := Some(f);
          completed := FinalizeCurrent(closeAt);
          StartNewCurrent(openAt);
        case (Hint(StateChanged), State(_, to)) =>
          if currentState != to {
            completed := FinalizeCurrent(closeAt);
            currentState := to;
            StartNewCurrent(openAt);
          }
        case (Hint(TitleChanged), Title(windowId, title)) =>
          if currentFocus.Some? && currentFocus.value.windowId == windowId {
            completed := FinalizeCurrent(closeAt);
            currentFocus := Some(currentFocus.value.(windowTitle := title));
            StartNewCurrent(openAt);
          }
        case _ =>
      }
    }

    method FinalizeAll(now: Time) returns (completed: Option<Record>)
      modifies this
      ensures Value() == old(Value()).(record := None)
      ensures (if completed.Some? then [completed.value] else []) == Closed(old(Value()), now)
    {
      completed := FinalizeCurrent(now);
    }

    method StartNewCurrent(now: Time)
      modifies this
      ensures Value() == Open(old(Value()), now)
    {
      currentRecord := Some(Record(nextRecordId, None, now, None, currentState, currentFocus));
      nextRecordId := nextRecordId + 1;
    }

    method FinalizeCurrent(now: Time) returns (completed: Option<Record>)
      modifies this
      ensures Value() == old(Value()).(record := None)
      ensures (if completed.Some? then [completed.value] else []) == Closed(old(Value()), now)
    {
      completed := None;
      if currentRecord.Some? {
        completed := Some(currentRecord.value.(endTime := Some(now)));
        currentRecord := None;
      }
    }
  }

  // ---------- When does a hint split a record? ----------

  /** What decides whether the next hint splits: the state and the focused window. */
  datatype Cut = Cut(state: ActivityState, window: Option<nat>)

  function CutOf(b: Builder): Cut {
    Cut(b.state, if b.focus.Some? then Some(b.focus.value.windowId) else None)
  }

  function NextCut(c: Cut, env: Envelope): Cut {
    match (env.kind, env.payload)
    case (Hint(FocusChanged), FocusData(f)) => c.(window := Some(f.windowId))
    case (Hint(StateChanged), State(_, to)) => c.(state := to)
    case _ => c
  }

  predicate Splits(c: Cut, env: Envelope) {
    match (env.kind, env.payload)
    case (Hint(FocusChanged), FocusData(f)) => true
    case (Hint(StateChanged), State(_, to)) => to != c.state
    case (Hint(TitleChanged), Title(windowId, _)) => c.window == Some(windowId)
    case _ => false
  }

  /** The guard is exact: a hint opens a new record precisely when it splits. */
  lemma {:induction false} SplitsExactly(b: Builder, h: TimedHint)
    ensures Splits(CutOf(b), h.env) <==> HintStep(b, h).0.nextId == b.nextId + 1
    ensures !Splits(CutOf(b), h.env) ==> HintStep(b, h) == (b, [])
    ensures CutOf(HintStep(b, h).0) == if Splits(CutOf(b), h.env) then NextCut(CutOf(b), h.env) else CutOf(b)
    ensures Splits(CutOf(b), h.env) ==>
              && HintStep(b, h).1 == Closed(b, h.closeAt)
              && HintStep(b, h).0.record
                 == Some(Record(b.nextId, None, h.openAt, None, NextCut(CutOf(b), h.env).state, HintStep(b, h).0.focus))
  {
  }

  /** The guards of all hints of a stream, each in the situation the hints before it leave. */
  predicate AllSplit(c: Cut, hints: seq<Envelope>) {
    Accepts(NextCut, Splits, c, hints)
  }

  function CutAfter(c: Cut, hints: seq<Envelope>): Cut {
    Fold(NextCut, c, hints)
  }

  function EnvsOf(hs: seq<TimedHint>): (envs: seq<Envelope>)
    ensures |envs| == |hs|
  {
    seq(|hs|, i requires 0 <= i < |hs| => hs[i].env)
  }

  /** Records carry consecutive identifiers from `first` on. */
  predicate Numbered(records: seq<Record>, first: nat) {
    forall i :: 0 <= i < |records| ==> records[i].recordId == first + i
  }

  /** Counting: n splitting hints close n-1 records and leave one open, numbered in order. */
  lemma {:induction false} HintsCountRecords(b: Builder, hs: seq<TimedHint>)
    requires b.record == None
    requires AllSplit(CutOf(b), EnvsOf(hs))
    ensures var (b', records) := Run(HintStep, b, hs);
            && CutOf(b') == CutAfter(CutOf(b), EnvsOf(hs))
            && b'.nextId == b.nextId + |hs|
            && Numbered(records, b.nextId)
            && (hs == [] ==> records == [] && b'.record == None)
            && (hs != [] ==> |records| == |hs| - 1 && b'.record.Some?
                             && b'.record.value.recordId == b.nextId + |hs| - 1)
  {
    if hs != [] {
      var init, h := hs[..|hs| - 1], hs[|hs| - 1];
      assert EnvsOf(hs)[..|hs| - 1] == EnvsOf(init);
      HintsCountRecords(b, init);
      SplitsExactly(Run(HintStep, b, init).0, h);
    }
  }

  /** Nothing is lost or counted twice: after the final flush as many records exist as hints
      were handled, numbered from the first free identifier. */
  lemma {:induction false} FinalizeEmitsAll(b: Builder, hs: seq<TimedHint>, now: Time)
    requires b.record == None
    requires AllSplit(CutOf(b), EnvsOf(hs))
    ensures var (b', records) := Run(HintStep, b, hs);
            var all := records + Closed(b', now);
            |all| == |hs| && Numbered(all, b.nextId)
  {
    HintsCountRecords(b, hs);
  }

  // ---------- Which record follows from which hint ----------

  /** The state and the focus after a stream of splitting hints, read off the hints alone. */
  function StateAfter(state: ActivityState, hints: seq<Envelope>): ActivityState {
    if hints == [] then state
    else
      var last := hints[|hints| - 1];
      if last.payload.State? then last.payload.to else StateAfter(state, hints[..|hints| - 1])
  }

  function FocusAfter(focus: Option<Focus>, hints: seq<Envelope>): Option<Focus> {
    if hints == [] then focus
    else
      var before := FocusAfter(focus, hints[..|hints| - 1]);
      match hints[|hints| - 1].payload
      case FocusData(f) => Some(f)
      case Title(_, title) => if before.Some? then Some(before.value.(windowTitle := title)) else None
      case _ => before
  }

  /** The record that hint `i` opens: with the state and focus the hints up to it lead to, from its own
      clock reading on, until the next hint or, for the last one, `end`. */
  function RecordAt(b: Builder, hs: seq<TimedHint>, i: nat, end: Option<Time>): Record
    requires i < |hs|
  {
    Record(b.nextId + i, None, hs[i].openAt, if i + 1 < |hs| then Some(hs[i + 1].closeAt) else end,
           StateAfter(b.state, EnvsOf(hs[..i + 1])), FocusAfter(b.focus, EnvsOf(hs[..i + 1])))
  }

  /** The builder after some splitting hints. */
  predicate Built(b: Builder, hs: seq<TimedHint>, b': Builder) {
    && b'.state == StateAfter(b.state, EnvsOf(hs)) && b'.focus == FocusAfter(b.focus, EnvsOf(hs))
    && b'.nextId == b.nextId + |hs|
    && b'.record == if hs == [] then None else Some(RecordAt(b, hs, |hs| - 1, None))
  }

  lemma {:induction false} BuiltMore(b: Builder, hs: seq<TimedHint>, mid: Builder, h: TimedHint)
    requires Built(b, hs, mid) && Splits(CutOf(mid), h.env)
    ensures Built(b, hs + [h], HintStep(mid, h).0)
    ensures HintStep(mid, h).1 == if hs == [] then [] else [RecordAt(b, hs, |hs| - 1, Some(h.closeAt))]
  {
    assert EnvsOf(hs + [h])[..|hs|] == EnvsOf(hs);
    assert (hs + [h])[..|hs| + 1] == hs + [h] && hs[..|hs|] == hs;
  }

  /** The record of a hint is the same in a longer stream, but for its end. */
  lemma {:induction false} RecordInPrefix(b: Builder, hs: seq<TimedHint>, h: TimedHint, i: nat, end: Option<Time>)
    requires i < |hs|
    ensures RecordAt(b, hs + [h], i, end) == RecordAt(b, hs, i, Some(h.closeAt))
  {
    assert (hs + [h])[..i + 1] == hs[..i + 1];
  }

  lemma {:induction false} BuiltRun(b: Builder, hs: seq<TimedHint>)
    requires b.record == None && AllSplit(CutOf(b), EnvsOf(hs))
    ensures var (b', records) := Run(HintStep, b, hs);
            && Built(b, hs, b') && CutOf(b') == CutAfter(CutOf(b), EnvsOf(hs))
            && |records| == (if hs == [] then 0 else |hs| - 1)
            && forall i :: 0 <= i < |records| ==> records[i] == RecordAt(b, hs, i, None)
  {
    if hs != [] {
      var init, h := hs[..|hs| - 1], hs[|hs| - 1];
      assert init + [h] == hs && EnvsOf(hs)[..|hs| - 1] == EnvsOf(init);
      BuiltRun(b, init);
      var (mid, records) := Run(HintStep, b, init);
      BuiltMore(b, init, mid, h);
      SplitsExactly(mid, h);
      forall i | 0 <= i < |init|
        ensures RecordAt(b, hs, i, None) == RecordAt(b, init, i, Some(h.closeAt))
      {
        RecordInPrefix(b, init, h, i, None);
      }
    }
  }

  /** Record by record: with the final flush, the records of a run are exactly those of its hints, each with
      the state and the focus the hints so far lead to and the times of its own hint and of the next. */
  lemma {:induction false} RecordsFollowHints(b: Builder, hs: seq<TimedHint>, now: Time)
    requires b.record == None && AllSplit(CutOf(b), EnvsOf(hs))
    ensures var (b', records) := Run(HintStep, b, hs);
            var all := records + Closed(b', now);
            |all| == |hs| && forall i :: 0 <= i < |hs| ==> all[i] == RecordAt(b, hs, i, Some(now))
  {
    BuiltRun(b, hs);
  }

  // ---------- Records do not overlap ----------

  /** The latest clock reading of a run that began at `t0`. */
  function LastReading(t0: Time, hs: seq<TimedHint>): Time {
    if hs == [] then t0 else hs[|hs| - 1].openAt
  }

  /** The clock never runs backwards over the readings of a run. */
  predicate ClockOrder(t0: Time, hs: seq<TimedHint>) {
    hs == []
    || (var init, h := hs[..|hs| - 1], hs[|hs| - 1];
        ClockOrder(t0, init) && LastReading(t0, init) <= h.closeAt <= h.openAt)
  }

  /** Closed records in time order, each one over before the next begins, all within [lo, hi]. */
  predicate Consecutive(records: seq<Record>, lo: Time, hi: Time) {
    if records == [] then lo <= hi
    else
      var init, last := records[..|records| - 1], records[|records| - 1];
      last.endTime.Some? && Consecutive(init, lo, last.startTime) && last.startTime <= last.endTime.value <= hi
  }

  lemma {:induction false} ConsecutiveWiden(records: seq<Record>, lo: Time, hi: Time, hi': Time)
    requires Consecutive(records, lo, hi) && hi <= hi'
    ensures Consecutive(records, lo, hi') && lo <= hi
  {
    if records != [] {
      ConsecutiveWiden(records[..|records| - 1], lo, records[|records| - 1].startTime,
                       records[|records| - 1].startTime);
    }
  }

  /** Under a clock that does not run backwards the records of a run never overlap. */
  lemma {:induction false} RecordsAreConsecutive(b: Builder, hs: seq<TimedHint>, t0: Time)
    requires b.record == None
    requires ClockOrder(t0, hs)
    ensures var (b', records) := Run(HintStep, b, hs);
            var t := LastReading(t0, hs);
            && t0 <= t
            && (b'.record.Some? ==> b'.record.value.startTime <= t
                                    && Consecutive(records, t0, b'.record.value.startTime))
            && (b'.record.None? ==> Consecutive(records, t0, t))
  {
    if hs != [] {
      var init, h := hs[..|hs| - 1], hs[|hs| - 1];
      RecordsAreConsecutive(b, init, t0);
      var (mid, records) := Run(HintStep, b, init);
      var closed := Closed(mid, h.closeAt);
      if closed != [] {
        assert (records + closed)[..|records|] == records;
        ConsecutiveWiden(records + closed, t0, h.closeAt, h.openAt);
      } else {
        assert records + closed == records;
        ConsecutiveWiden(records, t0, LastReading(t0, init), h.openAt);
      }
      assert records + [] == records;
    }
  }
}
