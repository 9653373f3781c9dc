/** What adapter and lock deriver together make of raw events, said without either: each event's envelopes
    depend only on the event and on the focus event before it. */
module RawToEnvelopes {
  import opened Wrappers
  import opened Events
  import opened Mealy
  import opened Seqs
  import opened EventAdapter
  import opened LockDeriver
  import opened EventChain

  /** The focus of the last focus event. */
  function LastFocus(before: Option<Focus>, events: seq<RawEvent>): Option<Focus> {
    if events == [] then before
    else
      var last := events[|events| - 1];
      if last.WindowFocusChange? then Some(last.focusInfo) else LastFocus(before, events[..|events| - 1])
  }

  /** The login window is in front, so the screen is locked. */
  predicate AtLogin(focus: Option<Focus>) {
    focus.Some? && IsLoginWindow(focus.value.appName)
  }

  /** Another application is in front than before, or another process of it. */
  predicate AppMoves(before: Option<Focus>, f: Focus) {
    before.None? || before.value.pid != f.pid || before.value.processStartTime != f.processStartTime
    || before.value.appName != f.appName
  }

  predicate WindowMoves(before: Option<Focus>, f: Focus) {
    before.None? || before.value.windowId != f.windowId
  }

  predicate Retitles(before: Option<Focus>, f: Focus) {
    !AppMoves(before, f) && !WindowMoves(before, f) && before.value.windowTitle != f.windowTitle
  }

  /** The boundary at which the screen locks or unlocks. */
  function Boundary(before: Option<Focus>, id: nat, at: Time, f: Focus): seq<Envelope> {
    if AtLogin(Some(f)) && !AtLogin(before) then
      [Envelope(id, at, Derived, Signal(LockStart), LockReason("loginwindow"), true, false, false)]
    else if !AtLogin(Some(f)) && AtLogin(before) then
      [Envelope(id, at, Derived, Signal(LockEnd), LockReason("unlock"), true, false, false)]
    else []
  }

  /** The envelopes of one raw event. */
  function Told(before: Option<Focus>, e: RawEvent): seq<Envelope> {
    match e
    case KeyboardInput(at, id, data) =>
      if AtLogin(before) then []
      else [Envelope(id, at, Hook, Signal(KeyboardSignal), InputData(data), false, false, false)]
    case MouseInput(at, id, data) =>
      if AtLogin(before) then []
      else [Envelope(id, at, Hook, Signal(MouseSignal), InputData(data), false, false, false)]
    case WindowFocusChange(at, id, f) =>
      var hint := Envelope(id, at, Hook, Hint(FocusChanged), FocusData(f), false, false, false);
      if AppMoves(before, f) || WindowMoves(before, f) then
        Boundary(before, id, at, f)
        + if AtLogin(Some(f)) then [hint]
          else
            var signal := if AppMoves(before, f) then AppChanged else WindowChanged;
            [Envelope(id, at, Hook, Signal(signal), FocusData(f), false, false, false), hint,
             Envelope(id, at, Hook, Signal(ActivityPulse), NoPayload, false, false, false)]
      else if Retitles(before, f) && !AtLogin(before) then
        [Envelope(id, at, Polling, Hint(TitleChanged), Title(f.windowId, f.windowTitle), false, true, false)]
      else []
  }

  function AllTold(before: Option<Focus>, events: seq<RawEvent>): seq<Envelope> {
    if events == [] then []
    else
      var init := events[..|events| - 1];
      AllTold(before, init) + Told(LastFocus(before, init), events[|events| - 1])
  }

  lemma {:induction false} EventTold(last: Option<Focus>, e: RawEvent)
    ensures EnvelopesOf(last, AtLogin(last), e) == Told(last, e)
    ensures AdaptStep(last, e).0 == if e.WindowFocusChange? then Some(e.focusInfo) else last
  {
  }

  /** Over every stream of raw events, from any state in which the deriver is locked exactly at the login
      window: the envelopes are those of the events one by one. */
  lemma {:induction false} EnvelopesAreTold(last: Option<Focus>, events: seq<RawEvent>)
    ensures var (last', adapted) := Run(AdaptStep, last, events);
            && last' == LastFocus(last, events)
            && Run(LockStep, AtLogin(last), adapted).0 == AtLogin(last')
            && Run(LockStep, AtLogin(last), adapted).1 == AllTold(last, events)
  {
    if events != [] {
      var init, e := events[..|events| - 1], events[|events| - 1];
      EnvelopesAreTold(last, init);
      var (mid, adapted) := Run(AdaptStep, last, init);
      RunConcat(LockStep, AtLogin(last), adapted, AdaptStep(mid, e).1);
      LockOfEvent(mid, AtLogin(mid), e);
      EventTold(mid, e);
    }
  }

  // ---------- Input ----------

  function InputOnly(env: Envelope): seq<Envelope> {
    if env.kind == Signal(KeyboardSignal) || env.kind == Signal(MouseSignal) then [env] else []
  }

  /** The keystrokes and mouse events that arrive while the login window is not in front. */
  function InputsArriving(before: Option<Focus>, events: seq<RawEvent>): seq<Envelope> {
    if events == [] then []
    else
      var init, last := events[..|events| - 1], events[|events| - 1];
      InputsArriving(before, init)
      + if last.WindowFocusChange? || AtLogin(LastFocus(before, init)) then []
        else
          var kind := if last.KeyboardInput? then KeyboardSignal else MouseSignal;
          [Envelope(last.eventId, last.timestamp, Hook, Signal(kind), InputData(last.data), false, false, false)]
  }

  lemma {:induction false} InputTold(before: Option<Focus>, e: RawEvent)
    ensures FlatMap(InputOnly, Told(before, e)) == if e.WindowFocusChange? then [] else Told(before, e)
  {
    var told := Told(before, e);
    if |told| == 0 {
      FlatMapNone(HintOnly);
    } else if |told| == 1 {
      assert told == [told[0]];
      FlatMapOne(InputOnly, told[0]);
    } else if e.WindowFocusChange? {
      NoInput(told);
    }
  }

  lemma {:induction false} NoInput(envs: seq<Envelope>)
    requires forall i :: 0 <= i < |envs| ==> InputOnly(envs[i]) == []
    ensures FlatMap(InputOnly, envs) == []
  {
    if envs != [] {
      NoInput(envs[..|envs| - 1]);
    }
  }

  /** No input is lost, none is made up, and none passes while the screen is locked: the keyboard and mouse
      envelopes are, in order and with id, time and data, the input events that arrive unlocked. */
  lemma {:induction false} InputsPass(before: Option<Focus>, events: seq<RawEvent>)
    ensures FlatMap(InputOnly, AllTold(before, events)) == InputsArriving(before, events)
  {
    if events != [] {
      var init, e := events[..|events| - 1], events[|events| - 1];
      InputsPass(before, init);
      FlatMapConcat(InputOnly, AllTold(before, init), Told(LastFocus(before, init), e));
      InputTold(LastFocus(before, init), e);
    }
  }

  // ---------- Hints ----------

  function HintOnly(env: Envelope): seq<Envelope> {
    if env.kind.Hint? then [env] else []
  }

  /** The hint a focus event is due: of the focus exactly if application or window differ from those of the
      focus event before; of the title exactly if only that differs and the screen is not locked. */
  function HintsDue(before: Option<Focus>, events: seq<RawEvent>): seq<Envelope> {
    if events == [] then []
    else
      var init, last := events[..|events| - 1], events[|events| - 1];
      HintsDue(before, init) + HintDue(LastFocus(before, init), last)
  }

  function HintDue(before: Option<Focus>, e: RawEvent): seq<Envelope> {
    if !e.WindowFocusChange? then []
    else
      var f := e.focusInfo;
      if before.None? || before.value.pid != f.pid || before.value.processStartTime != f.processStartTime
         || before.value.appName != f.appName || before.value.windowId != f.windowId then
        [Envelope(e.eventId, e.timestamp, Hook, Hint(FocusChanged), FocusData(f), false, false, false)]
      else if before.value.windowTitle != f.windowTitle && !IsLoginWindow(before.value.appName) then
        [Envelope(e.eventId, e.timestamp, Polling, Hint(TitleChanged), Title(f.windowId, f.windowTitle),
                  false, true, false)]
      else []
  }

  lemma {:induction false} HintTold(before: Option<Focus>, e: RawEvent)
    ensures FlatMap(HintOnly, Told(before, e)) == HintDue(before, e)
  {
    hide FlatMap;
    var told := Told(before, e);
    if told == [] {
      FlatMapNone(HintOnly);
    } else if |told| == 1 {
      assert told == [told[0]];
      FlatMapOne(HintOnly, told[0]);
    } else if |told| == 2 {
      assert told == [told[0]] + [told[1]];
      FlatMapOne(HintOnly, told[0]);
      FlatMapAppend(HintOnly, [told[0]], told[1]);
    } else if |told| == 3 {
      assert told == [told[0]] + [told[1]] + [told[2]];
      FlatMapOne(HintOnly, told[0]);
      FlatMapAppend(HintOnly, [told[0]], told[1]);
      FlatMapAppend(HintOnly, [told[0]] + [told[1]], told[2]);
    } else {
      assert told == [told[0]] + [told[1]] + [told[2]] + [told[3]];
      FlatMapOne(HintOnly, told[0]);
      FlatMapAppend(HintOnly, [told[0]], told[1]);
      FlatMapAppend(HintOnly, [told[0]] + [told[1]], told[2]);
      FlatMapAppend(HintOnly, [told[0]] + [told[1]] + [told[2]], told[3]);
    }
  }

  /** The focus and title hints are exactly those due. */
  lemma {:induction false} HintsPass(before: Option<Focus>, events: seq<RawEvent>)
    ensures FlatMap(HintOnly, AllTold(before, events)) == HintsDue(before, events)
  {
    if events != [] {
      var init, e := events[..|events| - 1], events[|events| - 1];
      HintsPass(before, init);
      FlatMapConcat(HintOnly, AllTold(before, init), Told(LastFocus(before, init), e));
      HintTold(LastFocus(before, init), e);
    }
  }
}
