/** Which title the snapshot stage shows.  An update carries one focus and one title, so what comes between
    two updates is shown as if the last title had come after the last focus. */
module TitlesShown {
  import opened Wrappers
  import opened Events
  import opened Mealy
  import opened Seqs
  import opened StateEngine
  import opened PipelineTypes
  import opened EnvelopeStage
  import opened EventChain
  import opened RawToEnvelopes
  import opened Telling
  import opened SnapshotStage

  /** What an update has collected of some envelopes. */
  function Collected(envs: seq<Envelope>): SnapshotUpdate {
    if envs == [] then EMPTY_UPDATE else WithFocus(Collected(envs[..|envs| - 1]), envs[|envs| - 1])
  }

  /** The focus shown after the update, if `f0` was shown before it. */
  function Batched(f0: Option<Focus>, envs: seq<Envelope>): Option<Focus> {
    var u := Collected(envs);
    Retitle(if u.focus.Some? then u.focus else f0, u.focusTitle)
  }

  /** The focus after the same envelopes one by one. */
  function InOrder(f0: Option<Focus>, envs: seq<Envelope>): Option<Focus> {
    if envs == [] then f0
    else
      var before := InOrder(f0, envs[..|envs| - 1]);
      match envs[|envs| - 1].payload
      case FocusData(f) => Some(f)
      case Title(windowId, title) =>
        if before.Some? && before.value.windowId == windowId then Some(before.value.(windowTitle := title)) else before
      case _ => before
  }

  /** Every title is about the window in front. */
  predicate TitlesMatch(f0: Option<Focus>, envs: seq<Envelope>) {
    envs == []
    || (var init, last := envs[..|envs| - 1], envs[|envs| - 1];
        && TitlesMatch(f0, init)
        && (last.payload.Title? ==>
              InOrder(f0, init).Some? && InOrder(f0, init).value.windowId == last.payload.windowId))
  }

  function LastFocusIn(envs: seq<Envelope>): Option<Focus> {
    if envs == [] then None
    else
      var last := envs[|envs| - 1].payload;
      if last.FocusData? then Some(last.focus) else LastFocusIn(envs[..|envs| - 1])
  }

  function LastTitleIn(envs: seq<Envelope>): Option<(nat, string)> {
    if envs == [] then None
    else
      var last := envs[|envs| - 1].payload;
      if last.Title? then Some((last.windowId, last.title)) else LastTitleIn(envs[..|envs| - 1])
  }

  /** A focus comes after the last title. */
  predicate FocusComesLast(envs: seq<Envelope>) {
    envs != [] && (envs[|envs| - 1].payload.FocusData?
                   || (!envs[|envs| - 1].payload.Title? && FocusComesLast(envs[..|envs| - 1])))
  }

  lemma {:induction false} CollectedAre(envs: seq<Envelope>)
    ensures Collected(envs).focus == LastFocusIn(envs) && Collected(envs).focusTitle == LastTitleIn(envs)
    ensures FocusComesLast(envs) ==> LastFocusIn(envs).Some?
  {
    if envs != [] {
      CollectedAre(envs[..|envs| - 1]);
    }
  }

  lemma {:induction false} OrderedAre(f0: Option<Focus>, envs: seq<Envelope>)
    requires TitlesMatch(f0, envs)
    ensures var base := if LastFocusIn(envs).Some? then LastFocusIn(envs) else f0;
            InOrder(f0, envs) == if FocusComesLast(envs) then LastFocusIn(envs) else Retitle(base, LastTitleIn(envs))
    ensures !FocusComesLast(envs) && LastTitleIn(envs).Some? ==>
              InOrder(f0, envs).Some? && InOrder(f0, envs).value.windowId == LastTitleIn(envs).value.0
  {
    if envs != [] {
      OrderedAre(f0, envs[..|envs| - 1]);
      CollectedAre(envs[..|envs| - 1]);
    }
  }

  /** The title of the window in front before was collected before the focus now in front, whose window has the
      same identifier and another title. */
  predicate Stale(envs: seq<Envelope>) {
    var focus, title := LastFocusIn(envs), LastTitleIn(envs);
    && FocusComesLast(envs) && focus.Some? && title.Some?
    && focus.value.windowId == title.value.0 && focus.value.windowTitle != title.value.1
  }

  /** What is shown is the truth, exactly unless the title is stale; then it is the last focus, by another's title. */
  lemma {:induction false} ShownTitleIff(f0: Option<Focus>, envs: seq<Envelope>)
    requires TitlesMatch(f0, envs)
    ensures Batched(f0, envs) == InOrder(f0, envs) <==> !Stale(envs)
    ensures Stale(envs) ==>
              Batched(f0, envs) == Some(LastFocusIn(envs).value.(windowTitle := LastTitleIn(envs).value.1))
  {
    CollectedAre(envs);
    OrderedAre(f0, envs);
  }

  lemma {:induction false} InOrderPlace(f0: Option<Focus>, envs: seq<Envelope>)
    ensures PlaceOf(InOrder(f0, envs)) == Fold(PlaceIn, PlaceOf(f0), envs)
  {
    if envs != [] {
      InOrderPlace(f0, envs[..|envs| - 1]);
    }
  }

  lemma {:induction false} MatchConcat(f0: Option<Focus>, xs: seq<Envelope>, ys: seq<Envelope>)
    requires TitlesMatch(f0, xs) && TitlesMatch(InOrder(f0, xs), ys)
    ensures TitlesMatch(f0, xs + ys) && InOrder(f0, xs + ys) == InOrder(InOrder(f0, xs), ys)
    decreases |ys|
  {
    if ys == [] {
      assert xs + ys == xs;
    } else {
      MatchConcat(f0, xs, ys[..|ys| - 1]);
      assert (xs + ys)[..|xs + ys| - 1] == xs + ys[..|ys| - 1];
    }
  }

  lemma {:induction false} NoTitles(f: Option<Focus>, envs: seq<Envelope>)
    requires forall i :: 0 <= i < |envs| ==> !envs[i].payload.Title?
    ensures TitlesMatch(f, envs)
  {
    if envs != [] {
      NoTitles(f, envs[..|envs| - 1]);
    }
  }

  lemma {:induction false} EventMatches(f: Option<Focus>, before: Option<Focus>, e: RawEvent)
    requires PlaceOf(f) == PlaceOf(before)
    ensures TitlesMatch(f, Told(before, e))
  {
    var told := Told(before, e);
    if |told| == 1 && told[0].payload.Title? {
      assert told[..|told| - 1] == [];
      assert InOrder(f, []) == f;
    } else {
      NoTitles(f, told);
    }
  }

  /** The envelopes of raw events are such: each title is about the window in front. */
  lemma {:induction false} ToldTitlesMatch(f0: Option<Focus>, before: Option<Focus>, events: seq<RawEvent>)
    requires PlaceOf(f0) == PlaceOf(before)
    ensures TitlesMatch(f0, AllTold(before, events))
  {
    if events != [] {
      var init, e := events[..|events| - 1], events[|events| - 1];
      ToldTitlesMatch(f0, before, init);
      InOrderPlace(f0, AllTold(before, init));
      PlaceOfAll(before, init);
      EventMatches(InOrder(f0, AllTold(before, init)), LastFocus(before, init), e);
      MatchConcat(f0, AllTold(before, init), Told(LastFocus(before, init), e));
    }
  }

  /** A batch in which the state does not move is one update. */
  lemma {:induction false} UpdateCollects(w: Work, envs: seq<Envelope>)
    requires w.update == EMPTY_UPDATE && Stateless(envs)
    ensures var (w', sends) := Run(EnvelopeStep, w, envs);
            FlatMap(TransitionTold, sends) == [] ==>
              w'.update.focus == Collected(envs).focus && w'.update.focusTitle == Collected(envs).focusTitle
    ensures Run(EnvelopeStep, w, envs).0.update.transition.None?
  {
    hide EnvelopeStep, FlatMap, TransitionTold;
    if envs != [] {
      var init, env := envs[..|envs| - 1], envs[|envs| - 1];
      UpdateCollects(w, init);
      var (mid, sends) := Run(EnvelopeStep, w, init);
      var (w', more) := EnvelopeStep(mid, env);
      assert Run(EnvelopeStep, w, envs) == (w', sends + more);
      FlatMapConcat(TransitionTold, sends, more);
      StepCollects(mid, env);
    }
  }

  lemma {:induction false} StepCollects(w: Work, env: Envelope)
    requires w.update.transition.None? && !env.payload.State?
    ensures var (w', more) := EnvelopeStep(w, env);
            && w'.update.transition.None?
            && (FlatMap(TransitionTold, more) == [] ==>
                  && w'.update.focus == WithFocus(w.update, env).focus
                  && w'.update.focusTitle == WithFocus(w.update, env).focusTitle)
  {
    var more := EnvelopeStep(w, env).1;
    if env.kind.Signal? {
      var kind := env.kind.signal;
      var change := SignalStep(w.engine, env.kind, env.timestamp).1;
      if change != [] {
        var (u, first) := ForwardSignal(w.update, env, kind);
        var hint := StateHint(env.id, env.timestamp, change[0]);
        var rest := ForwardHint(u, hint, Some(kind)).1;
        assert more == [first[0]] + [rest[0]] + [rest[1]];
        FlatMapAppend(TransitionTold, [first[0]] + [rest[0]], rest[1]);
      }
    }
  }

  /** It does happen: a window with the common identifier 0 is renamed, and another application comes to the
      front before the update is sent. */
  lemma {:induction false} TitleOfAnotherApp(at: Time)
    ensures var a, b, c := Focus(1, 1, "editor", "one", 0, at), Focus(1, 1, "editor", "two", 0, at),
                           Focus(2, 1, "mail", "inbox", 0, at);
            var envs := AllTold(Some(a), [WindowFocusChange(at, 0, b), WindowFocusChange(at, 1, c)]);
            Batched(Some(a), envs) == Some(c.(windowTitle := "two")) && InOrder(Some(a), envs) == Some(c)
  {
    hide Collected, InOrder, AllTold, LastFocus;
    var a, b, c := Focus(1, 1, "editor", "one", 0, at), Focus(1, 1, "editor", "two", 0, at),
                   Focus(2, 1, "mail", "inbox", 0, at);
    var first, second := WindowFocusChange(at, 0, b), WindowFocusChange(at, 1, c);
    ToldOfTwo(Some(a), first, second);
    var title, focus := Told(Some(a), first), Told(Some(b), second);
    assert title + focus == [title[0]] + [focus[0]] + [focus[1]] + [focus[2]];
    Four(Some(a), title[0], focus[0], focus[1], focus[2]);
  }

  lemma {:induction false} ToldOfTwo(before: Option<Focus>, first: RawEvent, second: RawEvent)
    ensures AllTold(before, [first, second]) == Told(before, first) + Told(LastFocus(before, [first]), second)
    ensures LastFocus(before, [first]) == if first.WindowFocusChange? then Some(first.focusInfo) else before
  {
    hide Told;
    assert [first, second][..1] == [first] && [first][..0] == [];
    assert AllTold(before, [first]) == [] + Told(before, first) == Told(before, first);
  }

  lemma {:induction false} Four(f0: Option<Focus>, x: Envelope, y: Envelope, z: Envelope, t: Envelope)
    ensures Collected([x] + [y] + [z] + [t]) == WithFocus(WithFocus(WithFocus(WithFocus(EMPTY_UPDATE, x), y), z), t)
    ensures z.payload.FocusData? && t.payload == NoPayload ==>
              InOrder(f0, [x] + [y] + [z] + [t]) == Some(z.payload.focus)
  {
    assert [x][..0] == [] && ([x] + [y])[..1] == [x] && ([x] + [y] + [z])[..2] == [x] + [y]
           && ([x] + [y] + [z] + [t])[..3] == [x] + [y] + [z];
    assert Collected([x]) == WithFocus(EMPTY_UPDATE, x);
    assert Collected([x] + [y]) == WithFocus(Collected([x]), y);
    assert Collected([x] + [y] + [z]) == WithFocus(Collected([x] + [y]), z);
  }
}
