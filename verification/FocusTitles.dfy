/** Which app a window title may be attributed to: the decisions of the focus worker on its two
    title caches, and what they mean for the log of focus changes it reports. */
module FocusTitles {
  import opened Wrappers
  import opened Events
  import opened LruCache
  import opened SetSums

  const UNKNOWN_WINDOW_TITLE: string := "-"
  const LOGIN_TITLE: string := "Login"
  const WEAK_TTL: nat := 2_000_000_000

  datatype WindowTitle = WindowTitle(text: string, windowId: nat)

  type Entries = map<string, Stamped<WindowTitle>>

  /** No title, or the stand-in for one. */
  predicate IsPlaceholder(title: string) {
    title == "" || title == UNKNOWN_WINDOW_TITLE
  }

  /** The titles a cache holds, apart from when they were last used. */
  function TitlesOf(entries: Entries): map<string, string> {
    map app | app in entries :: entries[app].value.text
  }

  // ---------- Looking a title up ----------

  /** The strong cache keeps its titles until they are pushed out; time does not matter. */
  predicate Knows(titles: map<string, string>, app: string, title: string) {
    app in titles && titles[app] == title
  }

  predicate KnowsElsewhere(titles: map<string, string>, app: string, title: string) {
    exists other :: other in titles && other != app && Knows(titles, other, title)
  }

  /** At time `t` the weak cache still has this title for this app. */
  predicate Names(weak: Entries, app: string, title: string, t: Time) {
    Live(weak, Some(WEAK_TTL), app, t) && weak[app].value.text == title
  }

  predicate NamesElsewhere(weak: Entries, app: string, title: string, t: Time) {
    exists other :: other in weak && other != app && Names(weak, other, title, t)
  }

  function Validated(app: string, title: string, strong: map<string, string>, weak: Entries, t: Time): string {
    if IsPlaceholder(title) || Knows(strong, app, title) then title
    else if KnowsElsewhere(strong, app, title) || NamesElsewhere(weak, app, title, t) then UNKNOWN_WINDOW_TITLE
    else title
  }

  datatype Source = Pending | Cached

  datatype Decision = Accept(value: string, source: Source) | Hold(value: string)

  /** The three readings of the clock that matter to a decision. */
  datatype Readings = Readings(previous: Time, others: Time, own: Time)

  function Reconciled(app: string, pending: string, previous: Option<string>, strong: map<string, string>,
                      weak: Entries, r: Readings): Decision {
    if IsLoginWindow(app) && pending == LOGIN_TITLE then Accept(pending, Pending)
    else if previous.Some?
            && (Knows(strong, previous.value, pending) || Names(weak, previous.value, pending, r.previous))
    then Accept(UNKNOWN_WINDOW_TITLE, Cached)
    else if Knows(strong, app, pending) then Accept(pending, Pending)
    else if KnowsElsewhere(strong, app, pending) || NamesElsewhere(weak, app, pending, r.others)
    then Accept(UNKNOWN_WINDOW_TITLE, Cached)
    else if Names(weak, app, pending, r.own) then Accept(pending, Pending)
    else Hold(pending)
  }

  /** Looking up an app in vain does not change whom the cache names later. */
  lemma {:induction false} LookupInVain(weak: Entries, previous: string, title: string, t: Time, later: Time)
    requires !Names(weak, previous, title, t) && t <= later
    ensures forall app :: Names(AfterLookup(weak, Some(WEAK_TTL), previous, t), app, title, later)
                          <==> Names(weak, app, title, later)
  {
  }

  function Purged(weak: Entries, t: Time): Entries {
    map app | app in weak && Live(weak, Some(WEAK_TTL), app, t) :: weak[app]
  }

  lemma {:induction false} PurgedNames(weak: Entries, title: string, t: Time, later: Time)
    requires t <= later
    ensures forall app :: Names(Purged(weak, t), app, title, later) <==> Names(weak, app, title, later)
  {
  }

  /** A title is remembered weakly for its app, unless there is none to remember. */
  ghost predicate Recorded(weak: Entries, app: string, title: string, id: nat, at: Time, capacity: nat,
                           after: Entries) {
    if app != "" && !IsPlaceholder(title)
    then Evicted(weak[app := Stamped(WindowTitle(title, id), at)], capacity, after) else after == weak
  }

  /** A title taken over from the system is remembered weakly first, and then kept, or replaced by the
      placeholder because some other app is known by it. */
  ghost predicate Vetted(app: string, title: string, id: nat, adopted: string, strong: map<string, string>,
                         weak: Entries, capacity: nat, t: Time) {
    exists at: Time, after: Entries :: Recorded(weak, app, title, id, at, capacity, after) && at <= t
                                       && adopted == Validated(app, title, strong, after, t)
  }

  predicate NoOtherHas(weak: Entries, app: string, title: string) {
    forall other :: other in weak && other != app ==> weak[other].value.text != title
  }

  /** The app is remembered with the title, or no other app is left with it in either cache. */
  ghost predicate NobodyElses(app: string, title: string, strong: map<string, string>, weak: Entries) {
    IsPlaceholder(title)
    || (app in strong && strong[app] == title)
    || ((forall other :: other in strong && other != app ==> strong[other] != title) && NoOtherHas(weak, app, title))
  }

  /** What is shown for a title of the system's: the title itself only if it is nobody else's; and the
      placeholder only if the app is not remembered with it, and some other app is in one of the caches. */
  ghost predicate Justified(app: string, title: string, shown: string, strong: map<string, string>, before: Entries,
                            after: Entries, t: Time) {
    && shown in {title, UNKNOWN_WINDOW_TITLE}
    && (IsPlaceholder(title) ==> shown == title)
    && NobodyElses(app, shown, strong, after)
    && (shown != title ==>
          && !(app in strong && strong[app] == title)
          && ((exists other :: other in strong && other != app && strong[other] == title)
              || (exists other :: other in before && other != app && before[other].value.text == title
                                  && t - before[other].at <= WEAK_TTL)))
  }

  /** The same, at some reading of the clock between two times. */
  ghost predicate Fair(app: string, title: string, shown: string, strong: map<string, string>, before: Entries,
                       after: Entries, from: Time, to: Time) {
    exists t: Time :: from <= t <= to && Justified(app, title, shown, strong, before, after, t)
  }

  /** Nothing is known against the title, and it is not remembered for the app. */
  predicate Unclaimed(app: string, title: string, strong: map<string, string>, weak: Entries, t: Time) {
    && !IsPlaceholder(title) && !Knows(strong, app, title) && !KnowsElsewhere(strong, app, title)
    && !NamesElsewhere(weak, app, title, t)
  }

  lemma {:induction false} ValidatedIsJustified(app: string, title: string, id: nat, strong: map<string, string>,
                                                before: Entries, recorded: Entries, capacity: nat, at: Time,
                                                after: Entries, t: Time)
    requires Recorded(before, app, title, id, at, capacity, recorded)
    requires Unclaimed(app, title, strong, recorded, t) ==> NoOtherHas(after, app, title)
    ensures Justified(app, title, Validated(app, title, strong, recorded, t), strong, before, after, t)
  {
    if IsPlaceholder(title) || Knows(strong, app, title) {
    } else if KnowsElsewhere(strong, app, title) {
      var other :| other in strong && other != app && Knows(strong, other, title);
    } else if NamesElsewhere(recorded, app, title, t) {
      var other :| other in recorded && other != app && Names(recorded, other, title, t);
      assert before[other] == recorded[other];
    } else {
      NotKnownElsewhere(app, title, strong);
      forall other | other in strong && other != app
        ensures strong[other] != title
      {
        assert !Knows(strong, other, title);
      }
    }
  }

  /** What is left after the expired entries are gone, when no live entry of another app has the title. */
  lemma {:induction false} PurgedNamesNoOther(weak: Entries, app: string, title: string, t: Time)
    requires !NamesElsewhere(weak, app, title, t)
    ensures NoOtherHas(Purged(weak, t), app, title)
  {
    forall other | other in Purged(weak, t) && other != app
      ensures weak[other].value.text != title
    {
      assert !Names(weak, other, title, t);
    }
  }

  /** A title that no other app has in either cache is taken as it is: when reconciling has left a title
      open, the validation that follows never replaces it. */
  lemma {:induction false} HeldIsKept(app: string, title: string, id: nat, adopted: string, strong: map<string, string>,
                                      weak: Entries, capacity: nat, t: Time)
    requires Vetted(app, title, id, adopted, strong, weak, capacity, t)
    requires !KnowsElsewhere(strong, app, title) && NoOtherHas(weak, app, title)
    ensures adopted == title
  {
    var at: Time, after: Entries :| Recorded(weak, app, title, id, at, capacity, after) && at <= t
                                    && adopted == Validated(app, title, strong, after, t);
    assert NoOtherHas(after, app, title);
  }

  // ---------- Attribution ----------

  /** The one shortcut: the login window may say "Login" whoever else does. */
  predicate Excused(title: string, a: string, b: string) {
    title == LOGIN_TITLE && (IsLoginWindow(a) || IsLoginWindow(b))
  }

  /** No two apps are remembered with the same title. */
  predicate Unshared(titles: map<string, string>) {
    forall a, b :: a in titles && b in titles && a != b && titles[a] == titles[b] ==> Excused(titles[a], a, b)
  }

  /** No other app is remembered with this title. */
  predicate Owns(app: string, title: string, titles: map<string, string>) {
    !IsPlaceholder(title) ==>
      forall b :: b in titles && b != app && titles[b] == title ==> Excused(title, app, b)
  }

  lemma {:induction false} NotKnownElsewhere(app: string, title: string, titles: map<string, string>)
    requires !KnowsElsewhere(titles, app, title)
    ensures Owns(app, title, titles)
  {
    forall b | b in titles && b != app && titles[b] == title
      ensures false
    {
      assert Knows(titles, b, title);
    }
  }

  lemma {:induction false} ValidatedIsOwned(app: string, title: string, strong: map<string, string>, weak: Entries,
                                            t: Time)
    requires Unshared(strong)
    ensures Owns(app, Validated(app, title, strong, weak, t), strong)
  {
    if !KnowsElsewhere(strong, app, title) {
      NotKnownElsewhere(app, title, strong);
    }
  }

  lemma {:induction false} ReconciledIsOwned(app: string, pending: string, previous: Option<string>,
                                             strong: map<string, string>, weak: Entries, r: Readings)
    requires Unshared(strong)
    ensures Owns(app, Reconciled(app, pending, previous, strong, weak, r).value, strong)
  {
    if !KnowsElsewhere(strong, app, pending) {
      NotKnownElsewhere(app, pending, strong);
    }
  }

  /** The previous app is known by the pending title. */
  predicate PreviousMatches(previous: Option<string>, pending: string, strong: map<string, string>, weak: Entries,
                            t: Time) {
    previous.Some? && (Knows(strong, previous.value, pending) || Names(weak, previous.value, pending, t))
  }

  /** An answer is left open exactly if no cache knows the title, for the app before, for this one or any other;
      and the title is taken back exactly if the app before is known by it, or another one is, and this one
      is not remembered with it. */
  lemma {:induction false} OpenExactly(app: string, pending: string, previous: Option<string>,
                                       strong: map<string, string>, weak: Entries, r: Readings)
    requires !IsPlaceholder(pending)
    ensures var login := IsLoginWindow(app) && pending == LOGIN_TITLE;
            var before := PreviousMatches(previous, pending, strong, weak, r.previous);
            var others := KnowsElsewhere(strong, app, pending) || NamesElsewhere(weak, app, pending, r.others);
            var decision := Reconciled(app, pending, previous, strong, weak, r);
            && decision.value in {pending, UNKNOWN_WINDOW_TITLE}
            && (decision.value == UNKNOWN_WINDOW_TITLE
                <==> !login && (before || (others && !Knows(strong, app, pending))))
            && (decision.Hold? <==> !login && !before && !others && !Knows(strong, app, pending)
                                    && !Names(weak, app, pending, r.own))
  {
  }

  /** When is the answer a title that another app is remembered with?  Exactly when another app is
      remembered with the pending title and either the login shortcut applies, or the app is remembered
      with it as well and the previous app does not match. */
  lemma {:induction false} SharedExactly(app: string, pending: string, previous: Option<string>,
                                         strong: map<string, string>, weak: Entries, r: Readings)
    requires !IsPlaceholder(pending)
    ensures var answer := Reconciled(app, pending, previous, strong, weak, r).value;
            (!IsPlaceholder(answer) && KnowsElsewhere(strong, app, answer))
            <==> && KnowsElsewhere(strong, app, pending)
                 && (|| (IsLoginWindow(app) && pending == LOGIN_TITLE)
                     || (Knows(strong, app, pending) && !PreviousMatches(previous, pending, strong, weak, r.previous)))
  {
  }

  /** So the sharing begins with the shortcut: an app that calls its window "Login", and the login window. */
  lemma {:induction false} ShortcutSharesATitle(t: Time)
    ensures var strong := map["browser" := "Login"];
            var d := Reconciled("loginwindow", "Login", Some("browser"), strong, map[], Readings(t, t, t));
            d == Accept("Login", Pending) && KnowsElsewhere(strong, "loginwindow", d.value)
  {
    assert Knows(map["browser" := "Login"], "browser", "Login");
  }

  /** And then goes on without it: both are remembered with the title now. */
  lemma {:induction false} SharedTitleStays(t: Time)
    ensures var strong := map["browser" := "Login", "loginwindow" := "Login"];
            var d := Reconciled("browser", "Login", Some("editor"), strong, map[], Readings(t, t, t));
            d == Accept("Login", Pending) && KnowsElsewhere(strong, "browser", d.value) && !IsLoginWindow("browser")
  {
    var strong := map["browser" := "Login", "loginwindow" := "Login"];
    assert Knows(strong, "loginwindow", "Login") && Knows(strong, "browser", "Login");
  }

  /** When an app change flushes a pending title, the previous app is the title's own app: the title
      survives exactly if it is the login window's, or no cache knows it, for this app or another. */
  lemma {:induction false} FlushKeepsOnlyUnknownTitles(app: string, pending: string, strong: map<string, string>,
                                                       weak: Entries, r: Readings)
    requires !IsPlaceholder(pending)
    ensures Reconciled(app, pending, Some(app), strong, weak, r).value == pending
       <==> || (IsLoginWindow(app) && pending == LOGIN_TITLE)
            || (&& !Knows(strong, app, pending) && !Names(weak, app, pending, r.previous)
                && !KnowsElsewhere(strong, app, pending) && !NamesElsewhere(weak, app, pending, r.others))
  {
  }

  /** The title has been remembered weakly for the app by the time `t`, as the last thing the cache did. */
  ghost predicate JustRecorded(app: string, title: string, id: nat, capacity: nat, weak: Entries, t: Time) {
    exists before: Entries, at: Time :: Recorded(before, app, title, id, at, capacity, weak) && at <= t
  }

  /** Whatever the cache has for the app is the title held back for it. */
  predicate Keeps(weak: Entries, app: string, pending: string) {
    app != "" && !IsPlaceholder(pending) && app in weak ==> weak[app].value.text == pending
  }

  lemma {:induction false} JustRecordedIsKept(app: string, title: string, id: nat, capacity: nat, weak: Entries,
                                              t: Time)
    requires JustRecorded(app, title, id, capacity, weak, t)
    ensures Keeps(weak, app, title)
  {
  }

  /** A title held back for an app survives leaving the app: the login shortcut applies, or the cache has
      lost it, or has kept it for longer than its time to live, and no other app is known by it. */
  predicate Survives(app: string, pending: string, strong: map<string, string>, weak: Entries, r: Readings) {
    || (IsLoginWindow(app) && pending == LOGIN_TITLE)
    || (&& (app in weak ==> r.previous - weak[app].at > WEAK_TTL) && !Knows(strong, app, pending)
        && !KnowsElsewhere(strong, app, pending) && !NamesElsewhere(weak, app, pending, r.others))
  }

  lemma {:induction false} HeldTitleIsFlushed(app: string, pending: string, strong: map<string, string>, weak: Entries,
                                              r: Readings)
    requires Keeps(weak, app, pending) && app != "" && !IsPlaceholder(pending)
    ensures Reconciled(app, pending, Some(app), strong, weak, r).value
         == if Survives(app, pending, strong, weak, r) then pending else UNKNOWN_WINDOW_TITLE
  {
    FlushKeepsOnlyUnknownTitles(app, pending, strong, weak, r);
  }

  // ---------- The log of reported focus changes ----------

  /** A consolidated report carries the worker's state; a synthesized one stands for the lock screen. */
  datatype Emission = Emission(focus: Focus, synthesized: bool) {
    predicate Telling() { !synthesized && focus.windowTitle != UNKNOWN_WINDOW_TITLE }
  }

  /** The title an app was last reported with. */
  function LastTitle(log: seq<Emission>, app: string): Option<string> {
    if log == [] then None
    else
      var e := log[|log| - 1];
      if e.Telling() && e.focus.appName == app then Some(e.focus.windowTitle) else LastTitle(log[..|log| - 1], app)
  }

  /** The apps reported with a title. */
  function NamedApps(log: seq<Emission>): set<string> {
    if log == [] then {}
    else
      var e := log[|log| - 1];
      NamedApps(log[..|log| - 1]) + if e.Telling() then {e.focus.appName} else {}
  }

  /** What is remembered is what was last reported, and of every app if they all fit. */
  ghost predicate Faithful(log: seq<Emission>, titles: map<string, string>, capacity: nat) {
    && (forall app :: app in titles ==> LastTitle(log, app) == Some(titles[app]))
    && (|NamedApps(log)| <= capacity ==> titles.Keys == NamedApps(log))
  }

  /** Every report was, when made, about an app that owns its title; `audit` has the titles remembered then. */
  ghost predicate SafeLog(log: seq<Emission>, audit: seq<map<string, string>>, capacity: nat) {
    if log == [] then audit == []
    else
      var n := |log| - 1;
      && |audit| == |log| && SafeLog(log[..n], audit[..n], capacity)
      && Owns(log[n].focus.appName, log[n].focus.windowTitle, audit[n]) && Faithful(log[..n], audit[n], capacity)
  }

  lemma {:induction false} LogAppend(log: seq<Emission>, e: Emission)
    ensures (log + [e])[..|log|] == log
    ensures NamedApps(log + [e]) == NamedApps(log) + if e.Telling() then {e.focus.appName} else {}
    ensures forall app ::
              LastTitle(log + [e], app)
              == if e.Telling() && e.focus.appName == app then Some(e.focus.windowTitle) else LastTitle(log, app)
  {
    assert (log + [e])[..|log|] == log;
  }

  lemma {:induction false} SafeLogAppend(log: seq<Emission>, audit: seq<map<string, string>>, capacity: nat,
                                         e: Emission, titles: map<string, string>)
    requires SafeLog(log, audit, capacity) && Faithful(log, titles, capacity)
    requires Owns(e.focus.appName, e.focus.windowTitle, titles)
    ensures SafeLog(log + [e], audit + [titles], capacity)
  {
    assert (log + [e])[..|log|] == log && (audit + [titles])[..|log|] == audit;
  }

  lemma {:induction false} SafeLogAt(log: seq<Emission>, audit: seq<map<string, string>>, capacity: nat, i: nat)
    requires SafeLog(log, audit, capacity) && i < |log|
    ensures |audit| == |log| && Owns(log[i].focus.appName, log[i].focus.windowTitle, audit[i])
            && Faithful(log[..i], audit[i], capacity)
    decreases |log|
  {
    var n := |log| - 1;
    if i < n {
      SafeLogAt(log[..n], audit[..n], capacity, i);
      assert log[..n][..i] == log[..i];
    }
  }

  /** Part of what is known after remembering `title` for `app`: all of it if it fits. */
  ghost predicate Remembers(titles: map<string, string>, app: string, title: string, capacity: nat,
                            after: map<string, string>) {
    && (forall a :: a in after ==> a in titles[app := title] && after[a] == titles[app := title][a])
    && (|titles[app := title]| <= capacity ==> after == titles[app := title])
  }

  lemma {:induction false} PutRemembers(before: Entries, app: string, value: Stamped<WindowTitle>, capacity: nat,
                                        after: Entries)
    requires Evicted(before[app := value], capacity, after)
    ensures Remembers(TitlesOf(before), app, value.value.text, capacity, TitlesOf(after))
  {
    var put := before[app := value];
    var titles := TitlesOf(before)[app := value.value.text];
    assert TitlesOf(put) == titles;
    assert titles.Keys == put.Keys && |titles.Keys| == |titles| && |put.Keys| == |put|;
  }

  lemma {:induction false} RememberedUnshared(titles: map<string, string>, app: string, title: string, capacity: nat,
                                              after: map<string, string>)
    requires Unshared(titles) && Owns(app, title, titles) && !IsPlaceholder(title)
    requires Remembers(titles, app, title, capacity, after)
    ensures Unshared(after) && Owns(app, title, after)
  {
  }

  /** Remembering a report's title, and losing at most one other, stays faithful to the reports. */
  lemma {:induction false} RememberedFaithful(log: seq<Emission>, e: Emission, titles: map<string, string>,
                                              capacity: nat, after: map<string, string>)
    requires Faithful(log, titles, capacity) && e.Telling()
    requires Remembers(titles, e.focus.appName, e.focus.windowTitle, capacity, after)
    ensures Faithful(log + [e], after, capacity)
  {
    LogAppend(log, e);
    if |NamedApps(log + [e])| <= capacity {
      SubsetSize(NamedApps(log), NamedApps(log + [e]));
      var put := titles[e.focus.appName := e.focus.windowTitle];
      assert put.Keys == NamedApps(log + [e]);
      assert |put.Keys| == |put|;
    }
  }

  /** No remembered title is shared, the current one is the current app's own, and so was every
      title ever reported. */
  ghost predicate Attribution(app: string, title: string, log: seq<Emission>, audit: seq<map<string, string>>,
                              titles: map<string, string>, capacity: nat)
  {
    && Unshared(titles) && Owns(app, title, titles)
    && Faithful(log, titles, capacity) && SafeLog(log, audit, capacity)
  }

  lemma {:induction false} ReportKept(e: Emission, log: seq<Emission>, audit: seq<map<string, string>>, before: Entries,
                                      capacity: nat, value: Stamped<WindowTitle>, after: Entries)
    requires Attribution(e.focus.appName, e.focus.windowTitle, log, audit, TitlesOf(before), capacity)
    requires e.Telling() ==> !IsPlaceholder(e.focus.windowTitle) && value.value.text == e.focus.windowTitle
                             && Evicted(before[e.focus.appName := value], capacity, after)
    requires !e.Telling() ==> after == before
    ensures Attribution(e.focus.appName, e.focus.windowTitle, log + [e], audit + [TitlesOf(before)], TitlesOf(after),
                        capacity)
  {
    var app, title, titles := e.focus.appName, e.focus.windowTitle, TitlesOf(before);
    SafeLogAppend(log, audit, capacity, e, titles);
    if e.Telling() {
      PutRemembers(before, app, value, capacity, after);
      RememberedUnshared(titles, app, title, capacity, TitlesOf(after));
      RememberedFaithful(log, e, titles, capacity, TitlesOf(after));
    } else {
      LogAppend(log, e);
    }
  }

  lemma {:induction false} NamedMonotone(log: seq<Emission>, i: nat)
    requires i <= |log|
    ensures NamedApps(log[..i]) <= NamedApps(log)
    decreases |log|
  {
    if i == |log| {
      assert log[..i] == log;
    } else {
      assert log[..|log| - 1][..i] == log[..i];
      NamedMonotone(log[..|log| - 1], i);
    }
  }

  lemma {:induction false} ReportedIsNamed(log: seq<Emission>, app: string)
    ensures LastTitle(log, app).Some? <==> app in NamedApps(log)
  {
    if log != [] {
      ReportedIsNamed(log[..|log| - 1], app);
    }
  }

  /** Title attribution: no report gives an app the title that another app was last reported with, as long
      as the cache still remembered that app, and it does if the apps reported with a title fit it. */
  lemma {:induction false} NoMisattribution(log: seq<Emission>, audit: seq<map<string, string>>, capacity: nat, i: nat,
                                            other: string)
    requires SafeLog(log, audit, capacity) && i < |log|
    requires other != log[i].focus.appName && !IsPlaceholder(log[i].focus.windowTitle)
    ensures |audit| == |log|
    ensures |NamedApps(log[..i])| <= capacity ==> audit[i].Keys == NamedApps(log[..i])
    ensures other in audit[i] || |NamedApps(log)| <= capacity ==>
              LastTitle(log[..i], other) == Some(log[i].focus.windowTitle) ==>
                Excused(log[i].focus.windowTitle, log[i].focus.appName, other)
  {
    SafeLogAt(log, audit, capacity, i);
    NamedMonotone(log, i);
    SubsetSize(NamedApps(log[..i]), NamedApps(log));
    ReportedIsNamed(log[..i], other);
  }
}
