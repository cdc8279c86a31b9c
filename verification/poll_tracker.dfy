/** When repositories are polled: poll_tracker.go, with the checks that poller.go and the service start. */
module PollTracker {
  import opened Text

  /** Nanoseconds; 0 is Go's zero time. */
  type Time = nat

  const SECOND: nat := 1_000_000_000
  const DEFAULT_INTERVAL: nat := 300 * SECOND
  const DEFAULT_CONFIG_PATH := "aolda_deploy.json"

  datatype PollResult = Pending | Success | Failure

  datatype App = App(id: string, repositoryUrl: string, repositoryId: string, configPath: string, pollIntervalSeconds: int)

  datatype Status = Status(
    intervalSeconds: nat, lastCheckedAt: Option<Time>, lastSucceededAt: Option<Time>, nextScheduledAt: Option<Time>,
    lastResult: Option<PollResult>, lastError: string, source: string)

  /** The zero value that a lookup of an unknown application yields. */
  const BLANK := Status(0, None, None, None, None, "", "")

  predicate HasSource(app: App) {
    TrimSpace(app.repositoryUrl) != "" || TrimSpace(app.repositoryId) != ""
  }

  function PollSource(configFile: string, app: App): string {
    if TrimSpace(configFile) != "" then TrimSpace(configFile)
    else if TrimSpace(app.configPath) != "" then TrimSpace(app.configPath)
    else DEFAULT_CONFIG_PATH
  }

  function TimeOrNone(t: Time): Option<Time> {
    if t == 0 then None else Some(t)
  }

  /** repositoryPollIntervalForApp: the application's own interval if it is an allowed one. */
  function IntervalFor(app: App, fallback: nat): (interval: nat)
    ensures interval > 0
  {
    if app.pollIntervalSeconds in {60, 300, 600} then app.pollIntervalSeconds * SECOND
    else if fallback == 0 then DEFAULT_INTERVAL
    else fallback
  }

  datatype Tracker = Tracker(interval: nat, startedAt: Time, nextCycleAt: Time, items: map<string, Status>)

  // ---------------------------------------------------------------- specification

  function ItemOf(t: Tracker, id: string): Status {
    if id in t.items then t.items[id] else BLANK
  }

  function WithItem(t: Tracker, id: string, status: Status): Tracker {
    t.(items := t.items[id := status])
  }

  /** What the three marks have in common: the check's time, and the next one an interval later. */
  function Marked(t: Tracker, app: App, configFile: string, checkedAt: Time, result: PollResult): Status {
    var interval := IntervalFor(app, t.interval);
    ItemOf(t, app.id).(intervalSeconds := interval / SECOND, lastCheckedAt := TimeOrNone(checkedAt),
                       nextScheduledAt := TimeOrNone(checkedAt + interval), lastResult := Some(result),
                       source := PollSource(configFile, app))
  }

  function Attempted(t: Tracker, app: App, configFile: string, checkedAt: Time): Tracker {
    if !HasSource(app) then t
    else WithItem(t, app.id, Marked(t, app, configFile, checkedAt, Pending).(lastError := ""))
  }

  function Succeeded(t: Tracker, app: App, configFile: string, checkedAt: Time): Tracker {
    if !HasSource(app) then t
    else WithItem(t, app.id, Marked(t, app, configFile, checkedAt, Success).(lastError := "", lastSucceededAt := TimeOrNone(checkedAt)))
  }

  function FailedWith(t: Tracker, app: App, configFile: string, checkedAt: Time, error: string): Tracker {
    if !HasSource(app) then t
    else WithItem(t, app.id, Marked(t, app, configFile, checkedAt, Failure).(lastError := error))
  }

  function Rescheduled(t: Tracker, app: App, from: Time): Tracker {
    if !HasSource(app) then t
    else
      var interval := IntervalFor(app, t.interval);
      var current := ItemOf(t, app.id);
      WithItem(t, app.id, current.(intervalSeconds := interval / SECOND, nextScheduledAt := TimeOrNone(from + interval),
                                   source := if current.source == "" then PollSource("", app) else current.source))
  }

  /** The moment from which an application is due. */
  function DueTime(t: Tracker, app: App): Time {
    var last := ItemOf(t, app.id).lastCheckedAt;
    (if last.None? || last.value == 0 then t.startedAt else last.value) + IntervalFor(app, t.interval)
  }

  predicate IsDue(t: Tracker, app: App, now: Time) {
    HasSource(app) && DueTime(t, app) <= now
  }

  /** The status as Snapshot shows it: the stored one with its gaps filled, or a pending first check. */
  function Shown(t: Tracker, app: App): Status {
    var interval := IntervalFor(app, t.interval);
    if app.id in t.items then
      var stored := t.items[app.id];
      stored.(intervalSeconds := if stored.intervalSeconds == 0 then interval / SECOND else stored.intervalSeconds,
              source := if stored.source == "" then PollSource("", app) else stored.source)
    else
      Status(interval / SECOND, None, None, TimeOrNone(t.startedAt + interval), Some(Pending), "", PollSource("", app))
  }

  function ShownNext(t: Tracker, app: App): Option<Time> {
    Shown(t, app).nextScheduledAt
  }

  // ---------------------------------------------------------------- what is recorded

  /** One, five or ten minutes as the application asks; any other setting gives the tracker's interval, five minutes if that
      is none. An application has a source if it names a repository. */
  lemma IntervalIs(app: App, fallback: nat)
    ensures app.pollIntervalSeconds == 60 || app.pollIntervalSeconds == 300 || app.pollIntervalSeconds == 600 ==>
              IntervalFor(app, fallback) == app.pollIntervalSeconds * 1_000_000_000
    ensures !(app.pollIntervalSeconds == 60 || app.pollIntervalSeconds == 300 || app.pollIntervalSeconds == 600) ==>
              IntervalFor(app, fallback) == if fallback > 0 then fallback else 300_000_000_000
    ensures HasSource(app) <==> !IsBlank(app.repositoryUrl) || !IsBlank(app.repositoryId)
  {
    TrimSpaceBlank(app.repositoryUrl);
    TrimSpaceBlank(app.repositoryId);
    hide TrimSpace, IsBlank;
  }

  lemma SourceIs(configFile: string, app: App)
    ensures PollSource(configFile, app) ==
            if !IsBlank(configFile) then TrimSpace(configFile)
            else if !IsBlank(app.configPath) then TrimSpace(app.configPath)
            else "aolda_deploy.json"
  {
    TrimSpaceBlank(configFile);
    TrimSpaceBlank(app.configPath);
    hide TrimSpace, IsBlank;
  }

  /** What is kept of a check: when it began, when the next is due, how it went, where it looked. */
  predicate IsChecked(s: Status, app: App, t: Tracker, configFile: string, at: Time, result: PollResult, error: string) {
    && s.lastCheckedAt == Some(at) && s.nextScheduledAt == Some(at + IntervalFor(app, t.interval))
    && s.lastResult == Some(result) && s.lastError == error
    && s.intervalSeconds == IntervalFor(app, t.interval) / 1_000_000_000 && s.source == PollSource(configFile, app)
  }

  predicate OnlyItem(t: Tracker, t': Tracker, id: string) {
    id in t'.items && t' == t.(items := t.items[id := t'.items[id]])
  }

  /** The marks of a check change the application's status alone; only a success moves the time of the last success. An
      application without a source is never marked. */
  lemma MarksRecord(t: Tracker, app: App, configFile: string, at: Time, error: string)
    requires at > 0
    ensures !HasSource(app) ==>
              Attempted(t, app, configFile, at) == Succeeded(t, app, configFile, at) == FailedWith(t, app, configFile, at, error)
              == Rescheduled(t, app, at) == t
    ensures HasSource(app) ==>
              var before := if app.id in t.items then t.items[app.id].lastSucceededAt else None;
              var begun, done, failed := Attempted(t, app, configFile, at), Succeeded(t, app, configFile, at),
                                         FailedWith(t, app, configFile, at, error);
              && OnlyItem(t, begun, app.id) && IsChecked(begun.items[app.id], app, t, configFile, at, Pending, "")
              && OnlyItem(t, done, app.id) && IsChecked(done.items[app.id], app, t, configFile, at, Success, "")
              && OnlyItem(t, failed, app.id) && IsChecked(failed.items[app.id], app, t, configFile, at, Failure, error)
              && begun.items[app.id].lastSucceededAt == failed.items[app.id].lastSucceededAt == before
              && done.items[app.id].lastSucceededAt == Some(at)
  {
    hide IntervalFor, PollSource;
  }

  /** A reschedule moves the next time and keeps what is known of the checks. */
  lemma RescheduleMovesNext(t: Tracker, app: App, from: Time)
    requires HasSource(app) && from > 0
    ensures var t' := Rescheduled(t, app, from);
            && OnlyItem(t, t', app.id)
            && var after := t'.items[app.id];
               && after.nextScheduledAt == Some(from + IntervalFor(app, t.interval))
               && (app.id in t.items ==>
                     var before := t.items[app.id];
                     && after.lastCheckedAt == before.lastCheckedAt && after.lastSucceededAt == before.lastSucceededAt
                     && after.lastResult == before.lastResult && after.lastError == before.lastError)
               && (app.id !in t.items ==> after.lastCheckedAt == None && after.lastSucceededAt == None && after.lastResult == None)
  {
    hide IntervalFor, PollSource;
  }

  /** An application with a source is due an interval after its last check, or after the start if there was none. */
  lemma DueIs(t: Tracker, app: App, now: Time)
    ensures var last := if app.id in t.items then t.items[app.id].lastCheckedAt else None;
            IsDue(t, app, now) <==>
              HasSource(app)
              && (if last.Some? && last.value > 0 then last.value else t.startedAt) + IntervalFor(app, t.interval) <= now
  {
    hide IntervalFor;
  }

  /** What is shown of an application: its stored status, with interval and source filled in where they are missing; before
      its first check, a pending one an interval after the start. */
  lemma ShownIs(t: Tracker, app: App)
    requires t.startedAt > 0
    ensures var shown := Shown(t, app);
            if app.id in t.items then
              var stored := t.items[app.id];
              && shown.lastCheckedAt == stored.lastCheckedAt && shown.lastSucceededAt == stored.lastSucceededAt
              && shown.nextScheduledAt == stored.nextScheduledAt && shown.lastResult == stored.lastResult
              && shown.lastError == stored.lastError
              && (stored.intervalSeconds > 0 ==> shown.intervalSeconds == stored.intervalSeconds)
              && (stored.intervalSeconds == 0 ==> shown.intervalSeconds == IntervalFor(app, t.interval) / 1_000_000_000)
              && (stored.source != "" ==> shown.source == stored.source)
              && (stored.source == "" ==> shown.source == PollSource("", app))
            else
              shown == Status(IntervalFor(app, t.interval) / 1_000_000_000, None, None,
                              Some(t.startedAt + IntervalFor(app, t.interval)), Some(Pending), "", PollSource("", app))
  {
    hide IntervalFor, PollSource;
  }

  // ---------------------------------------------------------------- the tracker

  class RepositoryPollTracker {
    const interval: nat
    const startedAt: Time
    var nextCycleAt: Time
    var items: map<string, Status>

    ghost function View(): Tracker
      reads this
    {
      Tracker(interval, startedAt, nextCycleAt, items)
    }

    constructor (requested: int, now: Time)
      ensures View() == Tracker(if requested <= 0 then DEFAULT_INTERVAL else requested, now,
                                now + if requested <= 0 then DEFAULT_INTERVAL else requested, map[])
    {
      var used := if requested <= 0 then DEFAULT_INTERVAL else requested;
      interval, startedAt, nextCycleAt, items := used, now, now + used, map[];
    }

    method BeginCycle(now: Time)
      modifies this
      ensures View() == old(View()).(nextCycleAt := now + interval)
    {
      nextCycleAt := now + interval;
    }

    method MarkAttempt(app: App, configFile: string, checkedAt: Time)
      modifies this
      ensures View() == Attempted(old(View()), app, configFile, checkedAt)
    {
      if !HasSource(app) { return; }
      var every := IntervalFor(app, interval);
      var current := if app.id in items then items[app.id] else BLANK;
      current := current.(intervalSeconds := every / SECOND);
      current := current.(lastCheckedAt := TimeOrNone(checkedAt), nextScheduledAt := TimeOrNone(checkedAt + every));
      current := current.(lastResult := Some(Pending), lastError := "", source := PollSource(configFile, app));
      items := items[app.id := current];
    }

    method MarkSuccess(app: App, configFile: string, checkedAt: Time)
      modifies this
      ensures View() == Succeeded(old(View()), app, configFile, checkedAt)
    {
      if !HasSource(app) { return; }
      var every := IntervalFor(app, interval);
      var current := if app.id in items then items[app.id] else BLANK;
      current := current.(intervalSeconds := every / SECOND);
      current := current.(lastCheckedAt := TimeOrNone(checkedAt), lastSucceededAt := TimeOrNone(checkedAt),
                          nextScheduledAt := TimeOrNone(checkedAt + every));
      current := current.(lastResult := Some(Success), lastError := "", source := PollSource(configFile, app));
      items := items[app.id := current];
    }

    method MarkFailure(app: App, configFile: string, checkedAt: Time, error: string)
      modifies this
      ensures View() == FailedWith(old(View()), app, configFile, checkedAt, error)
    {
      if !HasSource(app) { return; }
      var every := IntervalFor(app, interval);
      var current := if app.id in items then items[app.id] else BLANK;
      current := current.(intervalSeconds := every / SECOND);
      current := current.(lastCheckedAt := TimeOrNone(checkedAt), nextScheduledAt := TimeOrNone(checkedAt + every));
      current := current.(lastResult := Some(Failure), lastError := error, source := PollSource(configFile, app));
      items := items[app.id := current];
    }

    method Reschedule(app: App, from: Time)
      modifies this
      ensures View() == Rescheduled(old(View()), app, from)
    {
      if !HasSource(app) { return; }
      var every := IntervalFor(app, interval);
      var current := if app.id in items then items[app.id] else BLANK;
      current := current.(intervalSeconds := every / SECOND, nextScheduledAt := TimeOrNone(from + every));
      if current.source == "" {
        current := current.(source := PollSource("", app));
      }
      items := items[app.id := current];
    }

    method Due(app: App, now: Time) returns (due: bool)
      ensures due == IsDue(View(), app, now)
    {
      if !HasSource(app) { return false; }
      var every := IntervalFor(app, interval);
      if app.id !in items || items[app.id].lastCheckedAt.None? || items[app.id].lastCheckedAt.value == 0 {
        return startedAt + every <= now;
      }
      return items[app.id].lastCheckedAt.value + every <= now;
    }

    method Snapshot(app: App) returns (status: Option<Status>)
      ensures status == if HasSource(app) then Some(Shown(View(), app)) else None
    {
      if !HasSource(app) { return None; }
      var every := IntervalFor(app, interval);
      if app.id in items {
        var cloned := items[app.id];
        if cloned.intervalSeconds == 0 { cloned := cloned.(intervalSeconds := every / SECOND); }
        if cloned.source == "" { cloned := cloned.(source := PollSource("", app)); }
        return Some(cloned);
      }
      return Some(Status(every / SECOND, None, None, TimeOrNone(startedAt + every), Some(Pending), "", PollSource("", app)));
    }
  }

  // ---------------------------------------------------------------- runs

  /** A check as it began: for one the poller started, the interval it found. */
  datatype Check = Check(at: Time, byPoller: bool, interval: nat)

  datatype World = World(
    tracker: Tracker,
    clock: Time,
    apps: map<string, App>,              // the stored applications
    running: map<string, Time>,          // checks in progress, with their start
    checks: map<string, seq<Check>>,
    marked: map<string, Option<nat>>)    // the interval of the last mark; None after a reschedule

  datatype Event =
    | Tick(d: nat)
    | BeginCycle(now: Time)
    | SaveApp(app: App, rescheduled: bool)
    | PollerCheck(app: App, configFile: string, now: Time)
    | ManualCheck(app: App, configFile: string)
    | FinishCheck(app: App, configFile: string, error: Option<string>)

  function ChecksOf(w: World, id: string): seq<Check> {
    if id in w.checks then w.checks[id] else []
  }

  /** Checks of one application do not overlap, a poller's from the moment it finds the application due; a change of the
      interval comes with a reschedule. The record a check works with may be older or newer than the stored one. */
  predicate IsEnabled(w: World, e: Event) {
    match e
    case Tick(_) => true
    case BeginCycle(now) => now <= w.clock
    case SaveApp(app, rescheduled) =>
      && HasSource(app)
      && (rescheduled || app.id !in w.apps
          || IntervalFor(w.apps[app.id], w.tracker.interval) == IntervalFor(app, w.tracker.interval))
      && (app.id !in w.apps ==> app.id !in w.tracker.items)
    case PollerCheck(app, _, now) =>
      app.id in w.apps && app.id !in w.running && now <= w.clock && IsDue(w.tracker, app, now)
    case ManualCheck(app, _) => app.id in w.apps && app.id !in w.running && HasSource(app)
    case FinishCheck(app, _, _) => app.id in w.running && HasSource(app)
  }

  function Begun(w: World, app: App, configFile: string, byPoller: bool): World {
    w.(tracker := Attempted(w.tracker, app, configFile, w.clock), running := w.running[app.id := w.clock],
       checks := w.checks[app.id := ChecksOf(w, app.id) + [Check(w.clock, byPoller, IntervalFor(app, w.tracker.interval))]],
       marked := w.marked[app.id := Some(IntervalFor(app, w.tracker.interval))])
  }

  function Next(w: World, e: Event): World
    requires IsEnabled(w, e)
  {
    match e
    case Tick(d) => w.(clock := w.clock + d)
    case BeginCycle(now) => w.(tracker := w.tracker.(nextCycleAt := now + w.tracker.interval))
    case SaveApp(app, rescheduled) =>
      if rescheduled then
        w.(apps := w.apps[app.id := app], tracker := Rescheduled(w.tracker, app, w.clock), marked := w.marked[app.id := None])
      else w.(apps := w.apps[app.id := app])
    case PollerCheck(app, configFile, _) => Begun(w, app, configFile, true)
    case ManualCheck(app, configFile) => Begun(w, app, configFile, false)
    case FinishCheck(app, configFile, error) =>
      var at := w.running[app.id];
      w.(tracker := if error.None? then Succeeded(w.tracker, app, configFile, at)
                    else FailedWith(w.tracker, app, configFile, at, error.value),
         running := w.running - {app.id},
         marked := w.marked[app.id := Some(IntervalFor(app, w.tracker.interval))])
  }

  /** A tracker that has just been made. */
  predicate IsInitial(w: World) {
    && w.tracker.startedAt == w.clock > 0 && w.tracker.items == map[]
    && w.apps == map[] && w.running == map[] && w.checks == map[] && w.marked == map[]
  }

  predicate IsRun(w: World, es: seq<Event>)
    decreases |es|
  {
    |es| > 0 ==> IsEnabled(w, es[0]) && IsRun(Next(w, es[0]), es[1..])
  }

  function Final(w: World, es: seq<Event>): World
    requires IsRun(w, es)
    decreases |es|
  {
    if |es| == 0 then w else Final(Next(w, es[0]), es[1..])
  }

  // ---------------------------------------------------------------- invariants

  /** Every check the poller started began at least its interval after the check before it, or after the start. */
  ghost predicate IsPaced(checks: seq<Check>, startedAt: Time) {
    forall k :: 0 <= k < |checks| && checks[k].byPoller ==> checks[k].at >= TimeBefore(checks, startedAt, k) + checks[k].interval
  }

  /** When the check before this one began, or the tracker. */
  function TimeBefore(checks: seq<Check>, startedAt: Time, k: nat): Time
    requires k <= |checks|
  {
    if k == 0 then startedAt else checks[k - 1].at
  }

  lemma PacedWithOneMore(checks: seq<Check>, startedAt: Time, c: Check)
    requires IsPaced(checks, startedAt)
    requires c.byPoller ==> c.at >= TimeBefore(checks, startedAt, |checks|) + c.interval
    ensures IsPaced(checks + [c], startedAt)
  {
    var more := checks + [c];
    forall k | 0 <= k < |more| && more[k].byPoller ensures more[k].at >= TimeBefore(more, startedAt, k) + more[k].interval {
      if k < |checks| { assert TimeBefore(more, startedAt, k) == TimeBefore(checks, startedAt, k); }
    }
  }

  /** The tracker remembers the latest check, also while it runs. */
  ghost predicate ChecksOk(w: World, id: string) {
    var checks, item := ChecksOf(w, id), ItemOf(w.tracker, id);
    && IsPaced(checks, w.tracker.startedAt)
    && (checks == [] ==> item.lastCheckedAt == None && id !in w.running)
    && (checks != [] ==>
          var last := checks[|checks| - 1].at;
          0 < last <= w.clock && w.tracker.startedAt <= last && item.lastCheckedAt == Some(last)
          && (id in w.running ==> w.running[id] == last))
    && 0 < w.tracker.startedAt <= w.clock
  }

  /** What the next scheduled time was computed from. */
  ghost predicate ScheduleOk(w: World, id: string) {
    && (id in w.tracker.items ==> id in w.apps && id in w.marked)
    && (id in w.tracker.items ==>
          var next, last := w.tracker.items[id].nextScheduledAt, w.tracker.items[id].lastCheckedAt;
          && next.Some?
          && match w.marked[id]
             case Some(interval) => last.Some? && next.value == last.value + interval
             case None => next.value >= (if last.Some? then last.value else w.tracker.startedAt)
                                        + IntervalFor(w.apps[id], w.tracker.interval))
    && (id in w.running ==> id in w.apps) && (id in w.apps ==> w.apps[id].id == id)
  }

  /** Nothing that concerns the application has changed; time may have passed. */
  ghost predicate IsSameFor(w: World, w': World, id: string) {
    && ChecksOf(w', id) == ChecksOf(w, id) && w.clock <= w'.clock
    && w'.tracker.startedAt == w.tracker.startedAt && w'.tracker.interval == w.tracker.interval
    && (id in w'.tracker.items <==> id in w.tracker.items) && ItemOf(w'.tracker, id) == ItemOf(w.tracker, id)
    && (id in w'.apps <==> id in w.apps) && (id in w.apps ==> w'.apps[id] == w.apps[id])
    && (id in w'.running <==> id in w.running) && (id in w.running ==> w'.running[id] == w.running[id])
    && (id in w'.marked <==> id in w.marked) && (id in w.marked ==> w'.marked[id] == w.marked[id])
  }

  predicate Concerns(e: Event, id: string) {
    (e.SaveApp? || e.PollerCheck? || e.ManualCheck? || e.FinishCheck?) && e.app.id == id
  }

  lemma ChecksOfOthers(w: World, e: Event, id: string)
    requires IsEnabled(w, e) && (e.PollerCheck? || e.ManualCheck? || e.FinishCheck?) && e.app.id != id
    ensures IsSameFor(w, Next(w, e), id)
  {
    hide IntervalFor, TrimSpace, PollSource, IsDue, Marked;
  }

  lemma OthersAreUntouched(w: World, e: Event, id: string)
    requires IsEnabled(w, e) && !Concerns(e, id)
    ensures IsSameFor(w, Next(w, e), id)
  {
    hide IntervalFor, TrimSpace, PollSource, IsDue, Succeeded, FailedWith, Begun;
    if e.PollerCheck? || e.ManualCheck? || e.FinishCheck? {
      ChecksOfOthers(w, e, id);
    }
  }

  lemma SameKeepsInvariants(w: World, w': World, id: string)
    requires IsSameFor(w, w', id) && ChecksOk(w, id) && ScheduleOk(w, id)
    ensures ChecksOk(w', id) && ScheduleOk(w', id)
  {
    hide IntervalFor, IsPaced;
  }

  lemma BeginKeepsChecks(w: World, e: Event)
    requires IsEnabled(w, e) && (e.PollerCheck? || e.ManualCheck?) && ChecksOk(w, e.app.id)
    ensures ChecksOk(Next(w, e), e.app.id)
  {
    hide IntervalFor, TrimSpace, PollSource, IsPaced;
    PacedWithOneMore(ChecksOf(w, e.app.id), w.tracker.startedAt, Check(w.clock, e.PollerCheck?, IntervalFor(e.app, w.tracker.interval)));
  }

  lemma SaveOrFinishKeepsChecks(w: World, e: Event)
    requires IsEnabled(w, e) && (e.SaveApp? || e.FinishCheck?) && ChecksOk(w, e.app.id)
    ensures ChecksOk(Next(w, e), e.app.id)
  {
    hide IntervalFor, TrimSpace, PollSource, IsPaced, DueTime;
  }

  lemma BeginKeepsSchedule(w: World, e: Event)
    requires IsEnabled(w, e) && (e.PollerCheck? || e.ManualCheck?) && ChecksOk(w, e.app.id) && ScheduleOk(w, e.app.id)
    ensures ScheduleOk(Next(w, e), e.app.id)
  {
    hide IntervalFor, TrimSpace, PollSource, IsPaced, DueTime;
  }

  lemma SaveKeepsSchedule(w: World, e: Event)
    requires IsEnabled(w, e) && e.SaveApp? && ChecksOk(w, e.app.id) && ScheduleOk(w, e.app.id)
    ensures ScheduleOk(Next(w, e), e.app.id)
  {
    hide IntervalFor, TrimSpace, PollSource, IsPaced, DueTime;
  }

  lemma FinishKeepsSchedule(w: World, e: Event)
    requires IsEnabled(w, e) && e.FinishCheck? && ChecksOk(w, e.app.id) && ScheduleOk(w, e.app.id)
    ensures ScheduleOk(Next(w, e), e.app.id)
  {
    hide IntervalFor, TrimSpace, PollSource, IsPaced, DueTime;
  }

  lemma StepKeepsApp(w: World, e: Event, id: string)
    requires IsEnabled(w, e) && ChecksOk(w, id) && ScheduleOk(w, id)
    ensures ChecksOk(Next(w, e), id) && ScheduleOk(Next(w, e), id)
  {
    hide IsEnabled, Next, ChecksOk, ScheduleOk, IsSameFor;
    if !Concerns(e, id) {
      OthersAreUntouched(w, e, id);
      SameKeepsInvariants(w, Next(w, e), id);
    } else if e.SaveApp? {
      SaveOrFinishKeepsChecks(w, e);
      SaveKeepsSchedule(w, e);
    } else if e.FinishCheck? {
      SaveOrFinishKeepsChecks(w, e);
      FinishKeepsSchedule(w, e);
    } else {
      BeginKeepsChecks(w, e);
      BeginKeepsSchedule(w, e);
    }
  }

  ghost predicate WorldOk(w: World) {
    forall id :: ChecksOk(w, id) && ScheduleOk(w, id)
  }

  lemma StepKeepsWorld(w: World, e: Event)
    requires WorldOk(w) && IsEnabled(w, e)
    ensures WorldOk(Next(w, e))
  {
    hide Next, IsEnabled, ChecksOk, ScheduleOk;
    forall id ensures ChecksOk(Next(w, e), id) && ScheduleOk(Next(w, e), id) {
      assert ChecksOk(w, id) && ScheduleOk(w, id);
      StepKeepsApp(w, e, id);
    }
  }

  lemma {:induction false} RunKeepsWorld(w: World, es: seq<Event>)
    requires WorldOk(w) && IsRun(w, es)
    ensures WorldOk(Final(w, es))
    decreases |es|
  {
    if |es| > 0 {
      StepKeepsWorld(w, es[0]);
      RunKeepsWorld(Next(w, es[0]), es[1..]);
    }
  }

  /** Every check the poller starts begins at least the interval it found for the application after the application's
      previous check, manual or automatic. */
  lemma PollerChecksArePaced(w: World, es: seq<Event>, id: string, k: nat)
    requires IsInitial(w) && IsRun(w, es) && k < |ChecksOf(Final(w, es), id)| && ChecksOf(Final(w, es), id)[k].byPoller
    ensures var checks := ChecksOf(Final(w, es), id);
            checks[k].at >= TimeBefore(checks, Final(w, es).tracker.startedAt, k) + checks[k].interval
  {
    RunKeepsWorld(w, es);
    assert ChecksOk(Final(w, es), id);
  }

  /** A stored application falls due no later than the time shown for its next check. */
  predicate IsInTime(w: World, id: string) {
    id in w.apps ==>
      var shown := ShownNext(w.tracker, w.apps[id]);
      shown.Some? && DueTime(w.tracker, w.apps[id]) <= shown.value
  }

  predicate IsCheckOf(e: Event, id: string) {
    (e.PollerCheck? || e.ManualCheck? || e.FinishCheck?) && e.app.id == id
  }

  /** The application's record that a check begins or ends with has an interval no shorter than the stored one. */
  predicate IsFresh(w: World, e: Event, id: string) {
    IsCheckOf(e, id) && id in w.apps ==>
      IntervalFor(e.app, w.tracker.interval) >= IntervalFor(w.apps[id], w.tracker.interval)
  }

  ghost predicate AlwaysInTime(w: World, es: seq<Event>, id: string)
    requires IsRun(w, es)
    decreases |es|
  {
    IsInTime(w, id) && (|es| > 0 ==> AlwaysInTime(Next(w, es[0]), es[1..], id))
  }

  ghost predicate AlwaysFresh(w: World, es: seq<Event>, id: string)
    requires IsRun(w, es)
    decreases |es|
  {
    |es| > 0 ==> IsFresh(w, es[0], id) && AlwaysFresh(Next(w, es[0]), es[1..], id)
  }

  lemma ShownByLastMark(w: World, id: string)
    requires ChecksOk(w, id) && ScheduleOk(w, id) && id in w.apps
    ensures var app := w.apps[id];
            && ShownNext(w.tracker, app).Some?
            && (DueTime(w.tracker, app) <= ShownNext(w.tracker, app).value
                <==> !(id in w.tracker.items && w.marked[id].Some? && w.marked[id].value < IntervalFor(app, w.tracker.interval)))
  {
    hide IntervalFor, TrimSpace, PollSource, IsPaced;
  }

  /** A mark on record that was made with a record whose interval is shorter than the stored one's. */
  predicate HasShortMark(w: World, id: string) {
    id in w.apps && id in w.tracker.items && id in w.marked && w.marked[id].Some?
    && w.marked[id].value < IntervalFor(w.apps[id], w.tracker.interval)
  }

  lemma CheckMarks(w: World, e: Event, id: string)
    requires IsEnabled(w, e) && IsCheckOf(e, id) && id in w.apps && w.apps[id].id == id
    ensures HasShortMark(Next(w, e), id) <==> IntervalFor(e.app, w.tracker.interval) < IntervalFor(w.apps[id], w.tracker.interval)
    ensures Next(w, e).apps == w.apps
  {
    hide IntervalFor, TrimSpace, PollSource, DueTime;
  }

  lemma OtherStepsMarkNothing(w: World, e: Event, id: string)
    requires IsEnabled(w, e) && !IsCheckOf(e, id) && ScheduleOk(w, id) && !HasShortMark(w, id)
    ensures !HasShortMark(Next(w, e), id)
  {
    hide IntervalFor, TrimSpace, PollSource, DueTime;
  }

  lemma InTimeByMark(w: World, id: string)
    requires ChecksOk(w, id) && ScheduleOk(w, id)
    ensures IsInTime(w, id) <==> !HasShortMark(w, id)
  {
    if id in w.apps { ShownByLastMark(w, id); }
    hide IntervalFor, ShownNext, DueTime, ChecksOk;
  }

  lemma StepInTime(w: World, e: Event, id: string)
    requires WorldOk(w) && IsEnabled(w, e) && IsInTime(w, id)
    ensures IsInTime(Next(w, e), id) <==> IsFresh(w, e, id)
  {
    hide IntervalFor, ShownNext, DueTime, IsEnabled, Next, HasShortMark, IsInTime;
    assert ChecksOk(w, id) && ScheduleOk(w, id);
    InTimeByMark(w, id);
    StepKeepsWorld(w, e);
    assert ChecksOk(Next(w, e), id) && ScheduleOk(Next(w, e), id);
    InTimeByMark(Next(w, e), id);
    if IsCheckOf(e, id) {
      CheckOfStored(w, e, id);
      CheckMarks(w, e, id);
    } else {
      OtherStepsMarkNothing(w, e, id);
    }
  }

  lemma CheckOfStored(w: World, e: Event, id: string)
    requires IsEnabled(w, e) && IsCheckOf(e, id) && ScheduleOk(w, id)
    ensures id in w.apps && w.apps[id].id == id
  {
  }

  lemma {:induction false} InTimeWhileFresh(w: World, es: seq<Event>, id: string)
    requires WorldOk(w) && IsRun(w, es) && IsInTime(w, id)
    ensures AlwaysInTime(w, es, id) <==> AlwaysFresh(w, es, id)
    decreases |es|
  {
    hide IsInTime, IsFresh, WorldOk, Next, IsEnabled;
    if |es| > 0 {
      StepInTime(w, es[0], id);
      StepKeepsWorld(w, es[0]);
      if IsFresh(w, es[0], id) {
        InTimeWhileFresh(Next(w, es[0]), es[1..], id);
      } else {
        NotInTime(Next(w, es[0]), es[1..], id);
      }
    }
  }

  lemma NotInTime(w: World, es: seq<Event>, id: string)
    requires IsRun(w, es) && !IsInTime(w, id)
    ensures !AlwaysInTime(w, es, id)
  {
  }

  /** In every state of a run an application falls due no later than the time shown, exactly if every check of it, poller's
      or manual, began and ended with a record whose interval was no shorter than the one stored then. */
  lemma DueByShownTime(w: World, es: seq<Event>, id: string)
    requires IsInitial(w) && IsRun(w, es)
    ensures AlwaysInTime(w, es, id) <==> AlwaysFresh(w, es, id)
  {
    InTimeWhileFresh(w, es, id);
  }

  lemma ThreeSteps(w: World, a: Event, b: Event, c: Event)
    requires IsEnabled(w, a) && IsEnabled(Next(w, a), b) && IsEnabled(Next(Next(w, a), b), c)
    ensures IsRun(w, [a, b, c]) && Final(w, [a, b, c]) == Next(Next(Next(w, a), b), c)
  {
    hide IsEnabled, Next;
    var w1 := Next(w, a);
    var w2 := Next(w1, b);
    assert [a, b, c][1..] == [b, c] && [b, c][1..] == [c] && [c][1..] == [];
    assert IsRun(w2, [c]) && IsRun(w1, [b, c]);
    assert Final(w2, [c]) == Next(w2, c) && Final(w1, [b, c]) == Next(w2, c);
  }

  lemma ManualCheckMarks(w: World, app: App, configFile: string)
    requires IsEnabled(w, ManualCheck(app, configFile)) && w.clock > 0
    ensures var w' := Next(w, ManualCheck(app, configFile));
            && app.id in w'.running && w'.running[app.id] == w.clock && w'.clock == w.clock
            && app.id in w'.apps && w'.tracker.interval == w.tracker.interval
  {
    hide IntervalFor, TrimSpace, PollSource, IsDue;
  }

  lemma FinishMarks(w: World, app: App, configFile: string, stored: App)
    requires IsEnabled(w, FinishCheck(app, configFile, None)) && w.running[app.id] > 0 && stored.id == app.id
    ensures var t := Next(w, FinishCheck(app, configFile, None)).tracker;
            && ShownNext(t, stored) == Some(w.running[app.id] + IntervalFor(app, w.tracker.interval))
            && DueTime(t, stored) == w.running[app.id] + IntervalFor(stored, w.tracker.interval)
  {
    hide IntervalFor, TrimSpace, PollSource, IsDue;
  }

  /** A longer interval saved while a check is running is enough to break it: the check's end overwrites the rescheduled
      time with the one its own older record gives. */
  lemma PatchDuringCheck(w: World, app: App, patched: App, configFile: string)
    requires IsEnabled(w, ManualCheck(app, configFile)) && HasSource(patched) && patched.id == app.id && w.clock > 0
    requires IntervalFor(app, w.tracker.interval) < IntervalFor(patched, w.tracker.interval)
    ensures var es := [ManualCheck(app, configFile), SaveApp(patched, true), FinishCheck(app, configFile, None)];
            && IsRun(w, es)
            && var f := Final(w, es);
               ShownNext(f.tracker, patched) == Some(w.clock + IntervalFor(app, w.tracker.interval))
               && DueTime(f.tracker, patched) == w.clock + IntervalFor(patched, w.tracker.interval)
  {
    hide IntervalFor, TrimSpace, PollSource, IsDue, ShownNext, DueTime, Begun, Succeeded, FailedWith, Rescheduled;
    var check, save, finish := ManualCheck(app, configFile), SaveApp(patched, true), FinishCheck(app, configFile, None);
    ManualCheckMarks(w, app, configFile);
    var w1 := Next(w, check);
    assert IsEnabled(w1, save);
    var w2 := Next(w1, save);
    assert w2.running == w1.running && IsEnabled(w2, finish);
    assert w2.tracker.interval == w.tracker.interval by { SaveKeepsInterval(w1, save); }
    FinishMarks(w2, app, configFile, patched);
    ThreeSteps(w, check, save, finish);
  }

  lemma SaveKeepsInterval(w: World, e: Event)
    requires IsEnabled(w, e) && e.SaveApp?
    ensures Next(w, e).tracker.interval == w.tracker.interval
  {
    hide IntervalFor, PollSource, IsDue;
  }
}
