/** The scheduler that repeats a leased task, re-armed whenever the configured interval changes.
    Its closures run to completion one at a time; an event is whatever wakes one of them. */
module LeasedScheduler {
  import opened Common

  /** `timer` holds the delay it was armed with; `interval` is what the current configuration
      says; `starts` counts the cycles begun. */
  datatype State = State(
    stopped: bool, timer: Option<nat>, running: bool, stopResolved: bool, interval: int, starts: nat)

  datatype Event = TimerFires | ConfigChanges(interval: int) | CycleSettles | StopCalled

  function Delay(interval: int): nat { if interval < 0 then 0 else interval }

  function Schedule(s: State): State {
    if s.stopped || s.running then s else s.(timer := Some(Delay(s.interval)))
  }

  /** There is no guard against a cycle that is already running. */
  function Cycle(s: State): State {
    if s.stopped then s else s.(running := true, starts := s.starts + 1)
  }

  function Start(interval: int, runImmediately: bool): State {
    var s := State(false, None, false, false, interval, 0);
    if runImmediately then Cycle(s) else Schedule(s)
  }

  predicate Enabled(s: State, e: Event) {
    (e.TimerFires? ==> s.timer.Some?) && (e.CycleSettles? ==> s.running)
  }

  function React(s: State, e: Event): State {
    if !Enabled(s, e) then s
    else match e
      case TimerFires => Cycle(s.(timer := None))
      case ConfigChanges(interval) =>
        // stopping unsubscribes the listener
        var t := s.(interval := interval);
        if !s.stopped && !s.running then Schedule(t) else t
      case CycleSettles =>
        var t := s.(running := false);
        if t.stopped then t.(stopResolved := true) else Schedule(t)
      case StopCalled =>
        if s.stopped then s
        else s.(stopped := true, timer := None, stopResolved := !s.running)
  }

  function After(s: State, events: seq<Event>): State {
    if events == [] then s else React(After(s, events[..|events| - 1]), events[|events| - 1])
  }

  /** While it lives, either a cycle runs or a timer is armed with the configured delay, never
      both; once stopped nothing is armed, and the stop is over exactly when no cycle runs. */
  predicate Inv(s: State) {
    && (!s.stopped ==> !s.stopResolved
                       && (s.running <==> s.timer.None?)
                       && (s.timer.Some? ==> s.timer.value == Delay(s.interval)))
    && (s.stopped ==> s.timer.None? && (s.stopResolved <==> !s.running))
  }

  lemma {:induction false} AlwaysInv(interval: int, runImmediately: bool, events: seq<Event>)
    ensures Inv(After(Start(interval, runImmediately), events))
  {
    if events != [] { AlwaysInv(interval, runImmediately, events[..|events| - 1]); }
  }

  /** Two cycles never overlap, although the cycle itself does not check: whenever one begins,
      none is running. */
  lemma CyclesNeverOverlap(interval: int, runImmediately: bool, events: seq<Event>, e: Event)
    ensures var s := After(Start(interval, runImmediately), events);
            React(s, e).starts != s.starts ==> !s.running && React(s, e).starts == s.starts + 1
  {
    AlwaysInv(interval, runImmediately, events);
  }

  /** After a stop no cycle ever begins; once the stop has resolved none is running either, and
      that lasts. */
  lemma {:induction false} StopIsFinal(s: State, events: seq<Event>)
    requires Inv(s) && s.stopped
    ensures var t := After(s, events);
            Inv(t) && t.stopped && t.starts == s.starts && (s.stopResolved ==> t.stopResolved && !t.running)
  {
    if events != [] { StopIsFinal(s, events[..|events| - 1]); }
  }

  class Scheduler {
    var stopped: bool
    var timer: Option<nat>
    var running: bool
    var stopResolved: bool
    var interval: int
    var starts: nat

    function View(): State
      reads this
    {
      State(stopped, timer, running, stopResolved, interval, starts)
    }

    constructor (interval: int, runImmediately: bool)
      ensures View() == Start(interval, runImmediately) && Inv(View())
    {
      stopped, running, stopResolved := false, runImmediately, false;
      timer := if runImmediately then None else Some(Delay(interval));
      this.interval, starts := interval, if runImmediately then 1 else 0;
    }

    method Arm()
      modifies this`timer
      ensures View() == Schedule(old(View()))
    {
      if stopped || running { return; }
      timer := Some(Delay(interval));
    }

    /** Never entered while a cycle runs: the callers' invariant is the only protection. */
    method BeginCycle()
      requires !running
      modifies this`running, this`starts
      ensures View() == Cycle(old(View()))
    {
      if stopped { return; }
      running := true;
      starts := starts + 1;
    }

    method OnTimer()
      requires Inv(View()) && timer.Some?
      modifies this
      ensures View() == React(old(View()), TimerFires) && Inv(View())
    {
      timer := None;
      BeginCycle();
    }

    method OnConfig(newInterval: int)
      requires Inv(View())
      modifies this
      ensures View() == React(old(View()), ConfigChanges(newInterval)) && Inv(View())
    {
      interval := newInterval;
      if !stopped && !running { Arm(); }
    }

    method OnCycleSettled()
      requires Inv(View()) && running
      modifies this
      ensures View() == React(old(View()), CycleSettles) && Inv(View())
    {
      running := false;
      if stopped { stopResolved := true; } else { Arm(); }
    }

    method Stop()
      requires Inv(View())
      modifies this
      ensures View() == React(old(View()), StopCalled) && Inv(View())
    {
      if stopped { return; }
      stopped := true;
      timer := None;
      if !running { stopResolved := true; }
    }

    /** Whatever wakes the scheduler. */
    method Dispatch(e: Event)
      requires Inv(View())
      modifies this
      ensures View() == React(old(View()), e) && Inv(View())
    {
      if !Enabled(View(), e) { return; }
      match e
      case TimerFires => OnTimer();
      case ConfigChanges(newInterval) => OnConfig(newInterval);
      case CycleSettles => OnCycleSettled();
      case StopCalled => Stop();
    }
  }

  /** A scheduler that has lived through these events is in the state that the theorems above are about. */
  method Live(interval: int, runImmediately: bool, events: seq<Event>) returns (scheduler: Scheduler)
    ensures scheduler.View() == After(Start(interval, runImmediately), events) && Inv(scheduler.View())
  {
    scheduler := new Scheduler(interval, runImmediately);
    for i := 0 to |events|
      invariant scheduler.View() == After(Start(interval, runImmediately), events[..i]) && Inv(scheduler.View())
    {
      assert events[..i + 1][..i] == events[..i];
      scheduler.Dispatch(events[i]);
    }
    assert events[..|events|] == events;
  }
}

/** The controller that keeps queue concurrency in line with the configuration: a run every thirty
    seconds, and at once when a newer configuration version is announced. */
module ConcurrencyController {

  /** The promise of the first stop call: it waits for the run in progress, and rejects if that fails. */
  datatype StopPromise = NotAsked | Waiting | Resolved | Rejected

  /** `firstSettled` and `started` follow the awaited first run; `starts` counts the runs begun, and
      `laterStops` the further stop calls, which return at once. */
  datatype State = State(
    stopped: bool, timer: bool, running: bool, pending: bool, observed: int,
    firstSettled: bool, started: bool, stop: StopPromise, laterStops: nat, starts: nat)

  datatype Event = TimerFires | Announced(version: int) | RunSettles(failed: bool) | StartReturns | StopCalled

  function Schedule(s: State): State {
    if s.stopped || s.timer || s.running then s else s.(timer := true)
  }

  function Reconcile(s: State): State {
    if s.stopped then s
    else if s.running then s.(pending := true)
    else s.(running := true, starts := s.starts + 1)
  }

  function Start(version: int): State {
    Reconcile(State(false, false, false, false, version, false, false, NotAsked, 0, 0))
  }

  predicate Enabled(s: State, e: Event) {
    match e
    case TimerFires => s.timer
    case Announced(_) => !s.stopped
    case RunSettles(_) => s.running
    case StartReturns => s.firstSettled && !s.started
    case StopCalled => s.started
  }

  function React(s: State, e: Event): State {
    if !Enabled(s, e) then s
    else match e
      case TimerFires => Reconcile(s.(timer := false))
      case Announced(version) => if version <= s.observed then s else Reconcile(s.(observed := version))
      case RunSettles(failed) =>
        var t := s.(running := false, firstSettled := true,
                    stop := if s.stop == Waiting then (if failed then Rejected else Resolved) else s.stop);
        if t.pending then Reconcile(t.(pending := false)) else Schedule(t)
      case StartReturns => Schedule(s.(started := true))
      case StopCalled =>
        if s.stopped then s.(laterStops := s.laterStops + 1)
        else s.(stopped := true, timer := false, stop := if s.running then Waiting else Resolved)
  }

  function After(s: State, events: seq<Event>): State {
    if events == [] then s else React(After(s, events[..|events| - 1]), events[|events| - 1])
  }

  /** The controller always has a wake-up ahead of it: a run in progress or a timer armed. */
  predicate Inv(s: State) {
    && (!s.stopped ==> (s.timer || s.running) && s.stop == NotAsked && s.laterStops == 0)
    && (s.pending ==> s.running)
    && (s.stopped ==> !s.timer && s.started && s.stop != NotAsked && (s.stop == Waiting <==> s.running))
    && (s.started ==> s.firstSettled)
    && (!s.firstSettled ==> s.running)
  }

  lemma {:induction false} AlwaysInv(version: int, events: seq<Event>)
    ensures Inv(After(Start(version), events))
  {
    if events != [] { AlwaysInv(version, events[..|events| - 1]); }
  }

  /** Runs never overlap: one begins only when none is running, or as the previous one settles. */
  lemma RunsNeverOverlap(version: int, events: seq<Event>, e: Event)
    ensures var s := After(Start(version), events);
            React(s, e).starts != s.starts ==>
              React(s, e).starts == s.starts + 1 && (!s.running || e.RunSettles?)
  {
    AlwaysInv(version, events);
  }

  ghost predicate Quiet(events: seq<Event>) {
    forall i :: 0 <= i < |events| ==> !events[i].RunSettles? && events[i] != StopCalled
  }

  lemma {:induction false} PendingWaits(s: State, events: seq<Event>)
    requires Inv(s) && s.running && s.pending && !s.stopped && Quiet(events)
    ensures var t := After(s, events);
            Inv(t) && t.running && t.pending && !t.stopped && t.starts == s.starts
  {
    if events != [] { PendingWaits(s, events[..|events| - 1]); }
  }

  /** No lost wake-up: a newer version announced during a run leads, when that run settles, to
      exactly one run that begins after the announcement, however many events (further
      announcements and timers included) come in between. */
  lemma AnnouncementIsFollowed(version: int, before: seq<Event>, announced: int, between: seq<Event>, failed: bool)
    requires var s := After(Start(version), before); s.running && !s.stopped && announced > s.observed
    requires Quiet(between)
    ensures var s := After(Start(version), before);
            var t := React(After(React(s, Announced(announced)), between), RunSettles(failed));
            t.running && t.starts == s.starts + 1
  {
    AlwaysInv(version, before);
    var s := After(Start(version), before);
    PendingWaits(React(s, Announced(announced)), between);
  }

  /** A newer version announced between runs starts a run at once. */
  lemma IdleAnnouncementRuns(version: int, before: seq<Event>, announced: int)
    requires var s := After(Start(version), before); !s.running && !s.stopped && announced > s.observed
    ensures var s := After(Start(version), before);
            var t := React(s, Announced(announced));
            t.running && t.starts == s.starts + 1 && t.timer
  {
    AlwaysInv(version, before);
  }

  /** After a stop no run begins.  Once the first stop call has settled none is running either, and that
      lasts; until then the run it waits for is in progress. */
  lemma {:induction false} StopIsFinal(s: State, events: seq<Event>)
    requires Inv(s) && s.stopped
    ensures var t := After(s, events);
            && Inv(t) && t.stopped && t.starts == s.starts && (t.stop == Waiting <==> t.running)
            && (s.stop != Waiting ==> t.stop == s.stop && !t.running)
  {
    if events != [] { StopIsFinal(s, events[..|events| - 1]); }
  }

  /** The first stop call waits for the run in progress when it was made, and rejects exactly when that
      run fails. */
  lemma {:induction false} StopWaitsForItsRun(s: State, between: seq<Event>, failed: bool)
    requires Inv(s) && s.stop == Waiting
    requires forall i :: 0 <= i < |between| ==> !between[i].RunSettles?
    ensures After(s, between).stop == Waiting && After(s, between).running && Inv(After(s, between))
    ensures React(After(s, between), RunSettles(failed)).stop == if failed then Rejected else Resolved
  {
    if between != [] { StopWaitsForItsRun(s, between[..|between| - 1], failed); }
  }

  lemma AfterSnoc(s: State, events: seq<Event>, e: Event)
    ensures After(s, events + [e]) == React(After(s, events), e)
  {
    hide React;
    assert (events + [e])[..|events|] == events;
  }

  /** A later stop call is no barrier: it has returned here while the run that the first one waits for is
      still in progress.  By the invariant it is one exactly when the first call has settled. */
  lemma LaterStopReturnsEarly(version: int)
    ensures var s := After(Start(version), [RunSettles(false), StartReturns, TimerFires, StopCalled, StopCalled]);
            s.laterStops == 1 && s.running && s.stop == Waiting
  {
    var s := Start(version);
    var e1 := [] + [RunSettles(false)];
    var e2, e3 := e1 + [StartReturns], e1 + [StartReturns] + [TimerFires];
    var e4 := e3 + [StopCalled];
    assert After(s, []) == s;
    AfterSnoc(s, [], RunSettles(false));
    AfterSnoc(s, e1, StartReturns);
    AfterSnoc(s, e2, TimerFires);
    AfterSnoc(s, e3, StopCalled);
    AfterSnoc(s, e4, StopCalled);
    assert e4 + [StopCalled] == [RunSettles(false), StartReturns, TimerFires, StopCalled, StopCalled];
  }

  class Controller {
    var stopped: bool
    var timer: bool
    var running: bool
    var pending: bool
    var observedVersion: int
    var firstSettled: bool
    var started: bool
    var stop: StopPromise
    var laterStops: nat
    var starts: nat

    function View(): State
      reads this
    {
      State(stopped, timer, running, pending, observedVersion, firstSettled, started, stop, laterStops, starts)
    }

    constructor (version: int)
      ensures View() == Start(version) && Inv(View())
    {
      stopped, timer, running, pending, observedVersion := false, false, true, false, version;
      firstSettled, started, stop, laterStops, starts := false, false, NotAsked, 0, 1;
    }

    method Arm()
      modifies this`timer
      ensures View() == Schedule(old(View()))
    {
      if stopped || timer || running { return; }
      timer := true;
    }

    method BeginReconcile()
      modifies this`running, this`pending, this`starts
      ensures View() == Reconcile(old(View()))
    {
      if stopped { return; }
      if running {
        pending := true;
        return;
      }
      running := true;
      starts := starts + 1;
    }

    method OnTimer()
      requires Inv(View()) && timer
      modifies this
      ensures View() == React(old(View()), TimerFires) && Inv(View())
    {
      timer := false;
      BeginReconcile();
    }

    method OnAnnounced(version: int)
      requires Inv(View()) && !stopped
      modifies this
      ensures View() == React(old(View()), Announced(version)) && Inv(View())
    {
      if version <= observedVersion { return; }
      observedVersion := version;
      BeginReconcile();
    }

    method OnRunSettled(failed: bool)
      requires Inv(View()) && running
      modifies this
      ensures View() == React(old(View()), RunSettles(failed)) && Inv(View())
    {
      running := false;
      firstSettled := true;
      if stop == Waiting { stop := if failed then Rejected else Resolved; }
      if pending {
        pending := false;
        BeginReconcile();
      } else if !stopped {
        Arm();
      }
    }

    method OnStartReturned()
      requires Inv(View()) && firstSettled && !started
      modifies this
      ensures View() == React(old(View()), StartReturns) && Inv(View())
    {
      started := true;
      Arm();
    }

    method Stop()
      requires Inv(View()) && started
      modifies this
      ensures View() == React(old(View()), StopCalled) && Inv(View())
    {
      if stopped {
        laterStops := laterStops + 1;
        return;
      }
      stopped := true;
      timer := false;
      stop := if running then Waiting else Resolved;
    }

    /** Whatever wakes the controller. */
    method Dispatch(e: Event)
      requires Inv(View())
      modifies this
      ensures View() == React(old(View()), e) && Inv(View())
    {
      if !Enabled(View(), e) { return; }
      match e
      case TimerFires => OnTimer();
      case Announced(version) => OnAnnounced(version);
      case RunSettles(failed) => OnRunSettled(failed);
      case StartReturns => OnStartReturned();
      case StopCalled => Stop();
    }
  }

  /** A controller that has lived through these events is in the state that the theorems above are about. */
  method Live(version: int, events: seq<Event>) returns (controller: Controller)
    ensures controller.View() == After(Start(version), events) && Inv(controller.View())
  {
    controller := new Controller(version);
    for i := 0 to |events|
      invariant controller.View() == After(Start(version), events[..i]) && Inv(controller.View())
    {
      assert events[..i + 1][..i] == events[..i];
      controller.Dispatch(events[i]);
    }
    assert events[..|events|] == events;
  }
}
