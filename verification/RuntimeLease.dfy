/** The generation-fenced lease that lets one process at a time run a background task.

    Every statement is one atomic step at a time `now` read from the database clock, which never
    goes backwards.  Times are in milliseconds. */
module RuntimeLease {
  import opened Common

  const LEASE_DURATION := 120_000

  datatype Handle = Handle(name: string, ownerToken: string, generation: nat)

  datatype Row = Row(ownerToken: string, generation: nat, leaseUntil: nat, lastFinishedAt: Option<nat>)

  type Table = map<string, Row>

  predicate Matches(t: Table, h: Handle) {
    h.name in t && t[h.name].ownerToken == h.ownerToken && t[h.name].generation == h.generation
  }

  /** The handle is the current one and its lease has not expired. */
  predicate Live(t: Table, h: Handle, now: nat) {
    Matches(t, h) && t[h.name].leaseUntil > now
  }

  // ---------------------------------------------------------------- steps

  /** The cadence is None when the configuration row is missing, and then nobody acquires. */
  predicate CanAcquire(t: Table, name: string, now: nat, cadence: Option<nat>) {
    && cadence.Some?
    && (name in t ==>
          && t[name].leaseUntil <= now
          && (t[name].lastFinishedAt.Some? ==> t[name].lastFinishedAt.value + cadence.value <= now))
  }

  datatype Step =
    | Acquire(name: string, owner: string, cadence: Option<nat>)
    | Heartbeat(handle: Handle)
    | Release(handle: Handle)

  predicate Effective(t: Table, s: Step, now: nat) {
    match s
    case Acquire(name, owner, cadence) => CanAcquire(t, name, now, cadence)
    case Heartbeat(h) => Live(t, h, now)
    case Release(h) => Matches(t, h)
  }

  function Apply(t: Table, s: Step, now: nat): Table {
    if !Effective(t, s, now) then t
    else match s
      case Acquire(name, owner, _) =>
        if name in t then t[name := Row(owner, t[name].generation + 1, now + LEASE_DURATION, t[name].lastFinishedAt)]
        else t[name := Row(owner, 1, now + LEASE_DURATION, None)]
      case Heartbeat(h) => t[h.name := t[h.name].(leaseUntil := now + LEASE_DURATION)]
      case Release(h) => t[h.name := t[h.name].(leaseUntil := now, lastFinishedAt := Some(now))]
  }

  function Generation(t: Table, name: string): nat {
    if name in t then t[name].generation else 0
  }

  datatype Timed = Timed(step: Step, now: nat)

  /** The clock never goes backwards along a run, nor behind its start. */
  ghost predicate Clocked(from: nat, run: seq<Timed>) {
    && (forall i :: 0 <= i < |run| ==> from <= run[i].now)
    && (forall i, j :: 0 <= i < j < |run| ==> run[i].now <= run[j].now)
  }

  function After(t: Table, run: seq<Timed>): Table {
    if run == [] then t
    else Apply(After(t, run[..|run| - 1]), run[|run| - 1].step, run[|run| - 1].now)
  }

  lemma AfterTake(t: Table, run: seq<Timed>, n: nat)
    requires n < |run|
    ensures After(t, run[..n + 1]) == Apply(After(t, run[..n]), run[n].step, run[n].now)
  {
    assert run[..n + 1][..n] == run[..n];
  }

  lemma {:induction false} AfterSplit(t: Table, a: seq<Timed>, b: seq<Timed>)
    ensures After(t, a + b) == After(After(t, a), b)
  {
    if b == [] {
      assert a + b == a;
    } else {
      var n := |b| - 1;
      AfterSplit(t, a, b[..n]);
      assert (a + b)[..|a| + n] == a + b[..n];
    }
  }

  /** Times stored in the table are not in the future. */
  ghost predicate Recorded(t: Table, now: nat) {
    forall name :: name in t && t[name].lastFinishedAt.Some? ==> t[name].lastFinishedAt.value <= now
  }

  /** The handle is superseded, or no longer live: it was issued and its lease is over. */
  predicate Over(t: Table, h: Handle, now: nat) {
    && h.name in t
    && (t[h.name].generation > h.generation
        || (t[h.name].generation == h.generation
            && (t[h.name].ownerToken != h.ownerToken || t[h.name].leaseUntil <= now)))
  }

  // ---------------------------------------------------------------- fencing

  /** One step: the generation moves by exactly one on an acquisition and not otherwise, and the
      recorded finish never moves back. */
  lemma StepFacts(t: Table, s: Step, now: nat, name: string)
    requires Recorded(t, now)
    ensures Recorded(Apply(t, s, now), now)
    ensures Generation(Apply(t, s, now), name)
            == Generation(t, name) + if s.Acquire? && s.name == name && Effective(t, s, now) then 1 else 0
    ensures name in t ==> name in Apply(t, s, now)
    ensures name in t && t[name].lastFinishedAt.Some? ==>
      Apply(t, s, now)[name].lastFinishedAt.Some?
      && t[name].lastFinishedAt.value <= Apply(t, s, now)[name].lastFinishedAt.value
  {}

  lemma {:induction false} RunFacts(t: Table, from: nat, run: seq<Timed>, name: string)
    requires Recorded(t, from) && Clocked(from, run)
    ensures Recorded(After(t, run), if run == [] then from else run[|run| - 1].now)
    ensures Generation(After(t, run), name) >= Generation(t, name)
    ensures name in t ==> name in After(t, run)
    ensures name in t && t[name].lastFinishedAt.Some? ==>
      After(t, run)[name].lastFinishedAt.Some?
      && t[name].lastFinishedAt.value <= After(t, run)[name].lastFinishedAt.value
  {
    if run != [] {
      var n := |run| - 1;
      RunFacts(t, from, run[..n], name);
      StepFacts(After(t, run[..n]), run[n].step, run[n].now, name);
    }
  }

  /** The handle an effective acquisition returns. */
  function Issued(t: Table, s: Step, now: nat): Handle
    requires s.Acquire? && Effective(t, s, now)
  {
    Handle(s.name, s.owner, Generation(t, s.name) + 1)
  }

  /** A lease that is over stays over: once a heartbeat has failed, no later heartbeat of that
      handle succeeds, in any run. */
  lemma {:induction false} LossIsPermanent(t: Table, from: nat, run: seq<Timed>, h: Handle)
    requires Clocked(from, run) && Over(t, h, from)
    ensures var now := if run == [] then from else run[|run| - 1].now;
            Over(After(t, run), h, now) && !Live(After(t, run), h, now)
  {
    if run != [] {
      var n := |run| - 1;
      LossIsPermanent(t, from, run[..n], h);
      var u, now := After(t, run[..n]), run[n].now;
      assert Over(u, h, now);
    }
  }

  /** An acquisition finds every earlier handle dead and ends it for good. */
  lemma AcquisitionSupersedes(t: Table, s: Step, now: nat, h: Handle)
    requires s.Acquire? && Effective(t, s, now)
    requires h.name == s.name && h.name in t && h.generation <= t[h.name].generation
    ensures !Live(t, h, now) && Over(Apply(t, s, now), h, now)
    ensures Live(Apply(t, s, now), Issued(t, s, now), now) && h.generation < Issued(t, s, now).generation
  {}

  lemma OverHasNoEffect(t: Table, h: Handle, now: nat, s: Step)
    requires Generation(t, h.name) > h.generation && (s == Heartbeat(h) || s == Release(h))
    ensures Apply(t, s, now) == t
  {}

  /** Mutual exclusion and fencing.  When a second process acquires the lease, the first handle
      is dead, the two handles differ, and from then on nothing the first handle does has any
      effect, whatever happens in between. */
  lemma NewHolderFencesOld(t: Table, from: nat, run: seq<Timed>, i: nat, j: nat, later: Step)
    requires Recorded(t, from) && Clocked(from, run) && i < j < |run|
    requires run[i].step.Acquire? && Effective(After(t, run[..i]), run[i].step, run[i].now)
    requires run[j].step.Acquire? && Effective(After(t, run[..j]), run[j].step, run[j].now)
    requires run[i].step.name == run[j].step.name
    ensures var h := Issued(After(t, run[..i]), run[i].step, run[i].now);
            var k := Issued(After(t, run[..j]), run[j].step, run[j].now);
            && h.generation < k.generation
            && !Live(After(t, run[..j]), h, run[j].now)
            && Live(After(t, run[..j + 1]), k, run[j].now)
            && ((later == Heartbeat(h) || later == Release(h)) ==>
                  Apply(After(t, run), later, run[|run| - 1].now) == After(t, run))
  {
    var h := Issued(After(t, run[..i]), run[i].step, run[i].now);
    RunFactsBetween(t, from, run, i, j, run[i].step.name);
    hide After, Apply, Effective, Over, Live, Recorded, Clocked;
    AfterTake(t, run, j);
    AcquisitionSupersedes(After(t, run[..j]), run[j].step, run[j].now, h);
    FencedAfter(t, from, run, j, h);
    if later == Heartbeat(h) || later == Release(h) {
      OverHasNoEffect(After(t, run), h, run[|run| - 1].now, later);
    }
  }

  /** From an acquisition on, every earlier generation is superseded. */
  lemma FencedAfter(t: Table, from: nat, run: seq<Timed>, j: nat, h: Handle)
    requires Clocked(from, run) && j < |run| && Recorded(After(t, run[..j]), run[j].now)
    requires run[j].step.Acquire? && Effective(After(t, run[..j]), run[j].step, run[j].now)
    requires h.name == run[j].step.name && h.generation <= Generation(After(t, run[..j]), h.name)
    ensures Generation(After(t, run), h.name) > h.generation
  {
    hide After, Apply, Effective, Recorded;
    var tail := run[j + 1..];
    assert run == run[..j + 1] + tail;
    AfterTake(t, run, j);
    AfterSplit(t, run[..j + 1], tail);
    StaysSuperseded(After(t, run[..j]), run[j], tail, h);
  }

  lemma StaysSuperseded(t: Table, acquire: Timed, tail: seq<Timed>, h: Handle)
    requires Clocked(acquire.now, tail) && Recorded(t, acquire.now)
    requires acquire.step.Acquire? && Effective(t, acquire.step, acquire.now)
    requires h.name == acquire.step.name && h.generation <= Generation(t, h.name)
    ensures Generation(After(Apply(t, acquire.step, acquire.now), tail), h.name) > h.generation
  {
    StepFacts(t, acquire.step, acquire.now, h.name);
    RunFacts(Apply(t, acquire.step, acquire.now), acquire.now, tail, h.name);
  }

  /** What holds from just after step `i` up to just before step `j`. */
  lemma Segment(t: Table, from: nat, run: seq<Timed>, i: nat, j: nat, name: string)
    requires Recorded(t, from) && Clocked(from, run) && i < j <= |run|
    ensures var u := After(t, run[..i + 1]);
            && u == Apply(After(t, run[..i]), run[i].step, run[i].now)
            && Generation(After(t, run[..j]), name) >= Generation(u, name)
            && (name in u ==> name in After(t, run[..j]))
            && (name in u && u[name].lastFinishedAt.Some? ==>
                  After(t, run[..j])[name].lastFinishedAt.Some?
                  && u[name].lastFinishedAt.value <= After(t, run[..j])[name].lastFinishedAt.value)
  {
    hide After, Apply, Recorded;
    AfterTake(t, run, i);
    RunFacts(t, from, run[..i + 1], name);
    var tail := run[i + 1..j];
    assert run[..j] == run[..i + 1] + tail;
    AfterSplit(t, run[..i + 1], tail);
    RunFacts(After(t, run[..i + 1]), run[i].now, tail, name);
  }

  lemma RunFactsBetween(t: Table, from: nat, run: seq<Timed>, i: nat, j: nat, name: string)
    requires Recorded(t, from) && Clocked(from, run) && i < j < |run|
    requires run[i].step.Acquire? && run[i].step.name == name && Effective(After(t, run[..i]), run[i].step, run[i].now)
    ensures name in After(t, run[..j])
    ensures Generation(After(t, run[..j]), name) >= Generation(After(t, run[..i]), name) + 1
    ensures Recorded(After(t, run[..j]), run[j].now)
  {
    hide After;
    Segment(t, from, run, i, j, name);
    RunFacts(t, from, run[..j], name);
  }

  /** At any moment at most one handle of a name is live. */
  lemma OneLiveHandle(t: Table, h: Handle, k: Handle, now: nat)
    requires h.name == k.name && Live(t, h, now) && Live(t, k, now)
    ensures h == k
  {}

  /** The cadence: no acquisition comes earlier than any effective release plus the cadence that
      the acquisition reads. */
  lemma CadenceIsKept(t: Table, from: nat, run: seq<Timed>, i: nat, j: nat)
    requires Recorded(t, from) && Clocked(from, run) && i < j < |run|
    requires run[i].step.Release? && Effective(After(t, run[..i]), run[i].step, run[i].now)
    requires run[j].step.Acquire? && Effective(After(t, run[..j]), run[j].step, run[j].now)
    requires run[i].step.handle.name == run[j].step.name
    ensures run[i].now + run[j].step.cadence.value <= run[j].now
  {
    Segment(t, from, run, i, j, run[j].step.name);
  }

  lemma StepKeepsHolder(t: Table, s: Step, now: nat, h: Handle)
    requires Live(t, h, now) && s != Release(h)
    ensures Matches(Apply(t, s, now), h)
  {}

  /** A holder that keeps its lease unexpired keeps it: as long as the handle is live whenever a
      step happens and no step is its own release, it stays current. */
  lemma {:induction false} HeldWhileRenewed(t: Table, run: seq<Timed>, h: Handle)
    requires Matches(t, h)
    requires forall i :: 0 <= i < |run| && Matches(After(t, run[..i]), h) ==>
      Live(After(t, run[..i]), h, run[i].now) && run[i].step != Release(h)
    ensures Matches(After(t, run), h)
  {
    hide Apply, Live, Matches;
    if run != [] {
      var n := |run| - 1;
      forall i | 0 <= i <= n
        ensures run[..n][..i] == run[..i]
      {}
      HeldWhileRenewed(t, run[..n], h);
      StepKeepsHolder(After(t, run[..n]), run[n].step, run[n].now, h);
    }
  }

  /** When the handle was last renewed before step `i`; `acquiredAt` if it was not. */
  function LastBeat(acquiredAt: nat, run: seq<Timed>, h: Handle, i: nat): nat
    requires i <= |run|
  {
    if i == 0 then acquiredAt
    else if run[i - 1].step == Heartbeat(h) then run[i - 1].now
    else LastBeat(acquiredAt, run, h, i - 1)
  }

  lemma StepKeepsLease(t: Table, s: Step, now: nat, h: Handle, beat: nat)
    requires Matches(t, h) && t[h.name].leaseUntil == beat + LEASE_DURATION && now < beat + LEASE_DURATION
    requires s != Release(h)
    ensures Matches(Apply(t, s, now), h)
    ensures Apply(t, s, now)[h.name].leaseUntil == (if s == Heartbeat(h) then now else beat) + LEASE_DURATION
  {}

  /** A holder keeps the lease, whatever the others try, as long as it renews within two minutes of the
      acquisition or of its last renewal: nothing happens later than that, and it does not release. */
  lemma {:induction false} HeldByHeartbeats(t: Table, acquiredAt: nat, run: seq<Timed>, h: Handle)
    requires Matches(t, h) && t[h.name].leaseUntil == acquiredAt + LEASE_DURATION
    requires forall i :: 0 <= i < |run| ==>
               run[i].now < LastBeat(acquiredAt, run, h, i) + LEASE_DURATION && run[i].step != Release(h)
    ensures Matches(After(t, run), h)
    ensures After(t, run)[h.name].leaseUntil == LastBeat(acquiredAt, run, h, |run|) + LEASE_DURATION
  {
    hide Apply, Matches;
    if run != [] {
      var n := |run| - 1;
      forall i | 0 <= i <= n
        ensures LastBeat(acquiredAt, run[..n], h, i) == LastBeat(acquiredAt, run, h, i)
      {
        LastBeatOfPrefix(acquiredAt, run, h, n, i);
      }
      HeldByHeartbeats(t, acquiredAt, run[..n], h);
      StepKeepsLease(After(t, run[..n]), run[n].step, run[n].now, h, LastBeat(acquiredAt, run, h, n));
    }
  }

  lemma {:induction false} LastBeatOfPrefix(acquiredAt: nat, run: seq<Timed>, h: Handle, n: nat, i: nat)
    requires i <= n <= |run|
    ensures LastBeat(acquiredAt, run[..n], h, i) == LastBeat(acquiredAt, run, h, i)
  {
    if i > 0 { LastBeatOfPrefix(acquiredAt, run, h, n, i - 1); }
  }

  class LeaseService {
    var table: Table
    const ownerToken: string

    constructor (ownerToken: string)
      ensures table == map[] && this.ownerToken == ownerToken
    {
      this.ownerToken := ownerToken;
      table := map[];
    }

    method TryAcquire(name: string, now: nat, cadence: Option<nat>) returns (handle: Option<Handle>)
      modifies this`table
      ensures table == Apply(old(table), Acquire(name, ownerToken, cadence), now)
      ensures handle == if Effective(old(table), Acquire(name, ownerToken, cadence), now)
                        then Some(Issued(old(table), Acquire(name, ownerToken, cadence), now)) else None
    {
      if cadence.None? { return None; }
      if name !in table {
        table := table[name := Row(ownerToken, 1, now + LEASE_DURATION, None)];
        return Some(Handle(name, ownerToken, 1));
      }
      var row := table[name];
      if row.leaseUntil <= now && (row.lastFinishedAt.None? || row.lastFinishedAt.value + cadence.value <= now) {
        var generation := row.generation + 1;
        table := table[name := Row(ownerToken, generation, now + LEASE_DURATION, row.lastFinishedAt)];
        return Some(Handle(name, ownerToken, generation));
      }
      return None;
    }

    method Renew(handle: Handle, now: nat) returns (valid: bool)
      modifies this`table
      ensures table == Apply(old(table), Heartbeat(handle), now)
      ensures valid == Live(old(table), handle, now)
      ensures !valid && handle.name in table && handle.generation <= table[handle.name].generation ==>
                Over(table, handle, now)
    {
      valid := handle.name in table && table[handle.name].ownerToken == handle.ownerToken
               && table[handle.name].generation == handle.generation && table[handle.name].leaseUntil > now;
      if valid {
        table := table[handle.name := table[handle.name].(leaseUntil := now + LEASE_DURATION)];
      }
    }

    method Finish(handle: Handle, now: nat) returns (released: bool)
      modifies this`table
      ensures table == Apply(old(table), Release(handle), now)
      ensures released == Matches(old(table), handle)
      ensures released ==> Over(table, handle, now)
    {
      released := handle.name in table && table[handle.name].ownerToken == handle.ownerToken
                  && table[handle.name].generation == handle.generation;
      if released {
        table := table[handle.name := table[handle.name].(leaseUntil := now, lastFinishedAt := Some(now))];
      }
    }
  }

  // ---------------------------------------------------------------- runWithLease

  /** Working while the task runs; Draining while a heartbeat in flight is awaited after it; then
      Released, Kept (the lease was lost, so it is left alone) or Aborted (the awaited heartbeat
      rejected, so the release was never reached). */
  datatype Phase = Working | Draining | ReleasedIt | Kept | Aborted

  datatype Runner = Runner(leaseLost: bool, closed: bool, timer: bool, inFlight: bool, phase: Phase)

  datatype Event = TimerFires | HeartbeatAnswers(valid: bool) | HeartbeatRejects | WorkSettles

  const STARTED := Runner(false, false, true, false, Working)

  predicate Enabled(r: Runner, e: Event) {
    match e
    case TimerFires => r.timer
    case HeartbeatAnswers(_) => r.inFlight
    case HeartbeatRejects => r.inFlight
    case WorkSettles => r.phase == Working
  }

  /** Arms the next heartbeat unless the run is over or lost. */
  function HeartbeatLoop(r: Runner): Runner {
    if r.closed || r.leaseLost then r else r.(timer := true)
  }

  function EndRun(r: Runner): Runner {
    r.(phase := if r.leaseLost then Kept else ReleasedIt)
  }

  /** Events that cannot happen in a state leave it as it is. */
  function React(r: Runner, e: Event): Runner {
    if !Enabled(r, e) then r
    else match e
      case TimerFires => r.(timer := false, inFlight := true)
      case HeartbeatAnswers(valid) =>
        var s := HeartbeatLoop(r.(leaseLost := r.leaseLost || !valid, inFlight := false));
        if s.phase == Draining then EndRun(s) else s
      case HeartbeatRejects =>
        var s := HeartbeatLoop(r.(inFlight := false));
        if s.phase == Draining then s.(phase := Aborted) else s
      case WorkSettles =>
        var s := r.(closed := true, timer := false);
        if s.inFlight then s.(phase := Draining) else EndRun(s)
  }

  function ReactAll(events: seq<Event>): Runner {
    if events == [] then STARTED else React(ReactAll(events[..|events| - 1]), events[|events| - 1])
  }

  /** Some heartbeat of the run was answered "not yours any more". */
  function LossReported(events: seq<Event>): bool {
    if events == [] then false
    else
      var n := |events| - 1;
      LossReported(events[..n]) || (events[n] == HeartbeatAnswers(false) && ReactAll(events[..n]).inFlight)
  }

  /** The heartbeat that was in flight when the work settled rejected. */
  function LastHeartbeatRejected(events: seq<Event>): bool {
    if events == [] then false
    else
      var n := |events| - 1;
      LastHeartbeatRejected(events[..n]) || (events[n] == HeartbeatRejects && ReactAll(events[..n]).phase == Draining)
  }

  /** The closure variables of one run, updated by its event handlers. */
  class LeaseRun {
    var leaseLost: bool
    var closed: bool
    var timer: bool
    var heartbeatInFlight: bool
    var phase: Phase

    constructor ()
      ensures View() == STARTED
    {
      leaseLost, closed, timer, heartbeatInFlight, phase := false, false, true, false, Working;
    }

    function View(): Runner
      reads this
    {
      Runner(leaseLost, closed, timer, heartbeatInFlight, phase)
    }

    method ArmHeartbeat()
      modifies this`timer
      ensures View() == HeartbeatLoop(old(View()))
    {
      if closed || leaseLost { return; }
      timer := true;
    }

    method OnTimer()
      requires timer
      modifies this
      ensures View() == React(old(View()), TimerFires)
    {
      timer := false;
      heartbeatInFlight := true;
    }

    /** The heartbeat's answer, or its rejection; both re-arm the loop, and both wake the closing
        code when the work has already settled. */
    method OnHeartbeatSettled(answer: Option<bool>)
      requires heartbeatInFlight
      modifies this
      ensures View() == React(old(View()), if answer.Some? then HeartbeatAnswers(answer.value) else HeartbeatRejects)
    {
      if answer == Some(false) { leaseLost := true; }
      heartbeatInFlight := false;
      ArmHeartbeat();
      if phase == Draining {
        if answer.None? { phase := Aborted; return; }
        phase := if leaseLost then Kept else ReleasedIt;
      }
    }

    method OnWorkSettled()
      requires phase == Working
      modifies this
      ensures View() == React(old(View()), WorkSettles)
    {
      closed := true;
      timer := false;
      if heartbeatInFlight {
        phase := Draining;
      } else {
        phase := if leaseLost then Kept else ReleasedIt;
      }
    }
  }

  /** The shape of every reachable state. */
  predicate RunnerInv(r: Runner) {
    && !(r.timer && r.inFlight)
    && (r.closed <==> r.phase != Working)
    && (r.closed ==> !r.timer)
    && (r.phase == Draining ==> r.inFlight)
    && (r.phase != Working && r.phase != Draining ==> !r.inFlight)
    && (r.phase == Working && !r.leaseLost ==> r.timer || r.inFlight)
    && (r.phase == ReleasedIt ==> !r.leaseLost)
    && (r.phase == Kept ==> r.leaseLost)
    && (r.leaseLost ==> !r.timer && !r.inFlight && r.phase != Aborted)
  }

  /** For every order of timer, heartbeat and work events: at most one heartbeat is in flight and
      none is armed meanwhile; the chain of heartbeats never dies while the work runs and the
      lease is held; and the lease is released exactly when the run is over, no heartbeat reported
      its loss, and the last heartbeat did not reject. */
  lemma {:induction false} RunnerLaws(events: seq<Event>)
    ensures var r := ReactAll(events);
            && RunnerInv(r)
            && (r.leaseLost <==> LossReported(events))
            && (r.phase == Aborted <==> LastHeartbeatRejected(events))
            && (r.phase == ReleasedIt <==>
                  r.closed && r.phase != Draining && !LossReported(events) && !LastHeartbeatRejected(events))
  {
    if events != [] {
      RunnerLaws(events[..|events| - 1]);
    }
  }

  /** "Released iff no loss was reported" is not the whole truth: here no heartbeat reports a loss
      and the lease is still not released. */
  lemma RejectedHeartbeatSkipsRelease()
    ensures var events := [TimerFires, WorkSettles, HeartbeatRejects];
            ReactAll(events).phase == Aborted && !LossReported(events)
  {
    var events := [TimerFires, WorkSettles, HeartbeatRejects];
    assert events[..2] == [TimerFires, WorkSettles] && events[..2][..1] == [TimerFires];
    assert [TimerFires][..0] == [];
  }

  // ---------------------------------------------------------------- the runner on the table

  datatype Wake = TimerWakes | BeatAnswers | BeatRejects(applied: bool) | WorkReturns

  /** What other processes do, what wakes this one, and what the others do before it acts on that.  A
      heartbeat's statement runs at `now`, also when it rejects with its answer lost; a release runs at
      `closedAt`. */
  datatype Moment = Moment(others: seq<Timed>, now: nat, wake: Wake, meanwhile: seq<Timed>, closedAt: nat)

  /** The table that all processes share, and the closure variables of this one's run. */
  datatype World = World(table: Table, runner: Runner)

  /** The heartbeat statement of a moment, if one is in flight and reaches the table. */
  function Beat(w: World, h: Handle, m: Moment): seq<Timed> {
    if w.runner.inFlight && (m.wake.BeatAnswers? || m.wake == BeatRejects(true)) then [Timed(Heartbeat(h), m.now)]
    else []
  }

  /** What the closures see: a heartbeat is answered by the table as it is when its statement runs. */
  function Heard(w: World, h: Handle, m: Moment): Event {
    match m.wake
    case TimerWakes => TimerFires
    case BeatAnswers => HeartbeatAnswers(Live(After(w.table, m.others), h, m.now))
    case BeatRejects(_) => HeartbeatRejects
    case WorkReturns => WorkSettles
  }

  /** The release, made by the event that ends the run. */
  function Closing(w: World, h: Handle, m: Moment): seq<Timed> {
    if React(w.runner, Heard(w, h, m)).phase == ReleasedIt && w.runner.phase != ReleasedIt
    then [Timed(Release(h), m.closedAt)]
    else []
  }

  function BeforeClosing(w: World, h: Handle, m: Moment): seq<Timed> {
    m.others + Beat(w, h, m) + m.meanwhile
  }

  function Next(w: World, h: Handle, m: Moment): World {
    World(After(w.table, BeforeClosing(w, h, m) + Closing(w, h, m)), React(w.runner, Heard(w, h, m)))
  }

  function Lived(w: World, h: Handle, moments: seq<Moment>): World {
    if moments == [] then w
    else Next(Lived(w, h, moments[..|moments| - 1]), h, moments[|moments| - 1])
  }

  /** The steps of all processes, in order. */
  function Steps(w: World, h: Handle, moments: seq<Moment>): seq<Timed> {
    if moments == [] then []
    else
      var n := |moments| - 1;
      var u := Lived(w, h, moments[..n]);
      Steps(w, h, moments[..n]) + (BeforeClosing(u, h, moments[n]) + Closing(u, h, moments[n]))
  }

  /** Those of this process. */
  function Own(w: World, h: Handle, moments: seq<Moment>): seq<Timed> {
    if moments == [] then []
    else
      var n := |moments| - 1;
      var u := Lived(w, h, moments[..n]);
      Own(w, h, moments[..n]) + Beat(u, h, moments[n]) + Closing(u, h, moments[n])
  }

  function Events(w: World, h: Handle, moments: seq<Moment>): seq<Event> {
    if moments == [] then []
    else
      var n := |moments| - 1;
      Events(w, h, moments[..n]) + [Heard(Lived(w, h, moments[..n]), h, moments[n])]
  }

  /** Heartbeats of the handle, and at the very end its release if it was `released`. */
  ghost predicate BeatsThenRelease(own: seq<Timed>, h: Handle, released: bool) {
    && (released ==> own != [])
    && forall k :: 0 <= k < |own| ==>
         own[k].step == if released && k == |own| - 1 then Release(h) else Heartbeat(h)
  }

  function Acquired(t: Table, s: Step, now: nat): World { World(Apply(t, s, now), STARTED) }

  /** The table is that of all the steps, the closure variables are those of the events, and the process
      itself only renews the lease and at last releases it: once, if the run ends so. */
  lemma {:induction false} LivedIsItsSteps(t: Table, h: Handle, moments: seq<Moment>)
    ensures var w := World(t, STARTED);
            && Lived(w, h, moments).table == After(t, Steps(w, h, moments))
            && Lived(w, h, moments).runner == ReactAll(Events(w, h, moments))
            && |Events(w, h, moments)| == |moments|
            && BeatsThenRelease(Own(w, h, moments), h, Lived(w, h, moments).runner.phase == ReleasedIt)
  {
    hide After, React, Live, RunnerInv, BeatsThenRelease, Beat, Heard, Closing, BeforeClosing;
    var w := World(t, STARTED);
    if moments == [] {
      NothingYet(t, h);
    } else {
      var n := |moments| - 1;
      var u, m := Lived(w, h, moments[..n]), moments[n];
      LivedIsItsSteps(t, h, moments[..n]);
      AfterSplit(t, Steps(w, h, moments[..n]), BeforeClosing(u, h, m) + Closing(u, h, m));
      var events := Events(w, h, moments);
      assert events[..n] == Events(w, h, moments[..n]);
      RunnerLaws(events[..n]);
      OwnGrows(Own(w, h, moments[..n]), u, h, m);
    }
  }

  lemma NothingYet(t: Table, h: Handle)
    ensures After(t, []) == t && ReactAll([]) == STARTED && BeatsThenRelease([], h, false)
  {}

  lemma OwnGrows(own: seq<Timed>, w: World, h: Handle, m: Moment)
    requires RunnerInv(w.runner) && BeatsThenRelease(own, h, w.runner.phase == ReleasedIt)
    ensures BeatsThenRelease(own + Beat(w, h, m) + Closing(w, h, m), h, Next(w, h, m).runner.phase == ReleasedIt)
  {
    hide After, Live;
  }

  /** What the handle's row can still be after the acquisition: no older than the handle. */
  lemma HandleIsKnown(t: Table, acquire: Step, now: nat, run: seq<Timed>)
    requires Recorded(t, now) && Clocked(now, run) && acquire.Acquire? && Effective(t, acquire, now)
    ensures var h := Issued(t, acquire, now);
            var u := After(Apply(t, acquire, now), run);
            h.name in u && u[h.name].generation >= h.generation
  {
    StepFacts(t, acquire, now, acquire.name);
    RunFacts(Apply(t, acquire, now), now, run, acquire.name);
  }

  function LastTime(from: nat, run: seq<Timed>): nat {
    if run == [] then from else run[|run| - 1].now
  }

  /** A moment that loses the lease, or comes after a loss, leaves it over. */
  lemma MomentKeepsLoss(t: Table, acquire: Step, now: nat, w: World, before: seq<Timed>, m: Moment)
    requires Recorded(t, now) && acquire.Acquire? && Effective(t, acquire, now)
    requires w.table == After(Apply(t, acquire, now), before)
    requires var h := Issued(t, acquire, now);
             && Clocked(now, before + (BeforeClosing(w, h, m) + Closing(w, h, m)))
             && (Over(w.table, h, LastTime(now, before))
                 || (w.runner.inFlight && Heard(w, h, m) == HeartbeatAnswers(false)))
    ensures var h := Issued(t, acquire, now);
            Over(Next(w, h, m).table, h, LastTime(now, before + (BeforeClosing(w, h, m) + Closing(w, h, m))))
  {
    hide After, Apply, Effective, Over, Recorded, Heard, React, Live, Matches;
    var h := Issued(t, acquire, now);
    var steps := BeforeClosing(w, h, m) + Closing(w, h, m);
    if Over(w.table, h, LastTime(now, before)) {
      ClockedTail(now, before, steps);
      LossIsPermanent(w.table, LastTime(now, before), steps, h);
    } else {
      var tail := Beat(w, h, m) + m.meanwhile + Closing(w, h, m);
      assert steps == m.others + tail;
      assert before + steps == (before + m.others) + tail;
      AfterSplit(w.table, m.others, tail);
      ClockedTail(now, before + m.others, tail);
      AnswerMeansOver(t, acquire, now, w, before, m);
      assert Beat(w, h, m) == [Timed(Heartbeat(h), m.now)] by { HeardAnswer(w, h, m); }
      assert tail[0].now == m.now;
      LossIsPermanent(After(w.table, m.others), m.now, tail, h);
    }
  }

  lemma HeardAnswer(w: World, h: Handle, m: Moment)
    requires w.runner.inFlight && Heard(w, h, m).HeartbeatAnswers?
    ensures Beat(w, h, m) == [Timed(Heartbeat(h), m.now)]
    ensures Heard(w, h, m).valid == Live(After(w.table, m.others), h, m.now)
  {}

  lemma AnswerMeansOver(t: Table, acquire: Step, now: nat, w: World, before: seq<Timed>, m: Moment)
    requires Recorded(t, now) && acquire.Acquire? && Effective(t, acquire, now)
    requires w.table == After(Apply(t, acquire, now), before) && Clocked(now, before + m.others)
    requires w.runner.inFlight && Heard(w, Issued(t, acquire, now), m) == HeartbeatAnswers(false)
    ensures Over(After(w.table, m.others), Issued(t, acquire, now), m.now)
  {
    hide After, Apply, Effective, Recorded, React;
    AfterSplit(Apply(t, acquire, now), before, m.others);
    HandleIsKnown(t, acquire, now, before + m.others);
  }

  lemma ClockedTail(from: nat, a: seq<Timed>, b: seq<Timed>)
    requires Clocked(from, a + b)
    ensures Clocked(from, a) && Clocked(LastTime(from, a), b)
    ensures LastTime(from, a + b) == LastTime(LastTime(from, a), b)
  {
    forall i | 0 <= i < |a|
      ensures a[i] == (a + b)[i]
    {}
    forall i | 0 <= i < |b|
      ensures b[i] == (a + b)[|a| + i]
    {}
  }

  /** Once a heartbeat of the run has been answered "not yours any more", the lease is over and stays so:
      whatever anyone does, and the run itself no longer renews or releases it. */
  lemma {:induction false} ReportedLossIsOver(t: Table, acquire: Step, now: nat, moments: seq<Moment>)
    requires Recorded(t, now) && acquire.Acquire? && Effective(t, acquire, now)
    requires var h := Issued(t, acquire, now);
             var w := Acquired(t, acquire, now);
             Clocked(now, Steps(w, h, moments)) && LossReported(Events(w, h, moments))
    ensures var h := Issued(t, acquire, now);
            var w := Acquired(t, acquire, now);
            && Over(Lived(w, h, moments).table, h, LastTime(now, Steps(w, h, moments)))
            && Lived(w, h, moments).runner.phase != ReleasedIt
            && forall m :: Beat(Lived(w, h, moments), h, m) == [] && Closing(Lived(w, h, moments), h, m) == []
  {
    hide After, Apply, Effective, Over, Recorded, Heard, React, Live, Clocked, BeforeClosing, Next, Beat, Closing,
         RunnerInv, BeatsThenRelease;
    var h, w := Issued(t, acquire, now), Acquired(t, acquire, now);
    LivedIsItsSteps(w.table, h, moments);
    RunnerLaws(Events(w, h, moments));
    LostIsQuiet(Lived(w, h, moments), h);
    var n := |moments| - 1;
    var u, m, before := Lived(w, h, moments[..n]), moments[n], Steps(w, h, moments[..n]);
    LivedIsItsSteps(w.table, h, moments[..n]);
    assert Events(w, h, moments)[..n] == Events(w, h, moments[..n]);
    if LossReported(Events(w, h, moments[..n])) {
      ClockedTail(now, before, BeforeClosing(u, h, m) + Closing(u, h, m));
      ReportedLossIsOver(t, acquire, now, moments[..n]);
    }
    MomentKeepsLoss(t, acquire, now, u, before, m);
    assert Lived(w, h, moments) == Next(u, h, m);
  }

  lemma LostIsQuiet(w: World, h: Handle)
    requires RunnerInv(w.runner) && w.runner.leaseLost
    ensures w.runner.phase != ReleasedIt
    ensures forall m :: Beat(w, h, m) == [] && Closing(w, h, m) == []
  {
    hide Live, After;
  }

  /** How often the name was acquired in a run. */
  function Acquisitions(t: Table, run: seq<Timed>, name: string): nat {
    if run == [] then 0
    else
      var n := |run| - 1;
      Acquisitions(t, run[..n], name)
      + if run[n].step.Acquire? && run[n].step.name == name && Effective(After(t, run[..n]), run[n].step, run[n].now)
        then 1 else 0
  }

  lemma StepKeepsCurrent(t: Table, s: Step, now: nat, h: Handle)
    requires Matches(t, h)
    ensures Matches(Apply(t, s, now), h) <==> !(s.Acquire? && s.name == h.name && Effective(t, s, now))
  {}

  lemma StepKeepsSuperseded(t: Table, s: Step, now: nat, h: Handle)
    requires h.name in t && t[h.name].generation > h.generation
    ensures h.name in Apply(t, s, now) && Apply(t, s, now)[h.name].generation > h.generation
  {}

  /** A handle is current exactly as long as nobody acquires its name. */
  lemma {:induction false} CurrentIff(t: Table, run: seq<Timed>, h: Handle)
    requires Matches(t, h)
    ensures Matches(After(t, run), h) <==> Acquisitions(t, run, h.name) == 0
    ensures !Matches(After(t, run), h) ==>
              h.name in After(t, run) && After(t, run)[h.name].generation > h.generation
  {
    if run != [] {
      var n := |run| - 1;
      var u, s, now := After(t, run[..n]), run[n].step, run[n].now;
      CurrentIff(t, run[..n], h);
      if Matches(u, h) {
        StepKeepsCurrent(u, s, now, h);
        assert !Matches(Apply(u, s, now), h) ==> Apply(u, s, now)[h.name].generation > h.generation;
      } else {
        StepKeepsSuperseded(u, s, now, h);
      }
    }
  }

  /** The release that ends a run takes effect exactly if nobody has acquired the name since: then the
      lease ends and the finish is recorded, and otherwise the newer holder notices nothing. */
  lemma ReleaseTakesEffectIff(t: Table, acquire: Step, now: nat, moments: seq<Moment>, m: Moment)
    requires acquire.Acquire? && Effective(t, acquire, now)
    requires var h := Issued(t, acquire, now);
             Closing(Lived(Acquired(t, acquire, now), h, moments), h, m) != []
    ensures var h := Issued(t, acquire, now);
            var w := Acquired(t, acquire, now);
            var u := Lived(w, h, moments);
            var before := Steps(w, h, moments) + BeforeClosing(u, h, m);
            if Acquisitions(w.table, before, h.name) == 0
            then Matches(Next(u, h, m).table, h)
                 && Next(u, h, m).table[h.name] == Row(h.ownerToken, h.generation, m.closedAt, Some(m.closedAt))
            else Next(u, h, m).table == After(w.table, before)
  {
    hide After, Beat, Heard, React, BeforeClosing, Acquisitions, BeatsThenRelease, ReactAll, LossReported;
    var h, w := Issued(t, acquire, now), Acquired(t, acquire, now);
    var u := Lived(w, h, moments);
    LivedIsItsSteps(w.table, h, moments);
    AfterSplit(w.table, Steps(w, h, moments), BeforeClosing(u, h, m));
    AfterSplit(u.table, BeforeClosing(u, h, m), Closing(u, h, m));
    CurrentIff(w.table, Steps(w, h, moments) + BeforeClosing(u, h, m), h);
    AfterOne(After(u.table, BeforeClosing(u, h, m)), Closing(u, h, m));
  }

  lemma AfterOne(t: Table, run: seq<Timed>)
    requires |run| <= 1
    ensures After(t, run) == if run == [] then t else Apply(t, run[0].step, run[0].now)
  {
    if run != [] { assert run[..0] == []; }
  }

  lemma NoEffectNoChange(t: Table, s: Step, now: nat)
    requires !Effective(t, s, now)
    ensures Apply(t, s, now) == t
  {}

  /** One wake-up of the closures, among what the others do. */
  method Wakened(service: LeaseService, run: LeaseRun, handle: Handle, m: Moment)
    modifies service`table, run
    ensures World(service.table, run.View()) == Next(World(old(service.table), old(run.View())), handle, m)
  {
    hide After, Apply, Live;
    ghost var w := World(service.table, run.View());
    var ended := run.phase == ReleasedIt;
    service.table := After(service.table, m.others);
    var valid := false;
    if run.heartbeatInFlight && (m.wake.BeatAnswers? || m.wake == BeatRejects(true)) {
      AfterOne(service.table, Beat(w, handle, m));
      valid := service.Renew(handle, m.now);
    } else {
      AfterOne(service.table, Beat(w, handle, m));
    }
    AfterSplit(w.table, m.others, Beat(w, handle, m));
    AfterSplit(w.table, m.others + Beat(w, handle, m), m.meanwhile);
    service.table := After(service.table, m.meanwhile);
    assert service.table == After(w.table, BeforeClosing(w, handle, m));
    match m.wake {
      case TimerWakes => if run.timer { run.OnTimer(); }
      case BeatAnswers => if run.heartbeatInFlight { run.OnHeartbeatSettled(Some(valid)); }
      case BeatRejects(_) => if run.heartbeatInFlight { run.OnHeartbeatSettled(None); }
      case WorkReturns => if run.phase == Working { run.OnWorkSettled(); }
    }
    assert run.View() == React(w.runner, Heard(w, handle, m));
    AfterSplit(w.table, BeforeClosing(w, handle, m), Closing(w, handle, m));
    AfterOne(service.table, Closing(w, handle, m));
    if run.phase == ReleasedIt && !ended {
      var _ := service.Finish(handle, m.closedAt);
    }
  }

  /** One leased run: acquired once, then its closures among what all others do, with each heartbeat answered by
      the table.  What this process did itself is the acquisition, renewals of its handle and, if the laws of
      the runner say so, one release at the very end. */
  method RunWithLease(service: LeaseService, name: string, now: nat, cadence: Option<nat>, moments: seq<Moment>)
    returns (handle: Option<Handle>, run: Runner, ghost own: seq<Timed>)
    modifies service`table
    ensures var acquire := Acquire(name, service.ownerToken, cadence);
            && (handle.Some? <==> Effective(old(service.table), acquire, now))
            && own != [] && own[0] == Timed(acquire, now)
            && (handle.None? ==> service.table == old(service.table) && |own| == 1)
            && (handle.Some? ==>
                  var h := Issued(old(service.table), acquire, now);
                  var w := Acquired(old(service.table), acquire, now);
                  && handle == Some(h)
                  && World(service.table, run) == Lived(w, h, moments)
                  && service.table == After(old(service.table), [own[0]] + Steps(w, h, moments))
                  && run == ReactAll(Events(w, h, moments))
                  && own[1..] == Own(w, h, moments)
                  && BeatsThenRelease(own[1..], h, run.phase == ReleasedIt))
  {
    hide After, Apply, Live, BeatsThenRelease, React, Effective;
    var acquire := Acquire(name, service.ownerToken, cadence);
    ghost var start := service.table;
    own, run := [Timed(acquire, now)], STARTED;
    handle := service.TryAcquire(name, now, cadence);
    if handle.None? {
      NoEffectNoChange(start, acquire, now);
      return;
    }
    var closures := new LeaseRun();
    ghost var w := Acquired(start, acquire, now);
    for i := 0 to |moments|
      invariant World(service.table, closures.View()) == Lived(w, handle.value, moments[..i])
    {
      Wakened(service, closures, handle.value, moments[i]);
      assert moments[..i + 1][..i] == moments[..i];
    }
    assert moments[..|moments|] == moments;
    run := closures.View();
    LivedIsItsSteps(w.table, handle.value, moments);
    AfterOne(start, [own[0]]);
    AfterSplit(start, [own[0]], Steps(w, handle.value, moments));
    own := own + Own(w, handle.value, moments);
  }
}
