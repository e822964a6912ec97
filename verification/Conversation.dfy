/** The conversation row and the guarded updates that claim, complete, suppress and release an
    automated turn.  Each update is one atomic step; any number of workers interleave them.

    A comparison with a null column is never true, as in SQL. */
module Conversation {
  import opened Common

  const PROCESSING_LEASE_MS := 120_000

  datatype ControlMode = AI | HUMAN

  /** `receipts` are the provider ids of the stored customer messages, which are unique. */
  datatype Row = Row(
    inboundVersion: nat, lastProcessedVersion: nat, lastInboundAt: Option<int>,
    pendingTurnStartedAt: Option<int>, pendingAiNotBeforeAt: Option<int>,
    pendingAiControlRevision: Option<int>, pendingAiDelayMinutes: Option<int>,
    controlMode: ControlMode, controlRevision: int,
    processingInboundVersion: Option<nat>, processingStartedAt: Option<int>,
    receipts: set<string>)

  /** A recovery conversation has a response delay in minutes; None is a missing settings row. */
  datatype Owner = General | Recovery(delayMinutes: Option<int>)

  datatype Step =
    | Receive(providerMessageId: string, receivedAt: int, owner: Owner)
    | Claim(observed: nat, now: int, expected: Option<int>)
    | Complete(observed: nat, expected: Option<int>)
    | Suppress(observed: nat, revision: int)
    | Release(observed: nat)
    | ControlChange(mode: ControlMode, revision: int)  // made by the merchant's application

  // ---------------------------------------------------------------- guards

  /** The AI control fence: nobody took the conversation over since the turn was opened. */
  predicate Fenced(r: Row, expected: Option<int>) {
    expected.Some? ==>
      r.controlMode == AI && r.controlRevision == expected.value && r.pendingAiControlRevision == expected
  }

  predicate CanClaim(r: Row, observed: nat, now: int, expected: Option<int>) {
    && r.inboundVersion == observed
    && r.lastProcessedVersion < observed
    && r.pendingTurnStartedAt.Some?
    && Fenced(r, expected)
    && (r.processingInboundVersion.None?
        || (r.processingStartedAt.Some? && r.processingStartedAt.value < now - PROCESSING_LEASE_MS))
  }

  predicate CanComplete(r: Row, observed: nat, expected: Option<int>) {
    r.inboundVersion == observed && r.processingInboundVersion == Some(observed) && Fenced(r, expected)
  }

  predicate CanSuppress(r: Row, observed: nat, revision: int) {
    && r.inboundVersion == observed
    && r.lastProcessedVersion < observed
    && r.pendingTurnStartedAt.Some?
    && (r.controlMode != AI || r.controlRevision != revision
        || (r.pendingAiControlRevision.Some? && r.pendingAiControlRevision.value != revision))
  }

  predicate DelayValid(owner: Owner) {
    owner.Recovery? && owner.delayMinutes.Some? ==> 0 <= owner.delayMinutes.value <= 30
  }

  function Delay(owner: Owner): int {
    if owner.Recovery? && owner.delayMinutes.Some? then owner.delayMinutes.value else 0
  }

  /** A message already stored changes nothing; a persisted delay out of range aborts the
      transaction, but only when it would be used. */
  predicate CanReceive(r: Row, id: string, owner: Owner) {
    id !in r.receipts && (r.controlMode == AI && r.pendingTurnStartedAt.None? ==> DelayValid(owner))
  }

  predicate Succeeds(r: Row, s: Step) {
    match s
    case Receive(id, _, owner) => CanReceive(r, id, owner)
    case Claim(observed, now, expected) => CanClaim(r, observed, now, expected)
    case Complete(observed, expected) => CanComplete(r, observed, expected)
    case Suppress(observed, revision) => CanSuppress(r, observed, revision)
    case Release(observed) => r.processingInboundVersion == Some(observed)
    case ControlChange(_, _) => true
  }

  // ---------------------------------------------------------------- updates

  function Cleared(r: Row, processed: nat): Row {
    r.(lastProcessedVersion := processed, pendingTurnStartedAt := None, pendingAiNotBeforeAt := None,
       pendingAiControlRevision := None, pendingAiDelayMinutes := None, processingInboundVersion := None,
       processingStartedAt := None)
  }

  function Later(a: Option<int>, b: int): Option<int> {
    if a.Some? && a.value > b then a else Some(b)
  }

  /** A message during human control is processed as it arrives; otherwise it opens a pending turn,
      or joins the one that is open. */
  function Received(r: Row, id: string, at: int, owner: Owner): Row {
    var bumped := r.(inboundVersion := r.inboundVersion + 1, receipts := r.receipts + {id},
                     lastInboundAt := Later(r.lastInboundAt, at));
    if r.controlMode == HUMAN then Cleared(bumped, bumped.inboundVersion)
    else if r.pendingTurnStartedAt.Some? then bumped
    else if owner.General? then bumped.(pendingTurnStartedAt := Some(at))
    else bumped.(pendingTurnStartedAt := Some(at),
                 pendingAiNotBeforeAt := Some(at + 60_000 * Delay(owner)),
                 pendingAiDelayMinutes := Some(Delay(owner)),
                 pendingAiControlRevision := Some(r.controlRevision))
  }

  function Apply(r: Row, s: Step): Row {
    if !Succeeds(r, s) then r
    else match s
      case Receive(id, at, owner) => Received(r, id, at, owner)
      case Claim(observed, now, _) => r.(processingInboundVersion := Some(observed), processingStartedAt := Some(now))
      case Complete(observed, _) => Cleared(r, observed)
      case Suppress(observed, _) => Cleared(r, observed)
      case Release(_) => r.(processingInboundVersion := None, processingStartedAt := None)
      case ControlChange(mode, revision) => r.(controlMode := mode, controlRevision := revision)
  }

  function After(r: Row, steps: seq<Step>): Row {
    if steps == [] then r else Apply(After(r, steps[..|steps| - 1]), steps[|steps| - 1])
  }

  // ---------------------------------------------------------------- invariant

  /** A turn is pending exactly while some version is unprocessed; a processing marker names such
      a version and has a start; the pending control fields belong to a pending turn. */
  ghost predicate Inv(r: Row) {
    && r.lastProcessedVersion <= r.inboundVersion
    && (r.pendingTurnStartedAt.Some? <==> r.lastProcessedVersion < r.inboundVersion)
    && (r.processingInboundVersion.Some? <==> r.processingStartedAt.Some?)
    && (r.processingInboundVersion.Some? ==>
          r.lastProcessedVersion < r.processingInboundVersion.value <= r.inboundVersion)
    && (r.pendingAiControlRevision.Some? ==> r.pendingTurnStartedAt.Some? && r.pendingAiNotBeforeAt.Some?)
  }

  lemma StepKeepsInv(r: Row, s: Step)
    requires Inv(r)
    ensures Inv(Apply(r, s))
    ensures r.inboundVersion <= Apply(r, s).inboundVersion
    ensures r.lastProcessedVersion <= Apply(r, s).lastProcessedVersion
  {}

  /** Over every interleaving the invariant holds and neither version ever goes back. */
  lemma {:induction false} RunKeepsInv(r: Row, steps: seq<Step>)
    requires Inv(r)
    ensures var t := After(r, steps);
            Inv(t) && r.inboundVersion <= t.inboundVersion && r.lastProcessedVersion <= t.lastProcessedVersion
  {
    if steps != [] {
      var n := |steps| - 1;
      RunKeepsInv(r, steps[..n]);
      StepKeepsInv(After(r, steps[..n]), steps[n]);
    }
  }

  lemma {:induction false} AfterSplit(r: Row, a: seq<Step>, b: seq<Step>)
    ensures After(r, a + b) == After(After(r, a), b)
  {
    if b == [] {
      assert a + b == a;
    } else {
      var n := |b| - 1;
      AfterSplit(r, a, b[..n]);
      assert (a + b)[..|a| + n] == a + b[..n];
    }
  }

  // ---------------------------------------------------------------- at most once

  /** The step finishes a version: it completes or suppresses it. */
  predicate Finishes(r: Row, s: Step, v: nat) {
    && Succeeds(r, s)
    && ((s.Complete? && s.observed == v) || (s.Suppress? && s.observed == v))
  }

  /** Each version is completed or suppressed at most once in a whole run, and finished versions
      come in increasing order. */
  lemma FinishedAtMostOnce(r: Row, steps: seq<Step>, i: nat, j: nat, v: nat, w: nat)
    requires Inv(r) && i < j < |steps|
    requires Finishes(After(r, steps[..i]), steps[i], v) && Finishes(After(r, steps[..j]), steps[j], w)
    ensures v < w
  {
    RunKeepsInv(r, steps[..i]);
    var mid := steps[i + 1..j];
    assert steps[..j] == steps[..i + 1] + mid && steps[..i + 1][..i] == steps[..i];
    AfterSplit(r, steps[..i + 1], mid);
    StepKeepsInv(After(r, steps[..i]), steps[i]);
    RunKeepsInv(After(r, steps[..i + 1]), mid);
  }

  /** Every stored message moves the version by exactly one, and nothing else moves it: a
      redelivered message never does. */
  lemma {:induction false} VersionCountsMessages(r: Row, steps: seq<Step>)
    ensures After(r, steps).inboundVersion - |After(r, steps).receipts| == r.inboundVersion - |r.receipts|
  {
    if steps != [] {
      VersionCountsMessages(r, steps[..|steps| - 1]);
    }
  }

  /** A version can be completed only by someone who claimed it, and only while no newer message
      has arrived and nobody took over. */
  lemma CompletionIsFenced(r: Row, observed: nat, expected: Option<int>)
    requires Inv(r) && CanComplete(r, observed, expected)
    ensures r.inboundVersion == observed && r.lastProcessedVersion < observed
    ensures expected.Some? ==> r.controlMode == AI && r.controlRevision == expected.value
    ensures !CanComplete(Apply(r, Complete(observed, expected)), observed, expected)
  {}

  // ---------------------------------------------------------------- the processing lease

  /** Exactly which steps end a claim of `v` taken at `at`: finishing or releasing that version,
      a message during human control, or another claim once the lease is more than two minutes
      old.  In particular nothing else a worker does can. */
  lemma ClaimEndsIff(r: Row, s: Step, v: nat, at: int)
    requires Inv(r) && r.processingInboundVersion == Some(v) && r.processingStartedAt == Some(at)
    requires !(s.Claim? && s.observed == v && s.now == at)
    ensures var t := Apply(r, s);
            !(t.processingInboundVersion == Some(v) && t.processingStartedAt == Some(at))
            <==> Succeeds(r, s) && ((s.Complete? && s.observed == v) || s.Suppress? || (s.Release? && s.observed == v)
                                    || (s.Receive? && r.controlMode == HUMAN) || s.Claim?)
    ensures s.Claim? && Succeeds(r, s) ==> at + PROCESSING_LEASE_MS < s.now
  {}

  /** The step ends whatever claim is current. */
  predicate EndsClaim(r: Row, s: Step) {
    Succeeds(r, s) && (s.Complete? || s.Suppress? || s.Release? || (s.Receive? && r.controlMode == HUMAN))
  }

  /** Two claims with nothing in between that ends the first are more than two minutes apart. */
  lemma {:induction false} ClaimsAreSpaced(r: Row, steps: seq<Step>, i: nat, j: nat)
    requires Inv(r) && i < j < |steps|
    requires steps[i].Claim? && Succeeds(After(r, steps[..i]), steps[i])
    requires steps[j].Claim? && Succeeds(After(r, steps[..j]), steps[j])
    requires forall k :: i < k < j ==> !EndsClaim(After(r, steps[..k]), steps[k])
    ensures steps[i].now + PROCESSING_LEASE_MS < steps[j].now
  {
    var at := MarkerStart(r, steps, i, j);
    RunKeepsInv(r, steps[..j]);
  }

  lemma MarkerPersists(r: Row, s: Step)
    requires Inv(r) && r.processingInboundVersion.Some? && !EndsClaim(r, s)
    ensures Apply(r, s).processingInboundVersion.Some? && Apply(r, s).processingStartedAt.Some?
    ensures Apply(r, s).processingStartedAt.value >= r.processingStartedAt.value
  {}

  /** Until something ends it, the marker's start is at least the first claim's time. */
  lemma {:induction false} MarkerStart(r: Row, steps: seq<Step>, i: nat, j: nat) returns (at: int)
    requires Inv(r) && i < j <= |steps|
    requires steps[i].Claim? && Succeeds(After(r, steps[..i]), steps[i])
    requires forall k :: i < k < j ==> !EndsClaim(After(r, steps[..k]), steps[k])
    ensures After(r, steps[..j]).processingInboundVersion.Some?
    ensures After(r, steps[..j]).processingStartedAt == Some(at) && steps[i].now <= at
  {
    hide EndsClaim, Inv, Apply, Succeeds;
    assert steps[..j][..j - 1] == steps[..j - 1];
    if j > i + 1 {
      at := MarkerStart(r, steps, i, j - 1);
      RunKeepsInv(r, steps[..j - 1]);
      MarkerPersists(After(r, steps[..j - 1]), steps[j - 1]);
    } else {
      ClaimMarks(After(r, steps[..i]), steps[i]);
    }
    at := After(r, steps[..j]).processingStartedAt.value;
  }

  lemma ClaimMarks(r: Row, s: Step)
    requires s.Claim? && Succeeds(r, s)
    ensures Apply(r, s).processingInboundVersion == Some(s.observed) && Apply(r, s).processingStartedAt == Some(s.now)
  {}

  /** The claim carries no owner, so mutual exclusion is not what the lease gives: a worker whose
      claim went stale can release the claim of its successor, and a third worker then claims the
      same version while the successor's lease is still running. */
  lemma StaleReleaseLetsTwoIn(r: Row)
    requires Inv(r) && r.lastProcessedVersion < r.inboundVersion && r.processingInboundVersion.None?
    ensures var v := r.inboundVersion;
            var first, second, third := Claim(v, 0, None), Claim(v, 120_001, None), Claim(v, 120_002, None);
            && Succeeds(r, first)
            && Succeeds(After(r, [first]), second)
            && Succeeds(After(r, [first, second]), Release(v))
            && Succeeds(After(r, [first, second, Release(v)]), third)
  {
    var v := r.inboundVersion;
    var first, second := Claim(v, 0, None), Claim(v, 120_001, None);
    assert [first][..0] == [] && [first, second][..1] == [first];
    assert [first, second, Release(v)][..2] == [first, second];
  }

  // ---------------------------------------------------------------- a second claim

  /** Some step between `i` and `j` released the version. */
  ghost predicate ReleasedBetween(r: Row, steps: seq<Step>, i: nat, j: nat, v: nat) {
    exists k :: i < k < j && k < |steps| && steps[k] == Release(v) && Succeeds(After(r, steps[..k]), steps[k])
  }

  /** Some step between `i` and `j` was a successful claim, of whatever version. */
  ghost predicate ClaimedBetween(r: Row, steps: seq<Step>, i: nat, j: nat) {
    exists k :: i < k < j && k < |steps| && steps[k].Claim? && Succeeds(After(r, steps[..k]), steps[k])
  }

  /** After a claim, while its version stays the newest and unprocessed and nobody else claims, the
      marker is the claim's own until the version is released, and then there is none. */
  lemma {:induction false} MarkerUntilRelease(r: Row, steps: seq<Step>, i: nat, j: nat)
    requires Inv(r) && i < j <= |steps| && steps[i].Claim? && Succeeds(After(r, steps[..i]), steps[i])
    requires !ClaimedBetween(r, steps, i, j)
    requires var t := After(r, steps[..j]);
             t.inboundVersion == steps[i].observed && t.lastProcessedVersion < steps[i].observed
    ensures var t := After(r, steps[..j]);
            if ReleasedBetween(r, steps, i, j, steps[i].observed) then t.processingInboundVersion == None
            else t.processingInboundVersion == Some(steps[i].observed) && t.processingStartedAt == Some(steps[i].now)
  {
    hide Inv, Apply, Succeeds, After, ReleasedBetween, ClaimedBetween;
    AfterTake(r, steps, j - 1);
    var before, s := After(r, steps[..j - 1]), steps[j - 1];
    if j == i + 1 {
      NothingBetween(r, steps, i, steps[i].observed);
      ClaimMarks(before, s);
      ClaimIsNewest(before, s);
    } else {
      VersionStays(r, steps, i, j - 1, j);
      BetweenGrows(r, steps, i, j, steps[i].observed);
      MarkerUntilRelease(r, steps, i, j - 1);
      RunKeepsInv(r, steps[..j - 1]);
      MarkerStep(before, s, steps[i].observed);
    }
  }

  lemma NothingBetween(r: Row, steps: seq<Step>, i: nat, v: nat)
    ensures !ReleasedBetween(r, steps, i, i + 1, v)
  {}

  lemma BetweenGrows(r: Row, steps: seq<Step>, i: nat, j: nat, v: nat)
    requires i + 1 < j <= |steps|
    ensures ReleasedBetween(r, steps, i, j, v)
            <==> ReleasedBetween(r, steps, i, j - 1, v)
                 || (steps[j - 1] == Release(v) && Succeeds(After(r, steps[..j - 1]), steps[j - 1]))
    ensures ClaimedBetween(r, steps, i, j)
            <==> ClaimedBetween(r, steps, i, j - 1)
                 || (steps[j - 1].Claim? && Succeeds(After(r, steps[..j - 1]), steps[j - 1]))
  {
    hide Succeeds, After;
    assert i < j - 1 < j;
  }

  /** If a claimed version is still the newest and unprocessed later on, it was so all the time. */
  lemma VersionStays(r: Row, steps: seq<Step>, i: nat, m: nat, j: nat)
    requires Inv(r) && i < m <= j <= |steps| && steps[i].Claim? && Succeeds(After(r, steps[..i]), steps[i])
    requires After(r, steps[..j]).inboundVersion == steps[i].observed
    requires After(r, steps[..j]).lastProcessedVersion < steps[i].observed
    ensures After(r, steps[..m]).inboundVersion == steps[i].observed
    ensures After(r, steps[..m]).lastProcessedVersion < steps[i].observed
  {
    hide Inv, Apply, Succeeds, After;
    RunKeepsInv(r, steps[..i + 1]);
    RunKeepsInv(r, steps[..m]);
    AfterTake(r, steps, i);
    ClaimIsNewest(After(r, steps[..i]), steps[i]);
    AfterMiddle(r, steps, i + 1, m);
    RunKeepsInv(After(r, steps[..i + 1]), steps[i + 1..m]);
    AfterMiddle(r, steps, m, j);
    RunKeepsInv(After(r, steps[..m]), steps[m..j]);
  }

  lemma AfterTake(r: Row, steps: seq<Step>, n: nat)
    requires n < |steps|
    ensures After(r, steps[..n + 1]) == Apply(After(r, steps[..n]), steps[n])
  {
    assert steps[..n + 1][..n] == steps[..n];
  }

  lemma AfterMiddle(r: Row, steps: seq<Step>, i: nat, j: nat)
    requires i <= j <= |steps|
    ensures After(r, steps[..j]) == After(After(r, steps[..i]), steps[i..j])
  {
    assert steps[..j] == steps[..i] + steps[i..j];
    AfterSplit(r, steps[..i], steps[i..j]);
  }

  lemma ClaimIsNewest(r: Row, s: Step)
    requires s.Claim? && Succeeds(r, s)
    ensures r.inboundVersion == s.observed && Apply(r, s).inboundVersion == s.observed
  {}

  /** A step other than a claim, after which the version is still the newest and unprocessed, leaves the
      marker of that version alone unless it releases it. */
  lemma MarkerStep(r: Row, s: Step, v: nat)
    requires Inv(r) && !(s.Claim? && Succeeds(r, s))
    requires r.inboundVersion == v && Apply(r, s).inboundVersion == v && Apply(r, s).lastProcessedVersion < v
    ensures s == Release(v) && Succeeds(r, s) ==> Apply(r, s).processingInboundVersion == None
    ensures !(s == Release(v) && Succeeds(r, s)) && r.processingInboundVersion in {None, Some(v)} ==>
              Apply(r, s).processingInboundVersion == r.processingInboundVersion
              && Apply(r, s).processingStartedAt == r.processingStartedAt
  {}

  /** Within two minutes of a claim, as long as its version is the newest and unprocessed and nobody
      claimed in between, the version can be claimed again if and only if it was released meanwhile: the
      lease excludes a second worker exactly until then, whoever released it. */
  lemma SecondClaimIff(r: Row, steps: seq<Step>, i: nat, j: nat, now: int)
    requires Inv(r) && i < j <= |steps| && steps[i].Claim? && Succeeds(After(r, steps[..i]), steps[i])
    requires !ClaimedBetween(r, steps, i, j) && now <= steps[i].now + PROCESSING_LEASE_MS
    requires var t := After(r, steps[..j]);
             t.inboundVersion == steps[i].observed && t.lastProcessedVersion < steps[i].observed
    ensures Succeeds(After(r, steps[..j]), Claim(steps[i].observed, now, None))
            <==> ReleasedBetween(r, steps, i, j, steps[i].observed)
  {
    hide ReleasedBetween, ClaimedBetween, After, Apply;
    MarkerUntilRelease(r, steps, i, j);
    RunKeepsInv(r, steps[..j]);
  }

  // ---------------------------------------------------------------- no stuck turn

  /** While a version stays pending, the revision captured when its turn was opened is frozen. */
  lemma {:induction false} CapturedRevisionIsFrozen(r: Row, steps: seq<Step>, v: nat)
    requires Inv(r) && r.inboundVersion == v && r.lastProcessedVersion < v
    requires After(r, steps).inboundVersion == v && After(r, steps).lastProcessedVersion < v
    ensures After(r, steps).pendingAiControlRevision == r.pendingAiControlRevision
    ensures After(r, steps).pendingTurnStartedAt == r.pendingTurnStartedAt
  {
    if steps != [] {
      var n := |steps| - 1;
      RunKeepsInv(r, steps[..n]);
      StepKeepsInv(After(r, steps[..n]), steps[n]);
      CapturedRevisionIsFrozen(r, steps[..n], v);
    }
  }

  /** A worker that read a pending turn with its captured revision can always bring it to an end,
      whatever happened since, as long as it is still the newest version and unprocessed: the
      suppression guard holds exactly when the fence does not. */
  lemma FencedOrSuppressible(r: Row, steps: seq<Step>, v: nat, revision: int)
    requires Inv(r) && r.inboundVersion == v && r.lastProcessedVersion < v
    requires r.pendingAiControlRevision == Some(revision)
    requires After(r, steps).inboundVersion == v && After(r, steps).lastProcessedVersion < v
    ensures CanSuppress(After(r, steps), v, revision) <==> !Fenced(After(r, steps), Some(revision))
    ensures CanSuppress(After(r, steps), v, revision)
            || CanComplete(After(r, steps), v, Some(revision))
            || After(r, steps).processingInboundVersion != Some(v)
  {
    CapturedRevisionIsFrozen(r, steps, v);
    RunKeepsInv(r, steps);
  }

  // ---------------------------------------------------------------- the settle window

  function Min(a: int, b: int): int { if a < b then a else b }

  function Max(a: int, b: int): int { if a > b then a else b }

  function OrElse(a: Option<int>, b: int): int { if a.Some? then a.value else b }

  /** How long to wait for the customer to stop typing. */
  function SettleDelay(r: Row, now: int, quietMs: int, maxMs: int): int
    requires quietMs <= maxMs
  {
    Max(0, Min(OrElse(r.lastInboundAt, now) + quietMs, OrElse(r.pendingTurnStartedAt, now) + maxMs) - now)
  }

  /** However many messages keep arriving, the turn settles at most `maxMs` after it was opened:
      its start does not move while it stays pending. */
  lemma {:induction false} SettlingIsBounded(r: Row, steps: seq<Step>, openedAt: int, now: int, quietMs: int,
                                             maxMs: int)
    requires Inv(r) && r.pendingTurnStartedAt == Some(openedAt) && quietMs <= maxMs
    requires After(r, steps).lastProcessedVersion == r.lastProcessedVersion
    ensures After(r, steps).pendingTurnStartedAt == Some(openedAt)
    ensures SettleDelay(After(r, steps), now, quietMs, maxMs) == 0
            || now + SettleDelay(After(r, steps), now, quietMs, maxMs) <= openedAt + maxMs
  {
    if steps != [] {
      var n := |steps| - 1;
      RunKeepsInv(r, steps[..n]);
      StepKeepsInv(After(r, steps[..n]), steps[n]);
      SettlingIsBounded(r, steps[..n], openedAt, now, quietMs, maxMs);
    }
  }

  datatype StaleReason = NewerVersionExists | AlreadyProcessed | NoPendingTurn

  function TurnStaleReason(r: Row, observed: nat): Option<StaleReason> {
    if observed < r.inboundVersion then Some(NewerVersionExists)
    else if observed <= r.lastProcessedVersion then Some(AlreadyProcessed)
    else if r.pendingTurnStartedAt.None? then Some(NoPendingTurn)
    else None
  }

  /** In reachable states a job that is not stale is for the newest version, which is unprocessed,
      and the third reason never arises for a version that exists. */
  lemma NotStaleIff(r: Row, observed: nat)
    requires Inv(r) && observed <= r.inboundVersion
    ensures TurnStaleReason(r, observed) == None <==> observed == r.inboundVersion && r.lastProcessedVersion < observed
    ensures TurnStaleReason(r, observed) != Some(NoPendingTurn)
  {}

  // ---------------------------------------------------------------- the stored row

  class ConversationRow {
    var inboundVersion: nat
    var lastProcessedVersion: nat
    var lastInboundAt: Option<int>
    var pendingTurnStartedAt: Option<int>
    var pendingAiNotBeforeAt: Option<int>
    var pendingAiControlRevision: Option<int>
    var pendingAiDelayMinutes: Option<int>
    var controlMode: ControlMode
    var controlRevision: int
    var processingInboundVersion: Option<nat>
    var processingStartedAt: Option<int>
    var receipts: set<string>

    constructor ()
      ensures Inv(View()) && View() == Row(0, 0, None, None, None, None, None, AI, 0, None, None, {})
    {
      inboundVersion, lastProcessedVersion, lastInboundAt := 0, 0, None;
      pendingTurnStartedAt, pendingAiNotBeforeAt := None, None;
      pendingAiControlRevision, pendingAiDelayMinutes := None, None;
      controlMode, controlRevision := AI, 0;
      processingInboundVersion, processingStartedAt := None, None;
      receipts := {};
    }

    function View(): Row
      reads this
    {
      Row(inboundVersion, lastProcessedVersion, lastInboundAt, pendingTurnStartedAt, pendingAiNotBeforeAt,
          pendingAiControlRevision, pendingAiDelayMinutes, controlMode, controlRevision,
          processingInboundVersion, processingStartedAt, receipts)
    }

    method ClearTurn(processed: nat)
      modifies this
      ensures View() == Cleared(old(View()), processed)
    {
      lastProcessedVersion := processed;
      pendingTurnStartedAt, pendingAiNotBeforeAt := None, None;
      pendingAiControlRevision, pendingAiDelayMinutes := None, None;
      processingInboundVersion, processingStartedAt := None, None;
    }

    /** The version the message got, or the current one for a redelivery; None when the
        transaction aborted. */
    method ReceiveMessage(providerMessageId: string, receivedAt: int, owner: Owner) returns (version: Option<nat>)
      requires Inv(View())
      modifies this
      ensures View() == Apply(old(View()), Receive(providerMessageId, receivedAt, owner)) && Inv(View())
      ensures version == if providerMessageId in old(receipts)
                            || Succeeds(old(View()), Receive(providerMessageId, receivedAt, owner))
                         then Some(inboundVersion) else None
    {
      if providerMessageId in receipts { return Some(inboundVersion); }
      if controlMode == HUMAN {
        inboundVersion := inboundVersion + 1;
        ClearTurn(inboundVersion);
      } else {
        if pendingTurnStartedAt.None? {
          if owner.Recovery? {
            var minutes := if owner.delayMinutes.None? then 0 else owner.delayMinutes.value;
            if minutes < 0 || minutes > 30 { return None; }
            pendingAiNotBeforeAt := Some(receivedAt + 60_000 * minutes);
            pendingAiDelayMinutes := Some(minutes);
            pendingAiControlRevision := Some(controlRevision);
          }
          pendingTurnStartedAt := Some(receivedAt);
        }
        inboundVersion := inboundVersion + 1;
      }
      receipts := receipts + {providerMessageId};
      lastInboundAt := Later(lastInboundAt, receivedAt);
      return Some(inboundVersion);
    }

    method ClaimTurn(observed: nat, now: int, expected: Option<int>) returns (claimed: bool)
      requires Inv(View())
      modifies this
      ensures View() == Apply(old(View()), Claim(observed, now, expected)) && Inv(View())
      ensures claimed == Succeeds(old(View()), Claim(observed, now, expected))
    {
      var staleBefore := now - PROCESSING_LEASE_MS;
      claimed := inboundVersion == observed && lastProcessedVersion < observed && pendingTurnStartedAt.Some?
                 && (expected.None? || (controlMode == AI && controlRevision == expected.value
                                        && pendingAiControlRevision == expected))
                 && (processingInboundVersion.None?
                     || (processingStartedAt.Some? && processingStartedAt.value < staleBefore));
      if claimed {
        processingInboundVersion, processingStartedAt := Some(observed), Some(now);
      }
    }

    method CompleteTurn(observed: nat, expected: Option<int>) returns (completed: bool)
      requires Inv(View())
      modifies this
      ensures View() == Apply(old(View()), Complete(observed, expected)) && Inv(View())
      ensures completed == Succeeds(old(View()), Complete(observed, expected))
    {
      completed := inboundVersion == observed && processingInboundVersion == Some(observed)
                   && (expected.None? || (controlMode == AI && controlRevision == expected.value
                                          && pendingAiControlRevision == expected));
      if completed { ClearTurn(observed); }
    }

    method SuppressStaleTurn(observed: nat, revision: int) returns (suppressed: bool)
      requires Inv(View())
      modifies this
      ensures View() == Apply(old(View()), Suppress(observed, revision)) && Inv(View())
      ensures suppressed == Succeeds(old(View()), Suppress(observed, revision))
    {
      suppressed := inboundVersion == observed && lastProcessedVersion < observed && pendingTurnStartedAt.Some?
                    && (controlMode != AI || controlRevision != revision
                        || (pendingAiControlRevision.Some? && pendingAiControlRevision != Some(revision)));
      if suppressed { ClearTurn(observed); }
    }

    method ReleaseTurn(observed: nat)
      requires Inv(View())
      modifies this
      ensures View() == Apply(old(View()), Release(observed)) && Inv(View())
      ensures processingInboundVersion != Some(observed)
    {
      if processingInboundVersion == Some(observed) {
        processingInboundVersion, processingStartedAt := None, None;
      }
    }

    /** A worker's claim still stands: nothing newer arrived, the marker is its version's, and the
        lease has not run out. */
    method HasChanged(version: nat, now: int) returns (changed: bool)
      ensures !changed <==> inboundVersion == version && processingInboundVersion == Some(version)
                            && processingStartedAt.Some? && now < processingStartedAt.value + PROCESSING_LEASE_MS
    {
      changed := inboundVersion != version || processingInboundVersion != Some(version)
                 || processingStartedAt.None? || now - processingStartedAt.value >= PROCESSING_LEASE_MS;
    }

    /** The merchant's application changing who controls the conversation. */
    method ChangeControl(mode: ControlMode, revision: int)
      requires Inv(View())
      modifies this
      ensures View() == Apply(old(View()), ControlChange(mode, revision)) && Inv(View())
    {
      controlMode, controlRevision := mode, revision;
    }
  }
}
