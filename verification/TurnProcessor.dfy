/** The worker that processes one conversation turn.

    Every awaited call is answered by an adversary: before the call takes effect other workers and
    the merchant do whatever they like to the row, then the call throws or returns anything. */
module TurnProcessor {
  import opened Common
  import opened Conversation

  /** A call fails with an ordinary error, or with the queue's own "delayed" signal. */
  datatype Fault = NoFault | Fails | Delays

  datatype Exception = Ordinary | Delayed(bySchedule: bool)

  datatype Gate = Pass | Suppressed | Retry

  datatype Loaded = Loaded(shopUnavailable: bool, recovery: bool, handledWithoutAgent: bool, clarification: bool)

  /** An admission reserves an outbound message; a terminal one bypasses the agent. */
  datatype Admission = Admitted(messageId: nat, terminal: bool) | NotAdmitted

  /** One answer; a call reads the part it needs. */
  datatype Answer = Answer(
    others: seq<Step>, fault: Fault, now: int, yes: bool, gate: Gate, loaded: Loaded, admission: Admission)

  /** What one awaited call is: reading the turn state, a guarded update of the row, asking who controls the
      conversation, looking for newer messages, loading the conversation, reserving a message, giving one up or
      handing one over, adding to the queue, or anything else. */
  datatype Kind =
    | ReadsState | Updates(step: Step) | ChecksControl | Looks | Loads | Reserves
    | FailsMessage(id: nat) | SendsMessage(id: nat) | Queues | Asks

  // ---------------------------------------------------------------- the record of a run

  /** What became of messages so far.  `grants` and `disposals` are the numbers of the calls that reserved a
      message and of those that hand over or give up; a call that throws has no effect, so a message whose
      disposal threw is in neither list.  `proper` says that the latest disposal named the message reserved by
      then, `sending` that it was a handing over, and the last two whether, when a message was handed over, the
      call just before had found AI control to hold, and the latest look had found no newer customer
      message. */
  datatype Messages = Messages(
    claimed: bool, reserved: Option<nat>, terminal: bool, grants: seq<nat>, disposals: seq<nat>, proper: bool,
    sending: bool, handedOver: seq<nat>, failed: seq<nat>, sentUnderControl: bool, sentWhenNewest: bool)
  {
    function Disposal(): Option<nat> {
      if disposals == [] then None else Some(disposals[|disposals| - 1])
    }
  }

  /** `settled` is set when the worker's claim on the version goes from the row through its own doing, by a
      suppression if `suppressed`; `completionTried` when it tried to complete the version; `release` is the
      number of its latest release call.  `captured` is the control revision first read, `controlHeld` says that
      the latest call found AI control to hold, `stillNewest` that the latest look found nothing newer.
      `afterwards` says that the latest call was one that only queues what is newer: reading the turn state or
      adding to the queue. */
  datatype Notes = Notes(
    settled: bool, suppressed: bool, completionTried: bool, release: Option<nat>, captured: Option<Option<int>>,
    clarification: bool, controlHeld: bool, stillNewest: bool, afterwards: bool)

  const NO_MESSAGES := Messages(false, None, false, [], [], false, false, [], [], false, false)

  const NOTHING_NOTED := Notes(false, false, false, None, None, false, false, false, false)

  /** The worker's claim on the version stands. */
  predicate Stands(r: Row, observed: nat, now: int) {
    r.inboundVersion == observed && r.processingInboundVersion == Some(observed)
    && r.processingStartedAt.Some? && now < r.processingStartedAt.value + PROCESSING_LEASE_MS
  }

  /** The worker itself updates the row only to claim, complete, suppress or release its version. */
  predicate OfTurn(kind: Kind, observed: nat) {
    kind.Updates? ==>
      (kind.step.Claim? || kind.step.Complete? || kind.step.Suppress? || kind.step.Release?)
      && kind.step.observed == observed
  }

  /** A call that returned ended the worker's claim: its completion or suppression found the row as
      needed, or it was a release. */
  predicate Ends(kind: Kind, r: Row, observed: nat) {
    && kind.Updates?
    && match kind.step
       case Complete(v, _) => v == observed && Succeeds(r, kind.step)
       case Suppress(v, _) => v == observed && Succeeds(r, kind.step)
       case Release(v) => v == observed
       case _ => false
  }

  function NotesAfter(n: Notes, k: nat, kind: Kind, a: Answer, r: Row, observed: nat): Notes {
    var returned := a.fault == NoFault;
    var ended := returned && Ends(kind, r, observed);
    Notes(
      n.settled || ended,
      n.suppressed || (ended && kind.step.Suppress?),
      n.completionTried || (returned && kind.Updates? && kind.step.Complete? && kind.step.observed == observed),
      if kind.Updates? && kind.step.Release? then Some(k) else n.release,
      if kind.ReadsState? && returned && n.captured.None? then Some(r.pendingAiControlRevision) else n.captured,
      n.clarification || (kind.Loads? && returned && a.loaded.clarification),
      kind.ChecksControl? && returned && a.yes,
      if kind.Looks? && returned then Stands(r, observed, a.now) else n.stillNewest,
      kind.ReadsState? || kind.Queues?)
  }

  function MessagesAfter(m: Messages, n: Notes, k: nat, kind: Kind, a: Answer, r: Row): Messages {
    var returned := a.fault == NoFault;
    var granted := kind.Reserves? && returned && a.admission.Admitted?;
    var disposes := kind.SendsMessage? || kind.FailsMessage?;
    Messages(
      m.claimed || (returned && kind.Updates? && kind.step.Claim? && Succeeds(r, kind.step)),
      if granted then Some(a.admission.messageId) else m.reserved,
      if granted then a.admission.terminal else m.terminal,
      if granted then m.grants + [k] else m.grants,
      if disposes then m.disposals + [k] else m.disposals,
      if disposes then m.reserved == Some(kind.id) else m.proper,
      if disposes then kind.SendsMessage? else m.sending,
      if kind.SendsMessage? && returned then m.handedOver + [kind.id] else m.handedOver,
      if kind.FailsMessage? && returned then m.failed + [kind.id] else m.failed,
      if kind.SendsMessage? then n.controlHeld else m.sentUnderControl,
      if kind.SendsMessage? then n.stillNewest else m.sentWhenNewest)
  }

  /** The calls of one job, numbered as their answers are.  Everything the row went through follows from
      them: what the others did before each call, and the worker's own updates whose call returned. */
  datatype Trace = Trace(env: nat -> Answer, start: Row, observed: nat, log: seq<Kind>) {
    ghost predicate Returned(k: nat) { env(k).fault == NoFault }

    ghost function Steps(n: nat): seq<Step>
      requires n <= |log|
    {
      if n == 0 then []
      else Steps(n - 1) + env(n - 1).others
           + if log[n - 1].Updates? && Returned(n - 1) then [log[n - 1].step] else []
    }

    /** The row after the first `n` calls. */
    ghost function At(n: nat): Row
      requires n <= |log|
    {
      After(start, Steps(n))
    }

    /** The row when call `k` takes effect. */
    ghost function Before(k: nat): Row
      requires k < |log|
    {
      After(At(k), env(k).others)
    }

    ghost function NotesAt(n: nat): Notes
      requires n <= |log|
    {
      if n == 0 then NOTHING_NOTED
      else NotesAfter(NotesAt(n - 1), n - 1, log[n - 1], env(n - 1), Before(n - 1), observed)
    }

    ghost function MessagesAt(n: nat): Messages
      requires n <= |log|
    {
      if n == 0 then NO_MESSAGES
      else MessagesAfter(MessagesAt(n - 1), NotesAt(n - 1), n - 1, log[n - 1], env(n - 1), Before(n - 1))
    }

    // what single calls did

    /** The worker's own claim was granted. */
    ghost predicate Takes(k: nat) {
      k < |log| && log[k].Updates? && Returned(k) && log[k].step.Claim? && Succeeds(Before(k), log[k].step)
    }

    /** The worker itself ended its claim on the version. */
    ghost predicate Settles(k: nat) { k < |log| && Returned(k) && Ends(log[k], Before(k), observed) }

    ghost predicate Suppresses(k: nat) { Settles(k) && log[k].step.Suppress? }

    ghost predicate TriesCompletion(k: nat) {
      k < |log| && log[k].Updates? && Returned(k) && log[k].step.Complete? && log[k].step.observed == observed
    }

    ghost predicate Releases(k: nat) { k < |log| && log[k].Updates? && log[k].step.Release? }

    ghost predicate Grants(k: nat) { k < |log| && log[k].Reserves? && Returned(k) && env(k).admission.Admitted? }

    ghost predicate Sends(k: nat) { k < |log| && log[k].SendsMessage? }

    ghost predicate Disposes(k: nat) { k < |log| && (log[k].SendsMessage? || log[k].FailsMessage?) }

    ghost predicate Clarifies(k: nat) { k < |log| && log[k].Loads? && Returned(k) && env(k).loaded.clarification }

    /** The first reading of the turn state, which captures the control revision. */
    ghost predicate Captures(k: nat) {
      && k < |log| && log[k].ReadsState? && Returned(k)
      && forall j :: 0 <= j < k ==> !(log[j].ReadsState? && Returned(j))
    }

    /** The call just before `k` found AI control to hold. */
    ghost predicate ControlHeldAt(k: nat) {
      0 < k <= |log| && log[k - 1].ChecksControl? && Returned(k - 1) && env(k - 1).yes
    }

    /** The latest look before `k` found nothing newer and the claim still standing. */
    ghost predicate NewestAt(k: nat) {
      k <= |log|
      && exists j: nat :: j < k && log[j].Looks? && Returned(j) && Stands(Before(j), observed, env(j).now)
                          && forall i :: j < i < k ==> !(log[i].Looks? && Returned(i))
    }

    // what the whole run did

    ghost predicate Claimed() { exists k: nat :: Takes(k) }

    ghost predicate Settled() { exists k: nat :: Settles(k) }

    /** The latest release threw. */
    ghost predicate ReleaseThrew() {
      exists k: nat :: Releases(k) && !Returned(k) && forall j :: k < j < |log| ==> !Releases(j)
    }

    /** At most one message is reserved and at most one call hands over or gives up: it names that message,
        and comes after the reservation. */
    ghost predicate OnceEach() {
      && (forall g: nat, h: nat :: Grants(g) && Grants(h) ==> g == h)
      && (forall d: nat, e: nat :: Disposes(d) && Disposes(e) ==> d == e)
      && (forall d: nat :: Disposes(d) ==>
            exists g: nat :: g < d && Grants(g) && log[d].id == env(g).admission.messageId)
    }

    /** The claim is settled, or the last release threw; and a reserved message had its disposal call, so
        that it is handed over or failed, one of the two, unless that call threw. */
    ghost predicate Balanced() {
      && (Settled() || ReleaseThrew())
      && (forall g: nat :: Grants(g) ==> exists d: nat :: Disposes(d))
    }

    /** The claim is settled, a reserved message is disposed of, and a message was handed over only with
        the completion of the version tried. */
    ghost predicate WellEnded() {
      && Settled()
      && (forall g: nat :: Grants(g) ==> exists d: nat :: Disposes(d))
      && (forall d: nat :: Disposes(d) ==> Returned(d))
      && (forall d: nat :: Sends(d) ==> exists k: nat :: TriesCompletion(k))
    }

    /** A reserved message is neither handed over nor failed, and the call that should have thrown. */
    ghost predicate LosesIts(d: nat) { Disposes(d) && !Returned(d) && exists g: nat :: Grants(g) }

    /** The claim is settled exactly if the latest call was one that queues what is newer, or if the worker
        had suppressed the version. */
    ghost predicate DelayIsExact() {
      Settled() <==> (log != [] && (log[|log| - 1].ReadsState? || log[|log| - 1].Queues?))
                     || exists k: nat :: Suppresses(k)
    }

    /** A fixed text: that of a terminal admission, or the clarification. */
    ghost predicate FixedText() {
      (exists g: nat :: Grants(g) && env(g).admission.terminal) || (exists k: nat :: Clarifies(k))
    }

    /** Of a turn captured with a control revision, where ownership is checked at all, a message is sent only
        right after a check that control holds; and only while nothing newer has been seen, unless it is
        a fixed text. */
    ghost predicate SentWell(hasOwnership: bool) {
      forall d: nat :: Sends(d) ==>
        && (forall k: nat :: Captures(k) && hasOwnership && Before(k).pendingAiControlRevision.Some? ==>
              ControlHeldAt(d))
        && (NewestAt(d) || FixedText())
    }
  }

  lemma {:induction false} RecordGrows(t: Trace, u: Trace, n: nat)
    requires u.(log := t.log) == t && t.log <= u.log && n <= |t.log|
    ensures u.Steps(n) == t.Steps(n) && u.At(n) == t.At(n) && (n < |t.log| ==> u.Before(n) == t.Before(n))
    ensures u.NotesAt(n) == t.NotesAt(n) && u.MessagesAt(n) == t.MessagesAt(n)
  {
    hide NotesAfter, MessagesAfter, After;
    if n > 0 { RecordGrows(t, u, n - 1); }
  }

  lemma AfterNext(r: Row, steps: seq<Step>, s: Step)
    ensures After(r, steps + [s]) == Apply(After(r, steps), s)
  {
    assert (steps + [s])[..|steps|] == steps;
  }

  /** What one more call adds. */
  lemma OneMoreCall(t: Trace, kind: Kind)
    requires Inv(t.At(|t.log|))
    ensures var u := t.(log := t.log + [kind]);
            var n := |t.log|;
            && u.Before(n) == After(t.At(n), t.env(n).others) && Inv(u.Before(n))
            && u.At(n + 1) == (if kind.Updates? && t.Returned(n) then Apply(u.Before(n), kind.step) else u.Before(n))
            && u.NotesAt(n + 1) == NotesAfter(t.NotesAt(n), n, kind, t.env(n), u.Before(n), t.observed)
            && u.MessagesAt(n + 1) == MessagesAfter(t.MessagesAt(n), t.NotesAt(n), n, kind, t.env(n), u.Before(n))
  {
    hide NotesAfter, MessagesAfter, Apply, Inv, After;
    var u, n := t.(log := t.log + [kind]), |t.log|;
    RecordGrows(t, u, n);
    AfterSplit(t.start, t.Steps(n), t.env(n).others);
    RunKeepsInv(t.At(n), t.env(n).others);
    if kind.Updates? && t.Returned(n) {
      AfterNext(t.start, t.Steps(n) + t.env(n).others, kind.step);
    } else {
      assert u.Steps(n + 1) == t.Steps(n) + t.env(n).others;
    }
  }

  // ---------------------------------------------------------------- what the record means

  /** A claim that the worker has ended is gone from the row. */
  lemma SettledIsGone(t: Trace, k: nat)
    requires t.Settles(k) && Inv(t.start)
    ensures t.At(k + 1).processingInboundVersion != Some(t.observed)
  {
    AfterSplit(t.start, t.Steps(k), t.env(k).others);
    AfterNext(t.start, t.Steps(k) + t.env(k).others, t.log[k].step);
    RunKeepsInv(t.start, t.Steps(k));
    RunKeepsInv(t.At(k), t.env(k).others);
    EndedIsGone(t.log[k], t.Before(k), t.observed);
  }

  lemma EndedIsGone(kind: Kind, r: Row, observed: nat)
    requires Ends(kind, r, observed) && Inv(r)
    ensures Apply(r, kind.step).processingInboundVersion != Some(observed)
  {}

  lemma RecordNext(t: Trace, n: nat)
    requires n < |t.log|
    ensures t.NotesAt(n + 1) == NotesAfter(t.NotesAt(n), n, t.log[n], t.env(n), t.Before(n), t.observed)
    ensures t.MessagesAt(n + 1) == MessagesAfter(t.MessagesAt(n), t.NotesAt(n), n, t.log[n], t.env(n), t.Before(n))
  {
    hide NotesAfter, MessagesAfter, Trace.Before;
  }

  lemma NotesStep(t: Trace, n: nat)
    requires n < |t.log|
    ensures var a, b := t.NotesAt(n), t.NotesAt(n + 1);
            && (b.settled <==> a.settled || t.Settles(n))
            && (b.suppressed <==> a.suppressed || t.Suppresses(n))
            && (b.completionTried <==> a.completionTried || t.TriesCompletion(n))
            && (b.clarification <==> a.clarification || t.Clarifies(n))
            && b.release == (if t.Releases(n) then Some(n) else a.release)
            && (b.controlHeld <==> t.ControlHeldAt(n + 1))
            && (b.afterwards <==> t.log[n].ReadsState? || t.log[n].Queues?)
  {
    hide Ends, Stands, Trace.Before, Trace.NotesAt, Trace.MessagesAt;
    RecordNext(t, n);
  }

  lemma {:induction false} NotesMean(t: Trace, n: nat)
    requires n <= |t.log|
    ensures var a := t.NotesAt(n);
            && (a.settled <==> exists k: nat :: k < n && t.Settles(k))
            && (a.suppressed <==> exists k: nat :: k < n && t.Suppresses(k))
            && (a.completionTried <==> exists k: nat :: k < n && t.TriesCompletion(k))
            && (a.clarification <==> exists k: nat :: k < n && t.Clarifies(k))
  {
    hide Trace.NotesAt, Trace.Settles, Trace.Suppresses, Trace.TriesCompletion, Trace.Clarifies, Trace.Releases,
         Trace.ControlHeldAt;
    if n == 0 {
      NothingAtFirst(t);
    } else {
      NotesStep(t, n - 1);
      NotesMean(t, n - 1);
    }
  }

  lemma NothingAtFirst(t: Trace)
    ensures t.NotesAt(0) == NOTHING_NOTED && t.MessagesAt(0) == NO_MESSAGES
  {}

  lemma {:induction false} ReleaseMeans(t: Trace, n: nat)
    requires n <= |t.log|
    ensures var r := t.NotesAt(n).release;
            if r.None? then forall k :: 0 <= k < n ==> !t.Releases(k)
            else r.value < n && t.Releases(r.value) && forall k :: r.value < k < n ==> !t.Releases(k)
  {
    hide Trace.NotesAt, Trace.Settles, Trace.Suppresses, Trace.TriesCompletion, Trace.Clarifies, Trace.Releases,
         Trace.ControlHeldAt;
    if n == 0 {
      NothingAtFirst(t);
    } else {
      NotesStep(t, n - 1);
      ReleaseMeans(t, n - 1);
    }
  }

  lemma ControlMeans(t: Trace, n: nat)
    requires n <= |t.log|
    ensures t.NotesAt(n).controlHeld <==> t.ControlHeldAt(n)
  {
    hide Succeeds, Ends, Stands, Trace.Before;
  }

  lemma {:induction false} NewestMeans(t: Trace, n: nat)
    requires n <= |t.log|
    ensures t.NotesAt(n).stillNewest <==> t.NewestAt(n)
  {
    hide Succeeds, Trace.Before, Stands, Trace.NotesAt;
    if n == 0 {
      NothingAtFirst(t);
    } else {
      RecordNext(t, n - 1);
      NewestMeans(t, n - 1);
      NewestStep(t, n - 1);
    }
  }

  lemma NewestStep(t: Trace, n: nat)
    requires n < |t.log|
    ensures t.NewestAt(n + 1) <==>
              if t.log[n].Looks? && t.Returned(n) then Stands(t.Before(n), t.observed, t.env(n).now) else t.NewestAt(n)
  {
    hide Trace.Before, Stands;
  }

  lemma {:induction false} CaptureMeans(t: Trace, n: nat)
    requires n <= |t.log|
    ensures var c := t.NotesAt(n).captured;
            && (c.None? ==> forall k :: 0 <= k < n ==> !(t.log[k].ReadsState? && t.Returned(k)))
            && (c.Some? ==> exists k: nat :: k < n && t.Captures(k) && c.value == t.Before(k).pendingAiControlRevision)
  {
    hide Succeeds, Trace.Before, Stands, Trace.NotesAt;
    if n == 0 {
      NothingAtFirst(t);
    } else {
      RecordNext(t, n - 1);
      CaptureMeans(t, n - 1);
      if t.NotesAt(n - 1).captured.None? && t.log[n - 1].ReadsState? && t.Returned(n - 1) {
        assert t.Captures(n - 1);
      }
    }
  }

  lemma {:induction false} ClaimMeans(t: Trace, n: nat)
    requires n <= |t.log|
    ensures t.MessagesAt(n).claimed <==> exists k: nat :: k < n && t.Takes(k)
  {
    hide Succeeds, Trace.Before, Trace.NotesAt, Trace.MessagesAt;
    if n == 0 {
      NothingAtFirst(t);
    } else {
      RecordNext(t, n - 1);
      ClaimMeans(t, n - 1);
      assert t.MessagesAt(n).claimed <==> t.MessagesAt(n - 1).claimed || t.Takes(n - 1);
    }
  }

  lemma {:induction false} GrantsMean(t: Trace, n: nat)
    requires n <= |t.log|
    ensures var m := t.MessagesAt(n);
            && (forall k: nat :: k in m.grants <==> k < n && t.Grants(k))
            && (if m.grants == [] then m.reserved.None? && !m.terminal
                else var a := t.env(m.grants[|m.grants| - 1]).admission;
                     a.Admitted? && m.reserved == Some(a.messageId) && m.terminal == a.terminal)
  {
    hide Succeeds, Trace.Before, Trace.NotesAt, Trace.MessagesAt;
    if n == 0 {
      NothingAtFirst(t);
    } else {
      RecordNext(t, n - 1);
      GrantsMean(t, n - 1);
    }
  }

  lemma {:induction false} DisposalsMean(t: Trace, n: nat)
    requires n <= |t.log|
    ensures forall k: nat :: k in t.MessagesAt(n).disposals <==> k < n && t.Disposes(k)
  {
    hide Succeeds, Trace.Before, Trace.NotesAt, Trace.MessagesAt;
    if n == 0 {
      NothingAtFirst(t);
    } else {
      RecordNext(t, n - 1);
      DisposalsMean(t, n - 1);
    }
  }

  /** The latest disposal, and how things stood when it was called. */
  lemma {:induction false} DisposalMeans(t: Trace, n: nat)
    requires n <= |t.log| && t.MessagesAt(n).disposals != []
    ensures var m := t.MessagesAt(n);
            var d := m.Disposal().value;
            && d < n && t.Disposes(d)
            && m.proper == (t.MessagesAt(d).reserved == Some(t.log[d].id)) && (m.sending <==> t.Sends(d))
            && (t.Sends(d) ==>
                  m.sentUnderControl == t.NotesAt(d).controlHeld && m.sentWhenNewest == t.NotesAt(d).stillNewest)
  {
    hide Succeeds, Trace.Before, Trace.NotesAt, Trace.MessagesAt;
    if n == 0 {
      NothingAtFirst(t);
    } else {
      RecordNext(t, n - 1);
      if !t.Disposes(n - 1) { DisposalMeans(t, n - 1); }
    }
  }

  /** The reserved message, if any, was handed over or failed: one of the two, once. */
  predicate Disposed(m: Messages) {
    if m.reserved.None? then m.handedOver == [] && m.failed == []
    else (m.handedOver == [m.reserved.value] && m.failed == [])
         || (m.handedOver == [] && m.failed == [m.reserved.value])
  }

  /** A message stays reserved, neither handed over nor failed. */
  predicate Lost(m: Messages) { m.reserved.Some? && m.handedOver == [] && m.failed == [] }

  /** How the guarded part must end when it ends normally: the claim settled, the message disposed of,
      and, if it was sent, the completion of its version tried. */
  predicate WellEnded(m: Messages, n: Notes) {
    n.settled && Disposed(m) && (m.handedOver != [] ==> n.completionTried)
  }

  predicate Grows(j: Notes, k: Notes) {
    (j.settled ==> k.settled) && (j.suppressed ==> k.suppressed) && (j.completionTried ==> k.completionTried)
    && (j.clarification ==> k.clarification) && (j.captured.Some? ==> k.captured == j.captured)
  }

  /** The closure variables say what became of the message; `threw` says that its disposal threw. */
  predicate Agree(m: Messages, admission: Option<nat>, sendAttempted: bool, reservationFailed: bool, threw: bool) {
    && admission == m.reserved && !(sendAttempted && reservationFailed)
    && |m.disposals| == (if sendAttempted || reservationFailed then 1 else 0)
    && |m.grants| == (if admission.Some? then 1 else 0)
    && (m.disposals != [] ==> admission.Some? && m.proper && m.sending == sendAttempted)
    && m.handedOver == (if sendAttempted && !threw then [admission.value] else [])
    && m.failed == (if reservationFailed && !threw then [admission.value] else [])
  }

  lemma SendingNotesNothing(n: Notes, k: nat, id: nat, a: Answer, r: Row, observed: nat)
    ensures var after := NotesAfter(n, k, SendsMessage(id), a, r, observed);
            after == n.(afterwards := false, controlHeld := false)
  {}

  lemma SendingIsADisposal(m: Messages, n: Notes, k: nat, id: nat, a: Answer, r: Row, threw: bool)
    requires Agree(m, Some(id), false, false, threw)
    ensures var after := MessagesAfter(m, n, k, SendsMessage(id), a, r);
            && Agree(after, Some(id), true, false, a.fault != NoFault) && after.Disposal() == Some(k)
            && after.claimed == m.claimed && after.terminal == m.terminal
            && after.sentUnderControl == n.controlHeld && after.sentWhenNewest == n.stillNewest
  {
    hide Succeeds;
  }

  /** One job: the configuration, the row it works on, and the closure variables. */
  class Worker {
    const env: nat -> Answer
    const row: ConversationRow
    const hasOwnership: bool
    const hasModeration: bool
    const activeJob: bool
    const quietMs: int
    const maxMs: int
    const observed: nat
    var calls: nat
    var revision: Option<int>
    var admission: Option<nat>
    var providerSendAttempted: bool
    var reservationFailed: bool
    ghost const start: Row
    ghost var log: seq<Kind>
    ghost var noted: Notes
    ghost var messages: Messages

    constructor (env: nat -> Answer, row: ConversationRow, hasOwnership: bool, hasModeration: bool, activeJob: bool,
                 quietMs: int, maxMs: int, observed: nat)
      requires Inv(row.View())
      ensures this.env == env && this.row == row && this.observed == observed && Valid() && Fresh()
      ensures this.hasOwnership == hasOwnership && this.hasModeration == hasModeration && this.activeJob == activeJob
      ensures this.quietMs == quietMs && this.maxMs == maxMs
    {
      this.env, this.row, this.observed, start := env, row, observed, row.View();
      this.hasOwnership, this.hasModeration, this.activeJob := hasOwnership, hasModeration, activeJob;
      this.quietMs, this.maxMs := quietMs, maxMs;
      calls, revision, admission, providerSendAttempted, reservationFailed := 0, None, None, false, false;
      log, messages, noted := [], NO_MESSAGES, NOTHING_NOTED;
    }

    ghost function Told(): Trace
      reads this`log
    {
      Trace(env, start, observed, log)
    }

    /** The row is what the calls made of it, and the notes are those of the calls. */
    ghost predicate Valid()
      reads this`calls, this`log, this`noted, this`messages, row
    {
      && Inv(row.View()) && |log| == calls && row.View() == Told().At(|log|)
      && noted == Told().NotesAt(|log|) && messages == Told().MessagesAt(|log|)
      && forall k :: 0 <= k < |log| ==> OfTurn(log[k], observed)
    }

    /** The job has not begun. */
    ghost predicate Fresh()
      reads this
    {
      log == [] && admission.None? && !providerSendAttempted && !reservationFailed
    }

    ghost predicate SomeCallDelays() {
      exists i :: env(i).fault == Delays
    }

    /** The call threw. */
    ghost predicate Threw(call: Option<nat>) { call.Some? && env(call.value).fault != NoFault }

    /** AI control is fenced: the turn was captured with a control revision. */
    ghost predicate Controlled()
      reads this`revision
    {
      revision.Some? && hasOwnership
    }

    /** What was handed over was sent right after a check of control, and while nothing newer had been
        seen unless it was a fixed text: that of a terminal admission, or the clarification. */
    ghost predicate SentWell()
      reads this
    {
      providerSendAttempted ==>
        && (Controlled() ==> messages.sentUnderControl)
        && (messages.sentWhenNewest || messages.terminal || noted.clarification)
    }

    ghost predicate FlagsMatch()
      reads this
    {
      Agree(messages, admission, providerSendAttempted, reservationFailed, Threw(messages.Disposal())) && SentWell()
    }

    /** Nothing is reserved. */
    ghost predicate Idle()
      reads this
    {
      FlagsMatch() && admission.None?
    }

    /** A message is reserved and no disposal was tried. */
    ghost predicate Holding()
      reads this
    {
      FlagsMatch() && admission.Some? && !providerSendAttempted && !reservationFailed
    }

    /** An error other than an ordinary one is a delay signal that some call raised. */
    ghost predicate Known<T>(r: Result<T, Exception>) {
      r.Err? ==> r.error == Ordinary || (r.error == Delayed(false) && SomeCallDelays())
    }

    /** Or the delay signal comes from the worker's own scheduling. */
    ghost predicate KnownOrScheduled<T>(r: Result<T, Exception>) { r == Err(Delayed(true)) || Known(r) }

    /** A delay signal that left nothing to do: the claim is settled exactly when the signal came from
        queueing what is newer, or from the release after a suppression. */
    ghost predicate DelayIsExact()
      reads this
    {
      noted.settled <==> noted.afterwards || noted.suppressed
    }

    twostate predicate SameMessages()
      reads this
    {
      && messages == old(messages) && admission == old(admission) && revision == old(revision)
      && providerSendAttempted == old(providerSendAttempted) && reservationFailed == old(reservationFailed)
    }

    /** Nothing about the claim changed either. */
    twostate predicate SameClaim()
      reads this
    {
      noted.settled == old(noted.settled) && noted.suppressed == old(noted.suppressed)
      && noted.completionTried == old(noted.completionTried)
    }

    /** Nothing about messages changed, and nothing noted was forgotten. */
    twostate predicate Quiet()
      reads this
    {
      SameMessages() && Grows(old(noted), noted) && noted.stillNewest == old(noted.stillNewest)
    }

    /** The variables still say what became of the message, and nothing noted was forgotten. */
    twostate predicate Kept()
      reads this
    {
      && FlagsMatch() && Grows(old(noted), noted)
      && messages.claimed == old(messages.claimed) && revision == old(revision)
    }

    // ------------------------------------------------------------ one way to lose a message

    /** The call returns, and nobody interferes. */
    ghost predicate Calm(k: nat) { env(k).others == [] && env(k).fault == NoFault }

    ghost predicate Allows(k: nat) { Calm(k) && env(k).yes }

    /** A message is reserved, control is then lost, and the call that should fail the message throws. */
    ghost predicate ReplyLoses(k: nat) {
      Calm(k) && env(k).admission.Admitted? && Calm(k + 1) && !env(k + 1).yes && env(k + 2).fault == Fails
    }

    ghost predicate CurrentLoses(k: nat) { Allows(k) && ReplyLoses(k + 1) }

    ghost predicate AdmittedLoses(k: nat) { Calm(k) && CurrentLoses(k + 1) }

    ghost predicate OpenLoses(k: nat) { Allows(k) && AdmittedLoses(k + 1) }

    ghost predicate LoadedLoses(k: nat) {
      Calm(k) && env(k).loaded == Loaded(false, false, false, false) && Allows(k + 1) && OpenLoses(k + 2)
    }

    /** The attempt failed and left the message reserved for good: nothing will try to fail it again. */
    ghost predicate Stranded(r: Result<(), Exception>)
      reads this
    {
      r == Err(Ordinary) && Lost(messages) && reservationFailed
    }

    // ------------------------------------------------------------ calls

    method Perform(s: Step) returns (done: bool)
      requires Inv(row.View())
      modifies row
      ensures row.View() == Apply(old(row.View()), s) && Inv(row.View())
      ensures done == Succeeds(old(row.View()), s)
    {
      match s
      case Receive(id, at, owner) =>
        var stored := id in row.receipts;
        var version := row.ReceiveMessage(id, at, owner);
        done := version.Some? && !stored;
      case Claim(v, now, expected) => done := row.ClaimTurn(v, now, expected);
      case Complete(v, expected) => done := row.CompleteTurn(v, expected);
      case Suppress(v, captured) => done := row.SuppressStaleTurn(v, captured);
      case Release(v) =>
        done := row.processingInboundVersion == Some(v);
        row.ReleaseTurn(v);
      case ControlChange(mode, changed) =>
        done := true;
        row.ChangeControl(mode, changed);
    }

    /** The others act. */
    method Interfere(others: seq<Step>)
      requires Inv(row.View())
      modifies row
      ensures Inv(row.View()) && row.View() == After(old(row.View()), others)
    {
      for i := 0 to |others|
        invariant Inv(row.View()) && row.View() == After(old(row.View()), others[..i])
      {
        var _ := Perform(others[i]);
        assert others[..i + 1][..i] == others[..i];
      }
      assert others[..|others|] == others;
    }

    /** Awaits a call: the others act, then the call throws without effect, or takes effect and returns.
        Everything that is noted is noted here. */
    method Call(kind: Kind) returns (r: Result<Answer, Exception>, done: bool)
      requires Valid() && OfTurn(kind, observed)
      modifies this`calls, this`log, this`noted, this`messages, row
      ensures Valid() && calls == old(calls) + 1 == |log| && log == old(log) + [kind]
      ensures Told().Before(old(calls)) == After(old(row.View()), env(old(calls)).others)
      ensures Calm(old(calls)) ==> Told().Before(old(calls)) == old(row.View())
      ensures row.View() == if kind.Updates? && r.Ok? then Apply(Told().Before(old(calls)), kind.step)
                            else Told().Before(old(calls))
      ensures done == (kind.Updates? && r.Ok? && Succeeds(Told().Before(old(calls)), kind.step))
      ensures noted == NotesAfter(old(noted), old(calls), kind, env(old(calls)), Told().Before(old(calls)), observed)
      ensures messages == MessagesAfter(old(messages), old(noted), old(calls), kind, env(old(calls)),
                                        Told().Before(old(calls)))
      ensures if env(old(calls)).fault == NoFault then r == Ok(env(old(calls)))
              else r == Err(if env(old(calls)).fault == Fails then Ordinary else Delayed(false))
      ensures Known(r)
    {
      hide Inv, Apply, Succeeds, NotesAfter, MessagesAfter, Trace.Steps, Trace.At, Trace.Before, Trace.NotesAt,
           Trace.MessagesAt;
      OneMoreCall(Told(), kind);
      var a := env(calls);
      ghost var k := calls;
      Interfere(a.others);
      ghost var before := row.View();
      log := log + [kind];
      calls := calls + 1;
      messages := MessagesAfter(messages, noted, k, kind, a, before);
      noted := NotesAfter(noted, k, kind, a, before, observed);
      done := false;
      if a.fault == NoFault && kind.Updates? { done := Perform(kind.step); }
      match a.fault
      case NoFault => return Ok(a), done;
      case Fails => return Err(Ordinary), done;
      case Delays => return Err(Delayed(false)), done;
    }

    /** A call that neither notes nor changes anything. */
    method Await() returns (r: Result<Answer, Exception>)
      requires Valid()
      modifies this`calls, this`log, this`noted, this`messages, row
      ensures Valid() && Quiet() && SameClaim() && calls == old(calls) + 1 && !noted.afterwards
      ensures Calm(old(calls)) ==> row.View() == old(row.View())
      ensures if env(old(calls)).fault == NoFault then r == Ok(env(old(calls)))
              else r == Err(if env(old(calls)).fault == Fails then Ordinary else Delayed(false))
      ensures Known(r)
    {
      hide Inv, Succeeds, After, Valid, Trace.Before;
      var done;
      r, done := Call(Asks);
    }

    /** Reads shop, customer and conversation. */
    method Load() returns (r: Result<Loaded, Exception>)
      requires Valid()
      modifies this`calls, this`log, this`noted, this`messages, row
      ensures Valid() && Quiet() && SameClaim() && calls == old(calls) + 1 && !noted.afterwards && Known(r)
      ensures Calm(old(calls)) ==> r == Ok(env(old(calls)).loaded) && row.View() == old(row.View())
      ensures r.Ok? && r.value.clarification ==> noted.clarification
    {
      hide Inv, Succeeds, After, Valid, Trace.Before;
      var answer, done := Call(Loads);
      if answer.Err? { return Err(answer.error); }
      return Ok(answer.value.loaded);
    }

    method GetTurnState() returns (r: Result<Row, Exception>)
      requires Valid()
      modifies this`calls, this`log, this`noted, this`messages, row
      ensures Valid() && Quiet() && SameClaim() && noted.afterwards && calls == old(calls) + 1 && Known(r)
      ensures r.Ok? <==> env(old(calls)).fault == NoFault
      ensures r.Ok? ==> r.value == row.View() == After(old(row.View()), env(old(calls)).others)
      ensures r.Ok? && old(noted.captured).None? ==> noted.captured == Some(r.value.pendingAiControlRevision)
      ensures Calm(old(calls)) ==> r == Ok(row.View()) && row.View() == old(row.View())
    {
      hide Inv, Succeeds, After, Valid, Trace.Before;
      var awaited, done := Call(ReadsState);
      if awaited.Err? { return Err(awaited.error); }
      return Ok(row.View());
    }

    method CompleteTurn(expected: Option<int>) returns (r: Result<bool, Exception>)
      requires Valid()
      modifies this`calls, this`log, this`noted, this`messages, row
      ensures Valid() && Quiet() && !noted.afterwards && noted.suppressed == old(noted.suppressed) && Known(r)
      ensures r.Ok? ==> noted.completionTried && noted.settled == (old(noted.settled) || r.value)
      ensures r.Err? ==> SameClaim()
    {
      hide Inv, Succeeds, After, Valid, Trace.Before;
      var answer, completed := Call(Updates(Complete(observed, expected)));
      if answer.Err? { return Err(answer.error); }
      return Ok(completed);
    }

    method SuppressStaleTurn(captured: int) returns (r: Result<bool, Exception>)
      requires Valid()
      modifies this`calls, this`log, this`noted, this`messages, row
      ensures Valid() && Quiet() && !noted.afterwards && noted.completionTried == old(noted.completionTried) && Known(r)
      ensures r.Ok? ==> noted.settled == (old(noted.settled) || r.value)
                        && noted.suppressed == (old(noted.suppressed) || r.value)
      ensures r.Err? ==> SameClaim()
    {
      hide Inv, Succeeds, After, Valid, Trace.Before;
      var answer, suppressed := Call(Updates(Suppress(observed, captured)));
      if answer.Err? { return Err(answer.error); }
      return Ok(suppressed);
    }

    method ReleaseTurn() returns (r: Result<(), Exception>)
      requires Valid()
      modifies this`calls, this`log, this`noted, this`messages, row
      ensures Valid() && Quiet() && !noted.afterwards && noted.suppressed == old(noted.suppressed) && Known(r)
      ensures noted.completionTried == old(noted.completionTried)
      ensures noted.release == Some(old(calls)) && (r.Err? <==> Threw(noted.release))
      ensures if r.Ok? then noted.settled else SameClaim()
    {
      hide Inv, Succeeds, After, Valid, Trace.Before;
      var answer, done := Call(Updates(Release(observed)));
      if answer.Err? { return Err(answer.error); }
      return Ok(());
    }

    /** Moving the active job back to the queue ends the job with the queue's signal. */
    method Schedule(active: bool) returns (r: Result<(), Exception>)
      requires Valid()
      modifies this`calls, this`log, this`noted, this`messages, row
      ensures Valid() && Quiet() && SameClaim() && noted.afterwards
      ensures r.Err? ==> r.error == Ordinary || (r.error == Delayed(true) && active)
                         || (r.error == Delayed(false) && SomeCallDelays())
    {
      hide Inv, Succeeds, After, Valid, Trace.Before;
      var awaited, done := Call(Queues);
      if awaited.Err? { return Err(awaited.error); }
      if active { return Err(Delayed(true)); }
      return Ok(());
    }

    /** Queues a version unless nothing is pending; the settle window must be configured sanely. */
    method Enqueue() returns (r: Result<(), Exception>)
      requires Valid()
      modifies this`calls, this`log, this`noted, this`messages, row
      ensures Valid() && Quiet() && SameClaim() && noted.afterwards && Known(r)
    {
      hide Inv, Valid, SomeCallDelays;
      var state :- GetTurnState();
      if state.pendingTurnStartedAt.None? || state.lastInboundAt.None? { return Ok(()); }
      if maxMs < quietMs { return Err(Ordinary); }
      r := Schedule(false);
    }

    method EnqueueIfNewer() returns (r: Result<(), Exception>)
      requires Valid()
      modifies this`calls, this`log, this`noted, this`messages, row
      ensures Valid() && Quiet() && SameClaim() && noted.afterwards && Known(r)
    {
      hide Inv, Valid, SomeCallDelays;
      var latest :- GetTurnState();
      if latest.inboundVersion > observed && latest.lastProcessedVersion < latest.inboundVersion
         && latest.pendingTurnStartedAt.Some? {
        r := Enqueue();
        return r;
      }
      return Ok(());
    }

    /** Gives the claim up and queues what is newer. */
    method ReleaseAndRequeue() returns (r: Result<(), Exception>)
      requires Valid()
      modifies this`calls, this`log, this`noted, this`messages, row
      ensures Valid() && Quiet() && Known(r) && (r.Ok? ==> noted.settled)
      ensures r.Ok? && old(Idle()) ==> WellEnded(messages, noted)
      ensures r == Err(Delayed(false)) && !old(noted.settled) && !old(noted.suppressed) ==> DelayIsExact()
    {
      hide Inv, Valid, SomeCallDelays;
      var _ :- ReleaseTurn();
      r := EnqueueIfNewer();
    }

    /** Gives the claim up and moves the job back to the queue. */
    method ReleaseAndSchedule() returns (r: Result<(), Exception>)
      requires Valid()
      modifies this`calls, this`log, this`noted, this`messages, row
      ensures Valid() && Quiet() && KnownOrScheduled(r) && (r.Ok? || r == Err(Delayed(true)) ==> noted.settled)
      ensures (r.Ok? || r == Err(Delayed(true))) && old(Idle()) ==> WellEnded(messages, noted)
      ensures r == Err(Delayed(false)) && !old(noted.settled) && !old(noted.suppressed) ==> DelayIsExact()
    {
      hide Inv, Valid, SomeCallDelays;
      var _ :- ReleaseTurn();
      r := Schedule(activeJob);
    }

    /** Whether the conversation is still under the AI control captured with the turn. */
    method CheckControl() returns (r: Result<bool, Exception>)
      requires Valid()
      modifies this`calls, this`log, this`noted, this`messages, row
      ensures Valid() && Quiet() && SameClaim() && Known(r) && (r.Err? ==> !noted.afterwards)
      ensures r == Ok(true) && Controlled() ==> noted.controlHeld
      ensures r == Ok(false) ==> Controlled()
      ensures Controlled() && Calm(old(calls)) ==>
                r == Ok(env(old(calls)).yes) && calls == old(calls) + 1 && row.View() == old(row.View())
    {
      hide Inv, Succeeds, After, Valid, SomeCallDelays, Trace.Before;
      if revision.Some? && hasOwnership {
        var answer, done := Call(ChecksControl);
        if answer.Err? { return Err(answer.error); }
        return Ok(answer.value.yes);
      }
      return Ok(true);
    }

    /** Used both for a suppressed turn and for a completed one. */
    method FinishTurn(expected: Option<int>) returns (r: Result<(), Exception>)
      requires Valid()
      modifies this`calls, this`log, this`noted, this`messages, row
      ensures Valid() && Quiet() && Known(r) && (r.Ok? ==> noted.settled && noted.completionTried)
      ensures r.Ok? && old(Idle()) ==> WellEnded(messages, noted)
      ensures r == Err(Delayed(false)) && !old(noted.settled) && !old(noted.suppressed) ==> DelayIsExact()
    {
      hide Inv, Valid, SomeCallDelays;
      var completed :- CompleteTurn(expected);
      if completed { return Ok(()); }
      if expected.Some? {
        var _ :- SuppressStaleTurn(expected.value);
      }
      var _ :- ReleaseTurn();
      r := EnqueueIfNewer();
    }

    method FinishInactiveTurn() returns (r: Result<(), Exception>)
      requires Valid()
      modifies this`calls, this`log, this`noted, this`messages, row
      ensures Valid() && Quiet() && Known(r) && (r.Ok? ==> noted.settled && noted.completionTried)
      ensures r.Ok? && old(Idle()) ==> WellEnded(messages, noted)
      ensures r == Err(Delayed(false)) && !old(noted.settled) && !old(noted.suppressed) ==> DelayIsExact()
    {
      hide Inv, Valid, SomeCallDelays;
      var completed :- CompleteTurn(revision);
      if !completed {
        var _ :- ReleaseTurn();
      }
      return Ok(());
    }

    /** Reserves an outbound message. */
    method Reserve() returns (r: Result<Admission, Exception>)
      requires Valid() && Idle()
      modifies this`calls, this`log, this`noted, this`messages, this`admission, row
      ensures Valid() && Kept() && SameClaim() && Known(r) && (r.Err? ==> !noted.afterwards)
      ensures if r.Ok? && r.value.Admitted? then Holding() && admission == Some(r.value.messageId) else Idle()
      ensures r.Ok? && r.value.Admitted? ==> messages.terminal == r.value.terminal
      ensures calls == old(calls) + 1
      ensures Calm(old(calls)) ==> r == Ok(env(old(calls)).admission) && row.View() == old(row.View())
    {
      hide Inv, Succeeds, After, Valid, SomeCallDelays, Trace.Before;
      var answer, done := Call(Reserves);
      if answer.Err? { return Err(answer.error); }
      var granted := answer.value.admission;
      if granted.Admitted? { admission := Some(granted.messageId); }
      return Ok(granted);
    }

    /** Gives the reserved message up.  A call that throws fails nothing, and is not tried again. */
    method FailPrepared() returns (r: Result<(), Exception>)
      requires Valid() && Holding()
      modifies this, row
      ensures Valid() && Kept() && SameClaim() && Known(r) && !noted.afterwards
      ensures admission == old(admission) && reservationFailed && !providerSendAttempted
      ensures messages.Disposal() == Some(old(calls)) && (r.Err? <==> Threw(messages.Disposal()))
      ensures env(old(calls)).fault == Fails ==> r == Err(Ordinary)
    {
      hide Inv, Succeeds, After, Valid, SomeCallDelays, Trace.Before;
      reservationFailed := true;
      var answer, done := Call(FailsMessage(admission.value));
      if answer.Err? { return Err(answer.error); }
      return Ok(());
    }

    /** Hands the message over if control still holds, and fails it otherwise. */
    method SendPreparedText() returns (r: Result<(), Exception>)
      requires Valid() && Holding() && (noted.stillNewest || messages.terminal || noted.clarification)
      modifies this, row
      ensures Valid() && Kept() && SameClaim() && Known(r) && (r.Err? ==> !noted.afterwards)
      ensures admission == old(admission)
      ensures providerSendAttempted ==> messages.sentWhenNewest == old(noted.stillNewest)
      ensures r.Ok? ==> (providerSendAttempted || reservationFailed) && !Threw(messages.Disposal())
    {
      hide Inv, Valid, SomeCallDelays;
      var allowed :- CheckControl();
      if !allowed {
        r := FailPrepared();
        return r;
      }
      r := HandOver();
    }

    /** The provider call itself. */
    method HandOver() returns (r: Result<(), Exception>)
      requires Valid() && Holding() && (Controlled() ==> noted.controlHeld)
      requires noted.stillNewest || messages.terminal || noted.clarification
      modifies this, row
      ensures Valid() && Kept() && SameClaim() && Known(r) && !noted.afterwards
      ensures admission == old(admission) && providerSendAttempted && !reservationFailed
      ensures messages.sentWhenNewest == old(noted.stillNewest) && (r.Err? <==> Threw(messages.Disposal()))
    {
      hide Inv, Succeeds, After, Valid, SomeCallDelays, Trace.Before, Agree, MessagesAfter, NotesAfter;
      ghost var m, n, now, threw := messages, noted, calls, Threw(messages.Disposal());
      providerSendAttempted := true;
      var answer, done := Call(SendsMessage(admission.value));
      SendingNotesNothing(n, now, admission.value, env(now), Told().Before(now), observed);
      SendingIsADisposal(m, n, now, admission.value, env(now), Told().Before(now), threw);
      if answer.Err? { return Err(answer.error); }
      return Ok(());
    }

    /** Fails the message, then ends the turn as suppressed. */
    method FailAndFinish(expected: Option<int>) returns (r: Result<(), Exception>)
      requires Valid() && Holding()
      modifies this, row
      ensures Valid() && Kept() && Known(r) && !providerSendAttempted
      ensures r.Ok? ==> WellEnded(messages, noted)
      ensures r == Err(Delayed(false)) && !old(noted.settled) && !old(noted.suppressed) ==> DelayIsExact()
      ensures env(old(calls)).fault == Fails ==> Stranded(r)
    {
      hide Inv, Valid, SomeCallDelays;
      var _ :- FailPrepared();
      r := FinishTurn(expected);
    }

    /** Fails the message because the turn has moved on, releases it and queues the newest version. */
    method FailAndRequeue() returns (r: Result<(), Exception>)
      requires Valid() && Holding()
      modifies this, row
      ensures Valid() && Kept() && Known(r) && !providerSendAttempted
      ensures r.Ok? ==> WellEnded(messages, noted)
      ensures r == Err(Delayed(false)) && !old(noted.settled) && !old(noted.suppressed) ==> DelayIsExact()
    {
      hide Inv, Valid, SomeCallDelays;
      var _ :- FailPrepared();
      var _ :- ReleaseTurn();
      var _ :- GetTurnState();
      r := Enqueue();
    }

    lemma IdleIsDisposed()
      requires Idle()
      ensures Disposed(messages) && messages.handedOver == []
    {}

    lemma DoneIsDisposed()
      requires FlagsMatch() && (providerSendAttempted || reservationFailed) && !Threw(messages.Disposal())
      ensures Disposed(messages)
    {}

    lemma FlagsSettleTheMessage()
      requires FlagsMatch()
      ensures |messages.handedOver| + |messages.failed| <= 1
      ensures messages.Disposal().Some? <==> providerSendAttempted || reservationFailed
      ensures messages.reserved == admission
      ensures messages.reserved.Some? && messages.Disposal().Some? ==>
                if Threw(messages.Disposal()) then Lost(messages) else Disposed(messages)
      ensures messages.reserved.None? ==> Disposed(messages) && messages.Disposal().None?
      ensures messages.Disposal().None? ==> messages.handedOver == [] && messages.failed == []
      ensures messages.handedOver != [] ==> providerSendAttempted
    {}

    method LookForMessages(now: int) returns (changed: bool)
      ensures changed == !Stands(row.View(), observed, now)
    {
      changed := row.HasChanged(observed, now);
    }

    /** The worker's claim on the version stands. */
    ghost predicate Current(now: int)
      reads row
    {
      Stands(row.View(), observed, now)
    }

    /** Whether the row has moved past the version. */
    method HasChanged() returns (r: Result<bool, Exception>)
      requires Valid()
      modifies this`calls, this`log, this`noted, this`messages, row
      ensures Valid() && SameMessages() && SameClaim() && Grows(old(noted), noted) && Known(r)
      ensures r.Err? ==> !noted.afterwards
      ensures r.Ok? ==> noted.stillNewest == !r.value
      ensures Calm(old(calls)) && old(Current(env(calls).now)) ==>
                r == Ok(false) && calls == old(calls) + 1 && row.View() == old(row.View())
    {
      hide Inv, Succeeds, After, Valid, SomeCallDelays, Stands, Trace.Before;
      var answer, done := Call(Looks);
      if answer.Err? { return Err(answer.error); }
      var changed := LookForMessages(answer.value.now);
      return Ok(changed);
    }

    /** The last two steps of every reply: send, then complete. */
    method SendAndFinish() returns (r: Result<(), Exception>)
      requires Valid() && Holding() && (noted.stillNewest || messages.terminal || noted.clarification)
      modifies this, row
      ensures Valid() && Kept() && Known(r)
      ensures r.Ok? ==> WellEnded(messages, noted)
      ensures r == Err(Delayed(false)) && !old(noted.settled) && !old(noted.suppressed) ==> DelayIsExact()
      ensures providerSendAttempted ==> messages.sentWhenNewest == old(noted.stillNewest)
    {
      hide Inv, Valid, SomeCallDelays;
      var _ :- SendPreparedText();
      DoneIsDisposed();
      r := FinishTurn(revision);
    }

    /** The clarification path: a fixed text instead of the agent. */
    method Clarify() returns (r: Result<(), Exception>)
      requires Valid() && Idle() && noted.clarification
      modifies this, row
      ensures Valid() && Kept() && Known(r)
      ensures r.Ok? ==> WellEnded(messages, noted)
      ensures r == Err(Delayed(false)) && !old(noted.settled) && !old(noted.suppressed) ==> DelayIsExact()
    {
      hide Inv, Valid, Agree, SomeCallDelays, Threw;
      var clarification :- Reserve();
      if clarification.NotAdmitted? {
        r := FinishTurn(revision);
        return r;
      }
      var allowed :- CheckControl();
      if !allowed {
        r := FailAndFinish(revision);
        return r;
      }
      r := SendAndFinish();
    }

    /** The agent itself, after admission: a terminal admission sends its fixed text instead, and an
        agent that throws has the message failed, once.  True when the agent produced a result. */
    method RunAgent(terminal: bool) returns (r: Result<bool, Exception>)
      requires Valid() && Holding() && (terminal ==> messages.terminal)
      modifies this, row
      ensures Valid() && Kept() && SameClaim() && Known(r) && (r.Err? ==> !noted.afterwards)
      ensures r == Ok(true) ==> !terminal && Holding()
      ensures r == Ok(false) ==> terminal && (providerSendAttempted || reservationFailed) && !Threw(messages.Disposal())
      ensures r.Err? && !terminal ==> reservationFailed
      ensures admission == old(admission)
    {
      hide Inv, Valid, SomeCallDelays;
      if terminal {
        var _ :- SendPreparedText();
        return Ok(false);
      }
      var run := Await();
      if run.Err? {
        var _ :- FailPrepared();
        return Err(run.error);
      }
      return Ok(true);
    }

    /** From the agent's result to the reply: the turn must still be current and under AI control
        after each wait. */
    method Deliver() returns (r: Result<(), Exception>)
      requires Valid() && Holding()
      modifies this, row
      ensures Valid() && Kept() && Known(r)
      ensures r.Ok? ==> WellEnded(messages, noted)
      ensures r == Err(Delayed(false)) && !old(noted.settled) && !old(noted.suppressed) ==> DelayIsExact()
      ensures providerSendAttempted ==> messages.sentWhenNewest
    {
      hide Inv, Valid, Agree, SomeCallDelays, Threw;
      var allowed :- CheckControl();
      if !allowed {
        r := FailAndFinish(revision);
        return r;
      }
      var changed :- HasChanged();
      if changed {
        r := FailAndRequeue();
        return r;
      }
      var _ :- Await();  // the detected language is applied
      allowed :- CheckControl();
      if !allowed {
        r := FailAndFinish(revision);
        return r;
      }
      r := Compose();
    }

    /** The second half of it: the reply is composed once, and sent if the turn is still current. */
    method Compose() returns (r: Result<(), Exception>)
      requires Valid() && Holding()
      modifies this, row
      ensures Valid() && Kept() && Known(r)
      ensures r.Ok? ==> WellEnded(messages, noted)
      ensures r == Err(Delayed(false)) && !old(noted.settled) && !old(noted.suppressed) ==> DelayIsExact()
      ensures providerSendAttempted ==> messages.sentWhenNewest
    {
      hide Inv, Valid, Agree, SomeCallDelays, Threw;
      var composed :- Await();
      if !composed.yes {
        r := FailAndFinish(None);
        return r;
      }
      var allowed :- CheckControl();
      if !allowed {
        r := FailAndFinish(None);
        return r;
      }
      var changed :- HasChanged();
      if changed {
        r := FailAndRequeue();
        return r;
      }
      r := SendAndFinish();
    }

    /** The agent with a reserved message. */
    method Generate(terminal: bool) returns (r: Result<(), Exception>)
      requires Valid() && Holding() && (terminal ==> messages.terminal)
      modifies this, row
      ensures Valid() && Kept() && Known(r)
      ensures r.Ok? ==> WellEnded(messages, noted)
      ensures r == Err(Delayed(false)) && !old(noted.settled) && !old(noted.suppressed) ==> DelayIsExact()
    {
      hide Inv, Valid, Agree, SomeCallDelays, Threw;
      var produced :- RunAgent(terminal);
      if !produced {
        DoneIsDisposed();
        r := FinishTurn(revision);
        return r;
      }
      r := Deliver();
    }

    /** The agent path, from the reservation to the reply. */
    method Reply() returns (r: Result<(), Exception>)
      requires Valid() && Idle()
      modifies this, row
      ensures Valid() && Kept() && Known(r)
      ensures r.Ok? ==> WellEnded(messages, noted)
      ensures r == Err(Delayed(false)) && !old(noted.settled) && !old(noted.suppressed) ==> DelayIsExact()
      ensures Controlled() && ReplyLoses(old(calls)) ==> Stranded(r)
    {
      hide Inv, Valid, Agree, SomeCallDelays, Threw;
      var reserved :- Reserve();
      if reserved.NotAdmitted? {
        r := FinishTurn(revision);
        return r;
      }
      var allowed :- CheckControl();
      if !allowed {
        r := FailAndFinish(revision);
        return r;
      }
      r := Generate(reserved.terminal);
    }

    /** The eligibility deadline of the AI response. */
    function EligibleAt(state: Row): int {
      var started := OrElse(state.pendingTurnStartedAt, 0);
      var settled := Min(OrElse(state.lastInboundAt, started) + quietMs, started + maxMs);
      if state.pendingAiNotBeforeAt.Some? then Max(state.pendingAiNotBeforeAt.value, settled) else settled
    }

    /** An answer is due: the clarification, or the agent once the response is eligible. */
    method Respond(state: Row, loaded: Loaded) returns (r: Result<(), Exception>)
      requires Valid() && Idle() && (loaded.clarification ==> noted.clarification)
      modifies this, row
      ensures Valid() && Kept() && KnownOrScheduled(r)
      ensures r.Ok? || r == Err(Delayed(true)) ==> WellEnded(messages, noted)
      ensures r == Err(Delayed(false)) && !old(noted.settled) && !old(noted.suppressed) ==> DelayIsExact()
      ensures Controlled() && ReplyLoses(old(calls)) && !loaded.clarification
              && EligibleAt(state) <= env(old(calls)).now
              ==> Stranded(r)
    {
      hide Inv, Valid, Agree, SomeCallDelays, Threw;
      IdleIsDisposed();
      if loaded.clarification {
        r := Clarify();
        return r;
      }
      var now := env(calls).now;
      if EligibleAt(state) > now {
        r := ReleaseAndSchedule();
        return r;
      }
      r := Reply();
    }

    /** An answer under AI control, unless the conversation was handled without the agent. */
    method AttemptCurrent(state: Row, loaded: Loaded) returns (r: Result<(), Exception>)
      requires Valid() && Idle() && (loaded.clarification ==> noted.clarification)
      modifies this, row
      ensures Valid() && Kept() && KnownOrScheduled(r)
      ensures r.Ok? || r == Err(Delayed(true)) ==> WellEnded(messages, noted)
      ensures r == Err(Delayed(false)) && !old(noted.settled) && !old(noted.suppressed) ==> DelayIsExact()
      ensures Controlled() && CurrentLoses(old(calls)) && loaded == Loaded(false, false, false, false)
              && EligibleAt(state) <= env(old(calls) + 1).now
              ==> Stranded(r)
    {
      hide Inv, Valid, Agree, SomeCallDelays, Threw, Stranded, ReplyLoses, EligibleAt;
      IdleIsDisposed();
      var allowed :- CheckControl();
      if !allowed || loaded.handledWithoutAgent {
        r := FinishTurn(revision);
        return r;
      }
      r := Respond(state, loaded);
    }

    /** The attempt once the turn may be answered, if it is still current. */
    method AttemptAdmitted(state: Row, loaded: Loaded) returns (r: Result<(), Exception>)
      requires Valid() && Idle() && (loaded.clarification ==> noted.clarification)
      modifies this, row
      ensures Valid() && Kept() && KnownOrScheduled(r)
      ensures r.Ok? || r == Err(Delayed(true)) ==> WellEnded(messages, noted)
      ensures r == Err(Delayed(false)) && !old(noted.settled) && !old(noted.suppressed) ==> DelayIsExact()
      ensures Controlled() && AdmittedLoses(old(calls)) && loaded == Loaded(false, false, false, false)
              && old(Current(env(calls).now)) && EligibleAt(state) <= env(old(calls) + 2).now
              ==> Stranded(r)
    {
      hide Inv, Valid, Agree, SomeCallDelays, Threw, Stranded, CurrentLoses, EligibleAt;
      IdleIsDisposed();
      var changed :- HasChanged();
      if changed {
        r := ReleaseAndRequeue();
        return r;
      }
      r := AttemptCurrent(state, loaded);
    }

    /** The attempt for a shop that is available: legacy recovery turns and abusive ones are not answered. */
    method AttemptOpen(state: Row, loaded: Loaded)
      returns (r: Result<(), Exception>)
      requires Valid() && Idle() && (loaded.clarification ==> noted.clarification)
      modifies this, row
      ensures Valid() && Kept() && KnownOrScheduled(r)
      ensures r.Ok? || r == Err(Delayed(true)) ==> WellEnded(messages, noted)
      ensures r == Err(Delayed(false)) && !old(noted.settled) && !old(noted.suppressed) ==> DelayIsExact()
      ensures Controlled() && OpenLoses(old(calls)) && loaded == Loaded(false, false, false, false)
              && old(Current(env(calls + 1).now)) && EligibleAt(state) <= env(old(calls) + 3).now
              ==> Stranded(r)
    {
      hide Inv, Valid, Agree, SomeCallDelays, Threw, Stranded, AdmittedLoses, EligibleAt;
      if loaded.recovery && revision.None? {
        r := FinishTurn(revision);
        return r;
      }
      var abuse :- Await();
      if !abuse.yes {
        r := FinishTurn(revision);
        return r;
      }
      r := AttemptAdmitted(state, loaded);
    }

    /** The attempt once the conversation is loaded. */
    method AttemptKnown(state: Row, loaded: Loaded) returns (r: Result<(), Exception>)
      requires Valid() && Idle() && (loaded.clarification ==> noted.clarification)
      modifies this, row
      ensures Valid() && Kept() && KnownOrScheduled(r)
      ensures r.Ok? || r == Err(Delayed(true)) ==> WellEnded(messages, noted)
      ensures r == Err(Delayed(false)) && !old(noted.settled) && !old(noted.suppressed) ==> DelayIsExact()
      ensures Controlled() && Allows(old(calls)) && OpenLoses(old(calls) + 1)
              && loaded == Loaded(false, false, false, false)
              && old(Current(env(calls + 2).now)) && EligibleAt(state) <= env(old(calls) + 4).now
              ==> Stranded(r)
    {
      hide Inv, Valid, Agree, SomeCallDelays, Threw, Stranded, OpenLoses, EligibleAt;
      var allowed :- CheckControl();
      if !allowed {
        r := FinishTurn(revision);
        return r;
      }
      if loaded.shopUnavailable {
        r := FinishInactiveTurn();
        return r;
      }
      r := AttemptOpen(state, loaded);
    }

    /** The attempt once moderation let it through. */
    method AttemptLoaded(state: Row) returns (r: Result<(), Exception>)
      requires Valid() && Idle()
      modifies this, row
      ensures Valid() && Kept() && KnownOrScheduled(r)
      ensures r.Ok? || r == Err(Delayed(true)) ==> WellEnded(messages, noted)
      ensures r == Err(Delayed(false)) && !old(noted.settled) && !old(noted.suppressed) ==> DelayIsExact()
      ensures Controlled() && LoadedLoses(old(calls)) && old(Current(env(calls + 3).now))
              && EligibleAt(state) <= env(old(calls) + 5).now
              ==> Stranded(r)
    {
      hide Inv, Valid, Agree, SomeCallDelays, Threw, Stranded, OpenLoses, EligibleAt;
      IdleIsDisposed();
      var loaded :- Load();
      r := AttemptKnown(state, loaded);
    }

    /** The guarded part of `process`, between the claim and the catch. */
    method Attempt(state: Row) returns (r: Result<(), Exception>)
      requires Valid() && Idle()
      modifies this, row
      ensures Valid() && Kept() && KnownOrScheduled(r)
      ensures r.Ok? || r == Err(Delayed(true)) ==> WellEnded(messages, noted)
      ensures r == Err(Delayed(false)) && !old(noted.settled) && !old(noted.suppressed) ==> DelayIsExact()
      ensures !hasModeration && Controlled() && LoadedLoses(old(calls))
              && old(Current(env(calls + 3).now)) && EligibleAt(state) <= env(old(calls) + 5).now
              ==> Stranded(r)
    {
      hide Inv, Valid, Agree, SomeCallDelays, Threw, Stranded, LoadedLoses, EligibleAt;
      IdleIsDisposed();
      if hasModeration {
        var moderated :- Await();
        if moderated.gate == Retry {
          r := ReleaseAndSchedule();
          return r;
        }
        if moderated.gate == Suppressed {
          r := FinishTurn(revision);
          return r;
        }
      }
      r := AttemptLoaded(state);
    }

    /** What follows a claim that was not granted: a turn whose control changed is suppressed, a newer
        version is queued, and otherwise the job waits a little. */
    method GiveWay(state: Row) returns (r: Result<(), Exception>)
      requires Valid()
      modifies this`calls, this`log, this`noted, this`messages, row
      ensures Valid() && Quiet() && KnownOrScheduled(r)
    {
      hide Inv, Valid;
      var current :- GetTurnState();
      var captured := state.pendingAiControlRevision;
      if captured.Some? && (current.controlMode != AI || current.controlRevision != captured.value
                            || current.pendingAiControlRevision != captured) {
        var suppressed :- SuppressStaleTurn(captured.value);
        if suppressed { return Ok(()); }
        r := EnqueueIfNewer();
        return r;
      }
      if current.inboundVersion > observed && current.lastProcessedVersion < current.inboundVersion
         && current.pendingTurnStartedAt.Some? {
        r := Enqueue();
        return r;
      }
      r := Schedule(activeJob);
    }

    /** What the catch does: a reserved message whose disposal was not tried is failed, then the claim is
        released, and the error is thrown on.  A disposal that was tried is never tried again. */
    method CleanUp(error: Exception) returns (r: Result<(), Exception>)
      requires Valid() && FlagsMatch() && error == Ordinary
      modifies this, row
      ensures Valid() && Kept() && Known(r) && r.Err? && admission == old(admission)
      ensures admission.Some? ==> messages.Disposal().Some?
      ensures old(messages.Disposal()).Some? ==> messages == old(messages)
      ensures noted.settled || Threw(noted.release)
    {
      hide Inv, Valid, SomeCallDelays;
      if admission.Some? && !providerSendAttempted && !reservationFailed {
        var cleanup := FailPrepared();
        if cleanup.Err? {
          var _ :- ReleaseTurn();
          return Err(Ordinary);
        }
      }
      var _ :- ReleaseTurn();
      return Err(error);
    }

    /** What became of a claimed job whose guarded part was not left by a foreign delay signal: the
        claim is settled, or the last release threw; a reserved message had exactly one disposal call,
        and is handed over or failed, one of the two and once, unless that call threw. */
    ghost predicate Balanced()
      reads this
    {
      && (noted.settled || Threw(noted.release))
      && (messages.reserved.Some? ==> messages.Disposal().Some?)
      && (if Threw(messages.Disposal()) then Lost(messages) else Disposed(messages))
    }

    /** The way to lose a message that is spelled out above, from the reading of the turn state on. */
    ghost predicate Loses(state: Row, k: nat) {
      && hasOwnership && !hasModeration && quietMs <= maxMs && Calm(k) && Calm(k + 1) && LoadedLoses(k + 2)
      && TurnStaleReason(state, observed).None? && SettleDelay(state, env(k + 1).now, quietMs, maxMs) <= 0
      && state.pendingAiControlRevision.Some?
      && Succeeds(state, Claim(observed, env(k + 1).now, state.pendingAiControlRevision))
      && env(k + 5).now < env(k + 1).now + PROCESSING_LEASE_MS && EligibleAt(state) <= env(k + 7).now
    }

    /** A claim made by call `k` is granted, whatever the others do before it takes effect. */
    ghost predicate Grantable(state: Row, k: nat, now: int, captured: Option<int>) {
      env(k).fault == NoFault && Succeeds(After(state, env(k).others), Claim(observed, now, captured))
    }

    /** When a job comes to claim its version: the turn it reads is not stale, its settle window is over, and
        the claim is granted. */
    ghost predicate Begins(before: Row) {
      && env(0).fault == NoFault
      && var state := After(before, env(0).others);
      && TurnStaleReason(state, observed).None? && quietMs <= maxMs
      && SettleDelay(state, env(1).now, quietMs, maxMs) <= 0
      && Grantable(state, 1, env(1).now, state.pendingAiControlRevision)
    }

    method ClaimTurn(now: int) returns (r: Result<bool, Exception>)
      requires Valid()
      modifies this`calls, this`log, this`noted, this`messages, row
      ensures Valid() && SameClaim() && Known(r) && calls == old(calls) + 1 && Grows(old(noted), noted)
      ensures messages == old(messages).(claimed := old(messages).claimed || r == Ok(true))
      ensures r == Ok(true) <==> Grantable(old(row.View()), old(calls), now, revision)
      ensures r == Ok(true) ==> forall later :: later < now + PROCESSING_LEASE_MS ==> Current(later)
      ensures Calm(old(calls)) ==> r == Ok(Succeeds(old(row.View()), Claim(observed, now, revision)))
    {
      hide Inv, After, Valid, Trace.Before;
      var answer, done := Call(Updates(Claim(observed, now, revision)));
      if answer.Err? { return Err(answer.error); }
      return Ok(done);
    }

    lemma NothingIsIdle()
      requires messages == NO_MESSAGES && admission.None? && !providerSendAttempted && !reservationFailed
      ensures Idle() && !Threw(messages.Disposal())
    {}

    /** The guarded part and, when an ordinary error leaves it, the catch. */
    method AttemptClaimed(state: Row) returns (r: Result<(), Exception>)
      requires Valid() && Idle() && messages.claimed && !noted.settled && !noted.suppressed
      modifies this, row
      ensures Valid() && Kept() && KnownOrScheduled(r)
      ensures r != Err(Delayed(false)) ==> Balanced()
      ensures r == Err(Delayed(false)) ==> Balanced() || DelayIsExact()
      ensures r.Ok? ==> WellEnded(messages, noted)
      ensures !hasModeration && Controlled() && LoadedLoses(old(calls))
              && old(Current(env(calls + 3).now)) && EligibleAt(state) <= env(old(calls) + 5).now
              ==> r.Err? && Lost(messages) && Threw(messages.Disposal())
    {
      hide Inv, Valid, Agree, SomeCallDelays, LoadedLoses, EligibleAt, Current, SentWell;
      r := Attempt(state);
      FlagsSettleTheMessage();
      if r.Ok? || r.error.Delayed? { return r; }
      r := CleanUp(r.error);
      FlagsSettleTheMessage();
    }

    /** From the claim on. */
    method ClaimAndAttempt(state: Row, now: int) returns (r: Result<(), Exception>)
      requires Valid() && messages == NO_MESSAGES && !noted.settled && !noted.suppressed
      requires admission.None? && !providerSendAttempted && !reservationFailed
      requires noted.captured == Some(state.pendingAiControlRevision)
      modifies this, row
      ensures Valid() && FlagsMatch() && noted.captured == Some(revision)
      ensures !messages.claimed ==> messages == NO_MESSAGES
      ensures messages.claimed <==> Grantable(old(row.View()), old(calls), now, state.pendingAiControlRevision)
      ensures KnownOrScheduled(r)
      ensures messages.claimed && r != Err(Delayed(false)) ==> Balanced()
      ensures messages.claimed && r == Err(Delayed(false)) ==> Balanced() || DelayIsExact()
      ensures messages.claimed && r.Ok? ==> WellEnded(messages, noted)
      ensures state == old(row.View()) && old(calls) > 0 && now == env(old(calls)).now
              && Loses(state, old(calls) - 1)
              ==> messages.claimed && r.Err? && Lost(messages) && Threw(messages.Disposal())
    {
      hide Inv, Valid, Agree, SomeCallDelays, LoadedLoses, EligibleAt, Succeeds, TurnStaleReason, SettleDelay, Stands,
           After, Balanced, WellEnded, DelayIsExact, Grantable;
      revision := state.pendingAiControlRevision;
      NothingIsIdle();
      var claimed :- ClaimTurn(now);
      if !claimed {
        r := GiveWay(state);
        return r;
      }
      ClaimedIsIdle();
      r := AttemptClaimed(state);
    }

    lemma ClaimedIsIdle()
      requires messages == NO_MESSAGES.(claimed := true)
      requires admission.None? && !providerSendAttempted && !reservationFailed
      ensures Idle()
    {}

    lemma FreshIsEmpty()
      requires Valid() && Fresh()
      ensures messages == NO_MESSAGES && noted == NOTHING_NOTED && calls == 0
    {}

    method ProcessTurn() returns (r: Result<(), Exception>)
      requires Valid() && Fresh()
      modifies this, row
      ensures Valid() && FlagsMatch() && KnownOrScheduled(r)
      ensures messages.claimed ==> noted.captured == Some(revision)
      ensures !messages.claimed ==> messages == NO_MESSAGES
      ensures messages.claimed <==> Begins(old(row.View()))
      ensures messages.claimed && r != Err(Delayed(false)) ==> Balanced()
      ensures messages.claimed && r == Err(Delayed(false)) ==> Balanced() || DelayIsExact()
      ensures messages.claimed && r.Ok? ==> WellEnded(messages, noted)
      ensures Loses(old(row.View()), 0) ==>
                messages.claimed && r.Err? && Lost(messages) && Threw(messages.Disposal())
    {
      hide Inv, Valid, Agree, SomeCallDelays, LoadedLoses, EligibleAt, Succeeds, After, Grantable;
      FreshIsEmpty();
      NothingIsIdle();
      FlagsSettleTheMessage();
      ghost var losing := Loses(row.View(), 0);
      var state :- GetTurnState();
      assert losing ==> Loses(state, 0) && state == row.View();
      if TurnStaleReason(state, observed).Some? { return Ok(()); }
      if maxMs < quietMs { return Err(Ordinary); }
      var now := env(calls).now;
      if SettleDelay(state, now, quietMs, maxMs) > 0 {
        assert !losing;
        r := Schedule(activeJob);
        return r;
      }
      r := ClaimAndAttempt(state, now);
    }

    // ------------------------------------------------------------ from the flags to the calls

    lemma OncePerJob()
      requires Valid() && FlagsMatch()
      ensures Told().OnceEach()
      ensures forall g: nat :: Told().Grants(g) ==> admission.Some? && messages.grants == [g]
      ensures forall d: nat :: Told().Disposes(d) ==> messages.disposals == [d]
    {
      hide Inv, NotesAfter, MessagesAfter, SentWell, Trace.Before, Trace.NotesAt, Trace.MessagesAt, Trace.At, OfTurn;
      var t := Told();
      GrantsMean(t, |log|);
      DisposalsMean(t, |log|);
      forall d: nat | t.Disposes(d)
        ensures exists g: nat :: g < d && t.Grants(g) && log[d].id == env(g).admission.messageId
      {
        DisposalMeans(t, |log|);
        GrantsMean(t, d);
        var grants := t.MessagesAt(d).grants;
        assert grants[|grants| - 1] in grants;
      }
    }

    /** Why the text was sent although something newer may have been seen. */
    lemma FixedTexts()
      requires Valid() && (messages.terminal || noted.clarification)
      ensures Told().FixedText()
    {
      hide Inv, NotesAfter, MessagesAfter, Trace.Before, Trace.NotesAt, Trace.MessagesAt, Trace.At, OfTurn,
           Trace.Grants, Trace.Clarifies;
      var t := Told();
      GrantsMean(t, |log|);
      NotesMean(t, |log|);
      if messages.terminal {
        var g := messages.grants[|messages.grants| - 1];
        assert g in messages.grants;
        assert t.Grants(g) && env(g).admission.terminal;
      }
    }

    lemma SendingWasChecked(d: nat)
      requires Valid() && FlagsMatch() && Told().Sends(d)
      ensures Controlled() ==> Told().ControlHeldAt(d)
      ensures Told().NewestAt(d) || messages.terminal || noted.clarification
      ensures messages.disposals != []
    {
      hide Inv, NotesAfter, MessagesAfter, Trace.Before, Trace.NotesAt, Trace.MessagesAt, Trace.At, OfTurn,
           Trace.OnceEach, Trace.ControlHeldAt, Trace.NewestAt;
      var t := Told();
      OncePerJob();
      assert t.Disposes(d);
      DisposalMeans(t, |log|);
      NewestMeans(t, d);
      ControlMeans(t, d);
    }

    lemma CapturedOnce(k: nat)
      requires Valid() && Told().Captures(k)
      ensures noted.captured == Some(Told().Before(k).pendingAiControlRevision)
    {
      hide Inv, NotesAfter, MessagesAfter, Trace.Before, Trace.NotesAt, Trace.MessagesAt, Trace.At, OfTurn;
      CaptureMeans(Told(), |log|);
    }

    lemma WhatWasSent()
      requires Valid() && FlagsMatch() && (messages.claimed ==> noted.captured == Some(revision))
      requires !messages.claimed ==> messages == NO_MESSAGES
      ensures Told().SentWell(hasOwnership)
    {
      hide Valid, FlagsMatch, Trace.Before, Trace.ControlHeldAt, Trace.NewestAt, Trace.FixedText, Trace.Sends;
      var t := Told();
      if messages.terminal || noted.clarification { FixedTexts(); }
      forall d: nat | t.Sends(d)
        ensures forall k: nat :: t.Captures(k) && hasOwnership && t.Before(k).pendingAiControlRevision.Some? ==>
                  t.ControlHeldAt(d)
        ensures t.NewestAt(d) || t.FixedText()
      {
        SendingWasChecked(d);
        forall k: nat | t.Captures(k)
          ensures noted.captured == Some(t.Before(k).pendingAiControlRevision)
        {
          CapturedOnce(k);
        }
      }
    }

    /** How the claim stands. */
    lemma HowTheClaimEnded()
      requires Valid()
      ensures noted.settled <==> Told().Settled()
      ensures Threw(noted.release) <==> Told().ReleaseThrew()
      ensures noted.completionTried ==> exists k: nat :: Told().TriesCompletion(k)
      ensures messages.claimed <==> Told().Claimed()
      ensures log != [] ==> (DelayIsExact() <==> Told().DelayIsExact())
    {
      hide Inv, Ends, Succeeds, NotesAfter, MessagesAfter, OfTurn,
           Trace.Before, Trace.NotesAt, Trace.MessagesAt, Trace.At;
      var t := Told();
      NotesMean(t, |log|);
      ReleaseMeans(t, |log|);
      ClaimMeans(t, |log|);
      if log != [] { NotesStep(t, |log| - 1); }
      assert t.Settled() <==> exists k: nat :: k < |log| && t.Settles(k);
      assert (exists k: nat :: t.Suppresses(k)) <==> exists k: nat :: k < |log| && t.Suppresses(k);
      if Threw(noted.release) { assert t.Releases(noted.release.value); }
    }

    /** What became of the message. */
    lemma HowTheMessageEnded()
      requires Valid() && FlagsMatch()
      ensures messages.Disposal().Some? ==> Told().Disposes(messages.Disposal().value)
      ensures forall g: nat :: Told().Grants(g) ==> messages.reserved.Some?
      ensures Disposed(messages) ==>
                (forall d: nat :: Told().Disposes(d) ==> Told().Returned(d))
                && (forall g: nat :: Told().Grants(g) ==> messages.Disposal().Some?)
      ensures forall d: nat :: Told().Sends(d) && Disposed(messages) ==> messages.handedOver != []
    {
      hide Inv, NotesAfter, MessagesAfter, Trace.Before, Trace.NotesAt, Trace.MessagesAt, Trace.At, OfTurn,
           Trace.OnceEach, SentWell;
      var t := Told();
      OncePerJob();
      DisposalsMean(t, |log|);
      if messages.disposals != [] {
        assert messages.Disposal().value in messages.disposals;
        DisposalMeans(t, |log|);
      }
      forall d: nat | t.Sends(d)
        ensures messages.disposals == [d]
      {
        assert t.Disposes(d);
      }
    }

    lemma HowItEnded()
      requires Valid() && FlagsMatch()
      ensures Balanced() ==> Told().Balanced()
      ensures WellEnded(messages, noted) ==> Told().WellEnded()
      ensures Lost(messages) && Threw(messages.Disposal()) ==>
                Told().LosesIts(messages.Disposal().value)
    {
      hide Inv, NotesAfter, MessagesAfter, OfTurn, SentWell, Agree, Valid, FlagsMatch, Trace.Settles, Trace.Releases,
           Trace.TriesCompletion, Disposed, Trace.Grants;
      HowTheClaimEnded();
      HowTheMessageEnded();
      ReservedWasGranted();
    }

    lemma ReservedWasGranted()
      requires Valid()
      ensures messages.reserved.Some? ==> exists g: nat :: Told().Grants(g)
    {
      hide Inv, NotesAfter, MessagesAfter, Trace.Before, Trace.NotesAt, Trace.MessagesAt, Trace.At, OfTurn,
           Trace.Grants;
      GrantsMean(Told(), |log|);
      if messages.grants != [] { assert messages.grants[|messages.grants| - 1] in messages.grants; }
    }

    /** Nothing is reserved, sent or failed without a claim. */
    lemma NothingWithoutAClaim()
      requires Valid() && messages == NO_MESSAGES
      ensures forall k: nat :: !Told().Grants(k) && !Told().Disposes(k)
    {
      hide Inv, NotesAfter, MessagesAfter, Trace.Before, Trace.NotesAt, Trace.MessagesAt, Trace.At, OfTurn;
      GrantsMean(Told(), |log|);
      DisposalsMean(Told(), |log|);
    }

    /** Processing one job, told by its calls alone: the row is what the recorded calls made of it, the others'
        steps and the worker's own updates of its version.

        Nothing is reserved, sent or failed without a claim, at most one message is reserved and at most one
        call disposes of it, and what is sent was checked.  After a claim every exit, exceptions included, is
        balanced, if no call raises the queue's delay signal; in general the only exits that may not be are
        those by such a signal, and then the claim is settled exactly when the signal came from queueing what
        is newer or from the release after a suppression, or the catch had been entered. */
    method Process() returns (r: Result<(), Exception>)
      requires Valid() && Fresh()
      modifies this, row
      ensures Valid() && KnownOrScheduled(r)
      ensures Told().OnceEach() && Told().SentWell(hasOwnership)
      ensures Told().Claimed() <==> Begins(old(row.View()))
      ensures !Told().Claimed() ==> forall k: nat :: !Told().Grants(k) && !Told().Disposes(k)
      ensures Told().Claimed() && !SomeCallDelays() ==> Told().Balanced()
      ensures Told().Claimed() && r != Err(Delayed(false)) ==> Told().Balanced()
      ensures Told().Claimed() && r == Err(Delayed(false)) ==> Told().Balanced() || Told().DelayIsExact()
      ensures Told().Claimed() && r.Ok? ==> Told().WellEnded()
      ensures Loses(old(row.View()), 0) ==> Told().Claimed() && r.Err? && exists d: nat :: Told().LosesIts(d)
    {
      hide Inv, Valid, FlagsMatch, WellEnded, Balanced, DelayIsExact, Loses, Lost, Begins,
           Trace.OnceEach, Trace.SentWell, Trace.Claimed, Trace.Balanced, Trace.WellEnded,
           Trace.DelayIsExact, Trace.LosesIts, Trace.Grants, Trace.Disposes;
      r := ProcessTurn();
      OncePerJob();
      WhatWasSent();
      HowTheClaimEnded();
      HowItEnded();
      ClaimedIsLogged();
      if !messages.claimed { NothingWithoutAClaim(); }
    }

    lemma ClaimedIsLogged()
      requires Valid()
      ensures messages.claimed ==> log != []
    {
      hide Inv, Trace.At;
    }
  }

  /** A run that loses a message although no call of the clean-up fails: a recovery turn reserves a
      message, control is lost, the call that should fail the message throws, and the clean-up does not
      try it again. */
  method LoseAMessage() returns (worker: Worker, r: Result<(), Exception>)
    ensures worker.Valid() && r.Err?
    ensures exists d: nat :: worker.Told().LosesIts(d)
    ensures forall d: nat, k: nat :: worker.Told().LosesIts(d) && worker.env(k).fault != NoFault ==> k == d
  {
    hide After, Trace.LosesIts;
    var row := new ConversationRow();
    var _ := row.ReceiveMessage("m", 0, Recovery(None));
    var env := (k: nat) =>
      Answer([], if k == 9 then Fails else NoFault, 1_000_000, k != 8, Pass, Loaded(false, false, false, false),
             Admitted(7, false));
    worker := new Worker(env, row, true, false, false, 0, 0, 1);
    ghost var state := row.View();
    assert state.pendingAiControlRevision.Some? && TurnStaleReason(state, 1).None?;
    assert SettleDelay(state, 1_000_000, 0, 0) <= 0;
    assert Succeeds(state, Claim(1, 1_000_000, state.pendingAiControlRevision));
    assert worker.ReplyLoses(7);
    assert worker.AdmittedLoses(5);
    assert worker.OpenLoses(4);
    assert worker.LoadedLoses(2);
    assert worker.EligibleAt(state) <= 1_000_000;
    assert worker.Loses(state, 0);
    r := worker.Process();
    OnlyFaultsLose(worker.Told());
  }

  lemma OnlyFaultsLose(t: Trace)
    ensures forall d: nat :: t.LosesIts(d) ==> t.env(d).fault != NoFault
  {}
}
