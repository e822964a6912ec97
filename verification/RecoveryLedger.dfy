/** The ledger of free recovery credits: reservations against entitlement counters.

    Each transaction is one atomic step.  `interfered` says that another transaction moved the
    counter's version first, so that the guarded update matches no row and the step aborts. */
module RecoveryLedger {
  import opened Common

  const MAX_SAFE_INTEGER := 0x1F_FFFF_FFFF_FFFF

  datatype CounterKind = LIFETIME_FREE | PURCHASED | OTHER_COUNTER

  /** A shop has at most one counter of a kind, so the pair identifies the row. */
  datatype CounterKey = CounterKey(shopId: string, kind: CounterKind)

  datatype Counter = Counter(granted: int, committed: int, reserved: int, version: int)

  datatype Status = RESERVED | COMMITTED | RELEASED | AMBIGUOUS

  datatype Reservation = Reservation(
    shopId: string, counter: Option<CounterKey>, sourceKey: string, quantity: int, status: Status, event: Option<nat>)

  /** A usage event; (shopId, sourceKey) is its unique idempotency key. */
  datatype UsageEvent = UsageEvent(shopId: string, sourceKey: string, quantity: int, reservation: nat)

  datatype Ledger = Ledger(counters: map<CounterKey, Counter>, reservations: seq<Reservation>, events: seq<UsageEvent>)

  datatype Outcome =
    | Reserved | Committed | Released | Ambiguous
    | Replay(status: Status)
    | AllowanceExhausted(remaining: int)
    | Paused
    | Refused
    | ConcurrencyConflict

  // ---------------------------------------------------------------- transition table

  datatype Transition = Reactivate | Commit | Release | MarkAmbiguous

  datatype Decision = Apply | ReplayIt | Refuse

  /** Only reserved credit can move on, only released credit can be taken up again; anything else
      replays the stored status, except that committed credit refuses to be released. */
  function Decide(r: Reservation, t: Transition, requested: int): Decision {
    if t == Release && r.status == COMMITTED then Refuse
    else if r.status != (if t == Reactivate then RELEASED else RESERVED) then ReplayIt
    else if t != MarkAmbiguous && r.quantity != requested then Refuse
    else Apply
  }

  predicate ValidQuantity(q: int) { 0 < q <= MAX_SAFE_INTEGER }

  /** The counter is within its grant. */
  predicate Sound(c: Counter) {
    && 0 <= c.granted <= MAX_SAFE_INTEGER && 0 <= c.committed && 0 <= c.reserved
    && c.committed + c.reserved <= c.granted
  }

  function Remaining(c: Counter): int { c.granted - c.committed - c.reserved }

  // ---------------------------------------------------------------- steps

  /** The row with this source key, if any. */
  function Find(rs: seq<Reservation>, sourceKey: string): (found: Option<nat>)
    ensures found.Some? ==> found.value < |rs| && rs[found.value].sourceKey == sourceKey
    ensures found.None? ==> forall i :: 0 <= i < |rs| ==> rs[i].sourceKey != sourceKey
  {
    if rs == [] then None
    else if rs[|rs| - 1].sourceKey == sourceKey then Some(|rs| - 1)
    else Find(rs[..|rs| - 1], sourceKey)
  }

  function Hold(l: Ledger, key: CounterKey, q: int): Ledger
    requires key in l.counters
  {
    var c := l.counters[key];
    l.(counters := l.counters[key := c.(reserved := c.reserved + q, version := c.version + 1)])
  }

  function SetStatus(l: Ledger, i: nat, status: Status): Ledger
    requires i < |l.reservations|
  {
    l.(reservations := l.reservations[i := l.reservations[i].(status := status)])
  }

  function ReserveStep(l: Ledger, shopId: string, sourceKey: string, q: int, paused: bool, interfered: bool)
    : (Ledger, Outcome)
  {
    match Find(l.reservations, sourceKey)
    case Some(i) =>
      var r := l.reservations[i];
      if r.shopId != shopId || r.counter.None? || r.counter.value !in l.counters
         || r.counter.value.kind == OTHER_COUNTER then (l, Refused)
      else if r.counter.value.kind == PURCHASED then (l, Replay(r.status))
      else
        var c := l.counters[r.counter.value];
        (match Decide(r, Reactivate, q)
         case ReplayIt => (l, Replay(r.status))
         case Refuse => (l, Refused)
         case Apply =>
           if !Sound(c) then (l, Refused)
           else if Remaining(c) < q then (l, Replay(r.status))
           else if interfered then (l, ConcurrencyConflict)
           else (SetStatus(Hold(l, r.counter.value, q), i, RESERVED), Reserved))
    case None =>
      var key := CounterKey(shopId, LIFETIME_FREE);
      if paused then (l, Paused)
      else if key !in l.counters || !Sound(l.counters[key]) then (l, Refused)
      else if Remaining(l.counters[key]) < q then (l, AllowanceExhausted(Remaining(l.counters[key])))
      else if interfered then (l, ConcurrencyConflict)
      else
        var m := Hold(l, key, q);
        (m.(reservations := m.reservations + [Reservation(shopId, Some(key), sourceKey, q, RESERVED, None)]), Reserved)
  }

  predicate EventExists(events: seq<UsageEvent>, shopId: string, sourceKey: string) {
    exists e :: 0 <= e < |events| && events[e].shopId == shopId && events[e].sourceKey == sourceKey
  }

  /** Commit and release share their guards: the row must exist for this shop, the transition must
      apply, and the counter must still hold the quantity under the version read.  A commit also needs a
      usage provider for the shop, and rolls back without one. */
  function MoveStep(l: Ledger, shopId: string, sourceKey: string, q: int, t: Transition, interfered: bool,
                    provider: bool)
    : (Ledger, Outcome)
    requires t == Commit || t == Release
  {
    match Find(l.reservations, sourceKey)
    case None => (l, Refused)
    case Some(i) =>
      var r := l.reservations[i];
      if r.shopId != shopId then (l, Refused)
      else match Decide(r, t, q)
        case ReplayIt => (l, Replay(r.status))
        case Refuse => (l, Refused)
        case Apply =>
          if r.counter.None? || r.counter.value !in l.counters then (l, Refused)
          else
            var key, c := r.counter.value, l.counters[r.counter.value];
            if interfered || c.reserved < q then (l, ConcurrencyConflict)
            else if t == Release then
              (SetStatus(Hold(l, key, -q), i, RELEASED), Released)
            else if !provider then (l, Refused)
            else if EventExists(l.events, shopId, sourceKey) then (l, ConcurrencyConflict)
            else
              (Ledger(l.counters[key := Counter(c.granted, c.committed + q, c.reserved - q, c.version + 1)],
                      l.reservations[i := r.(status := COMMITTED, event := Some(|l.events|))],
                      l.events + [UsageEvent(shopId, sourceKey, q, i)]), Committed)
  }

  function AmbiguousStep(l: Ledger, shopId: string, sourceKey: string): (Ledger, Outcome) {
    match Find(l.reservations, sourceKey)
    case None => (l, Refused)
    case Some(i) =>
      var r := l.reservations[i];
      if r.shopId != shopId then (l, Refused)
      else match Decide(r, MarkAmbiguous, r.quantity)
        case ReplayIt => (l, Replay(r.status))
        case Refuse => (l, Refused)
        case Apply => (SetStatus(l, i, AMBIGUOUS), Ambiguous)
  }

  datatype Op =
    | Reserve(shopId: string, sourceKey: string, quantity: Option<int>, paused: bool, interfered: bool)
    | Move(shopId: string, sourceKey: string, quantity: Option<int>, commit: bool, interfered: bool, provider: bool)
    | Doubt(shopId: string, sourceKey: string, quantity: Option<int>)

  /** The quantity defaults to one and must be a positive safe integer. */
  function Requested(quantity: Option<int>): int { if quantity.None? then 1 else quantity.value }

  function Step(l: Ledger, op: Op): (Ledger, Outcome) {
    var q := Requested(op.quantity);
    if !ValidQuantity(q) then (l, Refused)
    else match op
      case Reserve(shopId, sourceKey, _, paused, interfered) => ReserveStep(l, shopId, sourceKey, q, paused, interfered)
      case Move(shopId, sourceKey, _, commit, interfered, provider) =>
        MoveStep(l, shopId, sourceKey, q, if commit then Commit else Release, interfered, provider)
      case Doubt(shopId, sourceKey, _) => AmbiguousStep(l, shopId, sourceKey)
  }

  function Run(l: Ledger, ops: seq<Op>): Ledger {
    if ops == [] then l else Step(Run(l, ops[..|ops| - 1]), ops[|ops| - 1]).0
  }

  // ---------------------------------------------------------------- conservation

  /** The quantity of a reservation that a counter holds as reserved, or as committed. */
  function Weight(r: Reservation, key: CounterKey, committed: bool): int {
    if r.counter != Some(key) then 0
    else if committed then (if r.status == COMMITTED then r.quantity else 0)
    else (if r.status == RESERVED || r.status == AMBIGUOUS then r.quantity else 0)
  }

  function Total(rs: seq<Reservation>, key: CounterKey, committed: bool): int {
    if rs == [] then 0
    else Total(rs[..|rs| - 1], key, committed) + Weight(rs[|rs| - 1], key, committed)
  }

  /** Every counter is within its grant and is the sum of its reservations. */
  ghost predicate Balanced(l: Ledger) {
    forall key :: key in l.counters ==> CounterBalanced(l, key)
  }

  ghost predicate CounterBalanced(l: Ledger, key: CounterKey)
    requires key in l.counters
  {
    && Sound(l.counters[key])
    && l.counters[key].reserved == Total(l.reservations, key, false)
    && l.counters[key].committed == Total(l.reservations, key, true)
  }

  ghost predicate RowsValid(l: Ledger) {
    && (forall i :: 0 <= i < |l.reservations| ==> l.reservations[i].quantity > 0)
    && (forall i :: 0 <= i < |l.reservations| && l.reservations[i].counter.Some? ==>
          l.reservations[i].counter.value in l.counters)
    && (forall i, j :: 0 <= i < j < |l.reservations| ==> l.reservations[i].sourceKey != l.reservations[j].sourceKey)
  }

  /** A reservation is committed exactly when it points at a usage event, that event points back
      and carries its quantity, and no event lacks such a reservation. */
  ghost predicate EventsMatch(l: Ledger) {
    && (forall i :: 0 <= i < |l.reservations| ==>
          (l.reservations[i].status == COMMITTED <==> l.reservations[i].event.Some?))
    && (forall i :: 0 <= i < |l.reservations| && l.reservations[i].event.Some? ==>
          l.reservations[i].event.value < |l.events| && l.events[l.reservations[i].event.value].reservation == i)
    && (forall e :: 0 <= e < |l.events| ==> EventMatches(l, e))
  }

  ghost predicate EventMatches(l: Ledger, e: nat)
    requires e < |l.events|
  {
    var ev := l.events[e];
    && ev.reservation < |l.reservations|
    && l.reservations[ev.reservation].event == Some(e)
    && l.reservations[ev.reservation].shopId == ev.shopId
    && l.reservations[ev.reservation].sourceKey == ev.sourceKey
    && l.reservations[ev.reservation].quantity == ev.quantity
  }

  ghost predicate Inv(l: Ledger) {
    Balanced(l) && RowsValid(l) && EventsMatch(l)
  }

  lemma {:induction false} TotalUpdate(rs: seq<Reservation>, i: nat, r: Reservation, key: CounterKey, committed: bool)
    requires i < |rs|
    ensures Total(rs[i := r], key, committed)
            == Total(rs, key, committed) - Weight(rs[i], key, committed) + Weight(r, key, committed)
  {
    var n := |rs| - 1;
    if i < n {
      TotalUpdate(rs[..n], i, r, key, committed);
      assert rs[i := r][..n] == rs[..n][i := r];
    } else {
      assert rs[i := r][..n] == rs[..n];
    }
  }

  lemma {:induction false} TotalCovers(rs: seq<Reservation>, i: nat, key: CounterKey, committed: bool)
    requires i < |rs| && forall k :: 0 <= k < |rs| ==> rs[k].quantity > 0
    ensures 0 <= Weight(rs[i], key, committed) <= Total(rs, key, committed)
  {
    var n := |rs| - 1;
    if i < n {
      TotalCovers(rs[..n], i, key, committed);
    } else if n > 0 {
      TotalCovers(rs[..n], n - 1, key, committed);
    }
  }

  /** The counter moves by exactly what the reservation's change of row weighs. */
  ghost predicate MovesBy(c: Counter, d: Counter, was: Reservation, now: Reservation, key: CounterKey) {
    && Sound(d)
    && d.reserved == c.reserved - Weight(was, key, false) + Weight(now, key, false)
    && d.committed == c.committed - Weight(was, key, true) + Weight(now, key, true)
  }

  lemma ReplacementKeepsBalance(l: Ledger, m: Ledger, i: nat, now: Reservation)
    requires Balanced(l) && i < |l.reservations| && m.reservations == l.reservations[i := now]
    requires m.counters.Keys == l.counters.Keys
    requires forall key :: key in l.counters ==> MovesBy(l.counters[key], m.counters[key], l.reservations[i], now, key)
    ensures Balanced(m)
  {
    forall key | key in m.counters
      ensures CounterBalanced(m, key)
    {
      assert CounterBalanced(l, key);
      TotalUpdate(l.reservations, i, now, key, true);
      TotalUpdate(l.reservations, i, now, key, false);
    }
  }

  lemma AdditionKeepsBalance(l: Ledger, m: Ledger, now: Reservation)
    requires Balanced(l) && m.reservations == l.reservations + [now]
    requires m.counters.Keys == l.counters.Keys
    requires forall key :: key in l.counters ==>
      Sound(m.counters[key])
      && m.counters[key].reserved == l.counters[key].reserved + Weight(now, key, false)
      && m.counters[key].committed == l.counters[key].committed + Weight(now, key, true)
    ensures Balanced(m)
  {
    assert m.reservations[..|l.reservations|] == l.reservations;
    forall key | key in m.counters
      ensures CounterBalanced(m, key)
    {
      assert CounterBalanced(l, key);
    }
  }

  lemma ReserveKeepsBalance(l: Ledger, shopId: string, sourceKey: string, q: int, paused: bool, interfered: bool)
    requires Inv(l) && q > 0
    ensures Balanced(ReserveStep(l, shopId, sourceKey, q, paused, interfered).0)
  {
    hide Total, RowsValid, EventsMatch;
    var m := ReserveStep(l, shopId, sourceKey, q, paused, interfered).0;
    assert forall key :: key in l.counters ==> CounterBalanced(l, key);
    match Find(l.reservations, sourceKey)
    case None =>
      if m != l { AdditionKeepsBalance(l, m, m.reservations[|l.reservations|]); }
    case Some(i) =>
      if m != l { ReplacementKeepsBalance(l, m, i, m.reservations[i]); }
  }

  lemma MoveKeepsBalance(l: Ledger, shopId: string, sourceKey: string, q: int, t: Transition, interfered: bool,
                         provider: bool)
    requires Inv(l) && q > 0 && (t == Commit || t == Release)
    ensures Balanced(MoveStep(l, shopId, sourceKey, q, t, interfered, provider).0)
  {
    hide Total, RowsValid, EventsMatch, EventExists;
    var m := MoveStep(l, shopId, sourceKey, q, t, interfered, provider).0;
    assert forall key :: key in l.counters ==> CounterBalanced(l, key);
    if m != l {
      var i := Find(l.reservations, sourceKey).value;
      ReplacementKeepsBalance(l, m, i, m.reservations[i]);
    }
  }

  lemma AmbiguousKeepsBalance(l: Ledger, shopId: string, sourceKey: string)
    requires Inv(l)
    ensures Balanced(AmbiguousStep(l, shopId, sourceKey).0)
  {
    hide Total, RowsValid, EventsMatch;
    var m := AmbiguousStep(l, shopId, sourceKey).0;
    assert forall key :: key in l.counters ==> CounterBalanced(l, key);
    if m != l {
      var i := Find(l.reservations, sourceKey).value;
      ReplacementKeepsBalance(l, m, i, m.reservations[i]);
    }
  }

  /** One transaction keeps every counter equal to its reservations and within its grant. */
  lemma StepKeepsBalance(l: Ledger, op: Op)
    requires Inv(l)
    ensures Balanced(Step(l, op).0)
  {
    var q := Requested(op.quantity);
    if ValidQuantity(q) {
      match op
      case Reserve(shopId, sourceKey, _, paused, interfered) =>
        ReserveKeepsBalance(l, shopId, sourceKey, q, paused, interfered);
      case Move(shopId, sourceKey, _, commit, interfered, provider) =>
        MoveKeepsBalance(l, shopId, sourceKey, q, if commit then Commit else Release, interfered, provider);
      case Doubt(shopId, sourceKey, _) => AmbiguousKeepsBalance(l, shopId, sourceKey);
    }
  }

  lemma StepKeepsRows(l: Ledger, op: Op)
    requires Inv(l)
    ensures RowsValid(Step(l, op).0)
  {
    hide Total, Balanced, EventsMatch;
  }

  lemma StepKeepsEvents(l: Ledger, op: Op)
    requires Inv(l)
    ensures EventsMatch(Step(l, op).0)
  {
    hide Total, Balanced;
    var m := Step(l, op).0;
    forall e | 0 <= e < |m.events|
      ensures EventMatches(m, e)
    {
      if e < |l.events| { assert EventMatches(l, e); }
    }
  }

  /** Conservation in every state any sequence of transactions can reach. */
  lemma {:induction false} RunKeepsInv(l: Ledger, ops: seq<Op>)
    requires Inv(l)
    ensures Inv(Run(l, ops))
  {
    if ops != [] {
      var n := |ops| - 1;
      RunKeepsInv(l, ops[..n]);
      StepKeepsBalance(Run(l, ops[..n]), ops[n]);
      StepKeepsRows(Run(l, ops[..n]), ops[n]);
      StepKeepsEvents(Run(l, ops[..n]), ops[n]);
    }
  }

  /** Nothing is ever written by a replay, a refusal or an aborted conflict, and an applied
      transaction always writes. */
  lemma OnlyAppliedStepsWrite(l: Ledger, op: Op)
    ensures var (m, outcome) := Step(l, op);
            m != l <==> outcome in {Reserved, Committed, Released, Ambiguous}
  {
    var (m, outcome) := Step(l, op);
    if Find(l.reservations, op.sourceKey).Some? && outcome in {Reserved, Committed, Released, Ambiguous} {
      var i := Find(l.reservations, op.sourceKey).value;
      assert m.reservations[i].status != l.reservations[i].status;
    }
  }

  /** A reservation can be committed or released: it is this shop's, reserved, of the requested
      size, and has a counter. */
  predicate Movable(l: Ledger, shopId: string, sourceKey: string, q: int) {
    var found := Find(l.reservations, sourceKey);
    && found.Some?
    && var r := l.reservations[found.value];
    && r.shopId == shopId && r.status == RESERVED && r.quantity == q && r.counter.Some?
  }

  /** Commit and release succeed exactly on movable reservations that no other transaction
      interfered with, a commit only with a provider: in reachable states neither the reserved-quantity
      guard nor the unique key of the usage event can ever be what stops them. */
  lemma MoveSucceedsIff(l: Ledger, shopId: string, sourceKey: string, q: int, commit: bool, interfered: bool,
                        provider: bool)
    requires Inv(l) && ValidQuantity(q)
    ensures var outcome := Step(l, Move(shopId, sourceKey, Some(q), commit, interfered, provider)).1;
            && (outcome == (if commit then Committed else Released)
                <==> Movable(l, shopId, sourceKey, q) && !interfered && (commit ==> provider))
            && (outcome == ConcurrencyConflict <==> Movable(l, shopId, sourceKey, q) && interfered)
  {
    if Movable(l, shopId, sourceKey, q) {
      var i := Find(l.reservations, sourceKey).value;
      var key := l.reservations[i].counter.value;
      assert CounterBalanced(l, key);
      TotalCovers(l.reservations, i, key, false);
      forall e | 0 <= e < |l.events|
        ensures l.events[e].sourceKey != sourceKey
      {
        assert EventMatches(l, e);
      }
    }
  }

  /** Credit is granted exactly while it lasts: a new source gets a reservation iff the shop is
      not paused, has the counter, and the remaining allowance covers the quantity. */
  lemma ReserveSucceedsIff(l: Ledger, shopId: string, sourceKey: string, q: int, paused: bool)
    requires Inv(l) && ValidQuantity(q) && Find(l.reservations, sourceKey).None?
    ensures var key := CounterKey(shopId, LIFETIME_FREE);
            Step(l, Reserve(shopId, sourceKey, Some(q), paused, false)).1 == Reserved
            <==> !paused && key in l.counters && q <= Remaining(l.counters[key])
  {
    var key := CounterKey(shopId, LIFETIME_FREE);
    if key in l.counters { assert CounterBalanced(l, key); }
  }

  /** A successful reservation is held by one counter and can be moved. */
  lemma ReserveIsMovable(l: Ledger, shopId: string, sourceKey: string, q: int, paused: bool)
      returns (key: CounterKey)
    requires Inv(l) && ReserveStep(l, shopId, sourceKey, q, paused, false).1 == Reserved
    ensures var m := ReserveStep(l, shopId, sourceKey, q, paused, false).0;
            && key in l.counters && m.counters == Hold(l, key, q).counters
            && Movable(m, shopId, sourceKey, q)
            && m.reservations[Find(m.reservations, sourceKey).value].counter == Some(key)
  {
    hide Balanced, EventsMatch;
    var m := ReserveStep(l, shopId, sourceKey, q, paused, false).0;
    var found := Find(l.reservations, sourceKey);
    var i := if found.Some? then found.value else |l.reservations|;
    key := if found.Some? then l.reservations[i].counter.value else CounterKey(shopId, LIFETIME_FREE);
    assert m.reservations[i].sourceKey == sourceKey;
    forall j | 0 <= j < |m.reservations| && j != i
      ensures m.reservations[j].sourceKey != sourceKey
    {
      assert m.reservations[j] == l.reservations[j];
    }
  }

  /** Releasing a reservation gives back exactly what reserving it took. */
  lemma ReleaseUndoesReserve(l: Ledger, shopId: string, sourceKey: string, q: int, paused: bool)
    requires Inv(l) && ValidQuantity(q)
    requires Step(l, Reserve(shopId, sourceKey, Some(q), paused, false)).1 == Reserved
    ensures var m := Step(l, Reserve(shopId, sourceKey, Some(q), paused, false)).0;
            var (n, outcome) := Step(m, Move(shopId, sourceKey, Some(q), false, false, true));
            && outcome == Released
            && n.counters.Keys == l.counters.Keys
            && (forall key :: key in l.counters ==>
                  Remaining(n.counters[key]) == Remaining(l.counters[key])
                  && n.counters[key].committed == l.counters[key].committed)
  {
    hide Inv, ReserveStep, Find;
    var op := Reserve(shopId, sourceKey, Some(q), paused, false);
    var m := Step(l, op).0;
    RunKeepsInv(l, [op]);
    assert [op][..0] == [] && Run(l, [op]) == m;
    var key := ReserveIsMovable(l, shopId, sourceKey, q, paused);
    MoveSucceedsIff(m, shopId, sourceKey, q, false, false, true);
  }

  lemma StepKeepsFinal(l: Ledger, op: Op, i: nat)
    requires i < |l.reservations| && (l.reservations[i].status == COMMITTED || l.reservations[i].status == AMBIGUOUS)
    ensures i < |Step(l, op).0.reservations| && Step(l, op).0.reservations[i] == l.reservations[i]
  {}

  /** Committed and ambiguous reservations are final for this service: no sequence of its
      transactions changes them again. */
  lemma {:induction false} FinalStates(l: Ledger, ops: seq<Op>, i: nat)
    requires i < |l.reservations| && (l.reservations[i].status == COMMITTED || l.reservations[i].status == AMBIGUOUS)
    ensures i < |Run(l, ops).reservations| && Run(l, ops).reservations[i] == l.reservations[i]
  {
    hide Step;
    if ops != [] {
      var n := |ops| - 1;
      FinalStates(l, ops[..n], i);
      StepKeepsFinal(Run(l, ops[..n]), ops[n], i);
    }
  }

  lemma StepKeepsInv(l: Ledger, op: Op)
    requires Inv(l)
    ensures Inv(Step(l, op).0)
  {
    hide Balanced, RowsValid, EventsMatch;
    StepKeepsBalance(l, op);
    StepKeepsRows(l, op);
    StepKeepsEvents(l, op);
  }

  /** A source has at most one usage event. */
  ghost predicate OneEvent(events: seq<UsageEvent>, sourceKey: string) {
    forall e, f :: 0 <= e < f < |events| ==> events[e].sourceKey != sourceKey || events[f].sourceKey != sourceKey
  }

  ghost predicate IsCommitted(l: Ledger, shopId: string, sourceKey: string) {
    exists i :: 0 <= i < |l.reservations| && l.reservations[i].shopId == shopId
                && l.reservations[i].sourceKey == sourceKey && l.reservations[i].status == COMMITTED
  }

  /** A source has at most one usage event, and has one exactly when it is committed. */
  lemma OneEventPerSource(l: Ledger, shopId: string, sourceKey: string)
    requires Inv(l)
    ensures OneEvent(l.events, sourceKey)
    ensures EventExists(l.events, shopId, sourceKey) <==> IsCommitted(l, shopId, sourceKey)
  {
    hide Balanced;
    forall e, f | 0 <= e < f < |l.events|
      ensures l.events[e].sourceKey != sourceKey || l.events[f].sourceKey != sourceKey
    {
      assert EventMatches(l, e) && EventMatches(l, f);
    }
    if EventExists(l.events, shopId, sourceKey) {
      var e :| 0 <= e < |l.events| && l.events[e].shopId == shopId && l.events[e].sourceKey == sourceKey;
      assert EventMatches(l, e);
    }
    if IsCommitted(l, shopId, sourceKey) {
      var i :| 0 <= i < |l.reservations| && l.reservations[i].shopId == shopId
               && l.reservations[i].sourceKey == sourceKey && l.reservations[i].status == COMMITTED;
      assert EventMatches(l, l.reservations[i].event.value);
    }
  }

  // ---------------------------------------------------------------- retrying a commit

  /** A commit that may be retried: before each attempt others do what they like, be it to this very
      reservation, and `conflicts` says which attempts abort. */
  datatype Trial = Trial(
    shopId: string, sourceKey: string, quantity: Option<int>, others: nat -> seq<Op>, conflicts: nat -> bool,
    provider: bool)

  function Own(t: Trial, k: nat): Op { Move(t.shopId, t.sourceKey, t.quantity, true, t.conflicts(k), t.provider) }

  /** Everything that happens in the first `n` attempts. */
  function History(t: Trial, n: nat): seq<Op> {
    if n == 0 then [] else History(t, n - 1) + t.others(n - 1) + [Own(t, n - 1)]
  }

  /** The ledger as attempt `k` finds it. */
  function Met(l: Ledger, t: Trial, k: nat): Ledger { Run(l, History(t, k) + t.others(k)) }

  /** Attempt `k` was a conflict and wrote nothing. */
  ghost predicate Conflicted(l: Ledger, t: Trial, k: nat) {
    t.conflicts(k) && Step(Met(l, t, k), Own(t, k)) == (Met(l, t, k), ConcurrencyConflict)
  }

  /** Attempt `k` ended in this ledger with this answer: it wrote only if it committed, and it committed
      only a source that had no usage event. */
  ghost predicate Decided(l: Ledger, t: Trial, k: nat, m: Ledger, outcome: Outcome) {
    && (m, outcome) == Step(Met(l, t, k), Own(t, k))
    && (if outcome == Committed then !EventExists(Met(l, t, k).events, t.shopId, t.sourceKey) else m == Met(l, t, k))
  }

  lemma {:induction false} RunSplit(l: Ledger, a: seq<Op>, b: seq<Op>)
    ensures Run(l, a + b) == Run(Run(l, a), b)
  {
    if b == [] {
      assert a + b == a;
    } else {
      var n := |b| - 1;
      assert (a + b)[..|a + b| - 1] == a + b[..n];
      RunSplit(l, a, b[..n]);
    }
  }

  lemma RunSnoc(l: Ledger, ops: seq<Op>, op: Op)
    ensures Run(l, ops + [op]) == Step(Run(l, ops), op).0
  {
    assert (ops + [op])[..|ops|] == ops;
  }

  /** A commit attempt: a success or a replayed success leaves a usage event behind, only interference
      makes it a conflict, and a conflict writes nothing. */
  lemma CommitAttempt(l: Ledger, shopId: string, sourceKey: string, q: int, interfered: bool, provider: bool)
    requires Inv(l) && ValidQuantity(q)
    ensures var (m, outcome) := Step(l, Move(shopId, sourceKey, Some(q), true, interfered, provider));
            && Inv(m)
            && (outcome == Committed || outcome == Replay(COMMITTED) ==> EventExists(m.events, shopId, sourceKey))
            && (outcome == Committed ==> !EventExists(l.events, shopId, sourceKey))
            && (outcome != Committed ==> m == l)
            && (outcome == ConcurrencyConflict ==> interfered)
  {
    hide Total, Balanced, RowsValid, EventsMatch;
    var op := Move(shopId, sourceKey, Some(q), true, interfered, provider);
    StepKeepsInv(l, op);
    OneEventPerSource(l, shopId, sourceKey);
    MoveSucceedsIff(l, shopId, sourceKey, q, true, interfered, provider);
    var (m, outcome) := Step(l, op);
    if outcome == Committed {
      assert m.events[|l.events|].shopId == shopId && m.events[|l.events|].sourceKey == sourceKey;
    }
  }

  // ---------------------------------------------------------------- the service

  class LedgerStore {
    var counters: map<CounterKey, Counter>
    var reservations: seq<Reservation>
    var events: seq<UsageEvent>

    constructor (counters: map<CounterKey, Counter>)
      requires forall key :: key in counters ==>
        Sound(counters[key]) && counters[key].committed == 0 && counters[key].reserved == 0
      ensures Inv(View())
    {
      this.counters, reservations, events := counters, [], [];
    }

    function View(): Ledger
      reads this
    {
      Ledger(counters, reservations, events)
    }

    method UpdateCounter(key: CounterKey, reservedBy: int, committedBy: int)
      requires key in counters
      modifies this`counters
      ensures counters == old(counters)[key := Counter(old(counters)[key].granted,
                                                       old(counters)[key].committed + committedBy,
                                                       old(counters)[key].reserved + reservedBy,
                                                       old(counters)[key].version + 1)]
    {
      var c := counters[key];
      counters := counters[
        key := Counter(c.granted, c.committed + committedBy, c.reserved + reservedBy, c.version + 1)];
    }

    method ReserveInTransaction(shopId: string, sourceKey: string, q: int, paused: bool, interfered: bool)
      returns (outcome: Outcome)
      modifies this
      ensures (View(), outcome) == ReserveStep(old(View()), shopId, sourceKey, q, paused, interfered)
    {
      var existing := Find(reservations, sourceKey);
      if existing.Some? {
        var i := existing.value;
        var r := reservations[i];
        if r.shopId != shopId { return Refused; }
        if r.counter.None? || r.counter.value !in counters { return Refused; }
        if r.counter.value.kind == OTHER_COUNTER { return Refused; }
        if r.counter.value.kind == LIFETIME_FREE {
          var decision := Decide(r, Reactivate, q);
          if decision == Refuse { return Refused; }
          if decision == ReplayIt { return Replay(r.status); }
          var counter := counters[r.counter.value];
          if !Sound(counter) { return Refused; }
          if Remaining(counter) < q { return Replay(r.status); }
          if interfered { return ConcurrencyConflict; }
          UpdateCounter(r.counter.value, q, 0);
          reservations := reservations[i := r.(status := RESERVED)];
          return Reserved;
        }
        return Replay(r.status);
      }
      if paused { return Paused; }
      var key := CounterKey(shopId, LIFETIME_FREE);
      if key !in counters { return Refused; }
      if !Sound(counters[key]) { return Refused; }
      var remaining := Remaining(counters[key]);
      if remaining < q { return AllowanceExhausted(remaining); }
      if interfered { return ConcurrencyConflict; }
      UpdateCounter(key, q, 0);
      reservations := reservations + [Reservation(shopId, Some(key), sourceKey, q, RESERVED, None)];
      return Reserved;
    }

    method CommitInTransaction(shopId: string, sourceKey: string, q: int, interfered: bool, provider: bool)
      returns (outcome: Outcome)
      modifies this
      ensures (View(), outcome) == MoveStep(old(View()), shopId, sourceKey, q, Commit, interfered, provider)
    {
      var before := counters;
      var existing := Find(reservations, sourceKey);
      if existing.None? { return Refused; }
      var i := existing.value;
      var r := reservations[i];
      if r.shopId != shopId { return Refused; }
      var decision := Decide(r, Commit, q);
      if decision == Refuse { return Refused; }
      if decision == ReplayIt { return Replay(r.status); }
      if r.counter.None? || r.counter.value !in counters { return Refused; }
      if interfered || counters[r.counter.value].reserved < q { return ConcurrencyConflict; }
      UpdateCounter(r.counter.value, -q, q);
      if !provider {
        counters := before;
        return Refused;
      }
      if EventExists(events, shopId, sourceKey) {
        counters := before;
        return ConcurrencyConflict;
      }
      var event := |events|;
      events := events + [UsageEvent(shopId, sourceKey, q, i)];
      reservations := reservations[i := r.(status := COMMITTED, event := Some(event))];
      return Committed;
    }

    method ReleaseInTransaction(shopId: string, sourceKey: string, q: int, interfered: bool) returns (outcome: Outcome)
      modifies this
      ensures forall provider ::
                (View(), outcome) == MoveStep(old(View()), shopId, sourceKey, q, Release, interfered, provider)
    {
      var existing := Find(reservations, sourceKey);
      if existing.None? { return Refused; }
      var i := existing.value;
      var r := reservations[i];
      if r.shopId != shopId { return Refused; }
      var decision := Decide(r, Release, q);
      if decision == Refuse { return Refused; }
      if decision == ReplayIt { return Replay(r.status); }
      if r.counter.None? || r.counter.value !in counters { return Refused; }
      if interfered || counters[r.counter.value].reserved < q { return ConcurrencyConflict; }
      UpdateCounter(r.counter.value, -q, 0);
      reservations := reservations[i := r.(status := RELEASED)];
      return Released;
    }

    method MarkAmbiguousInTransaction(shopId: string, sourceKey: string) returns (outcome: Outcome)
      modifies this
      ensures (View(), outcome) == AmbiguousStep(old(View()), shopId, sourceKey)
    {
      var existing := Find(reservations, sourceKey);
      if existing.None? { return Refused; }
      var i := existing.value;
      var r := reservations[i];
      if r.shopId != shopId { return Refused; }
      var decision := Decide(r, MarkAmbiguous, r.quantity);
      if decision == Refuse { return Refused; }
      if decision == ReplayIt { return Replay(r.status); }
      reservations := reservations[i := r.(status := AMBIGUOUS)];
      return Ambiguous;
    }

    /** One public operation. */
    method Perform(op: Op) returns (outcome: Outcome)
      modifies this
      ensures (View(), outcome) == Step(old(View()), op)
    {
      var q := Requested(op.quantity);
      if !ValidQuantity(q) { return Refused; }
      match op
      case Reserve(shopId, sourceKey, _, paused, interfered) =>
        outcome := ReserveInTransaction(shopId, sourceKey, q, paused, interfered);
      case Move(shopId, sourceKey, _, commit, interfered, provider) =>
        if commit {
          outcome := CommitInTransaction(shopId, sourceKey, q, interfered, provider);
        } else {
          outcome := ReleaseInTransaction(shopId, sourceKey, q, interfered);
        }
      case Doubt(shopId, sourceKey, _) => outcome := MarkAmbiguousInTransaction(shopId, sourceKey);
    }

    /** Other transactions. */
    method PerformAll(ops: seq<Op>)
      modifies this
      ensures View() == Run(old(View()), ops)
    {
      hide Step;
      for i := 0 to |ops|
        invariant View() == Run(old(View()), ops[..i])
      {
        assert ops[..i + 1][..i] == ops[..i];
        var _ := Perform(ops[i]);
      }
      assert ops[..|ops|] == ops;
    }

    /** One attempt, after what the others did before it. */
    method CommitOnce(t: Trial, k: nat, ghost start: Ledger) returns (outcome: Outcome)
      requires Inv(start) && View() == Run(start, History(t, k)) && ValidQuantity(Requested(t.quantity))
      modifies this
      ensures View() == Run(start, History(t, k + 1)) && Inv(View()) && Decided(start, t, k, View(), outcome)
      ensures outcome == ConcurrencyConflict ==> Conflicted(start, t, k)
      ensures outcome == Committed || outcome == Replay(COMMITTED) ==> EventExists(events, t.shopId, t.sourceKey)
    {
      hide Inv, Step, MoveStep, EventExists;
      RunSplit(start, History(t, k), t.others(k));
      PerformAll(t.others(k));
      ghost var met := View();
      RunKeepsInv(start, History(t, k) + t.others(k));
      outcome := CommitInTransaction(t.shopId, t.sourceKey, Requested(t.quantity), t.conflicts(k), t.provider);
      AttemptIsStep(met, t.shopId, t.sourceKey, t.quantity, t.conflicts(k), t.provider);
      CommitAttempt(met, t.shopId, t.sourceKey, Requested(t.quantity), t.conflicts(k), t.provider);
      RunSnoc(start, History(t, k) + t.others(k), Own(t, k));
    }

    /** Retrying commits at most once, whatever the others do before each attempt: the ledger is the run
        of their steps and the attempts made, every attempt but the last found a conflict and wrote
        nothing, and the last one decides.  On every exit the source has at most one usage event, and it
        has one if the answer is a commit or the replay of one. */
    method CommitWithRetry(t: Trial, maxRetries: nat) returns (outcome: Outcome, ghost attempts: nat)
      requires Inv(View())
      modifies this
      ensures Inv(View()) && attempts <= maxRetries && View() == Run(old(View()), History(t, attempts))
      ensures forall k :: 0 <= k < attempts - 1 ==> Conflicted(old(View()), t, k)
      ensures if attempts == 0 then outcome == Refused else Decided(old(View()), t, attempts - 1, View(), outcome)
      ensures outcome == ConcurrencyConflict ==> attempts == maxRetries && t.conflicts(maxRetries - 1)
      ensures OneEvent(events, t.sourceKey)
      ensures outcome == Committed || outcome == Replay(COMMITTED) ==> EventExists(events, t.shopId, t.sourceKey)
    {
      hide Inv, Step, EventExists, Decided, Run, History, OneEvent;
      attempts := 0;
      ghost var start := View();
      OneEventPerSource(start, t.shopId, t.sourceKey);
      NothingYet(start, t);
      if !ValidQuantity(Requested(t.quantity)) { return Refused, attempts; }
      for attempt := 0 to maxRetries
        invariant Inv(View()) && attempts == attempt && View() == Run(start, History(t, attempt))
        invariant forall k :: 0 <= k < attempt ==> Conflicted(start, t, k)
        invariant OneEvent(events, t.sourceKey)
        invariant attempt < maxRetries || maxRetries == 0
      {
        outcome := CommitOnce(t, attempt, start);
        attempts := attempt + 1;
        OneEventPerSource(View(), t.shopId, t.sourceKey);
        if outcome != ConcurrencyConflict || attempt == maxRetries - 1 {
          return outcome, attempts;
        }
      }
      return Refused, attempts;
    }
  }

  lemma NothingYet(l: Ledger, t: Trial)
    ensures l == Run(l, History(t, 0))
  {}

  lemma AttemptIsStep(l: Ledger, shopId: string, sourceKey: string, quantity: Option<int>, interfered: bool,
                      provider: bool)
    requires ValidQuantity(Requested(quantity))
    ensures var q := Requested(quantity);
            && Step(l, Move(shopId, sourceKey, quantity, true, interfered, provider))
               == MoveStep(l, shopId, sourceKey, q, Commit, interfered, provider)
            && Step(l, Move(shopId, sourceKey, Some(q), true, interfered, provider))
               == MoveStep(l, shopId, sourceKey, q, Commit, interfered, provider)
  {
    hide MoveStep;
  }
}
