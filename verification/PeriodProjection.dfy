/** Projection of a provider subscription onto the current billing period, with repair of periods
    written before all their columns existed. */
module PeriodProjection {
  import opened Common

  const MAX_SAFE_INTEGER := 0x1F_FFFF_FFFF_FFFF

  datatype PlanKind = FREE | PAID_METERED
  datatype PeriodStatus = OPEN | CLOSED | OTHER_STATUS

  /** The allowance is None when it is null or not an integer. */
  datatype Plan = Plan(id: string, name: string, kind: PlanKind, allowance: Option<int>)

  datatype PeriodKey = PeriodKey(shopId: string, start: int, end: int)

  datatype Request = Request(key: PeriodKey, subscriptionId: string, handle: string, plan: Plan)

  datatype Period = Period(
    id: nat, subscriptionId: string, planId: Option<string>, handle: Option<string>, planName: Option<string>,
    planKind: Option<PlanKind>, granted: Option<int>, status: PeriodStatus)

  /** The included-credits counter of a period. */
  datatype Counter = Counter(shopId: string, granted: int, committed: int, reserved: int, forfeited: int)

  /** Periods by their unique (shop, start, end), included-credits counters by period id. */
  datatype Store = Store(periods: map<PeriodKey, Period>, counters: map<nat, Counter>, nextId: nat)

  datatype Reason =
    | CLOSED_PERIOD | SUBSCRIPTION_MISMATCH | HANDLE_MISMATCH | PLAN_MISMATCH | PLAN_NAME_MISMATCH
    | PLAN_KIND_MISMATCH | INCLUDED_GRANT_MISMATCH | FREE_INCLUDED_COUNTER_PRESENT
    | INVALID_INCLUDED_ALLOWANCE | PAID_COUNTER_MISMATCH

  datatype Outcome =
    | Ready(periodId: nat, repaired: bool)
    | Conflict(conflictId: Option<nat>, reason: Reason)

  predicate Quantity(n: int) { 0 <= n <= MAX_SAFE_INTEGER }

  predicate Solvent(c: Counter) {
    && Quantity(c.granted) && Quantity(c.committed) && Quantity(c.reserved) && Quantity(c.forfeited)
    && c.committed + c.reserved + c.forfeited <= c.granted
  }

  /** Ids identify periods, and every counter belongs to a period. */
  ghost predicate Consistent(s: Store) {
    && (forall k :: k in s.periods ==> s.periods[k].id < s.nextId)
    && (forall k, l :: k in s.periods && l in s.periods && s.periods[k].id == s.periods[l].id ==> k == l)
    && (forall id :: id in s.counters ==> id < s.nextId)
  }

  function ExpectedGrant(plan: Plan): Option<int> {
    if plan.kind == PAID_METERED then plan.allowance else None
  }

  predicate ValidAllowance(plan: Plan) {
    plan.kind == PAID_METERED ==> plan.allowance.Some? && Quantity(plan.allowance.value)
  }

  // ---------------------------------------------------------------- what the projection means

  predicate Agrees<T(==)>(stored: Option<T>, wanted: T) { stored == None || stored == Some(wanted) }

  /** The counter a plan of this kind may find beside its period. */
  predicate CounterFits(s: Store, id: nat, r: Request) {
    match r.plan.kind
    case FREE => id !in s.counters
    case PAID_METERED =>
      id in s.counters ==>
        s.counters[id].shopId == r.key.shopId && Some(s.counters[id].granted) == r.plan.allowance
        && Solvent(s.counters[id])
  }

  /** Nothing stored contradicts the request. */
  predicate Compatible(s: Store, r: Request) {
    && ValidAllowance(r.plan)
    && (r.key in s.periods ==>
          var p := s.periods[r.key];
          && p.status != CLOSED
          && p.subscriptionId == r.subscriptionId
          && Agrees(p.handle, r.handle)
          && Agrees(p.planId, r.plan.id)
          && Agrees(p.planName, r.plan.name)
          && Agrees(p.planKind, r.plan.kind)
          && (p.granted == None || p.granted == ExpectedGrant(r.plan))
          && CounterFits(s, p.id, r))
  }

  /** The stored period and counter are the requested plan, in full. */
  predicate Projected(s: Store, r: Request, id: nat) {
    && r.key in s.periods
    && var p := s.periods[r.key];
    && p.id == id
    && p.status != CLOSED
    && p.subscriptionId == r.subscriptionId
    && p.handle == Some(r.handle) && p.planId == Some(r.plan.id)
    && p.planName == Some(r.plan.name) && p.planKind == Some(r.plan.kind)
    && p.granted == ExpectedGrant(r.plan)
    && (id in s.counters <==> r.plan.kind == PAID_METERED)
    && CounterFits(s, id, r)
  }

  /** Other periods and every existing counter are exactly as they were; a counter that is new
      holds the plan's allowance, untouched. */
  ghost predicate LeavesOthers(s: Store, t: Store, r: Request) {
    && (forall k :: k in s.periods ==> k in t.periods && (k != r.key ==> t.periods[k] == s.periods[k]))
    && (forall k :: k in t.periods && k != r.key ==> k in s.periods)
    && (forall id :: id in s.counters ==> id in t.counters && t.counters[id] == s.counters[id])
    && (forall id :: id in t.counters && id !in s.counters ==>
          r.plan.kind == PAID_METERED && r.plan.allowance.Some?
          && t.counters[id] == Counter(r.key.shopId, r.plan.allowance.value, 0, 0, 0))
  }

  // ---------------------------------------------------------------- the procedure

  class BillingStore {
    var periods: map<PeriodKey, Period>
    var counters: map<nat, Counter>
    var nextId: nat

    constructor ()
      ensures View() == Store(map[], map[], 0)
    {
      periods, counters, nextId := map[], map[], 0;
    }

    function View(): Store
      reads this
    {
      Store(periods, counters, nextId)
    }

    method CreateProjection(r: Request) returns (id: nat)
      requires Consistent(View()) && r.key !in periods && ValidAllowance(r.plan)
      modifies this
      ensures id == old(nextId) && Consistent(View()) && View() != old(View())
      ensures Projected(View(), r, id) && LeavesOthers(old(View()), View(), r)
    {
      ghost var before := View();
      id := nextId;
      var plan := r.plan;
      periods := periods[r.key := Period(id, r.subscriptionId, Some(plan.id), Some(r.handle), Some(plan.name),
                                         Some(plan.kind), ExpectedGrant(plan), OPEN)];
      nextId := nextId + 1;
      if plan.kind == PAID_METERED {
        counters := counters[id := Counter(r.key.shopId, plan.allowance.value, 0, 0, 0)];
      }
      StaysConsistent(before, View(), r.key);
    }

    method RepairProjection(r: Request) returns (repaired: bool)
      requires Consistent(View()) && r.key in periods && Compatible(View(), r)
      modifies this
      ensures Consistent(View())
      ensures Projected(View(), r, old(periods[r.key].id)) && LeavesOthers(old(View()), View(), r)
      ensures repaired <==> View() != old(View())
      ensures repaired <==> !Projected(old(View()), r, old(periods[r.key].id))
    {
      ghost var before := View();
      var existing, plan, expectedGrant := periods[r.key], r.plan, ExpectedGrant(r.plan);
      var incomplete := existing.planId == None || existing.handle == None || existing.planName == None
                        || existing.planKind == None || (existing.granted == None && expectedGrant != None);
      if incomplete {
        periods := periods[r.key := existing.(planId := Some(plan.id), handle := Some(r.handle),
                                              planName := Some(plan.name), planKind := Some(plan.kind),
                                              granted := expectedGrant, status := OPEN)];
        assert periods[r.key] != before.periods[r.key];
      }
      repaired := incomplete;
      if plan.kind == PAID_METERED && existing.id !in counters {
        counters := counters[existing.id := Counter(r.key.shopId, expectedGrant.value, 0, 0, 0)];
        assert existing.id in counters;
        repaired := true;
      }
      StaysConsistent(before, View(), r.key);
    }

    /** A conflict writes nothing; otherwise the stored rows become the request, and nothing
        else changes.  The outcome is a conflict exactly when something stored contradicts the
        request, and `repaired` exactly when something was written. */
    method EnsureProjection(r: Request) returns (outcome: Outcome)
      requires Consistent(View())
      modifies this
      ensures Consistent(View())
      ensures outcome.Ready? <==> Compatible(old(View()), r)
      ensures outcome.Conflict? ==> View() == old(View())
      ensures outcome.Ready? ==> Projected(View(), r, outcome.periodId) && LeavesOthers(old(View()), View(), r)
      ensures outcome.Ready? ==> (outcome.repaired <==> View() != old(View()))
      ensures outcome == Expected(old(View()), r)
    {
      hide Consistent, LeavesOthers, Projected;
      var plan := r.plan;
      var expectedGrant := if plan.kind == PAID_METERED then plan.allowance else None;
      if plan.kind == PAID_METERED && (expectedGrant.None? || !Quantity(expectedGrant.value)) {
        return Conflict(None, INVALID_INCLUDED_ALLOWANCE);
      }
      if r.key !in periods {
        var created := CreateProjection(r);
        return Ready(created, true);
      }
      var existing := periods[r.key];
      var id := existing.id;
      if existing.status == CLOSED { return Conflict(Some(id), CLOSED_PERIOD); }
      if existing.subscriptionId != r.subscriptionId { return Conflict(Some(id), SUBSCRIPTION_MISMATCH); }
      if existing.handle != None && existing.handle != Some(r.handle) { return Conflict(Some(id), HANDLE_MISMATCH); }
      if existing.planId != None && existing.planId != Some(plan.id) { return Conflict(Some(id), PLAN_MISMATCH); }
      if existing.planName != None && existing.planName != Some(plan.name) {
        return Conflict(Some(id), PLAN_NAME_MISMATCH);
      }
      if existing.planKind != None && existing.planKind != Some(plan.kind) {
        return Conflict(Some(id), PLAN_KIND_MISMATCH);
      }
      if existing.granted != None && existing.granted != expectedGrant {
        return Conflict(Some(id), INCLUDED_GRANT_MISMATCH);
      }
      if plan.kind == FREE && id in counters { return Conflict(Some(id), FREE_INCLUDED_COUNTER_PRESENT); }
      if plan.kind == PAID_METERED && id in counters {
        var counter := counters[id];
        if counter.shopId != r.key.shopId || Some(counter.granted) != expectedGrant || !Solvent(counter) {
          return Conflict(Some(id), PAID_COUNTER_MISMATCH);
        }
      }
      var repaired := RepairProjection(r);
      return Ready(id, repaired);
    }
  }

  lemma StaysConsistent(s: Store, t: Store, key: PeriodKey)
    requires Consistent(s) && key in t.periods && s.nextId <= t.nextId
    requires if key in s.periods then t.periods[key].id == s.periods[key].id && t.nextId == s.nextId
             else t.periods[key].id == s.nextId && t.nextId == s.nextId + 1
    requires forall k :: k in t.periods && k != key ==> k in s.periods && t.periods[k] == s.periods[k]
    requires t.counters.Keys <= s.counters.Keys + {t.periods[key].id}
    ensures Consistent(t)
  {}

  /** Which outcome a request gets, and with which reason when several apply. */
  function Expected(s: Store, r: Request): Outcome {
    if !ValidAllowance(r.plan) then Conflict(None, INVALID_INCLUDED_ALLOWANCE)
    else if r.key !in s.periods then Ready(s.nextId, true)
    else
      var p := s.periods[r.key];
      if p.status == CLOSED then Conflict(Some(p.id), CLOSED_PERIOD)
      else if p.subscriptionId != r.subscriptionId then Conflict(Some(p.id), SUBSCRIPTION_MISMATCH)
      else if !Agrees(p.handle, r.handle) then Conflict(Some(p.id), HANDLE_MISMATCH)
      else if !Agrees(p.planId, r.plan.id) then Conflict(Some(p.id), PLAN_MISMATCH)
      else if !Agrees(p.planName, r.plan.name) then Conflict(Some(p.id), PLAN_NAME_MISMATCH)
      else if !Agrees(p.planKind, r.plan.kind) then Conflict(Some(p.id), PLAN_KIND_MISMATCH)
      else if p.granted != None && p.granted != ExpectedGrant(r.plan) then Conflict(Some(p.id), INCLUDED_GRANT_MISMATCH)
      else if !CounterFits(s, p.id, r) then
        Conflict(Some(p.id), if r.plan.kind == FREE then FREE_INCLUDED_COUNTER_PRESENT else PAID_COUNTER_MISMATCH)
      else Ready(p.id, !Projected(s, r, p.id))
  }

  /** The projection is stable: once a request is projected, projecting it again succeeds with the
      same period, repairs nothing, and by the contract above writes nothing. */
  lemma SecondCallIsStable(s: Store, r: Request, id: nat)
    requires Projected(s, r, id) && ValidAllowance(r.plan)
    ensures Compatible(s, r) && Expected(s, r) == Ready(id, false)
  {}

  /** One period cannot be projected onto two different plans, and a second plan is refused
      rather than written over the first. */
  lemma ProjectionIsExclusive(s: Store, r: Request, q: Request, id: nat)
    requires Projected(s, r, id) && q.key == r.key && Compatible(s, q)
    ensures q.plan.id == r.plan.id && q.plan.name == r.plan.name && q.plan.kind == r.plan.kind
    ensures q.handle == r.handle && q.subscriptionId == r.subscriptionId
    ensures ExpectedGrant(q.plan) == ExpectedGrant(r.plan)
  {}

  /** Two successive calls, as two deliveries of one subscription event make them: the second gives the
      same period, repairs nothing and writes nothing; `middle` is what the first one left. */
  method ProjectTwice(store: BillingStore, r: Request)
    returns (first: Outcome, second: Outcome, ghost middle: Store)
    requires Consistent(store.View())
    modifies store
    ensures first == Expected(old(store.View()), r)
    ensures first.Ready? ==> Projected(middle, r, first.periodId) && LeavesOthers(old(store.View()), middle, r)
    ensures first.Conflict? ==> middle == old(store.View())
    ensures second == if first.Ready? then Ready(first.periodId, false) else first
    ensures store.View() == middle
  {
    first := store.EnsureProjection(r);
    middle := store.View();
    second := store.EnsureProjection(r);
    if first.Ready? {
      SecondCallIsStable(middle, r, first.periodId);
    }
  }

  /** Counter quantities stay within their grant. */
  lemma SolvencyIsKept(s: Store, t: Store, r: Request)
    requires forall id :: id in s.counters ==> Solvent(s.counters[id])
    requires LeavesOthers(s, t, r) && ValidAllowance(r.plan)
    ensures forall id :: id in t.counters ==> Solvent(t.counters[id])
  {}
}
