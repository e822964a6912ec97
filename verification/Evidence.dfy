/** The registry of commerce evidence observed during one turn, and its revalidation by replay.

    JSON values (the turn, a proposal, tool arguments, everything else a record carries) stand for
    their canonical text, so two are equal here exactly when the program finds their canonical
    JSON equal.  The digest and the date parser are foreign functions, about which nothing is
    assumed. */
module Evidence {
  import opened Common
  import Money

  /** The part of a record that does not change when the offer is evaluated again. */
  datatype Terms = Terms(
    turn: string, grantId: string, releaseId: string, offerId: string, proposal: string,
    outcome: string, currency: Option<string>, unresolvedConditions: seq<string>, rest: string)

  datatype Content = Content(
    terms: Terms, evaluatedAt: string, expiresAt: string, savings: Option<string>, resultingTotal: Option<string>)

  datatype Record = Record(evidenceId: string, content: Content)

  datatype Provenance = Provenance(name: string, revision: string, arguments: string)

  datatype Observation = Observation(record: Record, provenance: Provenance)

  datatype Expected = Expected(turn: string, grantId: string, releaseId: string)

  datatype Foreign = Foreign(digest: Content -> string, parseDate: string -> Option<int>)

  const MAX_AGE := 60_000

  predicate DigestMatches(f: Foreign, r: Record) { f.digest(r.content) == r.evidenceId }

  predicate ForTurn(expected: Option<Expected>, r: Record) {
    expected.Some? ==>
      && r.content.terms.turn == expected.value.turn
      && r.content.terms.grantId == expected.value.grantId
      && r.content.terms.releaseId == expected.value.releaseId
  }

  predicate IsFresh(f: Foreign, r: Record, now: int) {
    var evaluated, expires := f.parseDate(r.content.evaluatedAt), f.parseDate(r.content.expiresAt);
    && evaluated.Some? && expires.Some?
    && evaluated.value <= now < expires.value
    && expires.value > evaluated.value
    && expires.value - evaluated.value <= MAX_AGE
  }

  predicate IsQualifying(r: Record) {
    && r.content.terms.outcome == "QUALIFIES_FOR_KNOWN_RULES"
    && r.content.terms.currency.Some?
    && Money.ValidMoney(r.content.savings)
    && Money.ValidMoney(r.content.resultingTotal)
    && r.content.terms.unresolvedConditions == []
  }

  datatype Comparable = Comparable(terms: Terms, savings: Option<string>, resultingTotal: Option<string>)

  /** The record without its id and instants, and with its amounts in canonical form. */
  function ComparableOf(r: Record): Comparable {
    Comparable(r.content.terms, Money.NormalizedMoney(r.content.savings),
               Money.NormalizedMoney(r.content.resultingTotal))
  }

  // ---------------------------------------------------------------- what the registry means

  /** The observation may be relied on by itself. */
  predicate Valid(f: Foreign, expected: Option<Expected>, o: Observation) {
    DigestMatches(f, o.record) && ForTurn(expected, o.record)
  }

  ghost predicate Observed(obs: seq<Observation>, id: string) {
    exists o :: o in obs && o.record.evidenceId == id
  }

  /** Every observation of the id is valid, and they are all the same record from the same call. */
  ghost predicate Unanimous(f: Foreign, expected: Option<Expected>, obs: seq<Observation>, id: string) {
    && (forall o :: o in obs && o.record.evidenceId == id ==> Valid(f, expected, o))
    && (forall o, p :: o in obs && p in obs && o.record.evidenceId == id && p.record.evidenceId == id ==> o == p)
  }

  /** The registry's two tables are determined by which observations were made. */
  ghost predicate Reflects(f: Foreign, expected: Option<Expected>, obs: seq<Observation>,
                           byId: map<string, Observation>, invalidIds: set<string>) {
    && (forall id :: id in byId <==> Observed(obs, id) && Unanimous(f, expected, obs, id))
    && (forall id :: id in invalidIds <==> !Unanimous(f, expected, obs, id))
    && (forall id :: id in byId ==> byId[id] in obs && byId[id].record.evidenceId == id)
  }

  lemma ObservationsGrow(obs: seq<Observation>, o: Observation)
    ensures forall p :: p in obs + [o] <==> p in obs || p == o
  {}

  lemma StillUnanimous(f: Foreign, expected: Option<Expected>, obs: seq<Observation>, o: Observation, id: string)
    ensures Unanimous(f, expected, obs + [o], id) <==>
            Unanimous(f, expected, obs, id)
            && (o.record.evidenceId == id ==>
                  Valid(f, expected, o) && forall p :: p in obs && p.record.evidenceId == id ==> p == o)
    ensures Observed(obs + [o], id) <==> Observed(obs, id) || o.record.evidenceId == id
  {
    ObservationsGrow(obs, o);
    if Observed(obs, id) {
      var p :| p in obs && p.record.evidenceId == id;
      assert p in obs + [o];
    }
    assert o in obs + [o];
  }

  /** One observation moves the tables from one reading to the next. */
  lemma ReflectsStep(f: Foreign, expected: Option<Expected>, obs: seq<Observation>, o: Observation,
                     byId: map<string, Observation>, invalidIds: set<string>,
                     byId': map<string, Observation>, invalidIds': set<string>)
    requires Reflects(f, expected, obs, byId, invalidIds)
    requires var id := o.record.evidenceId;
             if !Valid(f, expected, o) || (id in byId && byId[id] != o) then
               byId' == byId - {id} && invalidIds' == invalidIds + {id}
             else if id in byId || id in invalidIds then byId' == byId && invalidIds' == invalidIds
             else byId' == byId[id := o] && invalidIds' == invalidIds
    ensures Reflects(f, expected, obs + [o], byId', invalidIds')
  {
    hide Valid, Unanimous, Observed;
    var id := o.record.evidenceId;
    forall k
      ensures k in byId' <==> Observed(obs + [o], k) && Unanimous(f, expected, obs + [o], k)
      ensures k in invalidIds' <==> !Unanimous(f, expected, obs + [o], k)
      ensures k in byId' ==> byId'[k] in obs + [o] && byId'[k].record.evidenceId == k
    {
      StillUnanimous(f, expected, obs, o, k);
      if k == id { Settled(f, expected, obs, o, byId, invalidIds); }
    }
  }

  /** For the id just observed: a table entry is what every earlier observation agreed on. */
  lemma Settled(f: Foreign, expected: Option<Expected>, obs: seq<Observation>, o: Observation,
                byId: map<string, Observation>, invalidIds: set<string>)
    requires Reflects(f, expected, obs, byId, invalidIds)
    ensures var id := o.record.evidenceId;
            && (id in byId ==> ((forall p :: p in obs && p.record.evidenceId == id ==> p == o) <==> byId[id] == o))
            && (id !in byId && id !in invalidIds ==> !Observed(obs, id))
            && (!Observed(obs, id) ==> forall p :: p in obs && p.record.evidenceId == id ==> p == o)
  {}

  lemma SameReading(f: Foreign, expected: Option<Expected>, obs: seq<Observation>, other: seq<Observation>, id: string)
    requires forall o :: o in obs <==> o in other
    ensures Observed(obs, id) <==> Observed(other, id)
    ensures Unanimous(f, expected, obs, id) <==> Unanimous(f, expected, other, id)
  {
    hide Valid;
  }

  lemma AgreedRecord(f: Foreign, expected: Option<Expected>, obs: seq<Observation>, id: string, o: Observation,
                     p: Observation)
    requires Unanimous(f, expected, obs, id)
    requires o in obs && p in obs && o.record.evidenceId == id && p.record.evidenceId == id
    ensures o == p
  {}

  /** Nothing depends on the order or the number of the observations: two histories with the same
      observations leave the same registry. */
  lemma OrderDoesNotMatter(f: Foreign, expected: Option<Expected>, obs: seq<Observation>, other: seq<Observation>,
                           byId: map<string, Observation>, invalidIds: set<string>,
                           byId': map<string, Observation>, invalidIds': set<string>)
    requires Reflects(f, expected, obs, byId, invalidIds) && Reflects(f, expected, other, byId', invalidIds')
    requires forall o :: o in obs <==> o in other
    ensures byId == byId' && invalidIds == invalidIds'
  {
    hide Valid, Unanimous, Observed;
    forall id
      ensures Observed(obs, id) <==> Observed(other, id)
      ensures Unanimous(f, expected, obs, id) <==> Unanimous(f, expected, other, id)
    {
      SameReading(f, expected, obs, other, id);
    }
    forall id | id in byId
      ensures byId[id] == byId'[id]
    {
      AgreedRecord(f, expected, obs, id, byId[id], byId'[id]);
    }
    assert byId.Keys == byId'.Keys;
  }

  /** A poisoned id stays poisoned whatever is observed later. */
  lemma PoisonIsPermanent(f: Foreign, expected: Option<Expected>, obs: seq<Observation>, more: seq<Observation>,
                          id: string, byId: map<string, Observation>, invalidIds: set<string>)
    requires Reflects(f, expected, obs + more, byId, invalidIds) && !Unanimous(f, expected, obs, id)
    ensures id !in byId && id in invalidIds
  {
    forall o | o in obs
      ensures o in obs + more
    {}
  }

  // ---------------------------------------------------------------- refresh

  /** What stopped a call: an error that names a stale turn or a cancellation, or any other. */
  datatype Fault = StaleTurn | Cancelled | OtherFault

  datatype Reply =
    | Answered(items: seq<Option<Record>>)
    | ErrorReply(staleTurn: bool)
    | ReplayThrew(fault: Fault)

  /** The surroundings of one refresh: the clock at its start and at each check of a replayed
      record, whether the turn is current before each replay and at the end, the replies, and
      whether the turn was cancelled by the time an error is caught. */
  datatype Surroundings = Surroundings(
    start: int, remoteCalls: int, maxRemoteCalls: int, current: nat -> Option<Fault>, replay: nat -> Reply,
    clock: (nat, nat) -> int, cancelled: bool)

  datatype Outcome = Accepted | Refer | Suppress(staleTurn: bool)

  function FaultOutcome(fault: Fault): Outcome {
    match fault
    case StaleTurn => Suppress(true)
    case Cancelled => Suppress(false)
    case OtherFault => Refer
  }

  /** The distinct calls behind the requested records, in order of first appearance. */
  function CallsOf(records: seq<Observation>): (calls: seq<Provenance>)
    ensures forall p :: p in calls <==> exists o :: o in records && o.provenance == p
    ensures forall i, j :: 0 <= i < j < |calls| ==> calls[i] != calls[j]
  {
    if records == [] then []
    else
      var n := |records| - 1;
      var earlier := CallsOf(records[..n]);
      assert forall o :: o in records <==> o in records[..n] || o == records[n];
      if records[n].provenance in earlier then earlier else earlier + [records[n].provenance]
  }

  /** A reply that is usable: every item parses, carries its own digest, and is fresh. */
  ghost predicate ReplyIsGood(f: Foreign, s: Surroundings, i: nat) {
    && s.current(i).None?
    && s.replay(i).Answered?
    && forall k :: 0 <= k < |s.replay(i).items| ==>
         && s.replay(i).items[k].Some?
         && DigestMatches(f, s.replay(i).items[k].value)
         && IsFresh(f, s.replay(i).items[k].value, s.clock(i, k))
  }

  predicate Candidate(r: Record, c: Record) {
    c.content.terms.offerId == r.content.terms.offerId && c.content.terms.proposal == r.content.terms.proposal
  }

  function Candidates(r: Record, refreshed: seq<Record>): seq<Record> {
    if refreshed == [] then []
    else
      var n := |refreshed| - 1;
      Candidates(r, refreshed[..n]) + (if Candidate(r, refreshed[n]) then [refreshed[n]] else [])
  }

  /** The record was found again exactly once, unchanged, and qualifies both times. */
  ghost predicate Confirmed(r: Record, refreshed: seq<Record>) {
    var matches := Candidates(r, refreshed);
    && |matches| == 1
    && IsQualifying(matches[0]) && IsQualifying(r)
    && ComparableOf(matches[0]) == ComparableOf(r)
  }

  function Unwrap(items: seq<Option<Record>>): seq<Record>
    requires forall k :: 0 <= k < |items| ==> items[k].Some?
  {
    seq(|items|, k requires 0 <= k < |items| => items[k].value)
  }

  /** What the i-th reply brings back; only meaningful for a good reply. */
  function Refreshed(s: Surroundings, i: nat): seq<Record> {
    if s.replay(i).Answered? && (forall k :: 0 <= k < |s.replay(i).items| ==> s.replay(i).items[k].Some?)
    then Unwrap(s.replay(i).items) else []
  }

  ghost predicate Requested(byId: map<string, Observation>, invalidIds: set<string>, ids: seq<string>,
                            records: seq<Observation>)
  {
    |records| == |ids| && forall i :: 0 <= i < |ids| ==>
      ids[i] in byId && ids[i] !in invalidIds && records[i] == byId[ids[i]]
  }

  ghost predicate ValidAtStart(f: Foreign, expected: Option<Expected>, s: Surroundings, records: seq<Observation>) {
    forall o :: o in records ==> Valid(f, expected, o) && IsFresh(f, o.record, s.start)
  }

  /** The first `n` calls had good replies, and the turn was still current after them. */
  ghost predicate AllReplied(f: Foreign, s: Surroundings, n: nat) {
    (forall i :: 0 <= i < n ==> ReplyIsGood(f, s, i)) && s.current(n).None?
  }

  /** Every record is confirmed by what its own call brought back. */
  ghost predicate AllConfirmed(s: Surroundings, records: seq<Observation>, calls: seq<Provenance>) {
    forall o, i :: o in records && 0 <= i < |calls| && calls[i] == o.provenance ==>
      Confirmed(o.record, Refreshed(s, i))
  }

  /** Everything that must hold for a refresh to accept. */
  ghost predicate Acceptable(f: Foreign, expected: Option<Expected>, byId: map<string, Observation>,
                             invalidIds: set<string>, ids: seq<string>, s: Surroundings, records: seq<Observation>) {
    && Requested(byId, invalidIds, ids, records)
    && ValidAtStart(f, expected, s, records)
    && var calls := CallsOf(records);
    && s.remoteCalls + |calls| <= s.maxRemoteCalls
    && AllReplied(f, s, |calls|)
    && AllConfirmed(s, records, calls)
  }

  /** The id was observed, unanimously, and what was observed is fresh and qualifying. */
  ghost predicate Eligible(f: Foreign, expected: Option<Expected>, obs: seq<Observation>, id: string, now: int) {
    && Observed(obs, id) && Unanimous(f, expected, obs, id)
    && forall o :: o in obs && o.record.evidenceId == id ==> IsFresh(f, o.record, now) && IsQualifying(o.record)
  }

  lemma EligibleIff(f: Foreign, expected: Option<Expected>, obs: seq<Observation>, byId: map<string, Observation>,
                    invalidIds: set<string>, id: string, now: int)
    requires Reflects(f, expected, obs, byId, invalidIds)
    ensures Eligible(f, expected, obs, id, now) <==>
              id in byId && id !in invalidIds && DigestMatches(f, byId[id].record)
              && IsFresh(f, byId[id].record, now) && IsQualifying(byId[id].record)
  {
    hide IsFresh, IsQualifying;
  }

  class TurnEvidenceRegistry {
    const foreign: Foreign
    const expected: Option<Expected>
    var byId: map<string, Observation>
    var invalidIds: set<string>
    /** Every observation made so far. */
    ghost var observations: seq<Observation>

    ghost predicate Consistent()
      reads this
    {
      Reflects(foreign, expected, observations, byId, invalidIds)
    }

    constructor (foreign: Foreign, expected: Option<Expected>)
      ensures Consistent() && observations == []
      ensures this.foreign == foreign && this.expected == expected
    {
      this.foreign, this.expected := foreign, expected;
      byId, invalidIds, observations := map[], {}, [];
    }

    /** One parsed record. */
    method Observe(o: Observation)
      requires Consistent()
      modifies this
      ensures Consistent() && observations == old(observations) + [o]
    {
      ghost var obs, before, invalid := observations, byId, invalidIds;
      var id := o.record.evidenceId;
      observations := observations + [o];
      if foreign.digest(o.record.content) != id || !ForTurn(expected, o.record) {
        invalidIds := invalidIds + {id};
        byId := byId - {id};
      } else if id in byId {
        if byId[id].provenance != o.provenance || byId[id].record != o.record {
          invalidIds := invalidIds + {id};
          byId := byId - {id};
        }
      } else if id !in invalidIds {
        byId := byId[id := o];
      }
      ReflectsStep(foreign, expected, obs, o, before, invalid, byId, invalidIds);
    }

    /** A tool result: nothing unless it succeeded, and items that do not parse are skipped. */
    method RecordResult(ok: bool, provenance: Provenance, extracted: seq<Option<Record>>)
      requires Consistent()
      modifies this
      ensures Consistent()
      ensures observations == old(observations) + (if ok then Parsed(provenance, extracted) else [])
    {
      if !ok { return; }
      for i := 0 to |extracted|
        invariant Consistent()
        invariant observations == old(observations) + Parsed(provenance, extracted[..i])
      {
        assert extracted[..i + 1][..i] == extracted[..i];
        if extracted[i].Some? {
          Observe(Observation(extracted[i].value, provenance));
        }
      }
      assert extracted[..|extracted|] == extracted;
    }

    /** Evidence counts as eligible exactly when at least one id is given and each of them is eligible. */
    method HasEligibleEvidence(ids: seq<string>, now: int) returns (eligible: bool)
      requires Consistent()
      ensures eligible <==> ids != [] && forall i :: 0 <= i < |ids| ==>
                              Eligible(foreign, expected, observations, ids[i], now)
    {
      hide Reflects, Eligible, IsFresh, IsQualifying, DigestMatches;
      eligible := |ids| > 0;
      for i := 0 to |ids|
        invariant eligible <==> ids != [] && forall k :: 0 <= k < i ==>
                                  Eligible(foreign, expected, observations, ids[k], now)
      {
        var id := ids[i];
        EligibleIff(foreign, expected, observations, byId, invalidIds, id, now);
        eligible := eligible && id in byId && id !in invalidIds && DigestMatches(foreign, byId[id].record)
                    && IsFresh(foreign, byId[id].record, now) && IsQualifying(byId[id].record);
      }
    }

    /** The requested records, if every id is usable. */
    method CollectRequested(ids: seq<string>) returns (r: Option<seq<Observation>>)
      ensures r.Some? ==> Requested(byId, invalidIds, ids, r.value)
      ensures r.None? ==> exists i :: 0 <= i < |ids| && (ids[i] !in byId || ids[i] in invalidIds)
    {
      var records: seq<Observation> := [];
      for i := 0 to |ids|
        invariant Requested(byId, invalidIds, ids[..i], records)
      {
        if ids[i] !in byId || ids[i] in invalidIds { return None; }
        records := records + [byId[ids[i]]];
      }
      assert ids[..|ids|] == ids;
      return Some(records);
    }

    /** The check at the start. */
    method CheckAtStart(records: seq<Observation>, s: Surroundings) returns (ok: bool)
      ensures ok <==> ValidAtStart(foreign, expected, s, records)
    {
      hide IsFresh, Valid;
      for i := 0 to |records|
        invariant ValidAtStart(foreign, expected, s, records[..i])
      {
        var r := records[i].record;
        ValidIs(foreign, expected, records[i]);
        if !ForTurn(expected, r) || !DigestMatches(foreign, r) || !IsFresh(foreign, r, s.start) {
          assert records[i] in records;
          return false;
        }
        assert records[..i + 1] == records[..i] + [records[i]];
      }
      assert records[..|records|] == records;
      return true;
    }

    /** The replays, in order, until one fails; then the turn is checked once more. */
    method ReplayCalls(calls: seq<Provenance>, s: Surroundings)
      returns (r: Result<seq<seq<Record>>, Outcome>, replayed: seq<Provenance>)
      ensures replayed <= calls
      ensures r.Ok? <==> AllReplied(foreign, s, |calls|)
      ensures r.Ok? ==> replayed == calls && |r.value| == |calls|
                        && forall i :: 0 <= i < |calls| ==> r.value[i] == Refreshed(s, i)
      ensures r.Err? ==> r.error != Accepted
      ensures r.Err? && r.error.Suppress? ==>
                exists i :: 0 <= i <= |replayed| && Interrupted(s, i, r.error.staleTurn)
    {
      hide ReplyIsGood, Interrupted;
      replayed := [];
      var refreshed: seq<seq<Record>> := [];
      for i := 0 to |calls|
        invariant replayed == calls[..i] && |refreshed| == i
        invariant forall k :: 0 <= k < i ==> ReplyIsGood(foreign, s, k) && refreshed[k] == Refreshed(s, k)
      {
        var answer, asked := ReplayCall(s, i);
        if asked { replayed := calls[..i + 1]; }
        if answer.Err? { return Err(answer.error), replayed; }
        refreshed := refreshed + [answer.value];
      }
      if s.current(|calls|).Some? {
        InterruptedAt(s, |calls|);
        return Err(FaultOutcome(s.current(|calls|).value)), replayed;
      }
      return Ok(refreshed), replayed;
    }

    /** The confirmation: each record is looked for in what its own call brought back. */
    static method Confirm(records: seq<Observation>, calls: seq<Provenance>, refreshed: seq<seq<Record>>)
      returns (ok: bool)
      requires calls == CallsOf(records) && |refreshed| == |calls|
      ensures ok <==> forall o, i :: o in records && 0 <= i < |calls| && calls[i] == o.provenance ==>
                                       Confirmed(o.record, refreshed[i])
    {
      hide Confirmed, IsQualifying, Candidates, ComparableOf;
      for k := 0 to |records|
        invariant forall o, i :: o in records[..k] && 0 <= i < |calls| && calls[i] == o.provenance ==>
          Confirmed(o.record, refreshed[i])
      {
        var o := records[k];
        assert o in records && o.provenance in calls;
        var i := IndexOf(calls, o.provenance);
        assert records[..k + 1] == records[..k] + [o];
        var matches := Candidates(o.record, refreshed[i]);
        ConfirmedIs(o.record, refreshed[i]);
        if |matches| != 1 || !IsQualifying(matches[0]) || !IsQualifying(o.record)
           || ComparableOf(matches[0]) != ComparableOf(o.record) {
          return false;
        }
      }
      assert records[..|records|] == records;
      return true;
    }

    /** A refresh is accepted exactly when everything in `Acceptable` holds.  Each distinct call is
        replayed at most once, in order, and the budget of remote calls is never exceeded; the
        registry itself is only read.  `replayed` lists the calls made. */
    method Refresh(ids: seq<string>, s: Surroundings) returns (outcome: Outcome, replayed: seq<Provenance>)
      requires Consistent()
      ensures outcome == Accepted <==> exists records ::
                Acceptable(foreign, expected, byId, invalidIds, ids, s, records) && replayed == CallsOf(records)
      ensures forall i, j :: 0 <= i < j < |replayed| ==> replayed[i] != replayed[j]
      ensures replayed != [] ==> s.remoteCalls + |replayed| <= s.maxRemoteCalls
      ensures outcome.Suppress? ==> exists i :: 0 <= i <= |replayed| && Interrupted(s, i, outcome.staleTurn)
    {
      hide Reflects, ValidAtStart, AllReplied, Confirmed, Interrupted;
      var collected := CollectRequested(ids);
      if collected.None? { return Refer, []; }
      var records := collected.value;
      RecordsAreDetermined(byId, invalidIds, ids, records);
      var usable := CheckAtStart(records, s);
      if !usable { return Refer, []; }
      var calls := CallsOf(records);
      if s.remoteCalls + |calls| > s.maxRemoteCalls { return Refer, []; }
      var r;
      r, replayed := ReplayCalls(calls, s);
      if r.Err? { return r.error, replayed; }
      var confirmed := Confirm(records, calls, r.value);
      assert confirmed <==> AllConfirmed(s, records, calls);
      assert confirmed ==> Acceptable(foreign, expected, byId, invalidIds, ids, s, records);
      return if confirmed then Accepted else Refer, replayed;
    }

    /** One replay, with the currency check before it and the checks on its items after it. */
    method ReplayCall(s: Surroundings, i: nat) returns (r: Result<seq<Record>, Outcome>, asked: bool)
      ensures r.Ok? <==> ReplyIsGood(foreign, s, i)
      ensures r.Ok? ==> asked && r.value == Refreshed(s, i)
      ensures r.Err? ==> r.error != Accepted
      ensures r.Err? && r.error.Suppress? ==> Interrupted(s, i, r.error.staleTurn)
    {
      if s.current(i).Some? {
        return Err(if s.cancelled then Suppress(false) else FaultOutcome(s.current(i).value)), false;
      }
      match s.replay(i)
      case ReplayThrew(fault) => return Err(if s.cancelled then Suppress(false) else FaultOutcome(fault)), true;
      case ErrorReply(staleTurn) => return Err(if staleTurn then Suppress(true) else Refer), true;
      case Answered(items) =>
        var refreshed: seq<Record> := [];
        for k := 0 to |items|
          invariant |refreshed| == k && forall j :: 0 <= j < k ==> items[j] == Some(refreshed[j])
        {
          if items[k].None? { return Err(Refer), true; }
          refreshed := refreshed + [items[k].value];
        }
        for k := 0 to |refreshed|
          invariant forall j :: 0 <= j < k ==>
            DigestMatches(foreign, refreshed[j]) && IsFresh(foreign, refreshed[j], s.clock(i, j))
        {
          if !DigestMatches(foreign, refreshed[k]) || !IsFresh(foreign, refreshed[k], s.clock(i, k)) {
            return Err(Refer), true;
          }
        }
        assert refreshed == Unwrap(items);
        return Ok(refreshed), true;
    }
  }

  /** The turn was found stale or cancelled around the i-th call. */
  ghost predicate Interrupted(s: Surroundings, i: nat, staleTurn: bool) {
    || s.current(i) == Some(if staleTurn then StaleTurn else Cancelled)
    || s.replay(i) == ReplayThrew(if staleTurn then StaleTurn else Cancelled)
    || (staleTurn && s.replay(i) == ErrorReply(true))
    || (!staleTurn && s.cancelled && (s.current(i).Some? || s.replay(i).ReplayThrew?))
  }

  lemma InterruptedAt(s: Surroundings, i: nat)
    requires s.current(i).Some?
    ensures var o := FaultOutcome(s.current(i).value); o.Suppress? ==> Interrupted(s, i, o.staleTurn)
  {}

  function Parsed(provenance: Provenance, extracted: seq<Option<Record>>): seq<Observation> {
    if extracted == [] then []
    else
      var n := |extracted| - 1;
      Parsed(provenance, extracted[..n])
      + (if extracted[n].Some? then [Observation(extracted[n].value, provenance)] else [])
  }

  function IndexOf(calls: seq<Provenance>, p: Provenance): (i: nat)
    requires p in calls
    ensures i < |calls| && calls[i] == p
  {
    if calls[0] == p then 0 else 1 + IndexOf(calls[1..], p)
  }

  lemma ValidIs(f: Foreign, expected: Option<Expected>, o: Observation)
    ensures Valid(f, expected, o) <==> DigestMatches(f, o.record) && ForTurn(expected, o.record)
  {}

  lemma ConfirmedIs(r: Record, refreshed: seq<Record>)
    ensures Confirmed(r, refreshed) <==>
            var matches := Candidates(r, refreshed);
            |matches| == 1 && IsQualifying(matches[0]) && IsQualifying(r) && ComparableOf(matches[0]) == ComparableOf(r)
  {}

  lemma RecordsAreDetermined(byId: map<string, Observation>, invalidIds: set<string>, ids: seq<string>,
                             records: seq<Observation>)
    requires Requested(byId, invalidIds, ids, records)
    ensures forall other :: Requested(byId, invalidIds, ids, other) ==> other == records
  {}

  /** What acceptance buys: the offer was seen again with the same terms, turn and grant included,
      and amounts that are the same numbers. */
  lemma ConfirmedMeansSameOffer(r: Record, refreshed: seq<Record>)
    requires Confirmed(r, refreshed)
    ensures var again := Candidates(r, refreshed)[0];
            && again in refreshed
            && again.content.terms == r.content.terms
            && Money.Millionths(again.content.savings.value) == Money.Millionths(r.content.savings.value)
            && Money.Millionths(again.content.resultingTotal.value) == Money.Millionths(r.content.resultingTotal.value)
            && forall i, j :: 0 <= i < j < |refreshed| && Candidate(r, refreshed[i]) ==> !Candidate(r, refreshed[j])
  {
    CandidatesAre(r, refreshed);
    var again := Candidates(r, refreshed)[0];
    Money.NormalizedIffEqual(again.content.savings.value, r.content.savings.value);
    Money.NormalizedIffEqual(again.content.resultingTotal.value, r.content.resultingTotal.value);
  }

  lemma {:induction false} CandidatesAre(r: Record, refreshed: seq<Record>)
    ensures forall c :: c in Candidates(r, refreshed) <==> c in refreshed && Candidate(r, c)
    ensures |Candidates(r, refreshed)| <= 1 ==>
      forall i, j :: 0 <= i < j < |refreshed| && Candidate(r, refreshed[i]) ==> !Candidate(r, refreshed[j])
  {
    if refreshed != [] {
      var n := |refreshed| - 1;
      CandidatesAre(r, refreshed[..n]);
      assert forall c :: c in refreshed <==> c in refreshed[..n] || c == refreshed[n];
      if Candidate(r, refreshed[n]) && |Candidates(r, refreshed)| <= 1 {
        assert Candidates(r, refreshed[..n]) == [];
        assert forall i :: 0 <= i < n ==> refreshed[i] in refreshed[..n];
      }
    }
  }
}
