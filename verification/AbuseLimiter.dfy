/** The multi-scope sliding-window limiter for inbound messages: one script that Redis runs
    atomically, at a time in milliseconds that never goes backwards. */
module AbuseLimiter {
  import opened Common

  datatype Scope = Scope(key: string, windowMs: nat, limit: int)

  /** Sorted sets of (member, score), and the time at which each key expires. */
  datatype Redis = Redis(sets: map<string, map<string, nat>>, expires: map<string, nat>)

  /** The script's answer: 0 without or with recording, or the index of the scope that is full. */
  datatype Verdict = Replayed | Recorded | Denied(index: nat)

  function CeilDiv(n: nat, d: nat): nat
    requires d > 0
  {
    (n + d - 1) / d
  }

  function Ttl(windowMs: nat): nat { 1000 * (CeilDiv(windowMs, 1000) + 1) }

  /** What a key holds at a time: nothing once it has expired. */
  function Held(s: Redis, key: string, now: nat): map<string, nat> {
    if key !in s.sets || (key in s.expires && s.expires[key] <= now) then map[] else s.sets[key]
  }

  /** The members whose score is still inside the window that ends now. */
  function Fresh(held: map<string, nat>, windowMs: nat, now: nat): map<string, nat> {
    map m | m in held && held[m] + windowMs > now :: held[m]
  }

  function InWindow(s: Redis, scope: Scope, now: nat): map<string, nat> {
    Fresh(Held(s, scope.key, now), scope.windowMs, now)
  }

  ghost predicate Distinct(scopes: seq<Scope>) {
    forall i, j :: 0 <= i < j < |scopes| ==> scopes[i].key != scopes[j].key
  }

  ghost predicate SeenAnywhere(s: Redis, now: nat, member: string, scopes: seq<Scope>) {
    exists i :: 0 <= i < |scopes| && member in InWindow(s, scopes[i], now)
  }

  predicate Full(s: Redis, now: nat, scope: Scope) { |InWindow(s, scope, now)| >= scope.limit }

  /** Which verdict a call gets. */
  ghost predicate Decides(s: Redis, now: nat, member: string, scopes: seq<Scope>, v: Verdict) {
    match v
    case Replayed => SeenAnywhere(s, now, member, scopes)
    case Recorded =>
      !SeenAnywhere(s, now, member, scopes) && forall i :: 0 <= i < |scopes| ==> !Full(s, now, scopes[i])
    case Denied(index) =>
      && !SeenAnywhere(s, now, member, scopes)
      && index < |scopes| && Full(s, now, scopes[index])
      && forall i :: 0 <= i < index ==> !Full(s, now, scopes[i])
  }

  /** What a scope's key holds afterwards. */
  ghost predicate ScopeAfter(s: Redis, t: Redis, now: nat, member: string, scope: Scope, recorded: bool) {
    if recorded then
      && scope.key in t.sets && t.sets[scope.key] == InWindow(s, scope, now)[member := now]
      && scope.key in t.expires && t.expires[scope.key] == now + Ttl(scope.windowMs)
    else
      forall later: nat :: later >= now ==>
        Held(t, scope.key, later) == Fresh(Held(s, scope.key, later), scope.windowMs, now)
  }

  /** One run of the script: all scopes record the member or none does, and a call that does not
      record changes nothing but the pruning of entries outside their window. */
  ghost predicate Transition(s: Redis, t: Redis, now: nat, member: string, scopes: seq<Scope>, v: Verdict) {
    && Decides(s, now, member, scopes, v)
    && (forall i :: 0 <= i < |scopes| ==> ScopeAfter(s, t, now, member, scopes[i], v == Recorded))
    && (forall key, later: nat :: later >= now && (forall i :: 0 <= i < |scopes| ==> scopes[i].key != key) ==>
          Held(t, key, later) == Held(s, key, later))
  }

  // ---------------------------------------------------------------- the script's three passes

  function Get(s: Redis, key: string): map<string, nat> {
    if key in s.sets then s.sets[key] else map[]
  }

  /** Redis has dropped the expired keys, which nobody could have observed anyway. */
  ghost predicate Evicted(s: Redis, t: Redis, now: nat) {
    && (forall key, later: nat :: later >= now ==> Held(t, key, later) == Held(s, key, later))
    && (forall key :: Get(t, key) == Held(t, key, now))
  }

  ghost predicate SameKey(s: Redis, t: Redis, key: string) {
    && (key in s.sets <==> key in t.sets) && (key in s.sets ==> s.sets[key] == t.sets[key])
    && (key in s.expires <==> key in t.expires) && (key in s.expires ==> s.expires[key] == t.expires[key])
  }

  ghost predicate Outside(key: string, scopes: seq<Scope>) {
    forall i :: 0 <= i < |scopes| ==> scopes[i].key != key
  }

  ghost predicate PrunedKey(s: Redis, t: Redis, now: nat, scope: Scope) {
    && scope.key in t.sets && t.sets[scope.key] == Fresh(Get(s, scope.key), scope.windowMs, now)
    && (scope.key in s.expires <==> scope.key in t.expires)
    && (scope.key in s.expires ==> s.expires[scope.key] == t.expires[scope.key])
  }

  ghost predicate Pruned(s: Redis, t: Redis, now: nat, scopes: seq<Scope>) {
    && (forall i :: 0 <= i < |scopes| ==> PrunedKey(s, t, now, scopes[i]))
    && (forall key :: Outside(key, scopes) ==> SameKey(s, t, key))
  }

  ghost predicate RecordedKey(s: Redis, t: Redis, now: nat, member: string, scope: Scope) {
    && scope.key in t.sets && t.sets[scope.key] == Get(s, scope.key)[member := now]
    && scope.key in t.expires && t.expires[scope.key] == now + Ttl(scope.windowMs)
  }

  ghost predicate RecordedAll(s: Redis, t: Redis, now: nat, member: string, scopes: seq<Scope>) {
    && (forall i :: 0 <= i < |scopes| ==> RecordedKey(s, t, now, member, scopes[i]))
    && (forall key :: Outside(key, scopes) ==> SameKey(s, t, key))
  }

  lemma PrunedMembers(s: Redis, t: Redis, u: Redis, now: nat, scope: Scope)
    requires Evicted(s, t, now) && PrunedKey(t, u, now, scope)
    ensures u.sets[scope.key] == InWindow(s, scope, now)
  {
    assert Get(t, scope.key) == Held(t, scope.key, now);
  }

  lemma PrunedIsInvisible(s: Redis, t: Redis, u: Redis, now: nat, member: string, scope: Scope)
    requires Evicted(s, t, now) && PrunedKey(t, u, now, scope)
    ensures ScopeAfter(s, u, now, member, scope, false)
  {
    forall later: nat | later >= now
      ensures Held(u, scope.key, later) == Fresh(Held(s, scope.key, later), scope.windowMs, now)
    {
      assert Get(t, scope.key) == Held(t, scope.key, now);
      assert Held(t, scope.key, later) == Held(s, scope.key, later);
    }
  }

  lemma PrunedTransition(s: Redis, t: Redis, u: Redis, now: nat, member: string, scopes: seq<Scope>, v: Verdict)
    requires Evicted(s, t, now) && Pruned(t, u, now, scopes) && Decides(s, now, member, scopes, v) && v != Recorded
    ensures Transition(s, u, now, member, scopes, v)
  {
    forall i | 0 <= i < |scopes|
      ensures ScopeAfter(s, u, now, member, scopes[i], false)
    {
      PrunedIsInvisible(s, t, u, now, member, scopes[i]);
    }
    forall key, later: nat | later >= now && Outside(key, scopes)
      ensures Held(u, key, later) == Held(s, key, later)
    {
      assert SameKey(t, u, key) && Held(t, key, later) == Held(s, key, later);
    }
  }

  lemma RecordedTransition(s: Redis, t: Redis, u: Redis, w: Redis, now: nat, member: string, scopes: seq<Scope>)
    requires Evicted(s, t, now) && Pruned(t, u, now, scopes) && RecordedAll(u, w, now, member, scopes)
    requires Decides(s, now, member, scopes, Recorded)
    ensures Transition(s, w, now, member, scopes, Recorded)
  {
    forall i | 0 <= i < |scopes|
      ensures ScopeAfter(s, w, now, member, scopes[i], true)
    {
      assert PrunedKey(t, u, now, scopes[i]) && RecordedKey(u, w, now, member, scopes[i]);
      PrunedMembers(s, t, u, now, scopes[i]);
    }
    forall key, later: nat | later >= now && Outside(key, scopes)
      ensures Held(w, key, later) == Held(s, key, later)
    {
      assert SameKey(t, u, key) && SameKey(u, w, key) && Held(t, key, later) == Held(s, key, later);
    }
  }

  class RedisStore {
    var sets: map<string, map<string, nat>>
    var expires: map<string, nat>

    constructor ()
      ensures View() == Redis(map[], map[])
    {
      sets, expires := map[], map[];
    }

    function View(): Redis
      reads this
    {
      Redis(sets, expires)
    }

    /** Redis forgets expired keys before a script sees them. */
    method EvictExpired(now: nat)
      modifies this
      ensures Evicted(old(View()), View(), now)
    {
      sets := map key | key in sets && !(key in expires && expires[key] <= now) :: sets[key];
      expires := map key | key in expires && expires[key] > now :: expires[key];
    }

    /** First pass: drop what has left each window, and look for the member. */
    method PruneAll(now: nat, member: string, scopes: seq<Scope>) returns (seenAnywhere: bool)
      requires Distinct(scopes)
      modifies this`sets
      ensures Pruned(old(View()), View(), now, scopes)
      ensures seenAnywhere <==> exists i :: 0 <= i < |scopes| && member in Get(View(), scopes[i].key)
    {
      seenAnywhere := false;
      for index := 0 to |scopes|
        invariant Pruned(old(View()), View(), now, scopes[..index])
        invariant seenAnywhere <==> exists i :: 0 <= i < index && member in Get(View(), scopes[i].key)
      {
        ghost var s := View();
        var scope := scopes[index];
        assert Outside(scope.key, scopes[..index]);
        assert SameKey(old(View()), s, scope.key);
        sets := sets[scope.key := Fresh(Get(View(), scope.key), scope.windowMs, now)];
        if member in sets[scope.key] {
          seenAnywhere := true;
        }
        PruneStep(old(View()), s, View(), now, scopes, index);
        assert forall i :: 0 <= i < index ==> Get(View(), scopes[i].key) == Get(s, scopes[i].key);
      }
      assert scopes[..|scopes|] == scopes;
    }

    /** Second pass: the first scope that is full, if any. */
    method FirstFull(scopes: seq<Scope>) returns (full: Option<nat>)
      ensures full.Some? ==> full.value < |scopes| && |Get(View(), scopes[full.value].key)| >= scopes[full.value].limit
      ensures forall i :: 0 <= i < (if full.Some? then full.value else |scopes|) ==>
                |Get(View(), scopes[i].key)| < scopes[i].limit
    {
      for index := 0 to |scopes|
        invariant forall i :: 0 <= i < index ==> |Get(View(), scopes[i].key)| < scopes[i].limit
      {
        if |Get(View(), scopes[index].key)| >= scopes[index].limit {
          return Some(index);
        }
      }
      full := None;
    }

    /** Third pass: record the member everywhere and renew each key's expiry. */
    method RecordAll(now: nat, member: string, scopes: seq<Scope>)
      requires Distinct(scopes)
      requires forall i :: 0 <= i < |scopes| ==> member !in Get(View(), scopes[i].key)
      modifies this
      ensures RecordedAll(old(View()), View(), now, member, scopes)
    {
      for index := 0 to |scopes|
        invariant RecordedAll(old(View()), View(), now, member, scopes[..index])
      {
        ghost var s := View();
        var scope := scopes[index];
        assert Outside(scope.key, scopes[..index]);
        assert SameKey(old(View()), s, scope.key);
        if member !in Get(View(), scope.key) {
          sets := sets[scope.key := Get(View(), scope.key)[member := now]];
          expires := expires[scope.key := now + Ttl(scope.windowMs)];
        }
        RecordStep(old(View()), s, View(), now, member, scopes, index);
      }
      assert scopes[..|scopes|] == scopes;
    }

    method Admit(now: nat, member: string, scopes: seq<Scope>) returns (v: Verdict)
      requires Distinct(scopes)
      modifies this
      ensures Transition(old(View()), View(), now, member, scopes, v)
    {
      hide Evicted, SameKey, Outside;
      ghost var s := View();
      EvictExpired(now);
      ghost var t := View();
      var seenAnywhere := PruneAll(now, member, scopes);
      ghost var u := View();
      forall i | 0 <= i < |scopes|
        ensures Get(u, scopes[i].key) == InWindow(s, scopes[i], now)
      {
        PrunedMembers(s, t, u, now, scopes[i]);
      }
      if seenAnywhere {
        PrunedTransition(s, t, u, now, member, scopes, Replayed);
        return Replayed;
      }
      var full := FirstFull(scopes);
      if full.Some? {
        PrunedTransition(s, t, u, now, member, scopes, Denied(full.value));
        return Denied(full.value);
      }
      RecordAll(now, member, scopes);
      RecordedTransition(s, t, u, View(), now, member, scopes);
      v := Recorded;
    }
  }

  lemma PruneStep(s: Redis, t: Redis, u: Redis, now: nat, scopes: seq<Scope>, index: nat)
    requires Distinct(scopes) && index < |scopes| && Pruned(s, t, now, scopes[..index])
    requires u == t.(sets := t.sets[scopes[index].key := Fresh(Get(s, scopes[index].key), scopes[index].windowMs, now)])
    ensures Pruned(s, u, now, scopes[..index + 1])
  {
    var taken := scopes[..index + 1];
    assert Outside(scopes[index].key, scopes[..index]);
    forall i | 0 <= i < |taken|
      ensures PrunedKey(s, u, now, taken[i])
    {
      if i < index { assert PrunedKey(s, t, now, scopes[..index][i]); }
    }
    forall key | Outside(key, taken)
      ensures SameKey(s, u, key)
    {
      assert taken[index] == scopes[index] && forall i :: 0 <= i < index ==> taken[i] == scopes[..index][i];
      assert Outside(key, scopes[..index]);
    }
  }

  lemma RecordStep(s: Redis, t: Redis, u: Redis, now: nat, member: string, scopes: seq<Scope>, index: nat)
    requires Distinct(scopes) && index < |scopes| && RecordedAll(s, t, now, member, scopes[..index])
    requires var key := scopes[index].key;
             u == Redis(t.sets[key := Get(s, key)[member := now]], t.expires[key := now + Ttl(scopes[index].windowMs)])
    ensures RecordedAll(s, u, now, member, scopes[..index + 1])
  {
    var taken := scopes[..index + 1];
    forall i | 0 <= i < |taken|
      ensures RecordedKey(s, u, now, member, taken[i])
    {
      if i < index { assert RecordedKey(s, t, now, member, scopes[..index][i]); }
    }
    forall key | Outside(key, taken)
      ensures SameKey(s, u, key)
    {
      assert taken[index] == scopes[index] && forall i :: 0 <= i < index ==> taken[i] == scopes[..index][i];
      assert Outside(key, scopes[..index]);
    }
  }

  // ---------------------------------------------------------------- whole runs

  datatype Call = Call(now: nat, member: string, scopes: seq<Scope>)

  /** A recorded admission of one key. */
  datatype Entry = Entry(member: string, time: nat)

  /** Any sequence of calls, from any state of the store, under a clock that never goes back. */
  ghost predicate IsTrace(calls: seq<Call>, verdicts: seq<Verdict>, states: seq<Redis>) {
    && |verdicts| == |calls| && |states| == |calls| + 1
    && (forall i :: 0 <= i < |calls| ==>
          Transition(states[i], states[i + 1], calls[i].now, calls[i].member, calls[i].scopes, verdicts[i]))
    && (forall i, j :: 0 <= i < j < |calls| ==> calls[i].now <= calls[j].now)
  }

  /** Every call that names the key gives it this window, and a limit of at most `limit`. */
  ghost predicate Uses(call: Call, key: string, windowMs: nat, limit: nat) {
    forall i :: 0 <= i < |call.scopes| && call.scopes[i].key == key ==>
      call.scopes[i].windowMs == windowMs && call.scopes[i].limit <= limit
  }

  /** What a run records under a key, oldest first. */
  ghost function Log(calls: seq<Call>, verdicts: seq<Verdict>, key: string): seq<Entry>
    requires |verdicts| == |calls|
  {
    if calls == [] then []
    else
      var n := |calls| - 1;
      Log(calls[..n], verdicts[..n], key)
      + (if verdicts[n] == Recorded && !Outside(key, calls[n].scopes)
         then [Entry(calls[n].member, calls[n].now)] else [])
  }

  /** How many entries lie in the window of length `windowMs` that ends at `t`. */
  ghost function CountWindow(log: seq<Entry>, windowMs: nat, t: nat): nat {
    if log == [] then 0
    else
      var last := log[|log| - 1];
      CountWindow(log[..|log| - 1], windowMs, t) + (if last.time <= t < last.time + windowMs then 1 else 0)
  }

  ghost predicate Sorted(log: seq<Entry>, now: nat) {
    && (forall i :: 0 <= i < |log| ==> log[i].time <= now)
    && (forall i, j :: 0 <= i < j < |log| ==> log[i].time <= log[j].time)
  }

  /** Recordings of one member are at least a window apart. */
  ghost predicate Apart(log: seq<Entry>, windowMs: nat) {
    forall i, j :: 0 <= i < j < |log| && log[i].member == log[j].member ==> log[i].time + windowMs <= log[j].time
  }

  /** As long as a recording is inside its window the store still holds it: neither pruning nor
      the key's expiry drops it early. */
  ghost predicate StillHeld(s: Redis, log: seq<Entry>, key: string, windowMs: nat, now: nat) {
    forall i, later: nat :: 0 <= i < |log| && now <= later < log[i].time + windowMs ==>
      log[i].member in Held(s, key, later) && Held(s, key, later)[log[i].member] == log[i].time
  }

  /** Each recording was made with room for it. */
  ghost predicate HadRoom(log: seq<Entry>, windowMs: nat, limit: nat) {
    forall n :: 0 <= n < |log| ==> CountWindow(log[..n + 1], windowMs, log[n].time) <= limit
  }

  ghost predicate KeyInv(s: Redis, log: seq<Entry>, key: string, windowMs: nat, limit: nat, now: nat) {
    Sorted(log, now) && Apart(log, windowMs) && StillHeld(s, log, key, windowMs, now) && HadRoom(log, windowMs, limit)
  }

  ghost function WindowMembers(log: seq<Entry>, windowMs: nat, t: nat): set<string> {
    if log == [] then {}
    else
      var last := log[|log| - 1];
      WindowMembers(log[..|log| - 1], windowMs, t)
      + (if last.time <= t < last.time + windowMs then {last.member} else {})
  }

  lemma {:induction false} WindowMember(log: seq<Entry>, windowMs: nat, t: nat, m: string) returns (i: nat)
    requires m in WindowMembers(log, windowMs, t)
    ensures i < |log| && log[i].time <= t < log[i].time + windowMs && log[i].member == m
  {
    i := |log| - 1;
    if !(log[i].time <= t < log[i].time + windowMs && log[i].member == m) {
      i := WindowMember(log[..i], windowMs, t, m);
    }
  }

  lemma {:induction false} CountIsCardinality(log: seq<Entry>, windowMs: nat, t: nat)
    requires Apart(log, windowMs) && Sorted(log, t)
    ensures CountWindow(log, windowMs, t) == |WindowMembers(log, windowMs, t)|
  {
    if log != [] {
      var n := |log| - 1;
      CountIsCardinality(log[..n], windowMs, t);
      if log[n].member in WindowMembers(log[..n], windowMs, t) {
        var i := WindowMember(log[..n], windowMs, t, log[n].member);
      }
    }
  }

  lemma SubsetCardinality(a: set<string>, b: set<string>)
    requires a <= b
    ensures |a| <= |b|
  {
    if a != {} {
      var x :| x in a;
      SubsetCardinality(a - {x}, b - {x});
    }
  }

  /** A recording call finds room: fewer recordings in the current window than the limit. */
  lemma RecordedHasRoom(s: Redis, log: seq<Entry>, key: string, scope: Scope, now: nat)
    requires Sorted(log, now) && Apart(log, scope.windowMs) && StillHeld(s, log, key, scope.windowMs, now)
    requires scope.key == key && !Full(s, now, scope)
    ensures CountWindow(log, scope.windowMs, now) < scope.limit
  {
    var members := WindowMembers(log, scope.windowMs, now);
    var held := InWindow(s, scope, now);
    forall m | m in members
      ensures m in held.Keys
    {
      var i := WindowMember(log, scope.windowMs, now, m);
      assert log[i].member in Held(s, key, now);
    }
    CountIsCardinality(log, scope.windowMs, now);
    SubsetCardinality(members, held.Keys);
    assert |held.Keys| == |held|;
  }

  lemma CountSnoc(log: seq<Entry>, e: Entry, windowMs: nat, t: nat)
    ensures CountWindow(log + [e], windowMs, t)
            == CountWindow(log, windowMs, t) + if e.time <= t < e.time + windowMs then 1 else 0
  {
    assert (log + [e])[..|log|] == log;
  }

  /** A call that records nothing under the key keeps what is known about it. */
  lemma UnrecordedStep(s: Redis, t: Redis, log: seq<Entry>, key: string, windowMs: nat, limit: nat, before: nat,
                       call: Call, v: Verdict)
    requires KeyInv(s, log, key, windowMs, limit, before) && before <= call.now
    requires Transition(s, t, call.now, call.member, call.scopes, v) && Uses(call, key, windowMs, limit)
    requires v != Recorded || Outside(key, call.scopes)
    ensures KeyInv(t, log, key, windowMs, limit, call.now)
  {
    forall i, later: nat | 0 <= i < |log| && call.now <= later < log[i].time + windowMs
      ensures log[i].member in Held(t, key, later) && Held(t, key, later)[log[i].member] == log[i].time
    {
      assert log[i].member in Held(s, key, later);
      if Outside(key, call.scopes) {
        assert Held(t, key, later) == Held(s, key, later);
      } else {
        var k :| 0 <= k < |call.scopes| && call.scopes[k].key == key;
        assert ScopeAfter(s, t, call.now, call.member, call.scopes[k], false);
      }
    }
  }

  /** A recorded member was in none of the windows, so its previous recording is a window old. */
  lemma RecordedIsApart(s: Redis, log: seq<Entry>, key: string, scope: Scope, now: nat, member: string)
    requires Sorted(log, now) && Apart(log, scope.windowMs) && StillHeld(s, log, key, scope.windowMs, now)
    requires scope.key == key && member !in InWindow(s, scope, now)
    ensures Apart(log + [Entry(member, now)], scope.windowMs)
  {
    forall i | 0 <= i < |log| && now < log[i].time + scope.windowMs
      ensures log[i].member in InWindow(s, scope, now)
    {
      assert log[i].member in Held(s, key, now);
    }
  }

  /** After recording, the key holds everything still in its window, and expires later. */
  lemma RecordedIsHeld(s: Redis, t: Redis, log: seq<Entry>, key: string, scope: Scope, now: nat, member: string)
    requires Sorted(log, now) && StillHeld(s, log, key, scope.windowMs, now)
    requires scope.key == key && ScopeAfter(s, t, now, member, scope, true) && member !in InWindow(s, scope, now)
    ensures StillHeld(t, log + [Entry(member, now)], key, scope.windowMs, now)
  {
    var longer := log + [Entry(member, now)];
    forall i, later: nat | 0 <= i < |longer| && now <= later < longer[i].time + scope.windowMs
      ensures longer[i].member in Held(t, key, later) && Held(t, key, later)[longer[i].member] == longer[i].time
    {
      assert later < now + scope.windowMs <= now + Ttl(scope.windowMs);
      assert Held(t, key, later) == t.sets[key];
      if i < |log| {
        assert log[i].member in Held(s, key, now);
        assert log[i].member in InWindow(s, scope, now);
      }
    }
  }

  lemma RoomAfter(log: seq<Entry>, e: Entry, windowMs: nat, limit: nat)
    requires HadRoom(log, windowMs, limit) && CountWindow(log, windowMs, e.time) < limit
    ensures HadRoom(log + [e], windowMs, limit)
  {
    var longer := log + [e];
    CountSnoc(log, e, windowMs, e.time);
    forall n | 0 <= n < |longer|
      ensures CountWindow(longer[..n + 1], windowMs, longer[n].time) <= limit
    {
      assert longer[..n + 1] == if n < |log| then log[..n + 1] else longer;
    }
  }

  lemma RecordedStep(s: Redis, t: Redis, log: seq<Entry>, key: string, windowMs: nat, limit: nat, before: nat,
                     call: Call)
    requires KeyInv(s, log, key, windowMs, limit, before) && before <= call.now
    requires Transition(s, t, call.now, call.member, call.scopes, Recorded) && Uses(call, key, windowMs, limit)
    requires !Outside(key, call.scopes)
    ensures KeyInv(t, log + [Entry(call.member, call.now)], key, windowMs, limit, call.now)
  {
    var now, e := call.now, Entry(call.member, call.now);
    var k :| 0 <= k < |call.scopes| && call.scopes[k].key == key;
    var scope := call.scopes[k];
    assert ScopeAfter(s, t, now, call.member, scope, true) && !Full(s, now, scope);
    assert call.member !in InWindow(s, scope, now);
    assert StillHeld(s, log, key, windowMs, now);
    hide Held, ScopeAfter, InWindow, Full, StillHeld, Apart, HadRoom;
    RecordedHasRoom(s, log, key, scope, now);
    RecordedIsApart(s, log, key, scope, now, call.member);
    RecordedIsHeld(s, t, log, key, scope, now, call.member);
    RoomAfter(log, e, windowMs, limit);
  }

  lemma {:induction false} TraceInv(calls: seq<Call>, verdicts: seq<Verdict>, states: seq<Redis>,
                                    key: string, windowMs: nat, limit: nat)
    requires IsTrace(calls, verdicts, states)
    requires forall i :: 0 <= i < |calls| ==> Uses(calls[i], key, windowMs, limit)
    ensures var now := if calls == [] then 0 else calls[|calls| - 1].now;
            KeyInv(states[|calls|], Log(calls, verdicts, key), key, windowMs, limit, now)
  {
    if calls != [] {
      hide KeyInv, Transition, Uses;
      var n := |calls| - 1;
      TraceInv(calls[..n], verdicts[..n], states[..n + 1], key, windowMs, limit);
      var log := Log(calls[..n], verdicts[..n], key);
      var before := if n == 0 then 0 else calls[n - 1].now;
      if verdicts[n] == Recorded && !Outside(key, calls[n].scopes) {
        RecordedStep(states[n], states[n + 1], log, key, windowMs, limit, before, calls[n]);
      } else {
        UnrecordedStep(states[n], states[n + 1], log, key, windowMs, limit, before, calls[n], verdicts[n]);
        assert log + [] == log;
      }
    } else {
      assert Log(calls, verdicts, key) == [];
    }
  }

  lemma {:induction false} CountShrinks(log: seq<Entry>, windowMs: nat, t: nat, u: nat)
    requires Sorted(log, t) && t <= u
    ensures CountWindow(log, windowMs, u) <= CountWindow(log, windowMs, t)
  {
    if log != [] { CountShrinks(log[..|log| - 1], windowMs, t, u); }
  }

  lemma HadRoomFront(log: seq<Entry>, windowMs: nat, limit: nat)
    requires log != [] && HadRoom(log, windowMs, limit)
    ensures HadRoom(log[..|log| - 1], windowMs, limit)
  {
    var front := log[..|log| - 1];
    forall n | 0 <= n < |front|
      ensures CountWindow(front[..n + 1], windowMs, front[n].time) <= limit
    {
      assert front[..n + 1] == log[..n + 1];
    }
  }

  lemma {:induction false} BoundAnywhere(log: seq<Entry>, windowMs: nat, limit: nat, now: nat, t: nat)
    requires Sorted(log, now) && HadRoom(log, windowMs, limit)
    ensures CountWindow(log, windowMs, t) <= limit
  {
    if log != [] {
      var n := |log| - 1;
      if log[n].time <= t {
        CountShrinks(log, windowMs, log[n].time, t);
        assert log[..n + 1] == log;
      } else {
        HadRoomFront(log, windowMs, limit);
        BoundAnywhere(log[..n], windowMs, limit, now, t);
      }
    }
  }

  /** The sliding-window bound, for every run, every key and every moment: no window of the key's
      length, wherever it ends, holds more recordings than the largest limit any call gave; and
      recordings of the same member are at least one window apart. */
  lemma SlidingWindowBound(calls: seq<Call>, verdicts: seq<Verdict>, states: seq<Redis>,
                           key: string, windowMs: nat, limit: nat, t: nat)
    requires IsTrace(calls, verdicts, states)
    requires forall i :: 0 <= i < |calls| ==> Uses(calls[i], key, windowMs, limit)
    ensures CountWindow(Log(calls, verdicts, key), windowMs, t) <= limit
    ensures Apart(Log(calls, verdicts, key), windowMs)
  {
    TraceInv(calls, verdicts, states, key, windowMs, limit);
    var now := if calls == [] then 0 else calls[|calls| - 1].now;
    BoundAnywhere(Log(calls, verdicts, key), windowMs, limit, now, t);
  }

  // ---------------------------------------------------------------- the two callers

  datatype Limits = Limits(
    rawSender: int, rawGlobal: int, turnSenderShort: int, turnSenderLong: int, turnConversationShort: int,
    turnConversationLong: int, turnShop: int, turnGlobal: int, discoverySenderShort: int, discoverySenderLong: int,
    discoveryConversationShort: int, discoveryConversationLong: int)

  datatype DenialReason =
    | RAW_SENDER | RAW_GLOBAL
    | TURN_SENDER_SHORT | TURN_SENDER_LONG | TURN_CONVERSATION_SHORT | TURN_CONVERSATION_LONG | TURN_SHOP | TURN_GLOBAL
    | LIMITER_UNAVAILABLE

  const MINUTE := 60_000
  const TEN_MINUTES := 600_000
  const PREFIX := "arch007:wa-abuse:v1:"

  /** `sender` is the digest of the sender's telephone number. */
  function RawScopes(limits: Limits, sender: string): seq<Scope> {
    [Scope(PREFIX + "raw:sender:" + sender + ":60s", MINUTE, limits.rawSender),
     Scope(PREFIX + "raw:global:60s", MINUTE, limits.rawGlobal)]
  }

  function TurnScopes(limits: Limits, sender: string, conversation: string, shop: string, discoveryOnly: bool)
    : seq<Scope>
  {
    [Scope(PREFIX + "turn:sender:" + sender + ":60s", MINUTE,
           if discoveryOnly then limits.discoverySenderShort else limits.turnSenderShort),
     Scope(PREFIX + "turn:sender:" + sender + ":600s", TEN_MINUTES,
           if discoveryOnly then limits.discoverySenderLong else limits.turnSenderLong),
     Scope(PREFIX + "turn:conversation:" + conversation + ":60s", MINUTE,
           if discoveryOnly then limits.discoveryConversationShort else limits.turnConversationShort),
     Scope(PREFIX + "turn:conversation:" + conversation + ":600s", TEN_MINUTES,
           if discoveryOnly then limits.discoveryConversationLong else limits.turnConversationLong),
     Scope(PREFIX + "turn:shop:" + shop + ":60s", MINUTE, limits.turnShop),
     Scope(PREFIX + "turn:global:60s", MINUTE, limits.turnGlobal)]
  }

  const RAW_REASONS := [RAW_SENDER, RAW_GLOBAL]
  const TURN_REASONS :=
    [TURN_SENDER_SHORT, TURN_SENDER_LONG, TURN_CONVERSATION_SHORT, TURN_CONVERSATION_LONG, TURN_SHOP, TURN_GLOBAL]

  /** The window a key stands for can be read off its name. */
  function WindowOf(key: string): nat {
    if |key| >= 4 && key[|key| - 4] == '6' then TEN_MINUTES else MINUTE
  }

  ghost predicate WindowsByName(scopes: seq<Scope>) {
    forall i :: 0 <= i < |scopes| ==> scopes[i].windowMs == WindowOf(scopes[i].key)
  }

  lemma SuffixShort(head: string, name: string)
    ensures WindowOf(head + name + ":60s") == MINUTE
  {
    var key := head + name + ":60s";
    assert key[|key| - 4] == ":60s"[0];
  }

  lemma SuffixLong(head: string, name: string)
    ensures WindowOf(head + name + ":600s") == TEN_MINUTES
  {
    var key := head + name + ":600s";
    assert key[|key| - 4] == ":600s"[1];
  }

  /** The raw callers' keys are distinct and each key always comes with the same window. */
  lemma RawScopesAreSound(limits: Limits, sender: string)
    ensures Distinct(RawScopes(limits, sender)) && WindowsByName(RawScopes(limits, sender))
  {
    var scopes := RawScopes(limits, sender);
    SuffixShort(PREFIX + "raw:sender:", sender);
    SuffixShort(PREFIX + "raw:global", "");
    assert scopes[1].key == PREFIX + "raw:global" + "" + ":60s";
    assert scopes[0].key[24] == 's' && scopes[1].key[24] == 'g';
  }

  lemma TurnWindows(limits: Limits, sender: string, conversation: string, shop: string, discoveryOnly: bool)
    ensures WindowsByName(TurnScopes(limits, sender, conversation, shop, discoveryOnly))
  {
    SuffixShort(PREFIX + "turn:sender:", sender);
    SuffixLong(PREFIX + "turn:sender:", sender);
    SuffixShort(PREFIX + "turn:conversation:", conversation);
    SuffixLong(PREFIX + "turn:conversation:", conversation);
    SuffixShort(PREFIX + "turn:shop:", shop);
    SuffixShort(PREFIX + "turn:global", "");
    assert PREFIX + "turn:global:60s" == PREFIX + "turn:global" + "" + ":60s";
  }

  /** So are the settled-turn keys, whatever the identifiers are. */
  lemma TurnScopesAreSound(limits: Limits, sender: string, conversation: string, shop: string, discoveryOnly: bool)
    ensures var scopes := TurnScopes(limits, sender, conversation, shop, discoveryOnly);
            Distinct(scopes) && WindowsByName(scopes)
  {
    var scopes := TurnScopes(limits, sender, conversation, shop, discoveryOnly);
    TurnWindows(limits, sender, conversation, shop, discoveryOnly);
    var k := |PREFIX| + 5;
    assert scopes[0].key[k] == 's' && scopes[1].key[k] == 's' && scopes[2].key[k] == 'c';
    assert scopes[3].key[k] == 'c' && scopes[4].key[k] == 's' && scopes[5].key[k] == 'g';
    assert scopes[0].key[k + 1] == 'e' && scopes[1].key[k + 1] == 'e' && scopes[4].key[k + 1] == 'h';
    assert WindowOf(scopes[0].key) != WindowOf(scopes[1].key) && WindowOf(scopes[2].key) != WindowOf(scopes[3].key);
  }

  datatype Admission = Allowed | Refused(reason: DenialReason)

  /** The script is run and answers, is not run, or is run and its answer lost. */
  datatype Link = Up | Down | ReplyLost

  /** What a caller may see and what happens to the store: without an answer it refuses, although the
      script may have recorded the member. */
  ghost predicate Admits(s: Redis, t: Redis, link: Link, now: nat, member: string, scopes: seq<Scope>,
                         reasons: seq<DenialReason>, admission: Admission)
    requires |reasons| == |scopes|
  {
    match link
    case Down => admission == Refused(LIMITER_UNAVAILABLE) && t == s
    case ReplyLost =>
      admission == Refused(LIMITER_UNAVAILABLE) && exists v :: Transition(s, t, now, member, scopes, v)
    case Up =>
      exists v :: Transition(s, t, now, member, scopes, v)
                  && admission == if v.Denied? then Refused(reasons[v.index]) else Allowed
  }

  /** A full scope denies with its own reason; a limiter that does not answer denies everything. */
  method AdmitWith(store: RedisStore, link: Link, now: nat, member: string, scopes: seq<Scope>,
                   reasons: seq<DenialReason>)
    returns (admission: Admission)
    requires Distinct(scopes) && |reasons| == |scopes|
    modifies store
    ensures Admits(old(store.View()), store.View(), link, now, member, scopes, reasons, admission)
  {
    if link == Down { return Refused(LIMITER_UNAVAILABLE); }
    var v := store.Admit(now, member, scopes);
    if link == ReplyLost { return Refused(LIMITER_UNAVAILABLE); }
    admission := if v.Denied? then Refused(reasons[v.index]) else Allowed;
  }

  method AdmitRaw(store: RedisStore, link: Link, now: nat, messageId: string, limits: Limits, sender: string)
    returns (admission: Admission)
    modifies store
    ensures Admits(old(store.View()), store.View(), link, now, messageId, RawScopes(limits, sender), RAW_REASONS,
                   admission)
  {
    RawScopesAreSound(limits, sender);
    admission := AdmitWith(store, link, now, messageId, RawScopes(limits, sender), RAW_REASONS);
  }

  method AdmitSettledTurn(store: RedisStore, link: Link, now: nat, turn: string, limits: Limits, sender: string,
                          conversation: string, shop: string, discoveryOnly: bool)
    returns (admission: Admission)
    modifies store
    ensures Admits(old(store.View()), store.View(), link, now, turn,
                   TurnScopes(limits, sender, conversation, shop, discoveryOnly), TURN_REASONS, admission)
  {
    TurnScopesAreSound(limits, sender, conversation, shop, discoveryOnly);
    admission := AdmitWith(store, link, now, turn,
                           TurnScopes(limits, sender, conversation, shop, discoveryOnly), TURN_REASONS);
  }

  /** A call of one of the two callers, under any configuration. */
  ghost predicate FromCaller(call: Call) {
    || (exists limits, sender :: call.scopes == RawScopes(limits, sender))
    || (exists limits, sender, conversation, shop, discoveryOnly ::
          call.scopes == TurnScopes(limits, sender, conversation, shop, discoveryOnly))
  }

  lemma CallersNameTheirWindows(call: Call)
    requires FromCaller(call)
    ensures WindowsByName(call.scopes)
  {
    hide RawScopes, TurnScopes, WindowsByName;
    if limits, sender :| call.scopes == RawScopes(limits, sender) {
      RawScopesAreSound(limits, sender);
    } else {
      var limits, sender, conversation, shop, discoveryOnly :|
        call.scopes == TurnScopes(limits, sender, conversation, shop, discoveryOnly);
      TurnScopesAreSound(limits, sender, conversation, shop, discoveryOnly);
    }
  }

  /** So the bound holds of every key in every run of the two callers, however the configured limits
      change: no minute, or ten minutes, for which the key stands holds more recordings than the largest
      limit that was in force for it.  Calls whose answer was lost are among those counted. */
  lemma CallersAreBounded(calls: seq<Call>, verdicts: seq<Verdict>, states: seq<Redis>, key: string, limit: nat, t: nat)
    requires IsTrace(calls, verdicts, states)
    requires forall i :: 0 <= i < |calls| ==> FromCaller(calls[i])
    requires forall i, j :: 0 <= i < |calls| && 0 <= j < |calls[i].scopes| && calls[i].scopes[j].key == key ==>
               calls[i].scopes[j].limit <= limit
    ensures CountWindow(Log(calls, verdicts, key), WindowOf(key), t) <= limit
    ensures Apart(Log(calls, verdicts, key), WindowOf(key))
  {
    hide FromCaller, IsTrace, WindowOf, Log, CountWindow, Apart;
    forall i | 0 <= i < |calls|
      ensures Uses(calls[i], key, WindowOf(key), limit)
    {
      CallersNameTheirWindows(calls[i]);
    }
    SlidingWindowBound(calls, verdicts, states, key, WindowOf(key), limit, t);
  }

  /** A ten-minute scope that still holds a turn lets its retry through without counting it again,
      even when the one-minute scopes have forgotten it. */
  lemma ReplayIsNotCounted(s: Redis, t: Redis, now: nat, member: string, scopes: seq<Scope>, v: Verdict, i: nat,
                           key: string)
    requires Transition(s, t, now, member, scopes, v) && i < |scopes| && member in InWindow(s, scopes[i], now)
    ensures v == Replayed && (member in Held(t, key, now) ==> member in Held(s, key, now))
  {
    if Outside(key, scopes) {
      assert Held(t, key, now) == Held(s, key, now);
    } else {
      var k :| 0 <= k < |scopes| && scopes[k].key == key;
      assert ScopeAfter(s, t, now, member, scopes[k], false);
    }
  }
}
