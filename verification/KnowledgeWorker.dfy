/** The worker that turns a requested revision into a searchable one.

    Every awaited call is answered by an adversary: first the other workers, the reconciliation and the
    merchant write whatever they like, then the call throws without effect or returns anything. */
module KnowledgeWorker {
  import opened Common
  import opened KnowledgeRevisions
  import Chunking
  import TextNormalization

  datatype Failure = Failure(code: string, retryable: bool)

  datatype Eligibility = Eligibility(globallySupported: bool, eligible: bool, maxUnits: Option<nat>)

  /** One answer; a call reads the part it needs.  `text` is what was acquired, after NFC. */
  datatype Answer = Answer(
    others: seq<Step>, failure: Option<Failure>, eligibility: Eligibility, text: string, vector: Vector,
    dimensions: nat)

  datatype Outcome =
    | RevisionNotFound | StaleJob | TerminalNoop | FailedForGood | Dormant | ClaimLost | EligibilityChanged
    | BecameActive | StaleNoop

  /** What a job finds to work on, or why there is nothing to do. */
  datatype Found = Found(revision: Revision, source: Source) | Nothing(outcome: Outcome)

  /** What one awaited call of the worker is: a statement that writes, or anything else. */
  datatype Kind = Reads | Writes(step: Step)

  /** The calls of a worker so far, numbered as their answers are.  Everything the tables went through
      follows from them: what the others did before each call, and each write whose call returned. */
  datatype Trace = Trace(env: nat -> Answer, start: State, log: seq<Kind>) {
    /** The worker's own step, performed. */
    ghost predicate Made(k: nat) {
      k < |log| && log[k].Writes? && env(k).failure.None?
    }

    ghost function Steps(n: nat): seq<Step>
      requires n <= |log|
    {
      if n == 0 then []
      else Steps(n - 1) + env(n - 1).others + if Made(n - 1) then [log[n - 1].step] else []
    }

    /** The tables after the first `n` calls. */
    ghost function At(n: nat): State
      requires n <= |log|
    {
      After(start, Steps(n))
    }

    /** The tables when call `k` takes effect. */
    ghost function Before(k: nat): State
      requires k < |log|
    {
      After(At(k), env(k).others)
    }

    /** The worker's own step found its row. */
    ghost predicate Hit(k: nat) {
      Made(k) && Hits(Before(k), log[k].step)
    }

    /** What the call after the first `mark` ones read. */
    ghost predicate Saw(mark: nat, job: Job, revision: Revision, source: Source) {
      && mark < |log|
      && var s := At(mark + 1);
      && job.revision < |s.revisions| && s.revisions[job.revision] == revision
      && revision.source < |s.sources| && s.sources[revision.source] == source
    }

    /** The revision read lacks the locator that the format of its source needs. */
    ghost predicate Unfit(mark: nat, job: Job) {
      exists revision, source :: Saw(mark, job, revision, source) && !LocatorFits(revision, source)
    }

    /** A call of the preparation failed this way. */
    ghost predicate SomeCallFailed(mark: nat, failure: Failure) {
      exists k: nat :: mark + 1 < k < |log| && env(k).failure == Some(failure)
    }

    /** The model's answer to some call after the text was acquired is no usable vector. */
    ghost predicate SomeVectorBad(acquiredAt: nat) {
      acquiredAt > 0
      && exists k: nat :: acquiredAt < k < |log| && !ValidVector(env(k).vector, env(acquiredAt - 1).dimensions)
    }

    /** Why a job that began after `mark` calls may be given up for good. */
    ghost predicate Blamed(mark: nat, acquiredAt: nat, job: Job, failure: Failure) {
      && mark + 1 < |log|
      && (|| (failure == Failure("SOURCE_TYPE_UNSUPPORTED", false) && !env(mark + 1).eligibility.globallySupported)
          || (failure == Failure("LOCATOR_FORMAT_MISMATCH", false) && Unfit(mark, job))
          || SomeCallFailed(mark, failure)
          || (failure == Failure("EMBEDDING_VECTOR_INVALID", false)
              && mark + 1 < acquiredAt && SomeVectorBad(acquiredAt)))
    }

    ghost predicate Fair() {
      Inv(start) && (forall i :: AllHonest(env(i).others))
      && forall k :: 0 <= k < |log| && log[k].Writes? ==> Honest(log[k].step)
    }
  }

  lemma {:induction false} StepsGrow(t: Trace, u: Trace, n: nat)
    requires u.env == t.env && u.start == t.start && t.log <= u.log && n <= |t.log|
    ensures u.Steps(n) == t.Steps(n)
  {
    if n > 0 { StepsGrow(t, u, n - 1); }
  }

  /** What was so of earlier calls stays so as more are made. */
  lemma PastIsFixed(t: Trace, u: Trace)
    requires u.env == t.env && u.start == t.start && t.log <= u.log
    ensures forall n :: 0 <= n <= |t.log| ==> u.At(n) == t.At(n)
    ensures forall k :: 0 <= k < |t.log| ==> u.Before(k) == t.Before(k) && (u.Made(k) <==> t.Made(k))
    ensures forall k :: 0 <= k < |t.log| ==> (u.Hit(k) <==> t.Hit(k))
  {
    hide Hits;
    forall n | 0 <= n <= |t.log|
      ensures u.At(n) == t.At(n)
    {
      StepsGrow(t, u, n);
    }
  }

  lemma BlameGrows(t: Trace, u: Trace, mark: nat, acquiredAt: nat, job: Job, failure: Failure)
    requires u.env == t.env && u.start == t.start && t.log <= u.log && t.Blamed(mark, acquiredAt, job, failure)
    ensures u.Blamed(mark, acquiredAt, job, failure)
  {
    hide Trace.At, ValidVector;
    PastIsFixed(t, u);
    if t.Unfit(mark, job) {
      var revision, source :| t.Saw(mark, job, revision, source) && !LocatorFits(revision, source);
      assert u.Saw(mark, job, revision, source);
    }
  }

  lemma {:induction false} AfterSplit(s: State, a: seq<Step>, b: seq<Step>)
    ensures After(s, a + b) == After(After(s, a), b)
  {
    hide Apply;
    if b == [] {
      assert a + b == a;
    } else {
      var n := |b| - 1;
      AfterSplit(s, a, b[..n]);
      assert (a + b)[..|a| + n] == a + b[..n];
    }
  }

  lemma AfterNext(s: State, steps: seq<Step>, step: Step)
    ensures After(s, steps + [step]) == Apply(After(s, steps), step)
  {
    assert (steps + [step])[..|steps|] == steps;
  }

  /** One call: the others, then the worker's own step. */
  lemma AtNext(t: Trace, n: nat)
    requires n < |t.log|
    ensures t.At(n + 1) == if t.Made(n) then Apply(t.Before(n), t.log[n].step) else t.Before(n)
  {
    hide Apply;
    AfterSplit(t.start, t.Steps(n), t.env(n).others);
    if t.Made(n) {
      AfterNext(t.start, t.Steps(n) + t.env(n).others, t.log[n].step);
    } else {
      assert t.Steps(n + 1) == t.Steps(n) + t.env(n).others;
    }
  }

  lemma {:induction false} StepsAreHonest(t: Trace, n: nat)
    requires t.Fair() && n <= |t.log|
    ensures AllHonest(t.Steps(n))
  {
    hide Inv, Honest;
    if n > 0 {
      StepsAreHonest(t, n - 1);
      assert AllHonest(t.env(n - 1).others);
    }
  }

  /** The invariant holds after every call and when every call takes effect. */
  lemma TraceKeepsInv(t: Trace)
    requires t.Fair()
    ensures forall n :: 0 <= n <= |t.log| ==> Inv(t.At(n))
    ensures forall k :: 0 <= k < |t.log| ==> Inv(t.Before(k))
  {
    hide Inv, Honest, After;
    forall n | 0 <= n <= |t.log|
      ensures Inv(t.At(n))
    {
      StepsAreHonest(t, n);
      RunKeepsInv(t.start, t.Steps(n));
    }
    forall k | 0 <= k < |t.log|
      ensures Inv(t.Before(k))
    {
      assert Inv(t.At(k)) && AllHonest(t.env(k).others);
      RunKeepsInv(t.At(k), t.env(k).others);
    }
  }

  lemma OneMoreCall(t: Trace, kind: Kind)
    requires t.Fair() && (kind.Writes? ==> Honest(kind.step))
    ensures var u := t.(log := t.log + [kind]);
            var n := |t.log|;
            && u.Fair() && Inv(u.At(n + 1)) && Inv(u.Before(n))
            && u.Before(n) == After(t.At(n), t.env(n).others)
            && u.At(n + 1) == (if u.Made(n) then Apply(u.Before(n), kind.step) else u.Before(n))
            && forall m :: 0 <= m <= n ==> u.At(m) == t.At(m)
  {
    hide Inv, Apply, After, Honest, Hits;
    var u := t.(log := t.log + [kind]);
    PastIsFixed(t, u);
    AtNext(u, |t.log|);
    assert u.Fair();
    TraceKeepsInv(u);
  }

  lemma {:induction false} StepsArePrefix(t: Trace, m: nat, n: nat)
    requires m <= n <= |t.log|
    ensures t.Steps(m) <= t.Steps(n)
  {
    if m < n { StepsArePrefix(t, m, n - 1); }
  }

  /** A revision seen after some call belongs to the same source ever after. */
  lemma SourceIsFixed(t: Trace, m: nat, n: nat, i: nat)
    requires t.Fair() && m <= n <= |t.log| && i < |t.At(m).revisions|
    ensures i < |t.At(n).revisions| && t.At(n).revisions[i].source == t.At(m).revisions[i].source
  {
    hide Inv, Honest, After, Serves;
    TraceKeepsInv(t);
    StepsAreHonest(t, n);
    StepsArePrefix(t, m, n);
    var tail := t.Steps(n)[|t.Steps(m)|..];
    assert t.Steps(n) == t.Steps(m) + tail;
    AfterSplit(t.start, t.Steps(m), tail);
    RunEvolves(t.At(m), tail);
    assert RevisionEvolves(t.At(m).revisions[i], t.At(n).revisions[i]);
  }

  /** What a promotion must have stored for a text acquired under a limit. */
  function Content(text: string, maxUnits: nat): string {
    Chunking.Truncate(TextNormalization.Reference(TextNormalization.UnixLines(text)), maxUnits)
  }

  /** The guarded update found its row. */
  predicate Hits(s: State, step: Step) {
    match step
    case Claim(job) => Owned(s, job) && s.revisions[job.revision].status == PENDING
    case Reclaim(job) => Owned(s, job) && s.revisions[job.revision].status == PROCESSING
    case Promote(job, src, seenAt, p) => MayPromote(s, job, src, seenAt) && Insertable(p, |p.chunks|)
    case _ => false
  }

  /** The format decides where a revision is acquired from, and the revision must carry that locator. */
  predicate LocatorFits(r: Revision, source: Source) {
    match source.kind
    case REMOTE_URL => source.format == WEB_PAGE && r.requestedUrl.Some?
    case UPLOAD => r.uploadedAsset.Some? && (source.format == CSV || source.format == XLSX)
    case OTHER_KIND => false
  }

  /** The revision is active with exactly the content prepared from the text, within the limit. */
  ghost predicate Stored(s: State, job: Job, text: string, maxUnits: nat) {
    && Owned(s, job)
    && var r := s.revisions[job.revision];
    && r.status == ACTIVE && r.content == Some(Content(text, maxUnits))
    && r.contentUnits.Some? && r.contentUnits.value <= maxUnits
    && Chunking.Rejoin(ChunksOf(r.rows)) == Content(text, maxUnits)
  }

  lemma PromotionStores(s: State, step: Step, text: string, maxUnits: nat)
    requires Inv(s) && step.Promote? && Prepared(step.payload) && Hits(s, step)
    requires step.payload.content == Content(text, maxUnits)
    ensures Stored(Apply(s, step), step.job, text, maxUnits)
  {
    hide Indexed, TextNormalization.Reference, TextNormalization.UnixLines;
    var p := step.payload;
    RetireFacts(s, step.src);
    assert ChunksOf(RowsFor(p, |p.chunks|)) == p.chunks;
    Chunking.ChunkingIsReversible(p.content, p.chunks);
  }

  lemma FailCloses(s: State, job: Job, code: string)
    ensures Owned(Apply(s, Fail(job, code)), job) ==> !Open(Apply(s, Fail(job, code)).revisions[job.revision].status)
  {}

  lemma ResetReopens(s: State, job: Job)
    ensures Owned(Apply(s, Reset(job)), job) ==> Apply(s, Reset(job)).revisions[job.revision].status != PROCESSING
  {}

  lemma SourceStays(t: Trace, u: Trace, m: nat, i: nat)
    requires u.env == t.env && u.start == t.start && t.log <= u.log && u.Fair()
    requires m <= |t.log| && i < |t.At(m).revisions|
    ensures i < |u.At(|u.log|).revisions| && u.At(|u.log|).revisions[i].source == t.At(m).revisions[i].source
  {
    hide Trace.Fair, Trace.At;
    PastIsFixed(t, u);
    SourceIsFixed(u, m, |u.log|, i);
  }

  // ------------------------------------------------------------ one way to strand a revision

  /** The job's revision, of the only source, is in the given status and can be acquired. */
  predicate Ready(s: State, job: Job, status: Status) {
    && Owned(s, job)
    && var r := s.revisions[job.revision];
    r.source == 0 && r.status == status && LocatorFits(r, s.sources[0])
  }

  lemma TouchKeepsReady(s: State, at: int, job: Job, status: Status)
    requires Ready(s, job, status)
    ensures var t := After(s, [Touch(0, at)]);
            Ready(t, job, status) && t.sources[0].updatedAt == at
  {
    assert [Touch(0, at)][..0] == [];
  }

  lemma TouchSets(s: State, at: int)
    ensures var t := After(s, [Touch(0, at)]);
            0 < |t.sources| ==> t.sources[0].updatedAt == at
  {
    assert [Touch(0, at)][..0] == [];
  }

  lemma ClaimMakesReady(s: State, job: Job)
    requires Ready(s, job, PENDING)
    ensures Hits(s, Claim(job)) && Ready(Apply(s, Claim(job)), job, PROCESSING)
  {}

  lemma ReadyHasSource(s: State, job: Job)
    requires Ready(s, job, PROCESSING)
    ensures 0 < |s.sources|
  {}

  /** A promotion that changes nothing was overtaken, one way or another. */
  lemma MissedPromotion(s: State, step: Step)
    requires step.Promote? && Prepared(step.payload) && !Hits(s, step)
    ensures Apply(s, step) == s
    ensures Owned(s, step.job) && s.revisions[step.job.revision].status == PROCESSING
            && s.revisions[step.job.revision].source == step.src ==>
              s.sources[step.src].updatedAt != step.seenAt
  {}

  lemma TouchedIsMissed(s: State, step: Step)
    requires step.Promote? && step.src < |s.sources| && s.sources[step.src].updatedAt != step.seenAt
    ensures !Hits(s, step)
  {}

  class Worker {
    const env: nat -> Answer
    const store: KnowledgeStore
    ghost const start: State
    var calls: nat
    ghost var log: seq<Kind>
    ghost var mark: nat
    ghost var acquiredAt: nat

    constructor (env: nat -> Answer, store: KnowledgeStore)
      requires Inv(store.View()) && forall i :: AllHonest(env(i).others)
      ensures Valid() && this.env == env && this.store == store && start == store.View() && log == []
    {
      this.env, this.store, start := env, store, store.View();
      calls := 0;
      log, mark, acquiredAt := [], 0, 0;
    }

    ghost function Told(): Trace
      reads this
    {
      Trace(env, start, log)
    }

    /** The tables are what the calls made of them, in order. */
    ghost predicate Valid()
      reads this, store
    {
      Told().Fair() && mark <= |log| == calls && store.View() == Told().At(|log|)
    }

    /** Only calls were added. */
    twostate predicate Extends()
      reads this, store
    {
      Valid() && old(log) <= log && mark == old(mark)
    }

    /** Only calls that do not write. */
    twostate predicate OnlyReads()
      reads this, store
    {
      Extends() && forall k :: old(|log|) <= k < |log| ==> log[k].Reads?
    }

    /** The worker's own steps since the job began all carry the job, and before the latest call they were
        claims. */
    ghost predicate OwnStepsOf(job: Job)
      reads this
    {
      forall k :: mark <= k < |log| && Told().Made(k) ==>
        && JobOf(log[k].step) == Some(job) && Honest(log[k].step)
        && (k < |log| - 1 ==> log[k].step in {Claim(job), Reclaim(job)})
    }

    ghost predicate OnlyClaims(job: Job)
      reads this
    {
      forall k :: mark <= k < |log| && Told().Made(k) ==> log[k].step in {Claim(job), Reclaim(job)}
    }

    /** Nothing the worker wrote since the job began changed anything. */
    ghost predicate NothingHit()
      reads this
    {
      forall k :: mark <= k < |log| ==> !Told().Hit(k)
    }

    ghost predicate LastFailed(failure: Failure)
      reads this
    {
      |log| > mark && env(|log| - 1).failure == Some(failure)
    }

    /** The latest call was this write, and it returned. */
    ghost predicate Wrote(step: Step)
      reads this
    {
      |log| > mark && Told().Made(|log| - 1) && log[|log| - 1].step == step
    }

    /** Up to what limit the source may be processed, by the answer to call `k`; None if it may not. */
    ghost function LimitAt(k: nat): Option<nat> {
      if env(k).eligibility.eligible then env(k).eligibility.maxUnits else None
    }

    ghost predicate Saw(job: Job, revision: Revision, source: Source)
      reads this
    {
      Told().Saw(mark, job, revision, source)
    }

    ghost predicate Blamed(job: Job, failure: Failure)
      reads this
    {
      Told().Blamed(mark, acquiredAt, job, failure)
    }

    ghost predicate SeenSource(job: Job, src: nat)
      reads this
    {
      && mark < |log| && job.revision < |Told().At(mark + 1).revisions|
      && Told().At(mark + 1).revisions[job.revision].source == src
    }

    /** The revision was put back for later. */
    ghost predicate PutAside(job: Job)
      reads this, store
    {
      Wrote(Reset(job)) && (Owned(store.View(), job) ==> store.revisions[job.revision].status != PROCESSING)
    }

    /** The claim was tried and found nothing. */
    ghost predicate ClaimMissed(job: Job)
      reads this
    {
      NothingHit() && (Wrote(Claim(job)) || Wrote(Reclaim(job)))
    }

    /** The revision was activated by this job, under a limit that the first answer about eligibility gave
        and the last one repeated, with the text that was acquired in between, cut to that limit. */
    ghost predicate Searchable(job: Job)
      reads this, store
    {
      var last := |log| - 1;
      && last >= 0 && Told().Hit(last)
      && mark + 1 < acquiredAt < last - 2 && log[acquiredAt].Reads?
      && LimitAt(mark + 1).Some? && LimitAt(last - 2) == LimitAt(mark + 1)
      && Stored(store.View(), job, env(acquiredAt).text, LimitAt(mark + 1).value)
    }

    /** The job no longer owns an unfinished revision, or the source row was written between its reading
        and the compare-and-set. */
    ghost predicate Overtaken(job: Job)
      reads this, store
    {
      var s, last := store.View(), |log| - 1;
      Owned(s, job) && s.revisions[job.revision].status == PROCESSING ==>
        && last > mark && Told().Made(last) && !Told().Hit(last)
        && var src := s.revisions[job.revision].source;
        && log[last].step.Promote? && log[last].step.job == job && log[last].step.src == src
        && src < |Told().At(last).sources|
        && log[last].step.seenAt == Told().At(last).sources[src].updatedAt != s.sources[src].updatedAt
    }

    /** What each outcome tells about the tables, the calls and the answers. */
    ghost predicate Means(job: Job, outcome: Outcome)
      reads this, store
    {
      var s, last := store.View(), |log| - 1;
      && last >= mark
      && match outcome
         case RevisionNotFound => last == mark && log[last].Reads? && job.revision >= |s.revisions|
         case StaleJob => last == mark && log[last].Reads? && job.revision < |s.revisions| && !Owned(s, job)
         case TerminalNoop =>
           last == mark && log[last].Reads? && Owned(s, job) && !Open(s.revisions[job.revision].status)
         case FailedForGood =>
           && Told().Made(last) && log[last].step.Fail? && log[last].step.job == job
           && Blamed(job, Failure(log[last].step.code, false))
           && (Owned(s, job) ==> !Open(s.revisions[job.revision].status))
         case Dormant =>
           last == mark + 2 && PutAside(job) && LimitAt(mark + 1).None?
         case ClaimLost => ClaimMissed(job)
         case EligibilityChanged =>
           last > mark + 2 && PutAside(job) && LimitAt(last - 1) != LimitAt(mark + 1)
         case BecameActive => Searchable(job)
         case StaleNoop => Overtaken(job)
    }

    method Perform(step: Step) returns (hit: bool)
      modifies store
      ensures store.View() == Apply(old(store.View()), step)
      ensures hit == Hits(old(store.View()), step)
    {
      hit := false;
      match step
      case AddSource(source, url, asset) =>
        store.revisions := store.revisions
          + [Revision(|store.sources|, source.generation, PENDING, url, asset, None, None, None, [])];
        store.sources := store.sources + [source];
      case Request(src, at, url, asset) =>
        if src < |store.sources| {
          var advanced := Advance(store.View(), src, at, url, asset);
          store.sources, store.revisions := advanced.sources, advanced.revisions;
        }
      case Touch(src, at) =>
        if src < |store.sources| {
          store.sources := store.sources[src := store.sources[src].(updatedAt := at)];
        }
      case Claim(job) =>
        var count := store.ClaimPending(job);
        hit := count > 0;
      case Reclaim(job) =>
        var count := store.ClaimAgain(job);
        hit := count > 0;
      case Reset(job) => store.ResetPending(job);
      case Fail(job, code) => store.MarkPermanentFailure(job, code);
      case Exhaust(job) => store.MarkTerminalFailure(job);
      case Promote(job, src, seenAt, p) =>
        var promoted := store.PromoteRevision(job, src, seenAt, p);
        hit := promoted == Ok(true);
      case Replace(src, maxUnits, at) => var _ := store.CreateReplacementIfRequired(src, maxUnits, at);
    }

    /** The others act. */
    method Interfere(others: seq<Step>)
      modifies store
      ensures store.View() == After(old(store.View()), others)
    {
      for i := 0 to |others|
        invariant store.View() == After(old(store.View()), others[..i])
      {
        var _ := Perform(others[i]);
        assert others[..i + 1][..i] == others[..i];
      }
      assert others[..|others|] == others;
    }

    /** Awaits a call: the others act, then the call throws without effect, or takes effect and returns. */
    method Call(kind: Kind) returns (r: Result<Answer, Failure>, hit: bool)
      requires Valid() && (kind.Writes? ==> Honest(kind.step))
      modifies this`calls, this`log, store
      ensures Extends() && log == old(log) + [kind]
      ensures r == if env(old(calls)).failure.Some? then Err(env(old(calls)).failure.value) else Ok(env(old(calls)))
      ensures hit == Told().Hit(old(calls))
      ensures Told().Before(old(calls)) == After(old(store.View()), env(old(calls)).others)
      ensures Inv(Told().Before(old(calls))) && Inv(store.View())
      ensures store.View() == if kind.Writes? && r.Ok? then Apply(Told().Before(old(calls)), kind.step)
                              else Told().Before(old(calls))
      ensures forall n :: 0 <= n <= old(calls) ==> Told().At(n) == old(Told()).At(n)
    {
      hide Inv, Apply, After, Honest, Hits, Trace.Steps, Trace.Fair, Trace.At, Trace.Before;
      OneMoreCall(Told(), kind);
      var a := env(calls);
      Interfere(a.others);
      calls := calls + 1;
      log := log + [kind];
      if a.failure.Some? { return Err(a.failure.value), false; }
      hit := false;
      if kind.Writes? { hit := Perform(kind.step); }
      return Ok(a), hit;
    }

    /** Every call returns, and the merchant touches the only source before each; nothing else happens. */
    ghost predicate Restless() {
      forall k: nat ::
        && env(k).failure.None? && env(k).others == [Touch(0, k)] && env(k).eligibility.globallySupported
        && LimitAt(k).Some? && LimitAt(k) == LimitAt(0)
        && ValidVector(env(k).vector, env(0).dimensions) && env(k).dimensions == env(0).dimensions
    }

    /** In that world a ready revision stays as ready as it was. */
    twostate predicate StaysReady()
      reads this, store
    {
      forall job, status :: Ready(old(store.View()), job, status) ==> Ready(store.View(), job, status)
    }

    method Await() returns (r: Result<Answer, Failure>)
      requires Valid()
      modifies this`calls, this`log, store
      ensures OnlyReads() && log == old(log) + [Reads] && calls == old(calls) + 1 == |log| && Inv(store.View())
      ensures r.Ok? ==> r.value == env(old(calls))
      ensures r.Err? ==> LastFailed(r.error)
      ensures forall n :: 0 <= n <= old(calls) ==> Told().At(n) == old(Told()).At(n)
      ensures Restless() ==> r.Ok? && StaysReady()
      ensures Restless() && 0 < |store.sources| ==> store.sources[0].updatedAt == old(calls)
    {
      hide Inv, After, Apply, Honest, Hits, Trace.Steps, Trace.Fair, Trace.At, Trace.Before, Owned, LocatorFits;
      ghost var before, now := store.View(), calls;
      var hit;
      r, hit := Call(Reads);
      if Restless() {
        assert env(now).others == [Touch(0, now)];
        TouchSets(before, now);
        forall job, status | Ready(before, job, status)
          ensures Ready(store.View(), job, status)
        {
          TouchKeepsReady(before, now, job, status);
        }
      }
    }

    /** A statement of the worker itself; true when a guarded row was hit. */
    method Write(step: Step) returns (r: Result<bool, Failure>)
      requires Valid() && Honest(step)
      modifies this`calls, this`log, store
      ensures Extends() && log == old(log) + [Writes(step)]
      ensures r.Err? ==> LastFailed(r.error) && !Told().Made(old(calls))
      ensures r.Ok? ==> Wrote(step) && r.value == Told().Hit(old(calls))
      ensures Inv(Told().Before(old(calls))) && Inv(store.View())
      ensures Told().Before(old(calls)) == After(old(store.View()), env(old(calls)).others)
      ensures r.Ok? ==> store.View() == Apply(Told().Before(old(calls)), step)
      ensures forall n :: 0 <= n <= old(calls) ==> Told().At(n) == old(Told()).At(n)
      ensures Restless() ==> r.Ok?
    {
      hide Inv, After, Apply, Honest, Hits, Trace.Steps, Trace.Fair, Trace.At, Trace.Before;
      var answer, hit := Call(Writes(step));
      assert Restless() ==> env(old(calls)).failure.None?;
      if answer.Err? { return Err(answer.error); }
      return Ok(hit);
    }

    /** Embeds the chunks one by one; a bad vector is a permanent failure. */
    method Embed(chunks: seq<Chunking.Chunk>, dimensions: nat) returns (r: Result<seq<Vector>, Failure>)
      requires Valid()
      modifies this`calls, this`log, store
      ensures OnlyReads()
      ensures r.Ok? ==> |r.value| == |chunks| && forall k :: 0 <= k < |chunks| ==> ValidVector(r.value[k], dimensions)
      ensures r.Err? ==>
                LastFailed(r.error)
                || (r.error == Failure("EMBEDDING_VECTOR_INVALID", false)
                    && old(|log|) < |log| && !ValidVector(env(|log| - 1).vector, dimensions))
      ensures |log| >= old(|log|)
      ensures Restless() && dimensions == env(0).dimensions ==> r.Ok? && StaysReady()
    {
      hide Valid, Inv, Ready;
      var vectors: seq<Vector> := [];
      for i := 0 to |chunks|
        invariant OnlyReads() && |vectors| == i && forall k :: 0 <= k < i ==> ValidVector(vectors[k], dimensions)
        invariant Restless() && dimensions == env(0).dimensions ==> StaysReady()
      {
        var a :- Await();
        if !ValidVector(a.vector, dimensions) { return Err(Failure("EMBEDDING_VECTOR_INVALID", false)); }
        vectors := vectors + [a.vector];
      }
      return Ok(vectors);
    }

    method Acquire() returns (r: Result<string, Failure>)
      requires Valid()
      modifies this`calls, this`log, this`acquiredAt, store
      ensures OnlyReads() && old(|log|) == acquiredAt < |log|
      ensures r.Ok? ==> r.value == env(acquiredAt).text
      ensures r.Err? ==> LastFailed(r.error)
      ensures Restless() ==> r.Ok? && StaysReady()
    {
      hide Inv, Ready, Trace.Steps, Trace.Fair, Trace.At, Trace.Before, ValidVector;
      var answer := Await();
      acquiredAt := calls - 1;
      if answer.Err? { return Err(answer.error); }
      return Ok(answer.value.text);
    }

    /** The text as it is stored: normalised, and cut to the limit. */
    static method Cut(text: string, maxUnits: nat) returns (content: string)
      ensures content == Content(text, maxUnits)
    {
      hide TextNormalization.Reference, TextNormalization.UnixLines;
      var normalized := TextNormalization.Normalize(text);
      var codePoints := Chunking.CountCodePoints(normalized);
      content := if codePoints > maxUnits * 4 then normalized[..maxUnits * 4] else normalized;
      assert normalized[..|normalized|] == normalized;
    }

    /** Acquires, normalises, truncates, chunks and embeds: everything that may fail for good. */
    method Prepare(job: Job, revision: Revision, source: Source, maxUnits: nat) returns (r: Result<Payload, Failure>)
      requires Valid() && Saw(job, revision, source) && mark + 2 < |log|
      modifies this`calls, this`log, this`acquiredAt, store
      ensures OnlyReads() && Saw(job, revision, source)
      ensures r.Ok? ==> Prepared(r.value) && old(|log|) < acquiredAt < |log|
                        && r.value.content == Content(env(acquiredAt).text, maxUnits)
      ensures r.Err? ==> Blamed(job, r.error) && (r.error.retryable ==> LastFailed(r.error))
      ensures Restless() && LocatorFits(revision, source) ==> r.Ok? && StaysReady()
    {
      hide Inv, Ready, Valid, Content, LocatorFits, Trace.Blamed, Trace.At;
      ghost var seen := Told();
      var resolving := Await();
      SawStays(seen, job, revision, source);
      if resolving.Err? {
        FailedIsBlamed(job, resolving.error);
        return Err(resolving.error);
      }
      var dimensions := resolving.value.dimensions;
      if !LocatorFits(revision, source) {
        UnfitIsBlamed(job, revision, source);
        return Err(Failure("LOCATOR_FORMAT_MISMATCH", false));
      }
      r := Digest(job, revision, source, maxUnits, dimensions);
    }

    /** The part of it that needs the text. */
    method Digest(job: Job, revision: Revision, source: Source, maxUnits: nat, dimensions: nat)
      returns (r: Result<Payload, Failure>)
      requires Valid() && Saw(job, revision, source)
      requires mark + 2 < |log| && dimensions == env(|log| - 1).dimensions
      modifies this`calls, this`log, this`acquiredAt, store
      ensures OnlyReads() && Saw(job, revision, source)
      ensures r.Ok? ==> Prepared(r.value) && old(|log|) == acquiredAt < |log|
                        && r.value.content == Content(env(acquiredAt).text, maxUnits)
      ensures r.Err? ==> Blamed(job, r.error) && (r.error.retryable ==> LastFailed(r.error))
      ensures Restless() && dimensions == env(0).dimensions ==> r.Ok? && StaysReady()
    {
      hide Inv, Ready, Valid, Content, Trace.Blamed, Trace.At;
      ghost var seen := Told();
      var acquired := Acquire();
      SawStays(seen, job, revision, source);
      if acquired.Err? {
        FailedIsBlamed(job, acquired.error);
        return Err(acquired.error);
      }
      var content := Cut(acquired.value, maxUnits);
      var units := Chunking.ContentUnits(content);
      var chunks := Chunking.ChunkText(content);
      var embedded := Embed(chunks, dimensions);
      SawStays(seen, job, revision, source);
      if embedded.Err? {
        if LastFailed(embedded.error) { FailedIsBlamed(job, embedded.error); }
        else { BadVectorIsBlamed(job); }
        return Err(embedded.error);
      }
      return Ok(Payload(content, units, chunks, embedded.value, dimensions));
    }

    lemma SawStays(t: Trace, job: Job, revision: Revision, source: Source)
      requires t.env == env && t.start == start && t.log <= log && t.Saw(mark, job, revision, source)
      ensures Saw(job, revision, source)
    {
      hide Trace.At;
      PastIsFixed(t, Told());
    }

    lemma FailedIsBlamed(job: Job, failure: Failure)
      requires LastFailed(failure) && |log| > mark + 2
      ensures Blamed(job, failure)
    {
      hide Trace.Saw;
      var k: nat := |log| - 1;
      assert mark + 1 < k < |log| && env(k).failure == Some(failure);
    }

    lemma UnfitIsBlamed(job: Job, revision: Revision, source: Source)
      requires Saw(job, revision, source) && !LocatorFits(revision, source) && |log| > mark + 1
      ensures Blamed(job, Failure("LOCATOR_FORMAT_MISMATCH", false))
    {
      hide Trace.Saw;
    }

    lemma BadVectorIsBlamed(job: Job)
      requires mark + 1 < acquiredAt < |log| - 1
      requires !ValidVector(env(|log| - 1).vector, env(acquiredAt - 1).dimensions)
      ensures Blamed(job, Failure("EMBEDDING_VECTOR_INVALID", false))
    {
      hide Trace.Saw, ValidVector;
      var k: nat := |log| - 1;
      assert acquiredAt < k < |log| && !ValidVector(env(k).vector, env(acquiredAt - 1).dimensions);
    }

    /** Gives a failed preparation up for good, unless it may be retried: then the error is thrown on. */
    method GiveUp(job: Job, failure: Failure) returns (r: Result<Outcome, Failure>)
      requires Valid() && OnlyClaims(job) && Blamed(job, failure) && (failure.retryable ==> LastFailed(failure))
      modifies this`calls, this`log, store
      ensures Extends() && OwnStepsOf(job) && (r.Err? ==> OnlyClaims(job) && LastFailed(r.error))
      ensures r.Ok? ==> r.value == FailedForGood && Means(job, FailedForGood)
    {
      hide Inv, Apply, After, Hits, Owned, Trace.Blamed, Trace.Steps, Trace.Fair, Trace.At, Trace.Before;
      if failure.retryable { return Err(failure); }
      ghost var now, blamed := calls, Told();
      var _ :- Write(Fail(job, failure.code));
      BlameGrows(blamed, Told(), mark, acquiredAt, job, failure);
      FailCloses(Told().Before(now), job, failure.code);
      return Ok(FailedForGood);
    }

    /** Puts the revision back for later. */
    method PutBack(job: Job, outcome: Outcome) returns (r: Result<Outcome, Failure>)
      requires Valid() && OnlyClaims(job)
      modifies this`calls, this`log, store
      ensures Extends() && log == old(log) + [Writes(Reset(job))]
      ensures OwnStepsOf(job) && (r.Err? ==> OnlyClaims(job) && LastFailed(r.error))
      ensures r.Ok? ==> r.value == outcome && PutAside(job)
    {
      hide Inv, Apply, After, Hits, Owned, Trace.Steps, Trace.Fair, Trace.At, Trace.Before;
      ghost var now := calls;
      var _ :- Write(Reset(job));
      ResetReopens(Told().Before(now), job);
      return Ok(outcome);
    }

    ghost predicate NothingWritten()
      reads this
    {
      forall k :: mark <= k < |log| ==> log[k].Reads?
    }

    /** The pending revision becomes this worker's. */
    method ClaimRow(job: Job) returns (r: Result<bool, Failure>)
      requires Valid()
      modifies this`calls, this`log, store
      ensures Extends() && log == old(log) + [Writes(Claim(job))]
      ensures if r.Ok? then Wrote(Claim(job)) && r.value == Told().Hit(old(calls))
              else LastFailed(r.error) && !Told().Made(old(calls))
      ensures Restless() && Ready(old(store.View()), job, PENDING) ==>
                r == Ok(true) && Ready(store.View(), job, PROCESSING)
    {
      hide Inv, Apply, After, Hits, Ready, Trace.Steps, Trace.Fair, Trace.At, Trace.Before, LocatorFits, Owned;
      ghost var before, now := store.View(), calls;
      r := Write(Claim(job));
      if Restless() && Ready(before, job, PENDING) {
        assert env(now).others == [Touch(0, now)];
        TouchKeepsReady(before, now, job, PENDING);
        ClaimMakesReady(Told().Before(now), job);
      }
    }

    /** Takes the revision: a pending one, or again one already being processed when first seen. */
    method TakeClaim(job: Job, seen: Status) returns (r: Result<bool, Failure>)
      requires Valid() && NothingWritten()
      modifies this`calls, this`log, store
      ensures Extends() && OnlyClaims(job) && (r.Err? ==> LastFailed(r.error)) && |log| > old(|log|)
      ensures r == Ok(false) ==> ClaimMissed(job)
      ensures Restless() && Ready(old(store.View()), job, PENDING) ==>
                r == Ok(true) && Ready(store.View(), job, PROCESSING)
    {
      hide Inv, Apply, After, Hits, Ready, Restless, Trace.Steps, Trace.Fair, Trace.At, Trace.Before, Trace.Hit;
      WritingNothingHitsNothing();
      ghost var start := Told();
      var claimed :- ClaimRow(job);
      ghost var first := Told();
      PastIsFixed(start, first);
      if !claimed && seen == PROCESSING {
        claimed :- Write(Reclaim(job));
        PastIsFixed(first, Told());
      }
      return Ok(claimed);
    }

    lemma WritingNothingHitsNothing()
      requires NothingWritten()
      ensures NothingHit()
    {}

    /** The compare-and-set. */
    method PromoteRow(step: Step, ghost text: string, ghost maxUnits: nat) returns (r: Result<bool, Failure>)
      requires Valid() && step.Promote? && Prepared(step.payload) && step.payload.content == Content(text, maxUnits)
      modifies this`calls, this`log, store
      ensures Extends() && log == old(log) + [Writes(step)]
      ensures Told().At(old(calls)) == old(store.View())
      ensures if r.Ok? then Wrote(step) && r.value == Told().Hit(old(calls))
              else LastFailed(r.error) && !Told().Made(old(calls))
      ensures r == Ok(false) ==>
                Owned(store.View(), step.job) && store.revisions[step.job.revision].status == PROCESSING
                && store.revisions[step.job.revision].source == step.src ==>
                  store.sources[step.src].updatedAt != step.seenAt
      ensures r == Ok(true) ==> Stored(store.View(), step.job, text, maxUnits)
      ensures old(OnlyClaims(step.job)) ==> OwnStepsOf(step.job) && (r.Err? ==> OnlyClaims(step.job))
      ensures Restless() && Ready(old(store.View()), step.job, PROCESSING) && step.src == 0
              && step.seenAt != old(calls) ==>
                r == Ok(false) && Ready(store.View(), step.job, PROCESSING)
    {
      hide Inv, Apply, After, Hits, Ready, Stored, Prepared, Content, Trace.Steps, Trace.Fair, Trace.At, Trace.Before,
           LocatorFits;
      ghost var before, now := store.View(), calls;
      r := Write(step);
      if Restless() && Ready(before, step.job, PROCESSING) && step.src == 0 && step.seenAt != now {
        assert env(now).others == [Touch(0, now)];
        TouchKeepsReady(before, now, step.job, PROCESSING);
        ReadyHasSource(Told().Before(now), step.job);
        TouchedIsMissed(Told().Before(now), step);
      }
      if r == Ok(false) { MissedPromotion(Told().Before(now), step); }
      if r == Ok(true) { PromotionStores(Told().Before(now), step, text, maxUnits); }
    }

    lemma GoneIsOvertaken(job: Job, src: nat)
      requires job.revision < |store.revisions| && store.revisions[job.revision].source == src
      requires src >= |store.sources| || store.sources[src].shopId != job.shopId
               || store.sources[src].generation != job.generation
      ensures Overtaken(job)
    {
      hide Trace.Steps, Trace.Fair, Trace.At, Trace.Before, Trace.Hit;
    }

    lemma MissedIsOvertaken(step: Step)
      requires step.Promote? && Wrote(step) && !Told().Hit(|log| - 1)
      requires step.src < |Told().At(|log| - 1).sources|
      requires step.seenAt == Told().At(|log| - 1).sources[step.src].updatedAt
      requires step.job.revision < |store.revisions| && store.revisions[step.job.revision].source == step.src
      requires |log| - 1 > mark
      requires Owned(store.View(), step.job) && store.revisions[step.job.revision].status == PROCESSING ==>
                 store.sources[step.src].updatedAt != step.seenAt
      ensures Overtaken(step.job)
    {
      hide Trace.Steps, Trace.Fair, Trace.At, Trace.Before, Trace.Hit;
    }

    lemma ClaimsAreOwnSteps(job: Job)
      requires OnlyClaims(job)
      ensures OwnStepsOf(job)
    {}

    /** The first part of a promotion: when the source row was last written, if it still serves the job. */
    method ReadSource(job: Job, src: nat) returns (r: Result<Option<int>, Failure>)
      requires Valid() && SeenSource(job, src)
      modifies this`calls, this`log, store
      ensures OnlyReads() && log == old(log) + [Reads] && SeenSource(job, src)
      ensures old(OnlyClaims(job)) ==> OnlyClaims(job)
      ensures r.Err? ==> LastFailed(r.error)
      ensures r == Ok(None) ==> Overtaken(job)
      ensures r.Ok? && r.value.Some? ==> src < |store.sources| && r.value.value == store.sources[src].updatedAt
      ensures Restless() && Ready(old(store.View()), job, PROCESSING) && src == 0 ==>
                r == Ok(Some(old(calls))) && Ready(store.View(), job, PROCESSING)
    {
      hide Inv, Apply, After, Restless, LocatorFits, Overtaken, Trace.Steps, Trace.Fair, Trace.At, Trace.Before;
      ghost var seen := Told();
      var _ :- Await();
      SourceStays(seen, Told(), mark + 1, job.revision);
      if src >= |store.sources| || store.sources[src].shopId != job.shopId
         || store.sources[src].generation != job.generation {
        GoneIsOvertaken(job, src);
        return Ok(None);
      }
      return Ok(Some(store.sources[src].updatedAt));
    }

    /** The two-part promotion: read the source, wait, then compare and set. */
    method PromoteRevision(job: Job, src: nat, p: Payload, ghost maxUnits: nat) returns (r: Result<Outcome, Failure>)
      requires Valid() && OnlyClaims(job) && SeenSource(job, src)
      requires Prepared(p) && mark + 1 < acquiredAt < |log| - 1 && log[acquiredAt].Reads?
      requires p.content == Content(env(acquiredAt).text, maxUnits)
      requires LimitAt(mark + 1) == LimitAt(|log| - 1) == Some(maxUnits)
      modifies this`calls, this`log, store
      ensures Extends() && OwnStepsOf(job) && (r.Err? ==> OnlyClaims(job) && LastFailed(r.error))
      ensures r == Ok(BecameActive) ==> Searchable(job)
      ensures r == Ok(StaleNoop) ==> Overtaken(job)
      ensures r.Ok? ==> r.value in {BecameActive, StaleNoop}
      ensures Restless() && Ready(old(store.View()), job, PROCESSING) && src == 0 ==>
                r == Ok(StaleNoop) && Ready(store.View(), job, PROCESSING)
    {
      hide Inv, Apply, After, Restless, Hits, Stored, Prepared, Content, Overtaken, Owned, Ready, OnlyClaims,
           OwnStepsOf, Trace.Steps, Trace.Fair, Trace.At, Trace.Before, Trace.Hit;
      var read := ReadSource(job, src);
      ClaimsAreOwnSteps(job);
      var seenAt :- read;
      if seenAt.None? { return Ok(StaleNoop); }
      ghost var seen := Told();
      var step := Promote(job, src, seenAt.value, p);
      var promoted :- PromoteRow(step, env(acquiredAt).text, maxUnits);
      if promoted { return Ok(BecameActive); }
      SourceStays(seen, Told(), mark + 1, job.revision);
      MissedIsOvertaken(step);
      return Ok(StaleNoop);
    }

    lemma SeenStays(t: Trace, job: Job, src: nat)
      requires t.env == env && t.start == start && t.log <= log && mark < |t.log|
      requires job.revision < |t.At(mark + 1).revisions| && t.At(mark + 1).revisions[job.revision].source == src
      ensures SeenSource(job, src)
    {
      hide Trace.At;
      PastIsFixed(t, Told());
    }

    /** The job's revision and its source, unless there is nothing to do. */
    method ReadRevision(job: Job) returns (r: Result<Found, Failure>)
      requires Valid() && mark == |log|
      modifies this`calls, this`log, store
      ensures OnlyReads() && log == old(log) + [Reads]
      ensures r.Err? ==> LastFailed(r.error)
      ensures r.Ok? && r.value.Nothing? ==> Means(job, r.value.outcome)
      ensures r.Ok? && r.value.Found? ==> Saw(job, r.value.revision, r.value.source)
      ensures Restless() && Ready(old(store.View()), job, PENDING) ==>
                r.Ok? && r.value.Found? && r.value.revision.source == 0
                && LocatorFits(r.value.revision, r.value.source) && Ready(store.View(), job, PENDING)
    {
      hide Apply, After, Restless, LocatorFits, Indexed, Distinct, OneActive, ActiveIsIndexed, Overtaken, Searchable,
           ClaimMissed, Trace.Steps, Trace.Fair, Trace.At, Trace.Before;
      var _ :- Await();
      if job.revision >= |store.revisions| { return Ok(Nothing(RevisionNotFound)); }
      var revision := store.revisions[job.revision];
      var source := store.sources[revision.source];
      if source.shopId != job.shopId || revision.generation != job.generation
         || revision.generation != source.generation {
        return Ok(Nothing(StaleJob));
      }
      if revision.status == ACTIVE || revision.status == SUPERSEDED || revision.status == FAILED {
        return Ok(Nothing(TerminalNoop));
      }
      return Ok(Found.Found(revision, source));
    }

    twostate lemma ReadsKeepClaims(job: Job)
      requires OnlyReads() && old(OnlyClaims(job))
      ensures OnlyClaims(job) && OwnStepsOf(job)
    {}

    lemma PutAsideMeans(job: Job, outcome: Outcome)
      requires PutAside(job) && |log| > mark + 2
      requires (outcome == Dormant && |log| == mark + 3 && LimitAt(mark + 1).None?)
               || (outcome == EligibilityChanged && |log| > mark + 3 && LimitAt(|log| - 2) != LimitAt(mark + 1))
      ensures Means(job, outcome)
    {
      hide Owned;
    }

    lemma PromotedMeans(job: Job, outcome: Outcome)
      requires |log| > mark
      requires (outcome == BecameActive && Searchable(job)) || (outcome == StaleNoop && Overtaken(job))
      ensures Means(job, outcome)
    {
      hide Searchable, Overtaken;
    }

    /** The eligibility is asked again before the promotion. */
    method Conclude(job: Job, src: nat, p: Payload, maxUnits: nat) returns (r: Result<Outcome, Failure>)
      requires Valid() && OnlyClaims(job) && SeenSource(job, src)
      requires Prepared(p) && mark + 1 < acquiredAt < |log| && log[acquiredAt].Reads?
      requires p.content == Content(env(acquiredAt).text, maxUnits)
      requires LimitAt(mark + 1) == Some(maxUnits) && |log| > mark + 2
      modifies this`calls, this`log, store
      ensures Extends() && OwnStepsOf(job) && (r.Err? ==> OnlyClaims(job) && LastFailed(r.error))
      ensures r.Ok? ==> Means(job, r.value)
      ensures Restless() && Ready(old(store.View()), job, PROCESSING) && src == 0 ==>
                r == Ok(StaleNoop) && Ready(store.View(), job, PROCESSING)
    {
      hide Inv, Apply, After, Means, Overtaken, Searchable, PutAside, Owned, Ready, Prepared, Content, OwnStepsOf,
           OnlyClaims, Trace.Steps, Trace.Fair, Trace.At, Trace.Before;
      ghost var seen := Told();
      var asked := Await();
      ReadsKeepClaims(job);
      var current :- asked;
      if !current.eligibility.eligible || current.eligibility.maxUnits != Some(maxUnits) {
        r := PutBack(job, EligibilityChanged);
        if r.Ok? { PutAsideMeans(job, EligibilityChanged); }
        return r;
      }
      SeenStays(seen, job, src);
      r := PromoteRevision(job, src, p, maxUnits);
      if r.Ok? { PromotedMeans(job, r.value); }
    }

    /** What follows a successful claim. */
    method ProcessClaimed(job: Job, revision: Revision, source: Source, maxUnits: nat)
      returns (r: Result<Outcome, Failure>)
      requires Valid() && OnlyClaims(job) && Saw(job, revision, source)
      requires LimitAt(mark + 1) == Some(maxUnits) && |log| > mark + 2
      modifies this`calls, this`log, this`acquiredAt, store
      ensures Extends() && OwnStepsOf(job) && (r.Err? ==> OnlyClaims(job) && LastFailed(r.error))
      ensures r.Ok? ==> Means(job, r.value)
      ensures Restless() && Ready(old(store.View()), job, PROCESSING) && revision.source == 0
              && LocatorFits(revision, source) ==>
                r == Ok(StaleNoop) && Ready(store.View(), job, PROCESSING)
    {
      hide Inv, Apply, After, LocatorFits, Owned, Ready, Trace.Blamed, Prepared, Content, Means, OwnStepsOf, OnlyClaims,
           Restless, Trace.Steps, Trace.Fair, Trace.At, Trace.Before;
      var prepared := Prepare(job, revision, source, maxUnits);
      ReadsKeepClaims(job);
      if prepared.Err? {
        r := GiveUp(job, prepared.error);
        return r;
      }
      r := Conclude(job, revision.source, prepared.value, maxUnits);
    }

    lemma NothingWrittenYet(job: Job)
      requires mark == |log|
      ensures OnlyClaims(job) && OwnStepsOf(job) && NothingWritten()
    {}

    lemma ClaimLostMeans(job: Job)
      requires ClaimMissed(job)
      ensures Means(job, ClaimLost)
    {
      hide NothingHit;
    }

    lemma UnsupportedIsBlamed(job: Job)
      requires mark + 1 < |log| && !env(mark + 1).eligibility.globallySupported
      ensures Blamed(job, Failure("SOURCE_TYPE_UNSUPPORTED", false))
    {}

    /** What follows the reading of an unfinished revision: is its source eligible, and is it free? */
    method ProcessFound(job: Job, revision: Revision, source: Source) returns (r: Result<Outcome, Failure>)
      requires Valid() && |log| == mark + 1 && log[mark].Reads? && OnlyClaims(job) && Saw(job, revision, source)
      modifies this`calls, this`log, this`acquiredAt, store
      ensures Extends() && OwnStepsOf(job) && (r.Err? ==> OnlyClaims(job) && LastFailed(r.error))
      ensures r.Ok? ==> Means(job, r.value)
      ensures Restless() && Ready(old(store.View()), job, PENDING) && revision.source == 0
              && LocatorFits(revision, source) ==>
                r == Ok(StaleNoop) && Ready(store.View(), job, PROCESSING)
    {
      hide Inv, Apply, After, LocatorFits, Owned, Ready, Trace.Blamed, Means, PutAside, ClaimMissed, OwnStepsOf,
           OnlyClaims, Trace.Steps, Trace.Fair, Trace.At, Trace.Before;
      ghost var seen := Told();
      var asked := Await();
      ReadsKeepClaims(job);
      var initial :- asked;
      if !initial.eligibility.globallySupported {
        UnsupportedIsBlamed(job);
        r := GiveUp(job, Failure("SOURCE_TYPE_UNSUPPORTED", false));
        return r;
      }
      if !initial.eligibility.eligible || initial.eligibility.maxUnits.None? {
        r := PutBack(job, Dormant);
        if r.Ok? { PutAsideMeans(job, Dormant); }
        return r;
      }
      var claimed := TakeClaim(job, revision.status);
      ClaimsAreOwnSteps(job);
      if claimed == Ok(false) {
        ClaimLostMeans(job);
        return Ok(ClaimLost);
      }
      var _ :- claimed;
      SawStays(seen, job, revision, source);
      r := ProcessClaimed(job, revision, source, initial.eligibility.maxUnits.value);
    }

    method Attempt(job: Job) returns (r: Result<Outcome, Failure>)
      requires Valid() && mark == |log|
      modifies this`calls, this`log, this`acquiredAt, store
      ensures Extends() && OwnStepsOf(job) && (r.Err? ==> OnlyClaims(job) && LastFailed(r.error))
      ensures r.Ok? ==> Means(job, r.value)
      ensures Restless() && Ready(old(store.View()), job, PENDING) ==>
                r == Ok(StaleNoop) && Ready(store.View(), job, PROCESSING)
    {
      hide Inv, Apply, After, LocatorFits, Owned, Ready, Trace.Blamed, Means, PutAside, ClaimMissed, OwnStepsOf,
           OnlyClaims, Restless, Trace.Steps, Trace.Fair, Trace.At, Trace.Before;
      NothingWrittenYet(job);
      var read := ReadRevision(job);
      ReadsKeepClaims(job);
      var found :- read;
      if found.Nothing? { return Ok(found.outcome); }
      r := ProcessFound(job, found.revision, found.source);
    }

    /** Whatever the others do meanwhile, the tables are at every moment what the recorded calls made of
        them: the others' steps and the worker's own writes, which all carry its job and are claims but for
        the last.  A thrown error is that of the last call and has left at most a claim, and every outcome
        means what it says. */
    method ProcessJob(job: Job) returns (r: Result<Outcome, Failure>)
      requires Valid()
      modifies this, store
      ensures Valid() && Inv(store.View()) && old(log) <= log && mark == old(|log|)
      ensures OwnStepsOf(job)
      ensures r.Err? ==> OnlyClaims(job) && LastFailed(r.error)
      ensures r.Ok? ==> Means(job, r.value)
      ensures Restless() && Ready(old(store.View()), job, PENDING) ==>
                r == Ok(StaleNoop) && Ready(store.View(), job, PROCESSING)
    {
      hide Inv, Ready, OwnStepsOf, OnlyClaims, Means, Restless, Trace.At;
      mark := |log|;
      r := Attempt(job);
      TraceKeepsInv(Told());
    }
  }

  /** A run that ends in `StaleNoop` with its revision left processing, although every call returned and the
      job still owns the revision: the source row is written between its reading and the
      compare-and-set. */
  method StrandARevision() returns (worker: Worker, job: Job, r: Result<Outcome, Failure>)
    ensures r == Ok(StaleNoop) && Owned(worker.store.View(), job)
    ensures worker.store.revisions[job.revision].status == PROCESSING
    ensures forall k :: worker.env(k).failure.None?
  {
    var source := Source(7, 1, 0, WEB_PAGE, REMOTE_URL);
    var revision := Revision(0, 1, PENDING, Some("https://shop.example"), None, None, None, None, []);
    var store := new KnowledgeStore(State([source], [revision]));
    var env := (k: nat) =>
      Answer([Touch(0, k)], None, Eligibility(true, true, Some(10)), "Open daily.", [], 0);
    assert forall i :: AllHonest(env(i).others);
    worker := new Worker(env, store);
    job := Job(7, 0, 1);
    assert Ready(store.View(), job, PENDING);
    assert worker.Restless();
    r := worker.ProcessJob(job);
  }
}
