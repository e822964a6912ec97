/** Merchant-knowledge revisions: what the processing worker, the entitlement reconciliation and the
    merchant's own requests do to one database, in any order.

    A statement or transaction is one atomic step.  A promotion is split in two, because it reads the
    source first and relies on a compare-and-set for the rest. */
module KnowledgeRevisions {
  import opened Common
  import Chunking

  datatype InputKind = REMOTE_URL | UPLOAD | OTHER_KIND

  datatype Format = WEB_PAGE | CSV | XLSX | OTHER_FORMAT

  datatype Source = Source(shopId: nat, generation: nat, updatedAt: int, format: Format, kind: InputKind)

  datatype Status = PENDING | PROCESSING | ACTIVE | SUPERSEDED | FAILED

  /** A component that is not a finite number is None. */
  type Vector = seq<Option<real>>

  datatype ChunkRow = ChunkRow(chunk: Chunking.Chunk, embedding: Vector)

  /** A revision with the chunk rows that refer to it, in insertion order. */
  datatype Revision = Revision(
    source: nat, generation: nat, status: Status, requestedUrl: Option<string>, uploadedAsset: Option<string>,
    content: Option<string>, contentUnits: Option<nat>, failureCode: Option<string>, rows: seq<ChunkRow>)

  datatype State = State(sources: seq<Source>, revisions: seq<Revision>)

  datatype Job = Job(shopId: nat, revision: nat, generation: nat)

  datatype Payload = Payload(
    content: string, contentUnits: nat, chunks: seq<Chunking.Chunk>, vectors: seq<Vector>, dimensions: nat)

  datatype Step =
    | AddSource(source: Source, url: Option<string>, asset: Option<string>)
    | Request(src: nat, at: int, url: Option<string>, asset: Option<string>)
    | Touch(src: nat, at: int)
    | Claim(job: Job)
    | Reclaim(job: Job)
    | Reset(job: Job)
    | Fail(job: Job, code: string)
    | Exhaust(job: Job)
    | Promote(job: Job, src: nat, seenAt: int, payload: Payload)
    | Replace(src: nat, maxUnits: Option<nat>, at: int)

  // ---------------------------------------------------------------- steps

  /** The fence of every guarded update of a job. */
  predicate Owned(s: State, job: Job) {
    && job.revision < |s.revisions|
    && s.revisions[job.revision].generation == job.generation
    && s.revisions[job.revision].source < |s.sources|
    && s.sources[s.revisions[job.revision].source].shopId == job.shopId
    && s.sources[s.revisions[job.revision].source].generation == job.generation
  }

  predicate Open(status: Status) { status == PENDING || status == PROCESSING }

  function Put(s: State, i: nat, r: Revision): State
    requires i < |s.revisions|
  {
    s.(revisions := s.revisions[i := r])
  }

  /** The revision of a job, changed to `r` if the job owns it and its status is as asked. */
  function Guarded(s: State, job: Job, from: set<Status>, r: Revision -> Revision): State {
    if Owned(s, job) && s.revisions[job.revision].status in from
    then Put(s, job.revision, r(s.revisions[job.revision]))
    else s
  }

  function FindActive(revisions: seq<Revision>, src: nat): (r: Option<nat>)
    ensures r.Some? ==> r.value < |revisions| && revisions[r.value].source == src && revisions[r.value].status == ACTIVE
    ensures r.None? ==> forall i :: 0 <= i < |revisions| && revisions[i].source == src ==> revisions[i].status != ACTIVE
  {
    if revisions == [] then None
    else
      var last := |revisions| - 1;
      if revisions[last].source == src && revisions[last].status == ACTIVE then Some(last)
      else FindActive(revisions[..last], src)
  }

  predicate ValidVector(v: Vector, dimensions: nat) {
    |v| == dimensions && forall k :: 0 <= k < |v| ==> v[k].Some?
  }

  predicate Insertable(p: Payload, n: nat) {
    forall k :: 0 <= k < n && k < |p.vectors| ==> ValidVector(p.vectors[k], p.dimensions)
  }

  function Least(a: nat, b: nat): nat { if a < b then a else b }

  /** The rows inserted for the first `n` chunks: a chunk without a vector is skipped. */
  function RowsFor(p: Payload, n: nat): seq<ChunkRow>
    requires n <= |p.chunks|
  {
    seq(Least(n, |p.vectors|), k requires 0 <= k < Least(n, |p.vectors|) => ChunkRow(p.chunks[k], p.vectors[k]))
  }

  predicate MayPromote(s: State, job: Job, src: nat, seenAt: int) {
    && src < |s.sources|
    && s.sources[src].shopId == job.shopId && s.sources[src].generation == job.generation
    && s.sources[src].updatedAt == seenAt
    && job.revision < |s.revisions|
    && s.revisions[job.revision].source == src
    && s.revisions[job.revision].generation == job.generation
    && s.revisions[job.revision].status == PROCESSING
  }

  function Retire(s: State, src: nat): State {
    var predecessor := FindActive(s.revisions, src);
    if predecessor.None? then s
    else Put(s, predecessor.value, s.revisions[predecessor.value].(status := SUPERSEDED, rows := []))
  }

  function Activated(r: Revision, p: Payload): Revision {
    r.(status := ACTIVE, content := Some(p.content), contentUnits := Some(p.contentUnits),
       failureCode := None, rows := RowsFor(p, |p.chunks|))
  }

  predicate HasNewerWork(s: State, src: nat, generation: nat) {
    exists i :: 0 <= i < |s.revisions| && s.revisions[i].source == src
                && s.revisions[i].generation > generation && Open(s.revisions[i].status)
  }

  /** The active revision exceeds the limit and nothing newer exists. */
  predicate NeedsReplacement(s: State, src: nat, maxUnits: Option<nat>) {
    && src < |s.sources| && maxUnits.Some?
    && var active := FindActive(s.revisions, src);
    && active.Some?
    && var r := s.revisions[active.value];
    && r.contentUnits.Some? && r.contentUnits.value > maxUnits.value
    && !HasNewerWork(s, src, r.generation)
    && s.sources[src].generation == r.generation
    && s.sources[src].format != OTHER_FORMAT
  }

  /** Opens the next generation of a source. */
  function Advance(s: State, src: nat, at: int, url: Option<string>, asset: Option<string>): State
    requires src < |s.sources|
  {
    var next := s.sources[src].generation + 1;
    State(s.sources[src := s.sources[src].(generation := next, updatedAt := at)],
          s.revisions + [Revision(src, next, PENDING, url, asset, None, None, None, [])])
  }

  function Replacement(s: State, src: nat, at: int): State
    requires src < |s.sources| && FindActive(s.revisions, src).Some?
  {
    var r := s.revisions[FindActive(s.revisions, src).value];
    if s.sources[src].format == WEB_PAGE then Advance(s, src, at, r.requestedUrl, None)
    else Advance(s, src, at, None, r.uploadedAsset)
  }

  function Apply(s: State, step: Step): State {
    match step
    case AddSource(source, url, asset) =>
      State(s.sources + [source],
            s.revisions + [Revision(|s.sources|, source.generation, PENDING, url, asset, None, None, None, [])])
    case Request(src, at, url, asset) => if src < |s.sources| then Advance(s, src, at, url, asset) else s
    case Touch(src, at) =>
      if src < |s.sources| then s.(sources := s.sources[src := s.sources[src].(updatedAt := at)]) else s
    case Claim(job) =>
      Guarded(s, job, {PENDING}, (r: Revision) => r.(status := PROCESSING, failureCode := None))
    case Reclaim(job) =>
      Guarded(s, job, {PROCESSING}, (r: Revision) => r.(failureCode := None))
    case Reset(job) =>
      Guarded(s, job, {PENDING, PROCESSING}, (r: Revision) => r.(status := PENDING, failureCode := None, rows := []))
    case Fail(job, code) =>
      Guarded(s, job, {PENDING, PROCESSING}, (r: Revision) => r.(status := FAILED, failureCode := Some(code)))
    case Exhaust(job) =>
      Guarded(s, job, {PROCESSING}, (r: Revision) => r.(status := FAILED, failureCode := Some("RETRIES_EXHAUSTED")))
    case Promote(job, src, seenAt, p) =>
      if MayPromote(s, job, src, seenAt) && Insertable(p, |p.chunks|)
      then Put(Retire(s, src), job.revision, Activated(s.revisions[job.revision], p))
      else s
    case Replace(src, maxUnits, at) =>
      if NeedsReplacement(s, src, maxUnits) then Replacement(s, src, at) else s
  }

  function After(s: State, steps: seq<Step>): State {
    if steps == [] then s else Apply(After(s, steps[..|steps| - 1]), steps[|steps| - 1])
  }

  // ---------------------------------------------------------------- invariant

  function ChunksOf(rows: seq<ChunkRow>): seq<Chunking.Chunk> {
    seq(|rows|, k requires 0 <= k < |rows| => rows[k].chunk)
  }

  /** What can be searched: the whole content, chunk by chunk, each with a usable vector. */
  ghost predicate Indexed(r: Revision) {
    && r.content.Some?
    && r.contentUnits == Some(Chunking.CeilDiv(|r.content.value|, 4))
    && Chunking.IsChunking(r.content.value, ChunksOf(r.rows))
    && forall k :: 0 <= k < |r.rows| ==> ValidVector(r.rows[k].embedding, |r.rows[0].embedding|)
  }

  predicate Placed(s: State) {
    forall i :: 0 <= i < |s.revisions| ==>
      s.revisions[i].source < |s.sources| && s.revisions[i].generation <= s.sources[s.revisions[i].source].generation
  }

  predicate Distinct(s: State) {
    forall i, j :: 0 <= i < j < |s.revisions| && s.revisions[i].source == s.revisions[j].source ==>
      s.revisions[i].generation != s.revisions[j].generation
  }

  predicate OneActive(s: State) {
    forall i, j :: 0 <= i < j < |s.revisions| && s.revisions[i].status == ACTIVE && s.revisions[j].status == ACTIVE ==>
      s.revisions[i].source != s.revisions[j].source
  }

  ghost predicate ActiveIsIndexed(s: State) {
    forall i :: 0 <= i < |s.revisions| ==>
      if s.revisions[i].status == ACTIVE then Indexed(s.revisions[i]) else s.revisions[i].rows == []
  }

  /** Generations are distinct and never run ahead of the source; at most one revision of a source is
      active; exactly the active ones have chunk rows, and those cover the whole content. */
  ghost predicate Inv(s: State) {
    Placed(s) && Distinct(s) && OneActive(s) && ActiveIsIndexed(s)
  }

  /** What a worker hands to a promotion. */
  ghost predicate Prepared(p: Payload) {
    && p.contentUnits == Chunking.CeilDiv(|p.content|, 4)
    && Chunking.IsChunking(p.content, p.chunks)
    && |p.vectors| == |p.chunks|
    && forall k :: 0 <= k < |p.vectors| ==> ValidVector(p.vectors[k], p.dimensions)
  }

  ghost predicate Honest(step: Step) { step.Promote? ==> Prepared(step.payload) }

  ghost predicate AllHonest(steps: seq<Step>) {
    forall k :: 0 <= k < |steps| ==> Honest(steps[k])
  }

  lemma RetireFacts(s: State, src: nat)
    requires OneActive(s)
    ensures var t := Retire(s, src);
            && t.sources == s.sources && |t.revisions| == |s.revisions|
            && forall i :: 0 <= i < |s.revisions| ==>
                 t.revisions[i] == if s.revisions[i].source == src && s.revisions[i].status == ACTIVE
                                   then s.revisions[i].(status := SUPERSEDED, rows := []) else s.revisions[i]
  {}

  lemma PreparedIsIndexed(r: Revision, p: Payload)
    requires Prepared(p)
    ensures Insertable(p, |p.chunks|) && Indexed(Activated(r, p))
  {
    assert ChunksOf(RowsFor(p, |p.chunks|)) == p.chunks;
  }

  lemma PromoteKeepsInv(s: State, step: Step)
    requires Inv(s) && step.Promote? && Honest(step)
    ensures Inv(Apply(s, step))
  {
    hide Indexed, Prepared;
    if MayPromote(s, step.job, step.src, step.seenAt) {
      PreparedIsIndexed(s.revisions[step.job.revision], step.payload);
      RetireFacts(s, step.src);
    }
  }

  lemma AdvanceKeepsInv(s: State, src: nat, at: int, url: Option<string>, asset: Option<string>)
    requires Inv(s) && src < |s.sources|
    ensures Inv(Advance(s, src, at, url, asset))
  {
    hide Indexed;
  }

  lemma PutKeepsInv(s: State, i: nat, r: Revision)
    requires Inv(s) && i < |s.revisions| && s.revisions[i].status != ACTIVE && r.status != ACTIVE
    requires r.source == s.revisions[i].source && r.generation == s.revisions[i].generation
    requires r.rows == [] || r.rows == s.revisions[i].rows
    ensures Inv(Put(s, i, r))
  {
    hide Indexed;
  }

  lemma SourceStepKeepsInv(s: State, step: Step)
    requires Inv(s) && (step.AddSource? || step.Request? || step.Touch? || step.Replace?)
    ensures Inv(Apply(s, step))
  {
    hide Indexed, FindActive, HasNewerWork;
    match step
    case AddSource(_, _, _) =>
    case Touch(_, _) =>
    case Request(src, at, url, asset) =>
      if src < |s.sources| { AdvanceKeepsInv(s, src, at, url, asset); }
    case Replace(src, maxUnits, at) =>
      if NeedsReplacement(s, src, maxUnits) {
        var r := s.revisions[FindActive(s.revisions, src).value];
        if s.sources[src].format == WEB_PAGE { AdvanceKeepsInv(s, src, at, r.requestedUrl, None); }
        else { AdvanceKeepsInv(s, src, at, None, r.uploadedAsset); }
      }
  }

  lemma StepKeepsInv(s: State, step: Step)
    requires Inv(s) && Honest(step)
    ensures Inv(Apply(s, step))
  {
    if step.Promote? {
      hide Inv, Prepared;
      PromoteKeepsInv(s, step);
    } else if step.AddSource? || step.Request? || step.Touch? || step.Replace? {
      hide Inv;
      SourceStepKeepsInv(s, step);
    } else {
      hide Inv;
      var job := step.job;
      var t := Apply(s, step);
      if t != s { PutKeepsInv(s, job.revision, t.revisions[job.revision]); }
    }
  }

  lemma {:induction false} RunKeepsInv(s: State, steps: seq<Step>)
    requires Inv(s) && AllHonest(steps)
    ensures Inv(After(s, steps))
  {
    if steps != [] {
      RunKeepsInv(s, steps[..|steps| - 1]);
      StepKeepsInv(After(s, steps[..|steps| - 1]), steps[|steps| - 1]);
    }
  }

  function JobOf(step: Step): Option<Job> {
    if step.Claim? || step.Reclaim? || step.Reset? || step.Fail? || step.Exhaust? || step.Promote?
    then Some(step.job) else None
  }

  // ---------------------------------------------------------------- runs

  /** Some active revision of the source is at least this new. */
  ghost predicate Serves(s: State, src: nat, generation: nat) {
    exists j :: 0 <= j < |s.revisions| && s.revisions[j].source == src
                && s.revisions[j].status == ACTIVE && s.revisions[j].generation >= generation
  }

  /** How one revision may have changed: its identity never does, a final one not at all, and an active
      one is untouched until a newer one takes its place. */
  predicate RevisionEvolves(a: Revision, b: Revision) {
    && a.source == b.source && a.generation == b.generation
    && a.requestedUrl == b.requestedUrl && a.uploadedAsset == b.uploadedAsset
    && (a.status in {SUPERSEDED, FAILED} ==> b == a)
    && (a.status == ACTIVE ==> b == a || b == a.(status := SUPERSEDED, rows := []))
  }

  /** What is searchable stays searchable: a source that serves a generation goes on serving that one
      or a newer one, and a superseded revision has been overtaken. */
  ghost predicate Evolves(s: State, t: State) {
    && |s.sources| <= |t.sources| && |s.revisions| <= |t.revisions|
    && (forall k :: 0 <= k < |s.sources| ==>
          t.sources[k].shopId == s.sources[k].shopId && t.sources[k].format == s.sources[k].format
          && t.sources[k].generation >= s.sources[k].generation)
    && (forall i :: 0 <= i < |s.revisions| ==> RevisionEvolves(s.revisions[i], t.revisions[i]))
    && (forall i :: 0 <= i < |s.revisions| && s.revisions[i].status == ACTIVE ==>
          Serves(t, s.revisions[i].source, s.revisions[i].generation))
  }

  lemma EvolvesTransitively(a: State, b: State, c: State)
    requires Evolves(a, b) && Evolves(b, c)
    ensures Evolves(a, c)
  {
    forall i | 0 <= i < |a.revisions|
      ensures RevisionEvolves(a.revisions[i], c.revisions[i])
    {
      assert RevisionEvolves(a.revisions[i], b.revisions[i]) && RevisionEvolves(b.revisions[i], c.revisions[i]);
    }
    forall i | 0 <= i < |a.revisions| && a.revisions[i].status == ACTIVE
      ensures Serves(c, a.revisions[i].source, a.revisions[i].generation)
    {
      var j :| 0 <= j < |b.revisions| && b.revisions[j].source == a.revisions[i].source
               && b.revisions[j].status == ACTIVE && b.revisions[j].generation >= a.revisions[i].generation;
      assert Serves(c, b.revisions[j].source, b.revisions[j].generation);
    }
  }

  /** A revision becomes active only by its own job's promotion, while its generation is the newest of
      its source; every other revision of the source is older, and the active one among them retires. */
  lemma ActivationIsFenced(s: State, step: Step, i: nat)
    requires Inv(s) && i < |s.revisions|
    requires s.revisions[i].status != ACTIVE && Apply(s, step).revisions[i].status == ACTIVE
    ensures step.Promote? && step.job.revision == i && s.revisions[i].status == PROCESSING
    ensures s.revisions[i].generation == step.job.generation == s.sources[s.revisions[i].source].generation
    ensures s.sources[s.revisions[i].source].shopId == step.job.shopId
    ensures forall j :: 0 <= j < |s.revisions| && j != i && s.revisions[j].source == s.revisions[i].source ==>
              s.revisions[j].generation < s.revisions[i].generation
              && Apply(s, step).revisions[j]
                 == if s.revisions[j].status == ACTIVE then s.revisions[j].(status := SUPERSEDED, rows := [])
                    else s.revisions[j]
  {
    hide Indexed, HasNewerWork;
    if step.Promote? { RetireFacts(s, step.src); }
  }

  /** A step that leaves active and final revisions alone, and appends at most. */
  lemma QuietStepEvolves(s: State, t: State)
    requires |s.sources| <= |t.sources| && |s.revisions| <= |t.revisions|
    requires forall k :: 0 <= k < |s.sources| ==>
               t.sources[k].shopId == s.sources[k].shopId && t.sources[k].format == s.sources[k].format
               && t.sources[k].generation >= s.sources[k].generation
    requires forall i :: 0 <= i < |s.revisions| ==>
               RevisionEvolves(s.revisions[i], t.revisions[i])
               && (s.revisions[i].status == ACTIVE ==> t.revisions[i] == s.revisions[i])
    ensures Evolves(s, t)
  {
    forall i | 0 <= i < |s.revisions| && s.revisions[i].status == ACTIVE
      ensures Serves(t, s.revisions[i].source, s.revisions[i].generation)
    {
      assert t.revisions[i] == s.revisions[i];
    }
  }

  lemma PromoteEvolves(s: State, step: Step)
    requires Inv(s) && step.Promote? && MayPromote(s, step.job, step.src, step.seenAt)
    ensures var j := step.job.revision;
            Evolves(s, Put(Retire(s, step.src), j, Activated(s.revisions[j], step.payload)))
  {
    hide Indexed, FindActive, Retire, RowsFor;
    var j := step.job.revision;
    RetireFacts(s, step.src);
    var t := Put(Retire(s, step.src), j, Activated(s.revisions[j], step.payload));
    forall i | 0 <= i < |s.revisions| && s.revisions[i].status == ACTIVE
      ensures Serves(t, s.revisions[i].source, s.revisions[i].generation)
    {
      if s.revisions[i].source == step.src {
        assert t.revisions[j].source == step.src && t.revisions[j].status == ACTIVE;
      } else {
        assert t.revisions[i] == s.revisions[i];
      }
    }
  }

  lemma JobStepEvolves(s: State, step: Step)
    requires JobOf(step).Some? && !step.Promote?
    ensures Evolves(s, Apply(s, step))
  {
    hide Evolves;
    QuietStepEvolves(s, Apply(s, step));
  }

  lemma StepEvolves(s: State, step: Step)
    requires Inv(s)
    ensures Evolves(s, Apply(s, step))
  {
    hide Indexed, HasNewerWork, FindActive, Retire, Evolves, Activated;
    if step.Promote? && Apply(s, step) != s {
      PromoteEvolves(s, step);
    } else if JobOf(step).Some? && !step.Promote? {
      hide Inv, Apply;
      JobStepEvolves(s, step);
    } else {
      hide Inv;
      QuietStepEvolves(s, Apply(s, step));
    }
  }

  lemma {:induction false} RunEvolves(s: State, steps: seq<Step>)
    requires Inv(s) && AllHonest(steps)
    ensures Evolves(s, After(s, steps))
  {
    if steps == [] {
      forall i | 0 <= i < |s.revisions| && s.revisions[i].status == ACTIVE
        ensures Serves(s, s.revisions[i].source, s.revisions[i].generation)
      {}
    } else {
      var before := steps[..|steps| - 1];
      RunKeepsInv(s, before);
      RunEvolves(s, before);
      StepEvolves(After(s, before), steps[|steps| - 1]);
      EvolvesTransitively(s, After(s, before), After(s, steps));
    }
  }

  /** The generation being served never falls: whatever is active later is at least as new, and is the
      very same revision, contents and rows included, when it is not newer. */
  lemma ActiveGenerationNeverFalls(s: State, steps: seq<Step>, i: nat, j: nat)
    requires Inv(s) && AllHonest(steps)
    requires i < |s.revisions| && s.revisions[i].status == ACTIVE
    requires j < |After(s, steps).revisions| && After(s, steps).revisions[j].status == ACTIVE
    requires After(s, steps).revisions[j].source == s.revisions[i].source
    ensures After(s, steps).revisions[j].generation >= s.revisions[i].generation
    ensures After(s, steps).revisions[j].generation == s.revisions[i].generation ==>
              i == j && After(s, steps).revisions[j] == s.revisions[i]
  {
    hide Indexed, After;
    var t := After(s, steps);
    RunKeepsInv(s, steps);
    RunEvolves(s, steps);
    assert Serves(t, s.revisions[i].source, s.revisions[i].generation);
    assert RevisionEvolves(s.revisions[i], t.revisions[i]);
  }

  // ---------------------------------------------------------------- stale jobs

  /** The job names another generation than its revision's, another shop, or a generation that the
      source has left behind. */
  predicate Stale(s: State, job: Job) {
    && job.revision < |s.revisions| && s.revisions[job.revision].source < |s.sources|
    && (|| s.revisions[job.revision].generation != job.generation
        || s.sources[s.revisions[job.revision].source].shopId != job.shopId
        || s.sources[s.revisions[job.revision].source].generation > job.generation)
  }

  /** Once stale, a job is stale for good, and nothing it does changes anything. */
  lemma StaleJobIsInert(s: State, steps: seq<Step>, step: Step)
    requires Inv(s) && AllHonest(steps)
    requires JobOf(step).Some? && Stale(s, JobOf(step).value)
    ensures Apply(After(s, steps), step) == After(s, steps)
  {
    hide Indexed, After, FindActive;
    RunEvolves(s, steps);
    var job := JobOf(step).value;
    assert RevisionEvolves(s.revisions[job.revision], After(s, steps).revisions[job.revision]);
  }

  // ---------------------------------------------------------------- replacements

  /** Under the invariant a replacement is made exactly when the newest generation of the source is
      active and over the limit: the search for newer unfinished work never decides. */
  lemma ReplacementIff(s: State, src: nat, maxUnits: nat)
    requires Inv(s) && src < |s.sources|
    ensures NeedsReplacement(s, src, Some(maxUnits)) <==>
              s.sources[src].format != OTHER_FORMAT
              && exists i :: 0 <= i < |s.revisions| && s.revisions[i].source == src && s.revisions[i].status == ACTIVE
                             && s.revisions[i].generation == s.sources[src].generation
                             && Chunking.CeilDiv(|s.revisions[i].content.value|, 4) > maxUnits
  {
    hide Chunking.IsChunking;
    var active := FindActive(s.revisions, src);
    if active.Some? { assert Indexed(s.revisions[active.value]); }
  }

  /** A replacement opens one new generation with the old locator, and touches nothing that is active;
      asking again at once, with any limit, does nothing. */
  lemma ReplacementIsIdempotent(s: State, src: nat, maxUnits: Option<nat>, at: int, again: Option<nat>, later: int)
    requires Inv(s) && NeedsReplacement(s, src, maxUnits)
    ensures var t := Apply(s, Replace(src, maxUnits, at));
            && t.revisions[..|s.revisions|] == s.revisions && |t.revisions| == |s.revisions| + 1
            && var r := t.revisions[|s.revisions|];
            && r.status == PENDING && r.generation == t.sources[src].generation == s.sources[src].generation + 1
            && var former := s.revisions[FindActive(s.revisions, src).value];
            && (s.sources[src].format == WEB_PAGE ==> r.requestedUrl == former.requestedUrl && r.uploadedAsset == None)
            && (s.sources[src].format in {CSV, XLSX} ==>
                  r.requestedUrl == None && r.uploadedAsset == former.uploadedAsset)
            && Apply(t, Replace(src, again, later)) == t
  {
    hide Indexed;
    var t := Apply(s, Replace(src, maxUnits, at));
    SourceStepKeepsInv(s, Replace(src, maxUnits, at));
    var active := FindActive(t.revisions, src);
    if active.Some? { assert t.revisions[active.value] == s.revisions[active.value]; }
  }

  /** Replacing converges: once a promotion within the limit went through, that limit and any larger
      one ask for no further replacement. */
  lemma PromotionSettlesReplacement(s: State, step: Step, maxUnits: nat, at: int)
    requires Inv(s) && step.Promote? && Prepared(step.payload)
    requires MayPromote(s, step.job, step.src, step.seenAt)
    requires step.payload.contentUnits <= maxUnits
    ensures Apply(Apply(s, step), Replace(step.src, Some(maxUnits), at)) == Apply(s, step)
  {
    hide Indexed, Prepared;
    PreparedIsIndexed(s.revisions[step.job.revision], step.payload);
    RetireFacts(s, step.src);
    var t := Apply(s, step);
    assert t.revisions[step.job.revision].status == ACTIVE;
    PromoteKeepsInv(s, step);
  }

  /** The newest generation of a source failed. */
  predicate Abandoned(s: State, src: nat, i: nat) {
    && src < |s.sources| && i < |s.revisions|
    && s.revisions[i].source == src && s.revisions[i].generation == s.sources[src].generation
    && s.revisions[i].status == FAILED
  }

  lemma AbandonedStep(s: State, step: Step, src: nat, i: nat)
    requires Inv(s) && Abandoned(s, src, i) && !(step.Request? && step.src == src)
    ensures Abandoned(Apply(s, step), src, i)
    ensures forall k :: 0 <= k < |s.revisions| && s.revisions[k].source == src && s.revisions[k].status == ACTIVE ==>
              Apply(s, step).revisions[k] == s.revisions[k]
    ensures forall k :: |s.revisions| <= k < |Apply(s, step).revisions| ==> Apply(s, step).revisions[k].source != src
  {
    hide Indexed, HasNewerWork, FindActive, Retire, Activated, OneActive, ActiveIsIndexed;
    if step.Promote? {
      RetireFacts(s, step.src);
    } else if JobOf(step).Some? {
      assert Apply(s, step).sources == s.sources;
    } else if step.Replace? && step.src == src {
      assert Apply(s, step) == s;
    }
  }

  /** After the newest generation failed, nothing but a new request of the merchant gets the source a
      newer revision: no limit change replaces the active one, and no job does. */
  lemma {:induction false} FailureBlocksReplacement(s: State, steps: seq<Step>, src: nat, i: nat)
    requires Inv(s) && AllHonest(steps) && Abandoned(s, src, i)
    requires forall k :: 0 <= k < |steps| ==> !(steps[k].Request? && steps[k].src == src)
    ensures Abandoned(After(s, steps), src, i)
    ensures forall k :: 0 <= k < |s.revisions| && s.revisions[k].source == src && s.revisions[k].status == ACTIVE ==>
              k < |After(s, steps).revisions| && After(s, steps).revisions[k] == s.revisions[k]
    ensures forall k :: |s.revisions| <= k < |After(s, steps).revisions| ==> After(s, steps).revisions[k].source != src
  {
    hide Inv, Apply, Abandoned;
    if steps != [] {
      var before := steps[..|steps| - 1];
      FailureBlocksReplacement(s, before, src, i);
      RunKeepsInv(s, before);
      RunEvolves(s, before);
      StepEvolves(After(s, before), steps[|steps| - 1]);
      AbandonedStep(After(s, before), steps[|steps| - 1], src, i);
    }
  }

  /** A job that still owns its unfinished revision promotes it exactly when the source row has not been
      written since it was read; otherwise the promotion silently changes nothing. */
  lemma PromotionMissesIff(s: State, job: Job, seenAt: int, p: Payload)
    requires Inv(s) && Owned(s, job) && s.revisions[job.revision].status == PROCESSING && Prepared(p)
    ensures var src := s.revisions[job.revision].source;
            var t := Apply(s, Promote(job, src, seenAt, p));
            if s.sources[src].updatedAt == seenAt
            then t.revisions[job.revision] == Activated(s.revisions[job.revision], p)
            else t == s
  {
    hide Indexed;
    PreparedIsIndexed(s.revisions[job.revision], p);
    RetireFacts(s, s.revisions[job.revision].source);
  }

  // ---------------------------------------------------------------- the tables

  class KnowledgeStore {
    var sources: seq<Source>
    var revisions: seq<Revision>

    constructor (s: State)
      ensures View() == s
    {
      sources, revisions := s.sources, s.revisions;
    }

    function View(): State
      reads this
    {
      State(sources, revisions)
    }

    method ClaimPending(job: Job) returns (count: nat)
      modifies this`revisions
      ensures View() == Apply(old(View()), Claim(job))
      ensures count == if Owned(old(View()), job) && old(revisions)[job.revision].status == PENDING then 1 else 0
    {
      if !Owned(View(), job) || revisions[job.revision].status != PENDING { return 0; }
      revisions := revisions[job.revision := revisions[job.revision].(status := PROCESSING, failureCode := None)];
      return 1;
    }

    method ClaimAgain(job: Job) returns (count: nat)
      modifies this`revisions
      ensures View() == Apply(old(View()), Reclaim(job))
      ensures count == if Owned(old(View()), job) && old(revisions)[job.revision].status == PROCESSING then 1 else 0
    {
      if !Owned(View(), job) || revisions[job.revision].status != PROCESSING { return 0; }
      revisions := revisions[job.revision := revisions[job.revision].(failureCode := None)];
      return 1;
    }

    method ResetPending(job: Job)
      modifies this`revisions
      ensures View() == Apply(old(View()), Reset(job))
    {
      if !Owned(View(), job) || !Open(revisions[job.revision].status) { return; }
      revisions := revisions[job.revision := revisions[job.revision].(status := PENDING, failureCode := None)];
      revisions := revisions[job.revision := revisions[job.revision].(rows := [])];
    }

    method MarkPermanentFailure(job: Job, code: string)
      modifies this`revisions
      ensures View() == Apply(old(View()), Fail(job, code))
    {
      if !Owned(View(), job) || !Open(revisions[job.revision].status) { return; }
      revisions := revisions[job.revision := revisions[job.revision].(status := FAILED, failureCode := Some(code))];
    }

    method MarkTerminalFailure(job: Job)
      modifies this`revisions
      ensures View() == Apply(old(View()), Exhaust(job))
    {
      if !Owned(View(), job) || revisions[job.revision].status != PROCESSING { return; }
      revisions := revisions[job.revision :=
        revisions[job.revision].(status := FAILED, failureCode := Some("RETRIES_EXHAUSTED"))];
    }

    method LocateActive(src: nat) returns (r: Option<nat>)
      ensures r == FindActive(revisions, src)
    {
      var i := |revisions|;
      assert revisions[..i] == revisions;
      while i > 0
        invariant 0 <= i <= |revisions|
        invariant FindActive(revisions, src) == FindActive(revisions[..i], src)
      {
        i := i - 1;
        assert revisions[..i + 1][..i] == revisions[..i];
        if revisions[i].source == src && revisions[i].status == ACTIVE { return Some(i); }
      }
      return None;
    }

    /** Inserts the chunk rows one by one, stopping at the first bad vector. */
    method InsertChunks(i: nat, p: Payload) returns (ok: bool)
      requires i < |revisions| && revisions[i].rows == []
      modifies this`revisions
      ensures ok == Insertable(p, |p.chunks|)
      ensures ok ==> revisions == old(revisions)[i := old(revisions)[i].(rows := RowsFor(p, |p.chunks|))]
    {
      var index := 0;
      assert RowsFor(p, 0) == [];
      while index < |p.chunks|
        invariant 0 <= index <= |p.chunks|
        invariant Insertable(p, index)
        invariant revisions == old(revisions)[i := old(revisions)[i].(rows := RowsFor(p, index))]
      {
        if index < |p.vectors| {
          if !ValidVector(p.vectors[index], p.dimensions) { return false; }
          var row := ChunkRow(p.chunks[index], p.vectors[index]);
          revisions := revisions[i := revisions[i].(rows := revisions[i].rows + [row])];
          assert RowsFor(p, index + 1) == RowsFor(p, index) + [row];
        } else {
          assert RowsFor(p, index + 1) == RowsFor(p, index);
        }
        index := index + 1;
      }
      return true;
    }

    /** The transaction after the source was read at `seenAt`.  A bad vector rolls everything back. */
    method PromoteRevision(job: Job, src: nat, seenAt: int, p: Payload) returns (r: Result<bool, string>)
      modifies this`revisions
      ensures View() == Apply(old(View()), Promote(job, src, seenAt, p))
      ensures r.Err? <==> MayPromote(old(View()), job, src, seenAt) && !Insertable(p, |p.chunks|)
      ensures r == Ok(true) <==> MayPromote(old(View()), job, src, seenAt) && Insertable(p, |p.chunks|)
    {
      hide FindActive, Insertable, RowsFor;
      var before := revisions;
      if src >= |sources| || sources[src].shopId != job.shopId || sources[src].generation != job.generation
         || sources[src].updatedAt != seenAt {
        return Ok(false);
      }
      if job.revision >= |revisions| || revisions[job.revision].source != src
         || revisions[job.revision].generation != job.generation || revisions[job.revision].status != PROCESSING {
        return Ok(false);
      }
      var predecessor := LocateActive(src);
      var candidate := revisions[job.revision].(
        content := Some(p.content), contentUnits := Some(p.contentUnits), failureCode := None, rows := []);
      revisions := revisions[job.revision := candidate];
      var inserted := InsertChunks(job.revision, p);
      if !inserted {
        revisions := before;
        return Err("EMBEDDING_VECTOR_INVALID");
      }
      if predecessor.Some? {
        revisions := revisions[predecessor.value := revisions[predecessor.value].(status := SUPERSEDED)];
      }
      revisions := revisions[job.revision := revisions[job.revision].(status := ACTIVE)];
      if predecessor.Some? {
        revisions := revisions[predecessor.value := revisions[predecessor.value].(rows := [])];
      }
      assert revisions[job.revision] == Activated(before[job.revision], p);
      return Ok(true);
    }

    method FindNewerWork(src: nat, generation: nat) returns (found: bool)
      ensures found == HasNewerWork(View(), src, generation)
    {
      for i := 0 to |revisions|
        invariant forall k :: 0 <= k < i && revisions[k].source == src && revisions[k].generation > generation ==>
                    !Open(revisions[k].status)
      {
        if revisions[i].source == src && revisions[i].generation > generation && Open(revisions[i].status) {
          return true;
        }
      }
      return false;
    }

    /** `maxUnits` is the entitlement of an eligible source and None otherwise. */
    method CreateReplacementIfRequired(src: nat, maxUnits: Option<nat>, at: int) returns (r: Option<Job>)
      modifies this
      ensures View() == Apply(old(View()), Replace(src, maxUnits, at))
      ensures r.Some? <==> NeedsReplacement(old(View()), src, maxUnits)
      ensures r.Some? ==> Owned(View(), r.value) && r.value.revision == old(|revisions|)
    {
      if src >= |sources| || maxUnits.None? { return None; }
      var source := sources[src];
      var active := LocateActive(src);
      if active.None? { return None; }
      var revision := revisions[active.value];
      if revision.contentUnits.None? || revision.contentUnits.value <= maxUnits.value { return None; }
      var newer := FindNewerWork(src, revision.generation);
      if newer || source.generation != revision.generation { return None; }
      var url, asset := None, None;
      match source.format {
        case WEB_PAGE => url := revision.requestedUrl;
        case CSV => asset := revision.uploadedAsset;
        case XLSX => asset := revision.uploadedAsset;
        case OTHER_FORMAT => return None;
      }
      var generation := source.generation + 1;
      sources := sources[src := source.(generation := generation, updatedAt := at)];
      revisions := revisions + [Revision(src, generation, PENDING, url, asset, None, None, None, [])];
      return Some(Job(source.shopId, |revisions| - 1, generation));
    }
  }
}
