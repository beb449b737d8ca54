/**
 What every step of the whole system keeps: the tables agree with the log, the
 tables agree with each other, and each worker's program counter tells the truth
 about the tables however many other workers have moved since.
 */
module ProcessorInvariant {
  import opened Options
  import opened Domain
  import opened LeaseStore
  import opened FileProcessor

  /** The metadata table at a moment; the latest moment is now. */
  function TableAt(sh: Shared, k: nat): map<FileId, Meta> {
    if k < |sh.past| then sh.past[k] else sh.meta
  }

  predicate Holds(m: Meta, w: MetaWrite) {
    m.status == w.status && (w.last.Some? ==> m.last == w.last)
  }

  predicate HeldAt(sh: Shared, f: FileId, k: nat, w: MetaWrite) {
    k <= |sh.past| && f in TableAt(sh, k) && Holds(TableAt(sh, k)[f], w)
  }

  /** At some moment since `since` the row held what `w` says. */
  ghost predicate HeldSince(sh: Shared, f: FileId, since: nat, w: MetaWrite) {
    exists k :: since <= k && HeldAt(sh, f, k, w)
  }

  /** At some moment since `since` the row was COMPLETED for event `e`. */
  ghost predicate DoneSince(sh: Shared, f: FileId, since: nat, e: EventId) {
    exists k :: since <= k <= |sh.past| && f in TableAt(sh, k)
                && TableAt(sh, k)[f].status == Completed && TableAt(sh, k)[f].last == Some(e)
  }

  /** The lease of version `v` is over. */
  predicate Released(sh: Shared, f: FileId, v: nat) {
    f in sh.meta && (sh.meta[f].version > v || (sh.meta[f].version == v && sh.meta[f].token.None?))
  }

  /** A claim is still the row's own lease, or its lease is over for good. */
  predicate ClaimOk(sh: Shared, f: FileId, e: EventId, claim: Claim) {
    && claim.event == e && claim.token in sh.tokens
    && (Fenced(Row(sh, f), claim) || Over(sh, f, claim))
  }

  predicate Over(sh: Shared, f: FileId, claim: Claim) {
    Released(sh, f, claim.version) && sh.meta[f].token != Some(claim.token)
  }

  /** How a failure is raised. */
  function OutcomeOf(retryable: bool): Outcome {
    if retryable then Retryable else NonRetryable
  }

  /** The codes of failures that may go away: storage calls, and errors nobody foresaw. */
  predicate Transient(code: string) {
    code == "STORAGE_ERROR" || code == "UNEXPECTED_ERROR"
  }

  /** The record and the outbox event of a save are about the same thing. */
  predicate JobOk(cfg: Config, wk: Worker, ev: InputEvent, job: Job) {
    && wk.since <= job.since
    && job.out.file == ev.file
    && match job.after
       case Complete(quarantined) =>
         && ev.kind == FileUploaded
         && job.write == MetaWrite(Completed, Some(wk.event), Some(ev.checksum),
                                   if quarantined then Quarantine(cfg, ev) else ev.location,
                                   None, None, job.write.created)
         && job.out == Payload(Completion(wk.event), ev.file, job.write.location,
                               Analysis(!quarantined, ev.checksum), job.out.stamp)
       case Report(outcome) =>
         && outcome != Returned
         && job.write.status == Failed && job.out.body.Diagnostics?
         && (job.write.last == None || job.write.last == Some(wk.event))
         && job.out.id.Failure? && job.out.id.input == wk.event && job.out.id.version == job.claim.version
         && outcome == OutcomeOf(job.out.id.retryable) && job.out.body.retryable == job.out.id.retryable
         && (job.write.last.None? <==> job.out.id.retryable)
  }

  predicate Persisted(sh: Shared, out: Payload) {
    out.id in sh.outbox && sh.outbox[out.id] == out
  }

  ghost predicate JobState(cfg: Config, sh: Shared, wk: Worker, ev: InputEvent, job: Job) {
    JobOk(cfg, wk, ev, job) && job.since <= |sh.past| && ClaimOk(sh, ev.file, wk.event, job.claim)
  }

  ghost predicate PcOk(cfg: Config, sh: Shared, wk: Worker, ev: InputEvent) {
    match wk.pc
    case Reading => true
    case Claiming => Actionable(ev)
    case Rereading => Actionable(ev)
    case Downloading(claim) => ev.kind == FileUploaded && ClaimOk(sh, ev.file, wk.event, claim)
    case Copying(claim) => ev.kind == FileUploaded && ClaimOk(sh, ev.file, wk.event, claim)
    case Saving(job, landed) =>
      JobState(cfg, sh, wk, ev, job)
      && (landed ==> Persisted(sh, job.out) && HeldSince(sh, ev.file, job.since, job.write)
                     && Over(sh, ev.file, job.claim))
    case CheckingReplay(job) =>
      JobState(cfg, sh, wk, ev, job) && (job.after.Report? ==> Over(sh, ev.file, job.claim))
    case Restoring(job) => JobState(cfg, sh, wk, ev, job) && Persisted(sh, job.out)
      && (job.after.Report? ==> Over(sh, ev.file, job.claim))
    case CheckingResult(job) =>
      JobState(cfg, sh, wk, ev, job) && Persisted(sh, job.out) && Over(sh, ev.file, job.claim)
    case Saved(job) =>
      && JobState(cfg, sh, wk, ev, job) && Persisted(sh, job.out) && Over(sh, ev.file, job.claim)
      && HeldSince(sh, ev.file, job.since, job.write)
      && (job.after.Complete? ==> CompletedIn(sh.log, wk.event, job.write.location))
    case SavingScan(claim, w) =>
      ev.kind == FileScanned && ClaimOk(sh, ev.file, wk.event, claim) && w == ScanWrite(wk.event, ev, w.created)
    case Deleting(claim) =>
      && ev.kind == FileUploaded && ClaimOk(sh, ev.file, wk.event, claim) && Over(sh, ev.file, claim)
      && DoneSince(sh, ev.file, wk.since, wk.event)
      && CompletedIn(sh.log, wk.event, Quarantine(cfg, ev))
    case Failing(claim, message, code, retryable, outcome) =>
      && Actionable(ev) && ClaimOk(sh, ev.file, wk.event, claim) && code != ""
      && outcome == OutcomeOf(retryable) && (retryable <==> Transient(code))
    case Done(outcome, held) =>
      && (outcome == Returned && Actionable(ev) ==> DoneSince(sh, ev.file, wk.since, wk.event))
      && (held.Some? ==> ClaimOk(sh, ev.file, wk.event, held.value))
      && (held.Some? && wk.clean && !wk.mute ==> Over(sh, ev.file, held.value))
  }

  ghost predicate WorkerOk(cfg: Config, sh: Shared, wk: Worker) {
    wk.event in cfg.inputs && wk.since <= |sh.past| && PcOk(cfg, sh, wk, cfg.inputs[wk.event])
  }

  /** A COMPLETED row written for an upload has its outbox row, saying the same. */
  predicate Announced(cfg: Config, sh: Shared, m: Meta) {
    m.status == Completed && m.last.Some? && m.last.value in cfg.inputs
    && cfg.inputs[m.last.value].kind == FileUploaded ==>
      && Completion(m.last.value) in sh.outbox
      && var p := sh.outbox[Completion(m.last.value)];
         p.location == m.location && p.body.Analysis? && m.hash == Some(p.body.hash)
  }

  ghost predicate OutboxRowOk(cfg: Config, sh: Shared, id: OutputId) {
    && id in sh.outbox && sh.outbox[id].id == id && id.input in cfg.inputs
    && sh.outbox[id].file == cfg.inputs[id.input].file
    && match id
       case Completion(e) =>
         && cfg.inputs[e].kind == FileUploaded
         && sh.outbox[id].body.Analysis?
         && CompletedIn(sh.log, e, sh.outbox[id].location)
       case Failure(e, v, _, _) => Released(sh, cfg.inputs[e].file, v)
  }

  ghost predicate OutboxOk(cfg: Config, sh: Shared) {
    forall id | id in sh.outbox :: OutboxRowOk(cfg, sh, id)
  }

  ghost predicate TablesOk(cfg: Config, sh: Shared) {
    && Consistent(cfg, sh)
    && (forall f | f in sh.meta :: Announced(cfg, sh, sh.meta[f]))
    && OutboxOk(cfg, sh)
  }

  ghost predicate Inv(cfg: Config, sys: System) {
    TablesOk(cfg, sys.sh) && forall w | w in sys.workers :: WorkerOk(cfg, sys.sh, sys.workers[w])
  }

  // ------------------------------------------------------- what effects preserve

  /** `later` comes after `sh`: what is durable in `sh` is still there. */
  ghost predicate Later(sh: Shared, later: Shared) {
    && |sh.past| <= |later.past|
    && (forall k: nat | k <= |sh.past| :: TableAt(later, k) == TableAt(sh, k))
    && |sh.log| <= |later.log| && later.log[..|sh.log|] == sh.log
    && (forall id | id in sh.outbox :: id in later.outbox && later.outbox[id] == sh.outbox[id])
    && sh.tokens <= later.tokens
    && (forall f | f in sh.meta :: f in later.meta && sh.meta[f].version <= later.meta[f].version
          && (sh.meta[f].created.Some? ==> later.meta[f].created == sh.meta[f].created))
    && (forall f | f in sh.meta :: later.meta[f] == sh.meta[f]
          || later.meta[f].token.None? || later.meta[f].token.value !in sh.tokens)
    && (forall f | f in sh.meta && later.meta[f] != sh.meta[f] && later.meta[f].version == sh.meta[f].version ::
          later.meta[f].token.None?)
  }

  lemma EffectLater(cfg: Config, sh: Shared, eff: Effect)
    requires Admissible(cfg, sh, eff)
    ensures Later(sh, Apply(cfg, sh, eff))
  {
  }

  lemma CompletedStays(sh: Shared, later: Shared, e: EventId, at: Location)
    requires Later(sh, later) && CompletedIn(sh.log, e, at)
    ensures CompletedIn(later.log, e, at)
  {
    var j :| 0 <= j < |sh.log| && sh.log[j].Committed? && sh.log[j].event == e
             && sh.log[j].write.status == Completed && sh.log[j].write.location == at;
    assert later.log[j] == sh.log[j] by { assert later.log[..|sh.log|][j] == sh.log[j]; }
  }

  lemma HeldStays(sh: Shared, later: Shared, f: FileId, since: nat, w: MetaWrite)
    requires Later(sh, later) && HeldSince(sh, f, since, w)
    ensures HeldSince(later, f, since, w)
  {
    var k :| since <= k && HeldAt(sh, f, k, w);
    assert HeldAt(later, f, k, w);
  }

  lemma DoneStays(sh: Shared, later: Shared, f: FileId, since: nat, e: EventId)
    requires Later(sh, later) && DoneSince(sh, f, since, e)
    ensures DoneSince(later, f, since, e)
  {
    var k :| since <= k <= |sh.past| && f in TableAt(sh, k)
             && TableAt(sh, k)[f].status == Completed && TableAt(sh, k)[f].last == Some(e);
    assert TableAt(later, k) == TableAt(sh, k);
  }

  lemma ClaimStays(sh: Shared, later: Shared, f: FileId, e: EventId, claim: Claim)
    requires Later(sh, later) && ClaimOk(sh, f, e, claim)
    ensures ClaimOk(later, f, e, claim)
    ensures Over(sh, f, claim) ==> Over(later, f, claim)
  {
  }

  /** What a worker knows survives whatever the others do. */
  lemma WorkerStays(cfg: Config, sh: Shared, later: Shared, wk: Worker)
    requires WorkerOk(cfg, sh, wk) && Later(sh, later)
    ensures WorkerOk(cfg, later, wk)
  {
    var ev := cfg.inputs[wk.event];
    match wk.pc
    case Reading =>
    case Claiming =>
    case Rereading =>
    case Downloading(claim) => ClaimStays(sh, later, ev.file, wk.event, claim);
    case Copying(claim) => ClaimStays(sh, later, ev.file, wk.event, claim);
    case Saving(job, landed) =>
      ClaimStays(sh, later, ev.file, wk.event, job.claim);
      if landed { HeldStays(sh, later, ev.file, job.since, job.write); }
    case CheckingReplay(job) => ClaimStays(sh, later, ev.file, wk.event, job.claim);
    case Restoring(job) => ClaimStays(sh, later, ev.file, wk.event, job.claim);
    case CheckingResult(job) => ClaimStays(sh, later, ev.file, wk.event, job.claim);
    case Saved(job) =>
      ClaimStays(sh, later, ev.file, wk.event, job.claim);
      HeldStays(sh, later, ev.file, job.since, job.write);
      if job.after.Complete? { CompletedStays(sh, later, wk.event, job.write.location); }
    case SavingScan(claim, _) => ClaimStays(sh, later, ev.file, wk.event, claim);
    case Deleting(claim) =>
      ClaimStays(sh, later, ev.file, wk.event, claim);
      DoneStays(sh, later, ev.file, wk.since, wk.event);
      CompletedStays(sh, later, wk.event, Quarantine(cfg, ev));
    case Failing(claim, _, _, _, _) => ClaimStays(sh, later, ev.file, wk.event, claim);
    case Done(outcome, held) =>
      if outcome == Returned && Actionable(ev) { DoneStays(sh, later, ev.file, wk.since, wk.event); }
      if held.Some? { ClaimStays(sh, later, ev.file, wk.event, held.value); }
  }
}
