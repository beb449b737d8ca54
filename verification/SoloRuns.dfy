/**
 Pieces of concrete runs: what one worker does when all its calls are heard, while the
 others stand where they are.
 */
module SoloRuns {
  import opened Options
  import opened Domain
  import opened LeaseStore
  import opened FileProcessor

  /** Worker `w` has moved to `pc` and the tables are `sh`; no other worker has moved. */
  predicate Moved(sys: System, later: System, w: nat, e: EventId, pc: Pc, sh: Shared) {
    && later.sh == sh && w in later.workers && later.workers == sys.workers[w := later.workers[w]]
    && later.workers[w].event == e && later.workers[w].pc == pc
  }

  predicate Stands(sys: System, w: nat, e: EventId, pc: Pc) {
    w in sys.workers && sys.workers[w].event == e && sys.workers[w].pc == pc
  }

  lemma Moves(cfg: Config, start: System, sys: System, w: nat, e: EventId, act: Act, turn: Turn) returns (later: System)
    requires ReachableFrom(cfg, start, sys) && e in cfg.inputs && w in sys.workers && sys.workers[w].event == e
    requires World(cfg, sys.sh, act) && Applicable(sys.sh, turn.effect)
    requires TurnOf(cfg, sys.sh, sys.workers[w], cfg.inputs[e], act) == Some(turn)
    ensures ReachableFrom(cfg, start, later)
    ensures Moved(sys, later, w, e, turn.pc, Apply(cfg, sys.sh, turn.effect))
  {
    ReachesFrom(cfg, start, sys, Work(w, act));
    later := StepOf(cfg, sys, Work(w, act)).value;
  }

  /** At this time the row of the event's file can be claimed for it. */
  predicate Free(cfg: Config, sh: Shared, e: EventId, at: real)
    requires e in cfg.inputs
  {
    CanClaim(Row(sh, cfg.inputs[e].file), e, at.Floor)
  }

  function GrantTo(cfg: Config, e: EventId, token: Token, at: real, stamp: Stamp): Effect
    requires e in cfg.inputs
  {
    Grant(cfg.inputs[e].file, e, token, at, at, cfg.inputs[e].location, stamp)
  }

  /** The lease the grant gives. */
  function ClaimFor(cfg: Config, sh: Shared, e: EventId, token: Token): Claim
    requires e in cfg.inputs
  {
    var f := cfg.inputs[e].file;
    Claim(e, token, (if f in sh.meta then sh.meta[f].version else 0) + 1)
  }

  function AfterClaim(cfg: Config, e: EventId, claim: Claim, stamp: Stamp): Pc
    requires e in cfg.inputs
  {
    if cfg.inputs[e].kind == FileUploaded then Downloading(claim)
    else SavingScan(claim, ScanWrite(e, cfg.inputs[e], stamp))
  }

  /** A new worker handed a free event finds that it is no duplicate. */
  lemma GoesOn(cfg: Config, start: System, sys: System, w: nat, e: EventId) returns (later: System)
    requires ReachableFrom(cfg, start, sys) && w !in sys.workers
    requires e in cfg.inputs && Actionable(cfg.inputs[e]) && Duplicate(Row(sys.sh, cfg.inputs[e].file), e).None?
    ensures ReachableFrom(cfg, start, later) && Moved(sys, later, w, e, Claiming, sys.sh)
  {
    ReachesFrom(cfg, start, sys, Deliver(w, e));
    var delivered := StepOf(cfg, sys, Deliver(w, e)).value;
    later := Moves(cfg, start, delivered, w, e, ReadRow(Heard), Turn(Nothing, Claiming));
  }

  /** The claim of a free event is granted. */
  lemma Claims(cfg: Config, start: System, sys: System, w: nat, e: EventId, token: Token, at: real, stamp: Stamp)
    returns (later: System)
    requires ReachableFrom(cfg, start, sys) && cfg.skew >= 0.0 && e in cfg.inputs && Stands(sys, w, e, Claiming)
    requires Actionable(cfg.inputs[e]) && Free(cfg, sys.sh, e, at) && token !in sys.sh.tokens
    ensures ReachableFrom(cfg, start, later)
    ensures Applicable(sys.sh, GrantTo(cfg, e, token, at, stamp))
    ensures Moved(sys, later, w, e, AfterClaim(cfg, e, ClaimFor(cfg, sys.sh, e, token), stamp),
                  Apply(cfg, sys.sh, GrantTo(cfg, e, token, at, stamp)))
    ensures Fenced(Row(later.sh, cfg.inputs[e].file), ClaimFor(cfg, sys.sh, e, token))
  {
    later := Moves(cfg, start, sys, w, e, ClaimRow(token, at, at, stamp, Heard),
                   Turn(GrantTo(cfg, e, token, at, stamp),
                        AfterClaim(cfg, e, ClaimFor(cfg, sys.sh, e, token), stamp)));
  }

  /** A new worker handed a free event gets the lease. */
  lemma TakesLease(cfg: Config, start: System, sys: System, w: nat, e: EventId, token: Token, at: real, stamp: Stamp)
    returns (later: System)
    requires ReachableFrom(cfg, start, sys) && cfg.skew >= 0.0 && w !in sys.workers
    requires e in cfg.inputs && Actionable(cfg.inputs[e]) && Free(cfg, sys.sh, e, at) && token !in sys.sh.tokens
    ensures ReachableFrom(cfg, start, later)
    ensures Applicable(sys.sh, GrantTo(cfg, e, token, at, stamp))
    ensures Moved(sys, later, w, e, AfterClaim(cfg, e, ClaimFor(cfg, sys.sh, e, token), stamp),
                  Apply(cfg, sys.sh, GrantTo(cfg, e, token, at, stamp)))
    ensures Fenced(Row(later.sh, cfg.inputs[e].file), ClaimFor(cfg, sys.sh, e, token))
  {
    var reading := GoesOn(cfg, start, sys, w, e);
    later := Claims(cfg, start, reading, w, e, token, at, stamp);
  }

  /** A sound source: there, as uploaded, and passing every check. */
  predicate Intact(cfg: Config, sh: Shared, ev: InputEvent) {
    Processable(cfg, ev) && ev.location in sh.objects && sh.objects[ev.location] == cfg.uploads[ev.location]
  }

  /** From the download on to the save of an allowed upload. */
  lemma FetchesAllowed(cfg: Config, start: System, sys: System, w: nat, e: EventId, claim: Claim, stamp: Stamp)
    returns (later: System)
    requires ReachableFrom(cfg, start, sys) && e in cfg.inputs && Stands(sys, w, e, Downloading(claim))
    requires Intact(cfg, sys.sh, cfg.inputs[e]) && !Condemned(cfg, cfg.inputs[e])
    ensures ReachableFrom(cfg, start, later)
    ensures Moved(sys, later, w, e,
                  Saving(CompletionJob(cfg, e, cfg.inputs[e], claim, false, stamp, |sys.sh.past|), false), sys.sh)
  {
    var job := CompletionJob(cfg, e, cfg.inputs[e], claim, false, stamp, |sys.sh.past|);
    later := Moves(cfg, start, sys, w, e, Fetch(stamp, Heard), Turn(Nothing, Saving(job, false)));
  }

  /** The event is an upload whose object is there, is accepted, and is denied. */
  predicate Deniable(cfg: Config, sh: Shared, ev: InputEvent) {
    && ev.kind == FileUploaded && ev.location in sh.objects
    && Accepts(cfg, ev, sh.objects[ev.location]) && Denied(sh.objects[ev.location].data)
  }

  /** From the download on to the copy of a denied object. */
  lemma FetchesDenied(cfg: Config, start: System, sys: System, w: nat, e: EventId, claim: Claim)
    returns (later: System)
    requires ReachableFrom(cfg, start, sys) && e in cfg.inputs && Stands(sys, w, e, Downloading(claim))
    requires Deniable(cfg, sys.sh, cfg.inputs[e])
    ensures ReachableFrom(cfg, start, later) && Moved(sys, later, w, e, Copying(claim), sys.sh)
  {
    later := Moves(cfg, start, sys, w, e, Fetch(0, Heard), Turn(Nothing, Copying(claim)));
  }

  function CopyOf(cfg: Config, ev: InputEvent): Effect {
    Copy(ev.location, Quarantine(cfg, ev))
  }

  function CommitOf(ev: InputEvent, job: Job): Effect {
    Commit(ev.file, job.claim, job.write, Some(job.out))
  }

  /** The transaction of a job lands. */
  lemma Transacts(cfg: Config, start: System, sys: System, w: nat, e: EventId, job: Job) returns (later: System)
    requires ReachableFrom(cfg, start, sys) && e in cfg.inputs && Stands(sys, w, e, Saving(job, false))
    requires Fenced(Row(sys.sh, cfg.inputs[e].file), job.claim) && job.out.id !in sys.sh.outbox
    ensures ReachableFrom(cfg, start, later)
    ensures Moved(sys, later, w, e, Saved(job), Apply(cfg, sys.sh, CommitOf(cfg.inputs[e], job)))
  {
    later := Moves(cfg, start, sys, w, e, Transact(Heard, false), Turn(CommitOf(cfg.inputs[e], job), Saved(job)));
  }

  /** The copy, and then the transaction, of a quarantine. */
  lemma SavesQuarantine(cfg: Config, start: System, sys: System, w: nat, e: EventId, claim: Claim, stamp: Stamp)
    returns (later: System, job: Job)
    requires ReachableFrom(cfg, start, sys) && e in cfg.inputs && Stands(sys, w, e, Copying(claim))
    requires cfg.inputs[e].location in sys.sh.objects
    requires Fenced(Row(sys.sh, cfg.inputs[e].file), claim) && Completion(e) !in sys.sh.outbox
    ensures ReachableFrom(cfg, start, later)
    ensures job == CompletionJob(cfg, e, cfg.inputs[e], claim, true, stamp, |sys.sh.past|)
    ensures Applicable(Apply(cfg, sys.sh, CopyOf(cfg, cfg.inputs[e])), CommitOf(cfg.inputs[e], job))
    ensures Moved(sys, later, w, e, Saved(job),
                  Apply(cfg, Apply(cfg, sys.sh, CopyOf(cfg, cfg.inputs[e])), CommitOf(cfg.inputs[e], job)))
  {
    job := CompletionJob(cfg, e, cfg.inputs[e], claim, true, stamp, |sys.sh.past|);
    var copied := Moves(cfg, start, sys, w, e, CopyObject(stamp, Heard),
                        Turn(CopyOf(cfg, cfg.inputs[e]), Saving(job, false)));
    later := Transacts(cfg, start, copied, w, e, job);
  }

  /** The cleanup after a quarantine: the source is deleted and the handler returns. */
  lemma CleansUp(cfg: Config, start: System, sys: System, w: nat, e: EventId, job: Job) returns (later: System)
    requires ReachableFrom(cfg, start, sys) && e in cfg.inputs && Stands(sys, w, e, Saved(job))
    requires job.after == Complete(true)
    ensures ReachableFrom(cfg, start, later)
    ensures Moved(sys, later, w, e, Done(Returned, Some(job.claim)),
                  Apply(cfg, sys.sh, Remove(cfg.inputs[e].location, e)))
  {
    var onward := Moves(cfg, start, sys, w, e, Resume, Turn(Nothing, Deleting(job.claim)));
    later := Deletes(cfg, start, onward, w, e, job.claim);
  }

  lemma Deletes(cfg: Config, start: System, sys: System, w: nat, e: EventId, claim: Claim) returns (later: System)
    requires ReachableFrom(cfg, start, sys) && e in cfg.inputs && Stands(sys, w, e, Deleting(claim))
    ensures ReachableFrom(cfg, start, later)
    ensures Moved(sys, later, w, e, Done(Returned, Some(claim)),
                  Apply(cfg, sys.sh, Remove(cfg.inputs[e].location, e)))
  {
    later := Moves(cfg, start, sys, w, e, DeleteSource(Heard),
                   Turn(Remove(cfg.inputs[e].location, e), Done(Returned, Some(claim))));
  }

  /** A scan event is recorded. */
  lemma RecordsScan(cfg: Config, start: System, sys: System, w: nat, e: EventId, claim: Claim, write: MetaWrite)
    returns (later: System)
    requires ReachableFrom(cfg, start, sys) && e in cfg.inputs && Stands(sys, w, e, SavingScan(claim, write))
    requires Fenced(Row(sys.sh, cfg.inputs[e].file), claim)
    ensures ReachableFrom(cfg, start, later)
    ensures Moved(sys, later, w, e, Done(Returned, Some(claim)),
                  Apply(cfg, sys.sh, Commit(cfg.inputs[e].file, claim, write, None)))
  {
    later := Moves(cfg, start, sys, w, e, SaveScan(Heard),
                   Turn(Commit(cfg.inputs[e].file, claim, write, None), Done(Returned, Some(claim))));
  }

  /** What a handled scan leaves: its row is COMPLETED for it and names its location; other
      rows, the outbox and the objects are as they were. */
  predicate Scanned(cfg: Config, before: Shared, after: Shared, e: EventId, token: Token)
    requires e in cfg.inputs
  {
    var f := cfg.inputs[e].file;
    && f in after.meta && after.meta == before.meta[f := after.meta[f]]
    && after.meta[f].status == Completed && after.meta[f].last == Some(e) && after.meta[f].token.None?
    && after.meta[f].location == cfg.inputs[e].location
    && after.meta[f].version == ClaimFor(cfg, before, e, token).version
    && after.outbox == before.outbox && after.objects == before.objects && after.tokens == before.tokens + {token}
    && before.log <= after.log
  }

  /** A scan event handled from beginning to end. */
  lemma HandlesScan(cfg: Config, start: System, sys: System, w: nat, e: EventId, token: Token, at: real, stamp: Stamp)
    returns (later: System)
    requires ReachableFrom(cfg, start, sys) && cfg.skew >= 0.0 && w !in sys.workers
    requires e in cfg.inputs && cfg.inputs[e].kind == FileScanned && Free(cfg, sys.sh, e, at) && token !in sys.sh.tokens
    ensures ReachableFrom(cfg, start, later) && Scanned(cfg, sys.sh, later.sh, e, token)
    ensures w in later.workers && later.workers == sys.workers[w := later.workers[w]]
  {
    var leased := TakesLease(cfg, start, sys, w, e, token, at, stamp);
    var claim := ClaimFor(cfg, sys.sh, e, token);
    later := RecordsScan(cfg, start, leased, w, e, claim, ScanWrite(e, cfg.inputs[e], stamp));
  }

  // ------------------------------------------------------------- quarantine

  /** The completion of the event names this place and this hash. */
  predicate Announces(sh: Shared, e: EventId, at: Location, hash: string) {
    && Completion(e) in sh.outbox && sh.outbox[Completion(e)].location == at
    && sh.outbox[Completion(e)].body.Analysis? && sh.outbox[Completion(e)].body.hash == hash
  }

  /** What a quarantine that ran to its end leaves: the row is COMPLETED and names the
      quarantine place, the source has moved there, the completion is announced. */
  predicate Quarantined(cfg: Config, before: Shared, after: Shared, e: EventId, token: Token)
    requires e in cfg.inputs && cfg.inputs[e].location in before.objects
  {
    var ev := cfg.inputs[e];
    && ev.file in after.meta && after.meta == before.meta[ev.file := after.meta[ev.file]]
    && after.meta[ev.file].status == Completed && after.meta[ev.file].last == Some(e)
    && after.meta[ev.file].token.None? && after.meta[ev.file].location == Quarantine(cfg, ev)
    && after.meta[ev.file].version == ClaimFor(cfg, before, e, token).version
    && after.objects ==
         before.objects[Quarantine(cfg, ev) := Reencrypted(cfg, before.objects[ev.location])] - {ev.location}
    && Completion(e) in after.outbox && after.outbox == before.outbox[Completion(e) := after.outbox[Completion(e)]]
    && Announces(after, e, Quarantine(cfg, ev), ev.checksum)
    && after.tokens == before.tokens + {token}
  }

  /** The grant, the copy, the commit and the cleanup of a quarantine, as effects on the tables. */
  lemma QuarantineTables(cfg: Config, before: Shared, leased: Shared, saved: Shared, e: EventId, token: Token,
                         at: real, stamp: Stamp, job: Job)
    requires e in cfg.inputs && cfg.inputs[e].location in before.objects && Completion(e) !in before.outbox
    requires Applicable(before, GrantTo(cfg, e, token, at, stamp))
    requires leased == Apply(cfg, before, GrantTo(cfg, e, token, at, stamp))
    requires job == CompletionJob(cfg, e, cfg.inputs[e], ClaimFor(cfg, before, e, token), true, stamp, |leased.past|)
    requires Applicable(Apply(cfg, leased, CopyOf(cfg, cfg.inputs[e])), CommitOf(cfg.inputs[e], job))
    requires saved == Apply(cfg, Apply(cfg, leased, CopyOf(cfg, cfg.inputs[e])), CommitOf(cfg.inputs[e], job))
    ensures Quarantined(cfg, before, Apply(cfg, saved, Remove(cfg.inputs[e].location, e)), e, token)
    ensures CompletedIn(Apply(cfg, saved, Remove(cfg.inputs[e].location, e)).log, e, Quarantine(cfg, cfg.inputs[e]))
  {
    assert Apply(cfg, saved, Remove(cfg.inputs[e].location, e)).log[|leased.log|].Committed?;
  }

  /** A denied object is leased and fetched; the copy is next. */
  lemma ReadiesCopy(cfg: Config, start: System, sys: System, w: nat, e: EventId, token: Token, at: real, stamp: Stamp)
    returns (later: System)
    requires ReachableFrom(cfg, start, sys) && cfg.skew >= 0.0 && w !in sys.workers
    requires e in cfg.inputs && Deniable(cfg, sys.sh, cfg.inputs[e])
    requires Free(cfg, sys.sh, e, at) && token !in sys.sh.tokens
    ensures ReachableFrom(cfg, start, later)
    ensures Applicable(sys.sh, GrantTo(cfg, e, token, at, stamp))
    ensures Moved(sys, later, w, e, Copying(ClaimFor(cfg, sys.sh, e, token)),
                  Apply(cfg, sys.sh, GrantTo(cfg, e, token, at, stamp)))
    ensures Fenced(Row(later.sh, cfg.inputs[e].file), ClaimFor(cfg, sys.sh, e, token))
    ensures later.sh.objects == sys.sh.objects && later.sh.outbox == sys.sh.outbox
    ensures later.sh.tokens == sys.sh.tokens + {token}
    ensures forall f | f != cfg.inputs[e].file :: Row(later.sh, f) == Row(sys.sh, f)
  {
    var leased := TakesLease(cfg, start, sys, w, e, token, at, stamp);
    later := FetchesDenied(cfg, start, leased, w, e, ClaimFor(cfg, sys.sh, e, token));
  }

  /** An upload whose object is denied is handled from beginning to end. */
  lemma HandlesDenied(cfg: Config, start: System, sys: System, w: nat, e: EventId, token: Token, at: real,
                         stamp: Stamp)
    returns (later: System)
    requires ReachableFrom(cfg, start, sys) && cfg.skew >= 0.0 && w !in sys.workers
    requires e in cfg.inputs && Deniable(cfg, sys.sh, cfg.inputs[e])
    requires Free(cfg, sys.sh, e, at) && token !in sys.sh.tokens && Completion(e) !in sys.sh.outbox
    ensures ReachableFrom(cfg, start, later) && Quarantined(cfg, sys.sh, later.sh, e, token)
    ensures w in later.workers && later.workers == sys.workers[w := later.workers[w]]
    ensures CompletedIn(later.sh.log, e, Quarantine(cfg, cfg.inputs[e]))
  {
    var ready := ReadiesCopy(cfg, start, sys, w, e, token, at, stamp);
    later := QuarantinesReady(cfg, start, sys, ready, w, e, token, at, stamp);
  }

  /** From the copy on. */
  lemma QuarantinesReady(cfg: Config, start: System, sys: System, ready: System, w: nat, e: EventId, token: Token,
                         at: real, stamp: Stamp)
    returns (later: System)
    requires ReachableFrom(cfg, start, ready) && e in cfg.inputs && Completion(e) !in sys.sh.outbox
    requires cfg.inputs[e].location in sys.sh.objects && Applicable(sys.sh, GrantTo(cfg, e, token, at, stamp))
    requires Moved(sys, ready, w, e, Copying(ClaimFor(cfg, sys.sh, e, token)),
                   Apply(cfg, sys.sh, GrantTo(cfg, e, token, at, stamp)))
    requires Fenced(Row(ready.sh, cfg.inputs[e].file), ClaimFor(cfg, sys.sh, e, token))
    ensures ReachableFrom(cfg, start, later) && Quarantined(cfg, sys.sh, later.sh, e, token)
    ensures w in later.workers && later.workers == sys.workers[w := later.workers[w]]
    ensures CompletedIn(later.sh.log, e, Quarantine(cfg, cfg.inputs[e]))
  {
    var saved, job := SavesQuarantine(cfg, start, ready, w, e, ClaimFor(cfg, sys.sh, e, token), stamp);
    QuarantineTables(cfg, sys.sh, ready.sh, saved.sh, e, token, at, stamp, job);
    later := CleansUp(cfg, start, saved, w, e, job);
  }

  /** The copy and the commit of one quarantine: its row is COMPLETED and names the copy, and
      other workers, rows and completions are left alone. */
  lemma SavesApart(cfg: Config, start: System, sys: System, w: nat, e: EventId, claim: Claim, stamp: Stamp)
    returns (later: System, job: Job)
    requires ReachableFrom(cfg, start, sys) && e in cfg.inputs && Stands(sys, w, e, Copying(claim))
    requires cfg.inputs[e].location in sys.sh.objects
    requires Fenced(Row(sys.sh, cfg.inputs[e].file), claim) && Completion(e) !in sys.sh.outbox
    ensures ReachableFrom(cfg, start, later) && Stands(later, w, e, Saved(job)) && job.after == Complete(true)
    ensures forall v, i, pc | v != w && Stands(sys, v, i, pc) :: Stands(later, v, i, pc)
    ensures forall f | f != cfg.inputs[e].file :: Row(later.sh, f) == Row(sys.sh, f)
    ensures later.workers.Keys == sys.workers.Keys && later.sh.tokens == sys.sh.tokens
    ensures later.sh.objects == sys.sh.objects[Quarantine(cfg, cfg.inputs[e]) :=
                                                 Reencrypted(cfg, sys.sh.objects[cfg.inputs[e].location])]
    ensures later.sh.outbox.Keys == sys.sh.outbox.Keys + {Completion(e)}
    ensures Announces(later.sh, e, Quarantine(cfg, cfg.inputs[e]), cfg.inputs[e].checksum)
    ensures var f, m := cfg.inputs[e].file, later.sh.meta;
            && f in m && m[f].status == Completed && m[f].last == Some(e) && m[f].token.None?
            && m[f].location == Quarantine(cfg, cfg.inputs[e])
  {
    later, job := SavesQuarantine(cfg, start, sys, w, e, claim, stamp);
  }
}
