/**
 Where the guarantees end.  Concrete runs show that an event can be both completed
 and failed, and how a lease is left on a row.
 */
module Boundaries {
  import opened Options
  import opened Domain
  import opened LeaseStore
  import opened FileProcessor
  import opened SoloRuns

  // ------------------------------------------------- completed and then failed

  /** From a lease on, an allowed upload is committed and announced. */
  lemma SavesAllowed(cfg: Config, start: System, sys: System, w: nat, e: EventId, claim: Claim, stamp: Stamp)
    returns (later: System)
    requires ReachableFrom(cfg, start, sys) && e in cfg.inputs && Stands(sys, w, e, Downloading(claim))
    requires Intact(cfg, sys.sh, cfg.inputs[e]) && !Condemned(cfg, cfg.inputs[e])
    requires Fenced(Row(sys.sh, cfg.inputs[e].file), claim) && Completion(e) !in sys.sh.outbox
    ensures ReachableFrom(cfg, start, later)
    ensures var job := CompletionJob(cfg, e, cfg.inputs[e], claim, false, stamp, |sys.sh.past|);
            Moved(sys, later, w, e, Saved(job), Apply(cfg, sys.sh, CommitOf(cfg.inputs[e], job)))
  {
    var fetched := FetchesAllowed(cfg, start, sys, w, e, claim, stamp);
    later := Transacts(cfg, start, fetched, w, e,
                       CompletionJob(cfg, e, cfg.inputs[e], claim, false, stamp, |sys.sh.past|));
  }

  ghost predicate EverCompleted(log: seq<Entry>, e: EventId) {
    exists place :: CompletedIn(log, e, place)
  }

  /** What is left of an upload that was completed first: its completion with this stamp,
      and its source as uploaded, or gone if it was quarantined. */
  ghost predicate CompletedFirst(cfg: Config, sh: Shared, e: EventId, stamp: Stamp)
    requires e in cfg.inputs
  {
    var ev := cfg.inputs[e];
    && Completion(e) in sh.outbox
    && EverCompleted(sh.log, e)
    && if Condemned(cfg, ev) then ev.location !in sh.objects
       else sh.outbox[Completion(e)].stamp == stamp && Intact(cfg, sh, ev)
  }

  lemma AllowedTables(cfg: Config, sh: Shared, e: EventId, job: Job)
    requires e in cfg.inputs && Intact(cfg, sh, cfg.inputs[e]) && !Condemned(cfg, cfg.inputs[e])
    requires Applicable(sh, CommitOf(cfg.inputs[e], job)) && job.claim.event == e
    requires job == CompletionJob(cfg, e, cfg.inputs[e], job.claim, false, job.out.stamp, job.since)
    ensures CompletedFirst(cfg, Apply(cfg, sh, CommitOf(cfg.inputs[e], job)), e, job.out.stamp)
  {
    assert Apply(cfg, sh, CommitOf(cfg.inputs[e], job)).log[|sh.log|].Committed?;
    assert CompletedIn(Apply(cfg, sh, CommitOf(cfg.inputs[e], job)).log, e, cfg.inputs[e].location);
  }

  lemma Completes(cfg: Config, start: System, e: EventId, at: real, stamp: Stamp) returns (later: System)
    requires Init(cfg, start) && cfg.skew >= 0.0 && e in cfg.inputs && Processable(cfg, cfg.inputs[e])
    ensures ReachableFrom(cfg, start, later) && CompletedFirst(cfg, later.sh, e, stamp)
    ensures later.workers.Keys == {0} && later.sh.tokens == {0}
    ensures var f := cfg.inputs[e].file;
            f in later.sh.meta && later.sh.meta[f].last == Some(e) && later.sh.meta[f].token.None?
            && later.sh.meta[f].version == 1
    ensures forall v, code, retryable :: Failure(e, v, code, retryable) !in later.sh.outbox
  {
    ReachesItself(cfg, start);
    if Condemned(cfg, cfg.inputs[e]) {
      later := HandlesDenied(cfg, start, start, 0, e, 0, at, stamp);
    } else {
      var claim := ClaimFor(cfg, start.sh, e, 0);
      var leased := TakesLease(cfg, start, start, 0, e, 0, at, stamp);
      later := SavesAllowed(cfg, start, leased, 0, e, claim, stamp);
      AllowedTables(cfg, leased.sh, e, CompletionJob(cfg, e, cfg.inputs[e], claim, false, stamp, |leased.sh.past|));
    }
  }

  /** A failure that is reported under the lease. */
  lemma Reports(cfg: Config, start: System, sys: System, w: nat, e: EventId, claim: Claim, message: string,
                code: string, retryable: bool, outcome: Outcome, stamp: Stamp)
    returns (later: System)
    requires ReachableFrom(cfg, start, sys) && e in cfg.inputs
    requires Stands(sys, w, e, Failing(claim, message, code, retryable, outcome)) && message != "" && code != ""
    requires Fenced(Row(sys.sh, cfg.inputs[e].file), claim)
    requires Failure(e, claim.version, Shorten(code, 100), retryable) !in sys.sh.outbox
    ensures ReachableFrom(cfg, start, later)
    ensures var job := FailureJob(e, cfg.inputs[e], claim, message, code, retryable, outcome, stamp, |sys.sh.past|);
            Moved(sys, later, w, e, Saved(job), Apply(cfg, sys.sh, CommitOf(cfg.inputs[e], job)))
  {
    var job := FailureJob(e, cfg.inputs[e], claim, message, code, retryable, outcome, stamp, |sys.sh.past|);
    var saving := Moves(cfg, start, sys, w, e, Diagnose(stamp), Turn(Nothing, Saving(job, false)));
    later := Transacts(cfg, start, saving, w, e, job);
  }

  /** An upload that was completed before is processed again, with another stamp: either its
      source is gone, or the outbox holds another completion of it. */
  lemma FailsAgain(cfg: Config, start: System, sys: System, w: nat, e: EventId, claim: Claim, stamp: Stamp,
                   again: Stamp)
    returns (later: System)
    requires ReachableFrom(cfg, start, sys) && e in cfg.inputs && Stands(sys, w, e, Downloading(claim))
    requires Processable(cfg, cfg.inputs[e]) && CompletedFirst(cfg, sys.sh, e, stamp) && again != stamp
    ensures ReachableFrom(cfg, start, later)
    ensures Moved(sys, later, w, e, FailWith(claim, StorageFault), sys.sh)
  {
    if Condemned(cfg, cfg.inputs[e]) {
      later := Moves(cfg, start, sys, w, e, Fetch(again, Heard), Turn(Nothing, FailWith(claim, StorageFault)));
    } else {
      var job := CompletionJob(cfg, e, cfg.inputs[e], claim, false, again, |sys.sh.past|);
      var fetched := FetchesAllowed(cfg, start, sys, w, e, claim, again);
      later := Cancelled(cfg, start, fetched, w, e, job);
    }
  }

  /** The outbox holds another completion of the event: the save fails. */
  lemma Cancelled(cfg: Config, start: System, sys: System, w: nat, e: EventId, job: Job) returns (later: System)
    requires ReachableFrom(cfg, start, sys) && e in cfg.inputs && Stands(sys, w, e, Saving(job, false))
    requires job.after.Complete? && job.out.id in sys.sh.outbox && sys.sh.outbox[job.out.id] != job.out
    ensures ReachableFrom(cfg, start, later)
    ensures Moved(sys, later, w, e, FailWith(job.claim, StorageFault), sys.sh)
  {
    var cancelled := Moves(cfg, start, sys, w, e, Transact(Heard, false), Turn(Nothing, CheckingReplay(job)));
    later := Moves(cfg, start, cancelled, w, e, ReadOutbox(Heard), Turn(Nothing, FailWith(job.claim, StorageFault)));
  }

  /**
   For every upload that passes its checks and every scan event of its file there is a
   run, with every call heard, in which the upload is completed and announced, the scan
   recorded, and the upload, redelivered, fails: its row ends FAILED and the outbox
   holds its completion and a failure for it.
   */
  lemma CompletedThenFailed(cfg: Config, start: System, e: EventId, scan: EventId, at: real, stamp: Stamp,
                            again: Stamp)
    returns (later: System)
    requires Init(cfg, start) && cfg.skew >= 0.0 && again != stamp
    requires e in cfg.inputs && Processable(cfg, cfg.inputs[e])
    requires scan in cfg.inputs && cfg.inputs[scan].kind == FileScanned
             && cfg.inputs[scan].file == cfg.inputs[e].file
    ensures ReachableFrom(cfg, start, later)
    ensures var f, sh := cfg.inputs[e].file, later.sh;
            && f in sh.meta && sh.meta[f].status == Failed && sh.meta[f].code == Some("STORAGE_ERROR")
            && Completion(e) in sh.outbox && Failure(e, 3, "STORAGE_ERROR", true) in sh.outbox
            && |sh.log| > 0
            && (var last := sh.log[|sh.log| - 1]; last.Committed? && last.event == e && last.write.status == Failed)
            && EverCompleted(sh.log[..|sh.log| - 1], e)
  {
    var scanned := CompletesAndScans(cfg, start, e, scan, at, stamp);
    var claim := ClaimFor(cfg, scanned.sh, e, 2);
    var leased := TakesLease(cfg, start, scanned, 2, e, 2, at, again);
    LogGrows(scanned.sh.log, leased.sh.log, e);
    var failing := FailsAgain(cfg, start, leased, 2, e, claim, stamp, again);
    assert |"STORAGE_ERROR"| <= 100 && Shorten("STORAGE_ERROR", 100) == "STORAGE_ERROR";
    later := Reports(cfg, start, failing, 2, e, claim, "storage call failed", "STORAGE_ERROR", true, Retryable, again);
    assert later.sh.log[..|later.sh.log| - 1] == leased.sh.log;
  }

  lemma CompletesAndScans(cfg: Config, start: System, e: EventId, scan: EventId, at: real, stamp: Stamp)
    returns (scanned: System)
    requires Init(cfg, start) && cfg.skew >= 0.0 && e in cfg.inputs && Processable(cfg, cfg.inputs[e])
    requires scan in cfg.inputs && cfg.inputs[scan].kind == FileScanned
             && cfg.inputs[scan].file == cfg.inputs[e].file
    ensures ReachableFrom(cfg, start, scanned) && scanned.workers.Keys == {0, 1} && scanned.sh.tokens == {0, 1}
    ensures CompletedFirst(cfg, scanned.sh, e, stamp) && Free(cfg, scanned.sh, e, at)
    ensures cfg.inputs[e].file in scanned.sh.meta && scanned.sh.meta[cfg.inputs[e].file].version == 2
    ensures forall v, code, retryable :: Failure(e, v, code, retryable) !in scanned.sh.outbox
  {
    var completed := Completes(cfg, start, e, at, stamp);
    scanned := HandlesScan(cfg, start, completed, 1, scan, 1, at, stamp);
    LogGrows(completed.sh.log, scanned.sh.log, e);
  }

  lemma LogGrows(log: seq<Entry>, more: seq<Entry>, e: EventId)
    requires log <= more && EverCompleted(log, e)
    ensures EverCompleted(more, e)
  {
    var place :| CompletedIn(log, e, place);
    var j :| 0 <= j < |log| && log[j].Committed? && log[j].event == e && log[j].write.status == Completed
             && log[j].write.location == place;
    assert more[j] == log[j];
    assert CompletedIn(more, e, place);
  }

  // --------------------------------------------------------- an empty message

  /** For every upload that passes the checks made on the event there is a run that ends its
      handling with the lease still on the row: the download raises an error without a
      message, and the report of the failure is dropped. */
  lemma LeaseLeftBehind(cfg: Config, start: System, e: EventId, token: Token, at: real, stamp: Stamp)
    returns (later: System)
    requires Init(cfg, start) && cfg.skew >= 0.0
    requires e in cfg.inputs && cfg.inputs[e].kind == FileUploaded && PreCheck(cfg, cfg.inputs[e]).None?
    ensures ReachableFrom(cfg, start, later) && 0 in later.workers
    ensures var claim := ClaimFor(cfg, start.sh, e, token);
            later.workers[0].pc == Done(Retryable, Some(claim))
            && Fenced(Row(later.sh, cfg.inputs[e].file), claim) && later.sh.outbox == map[]
  {
    ReachesItself(cfg, start);
    var claim := ClaimFor(cfg, start.sh, e, token);
    var leased := TakesLease(cfg, start, start, 0, e, token, at, stamp);
    var failing := Moves(cfg, start, leased, 0, e, Fetch(stamp, Refused(Unexpected(""))),
                         Turn(Nothing, FailWith(claim, Unexpected(""))));
    later := Moves(cfg, start, failing, 0, e, Diagnose(stamp), Turn(Nothing, Done(Retryable, Some(claim))));
  }
}
