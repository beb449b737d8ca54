/**
 When an event can fail.  The duplicate check looks at the one event the row
 remembers; so an event fails next, finished or not, exactly when the row remembers
 another.
 */
module Redelivery {
  import opened Options
  import opened Domain
  import opened LeaseStore
  import opened FileProcessor
  import opened ProcessorInvariant
  import opened ProcessorSteps
  import opened Fencing
  import opened SoloRuns
  import opened Boundaries

  /** The entry is a FAILED commit of the event. */
  predicate FailedCommit(x: Entry, f: FileId, e: EventId) {
    x.Committed? && x.file == f && x.event == e && x.write.status == Failed
  }

  predicate CommitOfFile(x: Entry, f: FileId) {
    x.Committed? && x.file == f
  }

  /** After the first `n` entries the next commit of the file is a FAILED one of the event. */
  ghost predicate NextCommitFails(log: seq<Entry>, n: nat, f: FileId, e: EventId) {
    exists k :: n <= k < |log| && FailedCommit(log[k], f, e) && forall m | n <= m < k :: !CommitOfFile(log[m], f)
  }

  /** Some continuation has a FAILED commit of the event as the next commit of its file. */
  ghost predicate CanFailNext(cfg: Config, sys: System, e: EventId)
    requires e in cfg.inputs
  {
    exists later :: ReachableFrom(cfg, sys, later)
                    && NextCommitFails(later.sh.log, |sys.sh.log|, cfg.inputs[e].file, e)
  }

  /** The row does not remember the event as the last processed one. */
  predicate Forgotten(cfg: Config, sh: Shared, e: EventId)
    requires e in cfg.inputs
  {
    cfg.inputs[e].file in sh.meta ==> sh.meta[cfg.inputs[e].file].last != Some(e)
  }

  // ------------------------------------------------------------------- it can

  lemma {:induction false} UnusedNumber(numbers: set<nat>) returns (n: nat)
    ensures n !in numbers && forall k | k in numbers :: k < n
    decreases |numbers|
  {
    if numbers == {} {
      n := 0;
    } else {
      var k :| k in numbers;
      var rest := UnusedNumber(numbers - {k});
      n := if rest <= k then k + 1 else rest;
      assert forall j | j in numbers :: j == k || j in numbers - {k};
    }
  }

  /** No failure was announced yet under the next lease. */
  lemma NextLeaseIsFresh(cfg: Config, sh: Shared, e: EventId, token: Token)
    requires OutboxOk(cfg, sh) && e in cfg.inputs
    ensures forall code, retryable ::
              Failure(e, ClaimFor(cfg, sh, e, token).version, code, retryable) !in sh.outbox
  {
    forall code, retryable
      ensures Failure(e, ClaimFor(cfg, sh, e, token).version, code, retryable) !in sh.outbox
    {
      var id := Failure(e, ClaimFor(cfg, sh, e, token).version, code, retryable);
      assert id in sh.outbox ==> OutboxRowOk(cfg, sh, id);
    }
  }

  /** A time at which the lease of the row, if it has one, is over. */
  lemma SomeTimeFree(cfg: Config, sh: Shared, e: EventId) returns (at: real)
    requires Consistent(cfg, sh) && e in cfg.inputs && Forgotten(cfg, sh, e)
    ensures Free(cfg, sh, e, at)
  {
    at := 0.0;
    var f := cfg.inputs[e].file;
    if f in sh.meta && sh.meta[f].token.Some? {
      assert RowAgrees(cfg, sh.log, f, sh.meta[f]);
      at := sh.meta[f].expires.value as real;
    }
  }

  /** A new delivery of a forgotten event gets the lease. */
  lemma LeasesNext(cfg: Config, sys: System, e: EventId) returns (later: System, w: nat, claim: Claim)
    requires Inv(cfg, sys) && cfg.skew >= 0.0
    requires e in cfg.inputs && Actionable(cfg.inputs[e]) && Forgotten(cfg, sys.sh, e)
    ensures ReachableFrom(cfg, sys, later) && Stands(later, w, e, AfterClaim(cfg, e, claim, 0))
    ensures Fenced(Row(later.sh, cfg.inputs[e].file), claim) && claim.event == e
    ensures |later.sh.log| == |sys.sh.log| + 1 && !later.sh.log[|sys.sh.log|].Committed?
    ensures later.sh.outbox == sys.sh.outbox && later.sh.objects == sys.sh.objects
    ensures forall code, retryable :: Failure(e, claim.version, code, retryable) !in later.sh.outbox
  {
    ReachesItself(cfg, sys);
    w := UnusedNumber(sys.workers.Keys);
    var token := UnusedNumber(sys.sh.tokens);
    var at := SomeTimeFree(cfg, sys.sh, e);
    claim := ClaimFor(cfg, sys.sh, e, token);
    NextLeaseIsFresh(cfg, sys.sh, e, token);
    later := TakesLease(cfg, sys, sys, w, e, token, at, 0);
  }

  /** The failure is reported: it is the next commit of the file. */
  lemma ReportsNext(cfg: Config, sys: System, failing: System, w: nat, e: EventId, pc: Pc, stamp: Stamp)
    returns (later: System)
    requires ReachableFrom(cfg, sys, failing) && e in cfg.inputs && pc.Failing? && Stands(failing, w, e, pc)
    requires pc.message != "" && pc.code != "" && Fenced(Row(failing.sh, cfg.inputs[e].file), pc.claim)
    requires pc.claim.event == e
    requires forall code, retryable :: Failure(e, pc.claim.version, code, retryable) !in failing.sh.outbox
    requires |failing.sh.log| == |sys.sh.log| + 1 && !failing.sh.log[|sys.sh.log|].Committed?
    ensures ReachableFrom(cfg, sys, later)
    ensures NextCommitFails(later.sh.log, |sys.sh.log|, cfg.inputs[e].file, e)
    ensures failing.sh.outbox.Keys <= later.sh.outbox.Keys
    ensures cfg.inputs[e].file in later.sh.meta && later.sh.meta[cfg.inputs[e].file].status == Failed
  {
    later := Reports(cfg, sys, failing, w, e, pc.claim, pc.message, pc.code, pc.retryable, pc.outcome, stamp);
    var n := |sys.sh.log|;
    assert FailedCommit(later.sh.log[n + 1], cfg.inputs[e].file, e);
    assert later.sh.log[n] == failing.sh.log[n];
  }

  /** The first call under the lease is refused, or the event is rejected. */
  lemma RefusedFirst(cfg: Config, sys: System, leased: System, w: nat, e: EventId, claim: Claim)
    returns (later: System, pc: Pc)
    requires ReachableFrom(cfg, sys, leased) && e in cfg.inputs && Actionable(cfg.inputs[e])
    requires Stands(leased, w, e, AfterClaim(cfg, e, claim, 0))
    ensures ReachableFrom(cfg, sys, later) && Stands(later, w, e, pc) && later.sh == leased.sh
    ensures pc.Failing? && pc.claim == claim && pc.message != "" && pc.code != ""
  {
    var ev := cfg.inputs[e];
    if ev.kind == FileScanned {
      pc := FailWith(claim, StorageFault);
      later := Moves(cfg, sys, leased, w, e, SaveScan(Refused(StorageFault)), Turn(Nothing, pc));
    } else if PreCheck(cfg, ev).None? {
      pc := FailWith(claim, StorageFault);
      later := Moves(cfg, sys, leased, w, e, Fetch(0, Refused(StorageFault)), Turn(Nothing, pc));
    } else {
      pc := Reject(claim, PreCheck(cfg, ev).value);
      later := Moves(cfg, sys, leased, w, e, Fetch(0, Heard), Turn(Nothing, pc));
    }
  }

  lemma FailsNext(cfg: Config, sys: System, e: EventId)
    requires Inv(cfg, sys) && cfg.skew >= 0.0
    requires e in cfg.inputs && Actionable(cfg.inputs[e]) && Forgotten(cfg, sys.sh, e)
    ensures CanFailNext(cfg, sys, e)
  {
    var leased, w, claim := LeasesNext(cfg, sys, e);
    var failing, pc := RefusedFirst(cfg, sys, leased, w, e, claim);
    var later := ReportsNext(cfg, sys, failing, w, e, pc, 0);
  }

  // --------------------------------------------------------------- it cannot

  /** Where no commit of the file lies between, the same event is remembered. */
  lemma {:induction false} SameLastProcessed(log: seq<Entry>, f: FileId, a: nat, b: nat)
    requires a <= b <= |log| && forall m | a <= m < b :: !CommitOfFile(log[m], f)
    ensures LastProcessed(log[..b], f) == LastProcessed(log[..a], f)
  {
    if a < b {
      SameLastProcessed(log, f, a, b - 1);
      assert log[..b] == log[..b - 1] + [log[b - 1]];
      Append(log[..b - 1], log[b - 1], f);
    }
  }

  /** A commit that is the next after the first `n` entries is not one of the event that is
      remembered there. */
  lemma RememberedIsNotNext(cfg: Config, log: seq<Entry>, n: nat, k: nat, f: FileId, e: EventId)
    requires LogOk(cfg, log) && n <= k < |log| && FailedCommit(log[k], f, e)
    requires forall m | n <= m < k :: !CommitOfFile(log[m], f)
    ensures LastProcessed(log[..n], f) != Some(e)
  {
    assert EntryOk(cfg, log[..k], log[k]);
    var g := LatestIndex(log[..k], f);
    assert log[g] == log[..k][g] && forall m | g < m < k :: log[m] == log[..k][m];
    assert EntryOk(cfg, log[..g], log[g]);
    if g < n {
      SameLastProcessed(log, f, g, n);
    } else {
      SameLastProcessed(log, f, n, g);
    }
  }

  /**
   In every reachable state, whatever was finished before: the next commit of a file can be
   a FAILED one of an event if and only if the row does not remember that event.
   */
  lemma CanFailNextIffForgotten(cfg: Config, start: System, steps: seq<Step>, e: EventId)
    requires Init(cfg, start) && cfg.skew >= 0.0 && Run(cfg, start, steps).Some?
    requires e in cfg.inputs && Actionable(cfg.inputs[e])
    ensures var sys := Run(cfg, start, steps).value;
            CanFailNext(cfg, sys, e) <==> Forgotten(cfg, sys.sh, e)
  {
    RunKeepsInv(cfg, start, steps);
    var sys := Run(cfg, start, steps).value;
    if Forgotten(cfg, sys.sh, e) {
      FailsNext(cfg, sys, e);
    } else {
      forall later | ReachableFrom(cfg, sys, later)
        ensures !NextCommitFails(later.sh.log, |sys.sh.log|, cfg.inputs[e].file, e)
      {
        RememberedDoesNotFail(cfg, start, sys, later, steps, e);
      }
    }
  }

  lemma RememberedDoesNotFail(cfg: Config, start: System, sys: System, later: System, steps: seq<Step>, e: EventId)
    requires Init(cfg, start) && Run(cfg, start, steps) == Some(sys) && ReachableFrom(cfg, sys, later)
    requires e in cfg.inputs && !Forgotten(cfg, sys.sh, e) && Inv(cfg, sys)
    ensures !NextCommitFails(later.sh.log, |sys.sh.log|, cfg.inputs[e].file, e)
  {
    var f := cfg.inputs[e].file;
    var more :| Run(cfg, sys, more) == Some(later);
    MoreKeepsInv(cfg, sys, more);
    assert RowAgrees(cfg, sys.sh.log, f, sys.sh.meta[f]);
    var log, n := later.sh.log, |sys.sh.log|;
    assert log[..n] == sys.sh.log;
    forall k | n <= k < |log| && FailedCommit(log[k], f, e) ensures exists m :: n <= m < k && CommitOfFile(log[m], f) {
      if forall m | n <= m < k :: !CommitOfFile(log[m], f) {
        RememberedIsNotNext(cfg, log, n, k, f, e);
      }
    }
  }

  /** The invariant holds ever after, and the log only grows. */
  lemma {:induction false} MoreKeepsInv(cfg: Config, sys: System, more: seq<Step>)
    requires Inv(cfg, sys) && Run(cfg, sys, more).Some?
    ensures Inv(cfg, Run(cfg, sys, more).value) && sys.sh.log <= Run(cfg, sys, more).value.sh.log
  {
    if more != [] {
      var n := |more| - 1;
      MoreKeepsInv(cfg, sys, more[..n]);
      StepKeepsInv(cfg, Run(cfg, sys, more[..n]).value, more[n]);
    }
  }

  // -------------------------------------------------- a finished upload, redelivered

  /** Redelivered with another stamp, a completed upload is flawed now, or its save is
      cancelled: every call is heard, and it comes to report a failure. */
  lemma ComesToFail(cfg: Config, sys: System, leased: System, w: nat, e: EventId, claim: Claim, again: Stamp)
    returns (later: System, pc: Pc)
    requires ReachableFrom(cfg, sys, leased) && e in cfg.inputs && cfg.inputs[e].kind == FileUploaded
    requires Stands(leased, w, e, Downloading(claim))
    requires Completion(e) in leased.sh.outbox && leased.sh.outbox[Completion(e)].stamp != again
    ensures ReachableFrom(cfg, sys, later) && Stands(later, w, e, pc)
    ensures later.sh == leased.sh.(objects := later.sh.objects)
    ensures pc.Failing? && pc.claim == claim && pc.message != "" && pc.code != ""
  {
    var ev := cfg.inputs[e];
    pc := FailWith(claim, StorageFault);
    if PreCheck(cfg, ev).Some? {
      pc := Reject(claim, PreCheck(cfg, ev).value);
      later := Moves(cfg, sys, leased, w, e, Fetch(again, Heard), Turn(Nothing, pc));
    } else if ev.location !in leased.sh.objects {
      later := Moves(cfg, sys, leased, w, e, Fetch(again, Heard), Turn(Nothing, pc));
    } else if PostCheck(cfg, ev, leased.sh.objects[ev.location]).Some? {
      pc := Reject(claim, PostCheck(cfg, ev, leased.sh.objects[ev.location]).value);
      later := Moves(cfg, sys, leased, w, e, Fetch(again, Heard), Turn(Nothing, pc));
    } else {
      var denied := Denied(leased.sh.objects[ev.location].data);
      var job := CompletionJob(cfg, e, ev, claim, denied, again, |leased.sh.past|);
      var saving := ComesToSave(cfg, sys, leased, w, e, claim, again, denied);
      later := Cancelled(cfg, sys, saving, w, e, job);
    }
  }

  lemma ComesToSave(cfg: Config, sys: System, leased: System, w: nat, e: EventId, claim: Claim, again: Stamp,
                    denied: bool)
    returns (later: System)
    requires ReachableFrom(cfg, sys, leased) && e in cfg.inputs && Stands(leased, w, e, Downloading(claim))
    requires cfg.inputs[e].location in leased.sh.objects
    requires Accepts(cfg, cfg.inputs[e], leased.sh.objects[cfg.inputs[e].location])
    requires denied == Denied(leased.sh.objects[cfg.inputs[e].location].data)
    ensures ReachableFrom(cfg, sys, later) && later.sh == leased.sh.(objects := later.sh.objects)
    ensures Stands(later, w, e, Saving(CompletionJob(cfg, e, cfg.inputs[e], claim, denied, again,
                                                     |leased.sh.past|), false))
  {
    var job := CompletionJob(cfg, e, cfg.inputs[e], claim, denied, again, |leased.sh.past|);
    if denied {
      var copying := Moves(cfg, sys, leased, w, e, Fetch(again, Heard), Turn(Nothing, Copying(claim)));
      later := Moves(cfg, sys, copying, w, e, CopyObject(again, Heard),
                     Turn(CopyOf(cfg, cfg.inputs[e]), Saving(job, false)));
    } else {
      later := Moves(cfg, sys, leased, w, e, Fetch(again, Heard), Turn(Nothing, Saving(job, false)));
    }
  }

  /**
   From every reachable state in which an upload has been completed and is forgotten, by
   whatever other event of its file: redelivered with another stamp it fails, in a run whose
   calls are all heard, and its completion is in the outbox.
   */
  lemma RedeliveryFails(cfg: Config, start: System, steps: seq<Step>, e: EventId, again: Stamp) returns (later: System)
    requires Init(cfg, start) && cfg.skew >= 0.0 && Run(cfg, start, steps).Some?
    requires var sh := Run(cfg, start, steps).value.sh;
             Completion(e) in sh.outbox && sh.outbox[Completion(e)].stamp != again
             && e in cfg.inputs && Forgotten(cfg, sh, e)
    ensures var sys := Run(cfg, start, steps).value;
            && ReachableFrom(cfg, sys, later)
            && NextCommitFails(later.sh.log, |sys.sh.log|, cfg.inputs[e].file, e)
            && cfg.inputs[e].file in later.sh.meta && later.sh.meta[cfg.inputs[e].file].status == Failed
            && Completion(e) in later.sh.outbox
  {
    RunKeepsInv(cfg, start, steps);
    var sys := Run(cfg, start, steps).value;
    assert OutboxRowOk(cfg, sys.sh, Completion(e));
    later := RedeliveredFrom(cfg, sys, e, again);
  }

  lemma RedeliveredFrom(cfg: Config, sys: System, e: EventId, again: Stamp) returns (later: System)
    requires Inv(cfg, sys) && cfg.skew >= 0.0
    requires e in cfg.inputs && cfg.inputs[e].kind == FileUploaded && Forgotten(cfg, sys.sh, e)
    requires Completion(e) in sys.sh.outbox && sys.sh.outbox[Completion(e)].stamp != again
    ensures ReachableFrom(cfg, sys, later)
    ensures NextCommitFails(later.sh.log, |sys.sh.log|, cfg.inputs[e].file, e)
    ensures cfg.inputs[e].file in later.sh.meta && later.sh.meta[cfg.inputs[e].file].status == Failed
    ensures Completion(e) in later.sh.outbox
  {
    var leased, w, claim := LeasesNext(cfg, sys, e);
    var failing, pc := ComesToFail(cfg, sys, leased, w, e, claim, again);
    later := ReportsNext(cfg, sys, failing, w, e, pc, again);
  }
}
