/**
 What the processors promise, stated of every run: any number of workers, crashes
 at any point, takeovers, lost replies, refused calls and redelivered events.
 */
module ProcessorTheorems {
  import opened Options
  import opened Domain
  import opened LeaseStore
  import opened FileProcessor
  import opened ProcessorInvariant
  import opened ProcessorSteps
  import opened Fencing

  /** A COMPLETED row written for an upload has an outbox event with the same hash and
      location, and that event was inserted by a commit that named them. */
  lemma TablesAgree(cfg: Config, start: System, steps: seq<Step>, f: FileId, e: EventId)
    requires Init(cfg, start) && Run(cfg, start, steps).Some?
    requires e in cfg.inputs && cfg.inputs[e].kind == FileUploaded
    requires var sh := Run(cfg, start, steps).value.sh;
             f in sh.meta && sh.meta[f].status == Completed && sh.meta[f].last == Some(e)
    ensures var sh := Run(cfg, start, steps).value.sh;
            && Completion(e) in sh.outbox
            && sh.outbox[Completion(e)].location == sh.meta[f].location
            && sh.outbox[Completion(e)].body.Analysis?
            && sh.meta[f].hash == Some(sh.outbox[Completion(e)].body.hash)
            && sh.outbox[Completion(e)].file == cfg.inputs[e].file
            && CompletedIn(sh.log, e, sh.meta[f].location)
  {
    RunKeepsInv(cfg, start, steps);
    var sh := Run(cfg, start, steps).value.sh;
    assert Announced(cfg, sh, sh.meta[f]);
    assert OutboxRowOk(cfg, sh, Completion(e));
  }

  /** Every COMPLETED commit for an upload agrees with the one outbox event of that upload. */
  ghost predicate CompletionsAgree(cfg: Config, sh: Shared) {
    forall k | 0 <= k < |sh.log| && sh.log[k].Committed? && sh.log[k].write.status == Completed
               && sh.log[k].event in cfg.inputs && cfg.inputs[sh.log[k].event].kind == FileUploaded ::
      && Completion(sh.log[k].event) in sh.outbox
      && var p := sh.outbox[Completion(sh.log[k].event)];
         p.location == sh.log[k].write.location && p.body.Analysis? && sh.log[k].write.hash == Some(p.body.hash)
  }

  lemma EffectCompletionsAgree(cfg: Config, sh: Shared, eff: Effect)
    requires CompletionsAgree(cfg, sh) && GoodEffect(cfg, sh, eff)
    ensures CompletionsAgree(cfg, Apply(cfg, sh, eff))
  {
  }

  /** However often an upload is redelivered, retried or taken over, all COMPLETED rows
      ever written for it carry the hash and location its one outbox event announces. */
  lemma {:induction false} AllCompletionsAgree(cfg: Config, start: System, steps: seq<Step>)
    requires Init(cfg, start) && Run(cfg, start, steps).Some?
    ensures CompletionsAgree(cfg, Run(cfg, start, steps).value.sh)
  {
    if steps != [] {
      var n := |steps| - 1;
      AllCompletionsAgree(cfg, start, steps[..n]);
      RunKeepsInv(cfg, start, steps[..n]);
      var before := Run(cfg, start, steps[..n]).value;
      if steps[n].Work? {
        var wk := before.workers[steps[n].w];
        TurnGood(cfg, before.sh, wk, steps[n].act);
        EffectCompletionsAgree(cfg, before.sh,
                               TurnOf(cfg, before.sh, wk, cfg.inputs[wk.event], steps[n].act).value.effect);
      }
    }
  }

  /** When the handler returns for an upload or scan event, the row was COMPLETED for
      that event at some moment of this handling. */
  lemma ReturnedMeansDurable(cfg: Config, start: System, steps: seq<Step>, w: nat)
    requires Init(cfg, start) && Run(cfg, start, steps).Some?
    requires w in Run(cfg, start, steps).value.workers
    requires var wk := Run(cfg, start, steps).value.workers[w];
             wk.pc.Done? && wk.pc.outcome == Returned && wk.event in cfg.inputs && Actionable(cfg.inputs[wk.event])
    ensures var sys := Run(cfg, start, steps).value;
            var wk := sys.workers[w];
            exists k :: wk.since <= k <= |sys.sh.past| && cfg.inputs[wk.event].file in TableAt(sys.sh, k)
                        && TableAt(sys.sh, k)[cfg.inputs[wk.event].file].status == Completed
                        && TableAt(sys.sh, k)[cfg.inputs[wk.event].file].last == Some(wk.event)
  {
    RunKeepsInv(cfg, start, steps);
    var sys := Run(cfg, start, steps).value;
    assert WorkerOk(cfg, sys.sh, sys.workers[w]);
  }

  /** When the transactional save returns normally, by any of its paths, the outbox
      holds exactly the event it was given, and at some moment of the call the row had
      the record's status and, if the record marks an event, that event. */
  lemma SavePostcondition(cfg: Config, start: System, steps: seq<Step>, w: nat)
    requires Init(cfg, start) && Run(cfg, start, steps).Some?
    requires w in Run(cfg, start, steps).value.workers && Run(cfg, start, steps).value.workers[w].pc.Saved?
    ensures var sys := Run(cfg, start, steps).value;
            var job := sys.workers[w].pc.job;
            && job.out.id in sys.sh.outbox && sys.sh.outbox[job.out.id] == job.out
            && HeldSince(sys.sh, job.out.file, job.since, job.write)
  {
    RunKeepsInv(cfg, start, steps);
    var sys := Run(cfg, start, steps).value;
    assert WorkerOk(cfg, sys.sh, sys.workers[w]);
  }

  /** If no table call was lost or refused and no failure was without a message, a
      handler that ends does not leave its own lease on the row. */
  lemma NoLeakedLease(cfg: Config, start: System, steps: seq<Step>, w: nat)
    requires Init(cfg, start) && Run(cfg, start, steps).Some?
    requires w in Run(cfg, start, steps).value.workers
    requires var wk := Run(cfg, start, steps).value.workers[w];
             wk.pc.Done? && wk.pc.held.Some? && wk.clean && !wk.mute
    ensures Run(cfg, start, steps).value.workers[w].event in cfg.inputs
    ensures var sys := Run(cfg, start, steps).value;
            var wk := sys.workers[w];
            var f := cfg.inputs[wk.event].file;
            f in sys.sh.meta && sys.sh.meta[f].token != Some(wk.pc.held.value.token)
  {
    RunKeepsInv(cfg, start, steps);
    var sys := Run(cfg, start, steps).value;
    assert WorkerOk(cfg, sys.sh, sys.workers[w]);
  }

  /** The step that builds the failure record ends the handling, with the lease still on the
      row, exactly if the message is empty, and otherwise goes on to save. */
  lemma EmptyMessageKeepsLease(cfg: Config, start: System, steps: seq<Step>, w: nat, stamp: Stamp)
    requires Init(cfg, start) && Run(cfg, start, steps).Some?
    requires w in Run(cfg, start, steps).value.workers && Run(cfg, start, steps).value.workers[w].pc.Failing?
    requires var sys := Run(cfg, start, steps).value;
             var wk := sys.workers[w];
             wk.event in cfg.inputs && Fenced(Row(sys.sh, cfg.inputs[wk.event].file), wk.pc.claim)
    ensures StepOf(cfg, Run(cfg, start, steps).value, Work(w, Diagnose(stamp))).Some?
    ensures var sys := Run(cfg, start, steps).value;
            var wk := sys.workers[w];
            var sys' := StepOf(cfg, sys, Work(w, Diagnose(stamp))).value;
            var f := cfg.inputs[wk.event].file;
            && (sys'.workers[w].pc.Done? <==> wk.pc.message == "")
            && (sys'.workers[w].pc.Done? ==>
                  sys'.sh.meta[f].token == Some(wk.pc.claim.token) && sys'.workers[w].pc.held == Some(wk.pc.claim))
            && (!sys'.workers[w].pc.Done? ==>
                  sys'.workers[w].pc.Saving? && sys'.workers[w].pc.job.write.status == Failed)
  {
    RunKeepsInv(cfg, start, steps);
    var sys := Run(cfg, start, steps).value;
    assert WorkerOk(cfg, sys.sh, sys.workers[w]);
  }

  /** Field hygiene: a row being processed or completed carries no error, and a row
      holds a lease exactly while it is being processed. */
  lemma RowsAreClean(cfg: Config, start: System, steps: seq<Step>, f: FileId)
    requires Init(cfg, start) && Run(cfg, start, steps).Some?
    requires f in Run(cfg, start, steps).value.sh.meta
    ensures var m := Run(cfg, start, steps).value.sh.meta[f];
            && (m.status == Processing || m.status == Completed ==> m.message.None? && m.code.None?)
            && (m.status == Processing <==> m.token.Some?)
            && (m.token.Some? <==> m.expires.Some?) && (m.token.Some? <==> m.processing.Some?)
  {
    RunKeepsInv(cfg, start, steps);
    var sys := Run(cfg, start, steps).value;
    assert RowAgrees(cfg, sys.sh.log, f, sys.sh.meta[f]);
  }

  /** A commit stands until the file is claimed again: whatever the processor that made it,
      or an older one, does afterwards, cleanup and failure reports included, the row keeps
      the status, location and event of the commit. */
  lemma CommitStandsUntilClaimed(cfg: Config, start: System, steps: seq<Step>, i: nat)
    requires Init(cfg, start) && Run(cfg, start, steps).Some?
    requires var log := LogAfter(cfg, start, steps);
             i < |log| && log[i].Committed?
             && forall k | i < k < |log| && log[k].Granted? :: log[k].file != log[i].file
    ensures var sh := Run(cfg, start, steps).value.sh;
            var x := sh.log[i];
            && (forall k | i < k < |sh.log| :: !Concerns(sh.log[k], x.file))
            && x.file in sh.meta && sh.meta[x.file].status == x.write.status && sh.meta[x.file].token.None?
            && (x.write.last.Some? ==> sh.meta[x.file].last == x.write.last)
  {
    RunKeepsInv(cfg, start, steps);
    CommitIsLatest(cfg, Run(cfg, start, steps).value.sh, i);
  }

  lemma CommitIsLatest(cfg: Config, sh: Shared, i: nat)
    requires Consistent(cfg, sh) && i < |sh.log| && sh.log[i].Committed?
    requires forall k | i < k < |sh.log| && sh.log[k].Granted? :: sh.log[k].file != sh.log[i].file
    ensures var x := sh.log[i];
            && (forall k | i < k < |sh.log| :: !Concerns(sh.log[k], x.file))
            && x.file in sh.meta && sh.meta[x.file].status == x.write.status && sh.meta[x.file].token.None?
            && (x.write.last.Some? ==> sh.meta[x.file].last == x.write.last)
  {
    var f := sh.log[i].file;
    forall k | i < k < |sh.log| ensures !Concerns(sh.log[k], f) {
      if Concerns(sh.log[k], f) { var g := CommitNeedsGrant(cfg, sh.log, i, k); }
    }
    LatestIs(sh.log, f, i);
    assert f in sh.meta;
    assert RowAgrees(cfg, sh.log, f, sh.meta[f]);
    if sh.log[i].write.last.Some? { LastProcessedIs(sh.log, f, i); }
  }

  /** Between two commits of a file there is a grant, for the event of the later one. */
  lemma CommitNeedsGrant(cfg: Config, log: seq<Entry>, i: nat, k: nat) returns (g: nat)
    requires LogOk(cfg, log) && i < k < |log| && log[i].Committed? && log[k].Committed? && log[i].file == log[k].file
    ensures i < g < k && log[g].Granted? && log[g].file == log[i].file && log[g].event == log[k].event
  {
    assert EntryOk(cfg, log[..k], log[k]);
    g := LatestIndex(log[..k], log[k].file);
    assert log[..k][i] == log[i] && log[..k][g] == log[g];
  }

  /** `late` still has what was durable in `early`. */
  ghost predicate Endures(early: Shared, late: Shared) {
    && (forall id | id in early.outbox :: id in late.outbox && late.outbox[id] == early.outbox[id])
    && (forall f | f in early.meta :: f in late.meta && early.meta[f].version <= late.meta[f].version
          && (early.meta[f].created.Some? ==> late.meta[f].created == early.meta[f].created))
    && early.log <= late.log
  }

  /** Whatever is durable stays: rows and outbox events are never deleted, outbox events
      never change, and a creation time, once set, never changes. */
  lemma {:induction false} DurableStays(cfg: Config, start: System, steps: seq<Step>, n: nat)
    requires Init(cfg, start) && n <= |steps| && Run(cfg, start, steps).Some?
    ensures Run(cfg, start, steps[..n]).Some?
    ensures Endures(Run(cfg, start, steps[..n]).value.sh, Run(cfg, start, steps).value.sh)
  {
    if n == |steps| {
      assert steps[..n] == steps;
    } else {
      var m := |steps| - 1;
      assert steps[..m][..n] == steps[..n];
      DurableStays(cfg, start, steps[..m], n);
      RunKeepsInv(cfg, start, steps[..m]);
      var mid := Run(cfg, start, steps[..m]).value;
      StepKeepsInv(cfg, mid, steps[m]);
      LaterEndures(Run(cfg, start, steps[..n]).value.sh, mid.sh, Run(cfg, start, steps).value.sh);
    }
  }

  lemma LaterEndures(early: Shared, mid: Shared, late: Shared)
    requires Endures(early, mid) && Later(mid, late)
    ensures Endures(early, late)
  {
    assert mid.log <= late.log;
  }

  /**
   Every failure is of one of two kinds.  A worker that is about to report one will raise it
   as retryable exactly if it is a storage error or an unforeseen one; and while a report is
   saved, its event says so, and the record marks the input event exactly if it is final.
   */
  lemma FailuresAreClassified(cfg: Config, start: System, steps: seq<Step>, w: nat)
    requires Init(cfg, start) && Run(cfg, start, steps).Some? && w in Run(cfg, start, steps).value.workers
    ensures var pc := Run(cfg, start, steps).value.workers[w].pc;
            && (pc.Failing? ==>
                  && (pc.retryable <==> pc.code == "STORAGE_ERROR" || pc.code == "UNEXPECTED_ERROR")
                  && pc.outcome == if pc.retryable then Retryable else NonRetryable)
            && (pc.Saving? && pc.job.after.Report? ==>
                  && pc.job.out.id.Failure? && pc.job.out.body.Diagnostics?
                  && pc.job.out.body.retryable == pc.job.out.id.retryable
                  && pc.job.after.outcome == (if pc.job.out.id.retryable then Retryable else NonRetryable)
                  && pc.job.write.last == if pc.job.out.id.retryable then None
                                          else Some(Run(cfg, start, steps).value.workers[w].event))
  {
    RunKeepsInv(cfg, start, steps);
    var sys := Run(cfg, start, steps).value;
    assert WorkerOk(cfg, sys.sh, sys.workers[w]);
  }

  /** The entry marks this event as the last processed one of the file. */
  predicate MarksEvent(x: Entry, f: FileId, e: EventId) {
    x.Committed? && x.file == f && x.write.last == Some(e)
  }

  /** Another event of the file was marked after entry `i`. */
  ghost predicate Replaced(log: seq<Entry>, f: FileId, i: nat) {
    exists k :: i < k < |log| && log[k].Committed? && log[k].file == f && log[k].write.last.Some?
  }

  /**
   What any redelivery is told.  An event that was never marked for its file is not a
   duplicate.  Otherwise let entry `i` be the latest commit that marked it: if another
   event was marked since, it is no duplicate either, and is claimed and processed again;
   if nothing happened to the file since and the commit was COMPLETED, it is acknowledged;
   in all other cases it is rejected as not retryable.
   */
  lemma RedeliveryVerdict(cfg: Config, start: System, steps: seq<Step>, f: FileId, e: EventId)
    requires Init(cfg, start) && Run(cfg, start, steps).Some?
    ensures var sh := Run(cfg, start, steps).value.sh;
            var verdict := Duplicate(Row(sh, f), e);
            && ((forall k | 0 <= k < |sh.log| :: !MarksEvent(sh.log[k], f, e)) ==> verdict == None)
            && forall i | 0 <= i < |sh.log| && MarksEvent(sh.log[i], f, e)
                          && forall k | i < k < |sh.log| :: !MarksEvent(sh.log[k], f, e) ::
                 verdict == if Replaced(sh.log, f, i) then None
                            else if sh.log[i].write.status == Completed
                                    && forall k | i < k < |sh.log| :: !Concerns(sh.log[k], f) then Some(Returned)
                            else Some(NonRetryable)
  {
    RunKeepsInv(cfg, start, steps);
    CompletedMarks(cfg, start, steps);
    var sh := Run(cfg, start, steps).value.sh;
    if forall k | 0 <= k < |sh.log| :: !MarksEvent(sh.log[k], f, e) {
      NeverMarked(cfg, sh, f, e);
    }
    forall i | 0 <= i < |sh.log| && MarksEvent(sh.log[i], f, e)
               && forall k | i < k < |sh.log| :: !MarksEvent(sh.log[k], f, e)
      ensures Duplicate(Row(sh, f), e) ==
              if Replaced(sh.log, f, i) then None
              else if sh.log[i].write.status == Completed
                      && forall k | i < k < |sh.log| :: !Concerns(sh.log[k], f) then Some(Returned)
              else Some(NonRetryable)
    {
      if Replaced(sh.log, f, i) {
        VerdictReplaced(cfg, sh, f, e, i);
      } else {
        VerdictStanding(cfg, sh, f, e, i);
      }
    }
  }

  lemma {:induction false} LastProcessedIndex(log: seq<Entry>, f: FileId) returns (m: nat)
    requires LastProcessed(log, f).Some?
    ensures m < |log| && log[m].Committed? && log[m].file == f && log[m].write.last == LastProcessed(log, f)
    ensures forall k | m < k < |log| && log[k].Committed? && log[k].file == f :: log[k].write.last.None?
  {
    var n := |log| - 1;
    if log[n].Committed? && log[n].file == f && log[n].write.last.Some? {
      m := n;
    } else {
      m := LastProcessedIndex(log[..n], f);
      assert forall k | 0 <= k < n :: log[..n][k] == log[k];
    }
  }

  lemma NeverMarked(cfg: Config, sh: Shared, f: FileId, e: EventId)
    requires Consistent(cfg, sh) && forall k | 0 <= k < |sh.log| :: !MarksEvent(sh.log[k], f, e)
    ensures Duplicate(Row(sh, f), e) == None
  {
    if f in sh.meta {
      assert RowAgrees(cfg, sh.log, f, sh.meta[f]);
      if sh.meta[f].last.Some? {
        var m := LastProcessedIndex(sh.log, f);
        assert !MarksEvent(sh.log[m], f, e);
      }
    }
  }

  lemma VerdictReplaced(cfg: Config, sh: Shared, f: FileId, e: EventId, i: nat)
    requires Consistent(cfg, sh) && i < |sh.log| && Replaced(sh.log, f, i)
    requires forall k | i < k < |sh.log| :: !MarksEvent(sh.log[k], f, e)
    ensures Duplicate(Row(sh, f), e) == None
  {
    if f in sh.meta {
      assert RowAgrees(cfg, sh.log, f, sh.meta[f]);
      if sh.meta[f].last.Some? {
        var m := LastProcessedIndex(sh.log, f);
        var k :| i < k < |sh.log| && sh.log[k].Committed? && sh.log[k].file == f && sh.log[k].write.last.Some?;
        assert k <= m;
        assert !MarksEvent(sh.log[m], f, e);
      }
    }
  }

  lemma VerdictStanding(cfg: Config, sh: Shared, f: FileId, e: EventId, i: nat)
    requires Consistent(cfg, sh) && Marks(sh.log)
    requires i < |sh.log| && MarksEvent(sh.log[i], f, e) && !Replaced(sh.log, f, i)
    ensures Duplicate(Row(sh, f), e) ==
            if sh.log[i].write.status == Completed && forall k | i < k < |sh.log| :: !Concerns(sh.log[k], f)
            then Some(Returned) else Some(NonRetryable)
  {
    assert forall k | i < k < |sh.log| && sh.log[k].Committed? && sh.log[k].file == f :: sh.log[k].write.last.None?;
    LastProcessedIs(sh.log, f, i);
    assert f in sh.meta;
    assert RowAgrees(cfg, sh.log, f, sh.meta[f]);
    if forall k | i < k < |sh.log| :: !Concerns(sh.log[k], f) {
      LatestIs(sh.log, f, i);
    } else {
      NotLatest(sh.log, f, i);
      var l := LatestIndex(sh.log, f);
      assert l > i;
    }
  }

  /** A FAILED commit for an event that was COMPLETED before comes only after another event
      of the file was marked in between. */
  lemma FailedAfterCompleted(cfg: Config, start: System, steps: seq<Step>, i: nat, j: nat)
    requires Init(cfg, start) && Run(cfg, start, steps).Some?
    requires i < j < |LogAfter(cfg, start, steps)|
    requires LogAfter(cfg, start, steps)[i].Committed? && LogAfter(cfg, start, steps)[i].write.status == Completed
    requires LogAfter(cfg, start, steps)[j].Committed? && LogAfter(cfg, start, steps)[j].write.status == Failed
    requires LogAfter(cfg, start, steps)[i].file == LogAfter(cfg, start, steps)[j].file
    requires LogAfter(cfg, start, steps)[i].event == LogAfter(cfg, start, steps)[j].event
    ensures var log := LogAfter(cfg, start, steps);
            exists k :: i < k < j && log[k].Committed? && log[k].file == log[j].file
                        && log[k].write.last.Some? && log[k].write.last != Some(log[j].event)
  {
    RunKeepsInv(cfg, start, steps);
    CompletedMarks(cfg, start, steps);
    var g := CommitNeedsGrant(cfg, LogAfter(cfg, start, steps), i, j);
    ProcessedIsNotReclaimed(cfg, start, steps, i, g);
  }

  lemma {:induction false} NotLatest(log: seq<Entry>, f: FileId, i: nat)
    requires i < |log| && Concerns(log[i], f)
    ensures Latest(log, f).Some?
  {
    if !Concerns(log[|log| - 1], f) {
      NotLatest(log[..|log| - 1], f, i);
    }
  }

  /** A COMPLETED commit always marks its event. */
  ghost predicate Marks(log: seq<Entry>) {
    forall k | 0 <= k < |log| && log[k].Committed?
        && log[k].write.status == Completed :: log[k].write.last == Some(log[k].event)
  }

  lemma {:induction false} CompletedMarks(cfg: Config, start: System, steps: seq<Step>)
    requires Init(cfg, start) && Run(cfg, start, steps).Some?
    ensures Marks(LogAfter(cfg, start, steps))
  {
    if steps != [] {
      var n := |steps| - 1;
      CompletedMarks(cfg, start, steps[..n]);
      RunKeepsInv(cfg, start, steps[..n]);
      var before := Run(cfg, start, steps[..n]).value;
      if steps[n].Work? {
        TurnGood(cfg, before.sh, before.workers[steps[n].w], steps[n].act);
      }
    }
  }
}
