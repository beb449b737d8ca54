/**
 What the log of a run looks like: versions, commits, duplicates, timing.  The
 lemmas read it off `LogOk`; the theorems at the end state it of every run.
 */
module Fencing {
  import opened Options
  import opened Domain
  import opened LeaseStore
  import opened FileProcessor
  import opened ProcessorInvariant
  import opened ProcessorSteps

  /** An entry about the file is no newer than the file's version. */
  lemma {:induction false} VersionCovers(cfg: Config, log: seq<Entry>, f: FileId, i: nat)
    requires LogOk(cfg, log) && i < |log| && Concerns(log[i], f)
    ensures log[i].version <= Version(log, f)
    ensures log[i].Committed? && Latest(log, f).Some? && Latest(log, f).value.Granted? ==>
              log[i].version < Version(log, f)
  {
    var before := log[..|log| - 1];
    assert EntryOk(cfg, before, log[|log| - 1]);
    assert LogOk(cfg, before) by {
      forall j | 0 <= j < |before| ensures EntryOk(cfg, before[..j], before[j]) {
        assert before[..j] == log[..j];
      }
    }
    if i < |log| - 1 {
      assert before[i] == log[i];
      VersionCovers(cfg, before, f, i);
    }
  }

  lemma PrefixOk(cfg: Config, log: seq<Entry>, n: nat)
    requires LogOk(cfg, log) && n <= |log|
    ensures LogOk(cfg, log[..n])
  {
    forall j | 0 <= j < n ensures EntryOk(cfg, log[..n][..j], log[..n][j]) {
      assert log[..n][..j] == log[..j];
    }
  }

  lemma {:induction false} LatestIndex(log: seq<Entry>, f: FileId) returns (i: nat)
    requires Latest(log, f).Some?
    ensures i < |log| && Concerns(log[i], f) && log[i] == Latest(log, f).value
    ensures forall k | i < k < |log| :: !Concerns(log[k], f)
  {
    if Concerns(log[|log| - 1], f) {
      i := |log| - 1;
    } else {
      i := LatestIndex(log[..|log| - 1], f);
    }
  }

  lemma {:induction false} LatestIs(log: seq<Entry>, f: FileId, i: nat)
    requires i < |log| && Concerns(log[i], f) && forall k | i < k < |log| :: !Concerns(log[k], f)
    ensures Latest(log, f) == Some(log[i])
  {
    if i < |log| - 1 {
      LatestIs(log[..|log| - 1], f, i);
    }
  }

  /** The last marking commit decides which event is last processed. */
  lemma {:induction false} LastProcessedIs(log: seq<Entry>, f: FileId, i: nat)
    requires i < |log| && log[i].Committed? && log[i].file == f && log[i].write.last.Some?
    requires forall k | i < k < |log| && log[k].Committed? && log[k].file == f && log[k].write.last.Some? ::
               log[k].write.last == log[i].write.last
    ensures LastProcessed(log, f) == log[i].write.last
  {
    var n := |log| - 1;
    if !(log[n].Committed? && log[n].file == f && log[n].write.last.Some?) {
      assert forall k | 0 <= k < n :: log[..n][k] == log[k];
      LastProcessedIs(log[..n], f, i);
    }
  }

  // ----------------------------------------------------------------- theorems

  /** The log of a run. */
  ghost function LogAfter(cfg: Config, start: System, steps: seq<Step>): seq<Entry>
    requires Run(cfg, start, steps).Some?
  {
    Run(cfg, start, steps).value.sh.log
  }

  /**
   Fencing.  Every commit ends the lease granted just before it for that file and
   event; commit versions strictly increase, so a lease has at most one commit;
   and no commit of an older version lands once a newer lease is granted.
   */
  lemma CommitsAreFenced(cfg: Config, start: System, steps: seq<Step>, i: nat, j: nat)
    requires Init(cfg, start) && Run(cfg, start, steps).Some?
    requires i < j < |LogAfter(cfg, start, steps)|
    requires LogAfter(cfg, start, steps)[j].Committed?
    requires Concerns(LogAfter(cfg, start, steps)[i], LogAfter(cfg, start, steps)[j].file)
    ensures var log := LogAfter(cfg, start, steps);
            && (log[i].Committed? ==> log[i].version < log[j].version)
            && (log[i].Granted? ==> log[i].version <= log[j].version)
            && exists g :: i <= g < j && log[g].Granted? && log[g].file == log[j].file
                           && log[g].version == log[j].version && log[g].event == log[j].event
                           && forall k | g < k < j :: !Concerns(log[k], log[j].file)
  {
    RunKeepsInv(cfg, start, steps);
    var log := LogAfter(cfg, start, steps);
    var f := log[j].file;
    PrefixOk(cfg, log, j);
    assert EntryOk(cfg, log[..j], log[j]);
    VersionCovers(cfg, log[..j], f, i);
    var g := LatestIndex(log[..j], f);
    assert forall k | g < k < j :: log[..j][k] == log[k];
    assert log[..j][i] == log[i];
    assert i <= g;
    assert log[g] == log[..j][g];
  }

  /** Versions count the leases of a file one by one. */
  lemma GrantsCountUp(cfg: Config, start: System, steps: seq<Step>, i: nat, j: nat)
    requires Init(cfg, start) && Run(cfg, start, steps).Some?
    requires i < j < |LogAfter(cfg, start, steps)|
    requires LogAfter(cfg, start, steps)[j].Granted?
    requires Concerns(LogAfter(cfg, start, steps)[i], LogAfter(cfg, start, steps)[j].file)
    ensures var log := LogAfter(cfg, start, steps);
            && log[i].version < log[j].version
            && (log[i].Granted? ==> log[i].token != log[j].token)
            && ((forall k | i < k < j :: !Concerns(log[k], log[j].file)) ==> log[j].version == log[i].version + 1)
  {
    RunKeepsInv(cfg, start, steps);
    var log := LogAfter(cfg, start, steps);
    PrefixOk(cfg, log, j);
    assert EntryOk(cfg, log[..j], log[j]);
    assert log[..j][i] == log[i];
    VersionCovers(cfg, log[..j], log[j].file, i);
    if forall k | i < k < j :: !Concerns(log[k], log[j].file) {
      assert forall k | i < k < j :: log[..j][k] == log[k];
      LatestIs(log[..j], log[j].file, i);
    }
  }

  /** Between two leases of a file with no commit in between lies more than the lease
      less one second, and less what two clocks can be off.  The moments compared are
      those at which the claiming workers read their clocks. */
  lemma LeasesAreApart(cfg: Config, start: System, steps: seq<Step>, i: nat, j: nat)
    requires Init(cfg, start) && Run(cfg, start, steps).Some?
    requires i < j < |LogAfter(cfg, start, steps)|
    requires LogAfter(cfg, start, steps)[i].Granted? && LogAfter(cfg, start, steps)[j].Granted?
    requires LogAfter(cfg, start, steps)[i].file == LogAfter(cfg, start, steps)[j].file
    requires forall k | i < k < j :: !Concerns(LogAfter(cfg, start, steps)[k], LogAfter(cfg, start, steps)[j].file)
    ensures var log := LogAfter(cfg, start, steps);
            log[j].at - log[i].at > cfg.lease as real - 1.0 - 2.0 * cfg.skew
  {
    RunKeepsInv(cfg, start, steps);
    var log := LogAfter(cfg, start, steps);
    assert EntryOk(cfg, log[..j], log[j]);
    assert forall k | i <= k < j :: log[..j][k] == log[k];
    LatestIs(log[..j], log[j].file, i);
  }

  /** A lease ends on time: at every clock reading from its lifetime after the grant on, plus
      what a clock can be off, the file can be claimed for every event but the last processed. */
  lemma LeasesEnd(cfg: Config, start: System, steps: seq<Step>, f: FileId)
    requires Init(cfg, start) && Run(cfg, start, steps).Some?
    requires f in Run(cfg, start, steps).value.sh.meta && Run(cfg, start, steps).value.sh.meta[f].token.Some?
    ensures var sh := Run(cfg, start, steps).value.sh;
            exists i :: 0 <= i < |sh.log| && sh.log[i].Granted? && sh.log[i].file == f
              && (forall k | i < k < |sh.log| :: !Concerns(sh.log[k], f))
              && forall e, now: int | now as real >= sh.log[i].at + cfg.skew + cfg.lease as real
                                      && sh.meta[f].last != Some(e) :: CanClaim(Some(sh.meta[f]), e, now)
  {
    RunKeepsInv(cfg, start, steps);
    var sh := Run(cfg, start, steps).value.sh;
    assert RowAgrees(cfg, sh.log, f, sh.meta[f]);
    var i := LatestIndex(sh.log, f);
    assert sh.log[i].Granted?;
  }

  /** Once an event is last processed, it is not claimed again before another event
      is marked as processed for the file. */
  lemma ProcessedIsNotReclaimed(cfg: Config, start: System, steps: seq<Step>, i: nat, j: nat)
    requires Init(cfg, start) && Run(cfg, start, steps).Some?
    requires i < j < |LogAfter(cfg, start, steps)|
    requires LogAfter(cfg, start, steps)[i].Committed? && LogAfter(cfg, start, steps)[i].write.last.Some?
    requires LogAfter(cfg, start, steps)[j].Granted?
    requires LogAfter(cfg, start, steps)[i].file == LogAfter(cfg, start, steps)[j].file
    requires LogAfter(cfg, start, steps)[i].write.last == Some(LogAfter(cfg, start, steps)[j].event)
    ensures var log := LogAfter(cfg, start, steps);
            exists k :: i < k < j && log[k].Committed? && log[k].file == log[j].file
                        && log[k].write.last.Some? && log[k].write.last != Some(log[j].event)
  {
    RunKeepsInv(cfg, start, steps);
    var log := LogAfter(cfg, start, steps);
    assert EntryOk(cfg, log[..j], log[j]);
    if forall k | i < k < j && log[k].Committed? && log[k].file == log[j].file && log[k].write.last.Some? ::
         log[k].write.last == log[i].write.last {
      assert forall k | i <= k < j :: log[..j][k] == log[k];
      LastProcessedIs(log[..j], log[j].file, i);
    }
  }

  /** No outbox row is inserted twice, whatever is retried or redelivered. */
  lemma InsertedOnce(cfg: Config, start: System, steps: seq<Step>, i: nat, j: nat)
    requires Init(cfg, start) && Run(cfg, start, steps).Some?
    requires i < j < |LogAfter(cfg, start, steps)|
    requires LogAfter(cfg, start, steps)[i].Committed? && LogAfter(cfg, start, steps)[j].Committed?
    requires LogAfter(cfg, start, steps)[j].inserted.Some?
    ensures LogAfter(cfg, start, steps)[i].inserted != LogAfter(cfg, start, steps)[j].inserted
  {
    RunKeepsInv(cfg, start, steps);
    var log := LogAfter(cfg, start, steps);
    assert EntryOk(cfg, log[..j], log[j]);
    assert log[..j][i] == log[i];
  }
}
