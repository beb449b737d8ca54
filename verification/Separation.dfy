/**
 Exactly when rows name objects that exist: when uploads and quarantine places are
 separated.  Where they are not, one of the runs below leaves a COMPLETED row that
 names an object that is gone.
 */
module Separation {
  import opened Options
  import opened Domain
  import opened LeaseStore
  import opened FileProcessor
  import opened SoloRuns
  import Inv = ProcessorInvariant
  import Steps = ProcessorSteps
  import Objects = ObjectSafety

  /** Every COMPLETED row of an upload names an object that exists. */
  ghost predicate RowsExist(cfg: Config, sh: Shared) {
    forall f | f in sh.meta && Objects.CompletedUpload(cfg, sh.meta[f]) :: sh.meta[f].location in sh.objects
  }

  /** Every completion in the outbox names an object that exists. */
  ghost predicate AnnouncementsExist(sh: Shared) {
    forall e | Completion(e) in sh.outbox :: sh.outbox[Completion(e)].location in sh.objects
  }

  /** The row of `e` is COMPLETED for it and names an object that is gone. */
  predicate Dangles(cfg: Config, sh: Shared, e: EventId) {
    && e in cfg.inputs && cfg.inputs[e].kind == FileUploaded && cfg.inputs[e].file in sh.meta
    && var m := sh.meta[cfg.inputs[e].file];
       m.status == Completed && m.last == Some(e) && m.location !in sh.objects
  }

  /** An upload that accepts the copy of another's content, for one file, is quarantined to
      the same place as that other. */
  lemma SamePlace(cfg: Config, i: EventId, j: EventId, source: Location)
    requires i in cfg.inputs && j in cfg.inputs && AcceptsCopy(cfg, i, cfg.inputs[i].location, source)
    requires Condemned(cfg, cfg.inputs[j]) && source == cfg.inputs[j].location
    requires cfg.inputs[i].file == cfg.inputs[j].file && cfg.inputs[i].location.bucket == source.bucket
    ensures Quarantine(cfg, cfg.inputs[i]) == Quarantine(cfg, cfg.inputs[j])
  {
  }

  /** A condemned upload, handled by one worker alone with every call heard: it is
      quarantined, and its row names an object that exists exactly when its source is
      not its own quarantine place. */
  lemma SoloUploadSafety(cfg: Config, start: System, e: EventId, token: Token, at: real, stamp: Stamp)
    returns (later: System)
    requires Init(cfg, start) && cfg.skew >= 0.0
    requires e in cfg.inputs && Condemned(cfg, cfg.inputs[e])
    ensures ReachableFrom(cfg, start, later) && Quarantined(cfg, start.sh, later.sh, e, token)
    ensures later.sh.meta[cfg.inputs[e].file].location in later.sh.objects
            <==> cfg.inputs[e].location != Quarantine(cfg, cfg.inputs[e])
  {
    ReachesItself(cfg, start);
    later := HandlesDenied(cfg, start, start, 0, e, token, at, stamp);
  }

  // ------------------------------------------------------- a copy is accepted

  /** `i` finds the copy of `j`, accepts it, moves it on and deletes it.  For different files
      the row of `j` dangles; for one file the row of `i`, whose copy is made in place. */
  lemma CopyIsAccepted(cfg: Config, start: System, i: EventId, j: EventId) returns (later: System)
    requires Init(cfg, start) && cfg.skew >= 0.0 && ReadsFrom(cfg, i, j)
    requires cfg.inputs[j].location != Quarantine(cfg, cfg.inputs[j])
    requires AcceptsCopy(cfg, i, cfg.inputs[i].location, cfg.inputs[j].location)
    ensures ReachableFrom(cfg, start, later) && (Dangles(cfg, later.sh, i) || Dangles(cfg, later.sh, j))
  {
    ReachesItself(cfg, start);
    var quarantined := HandlesDenied(cfg, start, start, 0, j, 0, 0.0, 0);
    later := HandlesDenied(cfg, start, quarantined, 1, i, 1, 0.0, 0);
    if cfg.inputs[i].file == cfg.inputs[j].file {
      SamePlace(cfg, i, j, cfg.inputs[j].location);
      assert Dangles(cfg, later.sh, i);
    } else {
      assert Dangles(cfg, later.sh, j);
    }
  }

  // ----------------------------------------------------------- different files

  /** Both are fetched before either copy is made; `i` saves, `j` copies over its source and
      saves, and `i` deletes its source. */
  lemma OtherFileDangles(cfg: Config, start: System, i: EventId, j: EventId) returns (later: System)
    requires Init(cfg, start) && cfg.skew >= 0.0 && Objects.Twins(cfg, i, j)
    requires cfg.inputs[i].file != cfg.inputs[j].file
    ensures ReachableFrom(cfg, start, later) && Dangles(cfg, later.sh, j)
  {
    var ready := BothReady(cfg, start, i, j, 0.0, 0);
    later := BothSave(cfg, start, ready, i, j, ClaimFor(cfg, start.sh, i, 1), ClaimFor(cfg, start.sh, j, 0));
  }

  /** `j` copies over the source of `i` and saves; then `i`, which saved before, deletes its
      source. */
  lemma SavesThenLoses(cfg: Config, start: System, sys: System, v: nat, i: EventId, jobI: Job, w: nat, j: EventId,
                       claimJ: Claim)
    returns (later: System)
    requires ReachableFrom(cfg, start, sys) && Objects.Twins(cfg, i, j) && v != w
    requires Stands(sys, v, i, Saved(jobI)) && jobI.after == Complete(true)
    requires Stands(sys, w, j, Copying(claimJ)) && Fenced(Row(sys.sh, cfg.inputs[j].file), claimJ)
    requires cfg.inputs[j].location in sys.sh.objects && Completion(j) !in sys.sh.outbox
    ensures ReachableFrom(cfg, start, later) && Dangles(cfg, later.sh, j)
  {
    var saved, jobJ := SavesApart(cfg, start, sys, w, j, claimJ, 0);
    assert Stands(saved, v, i, Saved(jobI));
    later := LosesSource(cfg, start, saved, v, i, jobI);
  }

  /** The cleanup after a quarantine takes the source away, and nothing else. */
  lemma LosesSource(cfg: Config, start: System, sys: System, v: nat, i: EventId, job: Job) returns (later: System)
    requires ReachableFrom(cfg, start, sys) && i in cfg.inputs
    requires Stands(sys, v, i, Saved(job)) && job.after == Complete(true)
    ensures ReachableFrom(cfg, start, later) && later.sh.meta == sys.sh.meta
    ensures later.sh.objects == sys.sh.objects - {cfg.inputs[i].location}
  {
    later := CleansUp(cfg, start, sys, v, i, job);
  }

  lemma BothSave(cfg: Config, start: System, ready: System, i: EventId, j: EventId, claimI: Claim, claimJ: Claim)
    returns (later: System)
    requires ReachableFrom(cfg, start, ready) && Objects.Twins(cfg, i, j)
    requires Stands(ready, 1, i, Copying(claimI)) && Fenced(Row(ready.sh, cfg.inputs[i].file), claimI)
    requires Stands(ready, 0, j, Copying(claimJ)) && Fenced(Row(ready.sh, cfg.inputs[j].file), claimJ)
    requires cfg.inputs[i].location in ready.sh.objects && cfg.inputs[j].location in ready.sh.objects
    requires ready.sh.outbox == map[] && cfg.inputs[i].file != cfg.inputs[j].file
    ensures ReachableFrom(cfg, start, later) && Dangles(cfg, later.sh, j)
  {
    var saved, jobI := SavesApart(cfg, start, ready, 1, i, claimI, 0);
    assert Stands(saved, 0, j, Copying(claimJ));
    later := SavesThenLoses(cfg, start, saved, 1, i, jobI, 0, j, claimJ);
  }

  /** A condemned upload is leased and fetched by the first worker there is. */
  lemma ReadiesFirst(cfg: Config, start: System, j: EventId, at: real, stamp: Stamp) returns (ready: System)
    requires Init(cfg, start) && cfg.skew >= 0.0 && j in cfg.inputs && Condemned(cfg, cfg.inputs[j])
    ensures ReachableFrom(cfg, start, ready) && ready.workers.Keys == {0}
    ensures Stands(ready, 0, j, Copying(ClaimFor(cfg, start.sh, j, 0)))
    ensures Fenced(Row(ready.sh, cfg.inputs[j].file), ClaimFor(cfg, start.sh, j, 0))
    ensures ready.sh.objects == cfg.uploads && ready.sh.outbox == map[] && ready.sh.tokens == {0}
    ensures forall f | f != cfg.inputs[j].file :: Row(ready.sh, f) == Row(start.sh, f)
    ensures var f, m := cfg.inputs[j].file, ready.sh.meta;
            f in m && m[f].last.None? && m[f].expires == Some(at.Floor + cfg.lease)
  {
    ReachesItself(cfg, start);
    ready := ReadiesCopy(cfg, start, start, 0, j, 0, at, stamp);
  }

  /** Both uploads are leased and fetched, each by a worker of its own. */
  lemma BothReady(cfg: Config, start: System, i: EventId, j: EventId, at: real, stamp: Stamp) returns (ready: System)
    requires Init(cfg, start) && cfg.skew >= 0.0 && i in cfg.inputs && j in cfg.inputs
    requires Condemned(cfg, cfg.inputs[i]) && Condemned(cfg, cfg.inputs[j])
    requires cfg.inputs[i].file != cfg.inputs[j].file
    ensures ReachableFrom(cfg, start, ready)
    ensures Stands(ready, 1, i, Copying(ClaimFor(cfg, start.sh, i, 1)))
    ensures Stands(ready, 0, j, Copying(ClaimFor(cfg, start.sh, j, 0)))
    ensures Fenced(Row(ready.sh, cfg.inputs[i].file), ClaimFor(cfg, start.sh, i, 1))
    ensures Fenced(Row(ready.sh, cfg.inputs[j].file), ClaimFor(cfg, start.sh, j, 0))
    ensures ready.sh.objects == cfg.uploads && ready.sh.outbox == map[]
  {
    var readyJ := ReadiesFirst(cfg, start, j, at, stamp);
    assert Row(readyJ.sh, cfg.inputs[i].file) == Row(start.sh, cfg.inputs[i].file);
    ready := ReadiesCopy(cfg, start, readyJ, 1, i, 1, at, stamp);
    assert Row(ready.sh, cfg.inputs[j].file) == Row(readyJ.sh, cfg.inputs[j].file);
  }

  // ------------------------------------------------------------------ one file

  lemma SavesFirst(cfg: Config, start: System, i: EventId) returns (saved: System, job: Job)
    requires Init(cfg, start) && cfg.skew >= 0.0 && i in cfg.inputs && Condemned(cfg, cfg.inputs[i])
    ensures ReachableFrom(cfg, start, saved) && saved.workers.Keys == {0} && saved.sh.tokens == {0}
    ensures Stands(saved, 0, i, Saved(job)) && job.after == Complete(true)
    ensures saved.sh.outbox.Keys == {Completion(i)}
    ensures forall at | at in cfg.uploads && at != Quarantine(cfg, cfg.inputs[i]) ::
              at in saved.sh.objects && saved.sh.objects[at] == cfg.uploads[at]
    ensures var f, m := cfg.inputs[i].file, saved.sh.meta; f in m && m[f].last == Some(i) && m[f].token.None?
  {
    var ready := ReadiesFirst(cfg, start, i, 0.0, 0);
    saved, job := SavesApart(cfg, start, ready, 0, i, ClaimFor(cfg, start.sh, i, 0), 0);
  }

  /** `i` saves and stops before its cleanup; `j` copies over its source and saves; then `i`
      deletes its source. */
  lemma SameFileDangles(cfg: Config, start: System, i: EventId, j: EventId) returns (later: System)
    requires Init(cfg, start) && cfg.skew >= 0.0 && Objects.Twins(cfg, i, j)
    requires cfg.inputs[i].file == cfg.inputs[j].file && cfg.inputs[i].location != cfg.inputs[j].location
    requires cfg.inputs[j].location != Quarantine(cfg, cfg.inputs[i])
    ensures ReachableFrom(cfg, start, later) && Dangles(cfg, later.sh, j)
  {
    var savedI, jobI := SavesFirst(cfg, start, i);
    var claimJ := ClaimFor(cfg, savedI.sh, j, 1);
    var readyJ := ReadiesCopy(cfg, start, savedI, 1, j, 1, 0.0, 0);
    assert Stands(readyJ, 0, i, Saved(jobI));
    later := SavesThenLoses(cfg, start, readyJ, 0, i, jobI, 1, j, claimJ);
  }

  /** `i` fetches; its lease expires; `j` takes over and fetches. */
  lemma TakesOver(cfg: Config, start: System, i: EventId, j: EventId)
    returns (ready: System, claimI: Claim, claimJ: Claim)
    requires Init(cfg, start) && cfg.skew >= 0.0 && Objects.Twins(cfg, i, j) && i != j
    requires cfg.inputs[i].file == cfg.inputs[j].file
    ensures ReachableFrom(cfg, start, ready) && ready.workers.Keys == {0, 1} && ready.sh.tokens == {0, 1}
    ensures Stands(ready, 0, i, Copying(claimI)) && Stands(ready, 1, j, Copying(claimJ))
    ensures Fenced(Row(ready.sh, cfg.inputs[j].file), claimJ)
    ensures ready.sh.objects == cfg.uploads && ready.sh.outbox == map[]
    ensures forall g | g != cfg.inputs[j].file :: Row(ready.sh, g) == Row(start.sh, g)
  {
    claimI := ClaimFor(cfg, start.sh, i, 0);
    var first := ReadiesFirst(cfg, start, i, 0.0, 0);
    claimJ := ClaimFor(cfg, first.sh, j, 1);
    ready := ReadiesCopy(cfg, start, first, 1, j, 1, cfg.lease as real, 0);
    assert Stands(ready, 0, i, Copying(claimI));
  }

  /** Twins that read from each other's quarantine place: `i` and then `j` fetch; `i`, whose
      lease is over, copies; `j` copies the copy back and saves. */
  lemma CopyComesBack(cfg: Config, start: System, i: EventId, j: EventId) returns (later: System, jobJ: Job)
    requires Init(cfg, start) && cfg.skew >= 0.0 && Objects.Twins(cfg, i, j)
    requires Mutual(cfg, cfg.inputs[i], cfg.inputs[j])
    ensures ReachableFrom(cfg, start, later) && later.workers.Keys == {0, 1} && later.sh.tokens == {0, 1}
    ensures Stands(later, 1, j, Saved(jobJ)) && jobJ.after == Complete(true)
    ensures later.sh.outbox.Keys == {Completion(j)}
    ensures Announces(later.sh, j, cfg.inputs[i].location, cfg.inputs[j].checksum)
    ensures var at := cfg.inputs[i].location;
            at in later.sh.objects && later.sh.objects[at] == Reencrypted(cfg, cfg.uploads[at])
    ensures var f, m := cfg.inputs[j].file, later.sh.meta;
            && f in m && m[f].status == Completed && m[f].last == Some(j) && m[f].token.None?
            && m[f].location == cfg.inputs[i].location
            && forall g | g != f :: Row(later.sh, g) == Row(start.sh, g)
  {
    var ready, claimI, claimJ := TakesOver(cfg, start, i, j);
    var job := CompletionJob(cfg, i, cfg.inputs[i], claimI, true, 0, |ready.sh.past|);
    var copied := Moves(cfg, start, ready, 0, i, CopyObject(0, Heard),
                        Turn(CopyOf(cfg, cfg.inputs[i]), Saving(job, false)));
    assert Stands(copied, 1, j, Copying(claimJ));
    later, jobJ := SavesApart(cfg, start, copied, 1, j, claimJ, 0);
  }

  /** `k` accepts the copy that came back, moves it on and deletes it.  For different files
      the row of `j` dangles; for one file `k` has moved it to the source of `j`, which `j`
      then deletes. */
  lemma ReturnedCopyDangles(cfg: Config, start: System, i: EventId, j: EventId, k: EventId) returns (later: System)
    requires Init(cfg, start) && cfg.skew >= 0.0 && Objects.Twins(cfg, i, j)
    requires Mutual(cfg, cfg.inputs[i], cfg.inputs[j])
    requires AcceptsCopy(cfg, k, cfg.inputs[i].location, cfg.inputs[i].location)
    ensures ReachableFrom(cfg, start, later) && (Dangles(cfg, later.sh, j) || Dangles(cfg, later.sh, k))
  {
    var back, jobJ := CopyComesBack(cfg, start, i, j);
    var moved := HandlesDenied(cfg, start, back, 2, k, 2, 0.0, 0);
    if cfg.inputs[k].file == cfg.inputs[j].file {
      SamePlace(cfg, k, i, cfg.inputs[i].location);
      assert Stands(moved, 1, j, Saved(jobJ));
      later := LosesSource(cfg, start, moved, 1, j, jobJ);
      assert Dangles(cfg, later.sh, k);
    } else {
      later := moved;
      assert Dangles(cfg, later.sh, j);
    }
  }

  // ------------------------------------------------------------------ exactness

  lemma TwinsDangle(cfg: Config, start: System, i: EventId, j: EventId) returns (later: System)
    requires Init(cfg, start) && cfg.skew >= 0.0 && Objects.Twins(cfg, i, j)
    requires Mutual(cfg, cfg.inputs[i], cfg.inputs[j]) ==>
               exists k :: AcceptsCopy(cfg, k, cfg.inputs[i].location, cfg.inputs[i].location)
    ensures ReachableFrom(cfg, start, later) && exists e :: Dangles(cfg, later.sh, e)
  {
    if cfg.inputs[i].file != cfg.inputs[j].file {
      later := OtherFileDangles(cfg, start, i, j);
    } else if cfg.inputs[i].location == cfg.inputs[j].location {
      later := SoloUploadSafety(cfg, start, j, 0, 0.0, 0);
      assert Dangles(cfg, later.sh, j);
    } else if cfg.inputs[j].location != Quarantine(cfg, cfg.inputs[i]) {
      later := SameFileDangles(cfg, start, i, j);
    } else {
      var k :| AcceptsCopy(cfg, k, cfg.inputs[i].location, cfg.inputs[i].location);
      later := ReturnedCopyDangles(cfg, start, i, j, k);
    }
  }

  /** Where uploads and quarantine places are not separated, some run leaves a dangling row. */
  lemma DanglesUnlessSeparated(cfg: Config, start: System) returns (later: System)
    requires Init(cfg, start) && cfg.skew >= 0.0 && !Separated(cfg)
    ensures ReachableFrom(cfg, start, later) && exists e :: Dangles(cfg, later.sh, e)
  {
    if i, j :| ReadsFrom(cfg, i, j) && AcceptsCopy(cfg, i, cfg.inputs[i].location, cfg.inputs[j].location) {
      if cfg.inputs[j].location == Quarantine(cfg, cfg.inputs[j]) {
        later := SoloUploadSafety(cfg, start, j, 0, 0.0, 0);
        assert Dangles(cfg, later.sh, j);
      } else {
        later := CopyIsAccepted(cfg, start, i, j);
      }
    } else {
      var i, j :| ReadsFrom(cfg, i, j) && Condemned(cfg, cfg.inputs[i])
                  && !(Mutual(cfg, cfg.inputs[i], cfg.inputs[j])
                       && forall k :: !AcceptsCopy(cfg, k, cfg.inputs[i].location, cfg.inputs[i].location));
      later := TwinsDangle(cfg, start, i, j);
    }
  }

  /** A dangling row dangles in the outbox, too. */
  lemma DanglingIsAnnounced(cfg: Config, start: System, sys: System, e: EventId)
    requires Init(cfg, start) && ReachableFrom(cfg, start, sys) && Dangles(cfg, sys.sh, e)
    ensures !RowsExist(cfg, sys.sh) && !AnnouncementsExist(sys.sh)
  {
    var steps :| Run(cfg, start, steps) == Some(sys);
    Steps.RunKeepsInv(cfg, start, steps);
    assert Objects.CompletedUpload(cfg, sys.sh.meta[cfg.inputs[e].file]);
    assert Inv.Announced(cfg, sys.sh, sys.sh.meta[cfg.inputs[e].file]);
  }

  lemma SeparatedExist(cfg: Config, start: System, sys: System)
    requires Separated(cfg) && Init(cfg, start) && ReachableFrom(cfg, start, sys)
    ensures RowsExist(cfg, sys.sh) && AnnouncementsExist(sys.sh)
  {
    var steps :| Run(cfg, start, steps) == Some(sys);
    forall f | f in sys.sh.meta && Objects.CompletedUpload(cfg, sys.sh.meta[f])
      ensures sys.sh.meta[f].location in sys.sh.objects
    {
      Objects.CompletedObjectExists(cfg, start, steps, f);
    }
    Objects.AnnouncedObjectsExist(cfg, start, steps);
  }

  /**
   Object safety, exactly.  From whatever initial state: in every reachable state the
   COMPLETED rows of uploads name objects that exist, if and only if uploads and
   quarantine places are separated; and so do the completions in the outbox.
   */
  lemma ObjectsExistIffSeparated(cfg: Config, start: System)
    requires Init(cfg, start) && cfg.skew >= 0.0
    ensures (forall sys | ReachableFrom(cfg, start, sys) :: RowsExist(cfg, sys.sh)) <==> Separated(cfg)
    ensures (forall sys | ReachableFrom(cfg, start, sys) :: AnnouncementsExist(sys.sh)) <==> Separated(cfg)
  {
    if Separated(cfg) {
      forall sys | ReachableFrom(cfg, start, sys) ensures RowsExist(cfg, sys.sh) && AnnouncementsExist(sys.sh) {
        SeparatedExist(cfg, start, sys);
      }
    } else {
      var later := DanglesUnlessSeparated(cfg, start);
      var e :| Dangles(cfg, later.sh, e);
      DanglingIsAnnounced(cfg, start, later, e);
    }
  }
}
