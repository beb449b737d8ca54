/** Every step of the system keeps its invariant. */
module ProcessorSteps {
  import opened Options
  import opened Domain
  import opened LeaseStore
  import opened FileProcessor
  import opened ProcessorInvariant

  // ------------------------------------------------------------------- tables

  /** The payload a commit inserts, or had inserted before, matches what it writes. */
  ghost predicate CommitOk(cfg: Config, sh: Shared, eff: Effect)
    requires eff.Commit?
  {
    && eff.claim.event in cfg.inputs && cfg.inputs[eff.claim.event].file == eff.file
    && (eff.write.last.Some? ==> eff.write.last.value == eff.claim.event)
    && (eff.write.status == Completed ==> eff.write.last == Some(eff.claim.event))
    && (eff.insert.Some? ==>
          && eff.insert.value.id.input == eff.claim.event && eff.insert.value.file == eff.file
          && match eff.insert.value.id
             case Completion(e) =>
               && cfg.inputs[e].kind == FileUploaded && eff.insert.value.body.Analysis?
               && eff.write.status == Completed && eff.write.location == eff.insert.value.location
             case Failure(_, v, _, _) => v == eff.claim.version)
    && (eff.write.status == Completed && cfg.inputs[eff.claim.event].kind == FileUploaded ==>
          && eff.write.hash.Some?
          && (Completion(eff.claim.event) in sh.outbox || eff.insert.Some?)
          && var p := if eff.insert.Some? then eff.insert.value else sh.outbox[Completion(eff.claim.event)];
             p.id == Completion(eff.claim.event) && p.location == eff.write.location
             && p.body.Analysis? && eff.write.hash == Some(p.body.hash))
  }

  /** What a turn owes to the tables. */
  ghost predicate GoodEffect(cfg: Config, sh: Shared, eff: Effect) {
    Admissible(cfg, sh, eff) && (eff.Commit? ==> CommitOk(cfg, sh, eff))
  }

  lemma OutboxRowStays(cfg: Config, sh: Shared, later: Shared, id: OutputId)
    requires OutboxRowOk(cfg, sh, id) && Later(sh, later)
    ensures OutboxRowOk(cfg, later, id)
  {
    match id
    case Completion(e) => CompletedStays(sh, later, e, sh.outbox[id].location);
    case Failure(_, _, _, _) =>
  }

  lemma CommitTables(cfg: Config, sh: Shared, eff: Effect)
    requires TablesOk(cfg, sh) && eff.Commit? && Admissible(cfg, sh, eff) && CommitOk(cfg, sh, eff)
    ensures TablesOk(cfg, Apply(cfg, sh, eff))
  {
    var sh' := Apply(cfg, sh, eff);
    EffectConsistent(cfg, sh, eff);
    EffectLater(cfg, sh, eff);
    forall id | id in sh'.outbox ensures OutboxRowOk(cfg, sh', id) {
      if id in sh.outbox {
        OutboxRowStays(cfg, sh, sh', id);
      } else if id.Completion? {
        var x := sh'.log[|sh.log|];
        assert CompletedIn(sh'.log, id.input, sh'.outbox[id].location);
      }
    }
    forall f | f in sh'.meta ensures Announced(cfg, sh', sh'.meta[f]) {
      if f != eff.file {
        assert Announced(cfg, sh, sh.meta[f]);
      }
    }
  }

  lemma OtherTables(cfg: Config, sh: Shared, eff: Effect)
    requires TablesOk(cfg, sh) && !eff.Commit? && Admissible(cfg, sh, eff)
    ensures TablesOk(cfg, Apply(cfg, sh, eff))
  {
    var sh' := Apply(cfg, sh, eff);
    EffectConsistent(cfg, sh, eff);
    EffectLater(cfg, sh, eff);
    forall id | id in sh'.outbox ensures OutboxRowOk(cfg, sh', id) {
      OutboxRowStays(cfg, sh, sh', id);
    }
    forall f | f in sh'.meta ensures Announced(cfg, sh', sh'.meta[f]) {
      if f in sh.meta { assert Announced(cfg, sh, sh.meta[f]); }
    }
  }

  lemma EffectTables(cfg: Config, sh: Shared, eff: Effect)
    requires TablesOk(cfg, sh) && GoodEffect(cfg, sh, eff)
    ensures TablesOk(cfg, Apply(cfg, sh, eff))
  {
    if eff.Commit? {
      CommitTables(cfg, sh, eff);
    } else {
      OtherTables(cfg, sh, eff);
    }
  }

  // ------------------------------------------------------------------ workers

  /** After a save committed, the moment is now and the lease is over. */
  lemma JustCommitted(cfg: Config, sh: Shared, eff: Effect)
    requires eff.Commit? && Admissible(cfg, sh, eff)
    ensures var sh' := Apply(cfg, sh, eff);
            && HeldAt(sh', eff.file, |sh'.past|, eff.write)
            && Over(sh', eff.file, eff.claim)
            && (eff.write.status == Completed ==> CompletedIn(sh'.log, eff.claim.event, eff.write.location))
  {
    var sh' := Apply(cfg, sh, eff);
    assert TableAt(sh', |sh'.past|) == sh'.meta;
    assert sh'.log[|sh.log|].Committed?;
  }

  lemma HeldIsDone(sh: Shared, f: FileId, since: nat, from: nat, w: MetaWrite)
    requires HeldSince(sh, f, from, w) && since <= from && w.status == Completed && w.last.Some?
    ensures DoneSince(sh, f, since, w.last.value)
  {
    var k :| from <= k && HeldAt(sh, f, k, w);
  }

  /** A normal return of the save leaves the worker truthful. */
  lemma SavedOk(cfg: Config, sh: Shared, wk: Worker, job: Job)
    requires wk.event in cfg.inputs && wk.since <= |sh.past|
    requires JobState(cfg, sh, wk, cfg.inputs[wk.event], job)
    requires Over(sh, cfg.inputs[wk.event].file, job.claim)
    requires HeldSince(sh, cfg.inputs[wk.event].file, job.since, job.write)
    requires job.after.Complete? ==> CompletedIn(sh.log, wk.event, job.write.location)
    requires Persisted(sh, job.out)
    ensures WorkerOk(cfg, sh, wk.(pc := Saved(job)))
  {
  }

  lemma NotSavedOk(cfg: Config, sh: Shared, wk: Worker, job: Job, kind: Kind)
    requires wk.event in cfg.inputs && wk.since <= |sh.past|
    requires JobState(cfg, sh, wk, cfg.inputs[wk.event], job)
    requires job.after.Report? && wk.clean && !wk.mute ==> Over(sh, cfg.inputs[wk.event].file, job.claim)
    ensures WorkerOk(cfg, sh, wk.(pc := NotSaved(job, kind)))
  {
  }

  /** A turn is good when it owes the tables nothing and leaves the worker truthful. */
  ghost predicate GoodTurn(cfg: Config, sh: Shared, wk: Worker, act: Act, t: Turn) {
    GoodEffect(cfg, sh, t.effect) && WorkerOk(cfg, Apply(cfg, sh, t.effect), Advance(wk, act, t))
  }

  lemma ReadStep(cfg: Config, sh: Shared, wk: Worker, act: Act)
    requires WorkerOk(cfg, sh, wk) && act.ReadRow? && (wk.pc.Reading? || wk.pc.Rereading?)
    requires ReadTurn(sh, wk, cfg.inputs[wk.event], act.fate).Some?
    ensures GoodTurn(cfg, sh, wk, act, ReadTurn(sh, wk, cfg.inputs[wk.event], act.fate).value)
  {
    assert TableAt(sh, |sh.past|) == sh.meta;
  }

  lemma ClaimStep(cfg: Config, sh: Shared, wk: Worker, act: Act)
    requires WorkerOk(cfg, sh, wk) && World(cfg, sh, act)
    requires act.ClaimRow? && wk.pc.Claiming?
    requires ClaimTurn(sh, wk, cfg.inputs[wk.event], act).Some?
    ensures GoodTurn(cfg, sh, wk, act, ClaimTurn(sh, wk, cfg.inputs[wk.event], act).value)
  {
  }

  lemma FetchStep(cfg: Config, sh: Shared, wk: Worker, act: Act)
    requires WorkerOk(cfg, sh, wk) && act.Fetch? && wk.pc.Downloading?
    requires FetchTurn(cfg, sh, wk, cfg.inputs[wk.event], wk.pc.claim, act).Some?
    ensures GoodTurn(cfg, sh, wk, act, FetchTurn(cfg, sh, wk, cfg.inputs[wk.event], wk.pc.claim, act).value)
  {
  }

  lemma CopyStep(cfg: Config, sh: Shared, wk: Worker, act: Act)
    requires WorkerOk(cfg, sh, wk) && act.CopyObject? && wk.pc.Copying?
    requires CopyTurn(cfg, sh, wk, cfg.inputs[wk.event], wk.pc.claim, act).Some?
    ensures GoodTurn(cfg, sh, wk, act, CopyTurn(cfg, sh, wk, cfg.inputs[wk.event], wk.pc.claim, act).value)
  {
  }

  /** The outbox row of a report exists only when its lease is over. */
  lemma ReportOnce(cfg: Config, sh: Shared, wk: Worker, job: Job)
    requires OutboxOk(cfg, sh) && wk.event in cfg.inputs
    requires JobState(cfg, sh, wk, cfg.inputs[wk.event], job) && job.after.Report?
    requires job.out.id in sh.outbox
    ensures Over(sh, cfg.inputs[wk.event].file, job.claim)
  {
    assert OutboxRowOk(cfg, sh, job.out.id);
  }

  /** The commit of a save owes the tables nothing. */
  lemma JobCommitOk(cfg: Config, sh: Shared, wk: Worker, job: Job, insert: Option<Payload>)
    requires wk.event in cfg.inputs
    requires JobState(cfg, sh, wk, cfg.inputs[wk.event], job)
    requires Fenced(Row(sh, cfg.inputs[wk.event].file), job.claim)
    requires (insert == Some(job.out) && job.out.id !in sh.outbox) || (insert == None && Persisted(sh, job.out))
    ensures GoodEffect(cfg, sh, Commit(cfg.inputs[wk.event].file, job.claim, job.write, insert))
  {
  }

  /** A completed transaction or restore leaves the worker truthful in the new state. */
  lemma CommitStep(cfg: Config, sh: Shared, wk: Worker, job: Job, eff: Effect)
    requires eff.Commit? && Admissible(cfg, sh, eff)
    requires wk.event in cfg.inputs && wk.since <= |sh.past|
    requires JobState(cfg, sh, wk, cfg.inputs[wk.event], job)
    requires eff.file == cfg.inputs[wk.event].file && eff.claim == job.claim && eff.write == job.write
    ensures var sh' := Apply(cfg, sh, eff);
            && JobState(cfg, sh', wk, cfg.inputs[wk.event], job)
            && HeldSince(sh', eff.file, job.since, job.write)
            && Over(sh', eff.file, job.claim)
            && wk.since <= |sh'.past|
            && (eff.insert == Some(job.out) || Persisted(sh, job.out) ==> Persisted(sh', job.out))
            && (job.after.Complete? ==> CompletedIn(sh'.log, wk.event, job.write.location))
  {
    var sh' := Apply(cfg, sh, eff);
    JustCommitted(cfg, sh, eff);
    EffectLater(cfg, sh, eff);
    ClaimStays(sh, sh', eff.file, wk.event, job.claim);
  }

  lemma TransactApplied(cfg: Config, sh: Shared, wk: Worker, act: Act)
    requires WorkerOk(cfg, sh, wk) && act.Transact? && wk.pc.Saving?
    requires TransactTurn(sh, cfg.inputs[wk.event], wk.pc.job, wk.pc.landed, act).Some?
    requires TransactTurn(sh, cfg.inputs[wk.event], wk.pc.job, wk.pc.landed, act).value.effect.Commit?
    ensures GoodTurn(cfg, sh, wk, act, TransactTurn(sh, cfg.inputs[wk.event], wk.pc.job, wk.pc.landed, act).value)
  {
    var ev := cfg.inputs[wk.event];
    var job := wk.pc.job;
    var t := TransactTurn(sh, ev, job, wk.pc.landed, act).value;
    var wk' := Advance(wk, act, t);
    JobCommitOk(cfg, sh, wk, job, Some(job.out));
    var sh' := Apply(cfg, sh, t.effect);
    CommitStep(cfg, sh, wk, job, t.effect);
    match act.fate
    case Heard => SavedOk(cfg, sh', wk', job);
    case LostRetried =>
    case LostRaised(kind) => NotSavedOk(cfg, sh', wk', job, kind);
  }

  lemma TransactRefused(cfg: Config, sh: Shared, wk: Worker, act: Act)
    requires OutboxOk(cfg, sh) && WorkerOk(cfg, sh, wk) && act.Transact? && wk.pc.Saving?
    requires TransactTurn(sh, cfg.inputs[wk.event], wk.pc.job, wk.pc.landed, act).Some?
    requires TransactTurn(sh, cfg.inputs[wk.event], wk.pc.job, wk.pc.landed, act).value.effect.Nothing?
    ensures GoodTurn(cfg, sh, wk, act, TransactTurn(sh, cfg.inputs[wk.event], wk.pc.job, wk.pc.landed, act).value)
  {
    var ev := cfg.inputs[wk.event];
    var job := wk.pc.job;
    var t := TransactTurn(sh, ev, job, wk.pc.landed, act).value;
    var wk' := Advance(wk, act, t);
    if act.deduplicated {
      if job.after.Complete? { assert OutboxRowOk(cfg, sh, job.out.id); }
      SavedOk(cfg, sh, wk', job);
    } else if act.fate.Heard? {
      if job.after.Report? && job.out.id in sh.outbox { ReportOnce(cfg, sh, wk, job); }
    } else {
      NotSavedOk(cfg, sh, wk', job, act.fate.kind);
    }
  }

  lemma ReplayStep(cfg: Config, sh: Shared, wk: Worker, act: Act)
    requires WorkerOk(cfg, sh, wk) && act.ReadOutbox? && wk.pc.CheckingReplay?
    requires ReplayTurn(sh, wk.pc.job, act.fate).Some?
    ensures GoodTurn(cfg, sh, wk, act, ReplayTurn(sh, wk.pc.job, act.fate).value)
  {
    var t := ReplayTurn(sh, wk.pc.job, act.fate).value;
    if !t.pc.Restoring? {
      NotSavedOk(cfg, sh, Advance(wk, act, t), wk.pc.job,
                 if act.fate.Heard? then StorageFault else act.fate.kind);
    }
  }

  lemma RestoreStep(cfg: Config, sh: Shared, wk: Worker, act: Act)
    requires WorkerOk(cfg, sh, wk) && act.Restore? && wk.pc.Restoring?
    requires RestoreTurn(sh, cfg.inputs[wk.event], wk.pc.job, act.fate).Some?
    ensures GoodTurn(cfg, sh, wk, act, RestoreTurn(sh, cfg.inputs[wk.event], wk.pc.job, act.fate).value)
  {
    var ev := cfg.inputs[wk.event];
    var job := wk.pc.job;
    var t := RestoreTurn(sh, ev, job, act.fate).value;
    var wk' := Advance(wk, act, t);
    if t.effect.Commit? {
      JobCommitOk(cfg, sh, wk, job, None);
      var sh' := Apply(cfg, sh, t.effect);
      CommitStep(cfg, sh, wk, job, t.effect);
      if act.fate.Heard? { SavedOk(cfg, sh', wk', job); } else { NotSavedOk(cfg, sh', wk', job, act.fate.kind); }
    } else if act.fate.Refused? {
      NotSavedOk(cfg, sh, wk', job, act.fate.kind);
    }
  }

  lemma ResultStep(cfg: Config, sh: Shared, wk: Worker, act: Act)
    requires OutboxOk(cfg, sh) && WorkerOk(cfg, sh, wk) && act.ReadResult? && wk.pc.CheckingResult?
    requires ResultTurn(sh, cfg.inputs[wk.event], wk.pc.job, act.fate).Some?
    ensures GoodTurn(cfg, sh, wk, act, ResultTurn(sh, cfg.inputs[wk.event], wk.pc.job, act.fate).value)
  {
    var ev := cfg.inputs[wk.event];
    var job := wk.pc.job;
    var t := ResultTurn(sh, ev, job, act.fate).value;
    var wk' := Advance(wk, act, t);
    var row := Row(sh, ev.file);
    if act.fate.Heard? && row.Some? && row.value.status == job.write.status && row.value.last == job.write.last {
      assert TableAt(sh, |sh.past|) == sh.meta;
      assert HeldAt(sh, ev.file, |sh.past|, job.write);
      if job.after.Complete? { assert OutboxRowOk(cfg, sh, job.out.id); }
      SavedOk(cfg, sh, wk', job);
    } else {
      NotSavedOk(cfg, sh, wk', job, if act.fate.Heard? then StorageFault else act.fate.kind);
    }
  }

  lemma ResumeStep(cfg: Config, sh: Shared, wk: Worker, act: Act)
    requires WorkerOk(cfg, sh, wk) && act.Resume? && wk.pc.Saved?
    ensures GoodTurn(cfg, sh, wk, act, Turn(Nothing, Onward(wk.pc.job)))
  {
    var job := wk.pc.job;
    if job.after.Complete? {
      HeldIsDone(sh, cfg.inputs[wk.event].file, wk.since, job.since, job.write);
    }
  }

  lemma ScanStep(cfg: Config, sh: Shared, wk: Worker, act: Act)
    requires WorkerOk(cfg, sh, wk) && act.SaveScan? && wk.pc.SavingScan?
    requires ScanTurn(sh, cfg.inputs[wk.event], wk.pc.claim, wk.pc.write, act.fate).Some?
    ensures GoodTurn(cfg, sh, wk, act,
                     ScanTurn(sh, cfg.inputs[wk.event], wk.pc.claim, wk.pc.write, act.fate).value)
  {
    var ev := cfg.inputs[wk.event];
    var t := ScanTurn(sh, ev, wk.pc.claim, wk.pc.write, act.fate).value;
    if t.effect.Commit? {
      assert GoodEffect(cfg, sh, t.effect);
      var sh' := Apply(cfg, sh, t.effect);
      JustCommitted(cfg, sh, t.effect);
      EffectLater(cfg, sh, t.effect);
      ClaimStays(sh, sh', ev.file, wk.event, wk.pc.claim);
      HeldIsDone(sh', ev.file, wk.since, |sh'.past|, wk.pc.write);
    }
  }

  lemma DeleteStep(cfg: Config, sh: Shared, wk: Worker, act: Act)
    requires WorkerOk(cfg, sh, wk) && act.DeleteSource? && wk.pc.Deleting?
    requires DeleteTurn(wk, cfg.inputs[wk.event], wk.pc.claim, act.fate).Some?
    ensures GoodTurn(cfg, sh, wk, act, DeleteTurn(wk, cfg.inputs[wk.event], wk.pc.claim, act.fate).value)
  {
    var ev := cfg.inputs[wk.event];
    var t := DeleteTurn(wk, ev, wk.pc.claim, act.fate).value;
    assert GoodEffect(cfg, sh, t.effect);
    var sh' := Apply(cfg, sh, t.effect);
    EffectLater(cfg, sh, t.effect);
    WorkerStays(cfg, sh, sh', wk);
  }

  lemma DiagnoseStep(cfg: Config, sh: Shared, wk: Worker, act: Act)
    requires WorkerOk(cfg, sh, wk) && act.Diagnose? && wk.pc.Failing?
    requires DiagnoseTurn(sh, wk, cfg.inputs[wk.event], act.stamp).Some?
    ensures GoodTurn(cfg, sh, wk, act, DiagnoseTurn(sh, wk, cfg.inputs[wk.event], act.stamp).value)
  {
  }

  /** A worker's own turn is good. */
  lemma TurnGood(cfg: Config, sh: Shared, wk: Worker, act: Act)
    requires OutboxOk(cfg, sh) && WorkerOk(cfg, sh, wk) && World(cfg, sh, act)
    requires TurnOf(cfg, sh, wk, cfg.inputs[wk.event], act).Some?
    ensures GoodTurn(cfg, sh, wk, act, TurnOf(cfg, sh, wk, cfg.inputs[wk.event], act).value)
  {
    match wk.pc
    case Reading => ReadStep(cfg, sh, wk, act);
    case Claiming => ClaimStep(cfg, sh, wk, act);
    case Rereading => ReadStep(cfg, sh, wk, act);
    case Downloading(_) => FetchStep(cfg, sh, wk, act);
    case Copying(_) => CopyStep(cfg, sh, wk, act);
    case Saving(_, _) =>
      if TurnOf(cfg, sh, wk, cfg.inputs[wk.event], act).value.effect.Commit? {
        TransactApplied(cfg, sh, wk, act);
      } else {
        TransactRefused(cfg, sh, wk, act);
      }
    case CheckingReplay(_) => ReplayStep(cfg, sh, wk, act);
    case Restoring(_) => RestoreStep(cfg, sh, wk, act);
    case CheckingResult(_) => ResultStep(cfg, sh, wk, act);
    case Saved(_) => ResumeStep(cfg, sh, wk, act);
    case SavingScan(_, _) => ScanStep(cfg, sh, wk, act);
    case Deleting(_) => DeleteStep(cfg, sh, wk, act);
    case Failing(_, _, _, _, _) => DiagnoseStep(cfg, sh, wk, act);
    case Done(_, _) =>
  }

  // -------------------------------------------------------------------- system

  /** One step of any worker keeps the invariant of the whole system. */
  lemma StepKeepsInv(cfg: Config, sys: System, step: Step)
    requires Inv(cfg, sys) && StepOf(cfg, sys, step).Some?
    ensures Inv(cfg, StepOf(cfg, sys, step).value)
    ensures Later(sys.sh, StepOf(cfg, sys, step).value.sh)
  {
    if step.Work? {
      var wk := sys.workers[step.w];
      var turn := TurnOf(cfg, sys.sh, wk, cfg.inputs[wk.event], step.act).value;
      var sys' := StepOf(cfg, sys, step).value;
      TurnGood(cfg, sys.sh, wk, step.act);
      EffectTables(cfg, sys.sh, turn.effect);
      EffectLater(cfg, sys.sh, turn.effect);
      forall w | w in sys'.workers ensures WorkerOk(cfg, sys'.sh, sys'.workers[w]) {
        if w != step.w {
          WorkerStays(cfg, sys.sh, sys'.sh, sys.workers[w]);
        }
      }
    }
  }

  lemma InitInv(cfg: Config, sys: System)
    requires Init(cfg, sys)
    ensures Inv(cfg, sys)
  {
  }

  /** Every reachable state satisfies the invariant. */
  lemma {:induction false} RunKeepsInv(cfg: Config, start: System, steps: seq<Step>)
    requires Init(cfg, start) && Run(cfg, start, steps).Some?
    ensures Inv(cfg, Run(cfg, start, steps).value)
  {
    if steps == [] {
      InitInv(cfg, start);
    } else {
      RunKeepsInv(cfg, start, steps[..|steps| - 1]);
      StepKeepsInv(cfg, Run(cfg, start, steps[..|steps| - 1]).value, steps[|steps| - 1]);
    }
  }
}
