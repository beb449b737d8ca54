/**
 Where the stored objects are.  Workers copy, commit and delete in that order, but
 a worker that lost its lease may still be between any two of those calls; while
 uploads and quarantine places are apart, a row nevertheless never names an object
 that is gone.
 */
module ObjectSafety {
  import opened Options
  import opened Domain
  import opened LeaseStore
  import opened FileProcessor
  import opened ProcessorInvariant
  import opened ProcessorSteps

  predicate IsCondemned(cfg: Config, i: EventId) {
    i in cfg.inputs && Condemned(cfg, cfg.inputs[i])
  }

  // -------------------------------------------------------------------- twins

  /** Condemned upload `i` reads from where condemned upload `j` is quarantined. */
  predicate Twins(cfg: Config, i: EventId, j: EventId) {
    ReadsFrom(cfg, i, j) && Condemned(cfg, cfg.inputs[i])
  }

  lemma TwinsMutual(cfg: Config, i: EventId, j: EventId)
    requires Separated(cfg) && Twins(cfg, i, j)
    ensures Twins(cfg, j, i) && i != j && cfg.inputs[i].file == cfg.inputs[j].file
  {
  }

  /** No copy equals what was uploaded to a twin's place. */
  lemma CopyIsNotOriginal(cfg: Config, i: EventId, j: EventId, b: Blob)
    requires Separated(cfg) && Twins(cfg, i, j)
    ensures Reencrypted(cfg, b) != cfg.uploads[cfg.inputs[i].location]
  {
    assert !AcceptsCopy(cfg, i, cfg.inputs[i].location, cfg.inputs[i].location);
  }

  // ----------------------------------------------------------------- contents

  /** `b` is a copy that was made for `j`: of its source, or, between twins, of a copy that
      came back. */
  ghost predicate CopiedFor(cfg: Config, at: Location, j: EventId, b: Blob) {
    && IsCondemned(cfg, j) && at == Quarantine(cfg, cfg.inputs[j])
    && (b == Reencrypted(cfg, cfg.uploads[cfg.inputs[j].location])
        || (at in cfg.uploads && b == Reencrypted(cfg, cfg.uploads[at]) && exists i :: Twins(cfg, i, j)))
  }

  /** What can be stored at a place: what was uploaded there, or a copy. */
  ghost predicate Sourced(cfg: Config, at: Location, b: Blob) {
    (at in cfg.uploads && b == cfg.uploads[at]) || exists j :: CopiedFor(cfg, at, j, b)
  }

  /** What an upload event accepts is what was uploaded. */
  lemma AcceptedIsUploaded(cfg: Config, e: EventId, b: Blob)
    requires Separated(cfg) && e in cfg.inputs && cfg.inputs[e].kind == FileUploaded
    requires Sourced(cfg, cfg.inputs[e].location, b) && Accepts(cfg, cfg.inputs[e], b)
    ensures cfg.inputs[e].location in cfg.uploads && b == cfg.uploads[cfg.inputs[e].location]
  {
    var at := cfg.inputs[e].location;
    forall j ensures !CopiedFor(cfg, at, j, b) {
      if IsCondemned(cfg, j) && at == Quarantine(cfg, cfg.inputs[j]) {
        assert ReadsFrom(cfg, e, j) && !AcceptsCopy(cfg, e, at, cfg.inputs[j].location);
        forall i | Twins(cfg, i, j) ensures at !in cfg.uploads || b != Reencrypted(cfg, cfg.uploads[at]) {
          assert !AcceptsCopy(cfg, e, cfg.inputs[i].location, cfg.inputs[i].location);
        }
      }
    }
  }

  /** A copy of what is stored at a condemned source can be stored at its quarantine place. */
  lemma CopyIsSourced(cfg: Config, e: EventId, b: Blob)
    requires Separated(cfg) && IsCondemned(cfg, e) && Sourced(cfg, cfg.inputs[e].location, b)
    ensures Sourced(cfg, Quarantine(cfg, cfg.inputs[e]), Reencrypted(cfg, b))
  {
    var at := cfg.inputs[e].location;
    var target := Quarantine(cfg, cfg.inputs[e]);
    if b == cfg.uploads[at] {
      assert CopiedFor(cfg, target, e, Reencrypted(cfg, b));
    } else {
      var j :| CopiedFor(cfg, at, j, b);
      assert Twins(cfg, e, j);
      TwinsMutual(cfg, e, j);
      assert CopiedFor(cfg, target, e, Reencrypted(cfg, b));
    }
  }

  // ---------------------------------------------------------------- invariant

  /** A COMPLETED commit of the event named its quarantine place. */
  ghost predicate Relocated(cfg: Config, sh: Shared, j: EventId) {
    j in cfg.inputs && CompletedIn(sh.log, j, Quarantine(cfg, cfg.inputs[j]))
  }

  /** What was uploaded to this place is not there any more. */
  predicate Overwritten(cfg: Config, sh: Shared, at: Location) {
    !(at in sh.objects && at in cfg.uploads && sh.objects[at] == cfg.uploads[at])
  }

  /** If a twin reads from where `e` is quarantined, its source is overwritten. */
  ghost predicate TwinOverwritten(cfg: Config, sh: Shared, e: EventId) {
    forall i | Twins(cfg, i, e) :: Overwritten(cfg, sh, cfg.inputs[i].location)
  }

  ghost predicate TwinNotMoved(cfg: Config, sh: Shared, e: EventId) {
    forall i | Twins(cfg, i, e) :: !Relocated(cfg, sh, i)
  }

  /** Of two twins at most one is ever moved, and then the source of the other is overwritten. */
  ghost predicate TwinsOk(cfg: Config, sh: Shared) {
    forall j | IsCondemned(cfg, j) && Relocated(cfg, sh, j) :: TwinOverwritten(cfg, sh, j) && TwinNotMoved(cfg, sh, j)
  }

  /** `at` exists, and is either the event's allowed source or its quarantine copy. */
  predicate Kept(cfg: Config, sh: Shared, ev: InputEvent, at: Location) {
    && at in sh.objects
    && ((at == ev.location && at in cfg.uploads && !Denied(cfg.uploads[at].data))
        || (at == Quarantine(cfg, ev) && Condemned(cfg, ev)))
  }

  /** What the outbox announces about an upload exists. */
  ghost predicate AnnouncedKept(cfg: Config, sh: Shared) {
    forall e | Completion(e) in sh.outbox ::
      e in cfg.inputs && cfg.inputs[e].kind == FileUploaded
          && Kept(cfg, sh, cfg.inputs[e], sh.outbox[Completion(e)].location)
  }

  ghost predicate ObjectsOk(cfg: Config, sh: Shared) {
    && (forall at | at in sh.objects :: Sourced(cfg, at, sh.objects[at]))
    && TwinsOk(cfg, sh) && AnnouncedKept(cfg, sh)
  }

  predicate Holder(cfg: Config, sh: Shared, e: EventId, claim: Claim)
    requires e in cfg.inputs
  {
    Fenced(Row(sh, cfg.inputs[e].file), claim)
  }

  /** What a worker knows of the object its save will name.  While it has its lease no twin
      has been moved, so nobody takes its copy away. */
  ghost predicate JobObjects(cfg: Config, sh: Shared, e: EventId, job: Job)
    requires e in cfg.inputs
  {
    job.after.Complete? ==>
      if job.after.quarantined then
        && IsCondemned(cfg, e) && TwinOverwritten(cfg, sh, e)
        && (Holder(cfg, sh, e, job.claim) ==>
              Quarantine(cfg, cfg.inputs[e]) in sh.objects && TwinNotMoved(cfg, sh, e))
      else !IsCondemned(cfg, e) && Kept(cfg, sh, cfg.inputs[e], cfg.inputs[e].location)
  }

  ghost predicate WorkerObjects(cfg: Config, sh: Shared, wk: Worker)
    requires wk.event in cfg.inputs
  {
    match wk.pc
    case Copying(claim) =>
      IsCondemned(cfg, wk.event) && (Holder(cfg, sh, wk.event, claim) ==> TwinNotMoved(cfg, sh, wk.event))
    case Saving(job, _) => JobObjects(cfg, sh, wk.event, job)
    case CheckingReplay(job) => JobObjects(cfg, sh, wk.event, job)
    case Restoring(job) => JobObjects(cfg, sh, wk.event, job)
    case CheckingResult(job) => JobObjects(cfg, sh, wk.event, job)
    case Saved(job) => JobObjects(cfg, sh, wk.event, job)
    case Deleting(_) => IsCondemned(cfg, wk.event)
    case _ => true
  }

  ghost predicate ObjectInv(cfg: Config, sys: System)
    requires Inv(cfg, sys)
  {
    ObjectsOk(cfg, sys.sh) && forall w | w in sys.workers :: WorkerObjects(cfg, sys.sh, sys.workers[w])
  }

  // ------------------------------------------------------------------ effects

  /** The effect copies a condemned source to its quarantine place, removes the source of a
      moved upload, or completes an upload whose object is there. */
  ghost predicate Harmless(cfg: Config, sh: Shared, eff: Effect) {
    match eff
    case Copy(source, target) =>
      exists e :: IsCondemned(cfg, e) && source == cfg.inputs[e].location && target == Quarantine(cfg, cfg.inputs[e])
    case Remove(location, e) =>
      IsCondemned(cfg, e) && location == cfg.inputs[e].location && Relocated(cfg, sh, e)
    case Commit(_, claim, write, _) =>
      write.status == Completed && claim.event in cfg.inputs && cfg.inputs[claim.event].kind == FileUploaded ==>
        && Kept(cfg, sh, cfg.inputs[claim.event], write.location)
        && (IsCondemned(cfg, claim.event) ==>
              TwinOverwritten(cfg, sh, claim.event) && TwinNotMoved(cfg, sh, claim.event))
    case _ => true
  }

  lemma TurnHarmless(cfg: Config, sh: Shared, wk: Worker, act: Act)
    requires WorkerOk(cfg, sh, wk) && WorkerObjects(cfg, sh, wk)
    requires TurnOf(cfg, sh, wk, cfg.inputs[wk.event], act).Some?
    ensures Harmless(cfg, sh, TurnOf(cfg, sh, wk, cfg.inputs[wk.event], act).value.effect)
  {
  }

  /** The event of the new entry, if any, is of the file of the commit. */
  lemma NewlyMoved(cfg: Config, sh: Shared, eff: Effect, j: EventId)
    requires GoodEffect(cfg, sh, eff)
    ensures Relocated(cfg, Apply(cfg, sh, eff), j) <==>
              Relocated(cfg, sh, j)
              || (eff.Commit? && eff.claim.event == j && eff.write.status == Completed && j in cfg.inputs
                  && eff.write.location == Quarantine(cfg, cfg.inputs[j]))
  {
    var sh' := Apply(cfg, sh, eff);
    var n := |sh.log|;
    assert forall k | 0 <= k < n :: sh'.log[k] == sh.log[k];
    if eff.Commit? {
      assert |sh'.log| == n + 1 && sh'.log[n].Committed? && sh'.log[n].event == eff.claim.event;
    }
    if j in cfg.inputs && Relocated(cfg, sh, j) {
      var k :| 0 <= k < n && sh.log[k].Committed? && sh.log[k].event == j && sh.log[k].write.status == Completed
               && sh.log[k].write.location == Quarantine(cfg, cfg.inputs[j]);
      assert sh'.log[k] == sh.log[k];
    }
  }

  lemma OverwrittenStays(cfg: Config, sh: Shared, eff: Effect, e: EventId)
    requires Separated(cfg) && Applicable(sh, eff) && Harmless(cfg, sh, eff) && TwinOverwritten(cfg, sh, e)
    ensures TwinOverwritten(cfg, Apply(cfg, sh, eff), e)
  {
    forall i | Twins(cfg, i, e) ensures Overwritten(cfg, Apply(cfg, sh, eff), cfg.inputs[i].location) {
      assert Overwritten(cfg, sh, cfg.inputs[i].location);
      if eff.Copy? { CopyIsNotOriginal(cfg, i, e, sh.objects[eff.source]); }
    }
  }

  lemma TwinsStay(cfg: Config, sh: Shared, eff: Effect)
    requires Separated(cfg) && TwinsOk(cfg, sh) && GoodEffect(cfg, sh, eff) && Harmless(cfg, sh, eff)
    ensures TwinsOk(cfg, Apply(cfg, sh, eff))
  {
    var sh' := Apply(cfg, sh, eff);
    forall j | IsCondemned(cfg, j) && Relocated(cfg, sh', j)
      ensures TwinOverwritten(cfg, sh', j) && TwinNotMoved(cfg, sh', j)
    {
      NewlyMoved(cfg, sh, eff, j);
      OverwrittenStays(cfg, sh, eff, j);
      forall i | Twins(cfg, i, j) ensures !Relocated(cfg, sh', i) {
        TwinsMutual(cfg, i, j);
        NewlyMoved(cfg, sh, eff, i);
      }
    }
  }

  /** A harmless effect takes no object away that a moved upload is quarantined to. */
  lemma CopyStays(cfg: Config, sh: Shared, eff: Effect, e: EventId)
    requires Separated(cfg) && Applicable(sh, eff) && Harmless(cfg, sh, eff)
    requires IsCondemned(cfg, e) && TwinNotMoved(cfg, sh, e) && Quarantine(cfg, cfg.inputs[e]) in sh.objects
    ensures Quarantine(cfg, cfg.inputs[e]) in Apply(cfg, sh, eff).objects
  {
    if eff.Remove? {
      assert !Twins(cfg, eff.event, e);
    }
  }

  /** Nor an allowed source. */
  lemma AllowedStays(cfg: Config, sh: Shared, eff: Effect, at: Location)
    requires Applicable(sh, eff) && Harmless(cfg, sh, eff)
    requires at in sh.objects && at in cfg.uploads && !Denied(cfg.uploads[at].data)
    ensures at in Apply(cfg, sh, eff).objects
  {
  }

  lemma AnnouncedStays(cfg: Config, sh: Shared, eff: Effect, e: EventId)
    requires Separated(cfg) && ObjectsOk(cfg, sh) && OutboxOk(cfg, sh) && GoodEffect(cfg, sh, eff)
    requires Harmless(cfg, sh, eff) && Completion(e) in Apply(cfg, sh, eff).outbox
    ensures e in cfg.inputs && cfg.inputs[e].kind == FileUploaded
            && Kept(cfg, Apply(cfg, sh, eff), cfg.inputs[e], Apply(cfg, sh, eff).outbox[Completion(e)].location)
  {
    if Completion(e) in sh.outbox {
      var at := sh.outbox[Completion(e)].location;
      assert OutboxRowOk(cfg, sh, Completion(e));
      assert Kept(cfg, sh, cfg.inputs[e], at);
      if at == cfg.inputs[e].location && at in cfg.uploads && !Denied(cfg.uploads[at].data) {
        AllowedStays(cfg, sh, eff, at);
      } else {
        assert Relocated(cfg, sh, e);
        CopyStays(cfg, sh, eff, e);
      }
    }
  }

  lemma EffectObjects(cfg: Config, sh: Shared, eff: Effect)
    requires Separated(cfg) && ObjectsOk(cfg, sh) && OutboxOk(cfg, sh) && GoodEffect(cfg, sh, eff)
    requires Harmless(cfg, sh, eff)
    ensures ObjectsOk(cfg, Apply(cfg, sh, eff))
  {
    var sh' := Apply(cfg, sh, eff);
    TwinsStay(cfg, sh, eff);
    forall at | at in sh'.objects ensures Sourced(cfg, at, sh'.objects[at]) {
      if eff.Copy? && at == eff.target {
        var e :| IsCondemned(cfg, e) && eff.source == cfg.inputs[e].location
                 && eff.target == Quarantine(cfg, cfg.inputs[e]);
        CopyIsSourced(cfg, e, sh.objects[eff.source]);
      }
    }
    forall e | Completion(e) in sh'.outbox
      ensures e in cfg.inputs && cfg.inputs[e].kind == FileUploaded
              && Kept(cfg, sh', cfg.inputs[e], sh'.outbox[Completion(e)].location)
    {
      AnnouncedStays(cfg, sh, eff, e);
    }
  }

  // ------------------------------------------------------------ other workers

  /** A worker that has its lease afterwards had it before, and the commit, if any, was of
      another file. */
  lemma HolderBack(cfg: Config, sh: Shared, eff: Effect, e: EventId, claim: Claim)
    requires GoodEffect(cfg, sh, eff) && e in cfg.inputs && ClaimOk(sh, cfg.inputs[e].file, e, claim)
    requires Holder(cfg, Apply(cfg, sh, eff), e, claim)
    ensures Holder(cfg, sh, e, claim) && (eff.Commit? ==> eff.file != cfg.inputs[e].file)
  {
  }

  lemma NotMovedStays(cfg: Config, sh: Shared, eff: Effect, e: EventId)
    requires Separated(cfg) && GoodEffect(cfg, sh, eff) && TwinNotMoved(cfg, sh, e) && e in cfg.inputs
    requires eff.Commit? ==> eff.file != cfg.inputs[e].file
    ensures TwinNotMoved(cfg, Apply(cfg, sh, eff), e)
  {
    forall i | Twins(cfg, i, e) ensures !Relocated(cfg, Apply(cfg, sh, eff), i) {
      TwinsMutual(cfg, i, e);
      NewlyMoved(cfg, sh, eff, i);
    }
  }

  lemma JobStays(cfg: Config, sh: Shared, eff: Effect, e: EventId, job: Job)
    requires Separated(cfg) && GoodEffect(cfg, sh, eff) && Harmless(cfg, sh, eff)
    requires e in cfg.inputs && ClaimOk(sh, cfg.inputs[e].file, e, job.claim) && JobObjects(cfg, sh, e, job)
    ensures JobObjects(cfg, Apply(cfg, sh, eff), e, job)
  {
    if job.after.Complete? && job.after.quarantined {
      OverwrittenStays(cfg, sh, eff, e);
      if Holder(cfg, Apply(cfg, sh, eff), e, job.claim) {
        HolderBack(cfg, sh, eff, e, job.claim);
        NotMovedStays(cfg, sh, eff, e);
        CopyStays(cfg, sh, eff, e);
      }
    } else if job.after.Complete? {
      KeptSource(cfg, sh, e);
      AllowedStays(cfg, sh, eff, cfg.inputs[e].location);
    }
  }

  lemma KeptSource(cfg: Config, sh: Shared, e: EventId)
    requires e in cfg.inputs && !IsCondemned(cfg, e) && Kept(cfg, sh, cfg.inputs[e], cfg.inputs[e].location)
    ensures cfg.inputs[e].location in cfg.uploads && !Denied(cfg.uploads[cfg.inputs[e].location].data)
  {
  }

  lemma WorkerObjectsStay(cfg: Config, sh: Shared, eff: Effect, wk: Worker)
    requires Separated(cfg) && GoodEffect(cfg, sh, eff) && Harmless(cfg, sh, eff)
    requires WorkerOk(cfg, sh, wk) && WorkerObjects(cfg, sh, wk)
    ensures WorkerObjects(cfg, Apply(cfg, sh, eff), wk)
  {
    match wk.pc
    case Copying(claim) =>
      if Holder(cfg, Apply(cfg, sh, eff), wk.event, claim) {
        HolderBack(cfg, sh, eff, wk.event, claim);
        NotMovedStays(cfg, sh, eff, wk.event);
      }
    case Saving(job, _) => JobStays(cfg, sh, eff, wk.event, job);
    case CheckingReplay(job) => JobStays(cfg, sh, eff, wk.event, job);
    case Restoring(job) => JobStays(cfg, sh, eff, wk.event, job);
    case CheckingResult(job) => JobStays(cfg, sh, eff, wk.event, job);
    case Saved(job) => JobStays(cfg, sh, eff, wk.event, job);
    case _ =>
  }

  // --------------------------------------------------------------- own worker

  /** An accepted object is the uploaded one; so no twin was moved before. */
  lemma FetchObjects(cfg: Config, sh: Shared, wk: Worker, act: Act)
    requires Separated(cfg) && ObjectsOk(cfg, sh) && WorkerOk(cfg, sh, wk)
    requires wk.pc.Downloading? && act.Fetch?
    requires FetchTurn(cfg, sh, wk, cfg.inputs[wk.event], wk.pc.claim, act).Some?
    ensures var t := FetchTurn(cfg, sh, wk, cfg.inputs[wk.event], wk.pc.claim, act).value;
            t.effect == Nothing && WorkerObjects(cfg, sh, Advance(wk, act, t))
  {
    var ev := cfg.inputs[wk.event];
    if ev.location in sh.objects && Accepts(cfg, ev, sh.objects[ev.location]) {
      AcceptedIsUploaded(cfg, wk.event, sh.objects[ev.location]);
      forall i | Twins(cfg, i, wk.event) ensures !Relocated(cfg, sh, i) {
        TwinsMutual(cfg, i, wk.event);
      }
    }
  }

  lemma CopyObjects(cfg: Config, sh: Shared, wk: Worker, act: Act)
    requires Separated(cfg) && WorkerOk(cfg, sh, wk) && WorkerObjects(cfg, sh, wk) && wk.pc.Copying? && act.CopyObject?
    requires CopyTurn(cfg, sh, wk, cfg.inputs[wk.event], wk.pc.claim, act).Some?
    ensures var t := CopyTurn(cfg, sh, wk, cfg.inputs[wk.event], wk.pc.claim, act).value;
            Applicable(sh, t.effect) && WorkerObjects(cfg, Apply(cfg, sh, t.effect), Advance(wk, act, t))
  {
    var ev := cfg.inputs[wk.event];
    if ev.location in sh.objects {
      forall i | Twins(cfg, i, wk.event) ensures Reencrypted(cfg, sh.objects[ev.location])
                                                 != cfg.uploads[cfg.inputs[i].location] {
        CopyIsNotOriginal(cfg, i, wk.event, sh.objects[ev.location]);
      }
    }
  }

  /** These program counters carry only what the job they came from carries. */
  predicate Carries(pc: Pc, job: Job) {
    pc == Saving(job, true) || pc == CheckingReplay(job) || pc == Restoring(job) || pc == CheckingResult(job)
    || pc == Saved(job) || pc == Onward(job) || pc.Failing? || pc.Done?
  }

  lemma CarriedObjects(cfg: Config, sh: Shared, wk: Worker, job: Job)
    requires wk.event in cfg.inputs && JobObjects(cfg, sh, wk.event, job) && Carries(wk.pc, job)
    ensures WorkerObjects(cfg, sh, wk)
  {
  }

  lemma TransactCarries(sh: Shared, ev: InputEvent, job: Job, landed: bool, act: Act)
    requires act.Transact? && TransactTurn(sh, ev, job, landed, act).Some?
    ensures Carries(TransactTurn(sh, ev, job, landed, act).value.pc, job)
  {
  }

  lemma JobTurnCarries(cfg: Config, sh: Shared, wk: Worker, ev: InputEvent, act: Act)
    requires wk.pc.CheckingReplay? || wk.pc.Restoring? || wk.pc.CheckingResult? || wk.pc.Saved?
    requires TurnOf(cfg, sh, wk, ev, act).Some?
    ensures Carries(TurnOf(cfg, sh, wk, ev, act).value.pc, wk.pc.job)
  {
  }

  /** These program counters say nothing of any object. */
  predicate Light(pc: Pc) {
    match pc
    case Copying(_) => false
    case Deleting(_) => false
    case Saving(job, _) => job.after.Report?
    case CheckingReplay(_) => false
    case Restoring(_) => false
    case CheckingResult(_) => false
    case Saved(_) => false
    case _ => true
  }

  lemma OtherTurnsAreLight(cfg: Config, sh: Shared, wk: Worker, ev: InputEvent, act: Act)
    requires wk.pc.Reading? || wk.pc.Claiming? || wk.pc.Rereading? || wk.pc.SavingScan? || wk.pc.Deleting?
             || wk.pc.Failing?
    requires TurnOf(cfg, sh, wk, ev, act).Some?
    ensures var pc := TurnOf(cfg, sh, wk, ev, act).value.pc; Light(pc) || (wk.pc.Deleting? && pc == wk.pc)
  {
  }

  lemma OwnWorkerObjects(cfg: Config, sh: Shared, wk: Worker, act: Act)
    requires Separated(cfg) && ObjectsOk(cfg, sh) && WorkerOk(cfg, sh, wk) && WorkerObjects(cfg, sh, wk)
    requires TurnOf(cfg, sh, wk, cfg.inputs[wk.event], act).Some?
    requires GoodEffect(cfg, sh, TurnOf(cfg, sh, wk, cfg.inputs[wk.event], act).value.effect)
    requires Harmless(cfg, sh, TurnOf(cfg, sh, wk, cfg.inputs[wk.event], act).value.effect)
    ensures var t := TurnOf(cfg, sh, wk, cfg.inputs[wk.event], act).value;
            WorkerObjects(cfg, Apply(cfg, sh, t.effect), Advance(wk, act, t))
  {
    var ev := cfg.inputs[wk.event];
    var t := TurnOf(cfg, sh, wk, ev, act).value;
    match wk.pc
    case Downloading(_) => FetchObjects(cfg, sh, wk, act);
    case Copying(_) => CopyObjects(cfg, sh, wk, act);
    case Saving(job, landed) =>
      TransactCarries(sh, ev, job, landed, act);
      JobTurnObjects(cfg, sh, wk, act, t, job);
    case CheckingReplay(job) =>
      JobTurnCarries(cfg, sh, wk, ev, act);
      JobTurnObjects(cfg, sh, wk, act, t, job);
    case Restoring(job) =>
      JobTurnCarries(cfg, sh, wk, ev, act);
      JobTurnObjects(cfg, sh, wk, act, t, job);
    case CheckingResult(job) =>
      JobTurnCarries(cfg, sh, wk, ev, act);
      JobTurnObjects(cfg, sh, wk, act, t, job);
    case Saved(job) =>
      JobTurnCarries(cfg, sh, wk, ev, act);
      JobTurnObjects(cfg, sh, wk, act, t, job);
    case _ => OtherTurnsAreLight(cfg, sh, wk, ev, act);
  }

  lemma JobTurnObjects(cfg: Config, sh: Shared, wk: Worker, act: Act, t: Turn, job: Job)
    requires Separated(cfg) && GoodEffect(cfg, sh, t.effect) && Harmless(cfg, sh, t.effect)
    requires wk.event in cfg.inputs && ClaimOk(sh, cfg.inputs[wk.event].file, wk.event, job.claim)
    requires JobObjects(cfg, sh, wk.event, job) && Carries(t.pc, job)
    ensures WorkerObjects(cfg, Apply(cfg, sh, t.effect), Advance(wk, act, t))
  {
    JobStays(cfg, sh, t.effect, wk.event, job);
    CarriedObjects(cfg, Apply(cfg, sh, t.effect), Advance(wk, act, t), job);
  }

  // --------------------------------------------------------------------- runs

  lemma StepKeepsObjects(cfg: Config, sys: System, step: Step)
    requires Separated(cfg) && Inv(cfg, sys) && ObjectInv(cfg, sys) && StepOf(cfg, sys, step).Some?
    ensures Inv(cfg, StepOf(cfg, sys, step).value) && ObjectInv(cfg, StepOf(cfg, sys, step).value)
  {
    StepKeepsInv(cfg, sys, step);
    if step.Work? {
      WorkKeepsObjects(cfg, sys, step.w, step.act);
    }
  }

  lemma WorkKeepsObjects(cfg: Config, sys: System, w: nat, act: Act)
    requires Separated(cfg) && Inv(cfg, sys) && ObjectInv(cfg, sys) && StepOf(cfg, sys, Work(w, act)).Some?
    ensures var sys' := StepOf(cfg, sys, Work(w, act)).value;
            ObjectsOk(cfg, sys'.sh) && forall v | v in sys'.workers ::
              sys'.workers[v].event in cfg.inputs && WorkerObjects(cfg, sys'.sh, sys'.workers[v])
  {
    var wk := sys.workers[w];
    var eff := TurnOf(cfg, sys.sh, wk, cfg.inputs[wk.event], act).value.effect;
    var sys' := StepOf(cfg, sys, Work(w, act)).value;
    TurnGood(cfg, sys.sh, wk, act);
    TurnHarmless(cfg, sys.sh, wk, act);
    EffectObjects(cfg, sys.sh, eff);
    forall v | v in sys'.workers
      ensures sys'.workers[v].event in cfg.inputs && WorkerObjects(cfg, sys'.sh, sys'.workers[v])
    {
      if v == w {
        OwnWorkerObjects(cfg, sys.sh, wk, act);
      } else {
        WorkerObjectsStay(cfg, sys.sh, eff, sys.workers[v]);
      }
    }
  }

  lemma {:induction false} RunKeepsObjects(cfg: Config, start: System, steps: seq<Step>)
    requires Separated(cfg) && Init(cfg, start) && Run(cfg, start, steps).Some?
    ensures Inv(cfg, Run(cfg, start, steps).value) && ObjectInv(cfg, Run(cfg, start, steps).value)
  {
    if steps == [] {
      InitInv(cfg, start);
    } else {
      var before := Run(cfg, start, steps[..|steps| - 1]).value;
      RunKeepsObjects(cfg, start, steps[..|steps| - 1]);
      StepKeepsObjects(cfg, before, steps[|steps| - 1]);
    }
  }

  /** The row is COMPLETED, and an upload event was the last it processed. */
  predicate CompletedUpload(cfg: Config, m: Meta) {
    m.status == Completed && m.last.Some? && m.last.value in cfg.inputs
    && cfg.inputs[m.last.value].kind == FileUploaded
  }

  /**
   In every reachable state a COMPLETED row written for an upload names an object
   that exists, and it is the event's own allowed source or its quarantine copy.
   */
  lemma CompletedObjectExists(cfg: Config, start: System, steps: seq<Step>, f: FileId)
    requires Separated(cfg) && Init(cfg, start) && Run(cfg, start, steps).Some?
    requires f in Run(cfg, start, steps).value.sh.meta
    requires CompletedUpload(cfg, Run(cfg, start, steps).value.sh.meta[f])
    ensures var sh := Run(cfg, start, steps).value.sh;
            Kept(cfg, sh, cfg.inputs[sh.meta[f].last.value], sh.meta[f].location)
  {
    RunKeepsObjects(cfg, start, steps);
    var sh := Run(cfg, start, steps).value.sh;
    assert Announced(cfg, sh, sh.meta[f]);
  }

  /** Every object an outbox event announces exists, from the commit that inserts the
      event on, whatever stale workers copy or delete afterwards. */
  lemma AnnouncedObjectsExist(cfg: Config, start: System, steps: seq<Step>)
    requires Separated(cfg) && Init(cfg, start) && Run(cfg, start, steps).Some?
    ensures AnnouncedKept(cfg, Run(cfg, start, steps).value.sh)
  {
    RunKeepsObjects(cfg, start, steps);
  }

  /** A source is deleted only after a commit that names its quarantine copy. */
  lemma DeletedAfterCommit(cfg: Config, start: System, steps: seq<Step>, j: nat)
    requires Init(cfg, start) && Run(cfg, start, steps).Some?
    requires j < |Run(cfg, start, steps).value.sh.log| && Run(cfg, start, steps).value.sh.log[j].Removed?
    ensures var log := Run(cfg, start, steps).value.sh.log;
            var x := log[j];
            && x.event in cfg.inputs && x.location == cfg.inputs[x.event].location
            && exists i :: 0 <= i < j && log[i].Committed? && log[i].event == x.event
                           && log[i].write.status == Completed
                           && log[i].write.location == Quarantine(cfg, cfg.inputs[x.event])
  {
    RunKeepsInv(cfg, start, steps);
    var log := Run(cfg, start, steps).value.sh.log;
    assert EntryOk(cfg, log[..j], log[j]);
    var i :| 0 <= i < j && log[..j][i].Committed? && log[..j][i].event == log[j].event
             && log[..j][i].write.status == Completed
             && log[..j][i].write.location == Quarantine(cfg, cfg.inputs[log[j].event]);
    assert log[i] == log[..j][i];
  }
}
