/**
 What the stored objects contain.  A row and its announcement carry a hash; the object
 they name has just that hash, exactly when uploads and quarantine places are apart in
 content as well.
 */
module ObjectContents {
  import opened Options
  import opened Domain
  import opened LeaseStore
  import opened FileProcessor
  import opened ProcessorInvariant
  import opened ProcessorSteps
  import opened ObjectSafety
  import Solo = SoloRuns
  import Separation
  import Runs = Boundaries

  predicate IsProcessable(cfg: Config, i: EventId) {
    i in cfg.inputs && Processable(cfg, cfg.inputs[i])
  }

  /** Event `i` expects its content at this place: as its source, or as its quarantine copy. */
  predicate Expects(cfg: Config, i: EventId, at: Location) {
    (IsProcessable(cfg, i) && at == cfg.inputs[i].location)
    || (IsCondemned(cfg, i) && at == Quarantine(cfg, cfg.inputs[i]))
  }

  /** Where a condemned upload is quarantined, no upload expects another content. */
  ghost predicate ContentsApart(cfg: Config) {
    forall i, j | IsCondemned(cfg, j) && Expects(cfg, i, Quarantine(cfg, cfg.inputs[j])) ::
      cfg.inputs[i].checksum == cfg.inputs[j].checksum
  }

  // ---------------------------------------------------------------- invariant

  /** The object, if there is one, has this hash. */
  predicate Hashed(cfg: Config, sh: Shared, at: Location, hash: string) {
    at in sh.objects ==> cfg.digest(sh.objects[at].data) == hash
  }

  /** The event expects its content at this place, and finds it there if anything. */
  predicate Finds(cfg: Config, sh: Shared, e: EventId, at: Location) {
    Expects(cfg, e, at) && Hashed(cfg, sh, at, cfg.inputs[e].checksum)
  }

  ghost predicate SourcesHashed(cfg: Config, sh: Shared) {
    forall i | IsProcessable(cfg, i) :: Hashed(cfg, sh, cfg.inputs[i].location, cfg.inputs[i].checksum)
  }

  predicate CompletionHashed(cfg: Config, sh: Shared, p: Payload) {
    p.id.Completion? ==>
      Finds(cfg, sh, p.id.input, p.location) && p.body.Analysis? && p.body.hash == cfg.inputs[p.id.input].checksum
  }

  ghost predicate OutboxHashed(cfg: Config, sh: Shared) {
    forall id | id in sh.outbox :: sh.outbox[id].id == id && CompletionHashed(cfg, sh, sh.outbox[id])
  }

  predicate JobHashed(cfg: Config, sh: Shared, e: EventId, job: Job) {
    job.after.Complete? ==> Finds(cfg, sh, e, job.write.location)
  }

  predicate WorkerHashed(cfg: Config, sh: Shared, wk: Worker) {
    match wk.pc
    case Saving(job, _) => JobHashed(cfg, sh, wk.event, job)
    case CheckingReplay(job) => JobHashed(cfg, sh, wk.event, job)
    case Restoring(job) => JobHashed(cfg, sh, wk.event, job)
    case CheckingResult(job) => JobHashed(cfg, sh, wk.event, job)
    case Saved(job) => JobHashed(cfg, sh, wk.event, job)
    case _ => true
  }

  ghost predicate ContentInv(cfg: Config, sys: System) {
    && SourcesHashed(cfg, sys.sh) && OutboxHashed(cfg, sys.sh)
    && forall w | w in sys.workers :: WorkerHashed(cfg, sys.sh, sys.workers[w])
  }

  // -------------------------------------------------------------------- steps

  /** A harmless effect puts no other content where an event expects its own. */
  lemma FindsStays(cfg: Config, sh: Shared, eff: Effect, e: EventId, at: Location)
    requires ContentsApart(cfg) && SourcesHashed(cfg, sh) && Applicable(sh, eff) && Harmless(cfg, sh, eff)
    requires Finds(cfg, sh, e, at)
    ensures Finds(cfg, Apply(cfg, sh, eff), e, at)
  {
    if eff.Copy? && at == eff.target {
      var k :| IsCondemned(cfg, k) && eff.source == cfg.inputs[k].location
               && eff.target == Quarantine(cfg, cfg.inputs[k]);
      assert IsProcessable(cfg, k);
    }
  }

  lemma SourcesStay(cfg: Config, sh: Shared, eff: Effect)
    requires ContentsApart(cfg) && SourcesHashed(cfg, sh) && Applicable(sh, eff) && Harmless(cfg, sh, eff)
    ensures SourcesHashed(cfg, Apply(cfg, sh, eff))
  {
    forall i | IsProcessable(cfg, i)
      ensures Hashed(cfg, Apply(cfg, sh, eff), cfg.inputs[i].location, cfg.inputs[i].checksum)
    {
      FindsStays(cfg, sh, eff, i, cfg.inputs[i].location);
    }
  }

  lemma OutboxStays(cfg: Config, sh: Shared, eff: Effect)
    requires ContentsApart(cfg) && SourcesHashed(cfg, sh) && Applicable(sh, eff) && Harmless(cfg, sh, eff)
    requires OutboxHashed(cfg, sh)
    requires eff.Commit? && eff.insert.Some? ==> CompletionHashed(cfg, sh, eff.insert.value)
    ensures OutboxHashed(cfg, Apply(cfg, sh, eff))
  {
    var sh' := Apply(cfg, sh, eff);
    forall id | id in sh'.outbox ensures sh'.outbox[id].id == id && CompletionHashed(cfg, sh', sh'.outbox[id]) {
      if id.Completion? { FindsStays(cfg, sh, eff, id.input, sh'.outbox[id].location); }
    }
  }

  lemma JobHashedStays(cfg: Config, sh: Shared, eff: Effect, e: EventId, job: Job)
    requires ContentsApart(cfg) && SourcesHashed(cfg, sh) && Applicable(sh, eff) && Harmless(cfg, sh, eff)
    requires JobHashed(cfg, sh, e, job)
    ensures JobHashed(cfg, Apply(cfg, sh, eff), e, job)
  {
    if job.after.Complete? { FindsStays(cfg, sh, eff, e, job.write.location); }
  }

  lemma WorkerHashedStays(cfg: Config, sh: Shared, eff: Effect, wk: Worker)
    requires ContentsApart(cfg) && SourcesHashed(cfg, sh) && Applicable(sh, eff) && Harmless(cfg, sh, eff)
    requires WorkerHashed(cfg, sh, wk)
    ensures WorkerHashed(cfg, Apply(cfg, sh, eff), wk)
  {
    match wk.pc
    case Saving(job, _) => JobHashedStays(cfg, sh, eff, wk.event, job);
    case CheckingReplay(job) => JobHashedStays(cfg, sh, eff, wk.event, job);
    case Restoring(job) => JobHashedStays(cfg, sh, eff, wk.event, job);
    case CheckingResult(job) => JobHashedStays(cfg, sh, eff, wk.event, job);
    case Saved(job) => JobHashedStays(cfg, sh, eff, wk.event, job);
    case _ =>
  }

  /** An accepted object is the uploaded one, so the event is processable. */
  lemma FetchHashed(cfg: Config, sh: Shared, wk: Worker, act: Act)
    requires Separated(cfg) && ObjectsOk(cfg, sh) && SourcesHashed(cfg, sh) && WorkerOk(cfg, sh, wk)
    requires wk.pc.Downloading? && act.Fetch?
    requires FetchTurn(cfg, sh, wk, cfg.inputs[wk.event], wk.pc.claim, act).Some?
    ensures WorkerHashed(cfg, sh, Advance(wk, act,
                                          FetchTurn(cfg, sh, wk, cfg.inputs[wk.event], wk.pc.claim, act).value))
  {
    var ev := cfg.inputs[wk.event];
    if ev.location in sh.objects && Accepts(cfg, ev, sh.objects[ev.location]) {
      AcceptedIsUploaded(cfg, wk.event, sh.objects[ev.location]);
      assert IsProcessable(cfg, wk.event);
    }
  }

  lemma CopyHashed(cfg: Config, sh: Shared, wk: Worker, act: Act)
    requires SourcesHashed(cfg, sh) && WorkerOk(cfg, sh, wk) && WorkerObjects(cfg, sh, wk)
    requires wk.pc.Copying? && act.CopyObject?
    requires CopyTurn(cfg, sh, wk, cfg.inputs[wk.event], wk.pc.claim, act).Some?
    ensures var t := CopyTurn(cfg, sh, wk, cfg.inputs[wk.event], wk.pc.claim, act).value;
            Applicable(sh, t.effect) && WorkerHashed(cfg, Apply(cfg, sh, t.effect), Advance(wk, act, t))
  {
    assert IsProcessable(cfg, wk.event);
  }

  lemma CarriedHashed(cfg: Config, sh: Shared, wk: Worker, job: Job)
    requires JobHashed(cfg, sh, wk.event, job) && Carries(wk.pc, job)
    ensures WorkerHashed(cfg, sh, wk)
  {
  }

  lemma JobTurnHashed(cfg: Config, sh: Shared, wk: Worker, act: Act, t: Turn, job: Job)
    requires ContentsApart(cfg) && SourcesHashed(cfg, sh) && Applicable(sh, t.effect) && Harmless(cfg, sh, t.effect)
    requires JobHashed(cfg, sh, wk.event, job) && Carries(t.pc, job)
    ensures WorkerHashed(cfg, Apply(cfg, sh, t.effect), Advance(wk, act, t))
  {
    JobHashedStays(cfg, sh, t.effect, wk.event, job);
    CarriedHashed(cfg, Apply(cfg, sh, t.effect), Advance(wk, act, t), job);
  }

  lemma OwnWorkerHashed(cfg: Config, sh: Shared, wk: Worker, act: Act)
    requires Separated(cfg) && ContentsApart(cfg) && ObjectsOk(cfg, sh) && SourcesHashed(cfg, sh)
    requires WorkerOk(cfg, sh, wk) && WorkerObjects(cfg, sh, wk) && WorkerHashed(cfg, sh, wk)
    requires TurnOf(cfg, sh, wk, cfg.inputs[wk.event], act).Some?
    requires Applicable(sh, TurnOf(cfg, sh, wk, cfg.inputs[wk.event], act).value.effect)
    requires Harmless(cfg, sh, TurnOf(cfg, sh, wk, cfg.inputs[wk.event], act).value.effect)
    ensures var t := TurnOf(cfg, sh, wk, cfg.inputs[wk.event], act).value;
            WorkerHashed(cfg, Apply(cfg, sh, t.effect), Advance(wk, act, t))
  {
    var ev := cfg.inputs[wk.event];
    var t := TurnOf(cfg, sh, wk, ev, act).value;
    match wk.pc
    case Downloading(_) =>
      FetchHashed(cfg, sh, wk, act);
      FetchObjects(cfg, sh, wk, act);
    case Copying(_) => CopyHashed(cfg, sh, wk, act);
    case Saving(job, landed) =>
      TransactCarries(sh, ev, job, landed, act);
      JobTurnHashed(cfg, sh, wk, act, t, job);
    case CheckingReplay(job) =>
      JobTurnCarries(cfg, sh, wk, ev, act);
      JobTurnHashed(cfg, sh, wk, act, t, job);
    case Restoring(job) =>
      JobTurnCarries(cfg, sh, wk, ev, act);
      JobTurnHashed(cfg, sh, wk, act, t, job);
    case CheckingResult(job) =>
      JobTurnCarries(cfg, sh, wk, ev, act);
      JobTurnHashed(cfg, sh, wk, act, t, job);
    case Saved(job) =>
      JobTurnCarries(cfg, sh, wk, ev, act);
      JobTurnHashed(cfg, sh, wk, act, t, job);
    case _ => OtherTurnsAreLight(cfg, sh, wk, ev, act);
  }

  lemma TurnInsertsHashed(cfg: Config, sh: Shared, wk: Worker, act: Act)
    requires WorkerOk(cfg, sh, wk) && WorkerHashed(cfg, sh, wk)
    requires TurnOf(cfg, sh, wk, cfg.inputs[wk.event], act).Some?
    ensures var eff := TurnOf(cfg, sh, wk, cfg.inputs[wk.event], act).value.effect;
            eff.Commit? && eff.insert.Some? ==> CompletionHashed(cfg, sh, eff.insert.value)
  {
  }

  lemma WorkKeepsContents(cfg: Config, sys: System, w: nat, act: Act)
    requires Separated(cfg) && ContentsApart(cfg) && Inv(cfg, sys) && ObjectInv(cfg, sys) && ContentInv(cfg, sys)
    requires StepOf(cfg, sys, Work(w, act)).Some?
    ensures ContentInv(cfg, StepOf(cfg, sys, Work(w, act)).value)
  {
    var wk := sys.workers[w];
    var eff := TurnOf(cfg, sys.sh, wk, cfg.inputs[wk.event], act).value.effect;
    var sys' := StepOf(cfg, sys, Work(w, act)).value;
    TurnHarmless(cfg, sys.sh, wk, act);
    TurnInsertsHashed(cfg, sys.sh, wk, act);
    SourcesStay(cfg, sys.sh, eff);
    OutboxStays(cfg, sys.sh, eff);
    forall v | v in sys'.workers ensures WorkerHashed(cfg, sys'.sh, sys'.workers[v]) {
      if v == w {
        OwnWorkerHashed(cfg, sys.sh, wk, act);
      } else {
        WorkerHashedStays(cfg, sys.sh, eff, sys.workers[v]);
      }
    }
  }

  lemma {:induction false} RunKeepsContents(cfg: Config, start: System, steps: seq<Step>)
    requires Separated(cfg) && ContentsApart(cfg) && Init(cfg, start) && Run(cfg, start, steps).Some?
    ensures ContentInv(cfg, Run(cfg, start, steps).value)
  {
    if steps != [] {
      var n := |steps| - 1;
      RunKeepsContents(cfg, start, steps[..n]);
      RunKeepsObjects(cfg, start, steps[..n]);
      if steps[n].Work? {
        WorkKeepsContents(cfg, Run(cfg, start, steps[..n]).value, steps[n].w, steps[n].act);
      }
    }
  }

  // ------------------------------------------------------------------ theorems

  /** The object is there and has this hash. */
  predicate Matches(cfg: Config, sh: Shared, at: Location, hash: string) {
    at in sh.objects && cfg.digest(sh.objects[at].data) == hash
  }

  /** Every completion in the outbox names an object that has the announced hash. */
  predicate AnnouncementsMatch(cfg: Config, sh: Shared) {
    forall id | id in sh.outbox && id.Completion? ::
      sh.outbox[id].body.Analysis? && Matches(cfg, sh, sh.outbox[id].location, sh.outbox[id].body.hash)
  }

  /** Every COMPLETED row of an upload names an object that has the recorded hash. */
  ghost predicate RowsMatch(cfg: Config, sh: Shared) {
    forall f | f in sh.meta && CompletedUpload(cfg, sh.meta[f]) ::
      sh.meta[f].hash.Some? && Matches(cfg, sh, sh.meta[f].location, sh.meta[f].hash.value)
  }

  lemma ApartMatch(cfg: Config, start: System, sys: System)
    requires Separated(cfg) && ContentsApart(cfg) && Init(cfg, start) && ReachableFrom(cfg, start, sys)
    ensures AnnouncementsMatch(cfg, sys.sh) && RowsMatch(cfg, sys.sh)
  {
    var steps :| Run(cfg, start, steps) == Some(sys);
    RunKeepsContents(cfg, start, steps);
    RunKeepsObjects(cfg, start, steps);
    forall f | f in sys.sh.meta && CompletedUpload(cfg, sys.sh.meta[f])
      ensures sys.sh.meta[f].hash.Some? && Matches(cfg, sys.sh, sys.sh.meta[f].location, sys.sh.meta[f].hash.value)
    {
      assert Announced(cfg, sys.sh, sys.sh.meta[f]);
    }
  }

  /** The completion of `e` announces another hash than the object has. */
  predicate Mismatch(cfg: Config, sh: Shared, e: EventId) {
    && Completion(e) in sh.outbox && sh.outbox[Completion(e)].body.Analysis?
    && !Matches(cfg, sh, sh.outbox[Completion(e)].location, sh.outbox[Completion(e)].body.hash)
  }

  /** An upload is completed; then `j` is quarantined to the place it names. */
  lemma OverwritesCompleted(cfg: Config, start: System, done: System, i: EventId, j: EventId) returns (later: System)
    requires ReachableFrom(cfg, start, done) && cfg.skew >= 0.0 && 1 !in done.workers && 1 !in done.sh.tokens
    requires IsCondemned(cfg, j) && i in cfg.inputs && i != j && cfg.inputs[i].checksum != cfg.inputs[j].checksum
    requires Solo.Announces(done.sh, i, Quarantine(cfg, cfg.inputs[j]), cfg.inputs[i].checksum)
    requires Solo.Intact(cfg, done.sh, cfg.inputs[j]) && Solo.Free(cfg, done.sh, j, 0.0)
    requires Completion(j) !in done.sh.outbox
    ensures ReachableFrom(cfg, start, later) && Mismatch(cfg, later.sh, i)
  {
    later := Solo.HandlesDenied(cfg, start, done, 1, j, 1, 0.0, 0);
  }

  /** A condemned upload does not read from its own quarantine place, nor from the source of
      one with another checksum. */
  lemma SourcesDiffer(cfg: Config, i: EventId, j: EventId)
    requires Separated(cfg) && IsProcessable(cfg, i) && IsCondemned(cfg, j)
    requires cfg.inputs[i].checksum != cfg.inputs[j].checksum
    ensures cfg.inputs[j].location != Quarantine(cfg, cfg.inputs[j])
    ensures cfg.inputs[j].location != cfg.inputs[i].location
  {
    assert !Twins(cfg, j, j) by {
      if Twins(cfg, j, j) { TwinsMutual(cfg, j, j); }
    }
  }

  /** Two condemned uploads with different contents and one quarantine place. */
  lemma SharedPlace(cfg: Config, start: System, i: EventId, j: EventId) returns (later: System)
    requires Separated(cfg) && Init(cfg, start) && cfg.skew >= 0.0 && IsCondemned(cfg, i) && IsCondemned(cfg, j)
    requires Quarantine(cfg, cfg.inputs[i]) == Quarantine(cfg, cfg.inputs[j])
    requires cfg.inputs[i].checksum != cfg.inputs[j].checksum
    ensures ReachableFrom(cfg, start, later) && Mismatch(cfg, later.sh, i)
  {
    SourcesDiffer(cfg, i, j);
    ReachesItself(cfg, start);
    var done := Solo.HandlesDenied(cfg, start, start, 0, i, 0, 0.0, 0);
    later := OverwritesCompleted(cfg, start, done, i, j);
  }

  /** An allowed upload reads from where another content is quarantined. */
  lemma AllowedPlace(cfg: Config, start: System, i: EventId, j: EventId) returns (later: System)
    requires Separated(cfg) && Init(cfg, start) && cfg.skew >= 0.0 && IsProcessable(cfg, i) && IsCondemned(cfg, j)
    requires !IsCondemned(cfg, i) && cfg.inputs[i].location == Quarantine(cfg, cfg.inputs[j])
    requires cfg.inputs[i].checksum != cfg.inputs[j].checksum
    ensures ReachableFrom(cfg, start, later) && Mismatch(cfg, later.sh, i)
  {
    SourcesDiffer(cfg, i, j);
    var done := AllowedDone(cfg, start, i);
    later := OverwritesCompleted(cfg, start, done, i, j);
  }

  lemma AllowedDone(cfg: Config, start: System, i: EventId) returns (done: System)
    requires Init(cfg, start) && cfg.skew >= 0.0 && IsProcessable(cfg, i) && !IsCondemned(cfg, i)
    ensures ReachableFrom(cfg, start, done) && done.workers.Keys == {0} && done.sh.tokens == {0}
    ensures done.sh.objects == cfg.uploads && done.sh.outbox.Keys == {Completion(i)}
    ensures Solo.Announces(done.sh, i, cfg.inputs[i].location, cfg.inputs[i].checksum)
    ensures forall e | e in cfg.inputs && e != i :: Solo.Free(cfg, done.sh, e, 0.0)
  {
    ReachesItself(cfg, start);
    var leased := Solo.TakesLease(cfg, start, start, 0, i, 0, 0.0, 0);
    done := Runs.SavesAllowed(cfg, start, leased, 0, i, Solo.ClaimFor(cfg, start.sh, i, 0), 0);
  }

  /** Twins: the copy that comes back is not the one the other announces. */
  lemma TwinPlace(cfg: Config, start: System, i: EventId, j: EventId) returns (later: System)
    requires Separated(cfg) && Init(cfg, start) && cfg.skew >= 0.0 && Twins(cfg, i, j)
    requires cfg.inputs[i].checksum != cfg.inputs[j].checksum
    ensures ReachableFrom(cfg, start, later) && Mismatch(cfg, later.sh, j)
  {
    TwinsMutual(cfg, i, j);
    var job;
    later, job := Separation.CopyComesBack(cfg, start, i, j);
  }

  lemma Mismatches(cfg: Config, start: System, i: EventId, j: EventId) returns (later: System)
    requires Separated(cfg) && Init(cfg, start) && cfg.skew >= 0.0
    requires IsCondemned(cfg, j) && Expects(cfg, i, Quarantine(cfg, cfg.inputs[j]))
    requires cfg.inputs[i].checksum != cfg.inputs[j].checksum
    ensures ReachableFrom(cfg, start, later) && (Mismatch(cfg, later.sh, i) || Mismatch(cfg, later.sh, j))
  {
    if IsCondemned(cfg, i) && Quarantine(cfg, cfg.inputs[i]) == Quarantine(cfg, cfg.inputs[j]) {
      later := SharedPlace(cfg, start, i, j);
    } else if IsCondemned(cfg, i) {
      later := TwinPlace(cfg, start, i, j);
    } else {
      later := AllowedPlace(cfg, start, i, j);
    }
  }

  /**
   Contents, exactly.  From whatever initial state: in every reachable state the
   completions in the outbox, and the COMPLETED rows of uploads, name objects that have the
   hash they carry, if and only if uploads and quarantine places are separated and apart in
   content.
   */
  lemma ContentsMatchIffApart(cfg: Config, start: System)
    requires Init(cfg, start) && cfg.skew >= 0.0
    ensures (forall sys | ReachableFrom(cfg, start, sys) :: AnnouncementsMatch(cfg, sys.sh) && RowsMatch(cfg, sys.sh))
            <==> Separated(cfg) && ContentsApart(cfg)
  {
    if Separated(cfg) && ContentsApart(cfg) {
      forall sys | ReachableFrom(cfg, start, sys) ensures AnnouncementsMatch(cfg, sys.sh) && RowsMatch(cfg, sys.sh) {
        ApartMatch(cfg, start, sys);
      }
    } else if Separated(cfg) {
      var i, j :| IsCondemned(cfg, j) && Expects(cfg, i, Quarantine(cfg, cfg.inputs[j]))
                  && cfg.inputs[i].checksum != cfg.inputs[j].checksum;
      var later := Mismatches(cfg, start, i, j);
    } else {
      var later := Separation.DanglesUnlessSeparated(cfg, start);
      var e :| Separation.Dangles(cfg, later.sh, e);
      assert !RowsMatch(cfg, later.sh);
    }
  }

  // ------------------------------------------------------------ plain checksums

  /** Where checksums have no '/', condemned uploads with one quarantine place have one
      checksum; so only sources can get in the way. */
  lemma PlainChecksums(cfg: Config, a: InputEvent, b: InputEvent)
    requires '/' !in a.checksum && '/' !in b.checksum && Quarantine(cfg, a) == Quarantine(cfg, b)
    ensures a.checksum == b.checksum
  {
    SameTail(cfg.prefix + "/" + a.file, a.checksum, cfg.prefix + "/" + b.file, b.checksum);
  }

  lemma SameTail(x: string, c: string, y: string, d: string)
    requires x + "/" + c == y + "/" + d && '/' !in c && '/' !in d
    ensures c == d && x == y
  {
    var s := x + "/" + c;
    assert s[|x|] == '/' && s[|y|] == '/';
    forall k | |x| < k < |s| ensures s[k] != '/' { assert s[k] == c[k - |x| - 1]; }
    forall k | |y| < k < |s| ensures s[k] != '/' { assert s[k] == d[k - |y| - 1]; }
    assert |x| == |y|;
    assert s[|x| + 1..] == c && s[|y| + 1..] == d && s[..|x|] == x && s[..|y|] == y;
  }
}
