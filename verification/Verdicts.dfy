/**
 What the announcements say, written out: where the object is, which hash it has, and
 for which contents an upload is called unsafe.
 */
module Verdicts {
  import opened Options
  import opened Domain
  import opened LeaseStore
  import opened FileProcessor
  import opened ProcessorInvariant
  import opened ProcessorSteps
  import opened ObjectSafety
  import Contents = ObjectContents

  /** The place of an upload with this hash that is called safe or unsafe. */
  function PlaceOf(cfg: Config, ev: InputEvent, safe: bool, hash: string): Location {
    if safe then ev.location else Location(ev.location.bucket, cfg.prefix + "/" + ev.file + "/" + hash)
  }

  /** A completion has the checksum of its event and names the place that goes with its verdict. */
  predicate Told(cfg: Config, p: Payload) {
    p.id.Completion? ==>
      && p.id.input in cfg.inputs && p.file == cfg.inputs[p.id.input].file
      && p.body.Analysis? && p.body.hash == cfg.inputs[p.id.input].checksum
      && p.location == PlaceOf(cfg, cfg.inputs[p.id.input], p.body.safe, p.body.hash)
  }

  /** It is called unsafe exactly for contents that are empty or have a PE or ELF header. */
  predicate Judged(cfg: Config, p: Payload) {
    p.id.Completion? && p.body.Analysis? && p.id.input in cfg.inputs ==>
      var at := cfg.inputs[p.id.input].location;
      && at in cfg.uploads
      && var data := cfg.uploads[at].data;
         !p.body.safe <==> data == [] || [0x4D, 0x5A] <= data || [0x7F, 0x45, 0x4C, 0x46] <= data
  }

  ghost predicate AllTold(cfg: Config, sh: Shared) {
    forall id | id in sh.outbox :: sh.outbox[id].id == id && Told(cfg, sh.outbox[id])
  }

  ghost predicate AllJudged(cfg: Config, sh: Shared) {
    forall id | id in sh.outbox :: Judged(cfg, sh.outbox[id])
  }

  lemma TurnTells(cfg: Config, sh: Shared, wk: Worker, act: Act)
    requires WorkerOk(cfg, sh, wk) && TurnOf(cfg, sh, wk, cfg.inputs[wk.event], act).Some?
    ensures var eff := TurnOf(cfg, sh, wk, cfg.inputs[wk.event], act).value.effect;
            eff.Commit? && eff.insert.Some? ==> Told(cfg, eff.insert.value)
  {
  }

  lemma JobIsJudged(cfg: Config, sh: Shared, wk: Worker, job: Job)
    requires wk.event in cfg.inputs && JobOk(cfg, wk, cfg.inputs[wk.event], job) && JobObjects(cfg, sh, wk.event, job)
    ensures Judged(cfg, job.out)
  {
    if job.after.Complete? && !job.after.quarantined {
      KeptSource(cfg, sh, wk.event);
    }
  }

  lemma TurnJudges(cfg: Config, sh: Shared, wk: Worker, act: Act)
    requires WorkerOk(cfg, sh, wk) && WorkerObjects(cfg, sh, wk)
    requires TurnOf(cfg, sh, wk, cfg.inputs[wk.event], act).Some?
    ensures var eff := TurnOf(cfg, sh, wk, cfg.inputs[wk.event], act).value.effect;
            eff.Commit? && eff.insert.Some? ==> Judged(cfg, eff.insert.value)
  {
    if wk.pc.Saving? { JobIsJudged(cfg, sh, wk, wk.pc.job); }
  }

  lemma {:induction false} RunTells(cfg: Config, start: System, steps: seq<Step>)
    requires Init(cfg, start) && Run(cfg, start, steps).Some?
    ensures AllTold(cfg, Run(cfg, start, steps).value.sh)
  {
    if steps != [] {
      var n := |steps| - 1;
      RunTells(cfg, start, steps[..n]);
      RunKeepsInv(cfg, start, steps[..n]);
      var before := Run(cfg, start, steps[..n]).value;
      if steps[n].Work? {
        TurnTells(cfg, before.sh, before.workers[steps[n].w], steps[n].act);
      }
    }
  }

  lemma {:induction false} RunJudges(cfg: Config, start: System, steps: seq<Step>)
    requires Separated(cfg) && Init(cfg, start) && Run(cfg, start, steps).Some?
    ensures AllJudged(cfg, Run(cfg, start, steps).value.sh)
  {
    if steps != [] {
      var n := |steps| - 1;
      RunJudges(cfg, start, steps[..n]);
      RunKeepsObjects(cfg, start, steps[..n]);
      var before := Run(cfg, start, steps[..n]).value;
      if steps[n].Work? {
        TurnJudges(cfg, before.sh, before.workers[steps[n].w], steps[n].act);
      }
    }
  }

  /**
   In every reachable state: a completion in the outbox carries the checksum of its upload;
   called safe, it names the upload's source, and called unsafe, the bucket of the source
   and the key of prefix, file and hash; and a COMPLETED row of the upload says the same.
   */
  lemma CompletionsNamePlaces(cfg: Config, start: System, steps: seq<Step>, e: EventId)
    requires Init(cfg, start) && Run(cfg, start, steps).Some?
    requires Completion(e) in Run(cfg, start, steps).value.sh.outbox
    ensures var sh := Run(cfg, start, steps).value.sh;
            && e in cfg.inputs && sh.outbox[Completion(e)].body.Analysis?
            && var Analysis(safe, hash) := sh.outbox[Completion(e)].body;
               var ev := cfg.inputs[e];
               var place := if safe then ev.location
                            else Location(ev.location.bucket, cfg.prefix + "/" + ev.file + "/" + hash);
               && hash == ev.checksum && sh.outbox[Completion(e)].location == place
               && forall f | f in sh.meta && CompletedUpload(cfg, sh.meta[f]) && sh.meta[f].last == Some(e) ::
                    sh.meta[f].hash == Some(hash) && sh.meta[f].location == place
  {
    RunKeepsInv(cfg, start, steps);
    RunTells(cfg, start, steps);
    var sh := Run(cfg, start, steps).value.sh;
    forall f | f in sh.meta && CompletedUpload(cfg, sh.meta[f]) && sh.meta[f].last == Some(e)
      ensures sh.meta[f].hash == Some(sh.outbox[Completion(e)].body.hash)
              && sh.meta[f].location == sh.outbox[Completion(e)].location
    {
      assert Announced(cfg, sh, sh.meta[f]);
    }
  }

  /** While uploads and quarantine places are separated, an upload is called unsafe exactly if
      what was uploaded is empty or begins with a PE or ELF header. */
  lemma UnsafeExactly(cfg: Config, start: System, steps: seq<Step>, e: EventId)
    requires Separated(cfg) && Init(cfg, start) && Run(cfg, start, steps).Some?
    requires Completion(e) in Run(cfg, start, steps).value.sh.outbox
    ensures var p := Run(cfg, start, steps).value.sh.outbox[Completion(e)];
            && e in cfg.inputs && cfg.inputs[e].location in cfg.uploads && p.body.Analysis?
            && var data := cfg.uploads[cfg.inputs[e].location].data;
               !p.body.safe <==> data == [] || [0x4D, 0x5A] <= data || [0x7F, 0x45, 0x4C, 0x46] <= data
  {
    RunTells(cfg, start, steps);
    RunJudges(cfg, start, steps);
    assert Judged(cfg, Run(cfg, start, steps).value.sh.outbox[Completion(e)]);
  }

  /** Uploads of different files that are called unsafe never share a place, when file ids and
      checksums have no '/'. */
  lemma UnsafePlacesDiffer(cfg: Config, start: System, steps: seq<Step>, d: EventId, e: EventId)
    requires Init(cfg, start) && Run(cfg, start, steps).Some?
    requires var outbox := Run(cfg, start, steps).value.sh.outbox;
             && Completion(d) in outbox && outbox[Completion(d)].body.Analysis? && !outbox[Completion(d)].body.safe
             && Completion(e) in outbox && outbox[Completion(e)].body.Analysis? && !outbox[Completion(e)].body.safe
             && outbox[Completion(d)].file != outbox[Completion(e)].file
    requires forall i | i in cfg.inputs :: '/' !in cfg.inputs[i].file && '/' !in cfg.inputs[i].checksum
    ensures var outbox := Run(cfg, start, steps).value.sh.outbox;
            outbox[Completion(d)].location != outbox[Completion(e)].location
  {
    RunTells(cfg, start, steps);
    var outbox := Run(cfg, start, steps).value.sh.outbox;
    assert Told(cfg, outbox[Completion(d)]) && Told(cfg, outbox[Completion(e)]);
    PlacesDiffer(cfg, cfg.inputs[d], cfg.inputs[e]);
  }

  lemma PlacesDiffer(cfg: Config, a: InputEvent, b: InputEvent)
    requires a.file != b.file && '/' !in a.file && '/' !in b.file && '/' !in a.checksum && '/' !in b.checksum
    ensures PlaceOf(cfg, a, false, a.checksum) != PlaceOf(cfg, b, false, b.checksum)
  {
    var x, y := cfg.prefix + "/" + a.file, cfg.prefix + "/" + b.file;
    if x + "/" + a.checksum == y + "/" + b.checksum {
      Contents.SameTail(x, a.checksum, y, b.checksum);
    }
    if x == y {
      Contents.SameTail(cfg.prefix, a.file, cfg.prefix, b.file);
    }
  }

  /** The same of any two condemned uploads, completed or not. */
  lemma CondemnedPlacesDiffer(cfg: Config, i: EventId, j: EventId)
    requires IsCondemned(cfg, i) && IsCondemned(cfg, j) && cfg.inputs[i].file != cfg.inputs[j].file
    requires forall k | k in cfg.inputs :: '/' !in cfg.inputs[k].file && '/' !in cfg.inputs[k].checksum
    ensures Quarantine(cfg, cfg.inputs[i]) != Quarantine(cfg, cfg.inputs[j])
  {
    PlacesDiffer(cfg, cfg.inputs[i], cfg.inputs[j]);
  }
}
