/**
 Scan events and stored objects.  A scan event records its own location without
 looking at the object; whether the object is there depends on the uploads.
 */
module Scans {
  import opened Options
  import opened Domain
  import opened LeaseStore
  import opened FileProcessor
  import opened ProcessorInvariant
  import opened ProcessorSteps
  import opened ObjectSafety
  import opened SoloRuns

  /** Some condemned upload event reads from this place. */
  ghost predicate CondemnedPlace(cfg: Config, at: Location) {
    exists i :: i in cfg.inputs && cfg.inputs[i].location == at && Condemned(cfg, cfg.inputs[i])
  }

  /** The object the scan names was uploaded, and no condemned upload takes it away. */
  ghost predicate Steady(cfg: Config, at: Location) {
    at in cfg.uploads && !CondemnedPlace(cfg, at)
  }

  /** A COMPLETED row that event `scan` was the last to mark names an existing object. */
  predicate ScanExists(sh: Shared, scan: EventId) {
    forall f | f in sh.meta && sh.meta[f].status == Completed && sh.meta[f].last == Some(scan) ::
      sh.meta[f].location in sh.objects
  }

  /** Such a row names the location of the scan event, and a steady place is still there. */
  ghost predicate ScansOk(cfg: Config, sh: Shared) {
    && (forall f | f in sh.meta && sh.meta[f].status == Completed && sh.meta[f].last.Some?
          && sh.meta[f].last.value in cfg.inputs && cfg.inputs[sh.meta[f].last.value].kind == FileScanned ::
          sh.meta[f].location == cfg.inputs[sh.meta[f].last.value].location)
    && forall at | Steady(cfg, at) :: at in sh.objects
  }

  lemma TurnKeepsScans(cfg: Config, sh: Shared, wk: Worker, act: Act)
    requires ScansOk(cfg, sh) && WorkerOk(cfg, sh, wk) && WorkerObjects(cfg, sh, wk)
    requires TurnOf(cfg, sh, wk, cfg.inputs[wk.event], act).Some?
    requires Applicable(sh, TurnOf(cfg, sh, wk, cfg.inputs[wk.event], act).value.effect)
    ensures ScansOk(cfg, Apply(cfg, sh, TurnOf(cfg, sh, wk, cfg.inputs[wk.event], act).value.effect))
  {
    TurnHarmless(cfg, sh, wk, act);
    TurnScans(cfg, sh, wk, act);
  }

  /** The only COMPLETED commits that mark a scan event record that event. */
  lemma TurnScans(cfg: Config, sh: Shared, wk: Worker, act: Act)
    requires WorkerOk(cfg, sh, wk) && TurnOf(cfg, sh, wk, cfg.inputs[wk.event], act).Some?
    ensures var eff := TurnOf(cfg, sh, wk, cfg.inputs[wk.event], act).value.effect;
            eff.Commit? && eff.write.status == Completed ==>
              eff.write.last == Some(wk.event)
              && (cfg.inputs[wk.event].kind == FileScanned ==> eff.write.location == cfg.inputs[wk.event].location)
  {
  }

  lemma {:induction false} RunKeepsScans(cfg: Config, start: System, steps: seq<Step>)
    requires Separated(cfg) && Init(cfg, start) && Run(cfg, start, steps).Some?
    ensures ScansOk(cfg, Run(cfg, start, steps).value.sh)
  {
    if steps != [] {
      var n := |steps| - 1;
      RunKeepsScans(cfg, start, steps[..n]);
      RunKeepsObjects(cfg, start, steps[..n]);
      var before := Run(cfg, start, steps[..n]).value;
      if steps[n].Work? {
        TurnKeepsScans(cfg, before.sh, before.workers[steps[n].w], steps[n].act);
      }
    }
  }

  /** A scan of a place that is not steady can leave a row naming an object that is not there. */
  lemma ScanDangles(cfg: Config, start: System, scan: EventId) returns (later: System)
    requires Init(cfg, start) && cfg.skew >= 0.0
    requires scan in cfg.inputs && cfg.inputs[scan].kind == FileScanned && !Steady(cfg, cfg.inputs[scan].location)
    ensures ReachableFrom(cfg, start, later) && !ScanExists(later.sh, scan)
  {
    ReachesItself(cfg, start);
    var at := cfg.inputs[scan].location;
    if at !in cfg.uploads {
      later := HandlesScan(cfg, start, start, 0, scan, 0, 0.0, 0);
    } else {
      var i :| i in cfg.inputs && cfg.inputs[i].location == at && Condemned(cfg, cfg.inputs[i]);
      var quarantined := HandlesDenied(cfg, start, start, 0, i, 0, 0.0, 0);
      assert at !in quarantined.sh.objects;
      later := HandlesScan(cfg, start, quarantined, 1, scan, 1, 0.0, 0);
    }
    assert later.sh.meta[cfg.inputs[scan].file].location == at;
  }

  /**
   When uploads and quarantine places are separated: in every reachable state the rows
   last completed by a scan event name an existing object, if and only if the event's
   location is an uploaded object that no condemned upload reads from.
   */
  lemma ScannedObjectExists(cfg: Config, start: System, scan: EventId)
    requires Separated(cfg) && Init(cfg, start) && cfg.skew >= 0.0
    requires scan in cfg.inputs && cfg.inputs[scan].kind == FileScanned
    ensures (forall sys | ReachableFrom(cfg, start, sys) :: ScanExists(sys.sh, scan))
            <==> Steady(cfg, cfg.inputs[scan].location)
  {
    if Steady(cfg, cfg.inputs[scan].location) {
      forall sys | ReachableFrom(cfg, start, sys) ensures ScanExists(sys.sh, scan) {
        var steps :| Run(cfg, start, steps) == Some(sys);
        RunKeepsScans(cfg, start, steps);
      }
    } else {
      var later := ScanDangles(cfg, start, scan);
    }
  }
}
