/**
 Processors and publishers together, joined by the outbox: the commit of a processor
 inserts the row the publishers work on, in one transaction.  Each side of a joint run is
 a run of its own, so what was proved of either holds of both at once.
 */
module EndToEnd {
  import opened Options
  import opened Domain
  import opened OutboxRows
  import Store = LeaseStore
  import P = FileProcessor
  import Inv = ProcessorInvariant
  import Steps = ProcessorSteps
  import Facts = ProcessorTheorems
  import Objects = ObjectSafety
  import Contents = ObjectContents
  import Q = PublisherRuns
  import PubInv = PublisherInvariant
  import PubFacts = PublisherTheorems

  datatype Joint = Joint(processors: P.System, publishers: Q.System)

  /** A processor's step, with the creation time of the row it may insert; or a step of a
      publisher, who inserts nothing. */
  datatype Step = Process(step: P.Step, created: string) | Publish(move: Q.Step)

  /** What the step inserts into the outbox, if it is a transaction that lands. */
  function InsertOf(cfg: Config, sys: P.System, step: P.Step): Option<Payload> {
    if step.Work? && step.w in sys.workers && sys.workers[step.w].event in cfg.inputs then
      var wk := sys.workers[step.w];
      var turn := P.TurnOf(cfg, sys.sh, wk, cfg.inputs[wk.event], step.act);
      if turn.Some? && turn.value.effect.Commit? then turn.value.effect.insert else None
    else None
  }

  function StepOf(cfg: Config, pub: PublisherConfig, j: Joint, step: Step): Option<Joint> {
    match step
    case Process(s, created) =>
      var next := P.StepOf(cfg, j.processors, s);
      var p := InsertOf(cfg, j.processors, s);
      if next.None? then None
      else if p.None? then Some(Joint(next.value, j.publishers))
      else
        var rows := Q.StepOf(pub, j.publishers, Q.InsertRow(p.value, created));
        if rows.None? then None else Some(Joint(next.value, rows.value))
    case Publish(s) =>
      var next := Q.StepOf(pub, j.publishers, s);
      if s.InsertRow? || next.None? then None else Some(Joint(j.processors, next.value))
  }

  function Run(cfg: Config, pub: PublisherConfig, start: P.System, steps: seq<Step>): Option<Joint> {
    if steps == [] then Some(Joint(start, Q.EMPTY))
    else
      var before := Run(cfg, pub, start, steps[..|steps| - 1]);
      if before.None? then None else StepOf(cfg, pub, before.value, steps[|steps| - 1])
  }

  /** Both sides see the same outbox. */
  ghost predicate Linked(j: Joint) {
    && j.publishers.sh.rows.Keys == j.processors.sh.outbox.Keys
    && forall id | id in j.publishers.sh.rows :: j.publishers.sh.rows[id].payload == j.processors.sh.outbox[id]
  }

  /** What a processor's step does to the outbox. */
  lemma OutboxAfter(cfg: Config, sys: P.System, step: P.Step)
    requires P.StepOf(cfg, sys, step).Some?
    ensures var p := InsertOf(cfg, sys, step);
            var sh := P.StepOf(cfg, sys, step).value.sh;
            && (p.None? ==> sh.outbox == sys.sh.outbox)
            && (p.Some? ==> p.value.id !in sys.sh.outbox && sh.outbox == sys.sh.outbox[p.value.id := p.value])
  {
  }

  /** What a publisher's step does to the payloads. */
  lemma PayloadsAfter(pub: PublisherConfig, sys: Q.System, step: Q.Step)
    requires Q.StepOf(pub, sys, step).Some? && !step.InsertRow?
    ensures var rows := Q.StepOf(pub, sys, step).value.sh.rows;
            rows.Keys == sys.sh.rows.Keys && forall id | id in rows :: rows[id].payload == sys.sh.rows[id].payload
  {
  }

  lemma RowInserted(pub: PublisherConfig, sys: Q.System, p: Payload, created: string)
    requires p.id !in sys.sh.rows
    ensures Q.StepOf(pub, sys, Q.InsertRow(p, created)).Some?
    ensures Q.StepOf(pub, sys, Q.InsertRow(p, created)).value.sh.rows == sys.sh.rows[p.id := NewRow(pub, p, created)]
  {
  }

  lemma ProcessLinks(cfg: Config, pub: PublisherConfig, j: Joint, step: Step)
    requires Linked(j) && step.Process? && P.StepOf(cfg, j.processors, step.step).Some?
    ensures StepOf(cfg, pub, j, step).Some? && Linked(StepOf(cfg, pub, j, step).value)
  {
    OutboxAfter(cfg, j.processors, step.step);
    var p := InsertOf(cfg, j.processors, step.step);
    if p.Some? {
      RowInserted(pub, j.publishers, p.value, step.created);
    }
  }

  /** The transaction has no third way: in a joint run a processor's step can be taken
      exactly when it can be taken alone, and the outboxes stay one. */
  lemma TransactionIsWhole(cfg: Config, pub: PublisherConfig, start: P.System, steps: seq<Step>, step: Step)
    requires P.Init(cfg, start) && Run(cfg, pub, start, steps).Some? && step.Process?
    ensures var j := Run(cfg, pub, start, steps).value;
            && (StepOf(cfg, pub, j, step).Some? <==> P.StepOf(cfg, j.processors, step.step).Some?)
            && (StepOf(cfg, pub, j, step).Some? ==> Linked(StepOf(cfg, pub, j, step).value))
  {
    RunProjects(cfg, pub, start, steps);
    var j := Run(cfg, pub, start, steps).value;
    if P.StepOf(cfg, j.processors, step.step).Some? {
      ProcessLinks(cfg, pub, j, step);
    }
  }

  lemma StepProjects(cfg: Config, pub: PublisherConfig, start: P.System, j: Joint, step: Step)
    requires Linked(j) && P.ReachableFrom(cfg, start, j.processors) && Q.Reachable(pub, j.publishers)
    requires StepOf(cfg, pub, j, step).Some?
    ensures var j' := StepOf(cfg, pub, j, step).value;
            Linked(j') && P.ReachableFrom(cfg, start, j'.processors) && Q.Reachable(pub, j'.publishers)
  {
    match step
    case Process(s, created) =>
      ProcessLinks(cfg, pub, j, step);
      P.ReachesFrom(cfg, start, j.processors, s);
      var p := InsertOf(cfg, j.processors, s);
      if p.Some? {
        Q.ReachesFrom(pub, Q.EMPTY, j.publishers, Q.InsertRow(p.value, created));
      }
    case Publish(s) =>
      PayloadsAfter(pub, j.publishers, s);
      Q.ReachesFrom(pub, Q.EMPTY, j.publishers, s);
  }

  /** Each side of a joint run is a run, and they share one outbox. */
  lemma {:induction false} RunProjects(cfg: Config, pub: PublisherConfig, start: P.System, steps: seq<Step>)
    requires P.Init(cfg, start) && Run(cfg, pub, start, steps).Some?
    ensures var j := Run(cfg, pub, start, steps).value;
            Linked(j) && P.ReachableFrom(cfg, start, j.processors) && Q.Reachable(pub, j.publishers)
  {
    if steps == [] {
      assert P.Run(cfg, start, []) == Some(start);
      assert Q.Run(pub, Q.EMPTY, []) == Some(Q.EMPTY);
    } else {
      var n := |steps| - 1;
      RunProjects(cfg, pub, start, steps[..n]);
      StepProjects(cfg, pub, start, Run(cfg, pub, start, steps[..n]).value, steps[n]);
    }
  }

  // ----------------------------------------------------------------- theorems

  /** The announcement of an upload is on its way: its row is in the outbox the publishers
      serve, and carries the hash and the location the metadata row names. */
  lemma CompletedIsAnnounced(cfg: Config, pub: PublisherConfig, start: P.System, steps: seq<Step>, f: FileId,
                             e: EventId)
    requires P.Init(cfg, start) && Run(cfg, pub, start, steps).Some?
    requires e in cfg.inputs && cfg.inputs[e].kind == FileUploaded
    requires var meta := Run(cfg, pub, start, steps).value.processors.sh.meta;
             f in meta && meta[f].status == Store.Completed && meta[f].last == Some(e)
    ensures var j := Run(cfg, pub, start, steps).value;
            && Completion(e) in j.publishers.sh.rows
            && var p := j.publishers.sh.rows[Completion(e)].payload;
               && p.location == j.processors.sh.meta[f].location && p.body.Analysis?
               && j.processors.sh.meta[f].hash == Some(p.body.hash)
  {
    RunProjects(cfg, pub, start, steps);
    var j := Run(cfg, pub, start, steps).value;
    var ps :| P.Run(cfg, start, ps) == Some(j.processors);
    Facts.TablesAgree(cfg, start, ps, f, e);
  }

  /**
   What subscribers are told is true.  Every completion that was sent, published or not,
   however often, names the file of its upload and a location and hash that a COMPLETED
   commit of that very upload recorded; and no commit of that upload ever recorded others.
   */
  lemma SentCompletionsAreTrue(cfg: Config, pub: PublisherConfig, start: P.System, steps: seq<Step>, i: nat, e: EventId)
    requires P.Init(cfg, start) && Run(cfg, pub, start, steps).Some?
    requires var log := Run(cfg, pub, start, steps).value.publishers.sh.log;
             i < |log| && log[i].Sent? && log[i].id == Completion(e)
    ensures var j := Run(cfg, pub, start, steps).value;
            var p := j.publishers.sh.log[i].payload;
            && e in cfg.inputs && p.id == Completion(e) && p.file == cfg.inputs[e].file
            && Store.CompletedIn(j.processors.sh.log, e, p.location)
            && p.body.Analysis?
            && forall k | 0 <= k < |j.processors.sh.log| && Records(j.processors.sh.log[k], e) ::
                 j.processors.sh.log[k].write.location == p.location
                     && j.processors.sh.log[k].write.hash == Some(p.body.hash)
  {
    RunProjects(cfg, pub, start, steps);
    var j := Run(cfg, pub, start, steps).value;
    SentFromOutbox(pub, j.publishers, i);
    AnnouncementIsTrue(cfg, start, j.processors, e);
  }

  /** The entry commits COMPLETED for this event. */
  predicate Records(x: Store.Entry, e: EventId) {
    x.Committed? && x.write.status == Store.Completed && x.event == e
  }

  lemma SentFromOutbox(pub: PublisherConfig, sys: Q.System, i: nat)
    requires Q.Reachable(pub, sys) && i < |sys.sh.log| && sys.sh.log[i].Sent?
    ensures sys.sh.log[i].id in sys.sh.rows && sys.sh.log[i].payload == sys.sh.rows[sys.sh.log[i].id].payload
  {
    var qs :| Q.Run(pub, Q.EMPTY, qs) == Some(sys);
    PubInv.RunKeepsInv(pub, qs);
    PubFacts.SentIsCanonical(pub, sys.sh, i);
  }

  lemma AnnouncementIsTrue(cfg: Config, start: P.System, sys: P.System, e: EventId)
    requires P.Init(cfg, start) && P.ReachableFrom(cfg, start, sys) && Completion(e) in sys.sh.outbox
    ensures var p := sys.sh.outbox[Completion(e)];
            && e in cfg.inputs && p.id == Completion(e) && p.file == cfg.inputs[e].file && p.body.Analysis?
            && Store.CompletedIn(sys.sh.log, e, p.location)
            && forall k | 0 <= k < |sys.sh.log| && Records(sys.sh.log[k], e) ::
                 sys.sh.log[k].write.location == p.location && sys.sh.log[k].write.hash == Some(p.body.hash)
  {
    var ps :| P.Run(cfg, start, ps) == Some(sys);
    Steps.RunKeepsInv(cfg, start, ps);
    Facts.AllCompletionsAgree(cfg, start, ps);
    assert Inv.OutboxRowOk(cfg, sys.sh, Completion(e));
  }

  /** And a row that is PUBLISHED was sent, with just that payload. */
  lemma PublishedCompletionWasSent(cfg: Config, pub: PublisherConfig, start: P.System, steps: seq<Step>, e: EventId)
    requires P.Init(cfg, start) && Run(cfg, pub, start, steps).Some?
    requires Q.LivePublished(Run(cfg, pub, start, steps).value.publishers.sh, Completion(e))
    ensures var j := Run(cfg, pub, start, steps).value;
            && Completion(e) in j.processors.sh.outbox
            && exists i :: 0 <= i < |j.publishers.sh.log| && j.publishers.sh.log[i].Sent?
                           && j.publishers.sh.log[i].payload == j.processors.sh.outbox[Completion(e)]
  {
    RunProjects(cfg, pub, start, steps);
    var j := Run(cfg, pub, start, steps).value;
    var qs :| Q.Run(pub, Q.EMPTY, qs) == Some(j.publishers);
    PubFacts.PublishedWasSent(pub, qs, Completion(e));
  }

  /** And the object a sent completion points at exists, now as then, if uploads and
      quarantine places are separated. */
  lemma SentObjectsExist(cfg: Config, pub: PublisherConfig, start: P.System, steps: seq<Step>, i: nat, e: EventId)
    requires Separated(cfg) && P.Init(cfg, start) && Run(cfg, pub, start, steps).Some?
    requires var log := Run(cfg, pub, start, steps).value.publishers.sh.log;
             i < |log| && log[i].Sent? && log[i].id == Completion(e)
    ensures var j := Run(cfg, pub, start, steps).value;
            e in cfg.inputs && Objects.Kept(cfg, j.processors.sh, cfg.inputs[e],
                                            j.publishers.sh.log[i].payload.location)
  {
    RunProjects(cfg, pub, start, steps);
    var j := Run(cfg, pub, start, steps).value;
    SentFromOutbox(pub, j.publishers, i);
    var ps :| P.Run(cfg, start, ps) == Some(j.processors);
    Objects.AnnouncedObjectsExist(cfg, start, ps);
  }

  /** It has the hash that was sent, too, if they are apart in content. */
  lemma SentObjectsMatch(cfg: Config, pub: PublisherConfig, start: P.System, steps: seq<Step>, i: nat, e: EventId)
    requires Separated(cfg) && Contents.ContentsApart(cfg) && P.Init(cfg, start)
    requires Run(cfg, pub, start, steps).Some?
    requires var log := Run(cfg, pub, start, steps).value.publishers.sh.log;
             i < |log| && log[i].Sent? && log[i].id == Completion(e)
    ensures var j := Run(cfg, pub, start, steps).value;
            var p := j.publishers.sh.log[i].payload;
            p.body.Analysis? && Contents.Matches(cfg, j.processors.sh, p.location, p.body.hash)
  {
    RunProjects(cfg, pub, start, steps);
    var j := Run(cfg, pub, start, steps).value;
    SentFromOutbox(pub, j.publishers, i);
    Contents.ApartMatch(cfg, start, j.processors);
  }
}
