/**
 The bound on duplicate sends is exact.  For every number of failures below the
 maximum and every number of takeovers there is a run in which one row is sent once
 more than the two together: retries are limited, takeovers after crashes are not.
 */
module DuplicateBound {
  import opened Options
  import opened Domain
  import opened OutboxRows
  import opened PublisherRuns

  /** Workers and tokens from `k` on are unused. */
  predicate Unused(sys: System, k: nat) {
    (forall v | v in sys.workers :: v < k) && (forall t | t in sys.sh.tokens :: t < k)
  }

  /** The row exists, was never published, and the log counts what is said. */
  predicate Tally(sys: System, id: OutputId, retries: nat, takeovers: nat, sends: nat) {
    && id in sys.sh.rows && sys.sh.rows[id] in sys.sh.images
    && sys.sh.rows[id].id == id && sys.sh.rows[id].payload.id == id
        && sys.sh.rows[id].kind == KindOf(sys.sh.rows[id].payload)
    && sys.sh.rows[id].retries == Some(retries)
    && Count(sys.sh.log, id, Takeovers) == takeovers && Count(sys.sh.log, id, Sends) == sends
  }

  /** Worker `k` holds the row's lease and is at `pc`. */
  predicate Holding(sys: System, id: OutputId, k: nat, pc: Pc, retries: nat, takeovers: nat, sends: nat) {
    && Unused(sys, k + 1) && Tally(sys, id, retries, takeovers, sends)
    && k in sys.workers && sys.workers[k].pc == pc
    && sys.workers[k].image.id == id && sys.workers[k].image.payload.id == id
    && sys.workers[k].image.kind == KindOf(sys.workers[k].image.payload)
    && sys.sh.rows[id].status == Publishing && sys.sh.rows[id].token == Some(k)
    && sys.sh.rows[id].expires.Some?
  }

  /** Worker `k` has claimed and sent the row and has not committed it. */
  predicate Tried(sys: System, id: OutputId, k: nat, retries: nat, takeovers: nat, sends: nat) {
    Holding(sys, id, k, Delivered(k), retries, takeovers, sends)
  }

  /** Worker `k` holds an image of the row and nothing else. */
  predicate Begun(sys: System, id: OutputId, k: nat, retries: nat, takeovers: nat, sends: nat) {
    && (forall v | v in sys.workers :: v <= k) && (forall t | t in sys.sh.tokens :: t < k)
    && Tally(sys, id, retries, takeovers, sends)
    && k in sys.workers && sys.workers[k] == Worker(sys.sh.rows[id], Starting)
  }

  lemma BeginStep(cfg: PublisherConfig, sys: System, id: OutputId, k: nat, retries: nat, takeovers: nat, sends: nat)
    requires Unused(sys, k) && Tally(sys, id, retries, takeovers, sends)
    ensures StepOf(cfg, sys, Begin(k, sys.sh.rows[id])).Some?
    ensures var sys' := StepOf(cfg, sys, Begin(k, sys.sh.rows[id])).value;
            sys'.sh == sys.sh && Begun(sys', id, k, retries, takeovers, sends)
  {
  }

  lemma ClaimStep(cfg: PublisherConfig, sys: System, id: OutputId, k: nat, at: real,
                  retries: nat, takeovers: nat, sends: nat)
    requires cfg.skew >= 0.0 && Begun(sys, id, k, retries, takeovers, sends)
    requires Claimable(cfg, sys.sh.rows[id], at.Floor)
    ensures StepOf(cfg, sys, Work(k, ClaimRow(k, at, at, Heard))).Some?
    ensures Holding(StepOf(cfg, sys, Work(k, ClaimRow(k, at, at, Heard))).value, id, k, Claimed(k), retries,
                   takeovers + (if sys.sh.rows[id].status == Publishing then 1 else 0), sends)
  {
    var granted := Granted(id, k, at, sys.sh.rows[id].status == Publishing);
    Append(sys.sh.log, granted, id, Takeovers);
    Append(sys.sh.log, granted, id, Sends);
  }

  function SentBy(cfg: PublisherConfig, image: OutboxRow, k: nat): Entry {
    Sent(image.id, k, image.payload, TopicOf(cfg, image.kind))
  }

  /** The state after a heard send, spelled out. */
  lemma SendLeads(cfg: PublisherConfig, sys: System, k: nat)
    requires k in sys.workers && sys.workers[k].pc == Claimed(k)
    requires Sendable(cfg, sys.workers[k].image)
    ensures StepOf(cfg, sys, Work(k, SendMessage(Heard))) ==
            Some(System(sys.sh.(log := sys.sh.log + [SentBy(cfg, sys.workers[k].image, k)]),
                        sys.workers[k := sys.workers[k].(pc := Delivered(k))]))
  {
  }

  lemma SendStep(cfg: PublisherConfig, sys: System, id: OutputId, k: nat, retries: nat, takeovers: nat, sends: nat)
    requires HasTopic(cfg) && Holding(sys, id, k, Claimed(k), retries, takeovers, sends)
    ensures StepOf(cfg, sys, Work(k, SendMessage(Heard))).Some?
    ensures Tried(StepOf(cfg, sys, Work(k, SendMessage(Heard))).value, id, k, retries, takeovers, sends + 1)
  {
    var sent := SentBy(cfg, sys.workers[k].image, k);
    SendLeads(cfg, sys, k);
    Append(sys.sh.log, sent, id, Takeovers);
    Append(sys.sh.log, sent, id, Sends);
  }

  /** A new worker claims and sends a claimable row. */
  lemma TryOnce(cfg: PublisherConfig, start: System, sys: System, id: OutputId, k: nat, at: real,
                retries: nat, takeovers: nat, sends: nat)
    returns (later: System)
    requires cfg.skew >= 0.0 && HasTopic(cfg) && ReachableFrom(cfg, start, sys)
    requires Unused(sys, k) && Tally(sys, id, retries, takeovers, sends) && Claimable(cfg, sys.sh.rows[id], at.Floor)
    ensures ReachableFrom(cfg, start, later)
    ensures Tried(later, id, k, retries, takeovers + (if sys.sh.rows[id].status == Publishing then 1 else 0), sends + 1)
  {
    var total := takeovers + if sys.sh.rows[id].status == Publishing then 1 else 0;
    BeginStep(cfg, sys, id, k, retries, takeovers, sends);
    ReachesFrom(cfg, start, sys, Begin(k, sys.sh.rows[id]));
    later := StepOf(cfg, sys, Begin(k, sys.sh.rows[id])).value;
    ClaimStep(cfg, later, id, k, at, retries, takeovers, sends);
    ReachesFrom(cfg, start, later, Work(k, ClaimRow(k, at, at, Heard)));
    later := StepOf(cfg, later, Work(k, ClaimRow(k, at, at, Heard))).value;
    SendStep(cfg, later, id, k, retries, total, sends);
    ReachesFrom(cfg, start, later, Work(k, SendMessage(Heard)));
    later := StepOf(cfg, later, Work(k, SendMessage(Heard))).value;
  }

  /** The row has failed, and worker and token `k` are unused. */
  predicate Retriable(sys: System, id: OutputId, k: nat, retries: nat, takeovers: nat, sends: nat) {
    Unused(sys, k) && Tally(sys, id, retries, takeovers, sends) && sys.sh.rows[id].status == Failed
  }

  lemma RefuseStep(cfg: PublisherConfig, sys: System, id: OutputId, k: nat, retries: nat, takeovers: nat, sends: nat)
    requires Tried(sys, id, k, retries, takeovers, sends)
    ensures StepOf(cfg, sys, Work(k, MarkPublished(0, Refused))).Some?
    ensures Holding(StepOf(cfg, sys, Work(k, MarkPublished(0, Refused))).value, id, k, Failing(k), retries, takeovers,
                    sends)
  {
  }

  lemma FailStep(cfg: PublisherConfig, sys: System, id: OutputId, k: nat, retries: nat, takeovers: nat, sends: nat)
    requires Holding(sys, id, k, Failing(k), retries, takeovers, sends)
    ensures StepOf(cfg, sys, Work(k, MarkFailed("", Heard))).Some?
    ensures var sys' := StepOf(cfg, sys, Work(k, MarkFailed("", Heard))).value;
            Retriable(sys', id, k + 1, retries + 1, takeovers, sends)
  {
    Append(sys.sh.log, PublisherRuns.GaveUp(id, k), id, Takeovers);
    Append(sys.sh.log, PublisherRuns.GaveUp(id, k), id, Sends);
  }

  /** The worker's commit is refused, so it records a failure. */
  lemma FailOnce(cfg: PublisherConfig, sys: System, id: OutputId, k: nat, retries: nat, takeovers: nat, sends: nat)
    returns (later: System)
    requires Reachable(cfg, sys) && Tried(sys, id, k, retries, takeovers, sends)
    ensures Reachable(cfg, later) && Retriable(later, id, k + 1, retries + 1, takeovers, sends)
  {
    RefuseStep(cfg, sys, id, k, retries, takeovers, sends);
    ReachesFrom(cfg, EMPTY, sys, Work(k, MarkPublished(0, Refused)));
    later := StepOf(cfg, sys, Work(k, MarkPublished(0, Refused))).value;
    FailStep(cfg, later, id, k, retries, takeovers, sends);
    ReachesFrom(cfg, EMPTY, later, Work(k, MarkFailed("", Heard)));
    later := StepOf(cfg, later, Work(k, MarkFailed("", Heard))).value;
  }

  lemma InsertStep(cfg: PublisherConfig, p: Payload, created: string)
    ensures StepOf(cfg, EMPTY, InsertRow(p, created)).Some?
    ensures var sys := StepOf(cfg, EMPTY, InsertRow(p, created)).value;
            Unused(sys, 0) && Tally(sys, p.id, 0, 0, 0) && sys.sh.rows[p.id].status == Pending
  {
    Append([], Inserted(p.id, p), p.id, Takeovers);
    Append([], Inserted(p.id, p), p.id, Sends);
  }

  /** The row was sent once more than its retries and takeovers together. */
  predicate Attained(sys: System, id: OutputId, retries: nat, takeovers: nat) {
    Tried(sys, id, retries + takeovers, retries, takeovers, 1 + retries + takeovers)
  }

  lemma FirstTry(cfg: PublisherConfig, p: Payload, created: string) returns (sys: System)
    requires cfg.skew >= 0.0 && HasTopic(cfg) && 0 < cfg.maxRetries
    ensures Reachable(cfg, sys) && Attained(sys, p.id, 0, 0)
  {
    InsertStep(cfg, p, created);
    assert Run(cfg, EMPTY, []) == Some(EMPTY);
    ReachesFrom(cfg, EMPTY, EMPTY, InsertRow(p, created));
    sys := TryOnce(cfg, EMPTY, StepOf(cfg, EMPTY, InsertRow(p, created)).value, p.id, 0, 0.0, 0, 0, 0);
  }

  lemma TryAfterFailure(cfg: PublisherConfig, sys: System, id: OutputId, k: nat, retries: nat, takeovers: nat,
                        sends: nat)
    returns (later: System)
    requires cfg.skew >= 0.0 && HasTopic(cfg) && retries < cfg.maxRetries && Reachable(cfg, sys)
    requires Retriable(sys, id, k, retries, takeovers, sends)
    ensures Reachable(cfg, later) && Tried(later, id, k, retries, takeovers, sends + 1)
  {
    later := TryOnce(cfg, EMPTY, sys, id, k, 0.0, retries, takeovers, sends);
  }

  /** The attempt fails and the next worker tries again. */
  lemma RetryOnce(cfg: PublisherConfig, sys: System, id: OutputId, retries: nat, takeovers: nat) returns (later: System)
    requires cfg.skew >= 0.0 && HasTopic(cfg) && retries + 1 < cfg.maxRetries
    requires Reachable(cfg, sys) && Attained(sys, id, retries, takeovers)
    ensures Reachable(cfg, later) && Attained(later, id, retries + 1, takeovers)
  {
    var k, again := retries + takeovers, retries + 1;
    var failed := FailOnce(cfg, sys, id, k, retries, takeovers, 1 + k);
    later := TryAfterFailure(cfg, failed, id, k + 1, again, takeovers, 1 + k);
  }

  /** The worker crashes, and the next one takes the lease over once it has expired. */
  lemma TakeOverOnce(cfg: PublisherConfig, sys: System, id: OutputId, retries: nat, takeovers: nat)
    returns (later: System)
    requires cfg.skew >= 0.0 && HasTopic(cfg) && retries < cfg.maxRetries
    requires Reachable(cfg, sys) && Attained(sys, id, retries, takeovers)
    ensures Reachable(cfg, later) && Attained(later, id, retries, takeovers + 1)
  {
    var k := retries + takeovers;
    later := TryOnce(cfg, EMPTY, sys, id, k + 1, (sys.sh.rows[id].expires.value + 1) as real, retries, takeovers,
                     1 + k);
  }

  /** Failures first, with no takeover in between. */
  lemma {:induction false} AttainRetries(cfg: PublisherConfig, p: Payload, created: string, retries: nat)
    returns (sys: System)
    requires cfg.skew >= 0.0 && HasTopic(cfg) && retries < cfg.maxRetries
    ensures Reachable(cfg, sys) && Attained(sys, p.id, retries, 0)
  {
    if retries > 0 {
      sys := AttainRetries(cfg, p, created, retries - 1);
      sys := RetryOnce(cfg, sys, p.id, retries - 1, 0);
    } else {
      sys := FirstTry(cfg, p, created);
    }
  }

  lemma {:induction false} Attain(cfg: PublisherConfig, p: Payload, created: string, retries: nat, takeovers: nat)
    returns (sys: System)
    requires cfg.skew >= 0.0 && HasTopic(cfg) && retries < cfg.maxRetries
    ensures Reachable(cfg, sys) && Attained(sys, p.id, retries, takeovers)
  {
    if takeovers > 0 {
      sys := Attain(cfg, p, created, retries, takeovers - 1);
      sys := TakeOverOnce(cfg, sys, p.id, retries, takeovers - 1);
    } else {
      sys := AttainRetries(cfg, p, created, retries);
    }
  }

  /**
   For any number of retries below the maximum and any number of takeovers, some run
   sends the row exactly once more than the two together.
   */
  lemma BoundIsAttained(cfg: PublisherConfig, p: Payload, created: string, retries: nat, takeovers: nat)
    requires cfg.skew >= 0.0 && HasTopic(cfg) && retries < cfg.maxRetries
    ensures exists steps ::
              Run(cfg, EMPTY, steps).Some?
              && var sh := Run(cfg, EMPTY, steps).value.sh;
                 && p.id in sh.rows && sh.rows[p.id].retries == Some(retries)
                 && Count(sh.log, p.id, Takeovers) == takeovers
                 && Count(sh.log, p.id, Sends) == 1 + retries + takeovers
  {
    var sys := Attain(cfg, p, created, retries, takeovers);
    var steps :| Run(cfg, EMPTY, steps) == Some(sys);
  }

  /**
   The greatest number of sends of a FAILED row is its retries and takeovers together: for
   any number of retries up to the maximum and any number of takeovers some run sends the
   row just so often.
   */
  lemma FailedBoundIsAttained(cfg: PublisherConfig, p: Payload, created: string, retries: nat, takeovers: nat)
    requires cfg.skew >= 0.0 && HasTopic(cfg) && 0 < retries <= cfg.maxRetries
    ensures exists steps ::
              Run(cfg, EMPTY, steps).Some?
              && var sh := Run(cfg, EMPTY, steps).value.sh;
                 && p.id in sh.rows && sh.rows[p.id].status == Failed && sh.rows[p.id].retries == Some(retries)
                 && Count(sh.log, p.id, Takeovers) == takeovers
                 && Count(sh.log, p.id, Sends) == retries + takeovers
  {
    var tried := Attain(cfg, p, created, retries - 1, takeovers);
    var sys := FailOnce(cfg, tried, p.id, retries - 1 + takeovers, retries - 1, takeovers, retries + takeovers);
    var steps :| Run(cfg, EMPTY, steps) == Some(sys);
  }
}
