/**
 When delivery is still possible.  A row can still become PUBLISHED exactly while it has
 not failed as often as is allowed; and a row may fail that often without ever having
 been sent.
 */
module Delivery {
  import opened Options
  import opened Domain
  import opened OutboxRows
  import opened PublisherRuns
  import opened PublisherInvariant
  import opened PublisherTheorems
  import opened DuplicateBound

  /** A row that failed as often as is allowed. */
  predicate GivenUp(cfg: PublisherConfig, r: OutboxRow) {
    r.status == Failed && r.retries.Some? && r.retries.value >= cfg.maxRetries
  }

  /** The row is PUBLISHED in this state or in some state after it. */
  ghost predicate CanBePublished(cfg: PublisherConfig, sys: System, id: OutputId) {
    exists later :: ReachableFrom(cfg, sys, later) && LivePublished(later.sh, id)
  }

  lemma {:induction false} UpperBound(numbers: set<nat>) returns (k: nat)
    ensures forall n | n in numbers :: n < k
  {
    if numbers == {} {
      k := 0;
    } else {
      var n :| n in numbers;
      k := UpperBound(numbers - {n});
      k := if n < k then k else n + 1;
      assert forall m | m in numbers :: m == n || m in numbers - {n};
    }
  }

  /** A worker and a token number that nobody uses. */
  lemma UnusedNumber(sys: System) returns (k: nat)
    ensures Unused(sys, k)
  {
    var w := UpperBound(sys.workers.Keys);
    var t := UpperBound(sys.sh.tokens);
    k := w + t;
  }

  /** The row holds its own canonical payload. */
  lemma RowIsCanonical(cfg: PublisherConfig, sh: Shared, id: OutputId)
    requires TablesOk(cfg, sh) && id in sh.rows
    ensures sh.rows[id].id == id && sh.rows[id] in sh.images
    ensures sh.rows[id].payload.id == id && sh.rows[id].kind == KindOf(sh.rows[id].payload)
  {
    assert RowOk(cfg, sh.log, id, sh.rows[id]);
    var j :| 0 <= j < |sh.log| && sh.log[j] == Inserted(id, sh.rows[id].payload);
    assert EntryOk(cfg, sh.log[..j], sh.log[j]);
  }

  /** A reachable row that is neither PUBLISHED nor given up can be claimed, at the latest
      once its lease has expired. */
  lemma ClaimableInTime(cfg: PublisherConfig, sh: Shared, id: OutputId) returns (at: real)
    requires cfg.maxRetries >= 1 && RowsOk(cfg, sh) && id in sh.rows
    requires sh.rows[id].status != Published && !GivenUp(cfg, sh.rows[id])
    ensures Claimable(cfg, sh.rows[id], at.Floor)
  {
    assert RowOk(cfg, sh.log, id, sh.rows[id]);
    at := if sh.rows[id].expires.Some? then (sh.rows[id].expires.value + 1) as real else 0.0;
  }

  lemma CommitStep(cfg: PublisherConfig, sys: System, id: OutputId, k: nat, retries: nat, takeovers: nat, sends: nat)
    requires Tried(sys, id, k, retries, takeovers, sends)
    ensures StepOf(cfg, sys, Work(k, MarkPublished(0, Heard))).Some?
    ensures LivePublished(StepOf(cfg, sys, Work(k, MarkPublished(0, Heard))).value.sh, id)
  {
  }

  /** Someone claims the row, sends it and commits. */
  lemma Deliver(cfg: PublisherConfig, sys: System, id: OutputId)
    requires cfg.skew >= 0.0 && HasTopic(cfg) && cfg.maxRetries >= 1
    requires TablesOk(cfg, sys.sh) && id in sys.sh.rows
    requires sys.sh.rows[id].status != Published && !GivenUp(cfg, sys.sh.rows[id])
    ensures CanBePublished(cfg, sys, id)
  {
    var at := ClaimableInTime(cfg, sys.sh, id);
    RowIsCanonical(cfg, sys.sh, id);
    assert RowOk(cfg, sys.sh.log, id, sys.sh.rows[id]);
    DeliverClaimable(cfg, sys, id, at);
  }

  lemma DeliverClaimable(cfg: PublisherConfig, sys: System, id: OutputId, at: real)
    requires cfg.skew >= 0.0 && HasTopic(cfg) && id in sys.sh.rows && Claimable(cfg, sys.sh.rows[id], at.Floor)
    requires sys.sh.rows[id].id == id && sys.sh.rows[id] in sys.sh.images && sys.sh.rows[id].retries.Some?
    requires sys.sh.rows[id].payload.id == id && sys.sh.rows[id].kind == KindOf(sys.sh.rows[id].payload)
    ensures CanBePublished(cfg, sys, id)
  {
    var retries := sys.sh.rows[id].retries.value;
    var takeovers, sends := Count(sys.sh.log, id, Takeovers), Count(sys.sh.log, id, Sends);
    var k := UnusedNumber(sys);
    ReachesItself(cfg, sys);
    var tried := TryOnce(cfg, sys, sys, id, k, at, retries, takeovers, sends);
    var total := takeovers + if sys.sh.rows[id].status == Publishing then 1 else 0;
    CommitStep(cfg, tried, id, k, retries, total, sends + 1);
    ReachesFrom(cfg, sys, tried, Work(k, MarkPublished(0, Heard)));
  }

  /**
   At least once has exactly one end.  From a reachable state some continuation makes the
   row PUBLISHED if and only if it has not failed as often as is allowed.
   */
  lemma DeliverableUnlessGivenUp(cfg: PublisherConfig, steps: seq<Step>, id: OutputId)
    requires cfg.skew >= 0.0 && HasTopic(cfg) && cfg.maxRetries >= 1
    requires Run(cfg, EMPTY, steps).Some? && id in Run(cfg, EMPTY, steps).value.sh.rows
    ensures var sys := Run(cfg, EMPTY, steps).value;
            CanBePublished(cfg, sys, id) <==> !GivenUp(cfg, sys.sh.rows[id])
  {
    RunKeepsInv(cfg, steps);
    var sys := Run(cfg, EMPTY, steps).value;
    if GivenUp(cfg, sys.sh.rows[id]) {
      forall later | ReachableFrom(cfg, sys, later) ensures !LivePublished(later.sh, id) {
        var more :| Run(cfg, sys, more) == Some(later);
        FinalIsAbsorbing(cfg, sys, more, id);
      }
    } else if sys.sh.rows[id].status == Published {
      ReachesItself(cfg, sys);
    } else {
      Deliver(cfg, sys, id);
    }
  }

  /** Without a topic nothing is ever sent, so nothing is ever PUBLISHED. */
  lemma NoTopicNoDelivery(cfg: PublisherConfig, steps: seq<Step>, id: OutputId)
    requires Run(cfg, EMPTY, steps).Some? && id in Run(cfg, EMPTY, steps).value.sh.rows
    ensures !HasTopic(cfg) ==> !LivePublished(Run(cfg, EMPTY, steps).value.sh, id)
  {
    var sh := Run(cfg, EMPTY, steps).value.sh;
    if LivePublished(sh, id) {
      PublishedWasSent(cfg, steps, id);
      var i, j, t :| 0 <= i < j < |sh.log| && sh.log[j] == Committed(id, t)
                     && sh.log[i] == Sent(id, t, sh.rows[id].payload, TopicOf(cfg, KindOf(sh.rows[id].payload)));
      RunKeepsInv(cfg, steps);
      SentIsCanonical(cfg, sh, i);
    }
  }

  // ----------------------------------------------------------- given up, unsent

  /** The row waits to be claimed, failed so many times, never sent. */
  predicate Unsent(sys: System, id: OutputId, n: nat) {
    Unused(sys, n) && Tally(sys, id, n, 0, 0)
    && (if n == 0 then sys.sh.rows[id].status == Pending else sys.sh.rows[id].status == Failed)
  }

  lemma RefuseSend(cfg: PublisherConfig, sys: System, id: OutputId, k: nat, retries: nat)
    requires Holding(sys, id, k, Claimed(k), retries, 0, 0)
    ensures StepOf(cfg, sys, Work(k, SendMessage(Refused))).Some?
    ensures Holding(StepOf(cfg, sys, Work(k, SendMessage(Refused))).value, id, k, Failing(k), retries, 0, 0)
  {
  }

  /** A worker claims the row, the send is refused, the failure is recorded. */
  lemma FailUnsent(cfg: PublisherConfig, sys: System, id: OutputId, n: nat) returns (later: System)
    requires cfg.skew >= 0.0 && Reachable(cfg, sys) && Unsent(sys, id, n) && n < cfg.maxRetries
    ensures Reachable(cfg, later) && Unsent(later, id, n + 1)
  {
    BeginStep(cfg, sys, id, n, n, 0, 0);
    ReachesFrom(cfg, EMPTY, sys, Begin(n, sys.sh.rows[id]));
    later := StepOf(cfg, sys, Begin(n, sys.sh.rows[id])).value;
    ClaimStep(cfg, later, id, n, 0.0, n, 0, 0);
    ReachesFrom(cfg, EMPTY, later, Work(n, ClaimRow(n, 0.0, 0.0, Heard)));
    later := StepOf(cfg, later, Work(n, ClaimRow(n, 0.0, 0.0, Heard))).value;
    RefuseSend(cfg, later, id, n, n);
    ReachesFrom(cfg, EMPTY, later, Work(n, SendMessage(Refused)));
    later := StepOf(cfg, later, Work(n, SendMessage(Refused))).value;
    FailStep(cfg, later, id, n, n, 0, 0);
    ReachesFrom(cfg, EMPTY, later, Work(n, MarkFailed("", Heard)));
    later := StepOf(cfg, later, Work(n, MarkFailed("", Heard))).value;
  }

  lemma InsertedUnsent(cfg: PublisherConfig, p: Payload, created: string) returns (sys: System)
    ensures Reachable(cfg, sys) && Unsent(sys, p.id, 0)
  {
    InsertStep(cfg, p, created);
    ReachesItself(cfg, EMPTY);
    ReachesFrom(cfg, EMPTY, EMPTY, InsertRow(p, created));
    sys := StepOf(cfg, EMPTY, InsertRow(p, created)).value;
  }

  lemma {:induction false} FailsUnsent(cfg: PublisherConfig, p: Payload, created: string, n: nat) returns (sys: System)
    requires cfg.skew >= 0.0 && n <= cfg.maxRetries
    ensures Reachable(cfg, sys) && Unsent(sys, p.id, n)
  {
    if n == 0 {
      sys := InsertedUnsent(cfg, p, created);
    } else {
      sys := FailsUnsent(cfg, p, created, n - 1);
      sys := FailUnsent(cfg, sys, p.id, n - 1);
    }
  }

  /** For every event there is a run in which every send is refused: its row is given up
      and was never sent. */
  lemma GivenUpUnsent(cfg: PublisherConfig, p: Payload, created: string)
    requires cfg.skew >= 0.0 && cfg.maxRetries >= 1
    ensures exists steps ::
              Run(cfg, EMPTY, steps).Some?
              && var sh := Run(cfg, EMPTY, steps).value.sh;
                 p.id in sh.rows && GivenUp(cfg, sh.rows[p.id]) && Count(sh.log, p.id, Sends) == 0
  {
    var sys := FailsUnsent(cfg, p, created, cfg.maxRetries);
    var steps :| Run(cfg, EMPTY, steps) == Some(sys);
  }
}
