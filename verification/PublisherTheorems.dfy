/**
 What the publisher promises, stated of every run: any number of stream handlers
 and sweepers, stale images, crashes, lost replies, lease takeovers.
 */
module PublisherTheorems {
  import opened Options
  import opened Domain
  import opened OutboxRows
  import opened PublisherRuns
  import opened PublisherInvariant

  lemma {:induction false} SubsetSize(a: set<Token>, b: set<Token>)
    requires a <= b
    ensures |a| <= |b|
  {
    if a != {} {
      var t :| t in a;
      SubsetSize(a - {t}, b - {t});
    }
  }

  /**
   Conservation.  Every lease granted on a row ended in a recorded failure or in a
   takeover, except the one behind a PUBLISHING or PUBLISHED row.  So the row was sent
   at most once more than its retries and takeovers together, and its retry count never
   passes the maximum.
   */
  lemma LeasesAreConserved(cfg: PublisherConfig, steps: seq<Step>, id: OutputId)
    requires Run(cfg, EMPTY, steps).Some? && id in Run(cfg, EMPTY, steps).value.sh.rows
    ensures var sh := Run(cfg, EMPTY, steps).value.sh;
            var r := sh.rows[id];
            var open := if r.status == Publishing || r.status == Published then 1 else 0;
            && Count(sh.log, id, Grants) == Count(sh.log, id, Failures) + Count(sh.log, id, Takeovers) + open
            && r.retries == Some(Count(sh.log, id, Failures))
            && r.retries.value <= cfg.maxRetries
            && Count(sh.log, id, Sends) <= r.retries.value + Count(sh.log, id, Takeovers) + open
  {
    RunKeepsInv(cfg, steps);
    var sh := Run(cfg, EMPTY, steps).value.sh;
    assert Balanced(sh.log, id, sh.rows[id]);
    assert RowOk(cfg, sh.log, id, sh.rows[id]);
    SubsetSize(SentTokens(sh.log, id), GrantedTokens(sh.log, id));
  }

  lemma {:induction false} LatestEntry(log: seq<Entry>, id: OutputId) returns (j: nat)
    requires Latest(log, id).Some?
    ensures j < |log| && log[j] == Latest(log, id).value && log[j].id == id
    ensures log[j].Granted? || log[j].Committed? || log[j].GaveUp?
    ensures forall k | j < k < |log| && log[k].id == id :: log[k].Sent? || log[k].Inserted?
  {
    var n := |log| - 1;
    var x := log[n];
    if x.id == id && (x.Granted? || x.Committed? || x.GaveUp?) {
      j := n;
    } else {
      j := LatestEntry(log[..n], id);
      assert forall k | 0 <= k < n :: log[..n][k] == log[k];
    }
  }

  lemma {:induction false} SentIndex(log: seq<Entry>, id: OutputId, t: Token) returns (i: nat)
    requires t in SentTokens(log, id)
    ensures i < |log| && log[i].Sent? && log[i].id == id && log[i].token == t
  {
    var n := |log| - 1;
    if log[n].Sent? && log[n].id == id && log[n].token == t {
      i := n;
    } else {
      i := SentIndex(log[..n], id, t);
    }
  }

  /** Before a commit there is a send under the same lease. */
  lemma SendBeforeCommit(cfg: PublisherConfig, log: seq<Entry>, j: nat) returns (i: nat)
    requires LogOk(cfg, log) && j < |log| && log[j].Committed?
    ensures i < j && log[i].Sent? && log[i].id == log[j].id && log[i].token == log[j].token
  {
    assert EntryOk(cfg, log[..j], log[j]);
    i := SentIndex(log[..j], log[j].id, log[j].token);
  }

  /** The commit behind a PUBLISHED row. */
  lemma CommitOfPublished(cfg: PublisherConfig, sh: Shared, id: OutputId) returns (j: nat)
    requires RowsOk(cfg, sh) && LivePublished(sh, id)
    ensures j < |sh.log| && sh.log[j].Committed? && sh.log[j].id == id
  {
    assert RowOk(cfg, sh.log, id, sh.rows[id]);
    j := LatestEntry(sh.log, id);
  }

  /**
   At least once.  A row is PUBLISHED only after its own payload, the one it was inserted
   with, was sent under the very lease that then committed it.
   */
  lemma PublishedWasSent(cfg: PublisherConfig, steps: seq<Step>, id: OutputId)
    requires Run(cfg, EMPTY, steps).Some? && LivePublished(Run(cfg, EMPTY, steps).value.sh, id)
    ensures var sh := Run(cfg, EMPTY, steps).value.sh;
            exists i, j, t ::
              0 <= i < j < |sh.log| && sh.log[i] == Sent(id, t, sh.rows[id].payload,
                                                         TopicOf(cfg, KindOf(sh.rows[id].payload)))
              && sh.log[j] == Committed(id, t)
  {
    RunKeepsInv(cfg, steps);
    var sh := Run(cfg, EMPTY, steps).value.sh;
    var j := CommitOfPublished(cfg, sh, id);
    var i := SendBeforeCommit(cfg, sh.log, j);
    SentIsCanonical(cfg, sh, i);
    assert sh.log[i] == Sent(id, sh.log[j].token, sh.rows[id].payload, TopicOf(cfg, KindOf(sh.rows[id].payload)))
           && sh.log[j] == Committed(id, sh.log[j].token);
  }

  lemma InsertedOnce(cfg: PublisherConfig, log: seq<Entry>, a: nat, b: nat)
    requires LogOk(cfg, log) && a <= b < |log| && log[a].Inserted? && log[b].Inserted? && log[a].id == log[b].id
    ensures a == b
  {
    assert EntryOk(cfg, log[..b], log[b]);
  }

  lemma OnePayload(cfg: PublisherConfig, log: seq<Entry>, id: OutputId, p: Payload, q: Payload)
    requires LogOk(cfg, log) && InsertedAs(log, id, p) && InsertedAs(log, id, q)
    ensures p == q
  {
    var a :| 0 <= a < |log| && log[a] == Inserted(id, p);
    var b :| 0 <= b < |log| && log[b] == Inserted(id, q);
    InsertedOnce(cfg, log, if a < b then a else b, if a < b then b else a);
  }

  lemma SentWasInserted(cfg: PublisherConfig, log: seq<Entry>, i: nat)
    requires LogOk(cfg, log) && i < |log| && log[i].Sent?
    ensures InsertedAs(log, log[i].id, log[i].payload)
    ensures log[i].topic == TopicOf(cfg, KindOf(log[i].payload)) && log[i].topic != ""
  {
    assert EntryOk(cfg, log[..i], log[i]);
    var a :| 0 <= a < i && log[..i][a] == Inserted(log[i].id, log[i].payload);
    assert log[a] == Inserted(log[i].id, log[i].payload);
  }

  /** Whatever was sent for a row is the payload it was inserted with. */
  lemma SentIsCanonical(cfg: PublisherConfig, sh: Shared, i: nat)
    requires LogOk(cfg, sh.log) && RowsOk(cfg, sh) && LogKnown(sh) && i < |sh.log| && sh.log[i].Sent?
    ensures sh.log[i].id in sh.rows && sh.log[i].payload == sh.rows[sh.log[i].id].payload
    ensures sh.log[i].topic == TopicOf(cfg, KindOf(sh.log[i].payload)) && sh.log[i].topic != ""
  {
    var id := sh.log[i].id;
    assert RowOk(cfg, sh.log, id, sh.rows[id]);
    SentWasInserted(cfg, sh.log, i);
    OnePayload(cfg, sh.log, id, sh.log[i].payload, sh.rows[id].payload);
  }

  /** Whatever is sent goes to the topic for processing events, or, where that is not set, to
      the general one. */
  lemma TopicsAreRight(cfg: PublisherConfig, steps: seq<Step>, i: nat)
    requires Run(cfg, EMPTY, steps).Some? && i < |Run(cfg, EMPTY, steps).value.sh.log|
    requires Run(cfg, EMPTY, steps).value.sh.log[i].Sent?
    ensures var topic := Run(cfg, EMPTY, steps).value.sh.log[i].topic;
            topic == (if cfg.processingTopic != "" then cfg.processingTopic else cfg.topic) && topic != ""
  {
    RunKeepsInv(cfg, steps);
    SentIsCanonical(cfg, Run(cfg, EMPTY, steps).value.sh, i);
  }

  /** Every row is filed as its payload and its status say: its type, its shard, which is the
      first byte of the digest of the file id modulo 16, and the key of the status index. */
  lemma RowsAreFiled(cfg: PublisherConfig, steps: seq<Step>, id: OutputId)
    requires Run(cfg, EMPTY, steps).Some? && id in Run(cfg, EMPTY, steps).value.sh.rows
    ensures var r := Run(cfg, EMPTY, steps).value.sh.rows[id];
            && r.kind == (if r.payload.body.Analysis? then AnalysisCompleted else ProcessingFailed)
            && r.shard == ['0', "0123456789abcdef"[cfg.firstByte(r.payload.file) % 16]]
            && r.index == (match r.status
                           case Pending => "STATUS#PENDING#" + r.shard
                           case Publishing => "STATUS#PUBLISHING#" + r.shard
                           case Published => "STATUS#PUBLISHED#" + r.shard
                           case Failed => "STATUS#FAILED#" + r.shard)
  {
    RunKeepsInv(cfg, steps);
    RowIsFiled(cfg, Run(cfg, EMPTY, steps).value.sh, id);
  }

  /** A row is inserted as PENDING, with the creation time it is given, no retries and no lease;
      and whatever becomes of it, its payload and its creation time stay. */
  lemma {:induction false} CreationStays(cfg: PublisherConfig, sys: System, p: Payload, created: string,
                                         more: seq<Step>)
    requires StepOf(cfg, sys, InsertRow(p, created)).Some?
    requires Run(cfg, StepOf(cfg, sys, InsertRow(p, created)).value, more).Some?
    ensures var inserted := StepOf(cfg, sys, InsertRow(p, created)).value.sh.rows;
            && p.id !in sys.sh.rows && p.id in inserted && inserted == sys.sh.rows[p.id := inserted[p.id]]
            && inserted[p.id].status == Pending && inserted[p.id].retries == Some(0)
            && inserted[p.id].token.None? && inserted[p.id].lastError.None?
    ensures var rows := Run(cfg, StepOf(cfg, sys, InsertRow(p, created)).value, more).value.sh.rows;
            p.id in rows && rows[p.id].created == created && rows[p.id].payload == p
  {
    if more != [] {
      var n := |more| - 1;
      var inserted := StepOf(cfg, sys, InsertRow(p, created)).value;
      CreationStays(cfg, sys, p, created, more[..n]);
      CreationStep(cfg, Run(cfg, inserted, more[..n]).value, more[n], p.id);
    }
  }

  lemma CreationStep(cfg: PublisherConfig, sys: System, step: Step, id: OutputId)
    requires StepOf(cfg, sys, step).Some? && id in sys.sh.rows
    ensures var rows := StepOf(cfg, sys, step).value.sh.rows;
            id in rows && rows[id].created == sys.sh.rows[id].created && rows[id].payload == sys.sh.rows[id].payload
  {
  }

  lemma RowIsFiled(cfg: PublisherConfig, sh: Shared, id: OutputId)
    requires RowsOk(cfg, sh) && ImagesOk(sh) && id in sh.rows
    ensures var r := sh.rows[id];
            && r.kind == (if r.payload.body.Analysis? then AnalysisCompleted else ProcessingFailed)
            && r.shard == ['0', "0123456789abcdef"[cfg.firstByte(r.payload.file) % 16]]
            && r.index == (match r.status
                           case Pending => "STATUS#PENDING#" + r.shard
                           case Publishing => "STATUS#PUBLISHING#" + r.shard
                           case Published => "STATUS#PUBLISHED#" + r.shard
                           case Failed => "STATUS#FAILED#" + r.shard)
  {
    var r := sh.rows[id];
    assert RowOk(cfg, sh.log, id, r) && r in sh.images;
    IndexKeyText(r.status, r.shard);
    ShardText(cfg, r.payload.file);
  }

  /** Nothing changes any more: published, or failed as often as is allowed. */
  predicate Final(cfg: PublisherConfig, r: OutboxRow) {
    r.status == Published || (r.status == Failed && r.retries.Some? && r.retries.value >= cfg.maxRetries)
  }

  lemma FinalStep(cfg: PublisherConfig, sys: System, step: Step, id: OutputId)
    requires StepOf(cfg, sys, step).Some? && id in sys.sh.rows && Final(cfg, sys.sh.rows[id])
    ensures var sys' := StepOf(cfg, sys, step).value;
            id in sys'.sh.rows && sys'.sh.rows[id] == sys.sh.rows[id]
  {
  }

  /** PUBLISHED is absorbing, and so is FAILED at the maximum: from whatever state, and
      whatever stale handlers, sweepers and late replies do, the row stays exactly as it is. */
  lemma {:induction false} FinalIsAbsorbing(cfg: PublisherConfig, sys: System, more: seq<Step>, id: OutputId)
    requires id in sys.sh.rows && Final(cfg, sys.sh.rows[id]) && Run(cfg, sys, more).Some?
    ensures id in Run(cfg, sys, more).value.sh.rows
    ensures Run(cfg, sys, more).value.sh.rows[id] == sys.sh.rows[id]
  {
    if more != [] {
      var n := |more| - 1;
      FinalIsAbsorbing(cfg, sys, more[..n], id);
      FinalStep(cfg, Run(cfg, sys, more[..n]).value, more[n], id);
    }
  }

  /** The worker has ended, or its row no longer carries the lease it was granted. */
  predicate LeaseLost(sys: System, w: nat) {
    w in sys.workers
    && (sys.workers[w].pc.Ended?
        || (TokenOf(sys.workers[w].pc).Some?
            && (sys.workers[w].image.id in sys.sh.rows ==>
                  sys.sh.rows[sys.workers[w].image.id].token != TokenOf(sys.workers[w].pc))))
  }

  /** A lost lease stays lost, and its worker writes no row. */
  lemma LostStep(cfg: PublisherConfig, sys: System, step: Step, w: nat)
    requires WorkersOk(sys) && LeaseLost(sys, w) && StepOf(cfg, sys, step).Some?
    ensures LeaseLost(StepOf(cfg, sys, step).value, w)
    ensures step.Work? && step.w == w ==> StepOf(cfg, sys, step).value.sh.rows == sys.sh.rows
  {
    assert WorkerOk(sys.sh, sys.workers[w]);
  }

  lemma {:induction false} LostStays(cfg: PublisherConfig, sys: System, more: seq<Step>, w: nat)
    requires Inv(cfg, sys) && LeaseLost(sys, w) && Run(cfg, sys, more).Some?
    ensures Inv(cfg, Run(cfg, sys, more).value) && LeaseLost(Run(cfg, sys, more).value, w)
  {
    if more != [] {
      var n := |more| - 1;
      LostStays(cfg, sys, more[..n], w);
      LostStepStays(cfg, Run(cfg, sys, more[..n]).value, more[n], w);
    }
  }

  lemma LostStepStays(cfg: PublisherConfig, sys: System, step: Step, w: nat)
    requires Inv(cfg, sys) && LeaseLost(sys, w) && StepOf(cfg, sys, step).Some?
    ensures Inv(cfg, StepOf(cfg, sys, step).value) && LeaseLost(StepOf(cfg, sys, step).value, w)
  {
    StepKeepsInv(cfg, sys, step);
    LostStep(cfg, sys, step, w);
  }

  lemma LaterWork(cfg: PublisherConfig, start: System, more: seq<Step>, w: nat, act: Act)
    requires Inv(cfg, start) && Run(cfg, start, more).Some?
    requires StepOf(cfg, Run(cfg, start, more).value, Work(w, act)).Some?
    ensures var sys := Run(cfg, start, more).value;
            var rows, rows' := sys.sh.rows, StepOf(cfg, sys, Work(w, act)).value.sh.rows;
            && (LeaseLost(start, w) ==> rows' == rows)
            && forall id | id in rows && id != sys.workers[w].image.id :: id in rows' && rows'[id] == rows[id]
  {
    OwnRowOnly(cfg, Run(cfg, start, more).value, w, act);
    if LeaseLost(start, w) {
      LostStays(cfg, start, more, w);
      LostStep(cfg, Run(cfg, start, more).value, Work(w, act), w);
    }
  }

  lemma OwnRowOnly(cfg: PublisherConfig, sys: System, w: nat, act: Act)
    requires StepOf(cfg, sys, Work(w, act)).Some?
    ensures var rows, rows' := sys.sh.rows, StepOf(cfg, sys, Work(w, act)).value.sh.rows;
            forall id | id in rows && id != sys.workers[w].image.id :: id in rows' && rows'[id] == rows[id]
  {
  }

  /**
   A worker that has lost its lease changes no row ever after, however many steps it and
   others take in between, and however its calls end; and no worker ever changes another
   row than its own.
   */
  lemma LostLeaseChangesNothing(cfg: PublisherConfig, steps: seq<Step>, more: seq<Step>, w: nat, act: Act)
    requires Run(cfg, EMPTY, steps).Some? && Run(cfg, Run(cfg, EMPTY, steps).value, more).Some?
    requires StepOf(cfg, Run(cfg, Run(cfg, EMPTY, steps).value, more).value, Work(w, act)).Some?
    ensures var sys := Run(cfg, Run(cfg, EMPTY, steps).value, more).value;
            var rows, rows' := sys.sh.rows, StepOf(cfg, sys, Work(w, act)).value.sh.rows;
            && (LeaseLost(Run(cfg, EMPTY, steps).value, w) ==> rows' == rows)
            && forall id | id in rows && id != sys.workers[w].image.id :: id in rows' && rows'[id] == rows[id]
  {
    RunKeepsInv(cfg, steps);
    LaterWork(cfg, Run(cfg, EMPTY, steps).value, more, w, act);
  }

  /** A handler reports a row as published, or skips it as published, only if it is. */
  lemma ReportsAreTrue(cfg: PublisherConfig, steps: seq<Step>, w: nat)
    requires Run(cfg, EMPTY, steps).Some? && w in Run(cfg, EMPTY, steps).value.workers
    requires Run(cfg, EMPTY, steps).value.workers[w].pc.Ended?
    ensures var sys := Run(cfg, EMPTY, steps).value;
            sys.workers[w].pc.result != Raised ==> LivePublished(sys.sh, sys.workers[w].image.id)
  {
    RunKeepsInv(cfg, steps);
    var sys := Run(cfg, EMPTY, steps).value;
    assert WorkerOk(sys.sh, sys.workers[w]);
  }

  /** A lease is taken over only more than its lifetime after it was granted, less what
      two clocks can be off.  The moments compared are those at which the claiming workers
      read their clocks. */
  lemma TakeoversAreApart(cfg: PublisherConfig, steps: seq<Step>, i: nat, j: nat)
    requires Run(cfg, EMPTY, steps).Some?
    requires var log := Run(cfg, EMPTY, steps).value.sh.log;
             i < j < |log| && log[i].Granted? && log[j].Granted? && log[i].id == log[j].id
             && forall k | i < k < j && log[k].id == log[j].id :: log[k].Sent?
    ensures var log := Run(cfg, EMPTY, steps).value.sh.log;
            log[j].takeover && log[j].at - log[i].at > cfg.claimTtl as real - 2.0 * cfg.skew
  {
    RunKeepsInv(cfg, steps);
    TakeoverGap(cfg, Run(cfg, EMPTY, steps).value.sh.log, i, j);
  }

  lemma TakeoverGap(cfg: PublisherConfig, log: seq<Entry>, i: nat, j: nat)
    requires LogOk(cfg, log) && i < j < |log| && log[i].Granted? && log[j].Granted? && log[i].id == log[j].id
    requires forall k | i < k < j && log[k].id == log[j].id :: log[k].Sent?
    ensures log[j].takeover && log[j].at - log[i].at > cfg.claimTtl as real - 2.0 * cfg.skew
  {
    assert EntryOk(cfg, log[..j], log[j]);
    assert forall k | i <= k < j :: log[..j][k] == log[k];
    OnlySendsSince(log[..j], log[j].id, i);
  }

  /**
   A lease ends on time.  A PUBLISHING row can be claimed at every clock reading later than
   its lifetime after the grant, plus what a clock can be off.
   */
  lemma LeasesEnd(cfg: PublisherConfig, steps: seq<Step>, id: OutputId)
    requires Run(cfg, EMPTY, steps).Some? && id in Run(cfg, EMPTY, steps).value.sh.rows
    requires Run(cfg, EMPTY, steps).value.sh.rows[id].status == Publishing
    ensures var sh := Run(cfg, EMPTY, steps).value.sh;
            exists i :: 0 <= i < |sh.log| && sh.log[i].Granted? && sh.log[i].id == id
              && (forall k | i < k < |sh.log| && sh.log[k].id == id :: !sh.log[k].Granted?)
              && forall now: int | now as real > sh.log[i].at + cfg.skew + cfg.claimTtl as real ::
                   Claimable(cfg, sh.rows[id], now)
  {
    RunKeepsInv(cfg, steps);
    LeaseEnds(cfg, Run(cfg, EMPTY, steps).value.sh, id);
  }

  lemma LeaseEnds(cfg: PublisherConfig, sh: Shared, id: OutputId)
    requires RowsOk(cfg, sh) && id in sh.rows && sh.rows[id].status == Publishing
    ensures exists i :: 0 <= i < |sh.log| && sh.log[i].Granted? && sh.log[i].id == id
              && (forall k | i < k < |sh.log| && sh.log[k].id == id :: !sh.log[k].Granted?)
              && forall now: int | now as real > sh.log[i].at + cfg.skew + cfg.claimTtl as real ::
                   Claimable(cfg, sh.rows[id], now)
  {
    assert RowOk(cfg, sh.log, id, sh.rows[id]);
    var i := LatestEntry(sh.log, id);
    assert sh.log[i].Granted?;
  }

  lemma {:induction false} OnlySendsSince(log: seq<Entry>, id: OutputId, i: nat)
    requires i < |log| && log[i].id == id && log[i].Granted?
    requires forall k | i < k < |log| && log[k].id == id :: log[k].Sent?
    ensures Latest(log, id) == Some(log[i])
  {
    if i < |log| - 1 {
      OnlySendsSince(log[..|log| - 1], id, i);
    }
  }

  /** Field hygiene: a row can be deleted by age only once it is PUBLISHED, it carries a token
      and an expiry exactly while it is PUBLISHING, and an error, at most 2000 characters
      long, exactly since its first recorded failure. */
  lemma RowsAreTidy(cfg: PublisherConfig, steps: seq<Step>, id: OutputId)
    requires Run(cfg, EMPTY, steps).Some? && id in Run(cfg, EMPTY, steps).value.sh.rows
    ensures var sh := Run(cfg, EMPTY, steps).value.sh;
            var r := sh.rows[id];
            && (r.ttl.Some? <==> r.status == Published)
            && (r.token.Some? <==> r.status == Publishing) && (r.expires.Some? <==> r.status == Publishing)
            && (r.lastError.Some? <==> Count(sh.log, id, Failures) > 0)
            && (r.lastError.Some? ==> |r.lastError.value| <= 2000)
  {
    RunKeepsInv(cfg, steps);
    var sh := Run(cfg, EMPTY, steps).value.sh;
    assert RowOk(cfg, sh.log, id, sh.rows[id]);
    assert Balanced(sh.log, id, sh.rows[id]);
  }

  /** Index agreement: a row is found under exactly one status and one of the 16 scanned
      shards, and that status is its own. */
  lemma IndexAgrees(cfg: PublisherConfig, steps: seq<Step>, id: OutputId)
    requires Run(cfg, EMPTY, steps).Some? && id in Run(cfg, EMPTY, steps).value.sh.rows
    ensures var r := Run(cfg, EMPTY, steps).value.sh.rows[id];
            exists n: nat :: n < SHARDS && r.index == IndexKey(r.status, TwoHex(n))
              && forall s, m: nat | m < SHARDS && r.index == IndexKey(s, TwoHex(m)) :: s == r.status && m == n
  {
    RunKeepsInv(cfg, steps);
    var sh := Run(cfg, EMPTY, steps).value.sh;
    var r := sh.rows[id];
    assert RowOk(cfg, sh.log, id, r);
    var n: nat := cfg.firstByte(r.payload.file) % SHARDS;
    forall s, m: nat | m < SHARDS && r.index == IndexKey(s, TwoHex(m)) ensures s == r.status && m == n {
      IndexKeyInjective(s, TwoHex(m), r.status, TwoHex(n));
      TwoHexInjective(m, n);
    }
    assert r.index == IndexKey(r.status, TwoHex(n));
  }
}
