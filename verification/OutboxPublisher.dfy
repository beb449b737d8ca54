/**
 The publisher as a program: it claims one row at a time, sends its payload, and marks
 it published or, on an error, failed.  Other handlers and sweepers move between any two
 calls.  Every call is one step of PublisherRuns, so whatever holds of all runs holds
 here.
 */
module OutboxPublisher {
  import opened Options
  import opened Domain
  import opened OutboxRows
  import opened PublisherRuns
  import opened PublisherInvariant
  import opened PublisherTheorems
  import opened RetryScan
  import opened RetrySweep
  import opened Fresh

  /** What the world does around call number `i`: the steps others take before it, what
      becomes of the call, the true time and the local clock, the text of an error, what the
      status index shows, and how its pages are cut. */
  datatype Oracle = Oracle(
    others: nat -> seq<Step>,
    fate: nat -> Fate,
    at: nat -> real,
    local: nat -> real,
    error: nat -> string,
    view: (Shared, nat) -> Index,
    pager: nat -> Pager)

  /** Clocks are off by at most the skew, and the index shows only what rows once were. */
  ghost predicate WorldOk(cfg: PublisherConfig, o: Oracle) {
    && (forall i: nat :: o.at(i) - cfg.skew <= o.local(i) <= o.at(i) + cfg.skew)
    && (forall sh, i: nat | Imaged(sh) :: Remembers(o.view(sh, i), sh.images))
  }

  /** Nobody else moves, every call is heard, the local clock does not run backwards, and
      there is a topic to send to. */
  ghost predicate Quiet(cfg: PublisherConfig, o: Oracle) {
    && HasTopic(cfg)
    && (forall i: nat :: o.others(i) == [] && o.fate(i) == Heard)
    && (forall i: nat, j: nat | i <= j :: o.local(i) <= o.local(j))
  }

  ghost predicate UpToDate(o: Oracle) {
    forall sh, i: nat | Imaged(sh) :: Agrees(o.view(sh, i), sh.rows)
  }

  /** The live rows under a key, in no particular order. */
  ghost function ListOf(rows: Rows, ids: set<OutputId>, key: string): seq<OutboxRow>
    requires ids <= rows.Keys
  {
    if ids == {} then []
    else
      var id :| id in ids;
      (if rows[id].index == key then [rows[id]] else []) + ListOf(rows, ids - {id}, key)
  }

  lemma {:induction false} ListOfHolds(rows: Rows, ids: set<OutputId>, key: string, r: OutboxRow)
    requires ids <= rows.Keys
    ensures r in ListOf(rows, ids, key) <==> exists id :: id in ids && rows[id] == r && r.index == key
  {
    if ids != {} {
      var id :| id in ids && ListOf(rows, ids, key) ==
                (if rows[id].index == key then [rows[id]] else []) + ListOf(rows, ids - {id}, key);
      ListOfHolds(rows, ids - {id}, key, r);
    }
  }

  /** The index that shows exactly the live rows. */
  ghost function LiveIndex(rows: Rows): Index {
    key => Sort(ListOf(rows, rows.Keys, key))
  }

  lemma LiveIndexAgrees(rows: Rows)
    requires forall id | id in rows :: rows[id].id == id
    ensures Agrees(LiveIndex(rows), rows)
  {
    forall key
      ensures InOrder(LiveIndex(rows)(key))
      ensures forall r :: r in LiveIndex(rows)(key) <==> r.id in rows && rows[r.id] == r && r.index == key
    {
      var listed := ListOf(rows, rows.Keys, key);
      SortInOrder(listed);
      forall r ensures r in LiveIndex(rows)(key) <==> r.id in rows && rows[r.id] == r && r.index == key {
        assert r in Sort(listed) <==> r in multiset(Sort(listed));
        ListOfHolds(rows, rows.Keys, key, r);
      }
    }
  }

  /** A sweep that nobody disturbs and nothing misleads. */
  ghost predicate Calm(cfg: PublisherConfig, o: Oracle) {
    cfg.maxRetries >= 1 && Quiet(cfg, o) && UpToDate(o)
  }

  /** There is such a world, at any time: nobody moves, and the index shows the live rows. */
  lemma CalmWorldExists(cfg: PublisherConfig, now: real) returns (o: Oracle)
    requires cfg.maxRetries >= 1 && cfg.skew >= 0.0 && HasTopic(cfg)
    ensures WorldOk(cfg, o) && Calm(cfg, o) && forall i: nat :: o.local(i) == now
  {
    o := Oracle((i: nat) => [], (i: nat) => Heard, (i: nat) => now, (i: nat) => now, (i: nat) => "",
                (sh: Shared, i: nat) => LiveIndex(sh.rows),
                (i: nat) => Pager((key: string, start: nat) => 1, (key: string, start: nat) => false));
    forall sh, i: nat | Imaged(sh) ensures Agrees(o.view(sh, i), sh.rows) && Remembers(o.view(sh, i), sh.images) {
      LiveIndexAgrees(sh.rows);
    }
  }

  ghost predicate Within(items: seq<OutboxRow>, id: OutputId) {
    exists x | x in items :: x.id == id
  }

  lemma NotYet(items: seq<OutboxRow>, i: nat)
    requires DistinctIds(items) && i < |items|
    ensures items[i] in items && !Within(items[..i], items[i].id)
  {
  }

  lemma WithinMore(items: seq<OutboxRow>, i: nat)
    requires i < |items|
    ensures forall id :: Within(items[..i + 1], id) <==> Within(items[..i], id) || id == items[i].id
  {
    assert items[..i + 1] == items[..i] + [items[i]];
    assert items[i] in items[..i + 1];
  }

  /** The item a calm sweep comes to can still be claimed. */
  lemma StillReady(cfg: PublisherConfig, before: Rows, rows: Rows, o: Oracle, base: nat, items: seq<OutboxRow>,
                   i: nat, done: set<OutputId>)
    requires Ready(cfg, before, o, base, items) && DistinctIds(items) && i < |items|
    requires JustPublished(before, rows, done) && forall id | id in done :: Within(items[..i], id)
    ensures items[i].id in before && items[i].id in rows
    ensures Claimable(cfg, rows[items[i].id], o.local(base + 4 * i).Floor)
    ensures items[i].id !in done
  {
    NotYet(items, i);
    assert ReadyAt(cfg, before, o, items[i], base + 4 * i);
  }

  lemma SweptCalmly(cfg: PublisherConfig, before: Rows, o: Oracle, base: nat, items: seq<OutboxRow>,
                    after: Rows, done: set<OutputId>, report: Report)
    requires Fit(cfg, before, o, base, items)
    requires report.failed == 0 && report.total == |items| && report.succeeded == report.total && |done| == |items|
    requires JustPublished(before, after, done)
    requires forall id | id in done :: Within(items, id)
    ensures Swept(cfg, before, after, done, o.local(base).Floor, report)
  {
    forall id | id in done ensures Open(cfg, before[id]) {
      var x :| x in items && x.id == id;
      assert ReadyAt(cfg, before, o, x, base + 3);
    }
  }

  /** After `i` items: each success is a row of its own, and published. */
  ghost predicate Counted(sh: Shared, items: seq<OutboxRow>, i: nat, done: set<OutputId>, succeeded: nat, failed: nat) {
    && i <= |items| && DistinctIds(items) && (forall r | r in items :: r in sh.images)
    && succeeded + failed <= i && succeeded == |done|
    && (forall id | id in done :: LivePublished(sh, id) && Within(items[..i], id))
  }

  lemma CountOne(sh: Shared, sh': Shared, items: seq<OutboxRow>, i: nat, done: set<OutputId>,
                 succeeded: nat, failed: nat, result: EventResult)
    requires Counted(sh, items, i, done, succeeded, failed) && i < |items| && Kept(sh, sh')
    requires result != EventError ==> LivePublished(sh', items[i].id)
    ensures Counted(sh', items, i + 1, if result == EventPublished then done + {items[i].id} else done,
                    if result == EventPublished then succeeded + 1 else succeeded,
                    if result == EventError then failed + 1 else failed)
  {
    NotYet(items, i);
    WithinMore(items, i);
  }

  lemma PublishOneMore(before: Rows, rows: Rows, after: Rows, done: set<OutputId>, id: OutputId)
    requires JustPublished(before, rows, done) && OnlyPublished(rows, after, id) && id in before
    ensures JustPublished(before, after, done + {id})
  {
  }

  ghost predicate ReadyAt(cfg: PublisherConfig, rows: Rows, o: Oracle, r: OutboxRow, i: nat) {
    r.id in rows && rows[r.id] == r && Claimable(cfg, r, o.local(i).Floor)
  }

  /** What a calm sweep scans can be claimed at any call from then on. */
  ghost predicate Ready(cfg: PublisherConfig, rows: Rows, o: Oracle, base: nat, items: seq<OutboxRow>) {
    forall r, i: nat | r in items && base <= i :: ReadyAt(cfg, rows, o, r, i)
  }

  /** The items are what a sweep scans, call by call, from call number `base` on. */
  ghost predicate IsScan(cfg: PublisherConfig, sh: Shared, o: Oracle, base: nat, items: seq<OutboxRow>) {
    items == Unique(Scanned(cfg, Reading(o.view(sh, base), o.local(base).Floor),
                            Reading(o.view(sh, base + 1), o.local(base + 1).Floor),
                            Reading(o.view(sh, base + 2), o.local(base + 2).Floor)))
  }

  /** A scan of live rows that can be claimed, and of some while there are any. */
  ghost predicate Fit(cfg: PublisherConfig, rows: Rows, o: Oracle, base: nat, items: seq<OutboxRow>) {
    && Ready(cfg, rows, o, base + 3, items)
    && (items == [] ==> forall id | id in rows :: !Claimable(cfg, rows[id], o.local(base).Floor))
  }

  lemma CalmScan(cfg: PublisherConfig, steps: seq<Step>, o: Oracle, base: nat, items: seq<OutboxRow>)
    requires Calm(cfg, o) && Run(cfg, EMPTY, steps).Some?
    requires IsScan(cfg, Run(cfg, EMPTY, steps).value.sh, o, base, items)
    ensures Fit(cfg, Run(cfg, EMPTY, steps).value.sh.rows, o, base, items)
  {
    RunKeepsInv(cfg, steps);
    var sh := Run(cfg, EMPTY, steps).value.sh;
    SweepFinds(cfg, sh, Reading(o.view(sh, base), o.local(base).Floor),
               Reading(o.view(sh, base + 1), o.local(base + 1).Floor),
               Reading(o.view(sh, base + 2), o.local(base + 2).Floor), o.local(base).Floor, o.local(base + 2).Floor);
    forall id | id in sh.rows
      ensures Eligible(cfg, sh.rows[id], o.local(base).Floor) <==> Claimable(cfg, sh.rows[id], o.local(base).Floor)
    {
      ScanAgreesWithClaim(cfg, steps, id, o.local(base).Floor);
    }
  }

  /** A stream record: the kind of change and the new image, if the record has one. */
  datatype StreamRecord = StreamRecord(name: string, image: Option<OutboxRow>)

  ghost predicate OnlyPublished(before: Rows, after: Rows, id: OutputId) {
    id in after && after[id].status == Published && after == before[id := after[id]]
  }

  lemma ImageIsCanonical(cfg: PublisherConfig, steps: seq<Step>, image: OutboxRow)
    requires Run(cfg, EMPTY, steps).Some? && image in Run(cfg, EMPTY, steps).value.sh.images
    ensures image.payload.id == image.id && image.kind == KindOf(image.payload)
            && image.id in Run(cfg, EMPTY, steps).value.sh.rows
  {
    RunKeepsInv(cfg, steps);
    var sh := Run(cfg, EMPTY, steps).value.sh;
    assert RowOk(cfg, sh.log, image.id, sh.rows[image.id]);
    var j :| 0 <= j < |sh.log| && sh.log[j] == Inserted(image.id, image.payload);
    assert EntryOk(cfg, sh.log[..j], sh.log[j]);
  }

  lemma WorkerImageIsCanonical(cfg: PublisherConfig, steps: seq<Step>, w: nat)
    requires Run(cfg, EMPTY, steps).Some? && w in Run(cfg, EMPTY, steps).value.workers
    ensures var image := Run(cfg, EMPTY, steps).value.workers[w].image;
            image.payload.id == image.id && image.kind == KindOf(image.payload)
            && image.id in Run(cfg, EMPTY, steps).value.sh.rows
  {
    RunKeepsInv(cfg, steps);
    var sys := Run(cfg, EMPTY, steps).value;
    assert WorkerOk(sys.sh, sys.workers[w]);
    ImageIsCanonical(cfg, steps, sys.workers[w].image);
  }

  /** What a longer run still has. */
  ghost predicate Kept(early: Shared, late: Shared) {
    && early.images <= late.images
    && forall id | LivePublished(early, id) :: LivePublished(late, id)
  }

  lemma {:induction false} RunKeeps(cfg: PublisherConfig, steps: seq<Step>, n: nat)
    requires n <= |steps| && Run(cfg, EMPTY, steps).Some?
    ensures Run(cfg, EMPTY, steps[..n]).Some?
    ensures Kept(Run(cfg, EMPTY, steps[..n]).value.sh, Run(cfg, EMPTY, steps).value.sh)
  {
    if n == |steps| {
      assert steps[..n] == steps;
    } else {
      var m := |steps| - 1;
      assert steps[..m][..n] == steps[..n];
      RunKeeps(cfg, steps[..m], n);
      RunKeepsInv(cfg, steps[..m]);
      StepKeepsInv(cfg, Run(cfg, EMPTY, steps[..m]).value, steps[m]);
    }
  }

  datatype ClaimReply = Token(token: Token) | AlreadyPublished | ClaimError

  /** What becomes of one event: published, found published, or an error was raised. */
  datatype EventResult = EventPublished | EventSkipped(reason: string) | EventError

  class Publisher {
    const cfg: PublisherConfig
    var sys: System
    ghost var trace: seq<Step>

    ghost predicate Valid()
      reads this
    {
      Run(cfg, EMPTY, trace) == Some(sys)
    }

    constructor (cfg: PublisherConfig)
      ensures Valid() && this.cfg == cfg && sys == EMPTY
    {
      this.cfg := cfg;
      sys := EMPTY;
      trace := [];
    }

    method Perform(step: Step)
      requires Valid() && StepOf(cfg, sys, step).Some?
      modifies this
      ensures Valid() && trace == old(trace) + [step] && Some(sys) == StepOf(cfg, old(sys), step)
    {
      assert (trace + [step])[..|trace|] == trace;
      sys := StepOf(cfg, sys, step).value;
      trace := trace + [step];
    }

    /** Other workers move: those of `steps` that can be taken and are not by `w`. */
    method Interfere(w: nat, steps: seq<Step>)
      requires Valid()
      modifies this
      ensures Valid() && old(trace) <= trace
      ensures w in sys.workers <==> w in old(sys.workers)
      ensures w in sys.workers ==> sys.workers[w] == old(sys.workers[w])
      ensures steps == [] ==> sys == old(sys)
    {
      for i := 0 to |steps|
        invariant Valid() && old(trace) <= trace
        invariant w in sys.workers <==> w in old(sys.workers)
        invariant w in sys.workers ==> sys.workers[w] == old(sys.workers[w])
        invariant i == 0 ==> sys == old(sys)
      {
        var step := steps[i];
        if !step.InsertRow? && step.w == w {
          // The worker's own steps are taken by its program.
        } else if StepOf(cfg, sys, step).Some? {
          Perform(step);
        }
      }
    }

    /** Acquire a lease: a token, "already published", or an error. */
    method ClaimEventForPublish(w: nat, token: Token, at: real, local: real, fate: Fate) returns (reply: ClaimReply)
      requires Valid() && w in sys.workers && sys.workers[w].pc == Starting
      requires token !in sys.sh.tokens && at - cfg.skew <= local <= at + cfg.skew
      modifies this
      ensures Valid() && old(trace) <= trace
      ensures w in sys.workers && sys.workers[w].image == old(sys.workers[w].image)
      ensures sys.workers[w].pc == (match reply
                                    case Token(t) => Claimed(t)
                                    case AlreadyPublished => Ended(SkippedPublished)
                                    case ClaimError => Ended(Raised))
      ensures var image := old(sys.workers[w].image);
              var can := image.id in old(sys.sh.rows) && Claimable(cfg, old(sys.sh.rows)[image.id], local.Floor);
              && reply == (if fate == Heard && can then Token(token)
                           else if fate == Heard && LivePublished(old(sys.sh), image.id) then AlreadyPublished
                           else ClaimError)
              && sys.sh == if can && fate != Refused
                           then Apply(cfg, old(sys.sh), Grant(image.id, image.shard, token, at, local)) else old(sys.sh)
      ensures var id, shard := old(sys.workers[w].image.id), old(sys.workers[w].image.shard);
              fate != Refused && id in old(sys.sh.rows) && Claimable(cfg, old(sys.sh.rows)[id], local.Floor) ==>
                sys.sh.rows == old(sys.sh.rows)[id := old(sys.sh.rows)[id].(
                                 status := Publishing, token := Some(token),
                                     expires := Some(local.Floor + cfg.claimTtl),
                                 index := "STATUS#PUBLISHING#" + shard)]
    {
      IndexKeyText(Publishing, sys.workers[w].image.shard);
      var image := sys.workers[w].image;
      var holds := Written(cfg, sys.sh, Grant(image.id, image.shard, token, at, local)).Some?;
      if fate == Refused || (fate == Lost && !holds) {
        Perform(Work(w, ClaimRow(token, at, local, Refused)));
        return ClaimError;
      }
      var live := LivePublished(sys.sh, image.id);
      Perform(Work(w, ClaimRow(token, at, local, fate)));
      if fate == Lost {
        reply := ClaimError;
      } else if holds {
        reply := Token(token);
      } else if live {
        reply := AlreadyPublished;
      } else {
        reply := ClaimError;
      }
    }

    /** Send the canonical payload; false when an error is raised, sent or not. */
    method PublishToSns(w: nat, fate: Fate) returns (ok: bool)
      requires Valid() && w in sys.workers && sys.workers[w].pc.Claimed?
      modifies this
      ensures Valid() && old(trace) <= trace
      ensures w in sys.workers && sys.workers[w].image == old(sys.workers[w].image)
      ensures var t := old(sys.workers[w].pc.token); sys.workers[w].pc == if ok then Delivered(t) else Failing(t)
      ensures var wk := old(sys.workers[w]);
              var valid := Sendable(cfg, wk.image);
              && ok == (fate == Heard && valid)
              && sys.sh == if valid && fate != Refused
                           then Apply(cfg, old(sys.sh), Send(wk.image.id, wk.pc.token, wk.image.payload,
                               TopicOf(cfg, wk.image.kind)))
                           else old(sys.sh)
      ensures var wk := old(sys.workers[w]);
              && (ok ==> fate == Heard && wk.image.payload.id == wk.image.id
                         && wk.image.kind == if wk.image.payload.body.Analysis? then AnalysisCompleted
                                             else ProcessingFailed)
              && (ok ==> sys.sh.log == old(sys.sh.log)
                           + [Sent(wk.image.id, wk.pc.token, wk.image.payload,
                                   if cfg.processingTopic != "" then cfg.processingTopic else cfg.topic)])
    {
      var image := sys.workers[w].image;
      var valid := Sendable(cfg, image);
      if fate == Lost && !valid {
        Perform(Work(w, SendMessage(Refused)));
        return false;
      }
      Perform(Work(w, SendMessage(fate)));
      ok := fate == Heard && valid;
    }

    /** Commit publication; false when an error is raised. */
    method MarkEventPublished(w: nat, now: int, fate: Fate) returns (ok: bool)
      requires Valid() && w in sys.workers && sys.workers[w].pc.Delivered?
      modifies this
      ensures Valid() && old(trace) <= trace
      ensures w in sys.workers && sys.workers[w].image == old(sys.workers[w].image)
      ensures var t := old(sys.workers[w].pc.token);
              sys.workers[w].pc == if ok then Ended(ReportedPublished) else Failing(t)
      ensures var wk := old(sys.workers[w]);
              var held := wk.image.id in old(sys.sh.rows) && HeldBy(old(sys.sh.rows)[wk.image.id], wk.pc.token);
              && ok == (fate == Heard && (held || LivePublished(old(sys.sh), wk.image.id)))
              && sys.sh == if held && fate != Refused
                           then Apply(cfg, old(sys.sh), Publish(wk.image.id, wk.image.shard, wk.pc.token, now))
                           else old(sys.sh)
      ensures var wk := old(sys.workers[w]);
              ok && !LivePublished(old(sys.sh), wk.image.id) ==>
                && wk.image.id in old(sys.sh.rows)
                && sys.sh.rows == old(sys.sh.rows)[wk.image.id := old(sys.sh.rows)[wk.image.id].(
                                    status := Published, token := None, expires := None,
                                    index := "STATUS#PUBLISHED#" + wk.image.shard, ttl := Some(now + cfg.retention))]
    {
      IndexKeyText(Published, sys.workers[w].image.shard);
      var wk := sys.workers[w];
      var holds := Written(cfg, sys.sh, Publish(wk.image.id, wk.image.shard, wk.pc.token, now)).Some?;
      var live := LivePublished(sys.sh, wk.image.id);
      if fate == Lost && !holds {
        Perform(Work(w, MarkPublished(now, Refused)));
        return false;
      }
      Perform(Work(w, MarkPublished(now, fate)));
      ok := fate == Heard && (holds || live);
    }

    /** Record a failure; whatever becomes of it, the original error is raised. */
    method MarkEventFailed(w: nat, error: string, fate: Fate)
      requires Valid() && w in sys.workers && sys.workers[w].pc.Failing?
      modifies this
      ensures Valid() && old(trace) <= trace
      ensures w in sys.workers && sys.workers[w].pc == Ended(Raised)
              && sys.workers[w].image == old(sys.workers[w].image)
      ensures var wk := old(sys.workers[w]);
              var held := wk.image.id in old(sys.sh.rows) && HeldBy(old(sys.sh.rows)[wk.image.id], wk.pc.token);
              sys.sh == if held && fate != Refused
                        then Apply(cfg, old(sys.sh), Fail(wk.image.id, wk.image.shard, wk.pc.token, error))
                        else old(sys.sh)
      ensures var wk := old(sys.workers[w]);
              fate != Refused && wk.image.id in old(sys.sh.rows)
              && HeldBy(old(sys.sh.rows)[wk.image.id], wk.pc.token) ==>
                var r := old(sys.sh.rows)[wk.image.id];
                sys.sh.rows == old(sys.sh.rows)[wk.image.id := r.(
                                 status := Failed, token := None, expires := None,
                                 retries := Some(r.retries.GetOr(0) + 1), index := "STATUS#FAILED#" + wk.image.shard,
                                 lastError := Some(error[..if |error| < 2000 then |error| else 2000]))]
    {
      IndexKeyText(OutboxStatus.Failed, sys.workers[w].image.shard);
      assert error[..|error|] == error;
      Perform(Work(w, MarkFailed(error, fate)));
    }

    /** A token nobody was given before. */
    method FreshToken() returns (token: Token)
      ensures token !in sys.sh.tokens
    {
      token := Above(sys.sh.tokens);
    }

    /** Send and commit under a lease; false when an error is raised. */
    method SendAndCommit(w: nat, o: Oracle, base: nat) returns (published: bool)
      requires Valid() && w in sys.workers && sys.workers[w].pc.Claimed?
      modifies this
      ensures Valid() && old(trace) <= trace && w in sys.workers
      ensures !published ==> sys.workers[w].pc.Failing?
      ensures published ==> LivePublished(sys.sh, old(sys.workers[w].image.id))
      ensures var wk := old(sys.workers[w]);
              Quiet(cfg, o) && Sendable(cfg, wk.image) && wk.image.id in old(sys.sh.rows)
              && HeldBy(old(sys.sh.rows)[wk.image.id], wk.pc.token) ==>
                published && OnlyPublished(old(sys.sh.rows), sys.sh.rows, wk.image.id)
    {
      Interfere(w, o.others(base));
      published := PublishToSns(w, o.fate(base));
      if published {
        Interfere(w, o.others(base + 1));
        published := MarkEventPublished(w, o.local(base + 1).Floor, o.fate(base + 1));
        if published {
          ReportsAreTrue(cfg, trace, w);
        }
      }
    }

    /** Send and commit under a lease; on an error record the failure.  If nobody else
        moves and the lease is the row's, the row ends up PUBLISHED. */
    method PublishClaimed(w: nat, o: Oracle, base: nat) returns (published: bool)
      requires Valid() && w in sys.workers && sys.workers[w].pc.Claimed?
      modifies this
      ensures Valid() && old(trace) <= trace
      ensures published ==> LivePublished(sys.sh, old(sys.workers[w].image.id))
      ensures var wk := old(sys.workers[w]);
              Quiet(cfg, o) && Sendable(cfg, wk.image) && wk.image.id in old(sys.sh.rows)
              && HeldBy(old(sys.sh.rows)[wk.image.id], wk.pc.token) ==>
                published && OnlyPublished(old(sys.sh.rows), sys.sh.rows, wk.image.id)
    {
      published := SendAndCommit(w, o, base);
      if !published {
        Interfere(w, o.others(base + 2));
        MarkEventFailed(w, o.error(base + 2), o.fate(base + 2));
      }
    }

    /**
     Claim, send, commit; and on an error after the claim, record the failure.  Other
     workers move before every call.  The result is the truth about the row, and when
     nobody else moves and every call is heard, a claimable row ends up PUBLISHED and
     no other row changes.
     */
    method PublishOne(w: nat, o: Oracle, base: nat) returns (result: EventResult)
      requires Valid() && WorldOk(cfg, o) && w in sys.workers && sys.workers[w].pc == Starting
      modifies this
      ensures Valid() && old(trace) <= trace
      ensures result == EventPublished || result == EventSkipped("already_published") || result == EventError
      ensures result != EventError ==> LivePublished(sys.sh, old(sys.workers[w].image.id))
      ensures var id := old(sys.workers[w].image.id);
              Quiet(cfg, o) && id in old(sys.sh.rows) && Claimable(cfg, old(sys.sh.rows)[id], o.local(base).Floor) ==>
                result == EventPublished && OnlyPublished(old(sys.sh.rows), sys.sh.rows, id)
    {
      WorkerImageIsCanonical(cfg, trace, w);
      Interfere(w, o.others(base));
      var token := FreshToken();
      var reply := ClaimEventForPublish(w, token, o.at(base), o.local(base), o.fate(base));
      if reply == AlreadyPublished {
        ReportsAreTrue(cfg, trace, w);
        return EventSkipped("already_published");
      }
      if reply == ClaimError {
        return EventError;
      }
      var published := PublishClaimed(w, o, base + 1);
      result := if published then EventPublished else EventError;
    }

    /** Someone starts on an image: a worker nobody has been yet. */
    method Start(image: OutboxRow) returns (w: nat)
      requires Valid() && image in sys.sh.images
      modifies this
      ensures Valid() && old(trace) <= trace && sys.sh == old(sys.sh)
      ensures w in sys.workers && sys.workers[w] == Worker(image, Starting)
    {
      w := Above(sys.workers.Keys);
      Perform(Begin(w, image));
    }

    /** Handle one stream record.  Only an insert of a PENDING image leads to any call. */
    method RecordHandler(record: StreamRecord, o: Oracle, base: nat) returns (result: EventResult)
      requires Valid() && WorldOk(cfg, o)
      requires record.image.Some? ==> record.image.value in sys.sh.images
      modifies this
      ensures Valid() && old(trace) <= trace
      ensures result == EventSkipped("not_insert") <==> record.name != "INSERT"
      ensures result == EventSkipped("not_pending") <==>
                record.name == "INSERT" && record.image.Some? && record.image.value.status != Pending
      ensures record.name == "INSERT" && record.image.None? ==> result == EventError
      ensures record.name != "INSERT" || record.image.None? || record.image.value.status != Pending ==> sys == old(sys)
      ensures result == EventPublished || result == EventSkipped("already_published") ==>
                record.image.Some? && LivePublished(sys.sh, record.image.value.id)
      ensures Quiet(cfg, o) && record.name == "INSERT" && record.image.Some? && record.image.value.status == Pending
              && record.image.value.id in old(sys.sh.rows)
              && Claimable(cfg, old(sys.sh.rows)[record.image.value.id], o.local(base).Floor) ==>
                result == EventPublished && OnlyPublished(old(sys.sh.rows), sys.sh.rows, record.image.value.id)
    {
      if record.name != "INSERT" {
        return EventSkipped("not_insert");
      }
      if record.image.None? {
        return EventError;
      }
      if record.image.value.status != Pending {
        return EventSkipped("not_pending");
      }
      var w := Start(record.image.value);
      result := PublishOne(w, o, base);
    }

    /** Scan the three retryable statuses, one item per key. */
    method ScanRetryable(o: Oracle, base: nat) returns (items: seq<OutboxRow>)
      requires Valid() && WorldOk(cfg, o)
      ensures IsScan(cfg, sys.sh, o, base, items)
      ensures DistinctIds(items) && forall r | r in items :: r in sys.sh.images
    {
      RunKeepsInv(cfg, trace);
      var i0, n0 := o.view(sys.sh, base), o.local(base).Floor;
      var i1, n1 := o.view(sys.sh, base + 1), o.local(base + 1).Floor;
      var i2, n2 := o.view(sys.sh, base + 2), o.local(base + 2).Floor;
      var pending := QueryRetryable(cfg, i0, Pending, LIMIT, n0, o.pager(base));
      var failed := QueryRetryable(cfg, i1, Failed, LIMIT, n1, o.pager(base + 1));
      var publishing := QueryRetryable(cfg, i2, Publishing, LIMIT, n2, o.pager(base + 2));
      items := Unique(pending + failed + publishing);
      ScannedRemembered(cfg, Reading(i0, n0), Reading(i1, n1), Reading(i2, n2), sys.sh.images);
      UniqueWithin(pending + failed + publishing);
    }

    /** One item of a sweep, by a worker of its own. */
    method RetryItem(image: OutboxRow, o: Oracle, base: nat) returns (result: EventResult)
      requires Valid() && WorldOk(cfg, o) && image in sys.sh.images
      modifies this
      ensures Valid() && old(trace) <= trace && Kept(old(sys.sh), sys.sh)
      ensures result == EventPublished || result == EventSkipped("already_published") || result == EventError
      ensures result != EventError ==> LivePublished(sys.sh, image.id)
      ensures Quiet(cfg, o) && image.id in old(sys.sh.rows)
              && Claimable(cfg, old(sys.sh.rows)[image.id], o.local(base).Floor) ==>
                result == EventPublished && OnlyPublished(old(sys.sh.rows), sys.sh.rows, image.id)
    {
      var w := Start(image);
      result := PublishOne(w, o, base);
      assert trace[..|old(trace)|] == old(trace);
      RunKeeps(cfg, trace, |old(trace)|);
    }

    /** The loop of a sweep over the items it scanned. */
    method RetryItems(items: seq<OutboxRow>, o: Oracle, base: nat)
      returns (succeeded: nat, failed: nat, next: nat, ghost done: set<OutputId>)
      requires Valid() && WorldOk(cfg, o) && DistinctIds(items) && forall r | r in items :: r in sys.sh.images
      modifies this
      ensures Valid() && old(trace) <= trace && base <= next
      ensures succeeded + failed <= |items|
      ensures succeeded == |done| && forall id | id in done :: LivePublished(sys.sh, id) && Within(items, id)
      ensures Quiet(cfg, o) && Ready(cfg, old(sys.sh.rows), o, base, items) ==>
                succeeded == |items| && JustPublished(old(sys.sh.rows), sys.sh.rows, done)
    {
      ghost var before, calm := sys.sh.rows, Quiet(cfg, o) && Ready(cfg, sys.sh.rows, o, base, items);
      succeeded, failed, next, done := 0, 0, base, {};
      for i := 0 to |items|
        invariant Valid() && old(trace) <= trace && next == base + 4 * i
        invariant Counted(sys.sh, items, i, done, succeeded, failed)
        invariant calm ==> succeeded == i && JustPublished(before, sys.sh.rows, done)
      {
        ghost var sh := sys.sh;
        if calm {
          StillReady(cfg, before, sh.rows, o, base, items, i, done);
        }
        var result := RetryItem(items[i], o, next);
        next := next + 4;
        CountOne(sh, sys.sh, items, i, done, succeeded, failed, result);
        if result == EventPublished {
          if calm {
            PublishOneMore(before, sh.rows, sys.sh.rows, done, items[i].id);
          }
          succeeded := succeeded + 1;
          done := done + {items[i].id};
        } else if result == EventError {
          failed := failed + 1;
        }
      }
      assert items[..|items|] == items;
    }

    /**
     One sweep.  Whatever others do meanwhile, the rows it counts as succeeded are
     PUBLISHED, each counted once.  If nobody else moves and the indexes are up to date,
     everything scanned is published and nothing else changes; and something is scanned
     as long as any row could be claimed when the sweep started.
     */
    method RetryPendingEvents(o: Oracle, base: nat) returns (report: Report, next: nat, ghost done: set<OutputId>)
      requires Valid() && WorldOk(cfg, o)
      modifies this
      ensures Valid() && old(trace) <= trace && base <= next
      ensures report.succeeded + report.failed <= report.total
      ensures report.succeeded == |done| && forall id | id in done :: LivePublished(sys.sh, id)
      ensures Calm(cfg, o) ==> Swept(cfg, old(sys.sh.rows), sys.sh.rows, done, o.local(base).Floor, report)
    {
      var items := ScanRetryable(o, base);
      ghost var before, calm := sys.sh.rows, Calm(cfg, o);
      if calm {
        CalmScan(cfg, trace, o, base, items);
      }
      var succeeded, failed;
      succeeded, failed, next, done := RetryItems(items, o, base + 3);
      report := Report(succeeded, failed, |items|);
      if calm {
        SweptCalmly(cfg, before, o, base, items, sys.sh.rows, done, report);
      }
    }

    /**
     The scheduled sweeps, one after the other.  If nobody else moves and the indexes are
     up to date, as many sweeps as there are open rows leave none that could have been
     claimed when the first began; and if no lease was still running then, every row is
     PUBLISHED, or had failed as often as is allowed before.
     */
    method RetryCycles(o: Oracle, base: nat, cycles: nat) returns (next: nat)
      requires Valid() && WorldOk(cfg, o)
      modifies this
      ensures Valid() && old(trace) <= trace && base <= next
      ensures Calm(cfg, o) && cycles >= |OpenRows(cfg, old(sys.sh.rows))| ==>
                Drained(cfg, sys.sh.rows, o.local(base).Floor)
      ensures Calm(cfg, o) && cycles >= |OpenRows(cfg, old(sys.sh.rows))|
              && AllExpired(old(sys.sh.rows), o.local(base).Floor) ==>
                forall id | id in sys.sh.rows :: Final(cfg, sys.sh.rows[id])
    {
      next := base;
      ghost var before, since := sys.sh.rows, o.local(base).Floor;
      for i := 0 to cycles
        invariant Valid() && old(trace) <= trace && base <= next
        invariant Calm(cfg, o) ==> Draining(cfg, before, sys.sh.rows, since, i)
      {
        ghost var rows, start := sys.sh.rows, next;
        var report;
        ghost var done;
        report, next, done := RetryPendingEvents(o, next);
        if Calm(cfg, o) {
          NotBefore(o.local(base), o.local(start));
          DrainOnce(cfg, before, rows, sys.sh.rows, Sweep(done, o.local(start).Floor, report), since, i);
        }
      }
      if Calm(cfg, o) && cycles >= |OpenRows(cfg, before)| {
        DrainingEnds(cfg, before, sys.sh.rows, since, cycles);
        if AllExpired(before, since) {
          DrainedIsFinal(cfg, trace, before, since);
        }
      }
    }
  }
}
