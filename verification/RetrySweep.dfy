/**
 What one sweep takes on: the rows of three scans, one per key.  In a reachable state
 the scans look for exactly the rows a claim would be granted for, so a sweep that
 nobody disturbs gets every row it scanned, and it scans something while anything is left.
 */
module RetrySweep {
  import opened Options
  import opened Domain
  import opened OutboxRows
  import opened PublisherRuns
  import opened PublisherInvariant
  import opened PublisherTheorems
  import opened RetryScan

  const LIMIT := 100

  type Rows = map<OutputId, OutboxRow>

  /** The index lists the live rows under their keys, in order of creation. */
  ghost predicate Agrees(index: Index, rows: Rows) {
    forall key ::
      InOrder(index(key)) && forall r :: r in index(key) <==> r.id in rows && rows[r.id] == r && r.index == key
  }

  /** The index lists only values rows once had, however old. */
  ghost predicate Remembers(index: Index, images: set<OutboxRow>) {
    forall key, r | r in index(key) :: r in images
  }

  /** Some scan of a sweep at `now` looks for the row. */
  predicate Eligible(cfg: PublisherConfig, r: OutboxRow, now: int) {
    r.status != Published && Passes(cfg, r.status, now, r)
  }

  /** Not published, and not failed for good. */
  predicate Open(cfg: PublisherConfig, r: OutboxRow) {
    r.status != Published && (r.retries.None? || r.retries.value < cfg.maxRetries)
  }

  ghost function OpenRows(cfg: PublisherConfig, rows: Rows): set<OutputId> {
    set id | id in rows && Open(cfg, rows[id])
  }

  /** Scan and claim agree: in a reachable state a sweep looks for a row exactly when a
      claim of it would be granted at that time, PENDING rows included. */
  lemma {:induction false} ScanAgreesWithClaim(cfg: PublisherConfig, steps: seq<Step>, id: OutputId, now: int)
    requires cfg.maxRetries >= 1
    requires Run(cfg, EMPTY, steps).Some? && id in Run(cfg, EMPTY, steps).value.sh.rows
    ensures var r := Run(cfg, EMPTY, steps).value.sh.rows[id];
            Eligible(cfg, r, now) <==> Claimable(cfg, r, now)
  {
    RunKeepsInv(cfg, steps);
    EligibleIsClaimable(cfg, Run(cfg, EMPTY, steps).value.sh, id, now);
  }

  lemma EligibleIsClaimable(cfg: PublisherConfig, sh: Shared, id: OutputId, now: int)
    requires cfg.maxRetries >= 1 && RowsOk(cfg, sh) && id in sh.rows
    ensures Eligible(cfg, sh.rows[id], now) <==> Claimable(cfg, sh.rows[id], now)
  {
    assert RowOk(cfg, sh.log, id, sh.rows[id]);
  }

  /** Under an up-to-date index the 16 shard queries of a status partition the rows of that
      status: a row is under one of them exactly when it has the status, and never under two. */
  lemma ShardsPartitionStatus(cfg: PublisherConfig, steps: seq<Step>, index: Index, status: OutboxStatus, id: OutputId)
    requires Run(cfg, EMPTY, steps).Some? && id in Run(cfg, EMPTY, steps).value.sh.rows
    requires Agrees(index, Run(cfg, EMPTY, steps).value.sh.rows)
    ensures var r := Run(cfg, EMPTY, steps).value.sh.rows[id];
            && (r.status == status <==> exists n: nat :: n < SHARDS && r in index(IndexKey(status, TwoHex(n))))
            && forall m: nat, n: nat | m < SHARDS && n < SHARDS
                 && r in index(IndexKey(status, TwoHex(m))) && r in index(IndexKey(status, TwoHex(n))) :: m == n
  {
    RunKeepsInv(cfg, steps);
    ShardsPartition(cfg, Run(cfg, EMPTY, steps).value.sh, index, status, id);
  }

  lemma ShardsPartition(cfg: PublisherConfig, sh: Shared, index: Index, status: OutboxStatus, id: OutputId)
    requires RowsOk(cfg, sh) && id in sh.rows && Agrees(index, sh.rows)
    ensures var r := sh.rows[id];
            && (r.status == status <==> exists n: nat :: n < SHARDS && r in index(IndexKey(status, TwoHex(n))))
            && forall m: nat, n: nat | m < SHARDS && n < SHARDS
                 && r in index(IndexKey(status, TwoHex(m))) && r in index(IndexKey(status, TwoHex(n))) :: m == n
  {
    var r := sh.rows[id];
    assert RowOk(cfg, sh.log, id, r);
    var own: nat := cfg.firstByte(r.payload.file) % SHARDS;
    assert r.index == IndexKey(r.status, TwoHex(own));
    forall n: nat | n < SHARDS ensures r in index(IndexKey(status, TwoHex(n))) <==> r.status == status && n == own {
      IndexKeyInjective(status, TwoHex(n), r.status, TwoHex(own));
      TwoHexInjective(n, own);
    }
  }

  // --------------------------------------------------------- one item per key

  /** Where a row with this id is, or the length. */
  function Find(items: seq<OutboxRow>, id: OutputId): (i: nat)
    ensures i <= |items| && (i < |items| ==> items[i].id == id)
    ensures forall j | 0 <= j < i :: items[j].id != id
  {
    if items == [] || items[0].id == id then 0 else 1 + Find(items[1..], id)
  }

  /** A dictionary by key: a later item replaces an earlier one in its place. */
  function Unique(items: seq<OutboxRow>): seq<OutboxRow> {
    if items == [] then []
    else
      var kept := Unique(items[..|items| - 1]);
      var x := items[|items| - 1];
      var i := Find(kept, x.id);
      if i < |kept| then kept[i := x] else kept + [x]
  }

  ghost predicate DistinctIds(items: seq<OutboxRow>) {
    forall i, j | 0 <= i < j < |items| :: items[i].id != items[j].id
  }

  /** The item was scanned, and no other was scanned under its key after it. */
  ghost predicate LastScanned(items: seq<OutboxRow>, x: OutboxRow) {
    exists i | 0 <= i < |items| :: items[i] == x && forall j | i < j < |items| :: items[j].id != x.id
  }

  /** Of every key that was scanned just one item is kept: the last one scanned under it. */
  lemma {:induction false} UniqueKeeps(items: seq<OutboxRow>)
    ensures DistinctIds(Unique(items))
    ensures forall x :: x in Unique(items) <==> LastScanned(items, x)
    ensures forall x | x in items :: exists y :: y in Unique(items) && y.id == x.id
  {
    if items != [] {
      var n := |items| - 1;
      UniqueKeeps(items[..n]);
      forall x ensures x in Unique(items) <==> LastScanned(items, x) {
        UniqueNext(items, x);
        LastScannedNext(items, x);
      }
      forall x | x in items ensures exists y :: y in Unique(items) && y.id == x.id {
        UniqueNext(items, items[n]);
        if x.id != items[n].id {
          assert x in items[..n];
          var y :| y in Unique(items[..n]) && y.id == x.id;
          UniqueNext(items, y);
        }
      }
    }
  }

  /** The next item is kept, and of those before it the ones with another key. */
  lemma UniqueNext(items: seq<OutboxRow>, y: OutboxRow)
    requires items != [] && DistinctIds(Unique(items[..|items| - 1]))
    ensures var x := items[|items| - 1];
            y in Unique(items) <==> y == x || (y in Unique(items[..|items| - 1]) && y.id != x.id)
  {
    var kept, x := Unique(items[..|items| - 1]), items[|items| - 1];
    var i := Find(kept, x.id);
    if i < |kept| {
      assert kept[i := x][i] == x;
      if y in kept && y.id != x.id {
        var j :| 0 <= j < |kept| && kept[j] == y;
        assert kept[i := x][j] == y;
      }
    }
  }

  lemma LastScannedNext(items: seq<OutboxRow>, y: OutboxRow)
    requires items != []
    ensures var x := items[|items| - 1];
            LastScanned(items, y) <==> y == x || (LastScanned(items[..|items| - 1], y) && y.id != x.id)
  {
    var n := |items| - 1;
    if LastScanned(items, y) && y != items[n] {
      var i :| 0 <= i < |items| && items[i] == y && forall j | i < j < |items| :: items[j].id != y.id;
      assert items[..n][i] == y;
    }
    if LastScanned(items[..n], y) && y.id != items[n].id {
      var i :| 0 <= i < n && items[..n][i] == y && forall j | i < j < n :: items[..n][j].id != y.id;
      assert forall j | i < j < n :: items[j] == items[..n][j];
      assert items[i] == y;
    }
  }

  lemma UniqueWithin(items: seq<OutboxRow>)
    ensures DistinctIds(Unique(items))
    ensures forall x | x in Unique(items) :: x in items
    ensures items != [] ==> Unique(items) != []
  {
    UniqueKeeps(items);
    if items != [] {
      assert items[0] in items;
      var y :| y in Unique(items) && y.id == items[0].id;
    }
  }

  // -------------------------------------------------------------- three scans

  /** The three indexes a sweep reads and the three times it reads them at. */
  datatype Reading = Reading(index: Index, now: int)

  function Scanned(cfg: PublisherConfig, pending: Reading, failed: Reading, publishing: Reading): seq<OutboxRow> {
    Retryable(cfg, pending.index, Pending, LIMIT, pending.now)
    + Retryable(cfg, failed.index, Failed, LIMIT, failed.now)
    + Retryable(cfg, publishing.index, Publishing, LIMIT, publishing.now)
  }

  ghost predicate Known(index: Index, rows: seq<OutboxRow>) {
    forall r | r in rows :: exists key :: r in index(key)
  }

  lemma ScanIsKnown(cfg: PublisherConfig, index: Index, status: OutboxStatus, now: int)
    ensures Known(index, Retryable(cfg, index, status, LIMIT, now))
  {
    forall r | r in Retryable(cfg, index, status, LIMIT, now) ensures exists key :: r in index(key) {
      ScanReturnsEligible(cfg, index, status, LIMIT, now, r);
      var n: nat :| n < SHARDS && r in index(IndexKey(status, TwoHex(n))) && Passes(cfg, status, now, r);
    }
  }

  /** A sweep works on nothing but values rows once had. */
  lemma ScannedRemembered(cfg: PublisherConfig, pending: Reading, failed: Reading, publishing: Reading,
                          images: set<OutboxRow>)
    requires Remembers(pending.index, images) && Remembers(failed.index, images) && Remembers(publishing.index, images)
    ensures forall r | r in Unique(Scanned(cfg, pending, failed, publishing)) :: r in images
  {
    ScanIsKnown(cfg, pending.index, Pending, pending.now);
    ScanIsKnown(cfg, failed.index, Failed, failed.now);
    ScanIsKnown(cfg, publishing.index, Publishing, publishing.now);
    UniqueWithin(Scanned(cfg, pending, failed, publishing));
  }

  /** An up-to-date scan returns live rows that can be claimed from then on. */
  lemma ScanIsClaimable(cfg: PublisherConfig, sh: Shared, reading: Reading, status: OutboxStatus, r: OutboxRow,
                        later: int)
    requires cfg.maxRetries >= 1 && RowsOk(cfg, sh) && Agrees(reading.index, sh.rows) && status != Published
    requires r in Retryable(cfg, reading.index, status, LIMIT, reading.now) && reading.now <= later
    ensures r.id in sh.rows && sh.rows[r.id] == r && Claimable(cfg, r, later)
  {
    ScanReturnsEligible(cfg, reading.index, status, LIMIT, reading.now, r);
    var n: nat :| n < SHARDS && r in reading.index(IndexKey(status, TwoHex(n))) && Passes(cfg, status, reading.now, r);
    assert RowOk(cfg, sh.log, r.id, r);
    IndexKeyInjective(status, TwoHex(n), r.status, r.shard);
  }

  /** One scan of a sweep reads at most 100 rows, and what it leaves out has at least seven
      rows before it that are read and no later. */
  lemma SweepScanIsFair(cfg: PublisherConfig, index: Index, status: OutboxStatus, now: int, n: nat, r: OutboxRow)
    requires n < SHARDS && OldestFirst(index(IndexKey(status, TwoHex(n))))
    requires r in index(IndexKey(status, TwoHex(n))) && Passes(cfg, status, now, r)
    ensures var read := Retryable(cfg, index, status, LIMIT, now);
            |read| <= 100 && (r !in read ==> Older(read, r.created) >= 7)
  {
    ScanIsFair(cfg, index, status, LIMIT, now, n, r);
  }

  /** An up-to-date scan of its status returns something if the row is eligible. */
  lemma ScanFinds(cfg: PublisherConfig, sh: Shared, reading: Reading, id: OutputId)
    requires RowsOk(cfg, sh) && Agrees(reading.index, sh.rows)
    requires id in sh.rows && Eligible(cfg, sh.rows[id], reading.now)
    ensures Retryable(cfg, reading.index, sh.rows[id].status, LIMIT, reading.now) != []
  {
    var r := sh.rows[id];
    assert RowOk(cfg, sh.log, id, r);
    var n: nat := cfg.firstByte(r.payload.file) % SHARDS;
    assert r.index == IndexKey(r.status, TwoHex(n));
    assert r in reading.index(IndexKey(r.status, TwoHex(n)));
    InOrderIsOldestFirst(reading.index(IndexKey(r.status, TwoHex(n))));
    ScanIsFair(cfg, reading.index, r.status, LIMIT, reading.now, n, r);
  }

  /** What a sweep of up-to-date indexes works on: live, claimable rows, one per key, and
      at least one while any row was eligible before it started. */
  lemma SweepFinds(cfg: PublisherConfig, sh: Shared, pending: Reading, failed: Reading, publishing: Reading, since: int,
                   later: int)
    requires cfg.maxRetries >= 1 && RowsOk(cfg, sh)
    requires Agrees(pending.index, sh.rows) && Agrees(failed.index, sh.rows) && Agrees(publishing.index, sh.rows)
    requires since <= pending.now <= later && since <= failed.now <= later && since <= publishing.now <= later
    ensures var items := Unique(Scanned(cfg, pending, failed, publishing));
            && DistinctIds(items)
            && (forall r | r in items :: r.id in sh.rows && sh.rows[r.id] == r && Claimable(cfg, r, later))
            && (items == [] ==> forall id | id in sh.rows :: !Eligible(cfg, sh.rows[id], since))
  {
    var all := Scanned(cfg, pending, failed, publishing);
    UniqueWithin(all);
    forall r | r in all ensures r.id in sh.rows && sh.rows[r.id] == r && Claimable(cfg, r, later) {
      if r in Retryable(cfg, pending.index, Pending, LIMIT, pending.now) {
        ScanIsClaimable(cfg, sh, pending, Pending, r, later);
      } else if r in Retryable(cfg, failed.index, Failed, LIMIT, failed.now) {
        ScanIsClaimable(cfg, sh, failed, Failed, r, later);
      } else {
        ScanIsClaimable(cfg, sh, publishing, Publishing, r, later);
      }
    }
    forall id | id in sh.rows && Eligible(cfg, sh.rows[id], since) ensures all != [] {
      match sh.rows[id].status
      case Pending => ScanFinds(cfg, sh, pending, id);
      case Failed => ScanFinds(cfg, sh, failed, id);
      case Publishing => ScanFinds(cfg, sh, publishing, id);
    }
  }

  // --------------------------------------------------------------------- drain

  datatype Report = Report(succeeded: nat, failed: nat, total: nat)

  /** The rows of `done` are published and all others are as they were. */
  ghost predicate JustPublished(before: Rows, after: Rows, done: set<OutputId>) {
    && before.Keys == after.Keys && done <= before.Keys
    && forall id | id in before :: if id in done then after[id].status == Published else after[id] == before[id]
  }

  /** What a calm sweep that began at `since` and published `done` promises. */
  ghost predicate Swept(cfg: PublisherConfig, before: Rows, after: Rows, done: set<OutputId>, since: int,
                        report: Report) {
    && report.failed == 0 && report.succeeded == report.total == |done|
    && JustPublished(before, after, done)
    && (forall id | id in done :: Open(cfg, before[id]))
    && (report.total == 0 ==> forall id | id in before :: !Claimable(cfg, before[id], since))
  }

  /** The sweeps one after the other: what each published, when it began, what it reported. */
  datatype Sweep = Sweep(done: set<OutputId>, since: int, report: Report)

  /** `tables[i]` is the table before sweep `i`, and `tables[i + 1]` the one after it. */
  ghost predicate SweptThrough(cfg: PublisherConfig, tables: seq<Rows>, sweeps: seq<Sweep>, t: int) {
    && |tables| == |sweeps| + 1
    && forall i | 0 <= i < |sweeps| ::
         t <= sweeps[i].since && Swept(cfg, tables[i], tables[i + 1], sweeps[i].done, sweeps[i].since, sweeps[i].report)
  }

  ghost predicate Drained(cfg: PublisherConfig, rows: Rows, t: int) {
    forall id | id in rows :: !Claimable(cfg, rows[id], t)
  }

  /** A calm sweep takes at least one row off the open ones, or there was nothing to claim. */
  lemma SweepReduces(cfg: PublisherConfig, before: Rows, after: Rows, sweep: Sweep, t: int)
    requires Swept(cfg, before, after, sweep.done, sweep.since, sweep.report) && t <= sweep.since
    ensures |OpenRows(cfg, after)| == |OpenRows(cfg, before)| - sweep.report.succeeded
    ensures sweep.report.succeeded == 0 ==> Drained(cfg, after, t)
    ensures Drained(cfg, before, t) ==> Drained(cfg, after, t)
  {
    assert OpenRows(cfg, after) == OpenRows(cfg, before) - sweep.done;
    assert sweep.done <= OpenRows(cfg, before);
  }

  /**
   Drain.  Calm sweeps that all begin after time `t`, as many as there are open rows at
   the start, leave no row that could have been claimed at `t`, whatever the limit of a
   sweep and however the rows are spread over the shards.
   */
  lemma {:induction false} SweepsDrain(cfg: PublisherConfig, tables: seq<Rows>, sweeps: seq<Sweep>, t: int)
    requires SweptThrough(cfg, tables, sweeps, t)
    ensures |OpenRows(cfg, tables[0])| <= |sweeps| ==> Drained(cfg, tables[|sweeps|], t)
    ensures Drained(cfg, tables[|sweeps|], t)
            || |OpenRows(cfg, tables[|sweeps|])| + |sweeps| <= |OpenRows(cfg, tables[0])|
  {
    var n := |sweeps|;
    if n > 0 {
      SweepsDrain(cfg, tables[..n], sweeps[..n - 1], t);
      SweepReduces(cfg, tables[n - 1], tables[n], sweeps[n - 1], t);
    }
    forall id | id in tables[n] && Claimable(cfg, tables[n][id], t) ensures OpenRows(cfg, tables[n]) != {} {
      assert id in OpenRows(cfg, tables[n]);
    }
  }

  /** No lease is still running. */
  predicate AllExpired(rows: Rows, t: int) {
    forall id | id in rows && rows[id].expires.Some? :: rows[id].expires.value < t
  }

  /** Rows are as they were, or published. */
  ghost predicate OnlyPublishes(before: Rows, after: Rows) {
    before.Keys == after.Keys && forall id | id in before :: after[id] == before[id] || after[id].status == Published
  }

  /** After `i` sweeps: nothing is left to claim, or each took a row off the open ones. */
  ghost predicate Draining(cfg: PublisherConfig, before: Rows, rows: Rows, t: int, i: nat) {
    && OnlyPublishes(before, rows)
    && (Drained(cfg, rows, t) || |OpenRows(cfg, rows)| + i <= |OpenRows(cfg, before)|)
  }

  lemma DrainOnce(cfg: PublisherConfig, before: Rows, rows: Rows, after: Rows, sweep: Sweep, t: int, i: nat)
    requires Draining(cfg, before, rows, t, i) && t <= sweep.since
    requires Swept(cfg, rows, after, sweep.done, sweep.since, sweep.report)
    ensures Draining(cfg, before, after, t, i + 1)
  {
    SweepReduces(cfg, rows, after, sweep, t);
  }

  lemma DrainingEnds(cfg: PublisherConfig, before: Rows, rows: Rows, t: int, i: nat)
    requires Draining(cfg, before, rows, t, i) && i >= |OpenRows(cfg, before)|
    ensures Drained(cfg, rows, t)
  {
    assert OpenRows(cfg, rows) == {} ==> forall id | id in rows :: !Open(cfg, rows[id]) by {
      assert forall id | id in rows && Open(cfg, rows[id]) :: id in OpenRows(cfg, rows);
    }
  }

  /** In a reachable state where nothing can be claimed although every lease that was there
      before has expired, every row is published or has failed for good. */
  lemma {:induction false} DrainedIsFinal(cfg: PublisherConfig, steps: seq<Step>, before: Rows, t: int)
    requires cfg.maxRetries >= 1 && Run(cfg, EMPTY, steps).Some?
    requires var rows := Run(cfg, EMPTY, steps).value.sh.rows;
             OnlyPublishes(before, rows) && AllExpired(before, t) && Drained(cfg, rows, t)
    ensures var rows := Run(cfg, EMPTY, steps).value.sh.rows; forall id | id in rows :: Final(cfg, rows[id])
  {
    RunKeepsInv(cfg, steps);
    var sh := Run(cfg, EMPTY, steps).value.sh;
    forall id | id in sh.rows ensures Final(cfg, sh.rows[id]) {
      assert RowOk(cfg, sh.log, id, sh.rows[id]);
    }
  }

  lemma NotBefore(a: real, b: real)
    requires a <= b
    ensures a.Floor <= b.Floor
  {
  }
}
