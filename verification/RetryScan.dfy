/**
 The retry scan: 16 shards of one status, each read page by page up to a share of
 the limit, then sorted by creation time and cut.  The method refines a form with no
 pages at all, and that form is fair to every shard.
 */
module RetryScan {
  import opened Options
  import opened OutboxRows

  /** The status index: the rows under each partition key, in index order. */
  type Index = string -> seq<OutboxRow>

  /** How the store cuts pages: after how many rows at most, and whether it gives a
      continuation key although the partition is exhausted. */
  datatype Pager = Pager(cut: (string, nat) -> nat, more: (string, nat) -> bool)

  datatype Page = Page(items: seq<OutboxRow>, last: Option<nat>)

  // ------------------------------------------------------------------ filtering

  /** The filter of a scan; comparisons with a missing attribute fail. */
  predicate Passes(cfg: PublisherConfig, status: OutboxStatus, now: int, r: OutboxRow) {
    match status
    case Failed => r.retries.Some? && r.retries.value < cfg.maxRetries
    case Publishing => r.expires.Some? && r.expires.value < now
    case _ => true
  }

  function Filter(cfg: PublisherConfig, status: OutboxStatus, now: int, rows: seq<OutboxRow>): (kept: seq<OutboxRow>)
    ensures |kept| <= |rows|
    ensures forall r :: r in kept <==> r in rows && Passes(cfg, status, now, r)
  {
    if rows == [] then []
    else (if Passes(cfg, status, now, rows[0]) then [rows[0]] else []) + Filter(cfg, status, now, rows[1..])
  }

  lemma {:induction false} FilterConcat(cfg: PublisherConfig, status: OutboxStatus, now: int, a: seq<OutboxRow>,
                                        b: seq<OutboxRow>)
    ensures Filter(cfg, status, now, a + b) == Filter(cfg, status, now, a) + Filter(cfg, status, now, b)
  {
    if a == [] {
      assert a + b == b;
    } else {
      assert (a + b)[1..] == a[1..] + b;
      FilterConcat(cfg, status, now, a[1..], b);
    }
  }

  /** One query: at most `limit` rows after `start` are read, and then filtered. */
  method Query(cfg: PublisherConfig, status: OutboxStatus, now: int, rows: seq<OutboxRow>,
               start: nat, limit: nat, cut: nat, more: bool) returns (page: Page)
    requires start <= |rows| && limit >= 1
    ensures page.last.Some? ==> start < page.last.value <= |rows|
    ensures page.items == Filter(cfg, status, now, rows[start..page.last.GetOr(|rows|)])
    ensures |page.items| <= limit
  {
    var most := if limit < |rows| - start then limit else |rows| - start;
    var n := if cut < 1 then 1 else cut;
    var read := if most < n then most else n;
    page := Page(Filter(cfg, status, now, rows[start..start + read]),
                 if start + read < |rows| || (read > 0 && more) then Some(start + read) else None);
  }

  // -------------------------------------------------------------------- sorting

  /** The order of strings, character by character. */
  predicate NotAfter(a: string, b: string) {
    a == [] || (b != [] && (a[0] < b[0] || (a[0] == b[0] && NotAfter(a[1..], b[1..]))))
  }

  lemma {:induction false} NotAfterTotal(a: string, b: string)
    ensures NotAfter(a, b) || NotAfter(b, a)
  {
    if a != [] && b != [] && a[0] == b[0] {
      NotAfterTotal(a[1..], b[1..]);
    }
  }

  lemma {:induction false} NotAfterTransitive(a: string, b: string, c: string)
    requires NotAfter(a, b) && NotAfter(b, c)
    ensures NotAfter(a, c)
  {
    if a != [] && b != [] && c != [] && a[0] == b[0] == c[0] {
      NotAfterTransitive(a[1..], b[1..], c[1..]);
    }
  }

  /** `a` is a prefix of `b`, or has the smaller character where they first differ. */
  ghost predicate NoLater(a: string, b: string) {
    a <= b || exists k :: DiffersAt(a, b, k) && a[k] < b[k]
  }

  predicate DiffersAt(a: string, b: string, k: int) {
    0 <= k < |a| && k < |b| && a[..k] == b[..k] && a[k] != b[k]
  }

  lemma {:induction false} NotAfterIsNoLater(a: string, b: string)
    ensures NotAfter(a, b) <==> NoLater(a, b)
  {
    if a != [] && b != [] {
      NotAfterIsNoLater(a[1..], b[1..]);
      if a[0] == b[0] {
        SameHead(a, b);
      } else {
        assert DiffersAt(a, b, 0);
        assert forall k | DiffersAt(a, b, k) :: k == 0 || a[..k][0] == b[..k][0];
      }
    }
  }

  lemma SameHead(a: string, b: string)
    requires a != [] && b != [] && a[0] == b[0]
    ensures NoLater(a, b) <==> NoLater(a[1..], b[1..])
  {
    assert a == [a[0]] + a[1..] && b == [b[0]] + b[1..];
    if k :| DiffersAt(a, b, k) && a[k] < b[k] {
      assert a[1..][..k - 1] == a[..k][1..] && b[1..][..k - 1] == b[..k][1..];
      assert DiffersAt(a[1..], b[1..], k - 1);
    }
    if k :| DiffersAt(a[1..], b[1..], k) && a[1..][k] < b[1..][k] {
      assert a[..k + 1] == [a[0]] + a[1..][..k] && b[..k + 1] == [b[0]] + b[1..][..k];
      assert DiffersAt(a, b, k + 1);
    }
  }

  /** Oldest first. */
  ghost predicate OldestFirst(rows: seq<OutboxRow>) {
    forall i, j | 0 <= i <= j < |rows| :: NoLater(rows[i].created, rows[j].created)
  }

  lemma InOrderIsOldestFirst(rows: seq<OutboxRow>)
    ensures InOrder(rows) <==> OldestFirst(rows)
  {
    forall i, j | 0 <= i <= j < |rows|
      ensures NotAfter(rows[i].created, rows[j].created) <==> NoLater(rows[i].created, rows[j].created)
    {
      NotAfterIsNoLater(rows[i].created, rows[j].created);
    }
  }

  ghost predicate InOrder(rows: seq<OutboxRow>) {
    forall i, j | 0 <= i <= j < |rows| :: NotAfter(rows[i].created, rows[j].created)
  }

  function Insert(r: OutboxRow, rows: seq<OutboxRow>): seq<OutboxRow> {
    if rows == [] || NotAfter(r.created, rows[0].created) then [r] + rows
    else [rows[0]] + Insert(r, rows[1..])
  }

  /** A stable sort by creation time. */
  function Sort(rows: seq<OutboxRow>): seq<OutboxRow> {
    if rows == [] then [] else Insert(rows[0], Sort(rows[1..]))
  }

  lemma {:induction false} NotAfterSelf(a: string)
    ensures NotAfter(a, a)
  {
    if a != [] { NotAfterSelf(a[1..]); }
  }

  lemma {:induction false} InsertElements(r: OutboxRow, rows: seq<OutboxRow>)
    ensures multiset(Insert(r, rows)) == multiset(rows) + multiset{r}
  {
    if rows == [] || NotAfter(r.created, rows[0].created) {
    } else {
      InsertElements(r, rows[1..]);
      assert rows == [rows[0]] + rows[1..];
    }
  }

  /** Nothing that is inserted or was there comes before `a`. */
  ghost predicate AllFrom(a: string, rows: seq<OutboxRow>) {
    forall j | 0 <= j < |rows| :: NotAfter(a, rows[j].created)
  }

  lemma {:induction false} InsertFrom(a: string, r: OutboxRow, rows: seq<OutboxRow>)
    requires AllFrom(a, rows) && NotAfter(a, r.created)
    ensures AllFrom(a, Insert(r, rows))
  {
    if rows != [] && !NotAfter(r.created, rows[0].created) {
      InsertFrom(a, r, rows[1..]);
    }
  }

  lemma ConsInOrder(r: OutboxRow, rows: seq<OutboxRow>)
    requires InOrder(rows) && AllFrom(r.created, rows)
    ensures InOrder([r] + rows)
  {
    NotAfterSelf(r.created);
  }

  lemma TailInOrder(rows: seq<OutboxRow>)
    requires InOrder(rows) && rows != []
    ensures InOrder(rows[1..]) && AllFrom(rows[0].created, rows[1..])
  {
  }

  lemma {:induction false} InsertInOrder(r: OutboxRow, rows: seq<OutboxRow>)
    requires InOrder(rows)
    ensures InOrder(Insert(r, rows))
  {
    if rows == [] {
      ConsInOrder(r, rows);
    } else if NotAfter(r.created, rows[0].created) {
      forall j | 0 <= j < |rows| ensures NotAfter(r.created, rows[j].created) {
        NotAfterTransitive(r.created, rows[0].created, rows[j].created);
      }
      ConsInOrder(r, rows);
    } else {
      TailInOrder(rows);
      InsertInOrder(r, rows[1..]);
      NotAfterTotal(r.created, rows[0].created);
      InsertFrom(rows[0].created, r, rows[1..]);
      ConsInOrder(rows[0], Insert(r, rows[1..]));
    }
  }

  lemma {:induction false} SortInOrder(rows: seq<OutboxRow>)
    ensures InOrder(Sort(rows)) && multiset(Sort(rows)) == multiset(rows)
  {
    if rows != [] {
      SortInOrder(rows[1..]);
      InsertInOrder(rows[0], Sort(rows[1..]));
      InsertElements(rows[0], Sort(rows[1..]));
      assert rows == [rows[0]] + rows[1..];
    }
  }

  // ---------------------------------------------------------------- the scan

  /** A slice `[:limit]`, with the meaning a negative bound has. */
  function Upto(rows: seq<OutboxRow>, limit: int): seq<OutboxRow> {
    var end := if limit < 0 then |rows| + limit else limit;
    if end < 0 then [] else if end > |rows| then rows else rows[..end]
  }

  function ShareOf(limit: int): (share: nat)
    ensures share >= 1 && share * SHARDS >= limit && (limit >= 1 ==> share <= limit && (share - 1) * SHARDS < limit)
  {
    var share := (limit + SHARDS - 1) / SHARDS;
    if share < 1 then 1 else share
  }

  function First(rows: seq<OutboxRow>, share: nat): seq<OutboxRow> {
    if |rows| <= share then rows else rows[..share]
  }

  /** What one shard contributes: the first `share` rows that pass the filter. */
  function ShardPart(cfg: PublisherConfig, index: Index, status: OutboxStatus, limit: int, now: int,
                     n: nat): seq<OutboxRow>
    requires n < SHARDS
  {
    First(Filter(cfg, status, now, index(IndexKey(status, TwoHex(n)))), ShareOf(limit))
  }

  /** The contributions of all shards, in the order they are scanned. */
  function Parts(cfg: PublisherConfig, index: Index, status: OutboxStatus, limit: int,
                 now: int): (parts: seq<seq<OutboxRow>>)
    ensures |parts| == SHARDS
    ensures forall n: nat | n < SHARDS :: parts[n] == ShardPart(cfg, index, status, limit, now, n)
  {
    seq(SHARDS, n requires 0 <= n < SHARDS => ShardPart(cfg, index, status, limit, now, n))
  }

  function Flatten(parts: seq<seq<OutboxRow>>): seq<OutboxRow> {
    if parts == [] then [] else Flatten(parts[..|parts| - 1]) + parts[|parts| - 1]
  }

  lemma FlattenNext(parts: seq<seq<OutboxRow>>, n: nat)
    requires n < |parts|
    ensures Flatten(parts[..n + 1]) == Flatten(parts[..n]) + parts[n]
  {
    assert parts[..n + 1][..n] == parts[..n];
  }

  /** The scan without pages. */
  function Retryable(cfg: PublisherConfig, index: Index, status: OutboxStatus, limit: int, now: int): seq<OutboxRow> {
    Upto(Sort(Flatten(Parts(cfg, index, status, limit, now))), limit)
  }

  lemma ResultOldestFirst(cfg: PublisherConfig, index: Index, status: OutboxStatus, limit: int, now: int)
    ensures OldestFirst(Retryable(cfg, index, status, limit, now))
  {
    SortInOrder(Flatten(Parts(cfg, index, status, limit, now)));
    InOrderIsOldestFirst(Retryable(cfg, index, status, limit, now));
  }

  /** Reading on from `a` to `b` adds what passes in between. */
  lemma ReadOn(cfg: PublisherConfig, status: OutboxStatus, now: int, rows: seq<OutboxRow>, a: nat, b: nat)
    requires a <= b <= |rows|
    ensures Filter(cfg, status, now, rows[..b])
            == Filter(cfg, status, now, rows[..a]) + Filter(cfg, status, now, rows[a..b])
  {
    FilterConcat(cfg, status, now, rows[..a], rows[a..b]);
    assert rows[..a] + rows[a..b] == rows[..b];
  }

  /** A shard is done when its share is full or its rows are all read. */
  lemma ShardDone(cfg: PublisherConfig, status: OutboxStatus, now: int, rows: seq<OutboxRow>, pos: nat, share: nat)
    requires pos <= |rows| && |Filter(cfg, status, now, rows[..pos])| <= share
    requires pos == |rows| || |Filter(cfg, status, now, rows[..pos])| == share
    ensures First(Filter(cfg, status, now, rows), share) == Filter(cfg, status, now, rows[..pos])
  {
    ReadOn(cfg, status, now, rows, pos, |rows|);
    assert rows[..|rows|] == rows;
  }

  /** The inner loop: one shard, page by page, until its share is full or no key comes
      back.  It terminates because a continuation key lies beyond the one before, even
      when a whole page was filtered away. */
  method ScanShard(cfg: PublisherConfig, key: string, rows: seq<OutboxRow>, status: OutboxStatus,
                   share: nat, now: int, pager: Pager) returns (items: seq<OutboxRow>)
    ensures items == First(Filter(cfg, status, now, rows), share)
  {
    items := [];
    var startKey: Option<nat> := None;
    var count := 0;
    ghost var pos: nat := 0;
    while count < share
      invariant pos <= |rows| && pos == startKey.GetOr(0)
      invariant items == Filter(cfg, status, now, rows[..pos])
      invariant count == |items| <= share
      decreases |rows| - pos
    {
      var start := startKey.GetOr(0);
      var page := Query(cfg, status, now, rows, start, share - count, pager.cut(key, start), pager.more(key, start));
      ReadOn(cfg, status, now, rows, pos, page.last.GetOr(|rows|));
      items := items + page.items;
      count := count + |page.items|;
      startKey := page.last;
      pos := page.last.GetOr(|rows|);
      if startKey.None? {
        break;
      }
    }
    ShardDone(cfg, status, now, rows, pos, share);
  }

  /** The nested, paginated, filtered scan returns what the form without pages returns,
      however the store cuts its pages. */
  method QueryRetryable(cfg: PublisherConfig, index: Index, status: OutboxStatus, limit: int, now: int, pager: Pager)
    returns (result: seq<OutboxRow>)
    ensures result == Retryable(cfg, index, status, limit, now) && OldestFirst(result)
  {
    var items: seq<OutboxRow> := [];
    var share := ShareOf(limit);
    ghost var parts := Parts(cfg, index, status, limit, now);
    for n := 0 to SHARDS
      invariant items == Flatten(parts[..n])
    {
      var key := IndexKey(status, TwoHex(n));
      var part := ScanShard(cfg, key, index(key), status, share, now, pager);
      items := items + part;
      FlattenNext(parts, n);
    }
    assert parts[..SHARDS] == parts;
    result := Upto(Sort(items), limit);
    ResultOldestFirst(cfg, index, status, limit, now);
  }

  // ----------------------------------------------------------------- fairness

  /** How many rows are no newer than `t`. */
  function NoNewer(rows: seq<OutboxRow>, t: string): nat {
    if rows == [] then 0 else (if NotAfter(rows[0].created, t) then 1 else 0) + NoNewer(rows[1..], t)
  }

  lemma {:induction false} NoNewerConcat(a: seq<OutboxRow>, b: seq<OutboxRow>, t: string)
    ensures NoNewer(a + b, t) == NoNewer(a, t) + NoNewer(b, t)
  {
    if a == [] {
      assert a + b == b;
    } else {
      assert (a + b)[1..] == a[1..] + b;
      NoNewerConcat(a[1..], b, t);
    }
  }

  lemma {:induction false} NoNewerInsert(r: OutboxRow, rows: seq<OutboxRow>, t: string)
    ensures NoNewer(Insert(r, rows), t) == NoNewer([r] + rows, t)
  {
    if rows == [] || NotAfter(r.created, rows[0].created) {
    } else {
      NoNewerInsert(r, rows[1..], t);
      assert ([r] + rows[1..])[1..] == rows[1..] && ([r] + rows)[1..] == rows;
    }
  }

  lemma {:induction false} NoNewerSort(rows: seq<OutboxRow>, t: string)
    ensures NoNewer(Sort(rows), t) == NoNewer(rows, t)
  {
    if rows != [] {
      NoNewerSort(rows[1..], t);
      NoNewerInsert(rows[0], Sort(rows[1..]), t);
      assert ([rows[0]] + Sort(rows[1..]))[1..] == Sort(rows[1..]);
    }
  }

  lemma {:induction false} NoNewerAll(rows: seq<OutboxRow>, t: string)
    ensures (forall r | r in rows :: NotAfter(r.created, t)) ==> NoNewer(rows, t) == |rows|
    ensures (forall r | r in rows :: !NotAfter(r.created, t)) ==> NoNewer(rows, t) == 0
  {
    if rows != [] {
      assert rows[0] in rows;
      NoNewerAll(rows[1..], t);
    }
  }

  /** In a sorted sequence, cutting it keeps all rows no newer than `t`, or keeps only such rows. */
  lemma CutKeepsOldest(rows: seq<OutboxRow>, cut: nat, t: string)
    requires InOrder(rows) && cut <= |rows|
    ensures NoNewer(rows[..cut], t) == NoNewer(rows, t) || NoNewer(rows[..cut], t) == cut
    ensures NoNewer(rows[..cut], t) == cut
            || (forall r | r in rows && NotAfter(r.created, t) :: r in rows[..cut])
  {
    if k: nat :| k < cut && !NotAfter(rows[k].created, t) {
      forall j | k <= j < |rows| ensures !NotAfter(rows[j].created, t) {
        if NotAfter(rows[j].created, t) { NotAfterTransitive(rows[k].created, rows[j].created, t); }
      }
      NoNewerAll(rows[cut..], t);
      assert rows[..cut] + rows[cut..] == rows;
      NoNewerConcat(rows[..cut], rows[cut..], t);
      forall r | r in rows && NotAfter(r.created, t) ensures r in rows[..cut] {
        var j :| 0 <= j < |rows| && rows[j] == r;
        assert rows[..cut][j] == r;
      }
    } else {
      forall r | r in rows[..cut] ensures NotAfter(r.created, t) {
        var j :| 0 <= j < cut && rows[..cut][j] == r;
        assert rows[j] == r;
      }
      NoNewerAll(rows[..cut], t);
    }
  }

  lemma {:induction false} FilterInOrder(cfg: PublisherConfig, status: OutboxStatus, now: int, rows: seq<OutboxRow>)
    requires InOrder(rows)
    ensures InOrder(Filter(cfg, status, now, rows))
  {
    if rows != [] {
      TailInOrder(rows);
      FilterInOrder(cfg, status, now, rows[1..]);
      var rest := Filter(cfg, status, now, rows[1..]);
      forall j | 0 <= j < |rest| ensures NotAfter(rows[0].created, rest[j].created) {
        assert rest[j] in rows[1..];
      }
      ConsInOrder(rows[0], rest);
      assert [] + rest == rest;
    }
  }

  /** What is left out of the first `share` rows comes after them. */
  lemma FirstAreOldest(kept: seq<OutboxRow>, share: nat, r: OutboxRow)
    requires InOrder(kept) && r in kept && r !in First(kept, share)
    ensures NoNewer(First(kept, share), r.created) == share
  {
    var j :| 0 <= j < |kept| && kept[j] == r;
    forall x | x in First(kept, share) ensures NotAfter(x.created, r.created) {
      var k :| 0 <= k < share && kept[..share][k] == x;
      assert kept[k] == x;
    }
    NoNewerAll(First(kept, share), r.created);
  }

  /** A row its shard leaves out has a full share of rows before it that are no newer. */
  lemma LeftOutOfShard(cfg: PublisherConfig, index: Index, status: OutboxStatus, limit: int, now: int, n: nat,
                       r: OutboxRow)
    requires n < SHARDS && InOrder(index(IndexKey(status, TwoHex(n))))
    requires r in index(IndexKey(status, TwoHex(n))) && Passes(cfg, status, now, r)
    requires r !in ShardPart(cfg, index, status, limit, now, n)
    ensures NoNewer(ShardPart(cfg, index, status, limit, now, n), r.created) == ShareOf(limit)
  {
    var rows := index(IndexKey(status, TwoHex(n)));
    FilterInOrder(cfg, status, now, rows);
    FirstAreOldest(Filter(cfg, status, now, rows), ShareOf(limit), r);
  }

  lemma {:induction false} PartInFlatten(parts: seq<seq<OutboxRow>>, n: nat)
    returns (before: seq<OutboxRow>, after: seq<OutboxRow>)
    requires n < |parts|
    ensures Flatten(parts) == before + parts[n] + after
  {
    var m := |parts| - 1;
    if n == m {
      before, after := Flatten(parts[..m]), [];
    } else {
      before, after := PartInFlatten(parts[..m], n);
      after := after + parts[m];
    }
  }

  /** What a part has no newer than `t`, the sorted whole has too. */
  lemma PartCounts(parts: seq<seq<OutboxRow>>, n: nat, t: string)
    requires n < |parts|
    ensures NoNewer(parts[n], t) <= NoNewer(Sort(Flatten(parts)), t)
    ensures forall r | r in parts[n] :: r in Sort(Flatten(parts))
  {
    var all := Flatten(parts);
    var before, after := PartInFlatten(parts, n);
    NoNewerConcat(before + parts[n], after, t);
    NoNewerConcat(before, parts[n], t);
    NoNewerSort(all, t);
    SortInOrder(all);
    forall r | r in parts[n] ensures r in Sort(all) {
      assert r in before + parts[n] + after;
      assert r in multiset(Sort(all));
    }
  }

  /** Cutting a sorted whole leaves a row out only behind `share` rows no newer. */
  lemma CutIsFair(sorted: seq<OutboxRow>, limit: nat, share: nat, r: OutboxRow)
    requires InOrder(sorted) && share <= limit
    requires r !in sorted ==> NoNewer(sorted, r.created) >= share
    requires r !in Upto(sorted, limit)
    ensures NoNewer(Upto(sorted, limit), r.created) >= share
  {
    var cut := |Upto(sorted, limit)|;
    NotAfterSelf(r.created);
    CutKeepsOldest(sorted, cut, r.created);
    assert Upto(sorted, limit) == sorted[..cut];
    assert cut < limit ==> sorted[..cut] == sorted;
  }

  /** How many rows were created no later than `t`. */
  ghost function Older(rows: seq<OutboxRow>, t: string): nat {
    if rows == [] then 0 else (if NoLater(rows[0].created, t) then 1 else 0) + Older(rows[1..], t)
  }

  lemma {:induction false} NoNewerIsOlder(rows: seq<OutboxRow>, t: string)
    ensures NoNewer(rows, t) == Older(rows, t)
  {
    if rows != [] {
      NotAfterIsNoLater(rows[0].created, t);
      NoNewerIsOlder(rows[1..], t);
    }
  }

  /**
   Fairness.  For a limit of at least 1 the scan returns at most `limit` rows, oldest
   first; and for every eligible row it leaves out, in whatever shard, at least a shard's
   share of the rows it does return were created no later.
   */
  lemma ScanIsFair(cfg: PublisherConfig, index: Index, status: OutboxStatus, limit: int, now: int, n: nat, r: OutboxRow)
    requires limit >= 1 && n < SHARDS
    requires OldestFirst(index(IndexKey(status, TwoHex(n))))
    requires r in index(IndexKey(status, TwoHex(n))) && Passes(cfg, status, now, r)
    ensures var result := Retryable(cfg, index, status, limit, now);
            && |result| <= limit && OldestFirst(result)
            && (r !in result ==> Older(result, r.created) >= ShareOf(limit))
  {
    var parts := Parts(cfg, index, status, limit, now);
    var sorted := Sort(Flatten(parts));
    SortInOrder(Flatten(parts));
    InOrderIsOldestFirst(index(IndexKey(status, TwoHex(n))));
    InOrderIsOldestFirst(Upto(sorted, limit));
    if r !in Upto(sorted, limit) {
      PartCounts(parts, n, r.created);
      if r !in sorted {
        LeftOutOfShard(cfg, index, status, limit, now, n, r);
      }
      CutIsFair(sorted, limit, ShareOf(limit), r);
      NoNewerIsOlder(Upto(sorted, limit), r.created);
    }
  }

  // --------------------------------------------------------------------- ties

  /** The rows created at this time, in their order. */
  function CreatedAt(rows: seq<OutboxRow>, t: string): seq<OutboxRow> {
    if rows == [] then []
    else (if rows[0].created == t then [rows[0]] else []) + CreatedAt(rows[1..], t)
  }

  lemma {:induction false} InsertKeepsTies(r: OutboxRow, rows: seq<OutboxRow>, t: string)
    ensures CreatedAt(Insert(r, rows), t) == CreatedAt([r] + rows, t)
  {
    assert ([r] + rows)[1..] == rows;
    if rows != [] && !NotAfter(r.created, rows[0].created) {
      NotAfterSelf(r.created);
      InsertKeepsTies(r, rows[1..], t);
      assert ([r] + rows[1..])[1..] == rows[1..];
      assert Insert(r, rows)[1..] == Insert(r, rows[1..]);
    }
  }

  /** Rows created at the same time stay in the order they were scanned in. */
  lemma {:induction false} SortKeepsTies(rows: seq<OutboxRow>, t: string)
    ensures CreatedAt(Sort(rows), t) == CreatedAt(rows, t)
  {
    if rows != [] {
      SortKeepsTies(rows[1..], t);
      InsertKeepsTies(rows[0], Sort(rows[1..]), t);
      assert ([rows[0]] + Sort(rows[1..]))[1..] == Sort(rows[1..]);
    }
  }

  lemma {:induction false} FlattenMember(parts: seq<seq<OutboxRow>>, r: OutboxRow) returns (n: nat)
    requires r in Flatten(parts)
    ensures n < |parts| && r in parts[n]
  {
    var m := |parts| - 1;
    if r in parts[m] {
      n := m;
    } else {
      n := FlattenMember(parts[..m], r);
    }
  }

  /** Every row the scan returns comes from a scanned shard of its status and passed the filter. */
  lemma ScanReturnsEligible(cfg: PublisherConfig, index: Index, status: OutboxStatus, limit: int, now: int,
                            r: OutboxRow)
    requires r in Retryable(cfg, index, status, limit, now)
    ensures exists n: nat :: n < SHARDS && r in index(IndexKey(status, TwoHex(n))) && Passes(cfg, status, now, r)
  {
    var parts := Parts(cfg, index, status, limit, now);
    var all := Flatten(parts);
    SortInOrder(all);
    assert r in multiset(Sort(all));
    assert r in all;
    var n := FlattenMember(parts, r);
    assert r in Filter(cfg, status, now, index(IndexKey(status, TwoHex(n))));
  }
}
