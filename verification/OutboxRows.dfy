/**
 The outbox row and the three conditional updates of the publisher, on one row.
 `UpdateClaim`, `UpdatePublished` and `UpdateFailed` give the row after the update,
 or None when its condition fails.
 */
module OutboxRows {
  import opened Options
  import opened Domain

  datatype OutboxStatus = Pending | Publishing | Published | Failed

  datatype OutboxRow = OutboxRow(
    id: OutputId,
    kind: EventKind,
    payload: Payload,
    status: OutboxStatus,
    shard: string,
    created: string,
    retries: Option<nat>,
    token: Option<Token>,
    expires: Option<int>,
    index: string,
    lastError: Option<string>,
    ttl: Option<int>)

  /** Publisher settings; `firstByte` is the first byte of the digest of a file id.  An empty
      topic is one that is not set; `topic` is used for whatever has none of its own. */
  datatype PublisherConfig = PublisherConfig(
    maxRetries: nat,
    claimTtl: int,
    retention: int,
    skew: real,
    fileTopic: string,
    processingTopic: string,
    topic: string,
    firstByte: FileId -> Byte)

  const SHARDS := 16

  const HEX := "0123456789abcdef"

  /** The two lower-case hexadecimal digits of a number below 256. */
  function TwoHex(n: nat): (s: string)
    requires n < 256
    ensures |s| == 2
  {
    [HEX[n / 16], HEX[n % 16]]
  }

  function ShardOf(cfg: PublisherConfig, file: FileId): string {
    TwoHex(cfg.firstByte(file) % SHARDS)
  }

  function StatusName(status: OutboxStatus): string {
    match status
    case Pending => "PENDING"
    case Publishing => "PUBLISHING"
    case Published => "PUBLISHED"
    case Failed => "FAILED"
  }

  /** The partition key of the status index. */
  function IndexKey(status: OutboxStatus, shard: string): string {
    "STATUS#" + StatusName(status) + "#" + shard
  }

  /** The event type a canonical payload names. */
  function KindOf(p: Payload): EventKind {
    if p.body.Analysis? then AnalysisCompleted else ProcessingFailed
  }

  /** The topic for events of a kind; empty when there is none. */
  function TopicOf(cfg: PublisherConfig, kind: EventKind): string {
    var own := if kind.FileUploaded? then cfg.fileTopic else cfg.processingTopic;
    if own != "" then own else cfg.topic
  }

  /** There is a topic for what the processors announce. */
  predicate HasTopic(cfg: PublisherConfig) {
    cfg.processingTopic != "" || cfg.topic != ""
  }

  /** The payload carries the row's own id and type, and there is a topic to send it to. */
  predicate Sendable(cfg: PublisherConfig, r: OutboxRow) {
    r.payload.id == r.id && KindOf(r.payload) == r.kind && TopicOf(cfg, r.kind) != ""
  }

  /** The row an outbox event is inserted as. */
  function NewRow(cfg: PublisherConfig, p: Payload, created: string): OutboxRow {
    var shard := ShardOf(cfg, p.file);
    OutboxRow(p.id, KindOf(p), p, Pending, shard, created, Some(0), None, None, IndexKey(Pending, shard), None, None)
  }

  /** The condition of the claiming update.  Comparisons with a missing attribute fail. */
  predicate Claimable(cfg: PublisherConfig, r: OutboxRow, now: int) {
    && (r.status == Pending || r.status == Failed
        || (r.status == Publishing && r.expires.Some? && r.expires.value < now))
    && (r.retries.None? || r.retries.value < cfg.maxRetries)
  }

  function UpdateClaim(cfg: PublisherConfig, r: OutboxRow, shard: string, token: Token, now: int): Option<OutboxRow> {
    if !Claimable(cfg, r, now) then None
    else Some(r.(status := Publishing, token := Some(token), expires := Some(now + cfg.claimTtl),
                 index := IndexKey(Publishing, shard)))
  }

  predicate HeldBy(r: OutboxRow, token: Token) {
    r.status == Publishing && r.token == Some(token)
  }

  function UpdatePublished(cfg: PublisherConfig, r: OutboxRow, shard: string, token: Token,
                           now: int): Option<OutboxRow> {
    if !HeldBy(r, token) then None
    else Some(r.(status := Published, token := None, expires := None,
                 index := IndexKey(Published, shard), ttl := Some(now + cfg.retention)))
  }

  function UpdateFailed(r: OutboxRow, shard: string, token: Token, error: string): Option<OutboxRow> {
    if !HeldBy(r, token) then None
    else Some(r.(status := Failed, token := None, expires := None, retries := Some(r.retries.GetOr(0) + 1),
                 index := IndexKey(Failed, shard), lastError := Some(if |error| <= 2000 then error else error[..2000])))
  }

  /** The index key of a row tells its status and its shard apart from all others. */
  lemma IndexKeyInjective(s: OutboxStatus, a: string, t: OutboxStatus, b: string)
    requires |a| == 2 && |b| == 2
    ensures IndexKey(s, a) == IndexKey(t, b) <==> s == t && a == b
  {
    if IndexKey(s, a) == IndexKey(t, b) {
      assert |StatusName(s)| == |StatusName(t)|;
      assert IndexKey(s, a)[|IndexKey(s, a)| - 2..] == a;
      assert IndexKey(t, b)[|IndexKey(t, b)| - 2..] == b;
    }
  }

  /** The index keys, written out. */
  lemma IndexKeyText(status: OutboxStatus, shard: string)
    ensures IndexKey(status, shard) == (match status
                                        case Pending => "STATUS#PENDING#" + shard
                                        case Publishing => "STATUS#PUBLISHING#" + shard
                                        case Published => "STATUS#PUBLISHED#" + shard
                                        case Failed => "STATUS#FAILED#" + shard)
  {
    match status
    case Pending => assert "STATUS#" + "PENDING" + "#" == "STATUS#PENDING#";
    case Publishing => assert "STATUS#" + "PUBLISHING" + "#" == "STATUS#PUBLISHING#";
    case Published => assert "STATUS#" + "PUBLISHED" + "#" == "STATUS#PUBLISHED#";
    case Failed => assert "STATUS#" + "FAILED" + "#" == "STATUS#FAILED#";
  }

  lemma ShardText(cfg: PublisherConfig, file: FileId)
    ensures ShardOf(cfg, file) == ['0', "0123456789abcdef"[cfg.firstByte(file) % 16]]
  {
  }

  lemma TwoHexInjective(m: nat, n: nat)
    requires m < 256 && n < 256
    ensures TwoHex(m) == TwoHex(n) <==> m == n
  {
    if TwoHex(m) == TwoHex(n) {
      HexDigit(m / 16, n / 16);
      HexDigit(m % 16, n % 16);
      assert TwoHex(m)[0] == TwoHex(n)[0] && TwoHex(m)[1] == TwoHex(n)[1];
      assert m == 16 * (m / 16) + m % 16;
    }
  }

  lemma HexDigit(i: nat, j: nat)
    requires i < 16 && j < 16
    ensures HEX[i] == HEX[j] <==> i == j
  {
  }

  /** Every shard a row can be given is scanned by exactly one of the 16 scan steps. */
  lemma ShardIsScannedOnce(cfg: PublisherConfig, file: FileId)
    ensures exists n :: 0 <= n < SHARDS && ShardOf(cfg, file) == TwoHex(n)
                        && forall m | 0 <= m < SHARDS && TwoHex(m) == ShardOf(cfg, file) :: m == n
  {
    var n := cfg.firstByte(file) % SHARDS;
    forall m | 0 <= m < SHARDS && TwoHex(m) == ShardOf(cfg, file) ensures m == n {
      TwoHexInjective(m, n);
    }
    assert TwoHex(n) == ShardOf(cfg, file);
  }
}
