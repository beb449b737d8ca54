/**
 The compiled requests refine the table of LeaseStore: run on an item that shows a row,
 the claiming request is granted exactly when `CanClaim` says so and leaves an item that
 shows `GrantMeta`, and the fenced save succeeds exactly when the row is `Fenced` and
 leaves an item that shows `CommitMeta`.
 */
module TableRefinement {
  import opened Options
  import opened Domain
  import opened DynamoTable
  import opened MetadataRecords
  import opened MetadataUpdate
  import opened MetadataSave
  import opened MetadataClaim
  import Store = LeaseStore

  /** How tokens and times are written out. */
  datatype Encoding = Encoding(token: Token -> string, stamp: Stamp -> string)

  ghost predicate Unambiguous(enc: Encoding) {
    forall s, t :: enc.token(s) == enc.token(t) ==> s == t
  }

  function StatusOf(s: Store.Status): ProcessingStatus {
    match s
    case Pending => ProcessingStatus.Pending
    case Uploaded => ProcessingStatus.Uploaded
    case Scanning => ProcessingStatus.Scanning
    case Processing => ProcessingStatus.Processing
    case Completed => ProcessingStatus.Completed
    case Failed => ProcessingStatus.Failed
  }

  function Written(text: Option<string>): Option<Value> {
    if text.Some? then Some(S(text.value)) else None
  }

  function Counted(n: Option<int>): Option<Value> {
    if n.Some? then Some(N(n.value)) else None
  }

  /** The attributes of the lease protocol. */
  predicate Protocol(a: Attribute) {
    a.Status? || a.LastProcessedEventId? || a.ClaimToken? || a.ClaimExpiresAt? || a.ClaimVersion?
        || a.ProcessingEventId?
    || a.FileHash? || a.BucketName? || a.ObjectKey? || a.ErrorMessage? || a.ErrorCode? || a.CreatedAt?
  }

  /** What an attribute of the protocol holds for a row. */
  function Shown(enc: Encoding, m: Store.Meta, a: Attribute): Option<Value> {
    match a
    case Status => Some(S(StatusName(StatusOf(m.status))))
    case LastProcessedEventId => Written(m.last)
    case ClaimToken => if m.token.Some? then Some(S(enc.token(m.token.value))) else None
    case ClaimExpiresAt => Counted(m.expires)
    case ClaimVersion => if m.version == 0 then None else Some(N(m.version))
    case ProcessingEventId => Written(m.processing)
    case FileHash => Written(m.hash)
    case BucketName => Some(S(m.location.bucket))
    case ObjectKey => Some(S(m.location.key))
    case ErrorMessage => Written(m.message)
    case ErrorCode => Written(m.code)
    case CreatedAt => if m.created.Some? then Some(S(enc.stamp(m.created.value))) else None
    case _ => None
  }

  ghost predicate Shows(enc: Encoding, item: Item, m: Store.Meta) {
    Standing(item) && forall a | Protocol(a) :: Get(item, a) == Shown(enc, m, a)
  }

  ghost predicate ShowsRow(enc: Encoding, row: Option<Item>, m: Option<Store.Meta>) {
    (row.Some? <==> m.Some?) && (row.Some? ==> Shows(enc, row.value, m.value))
  }

  function Given(text: Option<string>): Option<string> {
    if Filled(text) then text else None
  }

  /** The record, saved at `now`, stands for this write. */
  predicate Records(enc: Encoding, r: MetadataRecord, now: string, w: Store.MetaWrite) {
    && r.status == StatusOf(w.status)
    && w.last == Given(r.lastProcessedEventId) && w.hash == Given(r.fileHash)
    && w.location == Location(r.bucketName, r.objectKey)
    && w.message == Given(r.errorMessage) && w.code == Given(r.errorCode)
    && enc.stamp(w.created) == CreationTime(r, now)
  }

  /** The lease of the request is the claim. */
  predicate Names(enc: Encoding, pc: ProcessingClaim, c: Store.Claim) {
    pc == ProcessingClaim(c.event, enc.token(c.token), c.version) && c.version >= 1
  }

  lemma FenceAgrees(enc: Encoding, item: Item, m: Store.Meta, pc: ProcessingClaim, c: Store.Claim)
    requires Unambiguous(enc) && Shows(enc, item, m) && Names(enc, pc, c)
    ensures FenceHolds(item, pc) <==> Store.Fenced(Some(m), c)
  {
    assert Get(item, ClaimToken) == Shown(enc, m, ClaimToken) && Get(item, ClaimVersion) == Shown(enc, m, ClaimVersion);
    assert Get(item, ProcessingEventId) == Shown(enc, m, ProcessingEventId);
  }

  lemma SavedAttribute(enc: Encoding, r: MetadataRecord, now: string, w: Store.MetaWrite, m: Store.Meta, a: Attribute)
    requires Protocol(a) && Records(enc, r, now, w)
    ensures (if a in LEASE then None else Saved(r, now, a, Shown(enc, m, a))) == Shown(enc, Store.CommitMeta(m, w), a)
  {
  }

  lemma SavedShows(enc: Encoding, r: MetadataRecord, now: string, w: Store.MetaWrite, item: Item, item': Item,
                   m: Store.Meta)
    requires Shows(enc, item, m) && Records(enc, r, now, w)
    requires forall a :: Get(item', a) == if a in LEASE then None else Saved(r, now, a, Get(item, a))
    ensures Shows(enc, item', Store.CommitMeta(m, w))
  {
    forall a | Protocol(a) ensures Get(item', a) == Shown(enc, Store.CommitMeta(m, w), a) {
      SavedAttribute(enc, r, now, w, m, a);
    }
    assert Get(item', Pk) == Get(item, Pk) && Get(item', Sk) == Get(item, Sk);
  }

  lemma SaveReplyShows(enc: Encoding, reply: Reply, r: MetadataRecord, now: string, pc: ProcessingClaim,
                       transactional: bool,
                       row: Option<Item>, key: Item, m: Option<Store.Meta>, c: Store.Claim, w: Store.MetaWrite)
    requires Unambiguous(enc) && SaveReply(reply, r, now, Some(pc), transactional, row, key)
    requires ShowsRow(enc, row, m) && Names(enc, pc, c) && Records(enc, r, now, w)
    ensures if Store.Fenced(m, c) then reply.Updated? && Shows(enc, reply.item, Store.CommitMeta(m.value, w))
            else reply == ConditionFailed
  {
    if row.Some? {
      FenceAgrees(enc, row.value, m.value, pc, c);
      if Store.Fenced(m, c) {
        SavedShows(enc, r, now, w, row.value, reply.item, m.value);
      }
    }
  }

  /** The fenced save of a record refines the commit of the lease table. */
  lemma SaveRefinesCommit(enc: Encoding, q: Request, r: MetadataRecord, now: string, pc: ProcessingClaim,
                          transactional: bool,
                          row: Option<Item>, key: Item, m: Option<Store.Meta>, c: Store.Claim, w: Store.MetaWrite)
    requires Unambiguous(enc) && Saves(q, r, now, Some(pc), transactional)
    requires ShowsRow(enc, row, m) && Names(enc, pc, c) && Records(enc, r, now, w)
    ensures if Store.Fenced(m, c)
            then Execute(row, key, q).Updated? && Shows(enc, Execute(row, key, q).item, Store.CommitMeta(m.value, w))
            else Execute(row, key, q) == ConditionFailed
  {
    SaveIsDirectUpdate(q, r, now, Some(pc), transactional, row, key);
    SaveReplyShows(enc, Execute(row, key, q), r, now, pc, transactional, row, key, m, c, w);
  }

  /** A record made from an input event: no result yet, and a creation time. */
  predicate Initial(enc: Encoding, r: MetadataRecord, location: Location, created: Stamp) {
    && !Filled(r.fileHash) && Location(r.bucketName, r.objectKey) == location
    && Filled(r.createdAt) && r.createdAt.value == enc.stamp(created)
  }

  predicate BareKey(key: Item) {
    key.Keys == {Pk, Sk}
  }

  lemma ClaimAgrees(enc: Encoding, row: Option<Item>, m: Option<Store.Meta>, b: Bid)
    requires ShowsRow(enc, row, m)
    ensures ClaimAllowed(row.GetOr(map[]), b) <==> Store.CanClaim(m, b.event, b.nowEpoch)
  {
    if row.Some? {
      var item := row.value;
      assert Get(item, LastProcessedEventId) == Shown(enc, m.value, LastProcessedEventId);
      assert Get(item, ClaimToken) == Shown(enc, m.value, ClaimToken);
      assert Get(item, ClaimExpiresAt) == Shown(enc, m.value, ClaimExpiresAt);
    }
  }

  lemma ClaimedAttribute(enc: Encoding, initial: MetadataRecord, b: Bid, m: Store.Meta,
                         token: Token, location: Location, created: Stamp, a: Attribute)
    requires Protocol(a) && Initial(enc, initial, location, created) && b.token == enc.token(token)
    ensures Claimed(initial, b, a, Shown(enc, m, a))
            == Shown(enc, Store.GrantMeta(Some(m), b.event, token, b.expires, location, created), a)
  {
  }

  lemma ClaimedAttributeNew(enc: Encoding, initial: MetadataRecord, b: Bid,
                            token: Token, location: Location, created: Stamp, a: Attribute)
    requires Protocol(a) && Initial(enc, initial, location, created) && b.token == enc.token(token)
    ensures Claimed(initial, b, a, None)
            == Shown(enc, Store.GrantMeta(None, b.event, token, b.expires, location, created), a)
  {
  }

  lemma ClaimedShows(enc: Encoding, initial: MetadataRecord, b: Bid, item: Item, item': Item, m: Option<Store.Meta>,
                     token: Token, location: Location, created: Stamp)
    requires if m.Some? then Shows(enc, item, m.value) else BareKey(item)
    requires Initial(enc, initial, location, created) && b.token == enc.token(token)
    requires forall a :: Get(item', a) == Claimed(initial, b, a, Get(item, a))
    ensures Shows(enc, item', Store.GrantMeta(m, b.event, token, b.expires, location, created))
  {
    forall a | Protocol(a)
      ensures Get(item', a) == Shown(enc, Store.GrantMeta(m, b.event, token, b.expires, location, created), a)
    {
      if m.Some? {
        ClaimedAttribute(enc, initial, b, m.value, token, location, created, a);
      } else {
        assert Get(item, a) == None;
        ClaimedAttributeNew(enc, initial, b, token, location, created, a);
      }
    }
    assert Get(item', Pk) == Get(item, Pk) && Get(item', Sk) == Get(item, Sk);
  }

  /** What a claim is answered, said in terms of the row. */
  lemma ReplyShows(enc: Encoding, reply: Reply, initial: MetadataRecord, b: Bid, row: Option<Item>, key: Item,
                   m: Option<Store.Meta>, token: Token, location: Location, created: Stamp)
    requires ClaimReply(reply, initial, b, row, key) && ShowsRow(enc, row, m) && BareKey(key)
    requires Initial(enc, initial, location, created) && b.token == enc.token(token)
    ensures if Store.CanClaim(m, b.event, b.nowEpoch)
            then reply.Updated? && Shows(enc, reply.item,
                                         Store.GrantMeta(m, b.event, token, b.expires, location, created))
            else reply == ConditionFailed
  {
    ClaimAgrees(enc, row, m, b);
    if ClaimAllowed(row.GetOr(map[]), b) {
      ClaimedShows(enc, initial, b, row.GetOr(key), reply.item, m, token, location, created);
    }
  }

  lemma VersionIsNumber(enc: Encoding, row: Option<Item>, key: Item, m: Option<Store.Meta>)
    requires ShowsRow(enc, row, m) && BareKey(key)
    ensures ClaimVersion in row.GetOr(key) ==> row.GetOr(key)[ClaimVersion].N?
  {
    if row.Some? {
      assert Get(row.value, ClaimVersion) == Shown(enc, m.value, ClaimVersion);
    }
  }

  /** The claiming request refines the grant of the lease table, on a new row and on an old one. */
  lemma ClaimRefinesGrant(enc: Encoding, q: Request, initial: MetadataRecord, b: Bid, row: Option<Item>, key: Item,
                          m: Option<Store.Meta>, token: Token, location: Location, created: Stamp)
    requires Claims(q, initial, b) && ShowsRow(enc, row, m) && BareKey(key)
    requires Initial(enc, initial, location, created) && b.token == enc.token(token)
    ensures if Store.CanClaim(m, b.event, b.nowEpoch)
            then Execute(row, key, q).Updated?
                 && Shows(enc, Execute(row, key, q).item,
                          Store.GrantMeta(m, b.event, token, b.expires, location, created))
            else Execute(row, key, q) == ConditionFailed
  {
    VersionIsNumber(enc, row, key, m);
    ClaimIsDirectUpdate(q, initial, b, row, key);
    ReplyShows(enc, Execute(row, key, q), initial, b, row, key, m, token, location, created);
  }
}
