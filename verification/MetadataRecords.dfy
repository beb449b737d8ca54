/** The metadata record and the attributes it stands for. */
module MetadataRecords {
  import opened Options
  import opened DynamoTable

  datatype ProcessingStatus = Pending | Uploaded | Scanning | Processing | Completed | Failed

  datatype MetadataRecord = MetadataRecord(
    fileId: string,
    correlationId: string,
    originalFilename: string,
    fileSizeBytes: int,
    mimeType: Option<string>,
    bucketName: string,
    objectKey: string,
    status: ProcessingStatus,
    checksumSha256: Option<string>,
    fileHash: Option<string>,
    isEncrypted: bool,
    encryptionAlgorithm: string,
    kmsKeyId: Option<string>,
    isSafe: Option<bool>,
    scanFindings: seq<string>,
    createdAt: Option<string>,
    createdBy: Option<string>,
    updatedAt: Option<string>,
    processedAt: Option<string>,
    errorMessage: Option<string>,
    errorCode: Option<string>,
    retryCount: int,
    lastProcessedEventId: Option<string>,
    ttl: Option<int>)

  function StatusName(s: ProcessingStatus): string {
    match s
    case Pending => "PENDING"
    case Uploaded => "UPLOADED"
    case Scanning => "SCANNING"
    case Processing => "PROCESSING"
    case Completed => "COMPLETED"
    case Failed => "FAILED"
  }

  function StatusNamed(name: string): Option<ProcessingStatus> {
    match name
    case "PENDING" => Some(Pending)
    case "UPLOADED" => Some(Uploaded)
    case "SCANNING" => Some(Scanning)
    case "PROCESSING" => Some(Processing)
    case "COMPLETED" => Some(Completed)
    case "FAILED" => Some(Failed)
    case _ => None
  }

  /** A text that is present and not empty. */
  predicate Filled(o: Option<string>) {
    o.Some? && o.value != ""
  }

  function Text(o: Option<string>): Option<Value> {
    if Filled(o) then Some(S(o.value)) else None
  }

  /** What a record says about an attribute; None when it says nothing. */
  function AttributeOf(r: MetadataRecord, a: Attribute): Option<Value> {
    match a
    case Pk => Some(S("FILE#" + r.fileId))
    case Sk => Some(S("METADATA"))
    case EntityType => Some(S("FILE_METADATA"))
    case FileId => Some(S(r.fileId))
    case CorrelationId => Some(S(r.correlationId))
    case OriginalFilename => Some(S(r.originalFilename))
    case FileSizeBytes => Some(N(r.fileSizeBytes))
    case BucketName => Some(S(r.bucketName))
    case ObjectKey => Some(S(r.objectKey))
    case Status => Some(S(StatusName(r.status)))
    case IsEncrypted => Some(Bool(r.isEncrypted))
    case EncryptionAlgorithm => Some(S(r.encryptionAlgorithm))
    case RetryCount => Some(N(r.retryCount))
    case MimeType => Text(r.mimeType)
    case ChecksumSha256 => Text(r.checksumSha256)
    case ChecksumAlgorithm => if Filled(r.checksumSha256) then Some(S("SHA256")) else None
    case FileHash => Text(r.fileHash)
    case KmsKeyId => Text(r.kmsKeyId)
    case IsSafe => if r.isSafe.Some? then Some(Bool(r.isSafe.value)) else None
    case ScanFindings => if r.scanFindings != [] then Some(SS(r.scanFindings)) else None
    case CreatedAt => Text(r.createdAt)
    case CreatedBy => Text(r.createdBy)
    case UpdatedAt => Text(r.updatedAt)
    case ProcessedAt => Text(r.processedAt)
    case ErrorMessage => Text(r.errorMessage)
    case ErrorCode => Text(r.errorCode)
    case Ttl => if r.ttl.Some? && r.ttl.value != 0 then Some(N(r.ttl.value)) else None
    case LastProcessedEventId => Text(r.lastProcessedEventId)
    case _ => None
  }

  /** The attributes a record can say something about. */
  const RECORDED := {
    Pk, Sk, EntityType, FileId, CorrelationId, OriginalFilename, FileSizeBytes, BucketName, ObjectKey, Status,
    IsEncrypted, EncryptionAlgorithm, RetryCount, MimeType, ChecksumSha256, ChecksumAlgorithm, FileHash, KmsKeyId,
    IsSafe, ScanFindings, CreatedAt, CreatedBy, UpdatedAt, ProcessedAt, ErrorMessage, ErrorCode, Ttl,
    LastProcessedEventId}

  /** The record as an item. */
  function ToItem(r: MetadataRecord): Item {
    map a | a in RECORDED && AttributeOf(r, a).Some? :: AttributeOf(r, a).value
  }

  lemma ItemSays(r: MetadataRecord, a: Attribute)
    ensures Get(ToItem(r), a) == AttributeOf(r, a)
  {
    assert a in RECORDED || AttributeOf(r, a).None?;
  }

  // ---------------------------------------------------------- filling the item

  /** The optional attributes, numbered in the order they are filled in; the others are first. */
  function Rank(a: Attribute): nat {
    match a
    case MimeType => 1
    case ChecksumSha256 => 2
    case ChecksumAlgorithm => 3
    case FileHash => 4
    case KmsKeyId => 5
    case IsSafe => 6
    case ScanFindings => 7
    case CreatedAt => 8
    case CreatedBy => 9
    case UpdatedAt => 10
    case ProcessedAt => 11
    case ErrorMessage => 12
    case ErrorCode => 13
    case Ttl => 14
    case LastProcessedEventId => 15
    case _ => 0
  }

  function Ranked(n: nat): Attribute {
    match n
    case 1 => MimeType
    case 2 => ChecksumSha256
    case 3 => ChecksumAlgorithm
    case 4 => FileHash
    case 5 => KmsKeyId
    case 6 => IsSafe
    case 7 => ScanFindings
    case 8 => CreatedAt
    case 9 => CreatedBy
    case 10 => UpdatedAt
    case 11 => ProcessedAt
    case 12 => ErrorMessage
    case 13 => ErrorCode
    case 14 => Ttl
    case 15 => LastProcessedEventId
    case _ => Pk
  }

  lemma RankDistinct(a: Attribute)
    ensures Rank(a) > 0 ==> a == Ranked(Rank(a))
  {
  }

  /** The item says what the record says of the attributes ranked below `n`, and no more. */
  ghost predicate FilledTo(item: Item, r: MetadataRecord, n: nat) {
    forall a {:trigger Get(item, a)} :: Get(item, a) == if Rank(a) < n then AttributeOf(r, a) else None
  }

  /** Add the next optional attribute, if the record has it. */
  method Put(item: Item, a: Attribute, v: Option<Value>, ghost r: MetadataRecord) returns (filled: Item)
    requires Rank(a) > 0 && FilledTo(item, r, Rank(a)) && AttributeOf(r, a) == v
    ensures FilledTo(filled, r, Rank(a) + 1)
  {
    filled := if v.Some? then item[a := v.value] else item;
    RankDistinct(a);
    forall b ensures Get(filled, b) == if Rank(b) < Rank(a) + 1 then AttributeOf(r, b) else None {
      RankDistinct(b);
      assert Get(item, b) == if Rank(b) < Rank(a) then AttributeOf(r, b) else None;
    }
  }

  /** The attributes every item has. */
  method RequiredAttributes(r: MetadataRecord) returns (item: Item)
    ensures FilledTo(item, r, 1)
  {
    item := map[
      Pk := S("FILE#" + r.fileId), Sk := S("METADATA"), EntityType := S("FILE_METADATA"), FileId := S(r.fileId),
      CorrelationId := S(r.correlationId), OriginalFilename := S(r.originalFilename),
      FileSizeBytes := N(r.fileSizeBytes), BucketName := S(r.bucketName), ObjectKey := S(r.objectKey),
      Status := S(StatusName(r.status)), IsEncrypted := Bool(r.isEncrypted),
      EncryptionAlgorithm := S(r.encryptionAlgorithm), RetryCount := N(r.retryCount)];
  }

  /** What is known of the content. */
  method ContentAttributes(given: Item, r: MetadataRecord) returns (item: Item)
    requires FilledTo(given, r, 1)
    ensures FilledTo(item, r, 5)
  {
    item := Put(given, MimeType, Text(r.mimeType), r);
    item := Put(item, ChecksumSha256, Text(r.checksumSha256), r);
    item := Put(item, ChecksumAlgorithm, if Filled(r.checksumSha256) then Some(S("SHA256")) else None, r);
    item := Put(item, FileHash, Text(r.fileHash), r);
  }

  /** What the analysis found. */
  method AnalysisAttributes(given: Item, r: MetadataRecord) returns (item: Item)
    requires FilledTo(given, r, 5)
    ensures FilledTo(item, r, 8)
  {
    item := Put(given, KmsKeyId, Text(r.kmsKeyId), r);
    item := Put(item, IsSafe, if r.isSafe.Some? then Some(Bool(r.isSafe.value)) else None, r);
    item := Put(item, ScanFindings, if r.scanFindings != [] then Some(SS(r.scanFindings)) else None, r);
  }

  /** When the record was made, changed and processed. */
  method TimeAttributes(given: Item, r: MetadataRecord) returns (item: Item)
    requires FilledTo(given, r, 8)
    ensures FilledTo(item, r, 12)
  {
    item := Put(given, CreatedAt, Text(r.createdAt), r);
    item := Put(item, CreatedBy, Text(r.createdBy), r);
    item := Put(item, UpdatedAt, Text(r.updatedAt), r);
    item := Put(item, ProcessedAt, Text(r.processedAt), r);
  }

  /** What the processing left behind. */
  method ResultAttributes(given: Item, r: MetadataRecord) returns (item: Item)
    requires FilledTo(given, r, 12)
    ensures FilledTo(item, r, 16)
  {
    item := Put(given, ErrorMessage, Text(r.errorMessage), r);
    item := Put(item, ErrorCode, Text(r.errorCode), r);
    item := Put(item, Ttl, if r.ttl.Some? && r.ttl.value != 0 then Some(N(r.ttl.value)) else None, r);
    item := Put(item, LastProcessedEventId, Text(r.lastProcessedEventId), r);
  }

  /** Fill in the item of a record, attribute by attribute: nothing is missed, nothing is
      overwritten, and what is absent or empty is left out. */
  method ToDynamodbItem(r: MetadataRecord) returns (item: Item)
    ensures item == ToItem(r)
  {
    item := RequiredAttributes(r);
    item := ContentAttributes(item, r);
    item := AnalysisAttributes(item, r);
    item := TimeAttributes(item, r);
    item := ResultAttributes(item, r);
    FilledIsItem(item, r);
  }

  /** The attributes of an item that no record decides: its key, its type, and the name of the
      checksum's algorithm, which is there exactly with a checksum. */
  lemma ItemConstants(r: MetadataRecord)
    ensures Get(ToItem(r), Pk) == Some(S("FILE#" + r.fileId)) && Get(ToItem(r), Sk) == Some(S("METADATA"))
    ensures Get(ToItem(r), EntityType) == Some(S("FILE_METADATA"))
    ensures Get(ToItem(r), ChecksumAlgorithm) ==
            if r.checksumSha256.Some? && r.checksumSha256.value != "" then Some(S("SHA256")) else None
  {
    ItemSays(r, Pk);
    ItemSays(r, Sk);
    ItemSays(r, EntityType);
    ItemSays(r, ChecksumAlgorithm);
  }

  lemma FilledIsItem(item: Item, r: MetadataRecord)
    requires FilledTo(item, r, 16)
    ensures item == ToItem(r)
  {
    forall a ensures Get(item, a) == Get(ToItem(r), a) {
      ItemSays(r, a);
      assert Rank(a) < 16;
    }
    SameItem(item, ToItem(r));
  }

  lemma SameItem(x: Item, y: Item)
    requires forall a :: Get(x, a) == Get(y, a)
    ensures x == y
  {
    forall a ensures a in x <==> a in y { assert Get(x, a) == Get(y, a); }
    forall a | a in x ensures x[a] == y[a] { assert Get(x, a) == Get(y, a); }
  }

  // --------------------------------------------------------- reading it back

  function TextAt(item: Item, a: Attribute): Option<string> {
    if a in item && item[a].S? then Some(item[a].text) else None
  }

  function NumberAt(item: Item, a: Attribute): Option<int> {
    if a in item && item[a].N? then Some(item[a].number) else None
  }

  function FlagAt(item: Item, a: Attribute): Option<bool> {
    if a in item && item[a].Bool? then Some(item[a].flag) else None
  }

  function TextsAt(item: Item, a: Attribute): seq<string> {
    if a in item && item[a].SS? then item[a].texts else []
  }

  /** The first text that is present and not empty, or else the second. */
  function Or(first: Option<string>, second: Option<string>): Option<string> {
    if Filled(first) then first else second
  }

  function WithoutPrefix(s: string, prefix: string): string {
    if prefix <= s then s[|prefix|..] else s
  }

  /** The required attributes are there and of their types. */
  predicate Readable(item: Item) {
    && TextAt(item, Pk).Some? && TextAt(item, CorrelationId).Some? && NumberAt(item, FileSizeBytes).Some?
    && TextAt(item, BucketName).Some? && TextAt(item, ObjectKey).Some?
    && TextAt(item, Status).Some? && StatusNamed(TextAt(item, Status).value).Some?
    && Filled(Or(TextAt(item, OriginalFilename), TextAt(item, Other("fileName"))))
    && (Ttl in item ==> NumberAt(item, Ttl).Some?)
  }

  /** The record of an item, or None where reading it raises an error.  Older items have
      their file name and checksum under other names. */
  function FromItem(item: Item): Option<MetadataRecord> {
    if !Readable(item) then None
    else Some(MetadataRecord(
      fileId := Or(TextAt(item, FileId), Some(WithoutPrefix(TextAt(item, Pk).value, "FILE#"))).value,
      correlationId := TextAt(item, CorrelationId).value,
      originalFilename := Or(TextAt(item, OriginalFilename), TextAt(item, Other("fileName"))).value,
      fileSizeBytes := NumberAt(item, FileSizeBytes).value,
      mimeType := TextAt(item, MimeType),
      bucketName := TextAt(item, BucketName).value,
      objectKey := TextAt(item, ObjectKey).value,
      status := StatusNamed(TextAt(item, Status).value).value,
      checksumSha256 := Or(TextAt(item, ChecksumSha256), TextAt(item, Other("checksum"))),
      fileHash := TextAt(item, FileHash),
      isEncrypted := FlagAt(item, IsEncrypted).GetOr(true),
      encryptionAlgorithm := TextAt(item, EncryptionAlgorithm).GetOr("AES/GCM/NoPadding"),
      kmsKeyId := TextAt(item, KmsKeyId),
      isSafe := FlagAt(item, IsSafe),
      scanFindings := TextsAt(item, ScanFindings),
      createdAt := TextAt(item, CreatedAt),
      createdBy := TextAt(item, CreatedBy),
      updatedAt := TextAt(item, UpdatedAt),
      processedAt := TextAt(item, ProcessedAt),
      errorMessage := TextAt(item, ErrorMessage),
      errorCode := TextAt(item, ErrorCode),
      retryCount := NumberAt(item, RetryCount).GetOr(0),
      lastProcessedEventId := TextAt(item, LastProcessedEventId),
      ttl := NumberAt(item, Ttl)))
  }

  function NonEmpty(o: Option<string>): Option<string> {
    if Filled(o) then o else None
  }

  /** The record without what an item does not keep: empty texts and a zero time to live. */
  function Normal(r: MetadataRecord): MetadataRecord {
    r.(mimeType := NonEmpty(r.mimeType), checksumSha256 := NonEmpty(r.checksumSha256),
       fileHash := NonEmpty(r.fileHash), kmsKeyId := NonEmpty(r.kmsKeyId), createdAt := NonEmpty(r.createdAt),
       createdBy := NonEmpty(r.createdBy), updatedAt := NonEmpty(r.updatedAt),
       processedAt := NonEmpty(r.processedAt), errorMessage := NonEmpty(r.errorMessage),
       errorCode := NonEmpty(r.errorCode), lastProcessedEventId := NonEmpty(r.lastProcessedEventId),
       ttl := if r.ttl == Some(0) then None else r.ttl)
  }

  lemma StatusRoundTrip(s: ProcessingStatus)
    ensures StatusNamed(StatusName(s)) == Some(s)
  {
    assert |"PENDING"| == 7 && |"UPLOADED"| == 8 && |"SCANNING"| == 8 && |"PROCESSING"| == 10 && |"COMPLETED"| == 9
           && |"FAILED"| == 6 && "UPLOADED"[0] != "SCANNING"[0];
  }

  lemma ReadsKey(r: MetadataRecord)
    ensures var i := ToItem(r);
            && TextAt(i, Pk) == Some("FILE#" + r.fileId) && TextAt(i, FileId) == Some(r.fileId)
            && TextAt(i, CorrelationId) == Some(r.correlationId)
            && TextAt(i, OriginalFilename) == Some(r.originalFilename)
            && TextAt(i, Other("fileName")) == None && TextAt(i, Other("checksum")) == None
  {
  }

  lemma ReadsPlace(r: MetadataRecord)
    ensures var i := ToItem(r);
            && NumberAt(i, FileSizeBytes) == Some(r.fileSizeBytes)
            && TextAt(i, BucketName) == Some(r.bucketName) && TextAt(i, ObjectKey) == Some(r.objectKey)
  {
  }

  lemma ReadsState(r: MetadataRecord)
    ensures var i := ToItem(r);
            && TextAt(i, Status) == Some(StatusName(r.status)) && FlagAt(i, IsEncrypted) == Some(r.isEncrypted)
            && TextAt(i, EncryptionAlgorithm) == Some(r.encryptionAlgorithm)
            && NumberAt(i, RetryCount) == Some(r.retryCount)
  {
  }

  lemma ReadsText(r: MetadataRecord, a: Attribute, text: Option<string>)
    requires AttributeOf(r, a) == Text(text)
    ensures TextAt(ToItem(r), a) == NonEmpty(text)
  {
    ItemSays(r, a);
  }

  lemma ReadsContent(r: MetadataRecord)
    ensures var i := ToItem(r);
            && TextAt(i, MimeType) == NonEmpty(r.mimeType) && TextAt(i, ChecksumSha256) == NonEmpty(r.checksumSha256)
            && TextAt(i, FileHash) == NonEmpty(r.fileHash) && TextAt(i, KmsKeyId) == NonEmpty(r.kmsKeyId)
  {
    ReadsText(r, MimeType, r.mimeType);
    ReadsText(r, ChecksumSha256, r.checksumSha256);
    ReadsText(r, FileHash, r.fileHash);
    ReadsText(r, KmsKeyId, r.kmsKeyId);
  }

  lemma ReadsTimes(r: MetadataRecord)
    ensures var i := ToItem(r);
            && TextAt(i, CreatedAt) == NonEmpty(r.createdAt) && TextAt(i, CreatedBy) == NonEmpty(r.createdBy)
            && TextAt(i, UpdatedAt) == NonEmpty(r.updatedAt) && TextAt(i, ProcessedAt) == NonEmpty(r.processedAt)
  {
    ReadsText(r, CreatedAt, r.createdAt);
    ReadsText(r, CreatedBy, r.createdBy);
    ReadsText(r, UpdatedAt, r.updatedAt);
    ReadsText(r, ProcessedAt, r.processedAt);
  }

  lemma ReadsResults(r: MetadataRecord)
    ensures var i := ToItem(r);
            && TextAt(i, ErrorMessage) == NonEmpty(r.errorMessage) && TextAt(i, ErrorCode) == NonEmpty(r.errorCode)
            && TextAt(i, LastProcessedEventId) == NonEmpty(r.lastProcessedEventId)
  {
    ReadsText(r, ErrorMessage, r.errorMessage);
    ReadsText(r, ErrorCode, r.errorCode);
    ReadsText(r, LastProcessedEventId, r.lastProcessedEventId);
  }

  lemma ReadsOthers(r: MetadataRecord)
    ensures FlagAt(ToItem(r), IsSafe) == r.isSafe && TextsAt(ToItem(r), ScanFindings) == r.scanFindings
    ensures NumberAt(ToItem(r), Ttl) == if r.ttl == Some(0) then None else r.ttl
    ensures Ttl in ToItem(r) ==> NumberAt(ToItem(r), Ttl).Some?
  {
    ItemSays(r, IsSafe);
    ItemSays(r, ScanFindings);
    ItemSays(r, Ttl);
  }

  /** Reading the item of a record gives the record back, but for empty texts and a zero time
      to live; only an item without a file name cannot be read. */
  lemma RecordRoundTrip(r: MetadataRecord)
    ensures FromItem(ToItem(r)) == if r.originalFilename == "" then None else Some(Normal(r))
  {
    StatusRoundTrip(r.status);
    ReadsKey(r);
    ReadsPlace(r);
    ReadsState(r);
    ReadsContent(r);
    ReadsTimes(r);
    ReadsResults(r);
    ReadsOthers(r);
  }

  lemma TextOfNonEmpty(o: Option<string>)
    ensures Text(NonEmpty(o)) == Text(o) && (Filled(NonEmpty(o)) <==> Filled(o))
  {
  }

  lemma NormalSays(r: MetadataRecord, a: Attribute)
    ensures AttributeOf(Normal(r), a) == AttributeOf(r, a)
  {
    match a
    case MimeType => TextOfNonEmpty(r.mimeType);
    case ChecksumSha256 => TextOfNonEmpty(r.checksumSha256);
    case ChecksumAlgorithm => TextOfNonEmpty(r.checksumSha256);
    case FileHash => TextOfNonEmpty(r.fileHash);
    case KmsKeyId => TextOfNonEmpty(r.kmsKeyId);
    case CreatedAt => TextOfNonEmpty(r.createdAt);
    case CreatedBy => TextOfNonEmpty(r.createdBy);
    case UpdatedAt => TextOfNonEmpty(r.updatedAt);
    case ProcessedAt => TextOfNonEmpty(r.processedAt);
    case ErrorMessage => TextOfNonEmpty(r.errorMessage);
    case ErrorCode => TextOfNonEmpty(r.errorCode);
    case LastProcessedEventId => TextOfNonEmpty(r.lastProcessedEventId);
    case _ =>
  }

  lemma NormalItem(r: MetadataRecord)
    ensures ToItem(Normal(r)) == ToItem(r)
  {
    forall a ensures Get(ToItem(Normal(r)), a) == Get(ToItem(r), a) {
      ItemSays(r, a);
      ItemSays(Normal(r), a);
      NormalSays(r, a);
    }
    SameItem(ToItem(Normal(r)), ToItem(r));
  }

  /** Two records that have a file name have the same item exactly if they differ in nothing
      an item keeps. */
  lemma ItemsAlike(r: MetadataRecord, s: MetadataRecord)
    requires r.originalFilename != "" && s.originalFilename != ""
    ensures ToItem(r) == ToItem(s) <==> Normal(r) == Normal(s)
  {
    RecordRoundTrip(r);
    RecordRoundTrip(s);
    NormalItem(r);
    NormalItem(s);
  }
}
