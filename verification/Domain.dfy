/**
 The values that flow through the processor: input events, stored objects,
 output events, and the checks an uploaded object has to pass.

 An output event id is the name-based UUID of an occurrence string.  Under an
 injective name-based id it is determined by what the occurrence string says, so
 here the id *is* that content; module OutputIds proves that the strings are
 told apart exactly when the contents are.
 */
module Domain {
  import opened Options

  type EventId = string
  type FileId = string
  type Token = nat
  type Stamp = nat
  type Byte = x: int | 0 <= x < 256

  datatype Location = Location(bucket: string, key: string)

  datatype EventKind = FileUploaded | FileScanned | AnalysisCompleted | ProcessingFailed

  datatype InputEvent = InputEvent(
    file: FileId,
    kind: EventKind,
    location: Location,
    region: Option<string>,
    size: nat,
    checksum: string,
    kmsKey: string)

  /** A stored object.  `declared` is the length the store reports; 0 means none. */
  datatype Blob = Blob(data: seq<Byte>, declared: nat, encryption: Option<string>, kmsKey: Option<string>)

  /** Settings, the input events that exist, the objects uploaded before them,
      and the digest function, which stays uninterpreted.  `defaultKey` is the key that
      copies are encrypted under, as the store reports it. */
  datatype Config = Config(
    allowedBucket: string,
    allowedRegion: string,
    maxSize: nat,
    prefix: string,
    defaultKey: string,
    lease: int,
    skew: real,
    digest: seq<Byte> -> string,
    inputs: map<EventId, InputEvent>,
    uploads: map<Location, Blob>)

  datatype OutputId =
    | Completion(input: EventId)
    | Failure(input: EventId, version: nat, code: string, retryable: bool)

  datatype Body =
    | Analysis(safe: bool, hash: string)
    | Diagnostics(code: string, message: string, retryable: bool)

  /** The canonical event stored in an outbox row; `stamp` stands for its timestamps. */
  datatype Payload = Payload(id: OutputId, file: FileId, location: Location, body: Body, stamp: Stamp)

  predicate Actionable(e: InputEvent) {
    e.kind == FileUploaded || e.kind == FileScanned
  }

  function Length(b: Blob): nat {
    if b.declared != 0 then b.declared else |b.data|
  }

  /** The header policy: empty, PE and ELF contents are denied. */
  predicate Denied(data: seq<Byte>) {
    || data == []
    || (2 <= |data| && data[..2] == [0x4D, 0x5A])
    || (4 <= |data| && data[..4] == [0x7F, 0x45, 0x4C, 0x46])
  }

  /** Checks made on the event alone; the value is the rejection code. */
  function PreCheck(cfg: Config, e: InputEvent): Option<string> {
    if cfg.allowedBucket != "" && e.location.bucket != cfg.allowedBucket then Some("UNTRUSTED_BUCKET")
    else if cfg.allowedRegion != "" && e.region != Some(cfg.allowedRegion) then Some("UNTRUSTED_REGION")
    else if e.size > cfg.maxSize then Some("DECLARED_FILE_TOO_LARGE")
    else None
  }

  /** Checks made on the downloaded object, in the order they are made. */
  function PostCheck(cfg: Config, e: InputEvent, b: Blob): Option<string> {
    if b.declared > cfg.maxSize || |b.data| > cfg.maxSize then Some("ACTUAL_FILE_TOO_LARGE")
    else if Length(b) != |b.data| then Some("S3_LENGTH_MISMATCH")
    else if |b.data| != e.size then Some("FILE_SIZE_MISMATCH")
    else if b.encryption != Some("aws:kms") then Some("INVALID_S3_ENCRYPTION")
    else if b.kmsKey != Some(e.kmsKey) then Some("KMS_KEY_MISMATCH")
    else if cfg.digest(b.data) != e.checksum then Some("CHECKSUM_MISMATCH")
    else None
  }

  /** Where an unsafe object of this event is copied to. */
  function Quarantine(cfg: Config, e: InputEvent): Location {
    Location(e.location.bucket, cfg.prefix + "/" + e.file + "/" + e.checksum)
  }

  /** A copy has the content of its source and is encrypted under the default key. */
  function Reencrypted(cfg: Config, b: Blob): Blob {
    b.(encryption := Some("aws:kms"), kmsKey := Some(cfg.defaultKey))
  }

  /** The event passes every check when its object is `b`. */
  predicate Accepts(cfg: Config, e: InputEvent, b: Blob) {
    PreCheck(cfg, e).None? && PostCheck(cfg, e, b).None?
  }

  /** The upload passes every check on the object that was uploaded for it. */
  predicate Processable(cfg: Config, e: InputEvent) {
    e.kind == FileUploaded && e.location in cfg.uploads && Accepts(cfg, e, cfg.uploads[e.location])
  }

  /** The upload is processed, and its content is denied: it will be quarantined. */
  predicate Condemned(cfg: Config, e: InputEvent) {
    Processable(cfg, e) && Denied(cfg.uploads[e.location].data)
  }

  /** Upload event `i` reads from the place where condemned upload `j` is quarantined. */
  predicate ReadsFrom(cfg: Config, i: EventId, j: EventId) {
    && i in cfg.inputs && cfg.inputs[i].kind == FileUploaded
    && j in cfg.inputs && Condemned(cfg, cfg.inputs[j])
    && cfg.inputs[i].location == Quarantine(cfg, cfg.inputs[j])
  }

  /** Each reads from where the other is quarantined, for one and the same file. */
  predicate Mutual(cfg: Config, a: InputEvent, b: InputEvent) {
    && a.file == b.file && a.location != b.location
    && a.location == Quarantine(cfg, b) && b.location == Quarantine(cfg, a)
  }

  /** The upload event reads from this place and accepts a copy of what was uploaded to `source`. */
  predicate AcceptsCopy(cfg: Config, i: EventId, at: Location, source: Location) {
    && i in cfg.inputs && cfg.inputs[i].kind == FileUploaded && cfg.inputs[i].location == at
    && source in cfg.uploads && Accepts(cfg, cfg.inputs[i], Reencrypted(cfg, cfg.uploads[source]))
  }

  /**
   Uploads and quarantine places are apart.  No upload event accepts the copy of a
   condemned upload that it finds in the quarantine place it reads from; and a condemned
   upload reads from where another is quarantined only if the two do so to each other, for
   one file, and no upload event would accept a copy that comes back.
   */
  ghost predicate Separated(cfg: Config) {
    && (forall i, j | ReadsFrom(cfg, i, j) ::
          !AcceptsCopy(cfg, i, cfg.inputs[i].location, cfg.inputs[j].location))
    && (forall i, j | ReadsFrom(cfg, i, j) && Condemned(cfg, cfg.inputs[i]) ::
          && Mutual(cfg, cfg.inputs[i], cfg.inputs[j])
          && forall k :: !AcceptsCopy(cfg, k, cfg.inputs[i].location, cfg.inputs[i].location))
  }
}
