/**
 The shared state of the processors: the metadata table, the outbox table, the
 object store, and a log of every durable change.  Each effect below is one
 atomic call.  What is proved here holds whatever programs the processors run:
 it rests only on the conditions of the calls.
 */
module LeaseStore {
  import opened Options
  import opened Domain

  datatype Status = Pending | Uploaded | Scanning | Processing | Completed | Failed

  /** The metadata row of one file.  `version` is 0 when the attribute is absent. */
  datatype Meta = Meta(
    status: Status,
    last: Option<EventId>,
    token: Option<Token>,
    expires: Option<int>,
    version: nat,
    processing: Option<EventId>,
    hash: Option<string>,
    location: Location,
    message: Option<string>,
    code: Option<string>,
    created: Option<Stamp>)

  /** A granted lease, as the processor that holds it knows it. */
  datatype Claim = Claim(event: EventId, token: Token, version: nat)

  /** What a final save writes; an absent field leaves the attribute as it was. */
  datatype MetaWrite = MetaWrite(
    status: Status,
    last: Option<EventId>,
    hash: Option<string>,
    location: Location,
    message: Option<string>,
    code: Option<string>,
    created: Stamp)

  datatype Entry =
    | Granted(file: FileId, version: nat, token: Token, event: EventId, at: real)
    | Committed(file: FileId, version: nat, event: EventId, write: MetaWrite, inserted: Option<OutputId>)
    | Removed(location: Location, event: EventId)

  /** `past` holds the earlier metadata tables, oldest first. */
  datatype Shared = Shared(
    meta: map<FileId, Meta>,
    past: seq<map<FileId, Meta>>,
    outbox: map<OutputId, Payload>,
    objects: map<Location, Blob>,
    log: seq<Entry>,
    tokens: set<Token>)

  datatype Effect =
    | Nothing
    | Grant(file: FileId, event: EventId, token: Token, at: real, local: real, location: Location, created: Stamp)
    | Commit(file: FileId, claim: Claim, write: MetaWrite, insert: Option<Payload>)
    | Copy(source: Location, target: Location)
    | Remove(location: Location, event: EventId)

  // ---------------------------------------------------------------- row level

  /** The condition of the claiming update.  A missing row has no attributes. */
  predicate CanClaim(row: Option<Meta>, event: EventId, now: int) {
    match row
    case None => true
    case Some(m) =>
      && (m.last.None? || m.last.value != event)
      && (m.token.None? || (m.expires.Some? && m.expires.value <= now))
  }

  /** The row a granted claim leaves behind. */
  function GrantMeta(row: Option<Meta>, event: EventId, token: Token, expires: int,
                     location: Location, created: Stamp): Meta
  {
    match row
    case None =>
      Meta(Processing, None, Some(token), Some(expires), 1, Some(event), None, location, None, None, Some(created))
    case Some(m) =>
      m.(status := Processing, token := Some(token), expires := Some(expires), version := m.version + 1,
         processing := Some(event), message := None, code := None,
         created := Some(m.created.GetOr(created)))
  }

  /** The condition every final save carries. */
  predicate Fenced(row: Option<Meta>, claim: Claim) {
    row.Some? && row.value.token == Some(claim.token)
    && row.value.version == claim.version && row.value.processing == Some(claim.event)
  }

  /** The row a final save leaves behind: attributes overwritten, lease released. */
  function CommitMeta(m: Meta, w: MetaWrite): Meta {
    m.(status := w.status,
       last := if w.last.Some? then w.last else m.last,
       hash := if w.hash.Some? then w.hash else m.hash,
       location := w.location,
       message := if w.message.Some? then w.message else m.message,
       code := if w.code.Some? then w.code else m.code,
       created := Some(m.created.GetOr(w.created)),
       token := None, expires := None, processing := None)
  }

  function Row(sh: Shared, f: FileId): Option<Meta> {
    if f in sh.meta then Some(sh.meta[f]) else None
  }

  // ------------------------------------------------------------------ effects

  function SetRow(sh: Shared, f: FileId, m: Meta): Shared {
    sh.(meta := sh.meta[f := m], past := sh.past + [sh.meta])
  }

  predicate Applicable(sh: Shared, eff: Effect) {
    match eff
    case Nothing => true
    case Grant(f, e, token, at, local, _, _) => CanClaim(Row(sh, f), e, local.Floor)
    case Commit(f, claim, _, insert) =>
      Fenced(Row(sh, f), claim) && (insert.Some? ==> insert.value.id !in sh.outbox)
    case Copy(source, _) => source in sh.objects
    case Remove(_, _) => true
  }

  function Apply(cfg: Config, sh: Shared, eff: Effect): Shared
    requires Applicable(sh, eff)
  {
    match eff
    case Nothing => sh
    case Grant(f, e, token, at, local, location, created) =>
      var m := GrantMeta(Row(sh, f), e, token, local.Floor + cfg.lease, location, created);
      SetRow(sh, f, m).(tokens := sh.tokens + {token}, log := sh.log + [Granted(f, m.version, token, e, at)])
    case Commit(f, claim, w, insert) =>
      SetRow(sh, f, CommitMeta(sh.meta[f], w)).(
        outbox := if insert.Some? then sh.outbox[insert.value.id := insert.value] else sh.outbox,
        log := sh.log + [Committed(f, claim.version, claim.event, w,
                                   if insert.Some? then Some(insert.value.id) else None)])
    case Copy(source, target) =>
      sh.(objects := sh.objects[target := Reencrypted(cfg, sh.objects[source])])
    case Remove(location, e) =>
      sh.(objects := sh.objects - {location}, log := sh.log + [Removed(location, e)])
  }

  // ---------------------------------------------------------- reading the log

  predicate Concerns(x: Entry, f: FileId) {
    !x.Removed? && x.file == f
  }

  /** The latest grant or commit of the file. */
  function Latest(log: seq<Entry>, f: FileId): Option<Entry> {
    if log == [] then None
    else if Concerns(log[|log| - 1], f) then Some(log[|log| - 1])
    else Latest(log[..|log| - 1], f)
  }

  function Version(log: seq<Entry>, f: FileId): nat {
    match Latest(log, f)
    case Some(Granted(_, v, _, _, _)) => v
    case Some(Committed(_, v, _, _, _)) => v
    case _ => 0
  }

  /** The event the latest marking commit of the file names. */
  function LastProcessed(log: seq<Entry>, f: FileId): Option<EventId> {
    if log == [] then None
    else
      var x := log[|log| - 1];
      if x.Committed? && x.file == f && x.write.last.Some? then x.write.last
      else LastProcessed(log[..|log| - 1], f)
  }

  ghost predicate InsertedIn(log: seq<Entry>, id: OutputId) {
    exists j | 0 <= j < |log| :: log[j].Committed? && log[j].inserted == Some(id)
  }

  /** Some commit finished event `e` and named location `at`. */
  ghost predicate CompletedIn(log: seq<Entry>, e: EventId, at: Location) {
    exists j | 0 <= j < |log| ::
      log[j].Committed? && log[j].event == e && log[j].write.status == Completed && log[j].write.location == at
  }

  /** What the entry after `before` must satisfy. */
  ghost predicate EntryOk(cfg: Config, before: seq<Entry>, x: Entry) {
    match x
    case Granted(f, v, token, e, at) =>
      && v == Version(before, f) + 1
      && LastProcessed(before, f) != Some(e)
      && (forall j | 0 <= j < |before| && before[j].Granted? :: before[j].token != token)
      && (var l := Latest(before, f);
          l.Some? && l.value.Granted? ==> at - l.value.at > cfg.lease as real - 1.0 - 2.0 * cfg.skew)
    case Committed(f, v, e, w, inserted) =>
      && (var l := Latest(before, f);
          l.Some? && l.value.Granted? && l.value.version == v && l.value.event == e)
      && (w.status == Completed || w.status == Failed)
      && (inserted.Some? ==> !InsertedIn(before, inserted.value))
    case Removed(location, e) =>
      e in cfg.inputs && cfg.inputs[e].location == location
      && CompletedIn(before, e, Quarantine(cfg, cfg.inputs[e]))
  }

  ghost predicate LogOk(cfg: Config, log: seq<Entry>) {
    forall j {:trigger EntryOk(cfg, log[..j], log[j])} | 0 <= j < |log| :: EntryOk(cfg, log[..j], log[j])
  }

  /** The row says what the log says. */
  ghost predicate RowAgrees(cfg: Config, log: seq<Entry>, f: FileId, m: Meta) {
    && m.last == LastProcessed(log, f)
    && m.version == Version(log, f)
    && (m.status == Completed ==> m.message.None? && m.code.None?)
    && (m.status == Processing <==> m.token.Some?)
    && (var l := Latest(log, f);
        if m.token.Some? then
          && l.Some? && l.value.Granted? && l.value.token == m.token.value
          && m.processing == Some(l.value.event)
          && m.message.None? && m.code.None?
          && m.expires.Some?
          && m.expires.value as real > l.value.at - cfg.skew + cfg.lease as real - 1.0
          && m.expires.value as real <= l.value.at + cfg.skew + cfg.lease as real
        else
          && m.expires.None? && m.processing.None?
          && (l.Some? ==> l.value.Committed? && m.status == l.value.write.status))
  }

  ghost predicate Consistent(cfg: Config, sh: Shared) {
    && LogOk(cfg, sh.log)
    && (forall f | f in sh.meta :: RowAgrees(cfg, sh.log, f, sh.meta[f]))
    && (forall f | f !in sh.meta :: Latest(sh.log, f).None? && LastProcessed(sh.log, f).None?)
    && (forall j | 0 <= j < |sh.log| && sh.log[j].Granted? :: sh.log[j].token in sh.tokens)
    && (forall j | 0 <= j < |sh.log| && sh.log[j].Committed? && sh.log[j].inserted.Some? ::
          sh.log[j].inserted.value in sh.outbox)
  }

  /** What the programs owe besides the conditions the tables check themselves. */
  ghost predicate Admissible(cfg: Config, sh: Shared, eff: Effect) {
    && Applicable(sh, eff)
    && match eff
       case Grant(_, _, token, at, local, _, _) =>
         token !in sh.tokens && at - cfg.skew <= local <= at + cfg.skew
       case Commit(_, _, w, _) =>
         (w.status == Completed && w.message.None? && w.code.None?) || w.status == Failed
       case Remove(location, e) =>
         e in cfg.inputs && cfg.inputs[e].location == location
         && CompletedIn(sh.log, e, Quarantine(cfg, cfg.inputs[e]))
       case _ => true
  }

  // ------------------------------------------------------------------- lemmas

  lemma Append(log: seq<Entry>, x: Entry, f: FileId)
    ensures Latest(log + [x], f) == if Concerns(x, f) then Some(x) else Latest(log, f)
    ensures LastProcessed(log + [x], f) ==
            if x.Committed? && x.file == f && x.write.last.Some? then x.write.last else LastProcessed(log, f)
  {
    assert (log + [x])[..|log|] == log;
  }

  lemma AppendOk(cfg: Config, log: seq<Entry>, x: Entry)
    requires LogOk(cfg, log) && EntryOk(cfg, log, x)
    ensures LogOk(cfg, log + [x])
  {
    forall j | 0 <= j < |log| + 1 ensures EntryOk(cfg, (log + [x])[..j], (log + [x])[j]) {
      if j < |log| {
        assert (log + [x])[..j] == log[..j];
      } else {
        assert (log + [x])[..j] == log;
      }
    }
  }

  lemma {:induction false} LatestConcerns(log: seq<Entry>, f: FileId)
    ensures Latest(log, f).Some? ==> Concerns(Latest(log, f).value, f) && Latest(log, f).value in log
  {
    if log != [] && !Concerns(log[|log| - 1], f) {
      LatestConcerns(log[..|log| - 1], f);
    }
  }

  /** Granting keeps the tables and the log in agreement. */
  lemma GrantConsistent(cfg: Config, sh: Shared, eff: Effect)
    requires Consistent(cfg, sh) && Admissible(cfg, sh, eff) && eff.Grant?
    ensures Consistent(cfg, Apply(cfg, sh, eff))
  {
    var f := eff.file;
    var sh' := Apply(cfg, sh, eff);
    var x := sh'.log[|sh.log|];
    LatestConcerns(sh.log, f);
    assert EntryOk(cfg, sh.log, x);
    AppendOk(cfg, sh.log, x);
    forall g ensures Latest(sh'.log, g) == (if g == f then Some(x) else Latest(sh.log, g))
                  && LastProcessed(sh'.log, g) == LastProcessed(sh.log, g)
    {
      Append(sh.log, x, g);
    }
  }

  /** A fenced final save keeps the tables and the log in agreement. */
  lemma CommitConsistent(cfg: Config, sh: Shared, eff: Effect)
    requires Consistent(cfg, sh) && Admissible(cfg, sh, eff) && eff.Commit?
    ensures Consistent(cfg, Apply(cfg, sh, eff))
  {
    var f := eff.file;
    var sh' := Apply(cfg, sh, eff);
    var x := sh'.log[|sh.log|];
    assert EntryOk(cfg, sh.log, x);
    AppendOk(cfg, sh.log, x);
    forall g ensures Latest(sh'.log, g) == (if g == f then Some(x) else Latest(sh.log, g))
                  && (g != f ==> LastProcessed(sh'.log, g) == LastProcessed(sh.log, g))
                  && (g == f ==> LastProcessed(sh'.log, g) ==
                                 if eff.write.last.Some? then eff.write.last else LastProcessed(sh.log, g))
    {
      Append(sh.log, x, g);
    }
  }

  lemma RemoveConsistent(cfg: Config, sh: Shared, eff: Effect)
    requires Consistent(cfg, sh) && Admissible(cfg, sh, eff) && eff.Remove?
    ensures Consistent(cfg, Apply(cfg, sh, eff))
  {
    var sh' := Apply(cfg, sh, eff);
    var x := sh'.log[|sh.log|];
    AppendOk(cfg, sh.log, x);
    forall g ensures Latest(sh'.log, g) == Latest(sh.log, g)
                  && LastProcessed(sh'.log, g) == LastProcessed(sh.log, g)
    {
      Append(sh.log, x, g);
    }
  }

  /** Every admissible call keeps the tables and the log in agreement. */
  lemma EffectConsistent(cfg: Config, sh: Shared, eff: Effect)
    requires Consistent(cfg, sh) && Admissible(cfg, sh, eff)
    ensures Consistent(cfg, Apply(cfg, sh, eff))
  {
    match eff
    case Nothing =>
    case Grant(_, _, _, _, _, _, _) => GrantConsistent(cfg, sh, eff);
    case Commit(_, _, _, _) => CommitConsistent(cfg, sh, eff);
    case Copy(_, _) =>
    case Remove(_, _) => RemoveConsistent(cfg, sh, eff);
  }
}
