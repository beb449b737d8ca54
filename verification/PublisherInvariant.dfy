/** What every step of the publisher keeps, and what follows for every run. */
module PublisherInvariant {
  import opened Options
  import opened Domain
  import opened OutboxRows
  import opened PublisherRuns

  ghost predicate InsertedAs(log: seq<Entry>, id: OutputId, p: Payload) {
    exists j | 0 <= j < |log| :: log[j] == Inserted(id, p)
  }

  /** What the entry after `before` must satisfy. */
  ghost predicate EntryOk(cfg: PublisherConfig, before: seq<Entry>, x: Entry) {
    var l := Latest(before, x.id);
    match x
    case Inserted(id, p) => p.id == id && (forall j | 0 <= j < |before| :: before[j].id != id)
    case Granted(id, token, at, takeover) =>
      && (forall j | 0 <= j < |before| && before[j].Granted? :: before[j].token != token)
      && (l.Some? ==> !l.value.Committed?)
      && (takeover <==> l.Some? && l.value.Granted?)
      && (takeover ==> at - l.value.at > cfg.claimTtl as real - 2.0 * cfg.skew)
    case Sent(id, token, p, topic) =>
      topic != "" && topic == TopicOf(cfg, KindOf(p)) &&
      token in GrantedTokens(before, id) && token !in SentTokens(before, id) && InsertedAs(before, id, p)
    case Committed(id, token) =>
      l.Some? && l.value.Granted? && l.value.token == token && token in SentTokens(before, id)
    case GaveUp(id, token) => l.Some? && l.value.Granted? && l.value.token == token
  }

  ghost predicate LogOk(cfg: PublisherConfig, log: seq<Entry>) {
    forall j {:trigger EntryOk(cfg, log[..j], log[j])} | 0 <= j < |log| :: EntryOk(cfg, log[..j], log[j])
  }

  /** Only a published row may expire, and an error is on the row since its first failure. */
  predicate Tidy(r: OutboxRow) {
    && (r.ttl.Some? <==> r.status == Published)
    && (r.lastError.Some? <==> r.retries.GetOr(0) > 0)
    && (r.lastError.Some? ==> |r.lastError.value| <= 2000)
  }

  /** The row's own fields, and what the log says it went through last. */
  ghost predicate RowOk(cfg: PublisherConfig, log: seq<Entry>, id: OutputId, r: OutboxRow) {
    var l := Latest(log, id);
    && r.id == id && InsertedAs(log, id, r.payload)
    && r.shard == ShardOf(cfg, r.payload.file) && r.index == IndexKey(r.status, r.shard)
    && r.retries.Some? && r.retries.value <= cfg.maxRetries
    && (r.status == Publishing <==> r.token.Some?) && (r.status == Publishing <==> r.expires.Some?)
    && Tidy(r)
    && match r.status
       case Pending => l.None? && r.retries == Some(0)
       case Publishing =>
         && r.retries.value < cfg.maxRetries
         && l.Some? && l.value.Granted? && l.value.token == r.token.value
         && r.expires.value as real > l.value.at - cfg.skew - 1.0 + cfg.claimTtl as real
         && r.expires.value as real <= l.value.at + cfg.skew + cfg.claimTtl as real
       case Published => l.Some? && l.value.Committed?
       case Failed => l.Some? && l.value.GaveUp?
  }

  /** The books of a row: every lease ended in a failure or a takeover, except one. */
  ghost predicate Balanced(log: seq<Entry>, id: OutputId, r: OutboxRow) {
    Booked(log, id, r) && Tokened(log, id)
  }

  ghost predicate Booked(log: seq<Entry>, id: OutputId, r: OutboxRow) {
    && Count(log, id, Grants) == Count(log, id, Failures) + Count(log, id, Takeovers)
                                 + (if r.status == Publishing || r.status == Published then 1 else 0)
    && r.retries == Some(Count(log, id, Failures))
  }

  /** Every lease has its own token, and sends the row at most once. */
  ghost predicate Tokened(log: seq<Entry>, id: OutputId) {
    && Count(log, id, Grants) == |GrantedTokens(log, id)|
    && Count(log, id, Sends) == |SentTokens(log, id)|
    && SentTokens(log, id) <= GrantedTokens(log, id)
  }

  ghost predicate RowsOk(cfg: PublisherConfig, sh: Shared) {
    forall id | id in sh.rows :: RowOk(cfg, sh.log, id, sh.rows[id])
  }

  ghost predicate BooksOk(sh: Shared) {
    forall id | id in sh.rows :: Balanced(sh.log, id, sh.rows[id])
  }

  /** The log speaks only of rows that exist and of tokens that were given out. */
  ghost predicate LogKnown(sh: Shared) {
    forall j | 0 <= j < |sh.log| ::
      sh.log[j].id in sh.rows && (sh.log[j].Granted? || sh.log[j].Sent? ==> sh.log[j].token in sh.tokens)
  }

  /** The live value of every row is among the values rows have had. */
  ghost predicate Imaged(sh: Shared) {
    forall id | id in sh.rows :: sh.rows[id].id == id && sh.rows[id] in sh.images
  }

  /** However old an image is, the payload and the shard in it are the row's. */
  ghost predicate ImagesOk(sh: Shared) {
    && (forall r | r in sh.images ::
          r.id in sh.rows && r.payload == sh.rows[r.id].payload && r.shard == sh.rows[r.id].shard
          && r.kind == KindOf(r.payload))
    && Imaged(sh)
  }

  ghost predicate TablesOk(cfg: PublisherConfig, sh: Shared) {
    LogOk(cfg, sh.log) && RowsOk(cfg, sh) && BooksOk(sh) && LogKnown(sh) && ImagesOk(sh)
  }

  function TokenOf(pc: Pc): Option<Token> {
    match pc
    case Claimed(t) => Some(t)
    case Delivered(t) => Some(t)
    case Failing(t) => Some(t)
    case _ => None
  }

  ghost predicate WorkerOk(sh: Shared, wk: Worker) {
    var id := wk.image.id;
    && wk.image in sh.images
    && match wk.pc
       case Starting => true
       case Claimed(t) => t in sh.tokens && t in GrantedTokens(sh.log, id) && t !in SentTokens(sh.log, id)
       case Delivered(t) => t in sh.tokens && t in SentTokens(sh.log, id)
       case Failing(t) => t in sh.tokens
       case Ended(result) => result != Raised ==> LivePublished(sh, id)
  }

  /** No two workers hold the same token. */
  ghost predicate Distinct(sys: System) {
    forall v, w | v in sys.workers && w in sys.workers && v != w
                  && TokenOf(sys.workers[v].pc).Some? && TokenOf(sys.workers[w].pc).Some? ::
      TokenOf(sys.workers[v].pc) != TokenOf(sys.workers[w].pc)
  }

  ghost predicate WorkersOk(sys: System) {
    forall w | w in sys.workers :: WorkerOk(sys.sh, sys.workers[w])
  }

  ghost predicate Inv(cfg: PublisherConfig, sys: System) {
    && TablesOk(cfg, sys.sh)
    && WorkersOk(sys)
    && Distinct(sys)
  }

  /** What a worker owes besides the conditions the table checks. */
  ghost predicate Admissible(cfg: PublisherConfig, sh: Shared, eff: Effect) {
    && Applicable(cfg, sh, eff)
    && match eff
       case Nothing => true
       case Insert(row) => exists created :: row == NewRow(cfg, row.payload, created)
       case Grant(id, shard, token, at, local) =>
         id in sh.rows && shard == sh.rows[id].shard
         && token !in sh.tokens && at - cfg.skew <= local <= at + cfg.skew
       case Send(id, token, p, topic) =>
         topic != "" && topic == TopicOf(cfg, KindOf(p)) &&
         id in sh.rows && p == sh.rows[id].payload && token in sh.tokens
         && token in GrantedTokens(sh.log, id) && token !in SentTokens(sh.log, id)
       case Publish(id, shard, token, _) =>
         id in sh.rows && shard == sh.rows[id].shard && token in SentTokens(sh.log, id)
       case Fail(id, shard, _, _) => id in sh.rows && shard == sh.rows[id].shard
  }

  // ------------------------------------------------------------------- effects

  /** The entry an effect adds. */
  function Added(sh: Shared, eff: Effect): Option<Entry> {
    match eff
    case Nothing => None
    case Insert(row) => Some(Inserted(row.id, row.payload))
    case Grant(id, _, token, at, _) => Some(Granted(id, token, at, id in sh.rows && sh.rows[id].status == Publishing))
    case Send(id, token, p, topic) => Some(Sent(id, token, p, topic))
    case Publish(id, _, token, _) => Some(Committed(id, token))
    case Fail(id, _, token, _) => Some(GaveUp(id, token))
  }

  lemma AddedOk(cfg: PublisherConfig, sh: Shared, eff: Effect)
    requires RowsOk(cfg, sh) && LogKnown(sh) && Admissible(cfg, sh, eff) && !eff.Nothing?
    ensures EntryOk(cfg, sh.log, Added(sh, eff).value)
  {
    if !eff.Insert? {
      assert RowOk(cfg, sh.log, eff.id, sh.rows[eff.id]);
      UpdateOk(cfg, sh, eff);
    }
  }

  lemma UpdateOk(cfg: PublisherConfig, sh: Shared, eff: Effect)
    requires LogKnown(sh) && Admissible(cfg, sh, eff) && !eff.Nothing? && !eff.Insert?
    requires RowOk(cfg, sh.log, eff.id, sh.rows[eff.id])
    ensures EntryOk(cfg, sh.log, Added(sh, eff).value)
  {
  }

  lemma AppendOk(cfg: PublisherConfig, log: seq<Entry>, x: Entry)
    requires LogOk(cfg, log) && EntryOk(cfg, log, x)
    ensures LogOk(cfg, log + [x])
  {
    forall j | 0 <= j < |log| + 1 ensures EntryOk(cfg, (log + [x])[..j], (log + [x])[j]) {
      if j < |log| {
        assert (log + [x])[..j] == log[..j];
      } else {
        assert (log + [x])[..j] == log;
      }
    }
  }

  lemma InsertedStays(log: seq<Entry>, x: Entry, id: OutputId, p: Payload)
    requires InsertedAs(log, id, p)
    ensures InsertedAs(log + [x], id, p)
  {
    var j :| 0 <= j < |log| && log[j] == Inserted(id, p);
    assert (log + [x])[j] == Inserted(id, p);
  }

  lemma {:induction false} NothingYet(log: seq<Entry>, id: OutputId)
    requires forall j | 0 <= j < |log| :: log[j].id != id
    ensures Latest(log, id).None? && forall what :: Count(log, id, what) == 0
    ensures SentTokens(log, id) == {} && GrantedTokens(log, id) == {}
  {
    if log != [] {
      NothingYet(log[..|log| - 1], id);
    }
  }

  /** The effect leaves the row of `id` and the entries about it alone. */
  lemma RowUntouched(cfg: PublisherConfig, sh: Shared, eff: Effect, id: OutputId)
    requires Applicable(cfg, sh, eff) && !eff.Nothing? && Added(sh, eff).value.id != id
    requires id in sh.rows && RowOk(cfg, sh.log, id, sh.rows[id])
    ensures var sh' := Apply(cfg, sh, eff);
            id in sh'.rows && sh'.rows[id] == sh.rows[id] && RowOk(cfg, sh'.log, id, sh'.rows[id])
  {
    var x := Added(sh, eff).value;
    assert Apply(cfg, sh, eff).log == sh.log + [x];
    AppendLatest(sh.log, x, id);
    InsertedStays(sh.log, x, id, sh.rows[id].payload);
  }

  lemma RowInserted(cfg: PublisherConfig, sh: Shared, eff: Effect)
    requires Admissible(cfg, sh, eff) && eff.Insert? && LogKnown(sh)
    ensures RowOk(cfg, Apply(cfg, sh, eff).log, eff.row.id, Apply(cfg, sh, eff).rows[eff.row.id])
  {
    var x := Added(sh, eff).value;
    assert Apply(cfg, sh, eff).log == sh.log + [x];
    NothingYet(sh.log, eff.row.id);
    AppendLatest(sh.log, x, eff.row.id);
    assert (sh.log + [x])[|sh.log|] == x;
  }

  lemma RowUpdated(cfg: PublisherConfig, sh: Shared, eff: Effect)
    requires Admissible(cfg, sh, eff) && !eff.Insert? && !eff.Nothing?
    requires RowOk(cfg, sh.log, eff.id, sh.rows[eff.id])
    ensures RowOk(cfg, Apply(cfg, sh, eff).log, eff.id, Apply(cfg, sh, eff).rows[eff.id])
  {
    var x := Added(sh, eff).value;
    assert Apply(cfg, sh, eff).log == sh.log + [x];
    AppendLatest(sh.log, x, eff.id);
    InsertedStays(sh.log, x, eff.id, sh.rows[eff.id].payload);
  }

  lemma EffectRows(cfg: PublisherConfig, sh: Shared, eff: Effect)
    requires RowsOk(cfg, sh) && LogKnown(sh) && Admissible(cfg, sh, eff) && !eff.Nothing?
    ensures RowsOk(cfg, Apply(cfg, sh, eff))
  {
    var sh' := Apply(cfg, sh, eff);
    var own := Added(sh, eff).value.id;
    forall id | id in sh'.rows ensures RowOk(cfg, sh'.log, id, sh'.rows[id]) {
      if id != own {
        assert RowOk(cfg, sh.log, id, sh.rows[id]);
        RowUntouched(cfg, sh, eff, id);
      } else if eff.Insert? {
        RowInserted(cfg, sh, eff);
      } else {
        assert RowOk(cfg, sh.log, id, sh.rows[id]);
        RowUpdated(cfg, sh, eff);
      }
    }
  }

  lemma BalanceStarts(sh: Shared, r: OutboxRow)
    requires forall j | 0 <= j < |sh.log| :: sh.log[j].id != r.id
    requires r.status == Pending && r.retries == Some(0)
    ensures Balanced(sh.log + [Inserted(r.id, r.payload)], r.id, r)
  {
    NothingYet(sh.log, r.id);
    var x := Inserted(r.id, r.payload);
    Append(sh.log, x, r.id, Grants);
    Append(sh.log, x, r.id, Takeovers);
    Append(sh.log, x, r.id, Failures);
    Append(sh.log, x, r.id, Sends);
    AppendTokens(sh.log, x, r.id);
  }

  lemma BalanceStays(log: seq<Entry>, x: Entry, id: OutputId, r: OutboxRow, r': OutboxRow)
    requires x.id == id ==> !x.Inserted?
    requires Balanced(log, id, r)
    requires x.id != id || x.Sent? ==> r' == r
    requires x.id == id && x.Granted? ==>
               x.token !in GrantedTokens(log, id) && (x.takeover <==> r.status == Publishing)
               && r.status != Published && r'.status == Publishing && r'.retries == r.retries
    requires x.id == id && x.Sent? ==> x.token in GrantedTokens(log, id) && x.token !in SentTokens(log, id)
    requires x.id == id && x.Committed? ==> r.status == Publishing && r'.status == Published && r'.retries == r.retries
    requires x.id == id && x.GaveUp? ==>
               r.status == Publishing && r'.status == Failed && r'.retries == Some(r.retries.value + 1)
    ensures Balanced(log + [x], id, r')
  {
    BalancedTokens(log, x, id);
    BooksStay(log, x, id, r, r');
  }

  lemma BooksStay(log: seq<Entry>, x: Entry, id: OutputId, r: OutboxRow, r': OutboxRow)
    requires Booked(log, id, r)
    requires x.id != id || x.Sent? || x.Inserted? ==> r' == r
    requires x.id == id && x.Granted? ==>
               (x.takeover <==> r.status == Publishing) && r.status != Published
               && r'.status == Publishing && r'.retries == r.retries
    requires x.id == id && x.Committed? ==> r.status == Publishing && r'.status == Published && r'.retries == r.retries
    requires x.id == id && x.GaveUp? ==>
               r.status == Publishing && r'.status == Failed && r'.retries == Some(r.retries.value + 1)
    ensures Booked(log + [x], id, r')
  {
    Append(log, x, id, Grants);
    Append(log, x, id, Takeovers);
    Append(log, x, id, Failures);
  }

  /** Leases and sends are counted by their tokens. */
  lemma BalancedTokens(log: seq<Entry>, x: Entry, id: OutputId)
    requires Tokened(log, id)
    requires x.id == id && x.Granted? ==> x.token !in GrantedTokens(log, id)
    requires x.id == id && x.Sent? ==> x.token in GrantedTokens(log, id) && x.token !in SentTokens(log, id)
    ensures Tokened(log + [x], id)
  {
    Append(log, x, id, Grants);
    Append(log, x, id, Sends);
    AppendTokens(log, x, id);
  }

  lemma FreshToken(sh: Shared, id: OutputId, t: Token)
    requires LogKnown(sh) && t !in sh.tokens
    ensures t !in GrantedTokens(sh.log, id) && t !in SentTokens(sh.log, id)
  {
    TokenEntries(sh.log, id, t);
  }

  lemma RowBalance(cfg: PublisherConfig, sh: Shared, eff: Effect, id: OutputId)
    requires LogKnown(sh) && Admissible(cfg, sh, eff) && !eff.Nothing? && !eff.Insert?
    requires id in sh.rows && Balanced(sh.log, id, sh.rows[id])
    ensures Balanced(Apply(cfg, sh, eff).log, id, Apply(cfg, sh, eff).rows[id])
  {
    var x := Added(sh, eff).value;
    if x.Granted? { FreshToken(sh, id, x.token); }
    BalanceStays(sh.log, x, id, sh.rows[id], Apply(cfg, sh, eff).rows[id]);
  }

  lemma InsertBalance(cfg: PublisherConfig, sh: Shared, eff: Effect, id: OutputId)
    requires LogKnown(sh) && BooksOk(sh) && Admissible(cfg, sh, eff) && eff.Insert?
    requires id in Apply(cfg, sh, eff).rows
    ensures Balanced(Apply(cfg, sh, eff).log, id, Apply(cfg, sh, eff).rows[id])
  {
    if id == eff.row.id {
      BalanceStarts(sh, eff.row);
    } else {
      assert Balanced(sh.log, id, sh.rows[id]);
      BalanceStays(sh.log, Added(sh, eff).value, id, sh.rows[id], sh.rows[id]);
    }
  }

  lemma EffectBooks(cfg: PublisherConfig, sh: Shared, eff: Effect)
    requires BooksOk(sh) && LogKnown(sh) && Admissible(cfg, sh, eff) && !eff.Nothing?
    ensures BooksOk(Apply(cfg, sh, eff))
  {
    forall id | id in Apply(cfg, sh, eff).rows
      ensures Balanced(Apply(cfg, sh, eff).log, id, Apply(cfg, sh, eff).rows[id])
    {
      if eff.Insert? {
        InsertBalance(cfg, sh, eff, id);
      } else {
        assert Balanced(sh.log, id, sh.rows[id]);
        RowBalance(cfg, sh, eff, id);
      }
    }
  }

  lemma EffectTables(cfg: PublisherConfig, sh: Shared, eff: Effect)
    requires TablesOk(cfg, sh) && Admissible(cfg, sh, eff)
    ensures TablesOk(cfg, Apply(cfg, sh, eff))
  {
    if !eff.Nothing? {
      AddedOk(cfg, sh, eff);
      AppendOk(cfg, sh.log, Added(sh, eff).value);
      EffectRows(cfg, sh, eff);
      EffectBooks(cfg, sh, eff);
      EffectRest(cfg, sh, eff);
    }
  }

  lemma EffectRest(cfg: PublisherConfig, sh: Shared, eff: Effect)
    requires LogKnown(sh) && ImagesOk(sh) && Admissible(cfg, sh, eff)
    ensures LogKnown(Apply(cfg, sh, eff)) && ImagesOk(Apply(cfg, sh, eff))
  {
  }

  // ------------------------------------------------------------------- workers

  lemma TurnAdmissible(cfg: PublisherConfig, sh: Shared, wk: Worker, act: Act)
    requires ImagesOk(sh) && WorkerOk(sh, wk) && World(cfg, sh, act)
    requires TurnOf(cfg, sh, wk, act).Some? && Applicable(cfg, sh, TurnOf(cfg, sh, wk, act).value.effect)
    ensures Admissible(cfg, sh, TurnOf(cfg, sh, wk, act).value.effect)
  {
  }

  /** What stays when others move. */
  ghost predicate Later(sh: Shared, sh': Shared) {
    && sh.images <= sh'.images && sh.tokens <= sh'.tokens
    && |sh.log| <= |sh'.log| && sh'.log[..|sh.log|] == sh.log
    && (forall id | id in sh.rows :: id in sh'.rows)
    && (forall id | id in sh.rows && sh.rows[id].status == Published :: sh'.rows[id] == sh.rows[id])
  }

  lemma EffectLater(cfg: PublisherConfig, sh: Shared, eff: Effect)
    requires Applicable(cfg, sh, eff)
    ensures Later(sh, Apply(cfg, sh, eff))
  {
  }

  /** What a worker knows survives an entry that is not its own send. */
  lemma WorkerCarries(sh: Shared, sh': Shared, wk: Worker, x: Entry)
    requires WorkerOk(sh, wk) && Later(sh, sh') && sh'.log == sh.log + [x]
    requires x.Sent? ==> TokenOf(wk.pc) != Some(x.token)
    ensures WorkerOk(sh', wk)
  {
    AppendTokens(sh.log, x, wk.image.id);
  }

  lemma OtherWorkerOk(cfg: PublisherConfig, sh: Shared, eff: Effect, wk: Worker)
    requires Applicable(cfg, sh, eff) && WorkerOk(sh, wk)
    requires eff.Send? ==> TokenOf(wk.pc) != Some(eff.token)
    ensures WorkerOk(Apply(cfg, sh, eff), wk)
  {
    if !eff.Nothing? {
      EffectLater(cfg, sh, eff);
      WorkerCarries(sh, Apply(cfg, sh, eff), wk, Added(sh, eff).value);
    }
  }

  lemma OwnWorkerOk(cfg: PublisherConfig, sh: Shared, wk: Worker, act: Act)
    requires LogKnown(sh) && WorkerOk(sh, wk) && World(cfg, sh, act)
    requires TurnOf(cfg, sh, wk, act).Some? && Applicable(cfg, sh, TurnOf(cfg, sh, wk, act).value.effect)
    ensures var t := TurnOf(cfg, sh, wk, act).value;
            WorkerOk(Apply(cfg, sh, t.effect), wk.(pc := t.pc))
  {
    match act
    case ClaimRow(_, _, _, _) => ClaimerOk(cfg, sh, wk, act);
    case SendMessage(_) => SenderOk(cfg, sh, wk, act);
    case _ => MarkerOk(cfg, sh, wk, act);
  }

  lemma ClaimerOk(cfg: PublisherConfig, sh: Shared, wk: Worker, act: Act)
    requires LogKnown(sh) && WorkerOk(sh, wk) && World(cfg, sh, act) && wk.pc.Starting? && act.ClaimRow?
    requires TurnOf(cfg, sh, wk, act).Some? && Applicable(cfg, sh, TurnOf(cfg, sh, wk, act).value.effect)
    ensures var t := TurnOf(cfg, sh, wk, act).value;
            WorkerOk(Apply(cfg, sh, t.effect), wk.(pc := t.pc))
  {
    var t := TurnOf(cfg, sh, wk, act).value;
    if t.effect.Grant? {
      EffectLater(cfg, sh, t.effect);
      FreshToken(sh, wk.image.id, act.token);
      GrantedKnows(sh, Apply(cfg, sh, t.effect), wk, Added(sh, t.effect).value);
    }
  }

  /** A worker that was just granted a lease knows it has not sent under it. */
  lemma GrantedKnows(sh: Shared, sh': Shared, wk: Worker, x: Entry)
    requires WorkerOk(sh, wk) && Later(sh, sh') && sh'.log == sh.log + [x]
    requires x.Granted? && x.id == wk.image.id && x.token in sh'.tokens && x.token !in SentTokens(sh.log, x.id)
    ensures WorkerOk(sh', wk.(pc := Claimed(x.token)))
  {
    AppendTokens(sh.log, x, wk.image.id);
  }

  lemma SenderOk(cfg: PublisherConfig, sh: Shared, wk: Worker, act: Act)
    requires WorkerOk(sh, wk) && wk.pc.Claimed? && act.SendMessage?
    requires TurnOf(cfg, sh, wk, act).Some?
    ensures var t := TurnOf(cfg, sh, wk, act).value;
            Applicable(cfg, sh, t.effect) && WorkerOk(Apply(cfg, sh, t.effect), wk.(pc := t.pc))
  {
    var eff := TurnOf(cfg, sh, wk, act).value.effect;
    if !eff.Nothing? {
      AppendTokens(sh.log, Added(sh, eff).value, wk.image.id);
    }
  }

  lemma MarkerOk(cfg: PublisherConfig, sh: Shared, wk: Worker, act: Act)
    requires WorkerOk(sh, wk) && (act.MarkPublished? || act.MarkFailed?)
    requires TurnOf(cfg, sh, wk, act).Some? && Applicable(cfg, sh, TurnOf(cfg, sh, wk, act).value.effect)
    ensures var t := TurnOf(cfg, sh, wk, act).value;
            WorkerOk(Apply(cfg, sh, t.effect), wk.(pc := t.pc))
  {
  }

  /** A turn keeps the worker's token, drops it, or takes a fresh one. */
  lemma TurnToken(cfg: PublisherConfig, sh: Shared, wk: Worker, act: Act)
    requires World(cfg, sh, act) && TurnOf(cfg, sh, wk, act).Some?
    ensures var t := TurnOf(cfg, sh, wk, act).value;
            TokenOf(t.pc).Some? ==> TokenOf(t.pc) == TokenOf(wk.pc) || TokenOf(t.pc).value !in sh.tokens
  {
  }

  lemma StepKeepsInv(cfg: PublisherConfig, sys: System, step: Step)
    requires Inv(cfg, sys) && StepOf(cfg, sys, step).Some?
    ensures Inv(cfg, StepOf(cfg, sys, step).value)
    ensures Later(sys.sh, StepOf(cfg, sys, step).value.sh)
  {
    match step
    case Begin(w, image) => BeginKeepsWorkers(cfg, sys, w, image);
    case InsertRow(p, created) => InsertKeepsInv(cfg, sys, p, created);
    case Work(w, act) => WorkKeepsInv(cfg, sys, w, act);
  }

  lemma BeginKeepsWorkers(cfg: PublisherConfig, sys: System, w: nat, image: OutboxRow)
    requires WorkersOk(sys) && Distinct(sys) && StepOf(cfg, sys, Begin(w, image)).Some?
    ensures var sys' := StepOf(cfg, sys, Begin(w, image)).value;
            WorkersOk(sys') && Distinct(sys') && sys'.sh == sys.sh && Later(sys.sh, sys'.sh)
  {
  }

  lemma InsertKeepsInv(cfg: PublisherConfig, sys: System, p: Payload, created: string)
    requires Inv(cfg, sys) && StepOf(cfg, sys, InsertRow(p, created)).Some?
    ensures Inv(cfg, StepOf(cfg, sys, InsertRow(p, created)).value)
    ensures Later(sys.sh, StepOf(cfg, sys, InsertRow(p, created)).value.sh)
  {
    var eff := Insert(NewRow(cfg, p, created));
    EffectTables(cfg, sys.sh, eff);
    EffectLater(cfg, sys.sh, eff);
    forall v | v in sys.workers ensures WorkerOk(Apply(cfg, sys.sh, eff), sys.workers[v]) {
      OtherWorkerOk(cfg, sys.sh, eff, sys.workers[v]);
    }
  }

  lemma WorkDistinct(cfg: PublisherConfig, sys: System, w: nat, act: Act)
    requires Distinct(sys) && WorkersOk(sys) && StepOf(cfg, sys, Work(w, act)).Some?
    ensures Distinct(StepOf(cfg, sys, Work(w, act)).value)
  {
    TurnToken(cfg, sys.sh, sys.workers[w], act);
  }

  lemma WorkWorkers(cfg: PublisherConfig, sys: System, w: nat, act: Act)
    requires Distinct(sys) && WorkersOk(sys) && LogKnown(sys.sh) && StepOf(cfg, sys, Work(w, act)).Some?
    ensures WorkersOk(StepOf(cfg, sys, Work(w, act)).value)
  {
    var wk := sys.workers[w];
    var sys' := StepOf(cfg, sys, Work(w, act)).value;
    var eff := TurnOf(cfg, sys.sh, wk, act).value.effect;
    forall v | v in sys'.workers ensures WorkerOk(sys'.sh, sys'.workers[v]) {
      if v != w {
        if eff.Send? { SendsOwnToken(cfg, sys.sh, wk, act); }
        OtherWorkerOk(cfg, sys.sh, eff, sys.workers[v]);
      } else {
        OwnWorkerOk(cfg, sys.sh, wk, act);
      }
    }
  }

  lemma WorkKeepsInv(cfg: PublisherConfig, sys: System, w: nat, act: Act)
    requires Inv(cfg, sys) && StepOf(cfg, sys, Work(w, act)).Some?
    ensures Inv(cfg, StepOf(cfg, sys, Work(w, act)).value)
    ensures Later(sys.sh, StepOf(cfg, sys, Work(w, act)).value.sh)
  {
    WorkTables(cfg, sys, w, act);
    WorkDistinct(cfg, sys, w, act);
    WorkWorkers(cfg, sys, w, act);
  }

  lemma WorkTables(cfg: PublisherConfig, sys: System, w: nat, act: Act)
    requires TablesOk(cfg, sys.sh) && WorkersOk(sys) && StepOf(cfg, sys, Work(w, act)).Some?
    ensures TablesOk(cfg, StepOf(cfg, sys, Work(w, act)).value.sh)
    ensures Later(sys.sh, StepOf(cfg, sys, Work(w, act)).value.sh)
  {
    WorkShared(cfg, sys, w, act);
    TurnTables(cfg, sys.sh, sys.workers[w], act);
  }

  lemma WorkShared(cfg: PublisherConfig, sys: System, w: nat, act: Act)
    requires StepOf(cfg, sys, Work(w, act)).Some?
    ensures w in sys.workers && World(cfg, sys.sh, act) && TurnOf(cfg, sys.sh, sys.workers[w], act).Some?
    ensures var eff := TurnOf(cfg, sys.sh, sys.workers[w], act).value.effect;
            Applicable(cfg, sys.sh, eff) && StepOf(cfg, sys, Work(w, act)).value.sh == Apply(cfg, sys.sh, eff)
  {
  }

  lemma TurnTables(cfg: PublisherConfig, sh: Shared, wk: Worker, act: Act)
    requires TablesOk(cfg, sh) && WorkerOk(sh, wk) && World(cfg, sh, act)
    requires TurnOf(cfg, sh, wk, act).Some? && Applicable(cfg, sh, TurnOf(cfg, sh, wk, act).value.effect)
    ensures TablesOk(cfg, Apply(cfg, sh, TurnOf(cfg, sh, wk, act).value.effect))
    ensures Later(sh, Apply(cfg, sh, TurnOf(cfg, sh, wk, act).value.effect))
  {
    TurnAdmissible(cfg, sh, wk, act);
    EffectTables(cfg, sh, TurnOf(cfg, sh, wk, act).value.effect);
    EffectLater(cfg, sh, TurnOf(cfg, sh, wk, act).value.effect);
  }

  lemma SendsOwnToken(cfg: PublisherConfig, sh: Shared, wk: Worker, act: Act)
    requires TurnOf(cfg, sh, wk, act).Some? && TurnOf(cfg, sh, wk, act).value.effect.Send?
    ensures TokenOf(wk.pc) == Some(TurnOf(cfg, sh, wk, act).value.effect.token)
  {
  }

  lemma {:induction false} RunKeepsInv(cfg: PublisherConfig, steps: seq<Step>)
    requires Run(cfg, EMPTY, steps).Some?
    ensures Inv(cfg, Run(cfg, EMPTY, steps).value)
  {
    if steps != [] {
      RunKeepsInv(cfg, steps[..|steps| - 1]);
      StepKeepsInv(cfg, Run(cfg, EMPTY, steps[..|steps| - 1]).value, steps[|steps| - 1]);
    }
  }
}
