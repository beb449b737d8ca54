/**
 The outbox publisher over whole runs: stream handlers and sweepers work on row
 images of any age, claim a lease, send, and commit or record a failure.  The row
 is fenced by the lease; the send is not.
 */
module PublisherRuns {
  import opened Options
  import opened Domain
  import opened OutboxRows

  datatype Entry =
    | Inserted(id: OutputId, payload: Payload)
    | Granted(id: OutputId, token: Token, at: real, takeover: bool)
    | Sent(id: OutputId, token: Token, payload: Payload, topic: string)
    | Committed(id: OutputId, token: Token)
    | GaveUp(id: OutputId, token: Token)

  /** `images` are all row values there have ever been; `log` holds the sends too. */
  datatype Shared = Shared(rows: map<OutputId, OutboxRow>, images: set<OutboxRow>, log: seq<Entry>, tokens: set<Token>)

  datatype Effect =
    | Nothing
    | Insert(row: OutboxRow)
    | Grant(id: OutputId, shard: string, token: Token, at: real, local: real)
    | Send(id: OutputId, token: Token, payload: Payload, topic: string)
    | Publish(id: OutputId, shard: string, token: Token, now: int)
    | Fail(id: OutputId, shard: string, token: Token, error: string)

  function SetRow(sh: Shared, id: OutputId, r: OutboxRow, x: Entry): Shared {
    sh.(rows := sh.rows[id := r], images := sh.images + {r}, log := sh.log + [x])
  }

  /** The row an effect writes, when its condition holds. */
  function Written(cfg: PublisherConfig, sh: Shared, eff: Effect): Option<OutboxRow> {
    match eff
    case Insert(row) => if row.id in sh.rows then None else Some(row)
    case Grant(id, shard, token, _, local) =>
      if id !in sh.rows then None else UpdateClaim(cfg, sh.rows[id], shard, token, local.Floor)
    case Publish(id, shard, token, now) =>
      if id !in sh.rows then None else UpdatePublished(cfg, sh.rows[id], shard, token, now)
    case Fail(id, shard, token, error) =>
      if id !in sh.rows then None else UpdateFailed(sh.rows[id], shard, token, error)
    case _ => None
  }

  predicate Applicable(cfg: PublisherConfig, sh: Shared, eff: Effect) {
    eff.Nothing? || eff.Send? || Written(cfg, sh, eff).Some?
  }

  function Apply(cfg: PublisherConfig, sh: Shared, eff: Effect): Shared
    requires Applicable(cfg, sh, eff)
  {
    match eff
    case Nothing => sh
    case Insert(row) => SetRow(sh, row.id, row, Inserted(row.id, row.payload))
    case Grant(id, _, token, at, _) =>
      SetRow(sh, id, Written(cfg, sh, eff).value, Granted(id, token, at, sh.rows[id].status == Publishing))
        .(tokens := sh.tokens + {token})
    case Send(id, token, payload, topic) => sh.(log := sh.log + [Sent(id, token, payload, topic)])
    case Publish(id, _, token, _) => SetRow(sh, id, Written(cfg, sh, eff).value, Committed(id, token))
    case Fail(id, _, token, _) => SetRow(sh, id, Written(cfg, sh, eff).value, GaveUp(id, token))
  }

  // ------------------------------------------------------------------- workers

  datatype Result = ReportedPublished | SkippedPublished | Raised

  datatype Pc =
    | Starting
    | Claimed(token: Token)
    | Delivered(token: Token)
    | Failing(token: Token)
    | Ended(result: Result)

  /** A stream handler, or a sweeper at one item: both run the same calls. */
  datatype Worker = Worker(image: OutboxRow, pc: Pc)

  datatype Fate = Heard | Lost | Refused

  datatype Act =
    | ClaimRow(token: Token, at: real, local: real, fate: Fate)
    | SendMessage(fate: Fate)
    | MarkPublished(now: int, fate: Fate)
    | MarkFailed(error: string, fate: Fate)

  datatype Turn = Turn(effect: Effect, pc: Pc)

  predicate LivePublished(sh: Shared, id: OutputId) {
    id in sh.rows && sh.rows[id].status == Published
  }

  function ClaimTurn(cfg: PublisherConfig, sh: Shared, image: OutboxRow, act: Act): Option<Turn>
    requires act.ClaimRow?
  {
    var eff := Grant(image.id, image.shard, act.token, act.at, act.local);
    var holds := Written(cfg, sh, eff).Some?;
    match act.fate
    case Heard =>
      if holds then Some(Turn(eff, Claimed(act.token)))
      else if LivePublished(sh, image.id) then Some(Turn(Nothing, Ended(SkippedPublished)))
      else Some(Turn(Nothing, Ended(Raised)))
    case Lost => if holds then Some(Turn(eff, Ended(Raised))) else None
    case Refused => Some(Turn(Nothing, Ended(Raised)))
  }

  /** Only a payload that carries the row's own id and type is sent, to the topic of its type. */
  function SendTurn(cfg: PublisherConfig, image: OutboxRow, token: Token, fate: Fate): Option<Turn> {
    var eff := Send(image.id, token, image.payload, TopicOf(cfg, image.kind));
    match fate
    case Heard =>
      if Sendable(cfg, image) then Some(Turn(eff, Delivered(token)))
      else Some(Turn(Nothing, Failing(token)))
    case Lost => if Sendable(cfg, image) then Some(Turn(eff, Failing(token))) else None
    case Refused => Some(Turn(Nothing, Failing(token)))
  }

  function PublishTurn(cfg: PublisherConfig, sh: Shared, image: OutboxRow, token: Token, now: int,
                       fate: Fate): Option<Turn> {
    var eff := Publish(image.id, image.shard, token, now);
    var holds := Written(cfg, sh, eff).Some?;
    match fate
    case Heard =>
      if holds then Some(Turn(eff, Ended(ReportedPublished)))
      else if LivePublished(sh, image.id) then Some(Turn(Nothing, Ended(ReportedPublished)))
      else Some(Turn(Nothing, Failing(token)))
    case Lost => if holds then Some(Turn(eff, Failing(token))) else None
    case Refused => Some(Turn(Nothing, Failing(token)))
  }

  function FailTurn(cfg: PublisherConfig, sh: Shared, image: OutboxRow, token: Token, error: string,
                    fate: Fate): Option<Turn> {
    var eff := Fail(image.id, image.shard, token, error);
    if Written(cfg, sh, eff).Some? && !fate.Refused? then Some(Turn(eff, Ended(Raised)))
    else Some(Turn(Nothing, Ended(Raised)))
  }

  function TurnOf(cfg: PublisherConfig, sh: Shared, wk: Worker, act: Act): Option<Turn> {
    match (wk.pc, act)
    case (Starting, ClaimRow(_, _, _, _)) => ClaimTurn(cfg, sh, wk.image, act)
    case (Claimed(token), SendMessage(fate)) => SendTurn(cfg, wk.image, token, fate)
    case (Delivered(token), MarkPublished(now, fate)) => PublishTurn(cfg, sh, wk.image, token, now, fate)
    case (Failing(token), MarkFailed(error, fate)) => FailTurn(cfg, sh, wk.image, token, error, fate)
    case _ => None
  }

  datatype System = System(sh: Shared, workers: map<nat, Worker>)

  datatype Step =
    | InsertRow(payload: Payload, created: string)
    | Begin(w: nat, image: OutboxRow)
    | Work(w: nat, act: Act)

  predicate World(cfg: PublisherConfig, sh: Shared, act: Act) {
    act.ClaimRow? ==> act.token !in sh.tokens && act.at - cfg.skew <= act.local <= act.at + cfg.skew
  }

  function StepOf(cfg: PublisherConfig, sys: System, step: Step): Option<System> {
    match step
    case InsertRow(p, created) =>
      var eff := Insert(NewRow(cfg, p, created));
      if Applicable(cfg, sys.sh, eff) then Some(sys.(sh := Apply(cfg, sys.sh, eff))) else None
    case Begin(w, image) =>
      if w in sys.workers || image !in sys.sh.images then None
      else Some(sys.(workers := sys.workers[w := Worker(image, Starting)]))
    case Work(w, act) =>
      if w !in sys.workers || !World(cfg, sys.sh, act) then None
      else
        var turn := TurnOf(cfg, sys.sh, sys.workers[w], act);
        if turn.None? || !Applicable(cfg, sys.sh, turn.value.effect) then None
        else Some(System(Apply(cfg, sys.sh, turn.value.effect),
                         sys.workers[w := sys.workers[w].(pc := turn.value.pc)]))
  }

  function Run(cfg: PublisherConfig, start: System, steps: seq<Step>): Option<System> {
    if steps == [] then Some(start)
    else
      var before := Run(cfg, start, steps[..|steps| - 1]);
      if before.None? then None else StepOf(cfg, before.value, steps[|steps| - 1])
  }

  const EMPTY := System(Shared(map[], {}, [], {}), map[])

  /** Some continuation leads from the one state to the other. */
  ghost predicate ReachableFrom(cfg: PublisherConfig, start: System, sys: System) {
    exists steps :: Run(cfg, start, steps) == Some(sys)
  }

  lemma ReachesFrom(cfg: PublisherConfig, start: System, sys: System, step: Step)
    requires ReachableFrom(cfg, start, sys) && StepOf(cfg, sys, step).Some?
    ensures ReachableFrom(cfg, start, StepOf(cfg, sys, step).value)
  {
    var steps :| Run(cfg, start, steps) == Some(sys);
    RunOneMore(cfg, start, steps, step);
  }

  lemma RunOneMore(cfg: PublisherConfig, start: System, steps: seq<Step>, step: Step)
    requires Run(cfg, start, steps).Some?
    ensures Run(cfg, start, steps + [step]) == StepOf(cfg, Run(cfg, start, steps).value, step)
  {
    assert (steps + [step])[..|steps|] == steps;
  }

  lemma ReachesItself(cfg: PublisherConfig, sys: System)
    ensures ReachableFrom(cfg, sys, sys)
  {
    assert Run(cfg, sys, []) == Some(sys);
  }

  /** Some run of the publisher ends in this state. */
  ghost predicate Reachable(cfg: PublisherConfig, sys: System) {
    ReachableFrom(cfg, EMPTY, sys)
  }

  // ----------------------------------------------------------- reading the log

  datatype What = Grants | Takeovers | Failures | Sends

  predicate Counts(x: Entry, id: OutputId, what: What) {
    x.id == id && match what
                  case Grants => x.Granted?
                  case Takeovers => x.Granted? && x.takeover
                  case Failures => x.GaveUp?
                  case Sends => x.Sent?
  }

  /** How many entries of a kind the log has for a row. */
  function Count(log: seq<Entry>, id: OutputId, what: What): nat {
    if log == [] then 0
    else Count(log[..|log| - 1], id, what) + if Counts(log[|log| - 1], id, what) then 1 else 0
  }

  /** The tokens a row was sent under. */
  function SentTokens(log: seq<Entry>, id: OutputId): set<Token> {
    if log == [] then {}
    else
      var x := log[|log| - 1];
      SentTokens(log[..|log| - 1], id) + if x.Sent? && x.id == id then {x.token} else {}
  }

  /** The tokens of the leases granted on a row. */
  function GrantedTokens(log: seq<Entry>, id: OutputId): set<Token> {
    if log == [] then {}
    else
      var x := log[|log| - 1];
      GrantedTokens(log[..|log| - 1], id) + if x.Granted? && x.id == id then {x.token} else {}
  }

  /** The latest lease of a row that was neither committed nor given up. */
  function Latest(log: seq<Entry>, id: OutputId): Option<Entry> {
    if log == [] then None
    else
      var x := log[|log| - 1];
      if x.id == id && (x.Granted? || x.Committed? || x.GaveUp?) then Some(x)
      else Latest(log[..|log| - 1], id)
  }

  lemma Append(log: seq<Entry>, x: Entry, id: OutputId, what: What)
    ensures Count(log + [x], id, what) == Count(log, id, what) + if Counts(x, id, what) then 1 else 0
  {
    assert (log + [x])[..|log|] == log;
  }

  lemma AppendLatest(log: seq<Entry>, x: Entry, id: OutputId)
    ensures Latest(log + [x], id) ==
            if x.id == id && (x.Granted? || x.Committed? || x.GaveUp?) then Some(x) else Latest(log, id)
  {
    assert (log + [x])[..|log|] == log;
  }

  lemma AppendTokens(log: seq<Entry>, x: Entry, id: OutputId)
    ensures SentTokens(log + [x], id) == SentTokens(log, id) + if x.Sent? && x.id == id then {x.token} else {}
    ensures GrantedTokens(log + [x], id) == GrantedTokens(log, id) + if x.Granted? && x.id == id then {x.token} else {}
  {
    assert (log + [x])[..|log|] == log;
  }

  /** The sets say which entries there are. */
  lemma {:induction false} TokenEntries(log: seq<Entry>, id: OutputId, t: Token)
    ensures t in SentTokens(log, id) <==>
              exists j :: 0 <= j < |log| && log[j].Sent? && log[j].id == id && log[j].token == t
    ensures t in GrantedTokens(log, id) <==>
              exists j :: 0 <= j < |log| && log[j].Granted? && log[j].id == id && log[j].token == t
  {
    if log != [] {
      var n := |log| - 1;
      TokenEntries(log[..n], id, t);
      assert forall j | 0 <= j < n :: log[..n][j] == log[j];
      var sent, granted := SentTokens(log[..n], id), GrantedTokens(log[..n], id);
      if j :| 0 <= j < |log| && log[j].Sent? && log[j].id == id && log[j].token == t && t !in sent {
        assert j == n;
      }
      if j :| 0 <= j < |log| && log[j].Granted? && log[j].id == id && log[j].token == t && t !in granted {
        assert j == n;
      }
    }
  }
}
