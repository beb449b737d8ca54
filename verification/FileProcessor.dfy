/**
 The program one processor runs for one delivered event, as a program counter
 with local values.  Every turn makes at most one call, and `Fate` says what
 became of the call: it was heard, it took effect but the reply was lost, or it
 was refused.  A crash is a worker that never takes another turn.  A call that
 is retried without having taken effect leaves the worker where it was, so it
 needs no turn of its own.
 */
module FileProcessor {
  import opened Options
  import opened Domain
  import opened LeaseStore

  /** How `handle` ends: it returns, or raises one of three kinds of error. */
  datatype Outcome = Returned | NonRetryable | Retryable | Unavailable

  datatype After = Complete(quarantined: bool) | Report(outcome: Outcome)

  /** One call of the transactional save, with the moment it started. */
  datatype Job = Job(claim: Claim, write: MetaWrite, out: Payload, since: nat, after: After)

  datatype Pc =
    | Reading
    | Claiming
    | Rereading
    | Downloading(claim: Claim)
    | Copying(claim: Claim)
    | Saving(job: Job, landed: bool)
    | CheckingReplay(job: Job)
    | Restoring(job: Job)
    | CheckingResult(job: Job)
    | Saved(job: Job)
    | SavingScan(claim: Claim, write: MetaWrite)
    | Deleting(claim: Claim)
    | Failing(claim: Claim, message: string, code: string, retryable: bool, outcome: Outcome)
    | Done(outcome: Outcome, held: Option<Claim>)

  /** A client error is wrapped as a storage error; anything else is not. */
  datatype Kind = StorageFault | Unexpected(message: string)

  datatype Fate = Heard | LostRetried | LostRaised(kind: Kind) | Refused(kind: Kind)

  datatype Act =
    | ReadRow(fate: Fate)
    | ClaimRow(token: Token, at: real, local: real, created: Stamp, fate: Fate)
    | Fetch(stamp: Stamp, fate: Fate)
    | CopyObject(stamp: Stamp, fate: Fate)
    | Transact(fate: Fate, deduplicated: bool)
    | ReadOutbox(fate: Fate)
    | Restore(fate: Fate)
    | ReadResult(fate: Fate)
    | Resume
    | SaveScan(fate: Fate)
    | DeleteSource(fate: Fate)
    | Diagnose(stamp: Stamp)

  /** `clean`: every table call so far was heard.  `mute`: a failure had no message to record. */
  datatype Worker = Worker(event: EventId, since: nat, pc: Pc, clean: bool, mute: bool)

  datatype Turn = Turn(effect: Effect, pc: Pc)

  // ------------------------------------------------------- records being saved

  function CompletionJob(cfg: Config, e: EventId, ev: InputEvent, claim: Claim, quarantined: bool,
                         stamp: Stamp, since: nat): Job
  {
    var location := if quarantined then Quarantine(cfg, ev) else ev.location;
    Job(claim,
        MetaWrite(Completed, Some(e), Some(ev.checksum), location, None, None, stamp),
        Payload(Completion(e), ev.file, location, Analysis(!quarantined, ev.checksum), stamp),
        since,
        Complete(quarantined))
  }

  function Shorten(s: string, n: nat): string {
    if |s| <= n then s else s[..n]
  }

  function FailureJob(e: EventId, ev: InputEvent, claim: Claim, message: string, code: string,
                      retryable: bool, outcome: Outcome, stamp: Stamp, since: nat): Job
  {
    var m := Shorten(message, 2000);
    var c := Shorten(code, 100);
    Job(claim,
        MetaWrite(Failed, if retryable then None else Some(e), None, ev.location, Some(m),
                  if c == "" then None else Some(c), stamp),
        Payload(Failure(e, claim.version, c, retryable), ev.file, ev.location, Diagnostics(c, m, retryable), stamp),
        since,
        Report(outcome))
  }

  function ScanWrite(e: EventId, ev: InputEvent, stamp: Stamp): MetaWrite {
    MetaWrite(Completed, Some(e), None, ev.location, None, None, stamp)
  }

  // ------------------------------------------------------------ control flow

  function FailWith(claim: Claim, kind: Kind): Pc {
    match kind
    case StorageFault => Failing(claim, "storage call failed", "STORAGE_ERROR", true, Retryable)
    case Unexpected(m) => Failing(claim, m, "UNEXPECTED_ERROR", true, Retryable)
  }

  function Reject(claim: Claim, code: string): Pc {
    Failing(claim, code, code, false, NonRetryable)
  }

  /** Where the program goes on after the save returned normally. */
  function Onward(job: Job): Pc {
    match job.after
    case Complete(quarantined) => if quarantined then Deleting(job.claim) else Done(Returned, Some(job.claim))
    case Report(outcome) => Done(outcome, Some(job.claim))
  }

  /** The save raised; a failure report swallows it. */
  function NotSaved(job: Job, kind: Kind): Pc {
    match job.after
    case Complete(_) => FailWith(job.claim, kind)
    case Report(outcome) => Done(outcome, Some(job.claim))
  }

  /** What a read of the row says about this event being a duplicate. */
  function Duplicate(row: Option<Meta>, e: EventId): Option<Outcome> {
    if row.None? || row.value.last != Some(e) then None
    else if row.value.status == Completed then Some(Returned)
    else Some(NonRetryable)
  }

  function ReadTurn(sh: Shared, wk: Worker, ev: InputEvent, fate: Fate): Option<Turn> {
    match fate
    case Heard =>
      var duplicate := Duplicate(Row(sh, ev.file), wk.event);
      if duplicate.Some? then Some(Turn(Nothing, Done(duplicate.value, None)))
      else if wk.pc.Rereading? then Some(Turn(Nothing, Done(Unavailable, None)))
      else if !Actionable(ev) then Some(Turn(Nothing, Done(Returned, None)))
      else Some(Turn(Nothing, Claiming))
    case Refused(_) => Some(Turn(Nothing, Done(Retryable, None)))
    case _ => None
  }

  function ClaimTurn(sh: Shared, wk: Worker, ev: InputEvent, act: Act): Option<Turn>
    requires act.ClaimRow?
  {
    var row := Row(sh, ev.file);
    var can := CanClaim(row, wk.event, act.local.Floor);
    var grant := Grant(ev.file, wk.event, act.token, act.at, act.local, ev.location, act.created);
    var claim := Claim(wk.event, act.token, (if row.Some? then row.value.version else 0) + 1);
    match act.fate
    case Heard =>
      if !can then Some(Turn(Nothing, Rereading))
      else if ev.kind == FileUploaded then Some(Turn(grant, Downloading(claim)))
      else Some(Turn(grant, SavingScan(claim, ScanWrite(wk.event, ev, act.created))))
    case LostRetried => if can then Some(Turn(grant, Claiming)) else None
    case LostRaised(_) => if can then Some(Turn(grant, Done(Retryable, None))) else None
    case Refused(_) => Some(Turn(Nothing, Done(Retryable, None)))
  }

  function FetchTurn(cfg: Config, sh: Shared, wk: Worker, ev: InputEvent, claim: Claim, act: Act): Option<Turn>
    requires act.Fetch?
  {
    var pre := PreCheck(cfg, ev);
    if pre.Some? then Some(Turn(Nothing, Reject(claim, pre.value)))
    else match act.fate
    case Heard =>
      if ev.location !in sh.objects then Some(Turn(Nothing, FailWith(claim, StorageFault)))
      else
        var blob := sh.objects[ev.location];
        var post := PostCheck(cfg, ev, blob);
        if post.Some? then Some(Turn(Nothing, Reject(claim, post.value)))
        else if Denied(blob.data) then Some(Turn(Nothing, Copying(claim)))
        else Some(Turn(Nothing, Saving(CompletionJob(cfg, wk.event, ev, claim, false, act.stamp, |sh.past|), false)))
    case Refused(kind) => Some(Turn(Nothing, FailWith(claim, kind)))
    case _ => None
  }

  function CopyTurn(cfg: Config, sh: Shared, wk: Worker, ev: InputEvent, claim: Claim, act: Act): Option<Turn>
    requires act.CopyObject?
  {
    var copy := Copy(ev.location, Quarantine(cfg, ev));
    var present := ev.location in sh.objects;
    match act.fate
    case Heard =>
      if present then
        Some(Turn(copy, Saving(CompletionJob(cfg, wk.event, ev, claim, true, act.stamp, |sh.past|), false)))
      else Some(Turn(Nothing, FailWith(claim, StorageFault)))
    case LostRetried => if present then Some(Turn(copy, Copying(claim))) else None
    case LostRaised(kind) => if present then Some(Turn(copy, FailWith(claim, kind))) else None
    case Refused(kind) => Some(Turn(Nothing, FailWith(claim, kind)))
  }

  /** One attempt of the two-table transaction.  `deduplicated`: the store recognises
      the request of an earlier attempt that landed and answers without applying it. */
  function TransactTurn(sh: Shared, ev: InputEvent, job: Job, landed: bool, act: Act): Option<Turn>
    requires act.Transact?
  {
    var holds := Fenced(Row(sh, ev.file), job.claim) && job.out.id !in sh.outbox;
    var commit := Commit(ev.file, job.claim, job.write, Some(job.out));
    if act.deduplicated then
      if landed && act.fate.Heard? then Some(Turn(Nothing, Saved(job))) else None
    else match act.fate
    case Heard => if holds then Some(Turn(commit, Saved(job))) else Some(Turn(Nothing, CheckingReplay(job)))
    case LostRetried => if holds then Some(Turn(commit, Saving(job, true))) else None
    case LostRaised(kind) => if holds then Some(Turn(commit, NotSaved(job, kind))) else None
    case Refused(kind) => Some(Turn(Nothing, NotSaved(job, kind)))
  }

  function ReplayTurn(sh: Shared, job: Job, fate: Fate): Option<Turn> {
    match fate
    case Heard =>
      if job.out.id in sh.outbox && sh.outbox[job.out.id] == job.out then Some(Turn(Nothing, Restoring(job)))
      else Some(Turn(Nothing, NotSaved(job, StorageFault)))
    case Refused(kind) => Some(Turn(Nothing, NotSaved(job, kind)))
    case _ => None
  }

  function RestoreTurn(sh: Shared, ev: InputEvent, job: Job, fate: Fate): Option<Turn> {
    var holds := Fenced(Row(sh, ev.file), job.claim);
    var commit := Commit(ev.file, job.claim, job.write, None);
    match fate
    case Heard => if holds then Some(Turn(commit, Saved(job))) else Some(Turn(Nothing, CheckingResult(job)))
    case LostRaised(kind) => if holds then Some(Turn(commit, NotSaved(job, kind))) else None
    case Refused(kind) => Some(Turn(Nothing, NotSaved(job, kind)))
    case LostRetried => None
  }

  function ResultTurn(sh: Shared, ev: InputEvent, job: Job, fate: Fate): Option<Turn> {
    match fate
    case Heard =>
      var row := Row(sh, ev.file);
      if row.Some? && row.value.status == job.write.status && row.value.last == job.write.last
      then Some(Turn(Nothing, Saved(job)))
      else Some(Turn(Nothing, NotSaved(job, StorageFault)))
    case Refused(kind) => Some(Turn(Nothing, NotSaved(job, kind)))
    case _ => None
  }

  function ScanTurn(sh: Shared, ev: InputEvent, claim: Claim, w: MetaWrite, fate: Fate): Option<Turn> {
    var holds := Fenced(Row(sh, ev.file), claim);
    var commit := Commit(ev.file, claim, w, None);
    match fate
    case Heard =>
      if holds then Some(Turn(commit, Done(Returned, Some(claim))))
      else Some(Turn(Nothing, FailWith(claim, StorageFault)))
    case LostRetried => if holds then Some(Turn(commit, SavingScan(claim, w))) else None
    case LostRaised(kind) => if holds then Some(Turn(commit, FailWith(claim, kind))) else None
    case Refused(kind) => Some(Turn(Nothing, FailWith(claim, kind)))
  }

  /** Source cleanup: a storage error is only logged, any other error is not caught. */
  function DeleteTurn(wk: Worker, ev: InputEvent, claim: Claim, fate: Fate): Option<Turn> {
    var remove := Remove(ev.location, wk.event);
    match fate
    case Heard => Some(Turn(remove, Done(Returned, Some(claim))))
    case LostRetried => Some(Turn(remove, Deleting(claim)))
    case LostRaised(kind) =>
      Some(Turn(remove, if kind.StorageFault? then Done(Returned, Some(claim)) else FailWith(claim, kind)))
    case Refused(kind) =>
      Some(Turn(Nothing, if kind.StorageFault? then Done(Returned, Some(claim)) else FailWith(claim, kind)))
  }

  /** Building the failure record: an event with an empty message is not valid, and
      the error that raises is swallowed. */
  function DiagnoseTurn(sh: Shared, wk: Worker, ev: InputEvent, stamp: Stamp): Option<Turn>
    requires wk.pc.Failing?
  {
    var Failing(claim, message, code, retryable, outcome) := wk.pc;
    if message == "" || code == "" then Some(Turn(Nothing, Done(outcome, Some(claim))))
    else Some(Turn(Nothing, Saving(FailureJob(wk.event, ev, claim, message, code, retryable, outcome, stamp, |sh.past|),
                                   false)))
  }

  /** The turn `act` is at this program counter, if it is one. */
  function TurnOf(cfg: Config, sh: Shared, wk: Worker, ev: InputEvent, act: Act): Option<Turn> {
    match (wk.pc, act)
    case (Reading, ReadRow(fate)) => ReadTurn(sh, wk, ev, fate)
    case (Rereading, ReadRow(fate)) => ReadTurn(sh, wk, ev, fate)
    case (Claiming, ClaimRow(_, _, _, _, _)) => ClaimTurn(sh, wk, ev, act)
    case (Downloading(claim), Fetch(_, _)) => FetchTurn(cfg, sh, wk, ev, claim, act)
    case (Copying(claim), CopyObject(_, _)) => CopyTurn(cfg, sh, wk, ev, claim, act)
    case (Saving(job, landed), Transact(_, _)) => TransactTurn(sh, ev, job, landed, act)
    case (CheckingReplay(job), ReadOutbox(fate)) => ReplayTurn(sh, job, fate)
    case (Restoring(job), Restore(fate)) => RestoreTurn(sh, ev, job, fate)
    case (CheckingResult(job), ReadResult(fate)) => ResultTurn(sh, ev, job, fate)
    case (Saved(job), Resume) => Some(Turn(Nothing, Onward(job)))
    case (SavingScan(claim, w), SaveScan(fate)) => ScanTurn(sh, ev, claim, w, fate)
    case (Deleting(claim), DeleteSource(fate)) => DeleteTurn(wk, ev, claim, fate)
    case (Failing(_, _, _, _, _), Diagnose(stamp)) => DiagnoseTurn(sh, wk, ev, stamp)
    case _ => None
  }

  predicate TableCall(act: Act) {
    !act.Fetch? && !act.CopyObject? && !act.DeleteSource? && !act.Diagnose? && !act.Resume?
  }

  function Advance(wk: Worker, act: Act, turn: Turn): Worker {
    wk.(pc := turn.pc,
        clean := wk.clean && (TableCall(act) ==> act.fate.Heard?),
        mute := wk.mute || (wk.pc.Failing? && wk.pc.message == ""))
  }

  // -------------------------------------------------------------- whole system

  datatype System = System(sh: Shared, workers: map<nat, Worker>)

  datatype Step =
    | Deliver(w: nat, event: EventId)
    | Work(w: nat, act: Act)

  /** A new lease has a token never used before, and clocks are off by at most `skew`. */
  predicate World(cfg: Config, sh: Shared, act: Act) {
    act.ClaimRow? ==> act.token !in sh.tokens && act.at - cfg.skew <= act.local <= act.at + cfg.skew
  }

  function StepOf(cfg: Config, sys: System, step: Step): Option<System> {
    match step
    case Deliver(w, event) =>
      if w in sys.workers || event !in cfg.inputs then None
      else Some(sys.(workers := sys.workers[w := Worker(event, |sys.sh.past|, Reading, true, false)]))
    case Work(w, act) =>
      if w !in sys.workers || sys.workers[w].event !in cfg.inputs || !World(cfg, sys.sh, act) then None
      else
        var wk := sys.workers[w];
        var turn := TurnOf(cfg, sys.sh, wk, cfg.inputs[wk.event], act);
        if turn.None? || !Applicable(sys.sh, turn.value.effect) then None
        else Some(System(Apply(cfg, sys.sh, turn.value.effect), sys.workers[w := Advance(wk, act, turn.value)]))
  }

  /** The state after a run, or None when some step cannot be taken. */
  function Run(cfg: Config, start: System, steps: seq<Step>): Option<System> {
    if steps == [] then Some(start)
    else
      var before := Run(cfg, start, steps[..|steps| - 1]);
      if before.None? then None else StepOf(cfg, before.value, steps[|steps| - 1])
  }

  /** Some continuation leads from the one state to the other. */
  ghost predicate ReachableFrom(cfg: Config, start: System, sys: System) {
    exists steps :: Run(cfg, start, steps) == Some(sys)
  }

  lemma ReachesFrom(cfg: Config, start: System, sys: System, step: Step)
    requires ReachableFrom(cfg, start, sys) && StepOf(cfg, sys, step).Some?
    ensures ReachableFrom(cfg, start, StepOf(cfg, sys, step).value)
  {
    var steps :| Run(cfg, start, steps) == Some(sys);
    RunOneMore(cfg, start, steps, step);
  }

  lemma ReachesItself(cfg: Config, sys: System)
    ensures ReachableFrom(cfg, sys, sys)
  {
    assert Run(cfg, sys, []) == Some(sys);
  }

  lemma RunOneMore(cfg: Config, start: System, steps: seq<Step>, step: Step)
    requires Run(cfg, start, steps).Some?
    ensures Run(cfg, start, steps + [step]) == StepOf(cfg, Run(cfg, start, steps).value, step)
  {
    assert (steps + [step])[..|steps|] == steps;
  }

  /** Before the processors start: rows come from the gateway and hold no lease. */
  ghost predicate Init(cfg: Config, sys: System) {
    && sys.workers == map[]
    && sys.sh.past == [] && sys.sh.log == [] && sys.sh.tokens == {} && sys.sh.outbox == map[]
    && sys.sh.objects == cfg.uploads
    && (forall f | f in sys.sh.meta :: FreshRow(sys.sh.meta[f]))
  }

  predicate FreshRow(m: Meta) {
    && (m.status == Pending || m.status == Uploaded || m.status == Scanning)
    && m.last.None? && m.token.None? && m.expires.None? && m.processing.None? && m.version == 0
  }
}
