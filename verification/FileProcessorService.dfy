/**
 The processor as a program: it reads the row, claims the file, processes the event,
 persists the result, and reports a failure.  Other processors move before every call,
 calls may be refused or lose their reply, and transient losses are retried up to three
 times.
 Every call is one step of FileProcessor, so whatever holds of all runs holds here.
 */
module FileProcessorService {
  import opened Options
  import opened Domain
  import opened LeaseStore
  import opened FileProcessor
  import opened ProcessorInvariant
  import opened ProcessorSteps
  import opened ProcessorTheorems
  import opened Fresh

  const ATTEMPTS := 3

  /** What the world does around call number `i`. */
  datatype Oracle = Oracle(
    others: nat -> seq<Step>,
    fate: nat -> Fate,
    at: nat -> real,
    local: nat -> real,
    stamp: nat -> Stamp,
    deduplicated: nat -> bool)

  ghost predicate ClocksOk(cfg: Config, o: Oracle) {
    cfg.skew >= 0.0 && forall i: nat :: o.at(i) - cfg.skew <= o.local(i) <= o.at(i) + cfg.skew
  }

  /** Nobody else moves, and every call is heard. */
  ghost predicate Quiet(o: Oracle) {
    forall i: nat :: o.others(i) == [] && o.fate(i) == Heard && !o.deduplicated(i)
  }

  /** Every error that a call raises is one of the storage. */
  ghost predicate StorageErrorsOnly(o: Oracle) {
    forall i: nat ::
      match o.fate(i)
      case LostRaised(kind) => kind.StorageFault?
      case Refused(kind) => kind.StorageFault?
      case _ => true
  }

  /** There is such a world, whatever time its clocks show. */
  lemma QuietWorldExists(cfg: Config, now: real) returns (o: Oracle)
    requires cfg.skew >= 0.0
    ensures ClocksOk(cfg, o) && Quiet(o) && forall i: nat :: o.local(i) == now
  {
    o := Oracle(_ => [], _ => Heard, _ => now, _ => now, _ => 0, _ => false);
  }

  /** Why the upload will not be processed as its object is now: the code of the error, and
      whether it may be retried.  None if the object is there and passes every check. */
  function Flaw(cfg: Config, sh: Shared, ev: InputEvent): (flaw: Option<(string, bool)>)
    ensures flaw.Some? ==> 0 < |flaw.value.0| <= 100
  {
    if PreCheck(cfg, ev).Some? then Some((PreCheck(cfg, ev).value, false))
    else if ev.location !in sh.objects then Some(("STORAGE_ERROR", true))
    else
      var post := PostCheck(cfg, ev, sh.objects[ev.location]);
      if post.Some? then Some((post.value, false)) else None
  }

  /** The program goes on to report this flaw. */
  function Flawed(claim: Claim, flaw: (string, bool)): Pc {
    if flaw.1 then FailWith(claim, StorageFault) else Reject(claim, flaw.0)
  }

  /** The row of this file is there, and no other row has changed. */
  predicate OnlyRow(before: Shared, after: Shared, f: FileId) {
    f in after.meta && after.meta == before.meta[f := after.meta[f]]
  }

  /** What a sound upload leaves behind: recorded, announced, and quarantined if it is denied. */
  predicate Finished(cfg: Config, before: Shared, after: Shared, e: EventId)
    requires e in cfg.inputs && cfg.inputs[e].location in before.objects
  {
    var ev := cfg.inputs[e];
    var denied := Denied(before.objects[ev.location].data);
    var place := if denied then Quarantine(cfg, ev) else ev.location;
    && OnlyRow(before, after, ev.file)
    && (var m := after.meta[ev.file];
        m.status == Completed && m.last == Some(e) && m.hash == Some(ev.checksum)
        && m.location == place && m.token.None?)
    && Completion(e) in after.outbox
    && after.outbox[Completion(e)].location == place
    && after.outbox[Completion(e)].body == Analysis(!denied, ev.checksum)
    && after.outbox == before.outbox[Completion(e) := after.outbox[Completion(e)]]
    && after.objects == if denied
                        then before.objects[place := Reencrypted(cfg, before.objects[ev.location])] - {ev.location}
                        else before.objects
  }

  // ------------------------------------------------------- the policy, written out

  /** The event comes from where events are trusted, and is not too large. */
  predicate Trusted(cfg: Config, ev: InputEvent) {
    && (cfg.allowedBucket == "" || ev.location.bucket == cfg.allowedBucket)
    && (cfg.allowedRegion == "" || ev.region == Some(cfg.allowedRegion))
    && ev.size <= cfg.maxSize
  }

  /** The object is what the event declares. */
  predicate AsDeclared(cfg: Config, ev: InputEvent, b: Blob) {
    && |b.data| <= cfg.maxSize && (b.declared == 0 || b.declared == |b.data|) && |b.data| == ev.size
    && b.encryption == Some("aws:kms") && b.kmsKey == Some(ev.kmsKey) && cfg.digest(b.data) == ev.checksum
  }

  /** Empty, or with the header of a PE or an ELF file. */
  predicate Executable(data: seq<Byte>) {
    data == [] || [0x4D, 0x5A] <= data || [0x7F, 0x45, 0x4C, 0x46] <= data
  }

  /** What a rejection code says about the event and the object; the checks before it were passed. */
  predicate RejectedFor(cfg: Config, sh: Shared, ev: InputEvent, code: string) {
    var bucketOk := cfg.allowedBucket == "" || ev.location.bucket == cfg.allowedBucket;
    var regionOk := cfg.allowedRegion == "" || ev.region == Some(cfg.allowedRegion);
    match code
    case "UNTRUSTED_BUCKET" => !bucketOk
    case "UNTRUSTED_REGION" => bucketOk && !regionOk
    case "DECLARED_FILE_TOO_LARGE" => bucketOk && regionOk && ev.size > cfg.maxSize
    case "STORAGE_ERROR" => Trusted(cfg, ev) && ev.location !in sh.objects
    case _ => Trusted(cfg, ev) && ev.location in sh.objects && ObjectRejectedFor(cfg, ev, sh.objects[ev.location], code)
  }

  predicate ObjectRejectedFor(cfg: Config, ev: InputEvent, b: Blob, code: string) {
    var fits := |b.data| <= cfg.maxSize && b.declared <= cfg.maxSize;
    var whole := fits && (b.declared == 0 || b.declared == |b.data|);
    var sized := whole && |b.data| == ev.size;
    match code
    case "ACTUAL_FILE_TOO_LARGE" => !fits
    case "S3_LENGTH_MISMATCH" => fits && !whole
    case "FILE_SIZE_MISMATCH" => whole && !sized
    case "INVALID_S3_ENCRYPTION" => sized && b.encryption != Some("aws:kms")
    case "KMS_KEY_MISMATCH" => sized && b.encryption == Some("aws:kms") && b.kmsKey != Some(ev.kmsKey)
    case "CHECKSUM_MISMATCH" =>
      sized && b.encryption == Some("aws:kms") && b.kmsKey == Some(ev.kmsKey) && cfg.digest(b.data) != ev.checksum
    case _ => false
  }

  /** Where the event's object is quarantined, and what the copy is. */
  predicate QuarantinedAt(cfg: Config, objects: map<Location, Blob>, ev: InputEvent, b: Blob) {
    var place := Location(ev.location.bucket, cfg.prefix + "/" + ev.file + "/" + ev.checksum);
    place in objects && objects[place] == Blob(b.data, b.declared, Some("aws:kms"), Some(cfg.defaultKey))
  }

  /** An upload is announced safe and stays, or, exactly if it is executable, is announced unsafe
      and moved to its quarantine place; and its row says the same. */
  predicate VerdictTold(cfg: Config, before: Shared, after: Shared, e: EventId)
    requires e in cfg.inputs
  {
    var ev := cfg.inputs[e];
    var place := Location(ev.location.bucket, cfg.prefix + "/" + ev.file + "/" + ev.checksum);
    && Trusted(cfg, ev) && ev.location in before.objects && AsDeclared(cfg, ev, before.objects[ev.location])
    && var unsafe := Executable(before.objects[ev.location].data);
       && Completion(e) in after.outbox && after.outbox[Completion(e)].body == Analysis(!unsafe, ev.checksum)
       && after.outbox[Completion(e)].location == (if unsafe then place else ev.location)
       && ev.file in after.meta && after.meta[ev.file].hash == Some(ev.checksum)
       && after.meta[ev.file].location == (if unsafe then place else ev.location)
       && (ev.location in after.objects <==> !unsafe)
       && (unsafe && place != ev.location ==>
             QuarantinedAt(cfg, after.objects, ev, before.objects[ev.location]))
  }

  /** How the processing of an upload ends: with the verdict; or with the reason of a rejection,
      which may be retried only if it is a storage error; or because another completion is there. */
  predicate UploadTold(cfg: Config, before: Shared, after: Shared, e: EventId, pc: Pc)
    requires e in cfg.inputs
  {
    if pc.Done? then VerdictTold(cfg, before, after, e)
    else
      && pc.Failing? && (pc.retryable <==> pc.code == "STORAGE_ERROR")
      && pc.outcome == (if pc.retryable then Retryable else NonRetryable)
      && (RejectedFor(cfg, before, cfg.inputs[e], pc.code)
          || (pc.code == "STORAGE_ERROR" && Completion(e) in before.outbox
              && Trusted(cfg, cfg.inputs[e]) && cfg.inputs[e].location in before.objects
              && AsDeclared(cfg, cfg.inputs[e], before.objects[cfg.inputs[e].location])))
  }

  lemma FinishedIsTold(cfg: Config, before: Shared, after: Shared, e: EventId)
    requires e in cfg.inputs && Flaw(cfg, before, cfg.inputs[e]).None? && Finished(cfg, before, after, e)
    ensures VerdictTold(cfg, before, after, e)
  {
    HeaderPolicy(before.objects[cfg.inputs[e].location].data);
  }

  lemma HeaderPolicy(data: seq<Byte>)
    ensures Denied(data) <==> Executable(data)
  {
  }

  lemma FlawIsTold(cfg: Config, sh: Shared, ev: InputEvent)
    ensures var flaw := Flaw(cfg, sh, ev);
            if flaw.Some? then RejectedFor(cfg, sh, ev, flaw.value.0)
                && (flaw.value.1 <==> flaw.value.0 == "STORAGE_ERROR")
            else Trusted(cfg, ev) && ev.location in sh.objects && AsDeclared(cfg, ev, sh.objects[ev.location])
  {
  }

  lemma UploadIsTold(cfg: Config, before: Shared, after: Shared, e: EventId, claim: Claim, pc: Pc)
    requires e in cfg.inputs && UploadEnds(cfg, before, after, e, claim, pc)
    ensures UploadTold(cfg, before, after, e, pc)
  {
    FlawIsTold(cfg, before, cfg.inputs[e]);
    if pc.Done? { FinishedIsTold(cfg, before, after, e); }
  }

  /** What a scan event leaves behind: recorded, and nothing announced. */
  predicate ScanFinished(cfg: Config, before: Shared, after: Shared, e: EventId)
    requires e in cfg.inputs
  {
    var ev := cfg.inputs[e];
    && OnlyRow(before, after, ev.file) && after.outbox == before.outbox && after.objects == before.objects
    && var m := after.meta[ev.file];
       m.status == Completed && m.last == Some(e) && m.location == ev.location && m.token.None?
       && m.hash == if ev.file in before.meta then before.meta[ev.file].hash else None
  }

  /** What a flawed upload leaves behind: a FAILED row and a failure event with its code; the
      event is marked as processed only if the failure is final. */
  predicate FailureFinished(cfg: Config, before: Shared, after: Shared, e: EventId, flaw: (string, bool))
    requires e in cfg.inputs
  {
    var ev := cfg.inputs[e];
    && OnlyRow(before, after, ev.file) && after.objects == before.objects
    && var m := after.meta[ev.file];
       var id := Failure(e, m.version, flaw.0, flaw.1);
       && m.status == Failed && m.token.None? && m.code == Some(flaw.0) && m.message.Some?
       && m.last == (if !flaw.1 then Some(e) else if ev.file in before.meta then before.meta[ev.file].last else None)
       && id !in before.outbox && id in after.outbox && after.outbox == before.outbox[id := after.outbox[id]]
       && after.outbox[id].file == ev.file && after.outbox[id].location == ev.location
       && after.outbox[id].body == Diagnostics(flaw.0, m.message.value, flaw.1)
  }

  /** The tables once a denied object is copied to its quarantine place. */
  function AfterCopy(cfg: Config, sh: Shared, ev: InputEvent): Shared
    requires ev.location in sh.objects
  {
    if Denied(sh.objects[ev.location].data) then Apply(cfg, sh, Copy(ev.location, Quarantine(cfg, ev))) else sh
  }

  /** What an event that is not a duplicate comes to when nobody disturbs its handling.  A
      sound upload is finished; only when the outbox has another completion of it already, with
      another stamp, does it fail. */
  predicate ClaimedEnds(cfg: Config, before: Shared, after: Shared, e: EventId, now: int, outcome: Outcome)
    requires e in cfg.inputs
  {
    var ev := cfg.inputs[e];
    if !CanClaim(Row(before, ev.file), e, now) then outcome == Unavailable && after == before
    else if ev.kind != FileUploaded then outcome == Returned && ScanFinished(cfg, before, after, e)
    else if Flaw(cfg, before, ev).Some? then
      && outcome == (if Flaw(cfg, before, ev).value.1 then Retryable else NonRetryable)
      && FailureFinished(cfg, before, after, e, Flaw(cfg, before, ev).value)
    else if outcome == Returned then
      Finished(cfg, before, after, e) && (Completion(e) in before.outbox ==> after.outbox == before.outbox)
    else
      && Completion(e) in before.outbox && outcome == Retryable
      && FailureFinished(cfg, AfterCopy(cfg, before, ev), after, e, ("STORAGE_ERROR", true))
  }

  /** What any delivered event comes to when nobody disturbs its handling. */
  predicate HandlingEnds(cfg: Config, before: Shared, after: Shared, e: EventId, now: int, outcome: Outcome)
    requires e in cfg.inputs
  {
    var ev := cfg.inputs[e];
    var duplicate := Duplicate(Row(before, ev.file), e);
    if duplicate.Some? then outcome == duplicate.value && after == before
    else if !Actionable(ev) then outcome == Returned && after == before
    else ClaimedEnds(cfg, before, after, e, now, outcome)
  }

  /** A loss on the last attempt is not retried. */
  function Last(fate: Fate, attempt: nat): Fate {
    if fate.LostRetried? && attempt + 1 >= ATTEMPTS then LostRaised(StorageFault) else fate
  }

  /** A call without an effect is heard or refused. */
  function Plain(fate: Fate): Fate {
    match fate
    case LostRetried => Refused(StorageFault)
    case LostRaised(kind) => Refused(kind)
    case _ => fate
  }

  class Service {
    const cfg: Config
    ghost const start: System
    var sys: System
    var calls: nat
    ghost var trace: seq<Step>

    ghost predicate Valid()
      reads this
    {
      Init(cfg, start) && Run(cfg, start, trace) == Some(sys)
    }

    /** The worker is there, works on an event that exists, and is at this kind of place. */
    predicate At(w: nat, e: EventId)
      reads this
    {
      w in sys.workers && sys.workers[w].event == e && e in cfg.inputs
    }

    constructor (cfg: Config, start: System)
      requires Init(cfg, start)
      ensures Valid() && this.cfg == cfg && sys == start
    {
      this.cfg, this.start, sys, calls, trace := cfg, start, start, 0, [];
    }

    method Perform(step: Step)
      requires Valid() && StepOf(cfg, sys, step).Some?
      modifies this
      ensures Valid() && trace == old(trace) + [step] && Some(sys) == StepOf(cfg, old(sys), step) && calls == old(calls)
    {
      assert (trace + [step])[..|trace|] == trace;
      sys := StepOf(cfg, sys, step).value;
      trace := trace + [step];
    }

    /** Other workers move: those of `steps` that can be taken and are not by `w`. */
    method Interfere(w: nat, steps: seq<Step>)
      requires Valid()
      modifies this
      ensures Valid() && old(trace) <= trace && calls == old(calls)
      ensures w in sys.workers <==> w in old(sys.workers)
      ensures w in sys.workers ==> sys.workers[w] == old(sys.workers[w])
      ensures steps == [] ==> sys == old(sys)
    {
      for i := 0 to |steps|
        invariant Valid() && old(trace) <= trace && calls == old(calls)
        invariant w in sys.workers <==> w in old(sys.workers)
        invariant w in sys.workers ==> sys.workers[w] == old(sys.workers[w])
        invariant i == 0 ==> sys == old(sys)
      {
        if steps[i].w != w && StepOf(cfg, sys, steps[i]).Some? {
          Perform(steps[i]);
        }
      }
    }

    /** One call of worker `w`, after the others have moved: as intended, or else refused. */
    method Call(w: nat, e: EventId, o: Oracle, act: Act, refused: Act)
      requires Valid() && At(w, e) && !act.ClaimRow? && !refused.ClaimRow?
      requires forall sh :: TurnOf(cfg, sh, sys.workers[w], cfg.inputs[e], refused).Some?
                            && Applicable(sh, TurnOf(cfg, sh, sys.workers[w], cfg.inputs[e], refused).value.effect)
      modifies this
      ensures Valid() && old(trace) <= trace && At(w, e) && calls == old(calls) + 1
      ensures Steps(cfg, old(sys.workers[w]), sys.workers[w], cfg.inputs[e], act)
              || Steps(cfg, old(sys.workers[w]), sys.workers[w], cfg.inputs[e], refused)
      ensures Quiet(o) ==> Took(cfg, old(sys.sh), sys.sh, old(sys.workers[w]), sys.workers[w], cfg.inputs[e], act)
    {
      Interfere(w, o.others(calls));
      calls := calls + 1;
      if StepOf(cfg, sys, Work(w, act)).Some? {
        Perform(Work(w, act));
      } else {
        Perform(Work(w, refused));
      }
    }

    /** Look for a previous result of this event; not Done means go on. */
    method IdempotentResult(w: nat, e: EventId, o: Oracle)
      requires Valid() && At(w, e) && (sys.workers[w].pc.Reading? || sys.workers[w].pc.Rereading?)
      modifies this
      ensures Valid() && old(trace) <= trace && At(w, e) && sys.workers[w].since == old(sys.workers[w].since)
      ensures sys.workers[w].pc.Done? || (old(sys.workers[w].pc.Reading?) && sys.workers[w].pc.Claiming?)
      ensures Quiet(o) ==>
                var duplicate := Duplicate(Row(old(sys.sh), cfg.inputs[e].file), e);
                && sys.sh == old(sys.sh) && calls == old(calls) + 1
                && sys.workers[w].pc == if duplicate.Some? then Done(duplicate.value, None)
                                        else if old(sys.workers[w].pc.Rereading?) then Done(Unavailable, None)
                                        else if !Actionable(cfg.inputs[e]) then Done(Returned, None)
                                        else Claiming
    {
      Call(w, e, o, ReadRow(Plain(o.fate(calls))), ReadRow(Refused(StorageFault)));
    }

    /** One attempt of the claiming update, with a token nobody has used. */
    method ClaimOnce(w: nat, e: EventId, o: Oracle, attempt: nat)
      requires Valid() && ClocksOk(cfg, o) && At(w, e) && sys.workers[w].pc.Claiming?
      modifies this
      ensures Valid() && old(trace) <= trace && At(w, e) && sys.workers[w].since == old(sys.workers[w].since)
      ensures calls == old(calls) + 1
      ensures var pc := sys.workers[w].pc;
              pc.Done? || pc.Rereading? || pc.Downloading? || pc.SavingScan? || (pc.Claiming? && attempt + 1 < ATTEMPTS)
      ensures Quiet(o) ==> ClaimEnds(cfg, old(sys.sh), sys.sh, e, o.at(old(calls)), o.local(old(calls)),
                                     o.stamp(old(calls)), sys.workers[w].pc)
    {
      Interfere(w, o.others(calls));
      var token := Above(sys.sh.tokens);
      var at, local, stamp, fate := o.at(calls), o.local(calls), o.stamp(calls), Last(o.fate(calls), attempt);
      calls := calls + 1;
      if StepOf(cfg, sys, Work(w, ClaimRow(token, at, local, stamp, fate))).Some? {
        if fate.Heard? { HeardClaim(cfg, sys.sh, sys.workers[w], e, token, at, local, stamp); }
        Perform(Work(w, ClaimRow(token, at, local, stamp, fate)));
      } else {
        Perform(Work(w, ClaimRow(token, at, local, stamp, Refused(StorageFault))));
      }
    }

    /** Acquire or take over the lease; a lost claim is tried again, against the lease it
        may itself have taken. */
    method ClaimProcessing(w: nat, e: EventId, o: Oracle)
      requires Valid() && ClocksOk(cfg, o) && At(w, e) && sys.workers[w].pc.Claiming?
      modifies this
      ensures Valid() && old(trace) <= trace && At(w, e) && sys.workers[w].since == old(sys.workers[w].since)
      ensures calls <= old(calls) + 3
      ensures var pc := sys.workers[w].pc; pc.Done? || pc.Rereading? || pc.Downloading? || pc.SavingScan?
      ensures Quiet(o) ==> ClaimEnds(cfg, old(sys.sh), sys.sh, e, o.at(old(calls)), o.local(old(calls)),
                                     o.stamp(old(calls)), sys.workers[w].pc)
    {
      var attempt := 0;
      while sys.workers[w].pc.Claiming?
        invariant Valid() && old(trace) <= trace && At(w, e) && sys.workers[w].since == old(sys.workers[w].since)
        invariant calls == old(calls) + attempt && attempt <= ATTEMPTS
        invariant var pc := sys.workers[w].pc;
                  pc.Done? || pc.Rereading? || pc.Downloading? || pc.SavingScan? || pc.Claiming?
        invariant sys.workers[w].pc.Claiming? ==> attempt < ATTEMPTS
        invariant attempt == 0 ==> sys == old(sys) && calls == old(calls)
        invariant attempt > 0 && Quiet(o) ==> ClaimEnds(cfg, old(sys.sh), sys.sh, e, o.at(old(calls)),
                                                        o.local(old(calls)), o.stamp(old(calls)), sys.workers[w].pc)
        decreases ATTEMPTS - attempt
      {
        ClaimOnce(w, e, o, attempt);
        attempt := attempt + 1;
      }
    }

    /** One attempt of the transaction. */
    method TransactOnce(w: nat, e: EventId, o: Oracle, attempt: nat)
      requires Valid() && At(w, e) && sys.workers[w].pc.Saving?
      modifies this
      ensures Valid() && old(trace) <= trace && At(w, e) && sys.workers[w].since == old(sys.workers[w].since)
      ensures calls == old(calls) + 1
      ensures var job, pc := old(sys.workers[w].pc.job), sys.workers[w].pc;
              Settled(job, pc) || pc == CheckingReplay(job) || (pc.Saving? && pc.job == job && attempt + 1 < ATTEMPTS)
      ensures Quiet(o) ==>
                TransactEnds(cfg, old(sys.sh), sys.sh, e, old(sys.workers[w].pc.job), sys.workers[w].pc)
    {
      var act := Transact(Last(o.fate(calls), attempt), o.deduplicated(calls));
      Call(w, e, o, act, Transact(Refused(StorageFault), false));
    }

    /** The transaction, with its retries. */
    method TransactWrite(w: nat, e: EventId, o: Oracle)
      requires Valid() && At(w, e) && sys.workers[w].pc.Saving?
      modifies this
      ensures Valid() && old(trace) <= trace && At(w, e) && sys.workers[w].since == old(sys.workers[w].since)
      ensures calls <= old(calls) + 3
      ensures Settled(old(sys.workers[w].pc.job), sys.workers[w].pc)
              || sys.workers[w].pc == CheckingReplay(old(sys.workers[w].pc.job))
      ensures Quiet(o) ==>
                TransactEnds(cfg, old(sys.sh), sys.sh, e, old(sys.workers[w].pc.job), sys.workers[w].pc)
    {
      var attempt := 0;
      ghost var job := sys.workers[w].pc.job;
      while sys.workers[w].pc.Saving?
        invariant Valid() && old(trace) <= trace && At(w, e) && sys.workers[w].since == old(sys.workers[w].since)
        invariant calls == old(calls) + attempt && attempt <= ATTEMPTS
        invariant var pc := sys.workers[w].pc;
                  Settled(job, pc) || pc == CheckingReplay(job) || (pc.Saving? && pc.job == job && attempt < ATTEMPTS)
        invariant attempt == 0 ==> sys == old(sys)
        invariant attempt > 0 && Quiet(o) ==> TransactEnds(cfg, old(sys.sh), sys.sh, e, job, sys.workers[w].pc)
        decreases ATTEMPTS - attempt
      {
        TransactOnce(w, e, o, attempt);
        attempt := attempt + 1;
      }
    }

    /** After a cancelled transaction: is the very event in the outbox already? */
    method IsIdempotentReplay(w: nat, e: EventId, o: Oracle)
      requires Valid() && At(w, e) && sys.workers[w].pc.CheckingReplay?
      modifies this
      ensures Valid() && old(trace) <= trace && At(w, e) && sys.workers[w].since == old(sys.workers[w].since)
      ensures Settled(old(sys.workers[w].pc.job), sys.workers[w].pc)
              || sys.workers[w].pc == Restoring(old(sys.workers[w].pc.job))
      ensures Quiet(o) ==>
                sys.sh == old(sys.sh)
                && sys.workers[w].pc == if Persisted(sys.sh, old(sys.workers[w].pc.job.out))
                                        then Restoring(old(sys.workers[w].pc.job))
                                        else NotSaved(old(sys.workers[w].pc.job), StorageFault)
    {
      Call(w, e, o, ReadOutbox(Plain(o.fate(calls))), ReadOutbox(Refused(StorageFault)));
    }

    /** Apply the fenced metadata update alone; it is not retried. */
    method RestoreMetadata(w: nat, e: EventId, o: Oracle)
      requires Valid() && At(w, e) && sys.workers[w].pc.Restoring?
      modifies this
      ensures Valid() && old(trace) <= trace && At(w, e) && sys.workers[w].since == old(sys.workers[w].since)
      ensures Settled(old(sys.workers[w].pc.job), sys.workers[w].pc)
              || sys.workers[w].pc == CheckingResult(old(sys.workers[w].pc.job))
      ensures Quiet(o) ==>
                RestoredNow(cfg, old(sys.sh), sys.sh, e, old(sys.workers[w].pc.job), sys.workers[w].pc)
    {
      Call(w, e, o, Restore(o.fate(calls)), Restore(Refused(StorageFault)));
    }

    /** The fence refused the restore: does the row hold the result all the same? */
    method MetadataHasResult(w: nat, e: EventId, o: Oracle)
      requires Valid() && At(w, e) && sys.workers[w].pc.CheckingResult?
      modifies this
      ensures Valid() && old(trace) <= trace && At(w, e) && sys.workers[w].since == old(sys.workers[w].since)
      ensures Settled(old(sys.workers[w].pc.job), sys.workers[w].pc)
      ensures Quiet(o) ==>
                sys.sh == old(sys.sh)
                && sys.workers[w].pc ==
                   if HasResult(sys.sh, cfg.inputs[e].file, old(sys.workers[w].pc.job.write))
                   then Saved(old(sys.workers[w].pc.job)) else NotSaved(old(sys.workers[w].pc.job), StorageFault)
    {
      Call(w, e, o, ReadResult(Plain(o.fate(calls))), ReadResult(Refused(StorageFault)));
    }

    /** Save the record and the outbox event together; when the event is there already,
        restore the record alone; and when that is refused, look whether it is there. */
    method SaveWithOutbox(w: nat, e: EventId, o: Oracle)
      requires Valid() && At(w, e) && sys.workers[w].pc.Saving?
      modifies this
      ensures Valid() && old(trace) <= trace && At(w, e) && sys.workers[w].since == old(sys.workers[w].since)
      ensures Settled(old(sys.workers[w].pc.job), sys.workers[w].pc)
      ensures Quiet(o) ==>
                SaveEnds(cfg, old(sys.sh), sys.sh, e, old(sys.workers[w].pc.job), sys.workers[w].pc)
    {
      TransactWrite(w, e, o);
      if sys.workers[w].pc.CheckingReplay? {
        IsIdempotentReplay(w, e, o);
        if sys.workers[w].pc.Restoring? {
          RestoreMetadata(w, e, o);
          if sys.workers[w].pc.CheckingResult? {
            MetadataHasResult(w, e, o);
          }
        }
      }
    }

    /** Download the object and check it; a denied one has to be quarantined. */
    method Download(w: nat, e: EventId, o: Oracle)
      requires Valid() && At(w, e) && sys.workers[w].pc.Downloading?
      modifies this
      ensures Valid() && old(trace) <= trace && At(w, e) && sys.workers[w].since == old(sys.workers[w].since)
      ensures var pc := sys.workers[w].pc; pc.Failing? || pc.Copying? || (pc.Saving? && pc.job.after.Complete?)
      ensures Quiet(o) ==>
                sys.sh == old(sys.sh)
                && Checked(cfg, sys.sh, e, old(sys.workers[w].pc.claim), o.stamp(old(calls)), sys.workers[w].pc)
    {
      Call(w, e, o, Fetch(o.stamp(calls), Plain(o.fate(calls))), Fetch(0, Refused(StorageFault)));
    }

    /** The save returned: go on to the cleanup, or to the end. */
    method GoOn(w: nat, e: EventId, o: Oracle)
      requires Valid() && At(w, e) && sys.workers[w].pc.Saved?
      modifies this
      ensures Valid() && old(trace) <= trace && At(w, e) && sys.workers[w].since == old(sys.workers[w].since)
      ensures sys.workers[w].pc == Onward(old(sys.workers[w].pc.job))
      ensures Quiet(o) ==> sys.sh == old(sys.sh)
    {
      Call(w, e, o, Resume, Resume);
    }

    /** Copy the object to its quarantine place. */
    method QuarantineFile(w: nat, e: EventId, o: Oracle)
      requires Valid() && At(w, e) && sys.workers[w].pc.Copying?
      modifies this
      ensures Valid() && old(trace) <= trace && At(w, e) && sys.workers[w].since == old(sys.workers[w].since)
      ensures calls <= old(calls) + 3
      ensures var pc := sys.workers[w].pc; pc.Failing? || (pc.Saving? && pc.job.after.Complete?)
      ensures Quiet(o) && cfg.inputs[e].location in old(sys.sh.objects) ==>
                CopiedNow(cfg, old(sys.sh), sys.sh, e, old(sys.workers[w].pc.claim), o.stamp(old(calls)),
                          sys.workers[w].pc)
                && QuarantinedAt(cfg, sys.sh.objects, cfg.inputs[e], old(sys.sh.objects)[cfg.inputs[e].location])
    {
      var attempt := 0;
      while sys.workers[w].pc.Copying?
        invariant Valid() && old(trace) <= trace && At(w, e) && sys.workers[w].since == old(sys.workers[w].since)
        invariant calls == old(calls) + attempt && attempt <= ATTEMPTS
        invariant var pc := sys.workers[w].pc;
                  pc.Failing? || (pc.Saving? && pc.job.after.Complete?) || (pc.Copying? && attempt < ATTEMPTS)
        invariant attempt == 0 ==> sys == old(sys) && calls == old(calls)
        invariant attempt > 0 && Quiet(o) && cfg.inputs[e].location in old(sys.sh.objects) ==>
                    CopiedNow(cfg, old(sys.sh), sys.sh, e, old(sys.workers[w].pc.claim), o.stamp(old(calls)),
                              sys.workers[w].pc)
        decreases ATTEMPTS - attempt
      {
        var act := CopyObject(o.stamp(calls), Last(o.fate(calls), attempt));
        Call(w, e, o, act, CopyObject(0, Refused(StorageFault)));
        attempt := attempt + 1;
      }
    }

    /** Source cleanup after the commit. */
    method DeleteSource(w: nat, e: EventId, o: Oracle)
      requires Valid() && At(w, e) && sys.workers[w].pc.Deleting?
      modifies this
      ensures Valid() && old(trace) <= trace && At(w, e) && sys.workers[w].since == old(sys.workers[w].since)
      ensures calls <= old(calls) + 3
      ensures sys.workers[w].pc.Done? || sys.workers[w].pc.Failing?
      ensures StorageErrorsOnly(o) ==> sys.workers[w].pc == Done(Returned, Some(old(sys.workers[w].pc.claim)))
      ensures Quiet(o) ==>
                sys.workers[w].pc == Done(Returned, Some(old(sys.workers[w].pc.claim)))
                && sys.sh == Apply(cfg, old(sys.sh), Remove(cfg.inputs[e].location, e))
    {
      var attempt := 0;
      while sys.workers[w].pc.Deleting?
        invariant Valid() && old(trace) <= trace && At(w, e) && sys.workers[w].since == old(sys.workers[w].since)
        invariant calls == old(calls) + attempt && attempt <= ATTEMPTS
        invariant var pc := sys.workers[w].pc; pc.Done? || pc.Failing? || (pc.Deleting? && attempt < ATTEMPTS)
        invariant attempt == 0 ==> sys == old(sys)
        invariant StorageErrorsOnly(o) ==>
                    sys.workers[w].pc in {old(sys.workers[w].pc), Done(Returned, Some(old(sys.workers[w].pc.claim)))}
        invariant attempt > 0 && Quiet(o) ==>
                    sys.workers[w].pc == Done(Returned, Some(old(sys.workers[w].pc.claim)))
                    && sys.sh == Apply(cfg, old(sys.sh), Remove(cfg.inputs[e].location, e))
        decreases ATTEMPTS - attempt
      {
        Call(w, e, o, FileProcessor.DeleteSource(Last(o.fate(calls), attempt)),
             FileProcessor.DeleteSource(Refused(StorageFault)));
        attempt := attempt + 1;
      }
    }

    /** Check and analyse the object, and quarantine it if it is denied. */
    method PrepareUpload(w: nat, e: EventId, o: Oracle)
      requires Valid() && At(w, e) && sys.workers[w].pc.Downloading?
      modifies this
      ensures Valid() && old(trace) <= trace && At(w, e) && sys.workers[w].since == old(sys.workers[w].since)
      ensures var pc := sys.workers[w].pc; pc.Failing? || (pc.Saving? && pc.job.after.Complete?)
      ensures Quiet(o) ==>
                PreparedNow(cfg, old(sys.sh), sys.sh, e, old(sys.workers[w].pc.claim), sys.workers[w].pc)
    {
      Download(w, e, o);
      if sys.workers[w].pc.Copying? {
        QuarantineFile(w, e, o);
      }
    }

    /** Save the result, and clean up the source of a quarantined object. */
    method ConcludeUpload(w: nat, e: EventId, o: Oracle)
      requires Valid() && At(w, e) && sys.workers[w].pc.Saving? && sys.workers[w].pc.job.after.Complete?
      modifies this
      ensures Valid() && old(trace) <= trace && At(w, e) && sys.workers[w].since == old(sys.workers[w].since)
      ensures sys.workers[w].pc.Done? || sys.workers[w].pc.Failing?
      ensures Quiet(o) && Fenced(Row(old(sys.sh), cfg.inputs[e].file), old(sys.workers[w].pc.job.claim)) ==>
                ConcludedNow(cfg, old(sys.sh), sys.sh, e, old(sys.workers[w].pc.job), sys.workers[w].pc)
    {
      SaveWithOutbox(w, e, o);
      if sys.workers[w].pc.Saved? {
        GoOn(w, e, o);
        if sys.workers[w].pc.Deleting? {
          DeleteSource(w, e, o);
        }
      }
    }

    method ProcessPrepared(w: nat, e: EventId, o: Oracle)
      requires Valid() && At(w, e) && sys.workers[w].pc.Downloading?
      modifies this
      ensures Valid() && old(trace) <= trace && At(w, e) && sys.workers[w].since == old(sys.workers[w].since)
      ensures sys.workers[w].pc.Done? || sys.workers[w].pc.Failing?
      ensures Quiet(o) && Fenced(Row(old(sys.sh), cfg.inputs[e].file), old(sys.workers[w].pc.claim)) ==>
                UploadEnds(cfg, old(sys.sh), sys.sh, e, old(sys.workers[w].pc.claim), sys.workers[w].pc)
    {
      PrepareUpload(w, e, o);
      if sys.workers[w].pc.Saving? {
        ConcludeUpload(w, e, o);
      }
    }

    /** Check, analyse, quarantine if denied, save, clean up. */
    method ProcessUploadedFile(w: nat, e: EventId, o: Oracle)
      requires Valid() && At(w, e) && sys.workers[w].pc.Downloading?
      modifies this
      ensures Valid() && old(trace) <= trace && At(w, e) && sys.workers[w].since == old(sys.workers[w].since)
      ensures sys.workers[w].pc.Done? || sys.workers[w].pc.Failing?
      ensures Quiet(o) && Fenced(Row(old(sys.sh), cfg.inputs[e].file), old(sys.workers[w].pc.claim)) ==>
                UploadEnds(cfg, old(sys.sh), sys.sh, e, old(sys.workers[w].pc.claim), sys.workers[w].pc)
                && UploadTold(cfg, old(sys.sh), sys.sh, e, sys.workers[w].pc)
    {
      ghost var before, claim := sys.sh, sys.workers[w].pc.claim;
      ProcessPrepared(w, e, o);
      if Quiet(o) && Fenced(Row(before, cfg.inputs[e].file), claim) {
        UploadIsTold(cfg, before, sys.sh, e, claim, sys.workers[w].pc);
      }
    }

    /** Record a scan event under the lease. */
    method ProcessScannedFile(w: nat, e: EventId, o: Oracle)
      requires Valid() && At(w, e) && sys.workers[w].pc.SavingScan?
      modifies this
      ensures Valid() && old(trace) <= trace && At(w, e) && sys.workers[w].since == old(sys.workers[w].since)
      ensures calls <= old(calls) + 3
      ensures sys.workers[w].pc.Done? || sys.workers[w].pc.Failing?
      ensures Quiet(o) && Fenced(Row(old(sys.sh), cfg.inputs[e].file), old(sys.workers[w].pc.claim)) ==>
                ScanRecorded(cfg, old(sys.sh), sys.sh, e, old(sys.workers[w].pc.claim), old(sys.workers[w].pc.write),
                             sys.workers[w].pc)
    {
      var attempt := 0;
      while sys.workers[w].pc.SavingScan?
        invariant Valid() && old(trace) <= trace && At(w, e) && sys.workers[w].since == old(sys.workers[w].since)
        invariant calls == old(calls) + attempt && attempt <= ATTEMPTS
        invariant var pc := sys.workers[w].pc; pc.Done? || pc.Failing? || (pc.SavingScan? && attempt < ATTEMPTS)
        invariant attempt == 0 ==> sys == old(sys)
        invariant attempt > 0 && Quiet(o)
                  && Fenced(Row(old(sys.sh), cfg.inputs[e].file), old(sys.workers[w].pc.claim)) ==>
                    ScanRecorded(cfg, old(sys.sh), sys.sh, e, old(sys.workers[w].pc.claim),
                                 old(sys.workers[w].pc.write), sys.workers[w].pc)
        decreases ATTEMPTS - attempt
      {
        Call(w, e, o, SaveScan(Last(o.fate(calls), attempt)), SaveScan(Refused(StorageFault)));
        attempt := attempt + 1;
      }
    }

    /** Build the failure record and event; without a message there is none. */
    method BuildFailure(w: nat, e: EventId, o: Oracle)
      requires Valid() && At(w, e) && sys.workers[w].pc.Failing?
      modifies this
      ensures Valid() && old(trace) <= trace && At(w, e) && sys.workers[w].since == old(sys.workers[w].since)
      ensures var f, pc := old(sys.workers[w].pc), sys.workers[w].pc;
              if f.message == "" || f.code == "" then pc == Done(f.outcome, Some(f.claim))
              else pc.Saving? && pc.job == FailureJob(e, cfg.inputs[e], f.claim, f.message, f.code, f.retryable,
                                                      f.outcome, o.stamp(old(calls)), pc.job.since)
      ensures Quiet(o) ==> sys.sh == old(sys.sh)
    {
      Call(w, e, o, Diagnose(o.stamp(calls)), Diagnose(o.stamp(calls)));
    }

    /** Persist the diagnostics; an error while doing so is swallowed. */
    method HandleFailure(w: nat, e: EventId, o: Oracle)
      requires Valid() && At(w, e) && sys.workers[w].pc.Failing?
      modifies this
      ensures Valid() && old(trace) <= trace && At(w, e) && sys.workers[w].since == old(sys.workers[w].since)
      ensures sys.workers[w].pc == Done(old(sys.workers[w].pc.outcome), Some(old(sys.workers[w].pc.claim)))
      ensures var f := old(sys.workers[w].pc);
              Quiet(o) && Fenced(Row(old(sys.sh), cfg.inputs[e].file), f.claim) ==>
                && (Fenced(Row(sys.sh, cfg.inputs[e].file), f.claim) <==> f.message == "")
                && if f.message == "" then sys.sh == old(sys.sh)
                   else FailureRecorded(cfg, old(sys.sh), sys.sh, e, f, o.stamp(old(calls)))
      ensures Quiet(o) && !Fenced(Row(old(sys.sh), cfg.inputs[e].file), old(sys.workers[w].pc.claim)) ==>
                sys.sh == old(sys.sh)
    {
      FailingTells(cfg, start, trace, w);
      ghost var f, before, stamp := sys.workers[w].pc, sys.sh, o.stamp(calls);
      BuildFailure(w, e, o);
      if sys.workers[w].pc.Saving? {
        ghost var job := sys.workers[w].pc.job;
        SaveWithOutbox(w, e, o);
        if Quiet(o) && Fenced(Row(before, cfg.inputs[e].file), f.claim) {
          ReportSaved(cfg, before, sys.sh, e, f, stamp, job, sys.workers[w].pc);
        }
        if sys.workers[w].pc.Saved? {
          GoOn(w, e, o);
        }
      }
    }

    /** Process the event under its lease, and on an error report it. */
    method ProcessLeased(w: nat, e: EventId, o: Oracle)
      requires Valid() && At(w, e) && (sys.workers[w].pc.Downloading? || sys.workers[w].pc.SavingScan?)
      modifies this
      ensures Valid() && old(trace) <= trace && At(w, e) && sys.workers[w].since == old(sys.workers[w].since)
      ensures sys.workers[w].pc.Done?
      ensures Quiet(o) && Fenced(Row(old(sys.sh), cfg.inputs[e].file), old(sys.workers[w].pc.claim)) ==>
                LeasedEnds(cfg, old(sys.sh), sys.sh, e, old(sys.workers[w].pc), sys.workers[w].pc.outcome)
    {
      if sys.workers[w].pc.Downloading? {
        ProcessUploadedFile(w, e, o);
      } else {
        ProcessScannedFile(w, e, o);
      }
      if sys.workers[w].pc.Failing? {
        HandleFailure(w, e, o);
      }
    }

    /** Claim, process, and on an error report it; or, if another worker has the lease, look
        whether it has finished meanwhile. */
    method ProcessClaimed(w: nat, e: EventId, o: Oracle)
      requires Valid() && ClocksOk(cfg, o) && At(w, e) && sys.workers[w].pc.Claiming?
      modifies this
      ensures Valid() && old(trace) <= trace && At(w, e) && sys.workers[w].since == old(sys.workers[w].since)
      ensures sys.workers[w].pc.Done?
      ensures Quiet(o) && Duplicate(Row(old(sys.sh), cfg.inputs[e].file), e).None? ==>
                ClaimedEnds(cfg, old(sys.sh), sys.sh, e, o.local(old(calls)).Floor, sys.workers[w].pc.outcome)
    {
      ghost var before, at, local, stamp := sys.sh, o.at(calls), o.local(calls), o.stamp(calls);
      ClaimProcessing(w, e, o);
      if sys.workers[w].pc.Rereading? {
        IdempotentResult(w, e, o);
      } else if !sys.workers[w].pc.Done? {
        ghost var leased, pc := sys.sh, sys.workers[w].pc;
        ProcessLeased(w, e, o);
        if Quiet(o) {
          LeaseThenEnd(cfg, before, leased, sys.sh, e, at, local, stamp, pc, sys.workers[w].pc.outcome);
        }
      }
    }

    /** A new delivery of the event, to a worker nobody has been yet. */
    method Receive(e: EventId) returns (w: nat)
      requires Valid() && e in cfg.inputs
      modifies this
      ensures Valid() && old(trace) <= trace && sys.sh == old(sys.sh) && calls == old(calls)
      ensures At(w, e) && sys.workers[w].pc.Reading? && sys.workers[w].since == |sys.sh.past|
    {
      w := Above(sys.workers.Keys);
      Perform(Deliver(w, e));
    }

    /**
     Handle one delivered event, to its end.  Whatever others do and whatever becomes of
     the calls: if it returns for an upload or a scan, the row was COMPLETED for this very
     event at some moment of this handling; and if every table call was heard and every
     failure had a message, none of its leases is left on the row.  And when nobody else
     moves and every call is heard, a duplicate, an event of another kind and an event of a
     file that is not free change nothing; a scan event is recorded; an upload that fails a
     check, or whose object is missing, is recorded and announced as failed; and a sound one is
     finished, and quarantined if it is denied.
     */
    method Handle(e: EventId, o: Oracle) returns (outcome: Outcome, ghost w: nat)
      requires Valid() && ClocksOk(cfg, o) && e in cfg.inputs
      modifies this
      ensures Valid() && old(trace) <= trace && At(w, e) && sys.workers[w].pc.Done?
              && sys.workers[w].pc.outcome == outcome
      ensures outcome == Returned && Actionable(cfg.inputs[e]) ==>
                DoneSince(sys.sh, cfg.inputs[e].file, |old(sys.sh.past)|, e)
      ensures var wk := sys.workers[w];
              wk.pc.held.Some? && wk.clean && !wk.mute ==> Over(sys.sh, cfg.inputs[e].file, wk.pc.held.value)
      ensures Quiet(o) ==>
                HandlingEnds(cfg, old(sys.sh), sys.sh, e, o.local(old(calls) + 1).Floor, outcome)
      ensures Quiet(o) && cfg.inputs[e].kind == FileUploaded && outcome == Returned
              && Duplicate(Row(old(sys.sh), cfg.inputs[e].file), e).None? ==>
                VerdictTold(cfg, old(sys.sh), sys.sh, e)
    {
      ghost var before := sys.sh;
      var me := Receive(e);
      w := me;
      IdempotentResult(me, e, o);
      if sys.workers[me].pc.Claiming? {
        ProcessClaimed(me, e, o);
      }
      outcome := sys.workers[me].pc.outcome;
      EndTells(cfg, start, trace, me);
      if Quiet(o) && cfg.inputs[e].kind == FileUploaded && outcome == Returned
         && Duplicate(Row(before, cfg.inputs[e].file), e).None? {
        FinishedIsTold(cfg, before, sys.sh, e);
      }
    }
  }

  /** What the end of a worker tells about the tables. */
  lemma EndTells(cfg: Config, start: System, steps: seq<Step>, w: nat)
    requires Init(cfg, start) && Run(cfg, start, steps).Some?
    requires w in Run(cfg, start, steps).value.workers && Run(cfg, start, steps).value.workers[w].pc.Done?
    ensures var sys := Run(cfg, start, steps).value;
            var wk := sys.workers[w];
            && wk.event in cfg.inputs
            && (wk.pc.outcome == Returned && Actionable(cfg.inputs[wk.event]) ==>
                  DoneSince(sys.sh, cfg.inputs[wk.event].file, wk.since, wk.event))
            && (wk.pc.held.Some? && wk.clean && !wk.mute ==> Over(sys.sh, cfg.inputs[wk.event].file, wk.pc.held.value))
  {
    RunKeepsInv(cfg, start, steps);
    var sys := Run(cfg, start, steps).value;
    assert WorkerOk(cfg, sys.sh, sys.workers[w]);
  }

  /** What a worker that is about to report a failure knows: the error has a code, and while
      it holds its lease nothing has been reported under it. */
  lemma FailingTells(cfg: Config, start: System, steps: seq<Step>, w: nat)
    requires Init(cfg, start) && Run(cfg, start, steps).Some?
    requires w in Run(cfg, start, steps).value.workers && Run(cfg, start, steps).value.workers[w].pc.Failing?
    ensures var sys := Run(cfg, start, steps).value;
            var wk := sys.workers[w];
            && wk.event in cfg.inputs && wk.pc.code != ""
            && (Fenced(Row(sys.sh, cfg.inputs[wk.event].file), wk.pc.claim) ==>
                  forall code, retryable :: Failure(wk.event, wk.pc.claim.version, code, retryable) !in sys.sh.outbox)
  {
    RunKeepsInv(cfg, start, steps);
    var sys := Run(cfg, start, steps).value;
    var wk := sys.workers[w];
    assert WorkerOk(cfg, sys.sh, wk);
    forall code, retryable | Failure(wk.event, wk.pc.claim.version, code, retryable) in sys.sh.outbox
      ensures !Fenced(Row(sys.sh, cfg.inputs[wk.event].file), wk.pc.claim)
    {
      assert OutboxRowOk(cfg, sys.sh, Failure(wk.event, wk.pc.claim.version, code, retryable));
    }
  }

  /** A row that can be claimed carries the worker's new lease, and nothing else changed;
      otherwise nothing changed and the row is read once more. */
  predicate ClaimEnds(cfg: Config, before: Shared, after: Shared, e: EventId, at: real, local: real, stamp: Stamp,
                      pc: Pc)
    requires e in cfg.inputs
  {
    if CanClaim(Row(before, cfg.inputs[e].file), e, local.Floor)
    then LeaseTaken(cfg, before, after, e, at, local, stamp, pc)
    else after == before && pc == Rereading
  }

  /** The row under a new lease: one version further, its errors gone, its result kept. */
  predicate LeasedRow(before: Option<Meta>, m: Meta, e: EventId, token: Token, expires: int) {
    && m.status == Processing && m.token == Some(token) && m.expires == Some(expires) && m.processing == Some(e)
    && m.message.None? && m.code.None?
    && match before
       case None => m.version == 1 && m.last.None? && m.hash.None?
       case Some(b) => m.version == b.version + 1 && m.last == b.last && m.hash == b.hash && m.location == b.location
  }

  lemma HeardClaim(cfg: Config, sh: Shared, wk: Worker, e: EventId, token: Token, at: real, local: real, stamp: Stamp)
    requires e in cfg.inputs && wk.event == e && wk.pc.Claiming? && token !in sh.tokens
    ensures var t := ClaimTurn(sh, wk, cfg.inputs[e], ClaimRow(token, at, local, stamp, Heard)).value;
            Applicable(sh, t.effect) && ClaimEnds(cfg, sh, Apply(cfg, sh, t.effect), e, at, local, stamp, t.pc)
  {
  }

  predicate LeaseTaken(cfg: Config, before: Shared, after: Shared, e: EventId, at: real, local: real, stamp: Stamp,
                       pc: Pc)
    requires e in cfg.inputs && CanClaim(Row(before, cfg.inputs[e].file), e, local.Floor)
  {
    var ev := cfg.inputs[e];
    && (if ev.kind == FileUploaded then pc.Downloading?
        else pc.SavingScan? && pc.write == ScanWrite(e, ev, stamp))
    && pc.claim.token !in before.tokens && Fenced(Row(after, ev.file), pc.claim)
    && LeasedRow(Row(before, ev.file), after.meta[ev.file], e, pc.claim.token, local.Floor + cfg.lease)
    && after == Apply(cfg, before, Grant(ev.file, e, pc.claim.token, at, local, ev.location, stamp))
  }

  /** A flawed upload is to be reported, a denied one copied, an allowed one saved. */
  predicate Checked(cfg: Config, sh: Shared, e: EventId, claim: Claim, stamp: Stamp, pc: Pc)
    requires e in cfg.inputs
  {
    var flaw := Flaw(cfg, sh, cfg.inputs[e]);
    pc == if flaw.Some? then Flawed(claim, flaw.value)
          else if Denied(sh.objects[cfg.inputs[e].location].data) then Copying(claim)
          else Saving(CompletionJob(cfg, e, cfg.inputs[e], claim, false, stamp, |sh.past|), false)
  }

  /** A flawed upload is to be reported; a sound object is copied if it is denied, and the
      save is next. */
  predicate PreparedNow(cfg: Config, before: Shared, after: Shared, e: EventId, claim: Claim, pc: Pc)
    requires e in cfg.inputs
  {
    var ev := cfg.inputs[e];
    var flaw := Flaw(cfg, before, ev);
    if flaw.Some? then after == before && pc == Flawed(claim, flaw.value)
    else
      var denied := Denied(before.objects[ev.location].data);
      && after == AfterCopy(cfg, before, ev)
      && pc.Saving? && pc.job == CompletionJob(cfg, e, ev, claim, denied, pc.job.out.stamp, |before.past|)
  }

  /** Under its lease a flawed upload is to be reported, and a sound one is finished unless
      the outbox has another completion of it. */
  predicate UploadEnds(cfg: Config, before: Shared, after: Shared, e: EventId, claim: Claim, pc: Pc)
    requires e in cfg.inputs
  {
    var flaw := Flaw(cfg, before, cfg.inputs[e]);
    if flaw.Some? then after == before && pc == Flawed(claim, flaw.value)
    else if pc.Done? then
      && pc == Done(Returned, Some(claim)) && Finished(cfg, before, after, e)
      && (Completion(e) in before.outbox ==> after.outbox == before.outbox)
    else
      && Completion(e) in before.outbox && pc == Flawed(claim, ("STORAGE_ERROR", true))
      && after == AfterCopy(cfg, before, cfg.inputs[e])
  }

  /** The result is saved, the source of a quarantined object is gone, the handler returns;
      but if the outbox has another event under this id nothing changes, and that is reported. */
  predicate ConcludedNow(cfg: Config, before: Shared, after: Shared, e: EventId, job: Job, pc: Pc)
    requires e in cfg.inputs && Fenced(Row(before, cfg.inputs[e].file), job.claim) && job.after.Complete?
  {
    var ev := cfg.inputs[e];
    var id := job.out.id;
    if id in before.outbox && before.outbox[id] != job.out then
      after == before && pc == Flawed(job.claim, ("STORAGE_ERROR", true))
    else
      var saved := Apply(cfg, before, Commit(ev.file, job.claim, job.write,
                                             if id in before.outbox then None else Some(job.out)));
      && pc == Done(Returned, Some(job.claim))
      && after == if job.after.quarantined then Apply(cfg, saved, Remove(ev.location, e)) else saved
  }

  predicate CopiedNow(cfg: Config, before: Shared, after: Shared, e: EventId, claim: Claim, stamp: Stamp, pc: Pc)
    requires e in cfg.inputs && cfg.inputs[e].location in before.objects
  {
    && after == Apply(cfg, before, Copy(cfg.inputs[e].location, Quarantine(cfg, cfg.inputs[e])))
    && pc == Saving(CompletionJob(cfg, e, cfg.inputs[e], claim, true, stamp, |before.past|), false)
  }

  /** The transaction is applied under the lease if the event is new; otherwise it is
      cancelled and nothing changes. */
  predicate TransactEnds(cfg: Config, before: Shared, after: Shared, e: EventId, job: Job, pc: Pc)
    requires e in cfg.inputs
  {
    if Fenced(Row(before, cfg.inputs[e].file), job.claim) && job.out.id !in before.outbox
    then after == Apply(cfg, before, Commit(cfg.inputs[e].file, job.claim, job.write, Some(job.out)))
        && pc == Saved(job)
    else after == before && pc == CheckingReplay(job)
  }

  /** What a leased event comes to when nobody disturbs its processing. */
  ghost predicate LeasedEnds(cfg: Config, before: Shared, after: Shared, e: EventId, pc: Pc, outcome: Outcome)
    requires e in cfg.inputs && (pc.Downloading? || pc.SavingScan?)
    requires Fenced(Row(before, cfg.inputs[e].file), pc.claim)
  {
    var flaw := Flaw(cfg, before, cfg.inputs[e]);
    if pc.SavingScan? then
      outcome == Returned && after == Apply(cfg, before, Commit(cfg.inputs[e].file, pc.claim, pc.write, None))
    else if flaw.Some? then
      && outcome == (if flaw.value.1 then Retryable else NonRetryable)
      && exists stamp :: FailureRecorded(cfg, before, after, e, Flawed(pc.claim, flaw.value), stamp)
    else if outcome == Returned then
      Finished(cfg, before, after, e) && (Completion(e) in before.outbox ==> after.outbox == before.outbox)
    else
      && Completion(e) in before.outbox && outcome == Retryable
      && exists stamp :: FailureRecorded(cfg, AfterCopy(cfg, before, cfg.inputs[e]), after, e,
                                         Flawed(pc.claim, ("STORAGE_ERROR", true)), stamp)
  }

  /** A report that is saved under the lease releases it. */
  lemma ReportSaved(cfg: Config, before: Shared, after: Shared, e: EventId, f: Pc, stamp: Stamp, job: Job, pc: Pc)
    requires e in cfg.inputs && f.Failing? && Fenced(Row(before, cfg.inputs[e].file), f.claim)
    requires Failure(e, f.claim.version, Shorten(f.code, 100), f.retryable) !in before.outbox
    requires f.message != "" && f.code != ""
    requires job == FailureJob(e, cfg.inputs[e], f.claim, f.message, f.code, f.retryable, f.outcome, stamp, job.since)
    requires SaveEnds(cfg, before, after, e, job, pc)
    ensures pc == Saved(job) && FailureRecorded(cfg, before, after, e, f, stamp)
    ensures !Fenced(Row(after, cfg.inputs[e].file), f.claim)
  {
  }

  /** The grant and a failure reported under it, taken together; an object may have been copied
      in between. */
  lemma LeaseThenFailure(cfg: Config, before: Shared, leased: Shared, mid: Shared, after: Shared, e: EventId,
                         at: real, local: real, stamp: Stamp, pc: Pc, flaw: (string, bool), reported: Stamp)
    requires e in cfg.inputs && CanClaim(Row(before, cfg.inputs[e].file), e, local.Floor)
    requires LeaseTaken(cfg, before, leased, e, at, local, stamp, pc) && 0 < |flaw.0| <= 100
    requires flaw.1 ==> flaw.0 == "STORAGE_ERROR"
    requires mid == leased.(objects := mid.objects)
    requires FailureRecorded(cfg, mid, after, e, Flawed(pc.claim, flaw), reported)
    ensures FailureFinished(cfg, before.(objects := mid.objects), after, e, flaw)
  {
    var m := after.meta[cfg.inputs[e].file];
    assert flaw.0[..|flaw.0|] == flaw.0;
    assert Flawed(pc.claim, flaw).code == flaw.0;
    assert m.code.value == flaw.0;
  }

  /** The grant and what follows it, taken together. */
  lemma LeaseThenEnd(cfg: Config, before: Shared, leased: Shared, after: Shared, e: EventId, at: real, local: real,
                     stamp: Stamp, pc: Pc, outcome: Outcome)
    requires e in cfg.inputs && CanClaim(Row(before, cfg.inputs[e].file), e, local.Floor)
    requires LeaseTaken(cfg, before, leased, e, at, local, stamp, pc)
    requires LeasedEnds(cfg, leased, after, e, pc, outcome)
    ensures ClaimedEnds(cfg, before, after, e, local.Floor, outcome)
  {
    var flaw := Flaw(cfg, leased, cfg.inputs[e]);
    if pc.Downloading? && flaw.Some? {
      var s :| FailureRecorded(cfg, leased, after, e, Flawed(pc.claim, flaw.value), s);
      LeaseThenFailure(cfg, before, leased, leased, after, e, at, local, stamp, pc, flaw.value, s);
    } else if pc.Downloading? && outcome != Returned {
      var copied := AfterCopy(cfg, leased, cfg.inputs[e]);
      var s :| FailureRecorded(cfg, copied, after, e, Flawed(pc.claim, ("STORAGE_ERROR", true)), s);
      LeaseThenFailure(cfg, before, leased, copied, after, e, at, local, stamp, pc, ("STORAGE_ERROR", true), s);
    }
  }

  /** How a save ends: by the transaction; by restoring the record under the lease, when the
      very event is in the outbox; by finding the record in the row; or else with an error. */
  predicate SaveEnds(cfg: Config, before: Shared, after: Shared, e: EventId, job: Job, pc: Pc)
    requires e in cfg.inputs
  {
    var f := cfg.inputs[e].file;
    var fenced := Fenced(Row(before, f), job.claim);
    if fenced && job.out.id !in before.outbox then
      after == Apply(cfg, before, Commit(f, job.claim, job.write, Some(job.out))) && pc == Saved(job)
    else if fenced && before.outbox[job.out.id] == job.out then
      after == Apply(cfg, before, Commit(f, job.claim, job.write, None)) && pc == Saved(job)
    else
      && after == before
      && pc == if Persisted(before, job.out) && HasResult(before, f, job.write) && !fenced then Saved(job)
               else NotSaved(job, StorageFault)
  }

  predicate HasResult(sh: Shared, f: FileId, w: MetaWrite) {
    f in sh.meta && sh.meta[f].status == w.status && sh.meta[f].last == w.last
  }

  /** The record is restored under the fence, or the fence refused and nothing changed. */
  predicate RestoredNow(cfg: Config, before: Shared, after: Shared, e: EventId, job: Job, pc: Pc)
    requires e in cfg.inputs
  {
    if Fenced(Row(before, cfg.inputs[e].file), job.claim)
    then after == Apply(cfg, before, Commit(cfg.inputs[e].file, job.claim, job.write, None)) && pc == Saved(job)
    else after == before && pc == CheckingResult(job)
  }

  /** The scan event is recorded, and the handler returns. */
  predicate ScanRecorded(cfg: Config, before: Shared, after: Shared, e: EventId, claim: Claim, w: MetaWrite, pc: Pc)
    requires e in cfg.inputs && Fenced(Row(before, cfg.inputs[e].file), claim)
  {
    after == Apply(cfg, before, Commit(cfg.inputs[e].file, claim, w, None)) && pc == Done(Returned, Some(claim))
  }

  /** `x` is `s`, cut after `n` characters. */
  predicate IsCut(x: string, s: string, n: nat) {
    x <= s && |x| == if |s| < n then |s| else n
  }

  /** The diagnostics are recorded and announced under the claim, and the lease is released. */
  predicate FailureRecorded(cfg: Config, before: Shared, after: Shared, e: EventId, f: Pc, stamp: Stamp)
    requires e in cfg.inputs && f.Failing?
  {
    var ev := cfg.inputs[e];
    && OnlyRow(before, after, ev.file) && ev.file in before.meta
    && var m := after.meta[ev.file];
       && m.version == before.meta[ev.file].version
       && m.status == Failed && m.token.None? && m.message.Some? && m.code.Some?
       && IsCut(m.message.value, f.message, 2000) && IsCut(m.code.value, f.code, 100)
       && m.last == (if f.retryable then before.meta[ev.file].last else Some(e))
       && (var id := Failure(e, f.claim.version, m.code.value, f.retryable);
           && id !in before.outbox
           && after.outbox == before.outbox[id := Payload(id, ev.file, ev.location,
                                                          Diagnostics(m.code.value, m.message.value, f.retryable),
                                                          stamp)])
       && after.objects == before.objects
  }

  /** How a save ends: saved, or with an error that a failure report swallows. */
  ghost predicate Settled(job: Job, pc: Pc) {
    pc == Saved(job) || exists kind :: pc == NotSaved(job, kind)
  }

  /** The worker took this turn, if it is one in these tables. */
  predicate Took(cfg: Config, before: Shared, after: Shared, wk: Worker, wk': Worker, ev: InputEvent, act: Act) {
    var turn := TurnOf(cfg, before, wk, ev, act);
    turn.Some? && Applicable(before, turn.value.effect) ==>
      after == Apply(cfg, before, turn.value.effect) && wk'.pc == turn.value.pc
  }

  /** The worker took this turn, whatever the tables were. */
  ghost predicate Steps(cfg: Config, before: Worker, after: Worker, ev: InputEvent, act: Act) {
    exists sh :: TurnOf(cfg, sh, before, ev, act).Some?
                 && after == Advance(before, act, TurnOf(cfg, sh, before, ev, act).value)
  }
}
