/**
 The final save of a record, with or without the fence of a lease: the request that is
 built, and what the store does with it, attribute by attribute.
 */
module MetadataSave {
  import opened Options
  import opened DynamoTable
  import opened MetadataRecords
  import opened MetadataUpdate

  datatype ProcessingClaim = ProcessingClaim(eventId: string, token: string, version: int)

  const LEASE := {ClaimToken, ClaimExpiresAt, ProcessingEventId}

  const FENCE_NAMES: Names := map[
    "#claimToken" := ClaimToken, "#claimVersion" := ClaimVersion,
    "#claimExpiresAt" := ClaimExpiresAt, "#processingEventId" := ProcessingEventId]

  function FenceValues(c: ProcessingClaim): Values {
    map[":claimToken" := S(c.token), ":claimVersion" := N(c.version), ":claimEventId" := S(c.eventId)]
  }

  const FENCE_REMOVES := [Named("#claimToken"), Named("#claimExpiresAt"), Named("#processingEventId")]

  const FENCE := Both(Both(Equal(Named("#claimToken"), ":claimToken"), Equal(Named("#claimVersion"), ":claimVersion")),
                      Equal(Named("#processingEventId"), ":claimEventId"))

  /** The row carries exactly this lease. */
  predicate FenceHolds(item: Item, c: ProcessingClaim) {
    && Get(item, ClaimToken) == Some(S(c.token))
    && Get(item, ClaimVersion) == Some(N(c.version))
    && Get(item, ProcessingEventId) == Some(S(c.eventId))
  }

  /** The request is one the store accepts, carries out the plan and removes these attributes. */
  ghost predicate Finished(q: Request, plan: Plan, removed: set<Attribute>) {
    Accepted(q) && Carries(q.sets, q.names, q.values, plan) && Removed(q.removes, q.names) == removed
  }

  predicate Guard(q: Request, item: Item) {
    q.condition.Some? ==> Holds(q.condition.value, item, q.names, q.values)
  }

  /** A finished request is never rejected: either its condition fails, or every attribute
      becomes what the plan says, or goes away. */
  lemma FinishedExecutes(q: Request, plan: Plan, removed: set<Attribute>, row: Option<Item>, key: Item)
    requires Finished(q, plan, removed) && Countable(plan, row.GetOr(key))
    ensures !Guard(q, row.GetOr(map[])) ==> Execute(row, key, q) == ConditionFailed
    ensures Guard(q, row.GetOr(map[])) ==>
              && Execute(row, key, q).Updated?
              && forall a :: Get(Execute(row, key, q).item, a) ==
                             if a in removed then None else Planned(plan, Get(row.GetOr(key), a), a)
  {
    var item := row.GetOr(key);
    AllEvaluate(q.sets, q.names, q.values, plan, item);
    forall a ensures Get(Written(q.sets, item, q.names, q.values) - removed, a) ==
                     if a in removed then None else Planned(plan, Get(item, a), a)
    {
      CarriedOut(q.sets, q.names, q.values, plan, item, a);
    }
  }

  // -------------------------------------------------------------------- fence

  /** The placeholders of the fence mean what they are named after, and no others. */
  lemma FenceLookups(c: ProcessingClaim)
    ensures Resolve(FENCE_NAMES, Named("#claimToken")) == ClaimToken
    ensures Resolve(FENCE_NAMES, Named("#claimVersion")) == ClaimVersion
    ensures Resolve(FENCE_NAMES, Named("#claimExpiresAt")) == ClaimExpiresAt
    ensures Resolve(FENCE_NAMES, Named("#processingEventId")) == ProcessingEventId
    ensures Lookup(FenceValues(c), ":claimToken") == S(c.token)
    ensures Lookup(FenceValues(c), ":claimVersion") == N(c.version)
    ensures Lookup(FenceValues(c), ":claimEventId") == S(c.eventId)
  {
    assert |"#claimToken"| == 11 && |"#claimVersion"| == 13 && |"#claimExpiresAt"| == 15
           && |"#processingEventId"| == 18;
    assert |":claimToken"| == 11 && ":claimVersion"[6] == 'V' && ":claimEventId"[6] == 'E';
  }

  lemma FencePlaceholdersNew(names: set<string>, values: set<string>, c: ProcessingClaim)
    requires MetadataPlaceholders(names, values)
    ensures names !! FENCE_NAMES.Keys && values !! FenceValues(c).Keys
  {
    assert "#createdAt"[2] == 'r' && "#createdBy"[2] == 'r' && ":createdAt"[2] == 'r' && ":createdBy"[2] == 'r';
    assert "#claimToken"[1..3] == "cl" && "#claimVersion"[1..3] == "cl" && "#claimExpiresAt"[1..3] == "cl";
    assert "#processingEventId"[1..3] == "pr";
    assert ":claimToken"[1..3] == "cl" && ":claimVersion"[1..3] == "cl" && ":claimEventId"[1..3] == "cl";
  }

  /** Fence a final write and release the lease in the same update. */
  method ApplyClaimFence(draft: Draft, claim: ProcessingClaim) returns (condition: Condition)
    modifies draft
    ensures draft.sets == old(draft.sets) && draft.plan == old(draft.plan)
    ensures draft.removes == FENCE_REMOVES && condition == FENCE
    ensures draft.names == old(draft.names) + FENCE_NAMES
    ensures draft.values == old(draft.values) + FenceValues(claim)
  {
    draft.names := draft.names + FENCE_NAMES;
    draft.values := draft.values + FenceValues(claim);
    draft.removes := FENCE_REMOVES;
    condition := FENCE;
  }

  lemma FenceUses(c: ProcessingClaim)
    ensures RemoveNames(FENCE_REMOVES) + ConditionNames(FENCE) == FENCE_NAMES.Keys
    ensures ConditionValues(FENCE) == FenceValues(c).Keys
  {
    assert FENCE_REMOVES[..2][..1] == [Named("#claimToken")];
    assert FENCE_REMOVES[..2] == [Named("#claimToken"), Named("#claimExpiresAt")];
    assert RemoveNames([Named("#claimToken")]) == {"#claimToken"};
    assert RemoveNames(FENCE_REMOVES[..2]) == {"#claimToken", "#claimExpiresAt"};
  }

  lemma WithFence(names: Names, values: Values, c: ProcessingClaim, p: string, v: string)
    requires names.Keys !! FENCE_NAMES.Keys && values.Keys !! FenceValues(c).Keys
    ensures p in FENCE_NAMES ==> Resolve(names + FENCE_NAMES, Named(p)) == Resolve(FENCE_NAMES, Named(p))
    ensures v in FenceValues(c) ==> Lookup(values + FenceValues(c), v) == Lookup(FenceValues(c), v)
  {
  }

  /** The condition of the fence, evaluated with the placeholders of the whole update. */
  lemma FenceMeans(names: Names, values: Values, c: ProcessingClaim, item: Item)
    requires names.Keys !! FENCE_NAMES.Keys && values.Keys !! FenceValues(c).Keys
    ensures Holds(FENCE, item, names + FENCE_NAMES, values + FenceValues(c)) <==> FenceHolds(item, c)
  {
    FenceLookups(c);
    WithFence(names, values, c, "#claimToken", ":claimToken");
    WithFence(names, values, c, "#claimVersion", ":claimVersion");
    WithFence(names, values, c, "#processingEventId", ":claimEventId");
    var n, v := names + FENCE_NAMES, values + FenceValues(c);
    assert Holds(FENCE.left, item, n, v) <==> Holds(FENCE.left.left, item, n, v) && Holds(FENCE.left.right, item, n, v);
  }

  lemma FenceRemoves(names: Names, values: Values, c: ProcessingClaim)
    requires names.Keys !! FENCE_NAMES.Keys && values.Keys !! FenceValues(c).Keys
    ensures Resolve(names + FENCE_NAMES, FENCE_REMOVES[0]) == ClaimToken
    ensures Resolve(names + FENCE_NAMES, FENCE_REMOVES[1]) == ClaimExpiresAt
    ensures Resolve(names + FENCE_NAMES, FENCE_REMOVES[2]) == ProcessingEventId
    ensures Removed(FENCE_REMOVES, names + FENCE_NAMES) == LEASE
  {
    FenceLookups(c);
    WithFence(names, values, c, "#claimToken", ":claimToken");
    WithFence(names, values, c, "#claimExpiresAt", ":claimToken");
    WithFence(names, values, c, "#processingEventId", ":claimToken");
    var all := names + FENCE_NAMES;
    assert Removed(FENCE_REMOVES, all) == {Resolve(all, FENCE_REMOVES[0]), Resolve(all, FENCE_REMOVES[1]),
                                           Resolve(all, FENCE_REMOVES[2])};
  }

  /** SET and REMOVE never name the same attribute, and neither names the key. */
  lemma TargetsDistinct(q: Request, plan: Plan, removed: seq<Attribute>)
    requires Carries(q.sets, q.names, q.values, plan)
    requires |removed| == |q.removes| && forall i | 0 <= i < |removed| :: Resolve(q.names, q.removes[i]) == removed[i]
    requires Distinct(removed)
    requires forall i | 0 <= i < |removed| :: removed[i] !in plan && removed[i] != Pk && removed[i] != Sk
    requires Pk !in plan && Sk !in plan
    ensures TargetsApart(q)
  {
    var t := Targets(q);
    assert forall i | 0 <= i < |q.removes| :: t[|q.sets| + i] == removed[i];
    assert forall i | 0 <= i < |q.sets| ::
             t[i] == Resolve(q.names, q.sets[i].target) && Serves(q.sets[i], q.names, q.values, plan);
    forall i, j | 0 <= i < j < |t| ensures t[i] != t[j] {
      if i < |q.sets| <= j {
        assert t[j] == removed[j - |q.sets|];
      } else if i >= |q.sets| {
        assert t[i] == removed[i - |q.sets|] && t[j] == removed[j - |q.sets|];
      }
    }
    forall i | 0 <= i < |t| ensures t[i] != Pk && t[i] != Sk {
      if i >= |q.sets| {
        assert t[i] == removed[i - |q.sets|];
      }
    }
  }

  /** The condition of a save inside the transaction: the row exists, and the fence. */
  const EXISTS := Both(Present(Plain(Pk)), Present(Plain(Sk)))

  predicate Standing(item: Item) {
    Pk in item && Sk in item
  }

  lemma ExistsMeans(item: Item, names: Names, values: Values)
    ensures Holds(EXISTS, item, names, values) <==> Standing(item)
  {
    assert Holds(EXISTS, item, names, values)
           <==> Holds(EXISTS.left, item, names, values) && Holds(EXISTS.right, item, names, values);
  }

  function UnfencedRequest(sets: seq<Assignment>, names: Names, values: Values, transactional: bool): Request {
    Request(sets, [], names, values, if transactional then Some(EXISTS) else None)
  }

  lemma UnfencedFinished(sets: seq<Assignment>, names: Names, values: Values, plan: Plan, transactional: bool)
    requires Carries(sets, names, values, plan) && names.Keys == SetNames(sets) && values.Keys == SetValues(sets)
    requires Pk !in plan && Sk !in plan
    ensures Finished(UnfencedRequest(sets, names, values, transactional), plan, {})
  {
    UnfencedUses(sets, names, values, transactional);
    TargetsDistinct(UnfencedRequest(sets, names, values, transactional), plan, []);
    assert Removed([], names) == {};
  }

  lemma UnfencedUses(sets: seq<Assignment>, names: Names, values: Values, transactional: bool)
    requires names.Keys == SetNames(sets) && values.Keys == SetValues(sets)
    ensures PlaceholdersMatch(UnfencedRequest(sets, names, values, transactional))
  {
    assert ConditionNames(EXISTS) == {} && ConditionValues(EXISTS) == {};
  }

  lemma UnfencedGuard(sets: seq<Assignment>, names: Names, values: Values, transactional: bool, item: Item)
    ensures Guard(UnfencedRequest(sets, names, values, transactional), item) <==> (transactional ==> Standing(item))
  {
    ExistsMeans(item, names, values);
  }

  function FencedRequest(sets: seq<Assignment>, names: Names, values: Values, c: ProcessingClaim,
                         transactional: bool): Request {
    Request(sets, FENCE_REMOVES, names + FENCE_NAMES, values + FenceValues(c),
            Some(if transactional then Both(EXISTS, FENCE) else FENCE))
  }

  lemma FencedGuard(sets: seq<Assignment>, names: Names, values: Values, c: ProcessingClaim, transactional: bool,
                    item: Item)
    requires names.Keys !! FENCE_NAMES.Keys && values.Keys !! FenceValues(c).Keys
    ensures Guard(FencedRequest(sets, names, values, c, transactional), item)
            <==> (transactional ==> Standing(item)) && FenceHolds(item, c)
  {
    FenceMeans(names, values, c, item);
    ExistsMeans(item, names + FENCE_NAMES, values + FenceValues(c));
  }

  lemma FencedUses(sets: seq<Assignment>, names: Names, values: Values, c: ProcessingClaim, transactional: bool)
    requires names.Keys == SetNames(sets) && values.Keys == SetValues(sets)
    ensures var q := FencedRequest(sets, names, values, c, transactional);
            PlaceholdersMatch(q)
  {
    FenceUses(c);
    TransactionUses();
  }

  lemma TransactionUses()
    ensures ConditionNames(Both(EXISTS, FENCE)) == ConditionNames(FENCE)
    ensures ConditionValues(Both(EXISTS, FENCE)) == ConditionValues(FENCE)
  {
    assert ConditionNames(EXISTS) == {} && ConditionValues(EXISTS) == {};
  }

  lemma FencedFinished(sets: seq<Assignment>, names: Names, values: Values, plan: Plan, c: ProcessingClaim,
                       transactional: bool)
    requires Carries(sets, names, values, plan) && names.Keys == SetNames(sets) && values.Keys == SetValues(sets)
    requires names.Keys !! FENCE_NAMES.Keys && values.Keys !! FenceValues(c).Keys && plan.Keys !! LEASE + {Pk, Sk}
    ensures Finished(FencedRequest(sets, names, values, c, transactional), plan, LEASE)
  {
    var q := FencedRequest(sets, names, values, c, transactional);
    FencedUses(sets, names, values, c, transactional);
    CarriesOn(sets, names, values, q.names, q.values, plan);
    FenceRemoves(names, values, c);
    FencedApart(q, plan);
  }

  lemma FencedApart(q: Request, plan: Plan)
    requires Carries(q.sets, q.names, q.values, plan) && q.removes == FENCE_REMOVES && plan.Keys !! LEASE + {Pk, Sk}
    requires Resolve(q.names, FENCE_REMOVES[0]) == ClaimToken && Resolve(q.names, FENCE_REMOVES[1]) == ClaimExpiresAt
    requires Resolve(q.names, FENCE_REMOVES[2]) == ProcessingEventId
    ensures TargetsApart(q)
  {
    TargetsDistinct(q, plan, [ClaimToken, ClaimExpiresAt, ProcessingEventId]);
  }

  /** What a plan may not touch when the lease is released: the lease, and the key. */
  lemma PlanLeaves(r: MetadataRecord, now: string, a: Attribute)
    ensures a in LEASE + {Pk, Sk, ClaimVersion} ==> a !in MetadataPlan(r, now)
    ensures a in MetadataPlan(r, now) ==> !MetadataPlan(r, now)[a].CountUp?
  {
    StampedItem(r, now, a);
    OverwritesAt(MetadataItem(r, now), a);
    PlanAt(r, now, a);
    PlanLeavesFrom(r, now, a, Get(MetadataItem(r, now), a), Get(MetadataPlan(r, now), a));
  }

  lemma PlanLeavesFrom(r: MetadataRecord, now: string, a: Attribute, v: Option<Value>, c: Option<Change>)
    requires v == if a == UpdatedAt || a == Gsi1Sk then Some(S(now))
                  else if a == Gsi1Pk then Some(S("STATUS#" + StatusName(r.status)))
                  else AttributeOf(r, a)
    requires c == if a == CreatedAt then Some(SetOnce(S(CreationTime(r, now))))
                  else if a == CreatedBy && Filled(r.createdBy) then Some(SetOnce(S(r.createdBy.value)))
                  else if a in SKIPPED || v.None? then None else Some(Overwrite(v.value))
    ensures a in LEASE + {Pk, Sk, ClaimVersion} ==> c.None?
    ensures c.Some? ==> !c.value.CountUp?
  {
  }

  lemma MetadataPlanLeavesLease(r: MetadataRecord, now: string)
    ensures MetadataPlan(r, now).Keys !! LEASE + {Pk, Sk, ClaimVersion}
    ensures forall a | a in MetadataPlan(r, now) :: !MetadataPlan(r, now)[a].CountUp?
  {
    var plan := MetadataPlan(r, now);
    forall a ensures a in LEASE + {Pk, Sk, ClaimVersion} ==> a !in plan
             ensures a in plan ==> !plan[a].CountUp? {
      PlanLeaves(r, now, a);
    }
  }

  predicate MaySave(item: Item, claim: Option<ProcessingClaim>, transactional: bool) {
    (transactional ==> Standing(item)) && (claim.Some? ==> FenceHolds(item, claim.value))
  }

  /** The request saves this record, under these conditions and with this release. */
  ghost predicate Saves(q: Request, r: MetadataRecord, now: string, claim: Option<ProcessingClaim>,
                        transactional: bool) {
    && Finished(q, MetadataPlan(r, now), if claim.Some? then LEASE else {})
    && forall item :: Guard(q, item) <==> MaySave(item, claim, transactional)
  }

  lemma UnfencedSaves(sets: seq<Assignment>, names: Names, values: Values, r: MetadataRecord, now: string,
                      transactional: bool)
    requires Carries(sets, names, values, MetadataPlan(r, now))
    requires names.Keys == SetNames(sets) && values.Keys == SetValues(sets)
    requires Pk !in MetadataPlan(r, now) && Sk !in MetadataPlan(r, now)
    ensures Saves(UnfencedRequest(sets, names, values, transactional), r, now, None, transactional)
  {
    UnfencedFinished(sets, names, values, MetadataPlan(r, now), transactional);
    forall item ensures Guard(UnfencedRequest(sets, names, values, transactional), item)
                        <==> (transactional ==> Standing(item)) {
      UnfencedGuard(sets, names, values, transactional, item);
    }
  }

  lemma FencedSaves(sets: seq<Assignment>, names: Names, values: Values, r: MetadataRecord, now: string,
                    c: ProcessingClaim, transactional: bool)
    requires Carries(sets, names, values, MetadataPlan(r, now))
    requires names.Keys == SetNames(sets) && values.Keys == SetValues(sets)
             && MetadataPlaceholders(names.Keys, values.Keys)
    requires MetadataPlan(r, now).Keys !! LEASE + {Pk, Sk}
    ensures Saves(FencedRequest(sets, names, values, c, transactional), r, now, Some(c), transactional)
  {
    FencePlaceholdersNew(names.Keys, values.Keys, c);
    FencedFinished(sets, names, values, MetadataPlan(r, now), c, transactional);
    forall item ensures Guard(FencedRequest(sets, names, values, c, transactional), item)
                        <==> (transactional ==> Standing(item)) && FenceHolds(item, c) {
      FencedGuard(sets, names, values, c, transactional, item);
    }
  }

  /** The request of a final save: alone, or as the first half of the transaction. */
  method SaveRequest(r: MetadataRecord, now: string, claim: Option<ProcessingClaim>, transactional: bool)
    returns (q: Request)
    ensures Saves(q, r, now, claim, transactional)
  {
    var draft := BuildMetadataUpdate(r, now);
    MetadataPlanLeavesLease(r, now);
    if claim.Some? {
      FencedSaves(draft.sets, draft.names, draft.values, r, now, claim.value, transactional);
      var fence := ApplyClaimFence(draft, claim.value);
      q := Request(draft.sets, draft.removes, draft.names, draft.values,
                   Some(if transactional then Both(EXISTS, fence) else fence));
    } else {
      UnfencedSaves(draft.sets, draft.names, draft.values, r, now, transactional);
      q := Request(draft.sets, [], draft.names, draft.values, if transactional then Some(EXISTS) else None);
    }
  }

  /** A save is refused, or every attribute becomes what `Saved` says, or is released. */
  ghost predicate SaveReply(reply: Reply, r: MetadataRecord, now: string, claim: Option<ProcessingClaim>,
                            transactional: bool,
                            row: Option<Item>, key: Item)
  {
    if MaySave(row.GetOr(map[]), claim, transactional)
    then reply.Updated? && forall a :: Get(reply.item, a) ==
                                       if claim.Some? && a in LEASE then None
                                       else Saved(r, now, a, Get(row.GetOr(key), a))
    else reply == ConditionFailed
  }

  /**
   The compiled save is the direct update.  The store never rejects it as malformed; its
   condition fails exactly when the row does not exist (in the transaction) or does not
   carry the lease; otherwise every attribute of the row becomes what `Saved` says, and
   the lease attributes go away.
   */
  lemma SaveIsDirectUpdate(q: Request, r: MetadataRecord, now: string, claim: Option<ProcessingClaim>,
                           transactional: bool,
                           row: Option<Item>, key: Item)
    requires Saves(q, r, now, claim, transactional)
    ensures SaveReply(Execute(row, key, q), r, now, claim, transactional, row, key)
  {
    MetadataPlanLeavesLease(r, now);
    var removed := if claim.Some? then LEASE else {};
    FinishedExecutes(q, MetadataPlan(r, now), removed, row, key);
    if Guard(q, row.GetOr(map[])) {
      SavedThroughout(r, now, removed, row.GetOr(key), Execute(row, key, q).item);
    }
  }

  lemma SavedThroughout(r: MetadataRecord, now: string, removed: set<Attribute>, item: Item, item': Item)
    requires forall a :: Get(item', a) == if a in removed then None else Planned(MetadataPlan(r, now), Get(item, a), a)
    ensures forall a :: Get(item', a) == if a in removed then None else Saved(r, now, a, Get(item, a))
  {
    forall a ensures Get(item', a) == if a in removed then None else Saved(r, now, a, Get(item, a)) {
      PlanIsDirect(r, now, a, Get(item, a));
    }
  }
}
