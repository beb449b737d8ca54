/**
 The claiming update: one conditional request that takes the lease, counts up its
 version, fills in what the row does not have yet and clears the last error.
 */
module MetadataClaim {
  import opened Options
  import opened DynamoTable
  import opened MetadataRecords
  import opened MetadataUpdate
  import opened MetadataSave

  /** A request for a lease: when, until when, under which token, for which event. */
  datatype Bid = Bid(now: string, nowEpoch: int, expires: int, token: string, event: string)

  // ------------------------------------------------- the fixed part of the text

  const CLAIM_NAMES: Names := map[
    "#status" := Status, "#lastProcessedEventId" := LastProcessedEventId, "#claimToken" := ClaimToken,
    "#claimVersion" := ClaimVersion, "#claimExpiresAt" := ClaimExpiresAt, "#processingEventId" := ProcessingEventId]

  function ClaimValues(b: Bid): Values {
    map[":processing" := S("PROCESSING"), ":gsi" := S("STATUS#PROCESSING"), ":now" := S(b.now),
        ":nowEpoch" := N(b.nowEpoch),
        ":claimToken" := S(b.token), ":claimExpiresAt" := N(b.expires), ":zero" := N(0), ":one" := N(1),
            ":eventId" := S(b.event)]
  }

  const STATE_SETS := [
    Assign(Named("#status"), Ref(":processing")),
    Assign(Plain(Gsi1Pk), Ref(":gsi")),
    Assign(Plain(Gsi1Sk), Ref(":now")),
    Assign(Plain(UpdatedAt), Ref(":now"))]

  const LEASE_SETS := [
    Assign(Named("#claimToken"), Ref(":claimToken")),
    Assign(Named("#claimExpiresAt"), Ref(":claimExpiresAt")),
    Assign(Named("#claimVersion"), IfNotExistsPlus(Named("#claimVersion"), ":zero", ":one")),
    Assign(Named("#processingEventId"), Ref(":eventId"))]

  const CLAIM_SETS := STATE_SETS + LEASE_SETS

  const CLAIM_REMOVES := [Plain(ErrorMessage), Plain(ErrorCode)]

  const CLAIM_CONDITION :=
    Both(Either(Absent(Named("#lastProcessedEventId")), Differs(Named("#lastProcessedEventId"), ":eventId")),
         Either(Absent(Named("#claimToken")), AtMost(Named("#claimExpiresAt"), ":nowEpoch")))

  /** The event is not the last processed one, and there is no lease that is still running. */
  predicate ClaimAllowed(item: Item, b: Bid) {
    && Get(item, LastProcessedEventId) != Some(S(b.event))
    && (ClaimToken !in item
        || (ClaimExpiresAt in item && item[ClaimExpiresAt].N? && item[ClaimExpiresAt].number <= b.nowEpoch))
  }

  function LeasePlan(b: Bid): Plan {
    map[Status := Overwrite(S("PROCESSING")), Gsi1Pk := Overwrite(S("STATUS#PROCESSING")),
        Gsi1Sk := Overwrite(S(b.now)), UpdatedAt := Overwrite(S(b.now)),
        ClaimToken := Overwrite(S(b.token)), ClaimExpiresAt := Overwrite(N(b.expires)),
        ClaimVersion := CountUp, ProcessingEventId := Overwrite(S(b.event))]
  }

  lemma ClaimLookups()
    ensures forall n | n in CLAIM_NAMES :: Resolve(CLAIM_NAMES, Named(n)) == CLAIM_NAMES[n]
    ensures CLAIM_NAMES["#status"] == Status && CLAIM_NAMES["#lastProcessedEventId"] == LastProcessedEventId
    ensures CLAIM_NAMES["#claimToken"] == ClaimToken && CLAIM_NAMES["#claimVersion"] == ClaimVersion
    ensures CLAIM_NAMES["#claimExpiresAt"] == ClaimExpiresAt && CLAIM_NAMES["#processingEventId"] == ProcessingEventId
  {
    assert |"#status"| == 7 && |"#lastProcessedEventId"| == 21 && |"#claimToken"| == 11;
    assert |"#claimVersion"| == 13 && |"#claimExpiresAt"| == 15 && |"#processingEventId"| == 18;
  }

  lemma ClaimValueLookups(b: Bid)
    ensures var v := ClaimValues(b);
            && v[":processing"] == S("PROCESSING") && v[":gsi"] == S("STATUS#PROCESSING") && v[":now"] == S(b.now)
            && v[":nowEpoch"] == N(b.nowEpoch) && v[":claimToken"] == S(b.token) && v[":claimExpiresAt"] == N(b.expires)
            && v[":zero"] == N(0) && v[":one"] == N(1) && v[":eventId"] == S(b.event)
  {
    assert |":processing"| == 11 && |":claimToken"| == 11 && ":processing"[1] == 'p' && ":claimToken"[1] == 'c';
    assert |":gsi"| == 4 && |":now"| == 4 && |":one"| == 4 && ":gsi"[1] == 'g' && ":now"[1] == 'n' && ":one"[1] == 'o';
    assert |":nowEpoch"| == 9 && |":claimExpiresAt"| == 15 && |":zero"| == 5 && |":eventId"| == 8;
  }

  lemma StateServes(b: Bid, i: nat)
    requires i < 4
    ensures Serves(CLAIM_SETS[i], CLAIM_NAMES, ClaimValues(b), LeasePlan(b))
  {
    ClaimLookups();
    ClaimValueLookups(b);
  }

  lemma LeaseServes(b: Bid, i: nat)
    requires 4 <= i < 8
    ensures Serves(CLAIM_SETS[i], CLAIM_NAMES, ClaimValues(b), LeasePlan(b))
  {
    ClaimLookups();
    ClaimValueLookups(b);
  }

  /** The attribute of each fixed assignment, in order. */
  const CLAIM_TARGETS := [Status, Gsi1Pk, Gsi1Sk, UpdatedAt, ClaimToken, ClaimExpiresAt, ClaimVersion,
                          ProcessingEventId]

  lemma ClaimTarget(i: nat)
    requires i < 8
    ensures Resolve(CLAIM_NAMES, CLAIM_SETS[i].target) == CLAIM_TARGETS[i]
  {
    ClaimLookups();
  }

  lemma ClaimTargetsDistinct(i: nat, j: nat)
    requires i < j < 8
    ensures CLAIM_TARGETS[i] != CLAIM_TARGETS[j]
  {
  }

  lemma ClaimTargetIndex(a: Attribute) returns (i: nat)
    requires a in {Status, Gsi1Pk, Gsi1Sk, UpdatedAt, ClaimToken, ClaimExpiresAt, ClaimVersion, ProcessingEventId}
    ensures i < 8 && CLAIM_TARGETS[i] == a
  {
    i := if a == Status then 0 else if a == Gsi1Pk then 1 else if a == Gsi1Sk then 2 else if a == UpdatedAt then 3
         else if a == ClaimToken then 4 else if a == ClaimExpiresAt then 5 else if a == ClaimVersion then 6 else 7;
  }

  /** The fixed assignments carry out the plan of a lease. */
  lemma ClaimCarries(b: Bid)
    ensures Carries(CLAIM_SETS, CLAIM_NAMES, ClaimValues(b), LeasePlan(b))
  {
    forall i | 0 <= i < |CLAIM_SETS| ensures Serves(CLAIM_SETS[i], CLAIM_NAMES, ClaimValues(b), LeasePlan(b)) {
      if i < 4 { StateServes(b, i); } else { LeaseServes(b, i); }
    }
    forall i, j | 0 <= i < j < |CLAIM_SETS|
      ensures Resolve(CLAIM_NAMES, CLAIM_SETS[i].target) != Resolve(CLAIM_NAMES, CLAIM_SETS[j].target)
    {
      ClaimTarget(i);
      ClaimTarget(j);
      ClaimTargetsDistinct(i, j);
    }
    forall a | a in LeasePlan(b) ensures Targeted(CLAIM_SETS, CLAIM_NAMES, a) {
      var i := ClaimTargetIndex(a);
      ClaimTarget(i);
    }
  }

  // ----------------------------------------------------------- what is filled in

  const UNFILLED := {Pk, Sk, Status, UpdatedAt, ErrorMessage, ErrorCode, LastProcessedEventId}

  function Fills(item: Item, done: set<Attribute>): Plan {
    map a | a in item && a in done - UNFILLED :: SetOnce(item[a])
  }

  lemma FillsNext(item: Item, rest: set<Attribute>, a: Attribute)
    requires a in rest && rest <= item.Keys
    ensures a !in Fills(item, item.Keys - rest)
    ensures Fills(item, item.Keys - (rest - {a})) ==
            if a in UNFILLED then Fills(item, item.Keys - rest)
            else Fills(item, item.Keys - rest)[a := SetOnce(item[a])]
  {
  }

  method FillIn(draft: Draft, name: string, placeholder: string, a: Attribute, v: Value)
    requires draft.Valid() && name !in draft.names && placeholder !in draft.values && a !in draft.plan
    modifies draft
    ensures draft.Valid() && draft.plan == old(draft.plan)[a := SetOnce(v)]
    ensures draft.names.Keys == old(draft.names.Keys) + {name}
    ensures draft.values.Keys == old(draft.values.Keys) + {placeholder}
  {
    draft.Add(Assign(Named(name), IfNotExists(Named(name), placeholder)), map[name := a], map[placeholder := v], a,
              SetOnce(v));
  }

  /** The number `n` is new, and whether it is given out or not, numbers are below `n + 1`. */
  lemma BelowEither(keys: set<string>, prefix: string, n: nat)
    requires Below(keys, prefix, n)
    ensures Numbered(prefix, n) !in keys
    ensures Below(keys + {Numbered(prefix, n)}, prefix, n + 1) && Below(keys, prefix, n + 1)
  {
    BelowNext(keys, prefix, n);
  }

  /** The loop over the initial record.  Every attribute takes a number, filled in or not. */
  method InitialAssignments(draft: Draft, item: Item, named: string, valued: string)
    requires |named| >= 2 && |valued| >= 2
    requires draft.Valid() && draft.names == map[] && draft.values == map[] && draft.plan == map[]
    modifies draft
    ensures draft.Valid() && draft.plan == Fills(item, item.Keys)
    ensures AllMarked(draft.names.Keys, named[1]) && AllMarked(draft.values.Keys, valued[1])
  {
    var index := 0;
    var rest := item.Keys;
    while rest != {}
      invariant draft.Valid() && rest <= item.Keys
      invariant draft.plan == Fills(item, item.Keys - rest)
      invariant Below(draft.names.Keys, named, index) && Below(draft.values.Keys, valued, index)
      decreases rest
    {
      var a :| a in rest;
      FillsNext(item, rest, a);
      rest := rest - {a};
      BelowEither(draft.names.Keys, named, index);
      BelowEither(draft.values.Keys, valued, index);
      if a !in UNFILLED {
        FillIn(draft, Numbered(named, index), Numbered(valued, index), a, item[a]);
      }
      index := index + 1;
    }
    BelowMarked(draft.names.Keys, named, index);
    BelowMarked(draft.values.Keys, valued, index);
    assert item.Keys - rest == item.Keys;
  }

  // ---------------------------------------------------------------- the request

  function ClaimPlan(initial: MetadataRecord, b: Bid): Plan {
    LeasePlan(b) + Fills(ToItem(initial), ToItem(initial).Keys)
  }

  /** Two updates of different attributes, with placeholders of their own, side by side. */
  lemma CarriesBoth(sets: seq<Assignment>, names: Names, values: Values, plan: Plan,
                    more: seq<Assignment>, names': Names, values': Values, plan': Plan)
    requires Carries(sets, names, values, plan) && Carries(more, names', values', plan')
    requires names.Keys !! names'.Keys && values.Keys !! values'.Keys && plan.Keys !! plan'.Keys
    ensures Carries(sets + more, names + names', values + values', plan + plan')
  {
    var all, n, v, p := sets + more, names + names', values + values', plan + plan';
    forall i | 0 <= i < |all|
      ensures Serves(all[i], n, v, p)
      ensures i < |sets| ==> Resolve(n, all[i].target) in plan
                             && Resolve(n, all[i].target) == Resolve(names, sets[i].target)
      ensures i >= |sets| ==> Resolve(n, all[i].target) in plan'
                              && Resolve(n, all[i].target) == Resolve(names', more[i - |sets|].target)
    {
      if i < |sets| {
        ServesOn(sets[i], names, values, n, v, plan);
      } else {
        ServesOn(more[i - |sets|], names', values', n, v, plan');
      }
    }
    forall a | a in p ensures Targeted(all, n, a) {
      if a in plan {
        assert Targeted(sets, names, a);
        var i :| 0 <= i < |sets| && Resolve(names, sets[i].target) == a;
        assert Resolve(n, all[i].target) == a;
      } else {
        assert Targeted(more, names', a);
        var i :| 0 <= i < |more| && Resolve(names', more[i].target) == a;
        assert Resolve(n, all[|sets| + i].target) == a;
      }
    }
  }

  lemma {:induction false} JoinUses(sets: seq<Assignment>, more: seq<Assignment>)
    ensures SetNames(sets + more) == SetNames(sets) + SetNames(more)
    ensures SetValues(sets + more) == SetValues(sets) + SetValues(more)
  {
    if more == [] {
      assert sets + more == sets;
    } else {
      var n := |more| - 1;
      assert (sets + more)[..|sets + more| - 1] == sets + more[..n];
      JoinUses(sets, more[..n]);
    }
  }

  /** The placeholders of two assignments. */
  lemma PairUses(x: Assignment, y: Assignment)
    ensures SetNames([x, y]) == AssignmentNames(x) + AssignmentNames(y)
    ensures SetValues([x, y]) == AssignmentValues(x) + AssignmentValues(y)
  {
    AppendNames([], x);
    AppendNames([x], y);
    assert [] + [x] == [x] && [x] + [y] == [x, y];
  }

  lemma StateSetUses()
    ensures SetNames(STATE_SETS) == {"#status"}
    ensures SetValues(STATE_SETS) == {":processing", ":gsi", ":now"}
  {
    var x := STATE_SETS;
    PairUses(x[0], x[1]);
    PairUses(x[2], x[3]);
    JoinUses([x[0], x[1]], [x[2], x[3]]);
    assert x == [x[0], x[1]] + [x[2], x[3]];
  }

  lemma LeaseSetUses()
    ensures SetNames(LEASE_SETS) == {"#claimToken", "#claimExpiresAt", "#claimVersion", "#processingEventId"}
    ensures SetValues(LEASE_SETS) == {":claimToken", ":claimExpiresAt", ":zero", ":one", ":eventId"}
  {
    var x := LEASE_SETS;
    PairUses(x[0], x[1]);
    PairUses(x[2], x[3]);
    JoinUses([x[0], x[1]], [x[2], x[3]]);
    assert x == [x[0], x[1]] + [x[2], x[3]];
  }

  lemma ClaimConditionUses()
    ensures ConditionNames(CLAIM_CONDITION) == {"#lastProcessedEventId", "#claimToken", "#claimExpiresAt"}
    ensures ConditionValues(CLAIM_CONDITION) == {":eventId", ":nowEpoch"}
  {
    assert ConditionNames(CLAIM_CONDITION.left) == {"#lastProcessedEventId"};
    assert ConditionNames(CLAIM_CONDITION.right) == {"#claimToken", "#claimExpiresAt"};
    assert ConditionValues(CLAIM_CONDITION.left) == {":eventId"};
    assert ConditionValues(CLAIM_CONDITION.right) == {":nowEpoch"};
  }

  function ClaimRequest(sets: seq<Assignment>, names: Names, values: Values, b: Bid): Request {
    Request(CLAIM_SETS + sets, CLAIM_REMOVES, CLAIM_NAMES + names, ClaimValues(b) + values, Some(CLAIM_CONDITION))
  }

  lemma ClaimTextNames()
    ensures SetNames(CLAIM_SETS) + ConditionNames(CLAIM_CONDITION) == CLAIM_NAMES.Keys
  {
    JoinUses(STATE_SETS, LEASE_SETS);
    StateSetUses();
    LeaseSetUses();
    ClaimConditionUses();
  }

  lemma ClaimTextValues(b: Bid)
    ensures SetValues(CLAIM_SETS) + ConditionValues(CLAIM_CONDITION) == ClaimValues(b).Keys
  {
    JoinUses(STATE_SETS, LEASE_SETS);
    StateSetUses();
    LeaseSetUses();
    ClaimConditionUses();
  }

  lemma ClaimUses(sets: seq<Assignment>, names: Names, values: Values, b: Bid)
    requires names.Keys == SetNames(sets) && values.Keys == SetValues(sets)
    ensures PlaceholdersMatch(ClaimRequest(sets, names, values, b))
  {
    JoinUses(CLAIM_SETS, sets);
    ClaimTextNames();
    ClaimTextValues(b);
    RemovesNothingNamed();
  }

  lemma RemovesNothingNamed()
    ensures RemoveNames(CLAIM_REMOVES) == {}
  {
    assert CLAIM_REMOVES[..1] == [Plain(ErrorMessage)];
    assert RemoveNames([Plain(ErrorMessage)]) == {};
  }

  lemma ClaimPlaceholdersNew(names: set<string>, values: set<string>, b: Bid)
    requires AllMarked(names, 'i') && AllMarked(values, 'i')
    ensures CLAIM_NAMES.Keys !! names && ClaimValues(b).Keys !! values
  {
    assert "#status"[1] == 's' && "#lastProcessedEventId"[1] == 'l' && "#claimToken"[1] == 'c';
    assert "#claimVersion"[1] == 'c' && "#claimExpiresAt"[1] == 'c' && "#processingEventId"[1] == 'p';
    assert ":processing"[1] == 'p' && ":gsi"[1] == 'g' && ":now"[1] == 'n' && ":nowEpoch"[1] == 'n'
           && ":claimToken"[1] == 'c';
    assert ":claimExpiresAt"[1] == 'c' && ":zero"[1] == 'z' && ":one"[1] == 'o' && ":eventId"[1] == 'e';
  }

  /** The claim condition, evaluated with the placeholders of the whole update. */
  lemma ClaimMeans(names: Names, values: Values, b: Bid, item: Item)
    requires CLAIM_NAMES.Keys !! names.Keys && ClaimValues(b).Keys !! values.Keys
    ensures Holds(CLAIM_CONDITION, item, CLAIM_NAMES + names, ClaimValues(b) + values) <==> ClaimAllowed(item, b)
  {
    ClaimLookups();
    ClaimValueLookups(b);
    ClaimMeansFrom(CLAIM_NAMES + names, ClaimValues(b) + values, b, item);
  }

  lemma ClaimMeansFrom(n: Names, v: Values, b: Bid, item: Item)
    requires Resolve(n, Named("#lastProcessedEventId")) == LastProcessedEventId
    requires Resolve(n, Named("#claimToken")) == ClaimToken && Resolve(n, Named("#claimExpiresAt")) == ClaimExpiresAt
    requires Lookup(v, ":eventId") == S(b.event) && Lookup(v, ":nowEpoch") == N(b.nowEpoch)
    ensures Holds(CLAIM_CONDITION, item, n, v) <==> ClaimAllowed(item, b)
  {
    assert Holds(CLAIM_CONDITION.left, item, n, v) <==> Get(item, LastProcessedEventId) != Some(S(b.event));
    assert Holds(CLAIM_CONDITION.right, item, n, v) <==>
           ClaimToken !in item || (ClaimExpiresAt in item && item[ClaimExpiresAt].N?
                                   && item[ClaimExpiresAt].number <= b.nowEpoch);
  }

  // ---------------------------------------------------------------- the theorem

  /** What a claim does to an attribute, said directly. */
  function Claimed(initial: MetadataRecord, b: Bid, a: Attribute, was: Option<Value>): Option<Value> {
    match a
    case Pk => was
    case Sk => was
    case LastProcessedEventId => was
    case Status => Some(S("PROCESSING"))
    case Gsi1Pk => Some(S("STATUS#PROCESSING"))
    case Gsi1Sk => Some(S(b.now))
    case UpdatedAt => Some(S(b.now))
    case ClaimToken => Some(S(b.token))
    case ClaimExpiresAt => Some(N(b.expires))
    case ClaimVersion => Changed(Some(CountUp), was)
    case ProcessingEventId => Some(S(b.event))
    case ErrorMessage => None
    case ErrorCode => None
    case _ => if was.Some? then was else AttributeOf(initial, a)
  }

  ghost predicate Claims(q: Request, initial: MetadataRecord, b: Bid) {
    && Finished(q, ClaimPlan(initial, b), {ErrorMessage, ErrorCode})
    && forall item :: Guard(q, item) <==> ClaimAllowed(item, b)
  }

  lemma FillsAt(item: Item, a: Attribute)
    ensures Get(Fills(item, item.Keys), a)
            == if a in UNFILLED || Get(item, a).None? then None else Some(SetOnce(Get(item, a).value))
  {
  }

  lemma LeasePlanAt(b: Bid, a: Attribute)
    ensures Get(LeasePlan(b), a) ==
            if a == Status then Some(Overwrite(S("PROCESSING")))
            else if a == Gsi1Pk then Some(Overwrite(S("STATUS#PROCESSING")))
            else if a == Gsi1Sk || a == UpdatedAt then Some(Overwrite(S(b.now)))
            else if a == ClaimToken then Some(Overwrite(S(b.token)))
            else if a == ClaimExpiresAt then Some(Overwrite(N(b.expires)))
            else if a == ClaimVersion then Some(CountUp)
            else if a == ProcessingEventId then Some(Overwrite(S(b.event)))
            else None
  {
  }

  lemma ClaimPlanAt(initial: MetadataRecord, b: Bid, a: Attribute)
    ensures Get(LeasePlan(b), a).Some? ==> Get(Fills(ToItem(initial), ToItem(initial).Keys), a).None?
    ensures Get(ClaimPlan(initial, b), a) ==
            if Get(LeasePlan(b), a).Some? then Get(LeasePlan(b), a)
            else if a in UNFILLED || AttributeOf(initial, a).None? then None
            else Some(SetOnce(AttributeOf(initial, a).value))
  {
    FillsAt(ToItem(initial), a);
    ItemSays(initial, a);
    LeasePlanAt(b, a);
    SaysNothingOfLease(initial, a);
  }

  lemma SaysNothingOfLease(initial: MetadataRecord, a: Attribute)
    ensures a in {Gsi1Pk, Gsi1Sk, ClaimToken, ClaimExpiresAt, ClaimVersion, ProcessingEventId} ==>
              AttributeOf(initial, a).None?
  {
  }

  lemma ClaimPlanIsDirect(initial: MetadataRecord, b: Bid, a: Attribute, was: Option<Value>)
    ensures (if a in {ErrorMessage, ErrorCode} then None
             else Planned(ClaimPlan(initial, b), was, a)) == Claimed(initial, b, a, was)
  {
    ClaimPlanAt(initial, b, a);
    LeasePlanAt(b, a);
    ClaimDirectFrom(initial, b, a, was, Get(LeasePlan(b), a), Get(ClaimPlan(initial, b), a));
  }

  lemma ClaimDirectFrom(initial: MetadataRecord, b: Bid, a: Attribute, was: Option<Value>, l: Option<Change>,
                        c: Option<Change>)
    requires l == if a == Status then Some(Overwrite(S("PROCESSING")))
                  else if a == Gsi1Pk then Some(Overwrite(S("STATUS#PROCESSING")))
                  else if a == Gsi1Sk || a == UpdatedAt then Some(Overwrite(S(b.now)))
                  else if a == ClaimToken then Some(Overwrite(S(b.token)))
                  else if a == ClaimExpiresAt then Some(Overwrite(N(b.expires)))
                  else if a == ClaimVersion then Some(CountUp)
                  else if a == ProcessingEventId then Some(Overwrite(S(b.event)))
                  else None
    requires c == if l.Some? then l
                  else if a in UNFILLED || AttributeOf(initial, a).None? then None
                  else Some(SetOnce(AttributeOf(initial, a).value))
    ensures (if a in {ErrorMessage, ErrorCode} then None else Changed(c, was)) == Claimed(initial, b, a, was)
  {
  }

  lemma ClaimFinished(sets: seq<Assignment>, names: Names, values: Values, initial: MetadataRecord, b: Bid)
    requires Carries(sets, names, values, Fills(ToItem(initial), ToItem(initial).Keys))
    requires names.Keys == SetNames(sets) && values.Keys == SetValues(sets)
    requires AllMarked(names.Keys, 'i') && AllMarked(values.Keys, 'i')
    ensures Claims(ClaimRequest(sets, names, values, b), initial, b)
  {
    var q := ClaimRequest(sets, names, values, b);
    ClaimPlaceholdersNew(names.Keys, values.Keys, b);
    ClaimUses(sets, names, values, b);
    ClaimApart(sets, names, values, initial, b);
    forall item ensures Guard(q, item) <==> ClaimAllowed(item, b) {
      ClaimMeans(names, values, b, item);
    }
  }

  lemma PlansDisjoint(initial: MetadataRecord, b: Bid)
    ensures LeasePlan(b).Keys !! Fills(ToItem(initial), ToItem(initial).Keys).Keys
    ensures forall a | a in {Pk, Sk, ErrorMessage, ErrorCode} :: a !in ClaimPlan(initial, b)
  {
    var fills := Fills(ToItem(initial), ToItem(initial).Keys);
    forall a | a in LeasePlan(b) ensures a !in fills {
      ClaimPlanAt(initial, b, a);
      assert Get(LeasePlan(b), a).Some?;
    }
    forall a | a in {Pk, Sk, ErrorMessage, ErrorCode} ensures a !in ClaimPlan(initial, b) {
      ClaimPlanAt(initial, b, a);
      LeasePlanAt(b, a);
    }
  }

  lemma ClaimApart(sets: seq<Assignment>, names: Names, values: Values, initial: MetadataRecord, b: Bid)
    requires Carries(sets, names, values, Fills(ToItem(initial), ToItem(initial).Keys))
    requires CLAIM_NAMES.Keys !! names.Keys && ClaimValues(b).Keys !! values.Keys
    ensures var q := ClaimRequest(sets, names, values, b);
            && Carries(q.sets, q.names, q.values, ClaimPlan(initial, b))
            && TargetsApart(q) && Removed(q.removes, q.names) == {ErrorMessage, ErrorCode}
  {
    PlansDisjoint(initial, b);
    ClaimCarries(b);
    CarriesBoth(CLAIM_SETS, CLAIM_NAMES, ClaimValues(b), LeasePlan(b), sets, names, values,
                Fills(ToItem(initial), ToItem(initial).Keys));
    ErrorsRemoved(ClaimRequest(sets, names, values, b), ClaimPlan(initial, b));
  }

  lemma ErrorsRemoved(q: Request, plan: Plan)
    requires Carries(q.sets, q.names, q.values, plan) && q.removes == CLAIM_REMOVES
    requires forall a | a in {Pk, Sk, ErrorMessage, ErrorCode} :: a !in plan
    ensures TargetsApart(q) && Removed(q.removes, q.names) == {ErrorMessage, ErrorCode}
  {
    TargetsDistinct(q, plan, [ErrorMessage, ErrorCode]);
    assert Removed(q.removes, q.names) == {Resolve(q.names, q.removes[0]), Resolve(q.names, q.removes[1])};
  }

  /** Build the claiming update. */
  method BuildClaim(initial: MetadataRecord, b: Bid) returns (q: Request)
    ensures Claims(q, initial, b)
  {
    var draft := new Draft();
    var item := ToDynamodbItem(initial);
    InitialAssignments(draft, item, "#initial", ":initial");
    assert "#initial"[1] == 'i' && ":initial"[1] == 'i';
    ClaimFinished(draft.sets, draft.names, draft.values, initial, b);
    q := ClaimRequest(draft.sets, draft.names, draft.values, b);
  }

  /** A claim is refused, or every attribute becomes what `Claimed` says. */
  ghost predicate ClaimReply(reply: Reply, initial: MetadataRecord, b: Bid, row: Option<Item>, key: Item) {
    if ClaimAllowed(row.GetOr(map[]), b)
    then reply.Updated? && forall a :: Get(reply.item, a) == Claimed(initial, b, a, Get(row.GetOr(key), a))
    else reply == ConditionFailed
  }

  /**
   The compiled claim is the direct update.  On a row whose version, if any, is a number
   the store never rejects it; it is refused exactly when the event is the last processed
   one or a lease is running; otherwise every attribute becomes what `Claimed` says.
   */
  lemma ClaimIsDirectUpdate(q: Request, initial: MetadataRecord, b: Bid, row: Option<Item>, key: Item)
    requires Claims(q, initial, b)
    requires ClaimVersion in row.GetOr(key) ==> row.GetOr(key)[ClaimVersion].N?
    ensures ClaimReply(Execute(row, key, q), initial, b, row, key)
  {
    OnlyVersionCounts(initial, b, row.GetOr(key));
    FinishedExecutes(q, ClaimPlan(initial, b), {ErrorMessage, ErrorCode}, row, key);
    if ClaimAllowed(row.GetOr(map[]), b) {
      ClaimedThroughout(initial, b, row.GetOr(key), Execute(row, key, q).item);
    }
  }

  lemma ClaimedThroughout(initial: MetadataRecord, b: Bid, item: Item, item': Item)
    requires forall a :: Get(item', a) == if a in {ErrorMessage, ErrorCode} then None
             else Planned(ClaimPlan(initial, b), Get(item, a), a)
    ensures forall a :: Get(item', a) == Claimed(initial, b, a, Get(item, a))
  {
    forall a ensures Get(item', a) == Claimed(initial, b, a, Get(item, a)) {
      ClaimPlanIsDirect(initial, b, a, Get(item, a));
    }
  }

  lemma OnlyVersionCounts(initial: MetadataRecord, b: Bid, item: Item)
    requires ClaimVersion in item ==> item[ClaimVersion].N?
    ensures Countable(ClaimPlan(initial, b), item)
  {
    forall a | a in ClaimPlan(initial, b) && ClaimPlan(initial, b)[a].CountUp? ensures a == ClaimVersion {
      ClaimPlanAt(initial, b, a);
      LeasePlanAt(b, a);
      assert Get(ClaimPlan(initial, b), a) == Some(CountUp);
    }
  }
}
