/**
 The compiler from records to update expressions.  `Draft` is the expression being
 built, with its dictionaries of placeholders; a plan says what it is to do to each
 attribute, and executing the expression does exactly what the plan says.
 */
module MetadataUpdate {
  import opened Options
  import opened Decimals
  import opened DynamoTable
  import opened MetadataRecords

  /** What happens to an attribute: overwritten, set once, or counted up. */
  datatype Change = Overwrite(value: Value) | SetOnce(value: Value) | CountUp

  type Plan = map<Attribute, Change>

  /** The value of an attribute after a change, given the one before. */
  function Changed(c: Option<Change>, was: Option<Value>): Option<Value> {
    match c
    case None => was
    case Some(Overwrite(v)) => Some(v)
    case Some(SetOnce(v)) => Some(was.GetOr(v))
    case Some(CountUp) =>
      match was
      case Some(N(n)) => Some(N(n + 1))
      case _ => Some(N(1))
  }

  function Planned(plan: Plan, was: Option<Value>, a: Attribute): Option<Value> {
    Changed(Get(plan, a), was)
  }

  predicate Compiles(x: Assignment, names: Names, values: Values, c: Change) {
    && AssignmentNames(x) <= names.Keys && AssignmentValues(x) <= values.Keys
    && match c
       case Overwrite(v) => x.operand.Ref? && values[x.operand.value] == v
       case SetOnce(v) => x.operand == IfNotExists(x.target, x.operand.value) && values[x.operand.value] == v
       case CountUp =>
         x.operand.IfNotExistsPlus? && x.operand.path == x.target
         && values[x.operand.value] == N(0) && values[x.operand.increment] == N(1)
  }

  predicate Serves(x: Assignment, names: Names, values: Values, plan: Plan) {
    Resolve(names, x.target) in plan && Compiles(x, names, values, plan[Resolve(names, x.target)])
  }

  ghost predicate Targeted(sets: seq<Assignment>, names: Names, a: Attribute) {
    exists i :: 0 <= i < |sets| && Resolve(names, sets[i].target) == a
  }

  /** The assignments carry out the plan, each attribute by one of them. */
  ghost predicate Carries(sets: seq<Assignment>, names: Names, values: Values, plan: Plan) {
    && (forall i | 0 <= i < |sets| :: Serves(sets[i], names, values, plan))
    && (forall i, j | 0 <= i < j < |sets| :: Resolve(names, sets[i].target) != Resolve(names, sets[j].target))
    && (forall a | a in plan :: Targeted(sets, names, a))
  }

  /** Every attribute the plan counts up is a number, if it is there at all. */
  predicate Countable(plan: Plan, item: Item) {
    forall a | a in plan && plan[a].CountUp? && a in item :: item[a].N?
  }

  predicate Extends(names: Names, values: Values, names': Names, values': Values) {
    && (forall p | p in names :: p in names' && names'[p] == names[p])
    && (forall v | v in values :: v in values' && values'[v] == values[v])
  }

  lemma ServesOn(x: Assignment, names: Names, values: Values, names': Names, values': Values, plan: Plan)
    requires Serves(x, names, values, plan) && Extends(names, values, names', values')
    ensures Serves(x, names', values', plan) && Resolve(names', x.target) == Resolve(names, x.target)
  {
  }

  lemma CarriesOn(sets: seq<Assignment>, names: Names, values: Values, names': Names, values': Values, plan: Plan)
    requires Carries(sets, names, values, plan) && Extends(names, values, names', values')
    ensures Carries(sets, names', values', plan)
  {
    forall i | 0 <= i < |sets|
      ensures Serves(sets[i], names', values', plan)
      ensures Resolve(names', sets[i].target) == Resolve(names, sets[i].target)
    {
      ServesOn(sets[i], names, values, names', values', plan);
    }
    forall a | a in plan ensures Targeted(sets, names', a) {
      assert Targeted(sets, names, a);
    }
  }

  lemma CarriesMore(sets: seq<Assignment>, names: Names, values: Values, plan: Plan, x: Assignment, c: Change)
    requires Carries(sets, names, values, plan) && Resolve(names, x.target) !in plan && Compiles(x, names, values, c)
    ensures Carries(sets + [x], names, values, plan[Resolve(names, x.target) := c])
  {
    var plan' := plan[Resolve(names, x.target) := c];
    forall i | 0 <= i < |sets| ensures Serves(sets[i], names, values, plan') {
      assert Serves(sets[i], names, values, plan);
    }
    forall a | a in plan' ensures Targeted(sets + [x], names, a) {
      if a in plan {
        assert Targeted(sets, names, a);
        var i :| 0 <= i < |sets| && Resolve(names, sets[i].target) == a;
        assert (sets + [x])[i] == sets[i];
      } else {
        assert (sets + [x])[|sets|] == x;
      }
    }
  }

  lemma EvaluatesTo(x: Assignment, item: Item, names: Names, values: Values, plan: Plan)
    requires Serves(x, names, values, plan) && Countable(plan, item)
    ensures var a := Resolve(names, x.target);
            && Evaluate(x.operand, item, names, values).Some?
            && Evaluate(x.operand, item, names, values) == Planned(plan, Get(item, a), a)
  {
  }

  lemma AllEvaluate(sets: seq<Assignment>, names: Names, values: Values, plan: Plan, item: Item)
    requires Carries(sets, names, values, plan) && Countable(plan, item)
    ensures forall x | x in sets :: Evaluate(x.operand, item, names, values).Some?
  {
    forall x | x in sets ensures Evaluate(x.operand, item, names, values).Some? {
      EvaluatesTo(x, item, names, values, plan);
    }
  }

  /** Executing the assignments does to every attribute what the plan says. */
  lemma CarriedOut(sets: seq<Assignment>, names: Names, values: Values, plan: Plan, item: Item, a: Attribute)
    requires Carries(sets, names, values, plan) && Countable(plan, item)
    ensures Get(Written(sets, item, names, values), a) == Planned(plan, Get(item, a), a)
  {
    if a in plan {
      assert Targeted(sets, names, a);
      var i :| 0 <= i < |sets| && Resolve(names, sets[i].target) == a;
      WrittenAt(sets, item, names, values, i);
      assert Serves(sets[i], names, values, plan);
      EvaluatesTo(sets[i], item, names, values, plan);
    } else {
      forall i | 0 <= i < |sets| ensures Resolve(names, sets[i].target) != a {
        assert Serves(sets[i], names, values, plan);
      }
      WrittenElsewhere(sets, item, names, values, a);
    }
  }

  /** An assignment that brings its own placeholders. */
  lemma CarriesWith(sets: seq<Assignment>, names: Names, values: Values, plan: Plan,
                    x: Assignment, more: Names, given: Values, c: Change)
    requires Carries(sets, names, values, plan)
    requires more.Keys == AssignmentNames(x) && given.Keys == AssignmentValues(x)
    requires forall p | p in more && p in names :: names[p] == more[p]
    requires forall v | v in given && v in values :: values[v] == given[v]
    requires Resolve(more, x.target) !in plan && Compiles(x, more, given, c)
    ensures Carries(sets + [x], names + more, values + given, plan[Resolve(more, x.target) := c])
  {
    CarriesOn(sets, names, values, names + more, values + given, plan);
    assert Resolve(names + more, x.target) == Resolve(more, x.target);
    assert Compiles(x, names + more, values + given, c);
    CarriesMore(sets, names + more, values + given, plan, x, c);
  }

  // ------------------------------------------------------------------- drafts

  /** An update expression under construction. */
  class Draft {
    var sets: seq<Assignment>
    var removes: seq<Path>
    var names: Names
    var values: Values
    ghost var plan: Plan

    /** Every placeholder of the dictionaries is used, and every one used is in them. */
    ghost predicate Valid()
      reads this
    {
      && Carries(sets, names, values, plan) && removes == []
      && names.Keys == SetNames(sets) && values.Keys == SetValues(sets)
    }

    constructor ()
      ensures Valid() && names == map[] && values == map[] && plan == map[]
    {
      sets, removes, names, values, plan := [], [], map[], map[], map[];
    }

    /** Add one assignment with its placeholders, which are new or mean the same as before. */
    method Add(x: Assignment, more: Names, given: Values, ghost a: Attribute, ghost c: Change)
      requires Valid() && more.Keys == AssignmentNames(x) && given.Keys == AssignmentValues(x)
      requires forall p | p in more && p in names :: names[p] == more[p]
      requires forall v | v in given && v in values :: values[v] == given[v]
      requires Resolve(more, x.target) == a && a !in plan && Compiles(x, more, given, c)
      modifies this
      ensures Valid() && plan == old(plan)[a := c]
      ensures names == old(names) + more && values == old(values) + given
    {
      CarriesWith(sets, names, values, plan, x, more, given, c);
      AppendNames(sets, x);
      sets, names, values, plan := sets + [x], names + more, values + given, plan[a := c];
    }
  }

  function Numbered(prefix: string, i: nat): string {
    prefix + Decimal(i)
  }

  lemma NumberedInjective(prefix: string, i: nat, j: nat)
    ensures Numbered(prefix, i) == Numbered(prefix, j) <==> i == j
  {
    if Numbered(prefix, i) == Numbered(prefix, j) {
      assert Numbered(prefix, i)[|prefix|..] == Decimal(i) && Numbered(prefix, j)[|prefix|..] == Decimal(j);
      DecimalInjective(i, j);
    }
  }

  /** Placeholders given out so far have numbers below `n`. */
  ghost predicate Below(keys: set<string>, prefix: string, n: nat) {
    forall p | p in keys :: exists i: nat :: i < n && p == Numbered(prefix, i)
  }

  lemma BelowNext(keys: set<string>, prefix: string, n: nat)
    requires Below(keys, prefix, n)
    ensures Numbered(prefix, n) !in keys && Below(keys + {Numbered(prefix, n)}, prefix, n + 1)
  {
    if Numbered(prefix, n) in keys {
      var i: nat :| i < n && Numbered(prefix, n) == Numbered(prefix, i);
      NumberedInjective(prefix, n, i);
    }
  }

  /** Longer than two characters, with this one second. */
  predicate Marked(p: string, c: char) {
    |p| >= 3 && p[1] == c
  }

  ghost predicate AllMarked(keys: set<string>, c: char) {
    forall p | p in keys :: Marked(p, c)
  }

  lemma BelowMarked(keys: set<string>, prefix: string, n: nat)
    requires Below(keys, prefix, n) && |prefix| >= 2
    ensures AllMarked(keys, prefix[1])
  {
  }

  // ------------------------------------------------------- the metadata update

  const SKIPPED := {Pk, Sk, CreatedAt, CreatedBy}

  /** The item an update is built from: the record stamped with the time of the save. */
  function MetadataItem(r: MetadataRecord, now: string): Item {
    ToItem(r.(updatedAt := Some(now)))
      [Gsi1Pk := S("STATUS#" + StatusName(r.status))]
      [Gsi1Sk := S(now)]
      [UpdatedAt := S(now)]
  }

  function CreationTime(r: MetadataRecord, now: string): string {
    if Filled(r.createdAt) then r.createdAt.value else now
  }

  function Overwrites(item: Item, done: set<Attribute>): Plan {
    map a | a in item && a in done - SKIPPED :: Overwrite(item[a])
  }

  function MetadataPlan(r: MetadataRecord, now: string): Plan {
    var item := MetadataItem(r, now);
    var plan := Overwrites(item, item.Keys)[CreatedAt := SetOnce(S(CreationTime(r, now)))];
    if Filled(r.createdBy) then plan[CreatedBy := SetOnce(S(r.createdBy.value))] else plan
  }

  /** What a save does to an attribute, said directly: creation data is written once, what
      the record says is overwritten, and all else, the key included, is kept. */
  function Saved(r: MetadataRecord, now: string, a: Attribute, was: Option<Value>): Option<Value> {
    match a
    case Pk => was
    case Sk => was
    case CreatedAt => Some(was.GetOr(S(CreationTime(r, now))))
    case CreatedBy => if Filled(r.createdBy) then Some(was.GetOr(S(r.createdBy.value))) else was
    case UpdatedAt => Some(S(now))
    case Gsi1Sk => Some(S(now))
    case Gsi1Pk => Some(S("STATUS#" + StatusName(r.status)))
    case _ => if AttributeOf(r, a).Some? then AttributeOf(r, a) else was
  }

  lemma PlanIsDirect(r: MetadataRecord, now: string, a: Attribute, was: Option<Value>)
    ensures Planned(MetadataPlan(r, now), was, a) == Saved(r, now, a, was)
  {
    StampedItem(r, now, a);
    OverwritesAt(MetadataItem(r, now), a);
    PlanAt(r, now, a);
    DirectFrom(r, now, a, was, Get(MetadataItem(r, now), a), Get(MetadataPlan(r, now), a));
  }

  lemma DirectFrom(r: MetadataRecord, now: string, a: Attribute, was: Option<Value>, v: Option<Value>,
                   c: Option<Change>)
    requires v == if a == UpdatedAt || a == Gsi1Sk then Some(S(now))
                  else if a == Gsi1Pk then Some(S("STATUS#" + StatusName(r.status)))
                  else AttributeOf(r, a)
    requires c == if a == CreatedAt then Some(SetOnce(S(CreationTime(r, now))))
                  else if a == CreatedBy && Filled(r.createdBy) then Some(SetOnce(S(r.createdBy.value)))
                  else if a in SKIPPED || v.None? then None else Some(Overwrite(v.value))
    ensures Changed(c, was) == Saved(r, now, a, was)
  {
  }

  lemma OverwritesAt(item: Item, a: Attribute)
    ensures Get(Overwrites(item, item.Keys), a)
            == if a in SKIPPED || Get(item, a).None? then None else Some(Overwrite(Get(item, a).value))
  {
  }

  lemma PlanAt(r: MetadataRecord, now: string, a: Attribute)
    ensures Get(MetadataPlan(r, now), a) ==
            if a == CreatedAt then Some(SetOnce(S(CreationTime(r, now))))
            else if a == CreatedBy && Filled(r.createdBy) then Some(SetOnce(S(r.createdBy.value)))
            else Get(Overwrites(MetadataItem(r, now), MetadataItem(r, now).Keys), a)
  {
  }

  lemma StampKeeps(r: MetadataRecord, now: string, a: Attribute)
    ensures a != UpdatedAt ==> AttributeOf(r.(updatedAt := Some(now)), a) == AttributeOf(r, a)
  {
  }

  lemma StampedItem(r: MetadataRecord, now: string, a: Attribute)
    ensures Get(MetadataItem(r, now), a) ==
            if a == UpdatedAt || a == Gsi1Sk then Some(S(now))
            else if a == Gsi1Pk then Some(S("STATUS#" + StatusName(r.status)))
            else AttributeOf(r, a)
  {
    ItemSays(r.(updatedAt := Some(now)), a);
    StampKeeps(r, now, a);
  }

  /** The placeholders of a metadata update; those of the fence are others. */
  ghost predicate MetadataPlaceholders(names: set<string>, values: set<string>) {
    && (forall p | p in names :: Marked(p, 'n') || p == "#createdAt" || p == "#createdBy")
    && (forall v | v in values :: Marked(v, 'v') || v == ":createdAt" || v == ":createdBy")
  }

  method SetValue(draft: Draft, name: string, placeholder: string, a: Attribute, v: Value)
    requires draft.Valid() && name !in draft.names && placeholder !in draft.values && a !in draft.plan
    modifies draft
    ensures draft.Valid() && draft.plan == old(draft.plan)[a := Overwrite(v)]
    ensures draft.names.Keys == old(draft.names.Keys) + {name}
    ensures draft.values.Keys == old(draft.values.Keys) + {placeholder}
  {
    draft.Add(Assign(Named(name), Ref(placeholder)), map[name := a], map[placeholder := v], a, Overwrite(v));
  }

  /** Overwrite every attribute of the item that is not written once.  The placeholders
      are numbered as the item is gone through, in any order. */
  method OverwriteAll(draft: Draft, item: Item)
    requires draft.Valid() && draft.names == map[] && draft.values == map[] && draft.plan == map[]
    modifies draft
    ensures draft.Valid() && draft.plan == Overwrites(item, item.Keys)
    ensures AllMarked(draft.names.Keys, 'n') && AllMarked(draft.values.Keys, 'v')
  {
    var index := 0;
    var rest := item.Keys;
    while rest != {}
      invariant draft.Valid() && rest <= item.Keys
      invariant draft.plan == Overwrites(item, item.Keys - rest)
      invariant Below(draft.names.Keys, "#n", index) && Below(draft.values.Keys, ":v", index)
      decreases rest
    {
      var a :| a in rest;
      OverwritesNext(item, rest, a);
      rest := rest - {a};
      if a !in SKIPPED {
        var name, placeholder := Numbered("#n", index), Numbered(":v", index);
        BelowNext(draft.names.Keys, "#n", index);
        BelowNext(draft.values.Keys, ":v", index);
        SetValue(draft, name, placeholder, a, item[a]);
        index := index + 1;
      }
    }
    BelowMarked(draft.names.Keys, "#n", index);
    BelowMarked(draft.values.Keys, ":v", index);
    assert item.Keys - rest == item.Keys;
  }

  lemma OverwritesNext(item: Item, rest: set<Attribute>, a: Attribute)
    requires a in rest && rest <= item.Keys
    ensures a !in Overwrites(item, item.Keys - rest)
    ensures Overwrites(item, item.Keys - (rest - {a})) ==
            if a in SKIPPED then Overwrites(item, item.Keys - rest)
            else Overwrites(item, item.Keys - rest)[a := Overwrite(item[a])]
  {
  }

  lemma CreationPlaceholders(names: set<string>, values: set<string>)
    requires AllMarked(names, 'n') && AllMarked(values, 'v')
    ensures "#createdAt" !in names && "#createdBy" !in names + {"#createdAt"}
    ensures ":createdAt" !in values && ":createdBy" !in values + {":createdAt"}
  {
    assert "#createdAt"[1] == 'c' && "#createdBy"[1] == 'c' && ":createdAt"[1] == 'c' && ":createdBy"[1] == 'c';
    assert "#createdAt"[8] == 'A' && "#createdBy"[8] == 'B' && ":createdAt"[8] == 'A' && ":createdBy"[8] == 'B';
  }

  /** Build the update of a record. */
  method BuildMetadataUpdate(r: MetadataRecord, now: string) returns (draft: Draft)
    ensures fresh(draft) && draft.Valid() && draft.plan == MetadataPlan(r, now)
    ensures MetadataPlaceholders(draft.names.Keys, draft.values.Keys)
  {
    draft := new Draft();
    var item := ToDynamodbItem(r.(updatedAt := Some(now)));
    item := item[Gsi1Pk := S("STATUS#" + StatusName(r.status))][Gsi1Sk := S(now)][UpdatedAt := S(now)];
    OverwriteAll(draft, item);
    CreationPlaceholders(draft.names.Keys, draft.values.Keys);
    SetCreation(draft, "#createdAt", ":createdAt", CreatedAt, CreationTime(r, now));
    if Filled(r.createdBy) {
      SetCreation(draft, "#createdBy", ":createdBy", CreatedBy, r.createdBy.value);
    }
  }

  /** Set an attribute unless the row has it already. */
  method SetCreation(draft: Draft, name: string, placeholder: string, a: Attribute, text: string)
    requires draft.Valid() && name !in draft.names && placeholder !in draft.values && a !in draft.plan
    modifies draft
    ensures draft.Valid() && draft.plan == old(draft.plan)[a := SetOnce(S(text))]
    ensures draft.names.Keys == old(draft.names.Keys) + {name}
    ensures draft.values.Keys == old(draft.values.Keys) + {placeholder}
  {
    draft.Add(Assign(Named(name), IfNotExists(Named(name), placeholder)), map[name := a], map[placeholder := S(text)],
              a, SetOnce(S(text)));
  }
}
