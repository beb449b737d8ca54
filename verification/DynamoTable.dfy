/**
 What the store does with a conditional update: placeholders, SET with
 `if_not_exists`, REMOVE, and conditions over attributes that may be missing.  An
 expression is given in parsed form; attribute names are an enumeration.
 */
module DynamoTable {
  import opened Options

  /** `Other` is any attribute the gateway owns and the processor never names. */
  datatype Attribute =
    | Pk | Sk | EntityType | FileId | CorrelationId | OriginalFilename | FileSizeBytes | BucketName | ObjectKey
    | Status | IsEncrypted | EncryptionAlgorithm | RetryCount | MimeType | ChecksumSha256 | ChecksumAlgorithm
    | FileHash | KmsKeyId | IsSafe | ScanFindings | CreatedAt | CreatedBy | UpdatedAt | ProcessedAt
    | ErrorMessage | ErrorCode | Ttl | LastProcessedEventId | Gsi1Pk | Gsi1Sk
    | ClaimToken | ClaimVersion | ClaimExpiresAt | ProcessingEventId
    | Other(name: string)

  datatype Value = S(text: string) | N(number: int) | Bool(flag: bool) | SS(texts: seq<string>)

  type Item = map<Attribute, Value>

  function Get<V>(item: map<Attribute, V>, a: Attribute): Option<V> {
    if a in item then Some(item[a]) else None
  }

  datatype Path = Named(placeholder: string) | Plain(attribute: Attribute)

  datatype Operand =
    | Ref(value: string)
    | IfNotExists(path: Path, value: string)
    | IfNotExistsPlus(path: Path, value: string, increment: string)

  datatype Assignment = Assign(target: Path, operand: Operand)

  datatype Condition =
    | Equal(path: Path, value: string)
    | AtMost(path: Path, value: string)
    | Differs(path: Path, value: string)
    | Absent(path: Path)
    | Present(path: Path)
    | Both(left: Condition, right: Condition)
    | Either(left: Condition, right: Condition)

  type Names = map<string, Attribute>
  type Values = map<string, Value>

  datatype Request = Request(
    sets: seq<Assignment>,
    removes: seq<Path>,
    names: Names,
    values: Values,
    condition: Option<Condition>)

  datatype Reply = Rejected | ConditionFailed | Updated(item: Item)

  // ------------------------------------------------------------- placeholders

  function PathNames(p: Path): set<string> {
    if p.Named? then {p.placeholder} else {}
  }

  function AssignmentNames(x: Assignment): set<string> {
    PathNames(x.target) + if x.operand.Ref? then {} else PathNames(x.operand.path)
  }

  function AssignmentValues(x: Assignment): set<string> {
    {x.operand.value} + if x.operand.IfNotExistsPlus? then {x.operand.increment} else {}
  }

  function SetNames(sets: seq<Assignment>): set<string> {
    if sets == [] then {} else SetNames(sets[..|sets| - 1]) + AssignmentNames(sets[|sets| - 1])
  }

  function SetValues(sets: seq<Assignment>): set<string> {
    if sets == [] then {} else SetValues(sets[..|sets| - 1]) + AssignmentValues(sets[|sets| - 1])
  }

  function RemoveNames(removes: seq<Path>): set<string> {
    if removes == [] then {} else RemoveNames(removes[..|removes| - 1]) + PathNames(removes[|removes| - 1])
  }

  function ConditionNames(c: Condition): set<string> {
    match c
    case Both(l, r) => ConditionNames(l) + ConditionNames(r)
    case Either(l, r) => ConditionNames(l) + ConditionNames(r)
    case _ => PathNames(c.path)
  }

  function ConditionValues(c: Condition): set<string> {
    match c
    case Both(l, r) => ConditionValues(l) + ConditionValues(r)
    case Either(l, r) => ConditionValues(l) + ConditionValues(r)
    case Absent(_) => {}
    case Present(_) => {}
    case _ => {c.value}
  }

  function Resolve(names: Names, p: Path): Attribute {
    match p
    case Plain(a) => a
    case Named(n) => if n in names then names[n] else Other(n)
  }

  function Lookup(values: Values, v: string): Value {
    if v in values then values[v] else S("")
  }

  /** The attributes an update names as targets, in order: first set, then removed. */
  function Targets(q: Request): seq<Attribute> {
    seq(|q.sets|, i requires 0 <= i < |q.sets| => Resolve(q.names, q.sets[i].target))
    + seq(|q.removes|, i requires 0 <= i < |q.removes| => Resolve(q.names, q.removes[i]))
  }

  ghost predicate Distinct<T(!new)>(s: seq<T>) {
    forall i, j | 0 <= i < j < |s| :: s[i] != s[j]
  }

  /** The store rejects an undefined or unused placeholder. */
  ghost predicate PlaceholdersMatch(q: Request) {
    && q.names.Keys == SetNames(q.sets) + RemoveNames(q.removes)
                       + (if q.condition.Some? then ConditionNames(q.condition.value) else {})
    && q.values.Keys == SetValues(q.sets) + (if q.condition.Some? then ConditionValues(q.condition.value) else {})
  }

  /** It also rejects two clauses on one attribute, and any attempt to change the key. */
  ghost predicate TargetsApart(q: Request) {
    Distinct(Targets(q)) && Pk !in Targets(q) && Sk !in Targets(q)
  }

  ghost predicate Accepted(q: Request) {
    PlaceholdersMatch(q) && TargetsApart(q)
  }

  // --------------------------------------------------------------- evaluation

  /** `=` and `<=` with a missing attribute are false, `<>` is true. */
  predicate Holds(c: Condition, item: Item, names: Names, values: Values) {
    match c
    case Equal(p, v) => Get(item, Resolve(names, p)) == Some(Lookup(values, v))
    case Differs(p, v) => Get(item, Resolve(names, p)) != Some(Lookup(values, v))
    case AtMost(p, v) =>
      var x := Get(item, Resolve(names, p));
      x.Some? && x.value.N? && Lookup(values, v).N? && x.value.number <= Lookup(values, v).number
    case Absent(p) => Resolve(names, p) !in item
    case Present(p) => Resolve(names, p) in item
    case Both(l, r) => Holds(l, item, names, values) && Holds(r, item, names, values)
    case Either(l, r) => Holds(l, item, names, values) || Holds(r, item, names, values)
  }

  /** The value of an operand on the item before the update; None is a type error. */
  function Evaluate(o: Operand, item: Item, names: Names, values: Values): Option<Value> {
    match o
    case Ref(v) => Some(Lookup(values, v))
    case IfNotExists(p, v) => Some(Get(item, Resolve(names, p)).GetOr(Lookup(values, v)))
    case IfNotExistsPlus(p, v, inc) =>
      var base := Get(item, Resolve(names, p)).GetOr(Lookup(values, v));
      if base.N? && Lookup(values, inc).N? then Some(N(base.number + Lookup(values, inc).number)) else None
  }

  ghost predicate Typed(q: Request, item: Item) {
    forall x | x in q.sets :: Evaluate(x.operand, item, q.names, q.values).Some?
  }

  function Written(sets: seq<Assignment>, item: Item, names: Names, values: Values): Item {
    if sets == [] then item
    else
      var x := sets[|sets| - 1];
      Written(sets[..|sets| - 1], item, names, values)
        [Resolve(names, x.target) := Evaluate(x.operand, item, names, values).GetOr(S(""))]
  }

  function Removed(removes: seq<Path>, names: Names): set<Attribute> {
    set i | 0 <= i < |removes| :: Resolve(names, removes[i])
  }

  /** One conditional update of the row with this key, which may not exist yet. */
  ghost function Execute(row: Option<Item>, key: Item, q: Request): Reply {
    if !Accepted(q) then Rejected
    else if q.condition.Some? && !Holds(q.condition.value, row.GetOr(map[]), q.names, q.values) then ConditionFailed
    else if !Typed(q, row.GetOr(key)) then Rejected
    else Updated(Written(q.sets, row.GetOr(key), q.names, q.values) - Removed(q.removes, q.names))
  }

  // ------------------------------------------------------------------- lemmas

  lemma {:induction false} WrittenElsewhere(sets: seq<Assignment>, item: Item, names: Names, values: Values,
                                            a: Attribute)
    requires forall i | 0 <= i < |sets| :: Resolve(names, sets[i].target) != a
    ensures Get(Written(sets, item, names, values), a) == Get(item, a)
  {
    if sets != [] {
      WrittenElsewhere(sets[..|sets| - 1], item, names, values, a);
    }
  }

  /** Each clause of a SET takes effect, evaluated on the item before the update. */
  lemma {:induction false} WrittenAt(sets: seq<Assignment>, item: Item, names: Names, values: Values, i: nat)
    requires i < |sets|
    requires forall j | i < j < |sets| :: Resolve(names, sets[j].target) != Resolve(names, sets[i].target)
    ensures Get(Written(sets, item, names, values), Resolve(names, sets[i].target))
            == Some(Evaluate(sets[i].operand, item, names, values).GetOr(S("")))
  {
    if i < |sets| - 1 {
      WrittenAt(sets[..|sets| - 1], item, names, values, i);
    }
  }

  lemma AppendNames(sets: seq<Assignment>, x: Assignment)
    ensures SetNames(sets + [x]) == SetNames(sets) + AssignmentNames(x)
    ensures SetValues(sets + [x]) == SetValues(sets) + AssignmentValues(x)
  {
    assert (sets + [x])[..|sets|] == sets;
  }
}
