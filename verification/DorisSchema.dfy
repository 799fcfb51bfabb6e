/** Reconciling a Doris table with its source: the type order, the plan, and its effect.
    Column names are compared trimmed and in lower case; types are normalised and split. */
module DorisSchema {
  import opened Common
  import DorisNames

  // ---- The type order ----

  datatype Base =
    | CharBase | VarcharBase | StringBase
    | TinyInt | SmallInt | Int | BigInt | LargeInt
    | Float | Double | Decimal
    | Date | DateTime | DateTimeV2(suffix: string)
    | Other(name: string)

  datatype Type = Type(base: Base, params: seq<int>)

  const STRING := Type(StringBase, [])

  predicate IsString(t: Type) {
    t.base == CharBase || t.base == VarcharBase || t.base == StringBase
  }

  /** The length bound of a string type; none for STRING. */
  function Length(t: Type): (n: Option<int>) {
    if t.base == StringBase then None else if t.params == [] then Some(0) else Some(t.params[0])
  }

  function Rank(b: Base): (n: nat) {
    match b
    case TinyInt => 1
    case SmallInt => 2
    case Int => 3
    case BigInt => 4
    case LargeInt => 5
    case _ => 0
  }

  predicate DecimalCovers(a: seq<int>, b: seq<int>) {
    |a| >= 2 && |b| >= 2 && a[1] >= b[1] && a[0] - a[1] >= b[0] - b[1]
  }

  /** A column of type `a` can hold the values of type `b`. */
  predicate CanRepresent(a: Type, b: Type) {
    if a == b then true
    else if a == STRING && IsString(b) then true
    else if IsString(a) && IsString(b) then
      Length(a).None? || (Length(b).Some? && Length(a).value >= Length(b).value)
    else if Rank(a.base) > 0 && Rank(b.base) > 0 then Rank(a.base) >= Rank(b.base)
    else
      || (a.base == Double && b.base == Float)
      || (a.base == DateTime && b.base == Date)
      || (a.base.DateTimeV2? && (b.base == DateTime || b.base == Date))
      || (a.base == Decimal && b.base == Decimal && DecimalCovers(a.params, b.params))
  }

  predicate IsDate(t: Type) {
    t.base == Date || t.base == DateTime || t.base.DateTimeV2?
  }

  predicate SafeWidening(a: Type, b: Type) {
    if b == STRING && !IsDate(a) then true
    else if IsString(a) && IsString(b) then
      Length(a).Some? && (Length(b).None? || Length(b).value > Length(a).value)
    else if Rank(a.base) > 0 && Rank(b.base) > 0 then Rank(b.base) > Rank(a.base)
    else
      || (a.base == Float && b.base == Double)
      || (a.base == Date && (b.base == DateTime || b.base.DateTimeV2?))
      || (a.base == Decimal && b.base == Decimal && DecimalCovers(b.params, a.params))
  }

  /** "Can represent" is a preorder. */
  lemma CanRepresentIsPreorder(a: Type, b: Type, c: Type)
    ensures CanRepresent(a, a)
    ensures CanRepresent(a, b) && CanRepresent(b, c) ==> CanRepresent(a, c)
  {
  }

  /** A column changed because its type could not hold the source's moves to a type that holds
      all of the old one, except that a type other than a string or a date may become STRING. */
  lemma WideningLosesNothing(a: Type, b: Type)
    requires SafeWidening(a, b) && !CanRepresent(a, b)
    ensures CanRepresent(b, a) || (b == STRING && !IsString(a) && !IsDate(a))
  {
  }

  /** No widening is undone by another: the order of types it leaves is strict. */
  lemma WideningIsStrict(a: Type, b: Type)
    requires SafeWidening(a, b) && !CanRepresent(a, b)
    ensures !(SafeWidening(b, a) && !CanRepresent(b, a))
  {
  }

  // ---- What the source asks for ----

  /** MySQL data types, by the case of the mapping that takes them. */
  datatype DataType = TinyIntData | IntegerData | FloatData | DecimalData | DateTimeData | DateData | BoolData
    | BitData | CharData | TextData | OtherData

  /** `single` says that the column type is written with width 1. */
  datatype Source = Source(name: string, pk: bool, nullable: bool, dataType: DataType, unsigned: bool, single: bool,
                           charMaxLen: Option<int>, numPrec: Option<int>, numScale: Option<int>)

  /** `name` is the form in which the plan compares it. */
  datatype Desired = Desired(source: string, name: string, ty: Type, nullable: bool, key: bool)

  const MAX_VARCHAR := 65533
  const MAX_PRECISION := 38
  const BOOLEAN := Type(Other("BOOLEAN"), [])
  const BIGINT := Type(BigInt, [])

  function Varchar(n: int): (t: Type) {
    Type(VarcharBase, [n])
  }

  function Least(a: int, b: int): (m: int) {
    if a < b then a else b
  }

  /** An `int64` sum. */
  function Int64(x: int): (r: int) {
    (x + 0x8000_0000_0000_0000) % 0x1_0000_0000_0000_0000 - 0x8000_0000_0000_0000
  }

  function KeyString(c: Source): (t: Type) {
    if c.charMaxLen.Some? && c.charMaxLen.value > 0 then Varchar(Least(c.charMaxLen.value, MAX_VARCHAR)) else Varchar(1024)
  }

  function DecimalOrDigits(precision: int, scale: int): (t: Type) {
    var p := if precision <= 0 then 27 else precision;
    var s := if precision <= 0 then 9 else if scale < 0 then 0 else Least(scale, precision);
    if p > MAX_PRECISION then
      var length := Int64(p + 1 + if s > 0 then 1 else 0);
      Varchar(if length <= 0 then 1024 else Least(length, MAX_VARCHAR))
    else Type(Decimal, [p, s])
  }

  function MapType(c: Source, key: bool): (t: Type) {
    match c.dataType
    case TinyIntData => if !c.unsigned && c.single then BOOLEAN else BIGINT
    case IntegerData => BIGINT
    case FloatData => if key then Type(Decimal, [27, 9]) else Type(Double, [])
    case DecimalData =>
      if c.numPrec.Some? then DecimalOrDigits(c.numPrec.value, if c.numScale.Some? then c.numScale.value else 0) else Type(Decimal, [27, 9])
    case DateTimeData => Type(DateTime, [])
    case DateData => Type(Date, [])
    case BoolData => BOOLEAN
    case BitData => if c.single then BOOLEAN else if key then KeyString(c) else STRING
    case CharData =>
      if c.charMaxLen.None? || c.charMaxLen.value <= 0 then Varchar(1024)
      else if c.charMaxLen.value <= MAX_VARCHAR then Varchar(c.charMaxLen.value)
      else if key then KeyString(c) else STRING
    case TextData => if key then KeyString(c) else STRING
    case OtherData => if key then KeyString(c) else STRING
  }

  /** What Doris takes as a column type: lengths and precisions in range, and no unbounded or
      floating type in the key. */
  predicate Declarable(t: Type, key: bool) {
    && (t.base == VarcharBase ==> |t.params| == 1 && 1 <= t.params[0] <= MAX_VARCHAR)
    && (t.base == Decimal ==> |t.params| == 2 && 0 <= t.params[1] <= t.params[0] && 1 <= t.params[0] <= MAX_PRECISION)
    && (key ==> t.base != StringBase && t.base != Double && t.base != Float)
  }

  /** The mapping is total onto declarable types, in the key and outside it, and a key column's
      type is at most a bounded form of its type outside the key. */
  lemma MappedTypesAreDeclarable(c: Source)
    ensures Declarable(MapType(c, true), true) && Declarable(MapType(c, false), false)
    ensures MapType(c, true) == MapType(c, false) || MapType(c, false) == STRING || c.dataType == FloatData
    ensures MapType(c, false) == STRING ==> CanRepresent(STRING, MapType(c, true))
  {
  }

  /** The primary key, or the first column when there is none. */
  predicate IsKey(columns: seq<Source>, i: nat)
    requires i < |columns|
  {
    columns[i].pk || (i == 0 && forall k :: 0 <= k < |columns| ==> !columns[k].pk)
  }

  function Indexes(columns: seq<Source>, n: nat, keys: bool): (r: seq<nat>)
    requires n <= |columns|
  {
    if n == 0 then []
    else Indexes(columns, n - 1, keys) + if IsKey(columns, n - 1) == keys then [n - 1] else []
  }

  function Order(columns: seq<Source>): (r: seq<nat>) {
    Indexes(columns, |columns|, true) + Indexes(columns, |columns|, false)
  }

  /** Increasing, and exactly the indexes below `n` of one group. */
  ghost predicate Lists(columns: seq<Source>, n: nat, keys: bool, r: seq<nat>)
    requires n <= |columns|
  {
    && (forall i: nat :: i in r <==> i < n && IsKey(columns, i) == keys)
    && (forall i, j :: 0 <= i < j < |r| ==> r[i] < r[j])
  }

  lemma ListsMore(columns: seq<Source>, n: nat, keys: bool, r: seq<nat>)
    requires n < |columns| && Lists(columns, n, keys, r)
    ensures Lists(columns, n + 1, keys, if IsKey(columns, n) == keys then r + [n] else r)
  {
    hide IsKey;
    assert forall k :: 0 <= k < |r| ==> r[k] in r;
    assert forall i: nat :: i in r + [n] <==> i in r || i == n;
  }

  lemma ListsNone(columns: seq<Source>, keys: bool)
    ensures Lists(columns, 0, keys, [])
  {
  }

  lemma {:induction false} IndexesAre(columns: seq<Source>, n: nat, keys: bool)
    requires n <= |columns|
    ensures Lists(columns, n, keys, Indexes(columns, n, keys))
  {
    hide IsKey, Lists;
    if n == 0 {
      ListsNone(columns, keys);
    } else {
      var rest := Indexes(columns, n - 1, keys);
      IndexesAre(columns, n - 1, keys);
      ListsMore(columns, n - 1, keys, rest);
      assert rest + [] == rest;
    }
  }

  lemma {:induction false} IndexCount(columns: seq<Source>, n: nat)
    requires n <= |columns|
    ensures |Indexes(columns, n, true)| + |Indexes(columns, n, false)| == n
  {
    if n > 0 {
      IndexCount(columns, n - 1);
    }
  }

  /** The key part of the order, then the value part. */
  lemma OrderAt(columns: seq<Source>, i: nat)
    requires i < |Order(columns)|
    ensures var o, a := Order(columns), Indexes(columns, |columns|, true);
      o[i] < |columns| && (IsKey(columns, o[i]) <==> i < |a|)
  {
    var a, b := Indexes(columns, |columns|, true), Indexes(columns, |columns|, false);
    IndexesAre(columns, |columns|, true);
    IndexesAre(columns, |columns|, false);
    if i < |a| {
      assert Order(columns)[i] == a[i] && a[i] in a;
    } else {
      assert Order(columns)[i] == b[i - |a|] && b[i - |a|] in b;
    }
  }

  lemma OrderIsComplete(columns: seq<Source>)
    ensures var o := Order(columns);
      |o| == |columns| && forall i: nat :: i in o <==> i < |columns|
  {
    IndexesAre(columns, |columns|, true);
    IndexesAre(columns, |columns|, false);
    IndexCount(columns, |columns|);
  }

  /** The order lists every source column once, keys before values, and each group in source order. */
  lemma KeysComeFirst(columns: seq<Source>, i: nat, j: nat)
    requires i < j < |columns|
    ensures var o := Order(columns);
      && |o| == |columns| && o[i] < |columns| && o[j] < |columns| && o[i] != o[j]
      && (IsKey(columns, o[j]) ==> IsKey(columns, o[i]))
      && (IsKey(columns, o[i]) == IsKey(columns, o[j]) ==> o[i] < o[j])
  {
    OrderIsComplete(columns);
    OrderAt(columns, i);
    OrderAt(columns, j);
    IndexesAre(columns, |columns|, true);
    IndexesAre(columns, |columns|, false);
  }

  /** A table with any column has a key, and the first output column is one. */
  lemma FirstIsKey(columns: seq<Source>)
    requires columns != []
    ensures var o := Order(columns); o != [] && o[0] < |columns| && IsKey(columns, o[0])
  {
    OrderIsComplete(columns);
    OrderAt(columns, 0);
    IndexesAre(columns, |columns|, true);
    if forall k :: 0 <= k < |columns| ==> !columns[k].pk {
      assert IsKey(columns, 0);
    } else {
      var k :| 0 <= k < |columns| && columns[k].pk;
      assert IsKey(columns, k);
    }
    assert Indexes(columns, |columns|, true) != [];
  }

  /** The form in which the plan compares a name. */
  function Folded(name: string): (r: string) {
    DorisNames.Lower(DorisNames.Trim(name, DorisNames.Space))
  }

  function NamesIn(columns: seq<Source>, order: seq<nat>): (names: seq<string>)
    requires forall k :: 0 <= k < |order| ==> order[k] < |columns|
    ensures |names| == |order|
  {
    seq(|order|, k requires 0 <= k < |order| => columns[order[k]].name)
  }

  lemma OrderInRange(columns: seq<Source>)
    ensures |Order(columns)| == |columns| && forall k :: 0 <= k < |columns| ==> Order(columns)[k] < |columns|
  {
    OrderIsComplete(columns);
    forall k | 0 <= k < |columns| ensures Order(columns)[k] < |columns| {
      OrderAt(columns, k);
    }
  }

  /** Row `k` of the output: its source column, its target name, and the mapped type. */
  ghost predicate Describes(columns: seq<Source>, order: seq<nat>, targets: seq<string>, desired: seq<Desired>, k: nat) {
    && k < |order| && k < |targets| && k < |desired| && order[k] < |columns|
    && var c, key := columns[order[k]], IsKey(columns, order[k]);
       desired[k] == Desired(c.name, Folded(targets[k]), MapType(c, key), c.nullable, key)
  }

  /** The first columns of the output are in place. */
  ghost predicate Described(columns: seq<Source>, order: seq<nat>, targets: seq<string>, desired: seq<Desired>) {
    && |desired| == |targets| <= |order| && (forall k :: 0 <= k < |order| ==> order[k] < |columns|)
    && DorisNames.Assigned(NamesIn(columns, order)[..|targets|], targets)
    && forall m :: 0 <= m < |desired| ==> Describes(columns, order, targets, desired, m)
  }

  lemma OneMoreColumn(columns: seq<Source>, order: seq<nat>, targets: seq<string>, desired: seq<Desired>, target: string, d: Desired)
    requires Described(columns, order, targets, desired) && |desired| < |order|
    requires var k := |desired|; var c, key := columns[order[k]], IsKey(columns, order[k]);
      && DorisNames.FirstFree(DorisNames.BaseName(c.name, k), DorisNames.LowerNames(targets), target)
      && d == Desired(c.name, Folded(target), MapType(c, key), c.nullable, key)
    ensures Described(columns, order, targets + [target], desired + [d])
    ensures DorisNames.LowerNames(targets + [target]) == DorisNames.LowerNames(targets) + {DorisNames.Lower(target)}
  {
    hide MapType, IsKey, Folded, DorisNames.BaseName, DorisNames.FirstFree;
    var k, names := |desired|, NamesIn(columns, order);
    DorisNames.OneMoreName(names[..k], targets, names[k], target);
    assert names[..k + 1] == names[..k] + [names[k]];
    forall m | 0 <= m <= k ensures Describes(columns, order, targets + [target], desired + [d], m) {
      assert m < k ==> Describes(columns, order, targets, desired, m);
    }
  }

  /** One desired column for each source column, in key order, named apart from all others. */
  method DesiredColumns(columns: seq<Source>) returns (desired: seq<Desired>, targets: seq<string>)
    ensures |desired| == |targets| == |columns| == |Order(columns)| && Described(columns, Order(columns), targets, desired)
    ensures DistinctNames(desired)
  {
    hide MapType, Folded, DorisNames.BaseName, DorisNames.FirstFree, DorisNames.Assigned, Describes;
    OrderInRange(columns);
    var order := OrderColumns(columns);
    var used: set<string> := {};
    desired, targets := [], [];
    NothingDescribed(columns, order.0);
    for k := 0 to |order.0|
      invariant |desired| == k && used == DorisNames.LowerNames(targets) && Described(columns, order.0, targets, desired)
    {
      var i := order.0[k];
      var col, key := columns[i], i in order.1;
      var target := DorisNames.TargetName(col.name, |desired|, used);
      var d := Desired(col.name, Folded(target), MapType(col, key), col.nullable, key);
      OneMoreColumn(columns, order.0, targets, desired, target, d);
      used := used + {DorisNames.Lower(target)};
      targets := targets + [target];
      desired := desired + [d];
    }
    NamesStayApart(NamesIn(columns, order.0)[..|targets|], columns, order.0, targets, desired);
  }

  lemma NothingDescribed(columns: seq<Source>, order: seq<nat>)
    requires forall k :: 0 <= k < |order| ==> order[k] < |columns|
    ensures Described(columns, order, [], []) && DorisNames.LowerNames([]) == {}
  {
  }

  lemma NamesStayApart(names: seq<string>, columns: seq<Source>, order: seq<nat>, targets: seq<string>, desired: seq<Desired>)
    requires DorisNames.Assigned(names, targets) && |desired| == |targets|
    requires forall k :: 0 <= k < |desired| ==> Describes(columns, order, targets, desired, k)
    ensures DistinctNames(desired)
  {
    forall i, j | 0 <= i < j < |desired| ensures desired[i].name != desired[j].name {
      DorisNames.AssignedDiffer(names, targets, i, j);
      DorisNames.TargetIsTrimmed(names[i], i, DorisNames.LowerNames(targets[..i]), targets[i]);
      DorisNames.TargetIsTrimmed(names[j], j, DorisNames.LowerNames(targets[..j]), targets[j]);
      assert Describes(columns, order, targets, desired, i) && Describes(columns, order, targets, desired, j);
    }
  }

  method WithoutFirst(others: seq<nat>) returns (filtered: seq<nat>)
    requires forall i, j :: 0 <= i < j < |others| ==> others[i] < others[j]
    ensures forall i: nat :: i in filtered <==> i in others && i != 0
    ensures forall i, j :: 0 <= i < j < |filtered| ==> filtered[i] < filtered[j]
  {
    filtered := [];
    for k := 0 to |others|
      invariant forall i: nat :: i in filtered <==> i in others[..k] && i != 0
      invariant forall i, j :: 0 <= i < j < |filtered| ==> filtered[i] < filtered[j]
      invariant forall i, j :: 0 <= i < |filtered| && k <= j < |others| ==> filtered[i] < others[j]
    {
      assert others[..k + 1] == others[..k] + [others[k]];
      if others[k] != 0 {
        filtered := filtered + [others[k]];
      }
    }
    assert others[..|others|] == others;
  }

  /** The primary-key indexes below `n`, and the others in order. */
  ghost predicate Parted(columns: seq<Source>, n: nat, keys: set<nat>, others: seq<nat>)
    requires n <= |columns|
  {
    && (forall i: nat :: i in keys <==> i < n && columns[i].pk)
    && (forall i: nat :: i in others <==> i < n && !columns[i].pk)
    && (forall i, j :: 0 <= i < j < |others| ==> others[i] < others[j])
  }

  lemma PartedMore(columns: seq<Source>, n: nat, keys: set<nat>, others: seq<nat>)
    requires n < |columns| && Parted(columns, n, keys, others)
    ensures if columns[n].pk then Parted(columns, n + 1, keys + {n}, others) else Parted(columns, n + 1, keys, others + [n])
  {
    assert forall i :: 0 <= i < |others| ==> others[i] in others;
  }

  /** Without a primary key the first column is the key, and otherwise nothing changes. */
  lemma KeysAndOthers(columns: seq<Source>, pks: set<nat>, rest: seq<nat>, keys: set<nat>, others: seq<nat>)
    requires Parted(columns, |columns|, pks, rest)
    requires forall i, j :: 0 <= i < j < |others| ==> others[i] < others[j]
    requires if pks == {} && |columns| > 0 then keys == {0} && forall i: nat :: i in others <==> i in rest && i != 0
             else keys == pks && others == rest
    ensures forall i: nat :: i in keys <==> i < |columns| && IsKey(columns, i)
    ensures others == Indexes(columns, |columns|, false)
  {
    var b := Indexes(columns, |columns|, false);
    assert forall i: nat :: i in keys <==> i < |columns| && IsKey(columns, i);
    IndexesAre(columns, |columns|, false);
    SortedUnique(others, b);
  }

  /** The ordered indexes, with the key indexes among them. */
  method OrderColumns(columns: seq<Source>) returns (order: (seq<nat>, set<nat>))
    ensures order.0 == Order(columns)
    ensures forall i: nat :: i in order.1 <==> i < |columns| && IsKey(columns, i)
  {
    var keys: set<nat>, others: seq<nat> := {}, [];
    for i := 0 to |columns|
      invariant Parted(columns, i, keys, others)
    {
      PartedMore(columns, i, keys, others);
      if columns[i].pk {
        keys := keys + {i};
      } else {
        others := others + [i];
      }
    }
    ghost var pks, rest := keys, others;
    if keys == {} && |columns| > 0 {
      keys := {0};
      others := WithoutFirst(others);
    }
    KeysAndOthers(columns, pks, rest, keys, others);
    hide IsKey, Parted;
    var ordered: seq<nat> := [];
    for i := 0 to |columns|
      invariant ordered == Indexes(columns, i, true)
    {
      if i in keys {
        ordered := ordered + [i];
      }
    }
    order := (ordered + others, keys);
  }

  lemma HasMember(s: seq<nat>)
    ensures s != [] ==> exists i: nat :: i in s
  {
    if s != [] {
      assert s[0] in s;
    }
  }

  /** A strictly increasing list is determined by its members. */
  lemma {:induction false} SortedUnique(a: seq<nat>, b: seq<nat>)
    requires forall i, j :: 0 <= i < j < |a| ==> a[i] < a[j]
    requires forall i, j :: 0 <= i < j < |b| ==> b[i] < b[j]
    requires forall i: nat :: i in a <==> i in b
    ensures a == b
  {
    if a == [] {
      HasMember(b);
    } else {
      assert a[0] in b && b[0] in a;
      assert a[0] == b[0] && a == [a[0]] + a[1..] && b == [b[0]] + b[1..];
      assert a[0] !in a[1..] && b[0] !in b[1..];
      forall i: nat ensures i in a[1..] <==> i in b[1..] {
        assert i in a <==> i == a[0] || i in a[1..];
        assert i in b <==> i == b[0] || i in b[1..];
      }
      SortedUnique(a[1..], b[1..]);
    }
  }

  // ---- The plan ----

  datatype Column = Column(name: string, ty: Type, nullable: bool, key: bool)

  datatype Change = Add(desired: Desired) | Modify(current: Column, desired: Desired)

  /** The last column of that name, which is what a map filled in order keeps. */
  function ByName(table: seq<Column>, name: string): (c: Option<Column>) {
    if table == [] then None
    else if table[|table| - 1].name == name then Some(table[|table| - 1])
    else ByName(table[..|table| - 1], name)
  }

  function Decide(current: Option<Column>, d: Desired): (r: Result<Option<Change>>) {
    if current.None? then
      if d.key then Err("target is missing a source key column") else Ok(Some(Add(d)))
    else
      var c := current.value;
      if c.key != d.key then Err("key mismatch")
      else if CanRepresent(c.ty, d.ty) && (d.nullable ==> c.nullable) then Ok(None)
      else if !CanRepresent(c.ty, d.ty) && !SafeWidening(c.ty, d.ty) then Err("unsafe type mismatch")
      else Ok(Some(Modify(c, d)))
  }

  function Plan(table: seq<Column>, desired: seq<Desired>): (r: Result<seq<Change>>) {
    if desired == [] then Ok([])
    else
      var before := Plan(table, desired[..|desired| - 1]);
      if before.Err? then before
      else
        var d := desired[|desired| - 1];
        var one := Decide(ByName(table, d.name), d);
        if one.Err? then Err(one.error)
        else if one.value.None? then before else Ok(before.value + [one.value.value])
  }

  method PlanSchemaChanges(current: seq<Column>, desired: seq<Desired>) returns (plan: Result<seq<Change>>)
    ensures plan == Plan(current, desired)
  {
    var byName: map<string, Column> := map[];
    for i := 0 to |current|
      invariant forall name :: ByName(current[..i], name) == Lookup(byName, name)
    {
      assert current[..i + 1][..i] == current[..i];
      byName := byName[current[i].name := current[i]];
    }
    assert current[..|current|] == current;
    var changes: seq<Change> := [];
    for i := 0 to |desired|
      invariant Plan(current, desired[..i]) == Ok(changes)
    {
      assert desired[..i + 1][..i] == desired[..i];
      var d := desired[i];
      assert ByName(current, d.name) == Lookup(byName, d.name);
      if d.name !in byName {
        if d.key {
          PlanStops(current, desired, i + 1);
          return Err("target is missing a source key column");
        }
        changes := changes + [Add(d)];
      } else {
        var c := byName[d.name];
        if c.key != d.key {
          PlanStops(current, desired, i + 1);
          return Err("key mismatch");
        }
        var compatible := CanRepresent(c.ty, d.ty);
        if !compatible || (d.nullable && !c.nullable) {
          if !compatible && !SafeWidening(c.ty, d.ty) {
            PlanStops(current, desired, i + 1);
            return Err("unsafe type mismatch");
          }
          changes := changes + [Modify(c, d)];
        }
      }
    }
    assert desired[..|desired|] == desired;
    plan := Ok(changes);
  }

  /** The first column that cannot be reconciled decides the error. */
  lemma {:induction false} PlanStops(table: seq<Column>, desired: seq<Desired>, k: nat)
    requires k <= |desired| && Plan(table, desired[..k]).Err?
    ensures Plan(table, desired) == Plan(table, desired[..k])
    decreases |desired|
  {
    if k == |desired| {
      assert desired[..k] == desired;
    } else {
      assert desired[..|desired| - 1][..k] == desired[..k];
      PlanStops(table, desired[..|desired| - 1], k);
    }
  }

  /** Planning succeeds exactly when each column can be reconciled on its own: no missing or
      mismatched key, and no type change that is neither needless nor safe. */
  lemma {:induction false} PlanSucceedsWhen(table: seq<Column>, desired: seq<Desired>)
    ensures Plan(table, desired).Ok? <==>
      forall k :: 0 <= k < |desired| ==> Decide(ByName(table, desired[k].name), desired[k]).Ok?
  {
    if desired != [] {
      PlanSucceedsWhen(table, desired[..|desired| - 1]);
    }
  }

  // ---- Its effect ----

  /** The columns an ALTER statement leaves: an added column is a nullable value column. */
  function Altered(table: seq<Column>, c: Change): (r: seq<Column>) {
    if c.Add? then table + [Column(c.desired.name, c.desired.ty, true, false)]
    else
      seq(|table|, k requires 0 <= k < |table| =>
        if table[k].name == c.desired.name
        then Column(c.desired.name, c.desired.ty, c.desired.nullable || c.current.nullable, c.current.key) else table[k])
  }

  function AlteredAll(table: seq<Column>, changes: seq<Change>): (r: seq<Column>) {
    if changes == [] then table else Altered(AlteredAll(table, changes[..|changes| - 1]), changes[|changes| - 1])
  }

  /** The wait's test, on the first column of that name. */
  function Applied(table: seq<Column>, c: Change): (ok: bool) {
    if table == [] then false
    else if table[0].name == c.desired.name then CanRepresent(table[0].ty, c.desired.ty) && (c.desired.nullable ==> table[0].nullable)
    else Applied(table[1..], c)
  }

  method ChangeApplied(table: seq<Column>, c: Change) returns (ok: bool)
    ensures ok == Applied(table, c)
  {
    for i := 0 to |table|
      invariant Applied(table, c) == Applied(table[i..], c)
    {
      assert table[i..][1..] == table[i + 1..];
      if table[i].name == c.desired.name {
        if !CanRepresent(table[i].ty, c.desired.ty) {
          return false;
        }
        return !c.desired.nullable || table[i].nullable;
      }
    }
    ok := false;
  }

  /** What the column looks like after a planned change. */
  function After(c: Change): (r: Column) {
    if c.Add? then Column(c.desired.name, c.desired.ty, true, false)
    else Column(c.desired.name, c.desired.ty, c.desired.nullable || c.current.nullable, c.current.key)
  }

  lemma {:induction false} AlteredByName(table: seq<Column>, c: Change, name: string)
    ensures ByName(Altered(table, c), name) ==
      if name == c.desired.name && (c.Add? || ByName(table, name).Some?) then Some(After(c)) else ByName(table, name)
  {
    if c.Add? {
      assert Altered(table, c)[..|table|] == table;
    } else if table != [] {
      var n := |table| - 1;
      AlteredByName(table[..n], c, name);
      assert Altered(table, c)[..n] == Altered(table[..n], c);
    }
  }

  function First(table: seq<Column>, name: string): (c: Option<Column>) {
    if table == [] then None else if table[0].name == name then Some(table[0]) else First(table[1..], name)
  }

  lemma {:induction false} AppliedIsFirst(table: seq<Column>, c: Change)
    ensures var f := First(table, c.desired.name);
      Applied(table, c) <==> f.Some? && CanRepresent(f.value.ty, c.desired.ty) && (c.desired.nullable ==> f.value.nullable)
  {
    if table != [] {
      AppliedIsFirst(table[1..], c);
    }
  }

  lemma {:induction false} FirstExists(table: seq<Column>, name: string)
    ensures First(table, name).Some? <==> exists k :: 0 <= k < |table| && table[k].name == name
  {
    if table != [] && table[0].name != name {
      FirstExists(table[1..], name);
      if First(table, name).Some? {
        var k :| 0 <= k < |table[1..]| && table[1..][k].name == name;
        assert table[k + 1].name == name;
      }
    }
  }

  lemma {:induction false} ByNameExists(table: seq<Column>, name: string)
    ensures ByName(table, name).Some? <==> exists k :: 0 <= k < |table| && table[k].name == name
  {
    if table != [] {
      ByNameExists(table[..|table| - 1], name);
    }
  }

  lemma {:induction false} AlteredFirst(table: seq<Column>, c: Change, name: string)
    ensures First(Altered(table, c), name) ==
      if name == c.desired.name && (if c.Add? then First(table, name).None? else First(table, name).Some?) then Some(After(c))
      else First(table, name)
  {
    if table != [] {
      AlteredFirst(table[1..], c, name);
      assert Altered(table, c)[1..] == Altered(table[1..], c);
    }
  }

  /** The column is as the source asks. */
  predicate Met(table: seq<Column>, d: Desired) {
    Decide(ByName(table, d.name), d) == Ok(None)
  }

  predicate DistinctNames(desired: seq<Desired>) {
    forall i, j :: 0 <= i < j < |desired| ==> desired[i].name != desired[j].name
  }

  /** A planned change brings its own column into line and touches no other. */
  lemma ChangeWorks(table: seq<Column>, c: Change)
    requires Decide(ByName(table, c.desired.name), c.desired) == Ok(Some(c))
    ensures Met(Altered(table, c), c.desired) && Applied(Altered(table, c), c)
  {
    AlteredByName(table, c, c.desired.name);
    AlteredFirst(table, c, c.desired.name);
    AppliedIsFirst(Altered(table, c), c);
    FirstExists(table, c.desired.name);
    ByNameExists(table, c.desired.name);
  }

  lemma ChangeSpares(table: seq<Column>, c: Change, d: Desired)
    requires d.name != c.desired.name
    ensures Met(Altered(table, c), d) <==> Met(table, d)
  {
    AlteredByName(table, c, d.name);
  }

  lemma ChangeSparesApplied(table: seq<Column>, c: Change, e: Change)
    requires e.desired.name != c.desired.name
    ensures Applied(Altered(table, c), e) <==> Applied(table, e)
  {
    AlteredFirst(table, c, e.desired.name);
    AppliedIsFirst(table, e);
    AppliedIsFirst(Altered(table, c), e);
  }

  predicate Named(desired: seq<Desired>, name: string) {
    exists i :: 0 <= i < |desired| && desired[i].name == name
  }

  ghost predicate Worked(table: seq<Column>, r: seq<Column>, desired: seq<Desired>, p: seq<Change>) {
    && (forall i :: 0 <= i < |desired| ==> Met(r, desired[i]))
    && (forall k :: 0 <= k < |p| ==> p[k].desired in desired && Applied(r, p[k]))
    && (forall name :: !Named(desired, name) ==> ByName(r, name) == ByName(table, name))
  }

  lemma SameTable(table: seq<Column>, t: seq<Column>, desired: seq<Desired>, q: seq<Change>)
    requires desired != [] && Worked(table, t, desired[..|desired| - 1], q) && Met(t, desired[|desired| - 1])
    ensures Worked(table, t, desired, q)
  {
    var n := |desired| - 1;
    assert desired == desired[..n] + [desired[n]];
    forall name | !Named(desired, name) ensures ByName(t, name) == ByName(table, name) {
    }
  }

  lemma NextChange(table: seq<Column>, t: seq<Column>, desired: seq<Desired>, q: seq<Change>, c: Change)
    requires desired != [] && DistinctNames(desired) && Worked(table, t, desired[..|desired| - 1], q)
    requires c.desired == desired[|desired| - 1] && Decide(ByName(t, c.desired.name), c.desired) == Ok(Some(c))
    ensures Worked(table, Altered(t, c), desired, q + [c])
  {
    hide Altered, Met, Applied, ByName;
    var n, r, p := |desired| - 1, Altered(t, c), q + [c];
    ChangeWorks(t, c);
    forall i | 0 <= i < n ensures Met(r, desired[i]) {
      assert Met(t, desired[..n][i]);
      ChangeSpares(t, c, desired[i]);
    }
    forall k | 0 <= k < |q| ensures q[k].desired in desired && Applied(r, q[k]) {
      var i :| 0 <= i < n && desired[..n][i] == q[k].desired;
      assert desired[i] == q[k].desired;
      ChangeSparesApplied(t, c, q[k]);
    }
    forall name | !Named(desired, name) ensures ByName(r, name) == ByName(table, name) {
      AlteredByName(t, c, name);
    }
  }

  lemma PlanStep(table: seq<Column>, desired: seq<Desired>)
    requires desired != [] && Plan(table, desired).Ok?
    ensures var n := |desired| - 1;
      && Plan(table, desired[..n]).Ok?
      && var q, p, d := Plan(table, desired[..n]).value, Plan(table, desired).value, desired[n];
         || (p == q && Decide(ByName(table, d.name), d) == Ok(None))
         || (|p| > 0 && p == q + [p[|p| - 1]] && p[|p| - 1].desired == d && Decide(ByName(table, d.name), d) == Ok(Some(p[|p| - 1])))
  {
  }

  /** Applying a plan meets every desired column, makes every change count as applied, and
      leaves every column the source does not name exactly as it was. */
  lemma {:induction false} PlanWorks(table: seq<Column>, desired: seq<Desired>)
    requires DistinctNames(desired) && Plan(table, desired).Ok?
    ensures var p := Plan(table, desired).value;
      Worked(table, AlteredAll(table, p), desired, p)
  {
    hide Decide, Altered, Applied, Met;
    if desired != [] {
      var n := |desired| - 1;
      PlanStep(table, desired);
      PlanWorks(table, desired[..n]);
      var q, p := Plan(table, desired[..n]).value, Plan(table, desired).value;
      var t := AlteredAll(table, q);
      assert !Named(desired[..n], desired[n].name) && ByName(t, desired[n].name) == ByName(table, desired[n].name);
      if p == q {
        SameTable(table, t, desired, q);
      } else {
        NextChange(table, t, desired, q, p[|p| - 1]);
      }
    }
  }

  lemma {:induction false} NothingToPlan(table: seq<Column>, desired: seq<Desired>)
    requires forall i :: 0 <= i < |desired| ==> Met(table, desired[i])
    ensures Plan(table, desired) == Ok([])
  {
    if desired != [] {
      NothingToPlan(table, desired[..|desired| - 1]);
    }
  }

  /** Planning again after a plan was applied finds nothing left to do. */
  lemma ReplanIsEmpty(table: seq<Column>, desired: seq<Desired>)
    requires DistinctNames(desired) && Plan(table, desired).Ok?
    ensures Plan(AlteredAll(table, Plan(table, desired).value), desired) == Ok([])
  {
    PlanWorks(table, desired);
    NothingToPlan(AlteredAll(table, Plan(table, desired).value), desired);
  }

  /** A type holds everything of another, and more. */
  predicate StrictlyWider(a: Type, b: Type) {
    CanRepresent(a, b) && !CanRepresent(b, a)
  }

  /** Exactly when a planned change moves to a type that cannot represent the old one: the
      statement writes the desired type even if only nullability was to be relaxed, and a type
      that is neither a string nor a date may become STRING. */
  lemma NarrowsExactlyWhen(c: Column, d: Desired)
    ensures Decide(Some(c), d) == Ok(Some(Modify(c, d))) && !CanRepresent(After(Modify(c, d)).ty, c.ty) <==>
      && c.key == d.key
      && (|| (d.nullable && !c.nullable && StrictlyWider(c.ty, d.ty))
          || (d.ty == STRING && !IsString(c.ty) && !IsDate(c.ty)))
  {
    if SafeWidening(c.ty, d.ty) && !CanRepresent(c.ty, d.ty) {
      WideningLosesNothing(c.ty, d.ty);
    }
  }

  /** A table created from the desired columns needs no change. */
  lemma FreshTableNeedsNothing(table: seq<Column>, desired: seq<Desired>)
    requires DistinctNames(desired) && |table| == |desired|
    requires forall k :: 0 <= k < |table| ==> table[k] == Column(desired[k].name, desired[k].ty, desired[k].nullable, desired[k].key)
    ensures Plan(table, desired) == Ok([])
  {
    forall k | 0 <= k < |desired| ensures Met(table, desired[k]) {
      OnlyOfItsName(table, k);
    }
    NothingToPlan(table, desired);
  }

  lemma {:induction false} OnlyOfItsName(table: seq<Column>, k: nat)
    requires k < |table| && forall i :: 0 <= i < |table| && i != k ==> table[i].name != table[k].name
    ensures ByName(table, table[k].name) == Some(table[k])
  {
    var n := |table| - 1;
    if k < n {
      assert table[..n][k] == table[k];
      OnlyOfItsName(table[..n], k);
    }
  }

  /** At each step of the plan the change just made counts as applied, so the wait ends. */
  lemma {:induction false} EachChangeApplies(table: seq<Column>, desired: seq<Desired>, k: nat)
    requires DistinctNames(desired) && Plan(table, desired).Ok? && k < |Plan(table, desired).value|
    ensures var p := Plan(table, desired).value; Applied(AlteredAll(table, p[..k + 1]), p[k])
  {
    var n := |desired| - 1;
    var q, p := Plan(table, desired[..n]).value, Plan(table, desired).value;
    if k < |q| {
      EachChangeApplies(table, desired[..n], k);
      assert p[..k + 1] == q[..k + 1];
    } else {
      PlanWorks(table, desired);
      assert p[..k + 1] == p;
    }
  }

  /** Plan, then alter the table and wait for the change, one change at a time. The wait never
      times out and the table is left with nothing to change. */
  method ReconcileTableSchemaOnce(current: seq<Column>, desired: seq<Desired>) returns (ok: bool, table: seq<Column>)
    requires DistinctNames(desired)
    ensures ok <==> Plan(current, desired).Ok?
    ensures if ok then table == AlteredAll(current, Plan(current, desired).value) && Plan(table, desired) == Ok([]) else table == current
  {
    table := current;
    var plan := PlanSchemaChanges(current, desired);
    if plan.Err? {
      return false, table;
    }
    var changes := plan.value;
    for i := 0 to |changes|
      invariant table == AlteredAll(current, changes[..i])
    {
      assert changes[..i + 1][..i] == changes[..i];
      table := Altered(table, changes[i]);
      EachChangeApplies(current, desired, i);
      var applied := ChangeApplied(table, changes[i]);
      assert applied;
    }
    assert changes[..|changes|] == changes;
    ReplanIsEmpty(current, desired);
    ok := true;
  }

  /** From the source's columns to the altered table: the names are kept apart, so nothing needs
      to be assumed, and the table is left with nothing to change. */
  method ReconcileFromSource(columns: seq<Source>, current: seq<Column>) returns (ok: bool, table: seq<Column>, desired: seq<Desired>)
    ensures |desired| == |columns| && DistinctNames(desired)
    ensures ok <==> Plan(current, desired).Ok?
    ensures if ok then Plan(table, desired) == Ok([]) && Worked(current, table, desired, Plan(current, desired).value) else table == current
  {
    var targets;
    desired, targets := DesiredColumns(columns);
    ok, table := ReconcileTableSchemaOnce(current, desired);
    if ok {
      PlanWorks(current, desired);
    }
  }
}
