/** What Doris types hold: the type order, the mapping and the plan, in terms of values. */
module DorisValues {
  import opened Common
  import opened DorisSchema

  /** A value of some column. `Fixed` is `n` divided by ten to the power `k`, `Real` is `m` times two to
      the power `e`, and `Moment` is a day and the microseconds into it; an `Opaque` value belongs
      to a type that the order compares with no other. */
  datatype Value =
    | Characters(s: string)
    | Whole(n: int)
    | Fixed(n: int, k: nat)
    | Real(m: int, e: int)
    | Moment(day: int, micros: nat)
    | Opaque(of: Type, tag: int)

  function Pow10(n: int): (p: nat)
    ensures 0 < p
  {
    if n <= 0 then 1 else 10 * Pow10(n - 1)
  }

  function Abs(n: int): (a: nat) {
    if n < 0 then -n else n
  }

  /** The number of digits a DATETIMEV2 keeps of a second. */
  function Fraction(params: seq<int>): (d: nat)
    ensures d <= 6
  {
    if params == [] || params[0] <= 0 then 0 else if params[0] >= 6 then 6 else params[0]
  }

  /** At most `p - s` digits before the point and `s` after it, the last of them not zero. */
  predicate FitsDigits(v: Value, p: int, s: int) {
    v.Fixed? && v.k <= s && (v.k == 0 || v.n % 10 != 0) && Abs(v.n) < Pow10(p - s + v.k)
  }

  /** The values a column of a type can hold. */
  predicate Holds(t: Type, v: Value) {
    match t.base
    case CharBase => v.Characters? && |v.s| <= if t.params == [] then 0 else t.params[0]
    case VarcharBase => v.Characters? && |v.s| <= if t.params == [] then 0 else t.params[0]
    case StringBase => v.Characters?
    case TinyInt => v.Whole? && -0x80 <= v.n < 0x80
    case SmallInt => v.Whole? && -0x8000 <= v.n < 0x8000
    case Int => v.Whole? && -0x8000_0000 <= v.n < 0x8000_0000
    case BigInt => v.Whole? && -0x8000_0000_0000_0000 <= v.n < 0x8000_0000_0000_0000
    case LargeInt => v.Whole? && -0x8000_0000_0000_0000_0000_0000_0000_0000 <= v.n < 0x8000_0000_0000_0000_0000_0000_0000_0000
    case Float => v.Real? && Abs(v.m) < 0x100_0000 && -149 <= v.e <= 104
    case Double => v.Real? && Abs(v.m) < 0x20_0000_0000_0000 && -1074 <= v.e <= 971
    case Decimal => if |t.params| < 2 then v.Opaque? && v.of == t else FitsDigits(v, t.params[0], t.params[1])
    case Date => v.Moment? && v.micros == 0
    case DateTime => v.Moment? && v.micros % 1_000_000 == 0
    case DateTimeV2(_) => v.Moment? && v.micros % Pow10(6 - Fraction(t.params)) == 0
    case Other(_) => v.Opaque? && v.of == t
  }

  ghost predicate Includes(a: Type, b: Type) {
    forall v :: Holds(b, v) ==> Holds(a, v)
  }

  lemma {:induction false} Pow10Grows(a: int, b: int)
    requires a <= b
    ensures Pow10(a) <= Pow10(b)
    ensures 0 <= a < b ==> 10 * Pow10(a) <= Pow10(b)
    decreases b
  {
    if a < b && 0 < b {
      Pow10Grows(a, b - 1);
    }
  }

  lemma {:induction false} Pow10Divides(d: nat)
    requires d <= 6
    ensures 1_000_000 % Pow10(d) == 0
  {
    assert Pow10(0) == 1 && Pow10(1) == 10 && Pow10(2) == 100 && Pow10(3) == 1000;
    assert Pow10(4) == 10 * Pow10(3) && Pow10(5) == 10 * Pow10(4) && Pow10(6) == 10 * Pow10(5);
  }

  lemma MultipleOfMultiple(x: int, a: int, b: int)
    requires 0 < a && 0 < b && b % a == 0 && x % b == 0
    ensures x % a == 0
  {
    var q, r := x / b, b / a;
    assert x == b * q && b == a * r;
    assert x == a * (r * q);
    MultipleIs(a, r * q);
  }

  lemma MultipleIs(a: int, q: int)
    requires 0 < a
    ensures a * q % a == 0
  {
    var r, d := a * q % a, a * q / a;
    assert a * q == a * d + r;
    assert r == a * (q - d);
    assert 1 <= q - d ==> a <= a * (q - d);
    assert q - d <= -1 ==> a * (q - d) <= -a;
  }

  lemma DecimalIncludes(a: Type, b: Type)
    requires a.base == Decimal && b.base == Decimal && DecimalCovers(a.params, b.params)
    ensures Includes(a, b)
  {
    forall v | Holds(b, v) ensures Holds(a, v) {
      Pow10Grows(b.params[0] - b.params[1] + v.k, a.params[0] - a.params[1] + v.k);
    }
  }

  lemma MomentsInclude(a: Type, b: Type)
    requires a.base.DateTimeV2? && (b.base == DateTime || b.base == Date)
    ensures Includes(a, b)
  {
    var d := Pow10(6 - Fraction(a.params));
    Pow10Divides(6 - Fraction(a.params));
    forall v | Holds(b, v) ensures Holds(a, v) {
      MultipleOfMultiple(v.micros, d, 1_000_000);
    }
  }

  /** Soundness of the type order: a type represents another only if it holds all its values. */
  lemma RepresentsIncludes(a: Type, b: Type)
    requires CanRepresent(a, b)
    ensures Includes(a, b)
  {
    hide Pow10, FitsDigits;
    if a != b {
      if a.base == Decimal && b.base == Decimal {
        DecimalIncludes(a, b);
      } else if a.base.DateTimeV2? {
        MomentsInclude(a, b);
      }
    }
  }

  /** A declared DECIMAL: at least one digit, and no more after the point than there are. */
  predicate DeclaredDecimal(t: Type) {
    t.base == Decimal && |t.params| == 2 && 0 <= t.params[1] <= t.params[0] && 1 <= t.params[0]
  }

  /** A string type without a length or with a sensible one. */
  predicate DeclaredString(t: Type) {
    t.base in {CharBase, VarcharBase, StringBase} && (t.base != StringBase && t.params != [] ==> 0 <= t.params[0])
  }

  predicate IntegerType(t: Type) {
    t.base in {TinyInt, SmallInt, Int, BigInt, LargeInt}
  }

  /** The families in which the order compares every two types. */
  predicate Comparable(a: Type, b: Type) {
    || (DeclaredString(a) && DeclaredString(b))
    || (IntegerType(a) && IntegerType(b))
    || (DeclaredDecimal(a) && DeclaredDecimal(b))
  }

  function Repeated(n: nat): (s: string)
    ensures |s| == n
  {
    seq(n, i => 'x')
  }

  /** A value of `b` that tells whether `a` is wide enough: the longest or largest one. */
  function Longest(a: Type, b: Type): (v: Value)
    requires DeclaredString(a) && DeclaredString(b)
  {
    var la, lb := Length(a), Length(b);
    Characters(Repeated(if lb.Some? && lb.value >= 0 then lb.value else if la.Some? && la.value >= 0 then la.value + 1 else 0))
  }

  lemma StringsCompare(a: Type, b: Type)
    requires DeclaredString(a) && DeclaredString(b) && Includes(a, b)
    ensures CanRepresent(a, b)
  {
    assert Holds(b, Longest(a, b));
    assert Holds(a, Longest(a, b));
  }

  function Largest(b: Base): (n: int) {
    match b
    case TinyInt => 0x7f
    case SmallInt => 0x7fff
    case Int => 0x7fff_ffff
    case BigInt => 0x7fff_ffff_ffff_ffff
    case LargeInt => 0x7fff_ffff_ffff_ffff_ffff_ffff_ffff_ffff
    case _ => 0
  }

  lemma IntegersCompare(a: Type, b: Type)
    requires IntegerType(a) && IntegerType(b) && Includes(a, b)
    ensures CanRepresent(a, b)
  {
    assert Holds(b, Whole(Largest(b.base)));
    assert Holds(a, Whole(Largest(b.base)));
  }

  lemma Nines(n: int)
    requires 1 <= n
    ensures (Pow10(n) - 1) % 10 == 9
  {
    assert Pow10(n) == 10 * Pow10(n - 1);
  }

  lemma DecimalsCompare(a: Type, b: Type)
    requires DeclaredDecimal(a) && DeclaredDecimal(b) && Includes(a, b)
    ensures CanRepresent(a, b)
  {
    var p, s, q, r := a.params[0], a.params[1], b.params[0], b.params[1];
    var v := Fixed(Pow10(q) - 1, r);
    Nines(q);
    assert q - r + r == q;
    assert Holds(b, v);
    assert Holds(a, v);
    if p - s + r < q {
      Pow10Grows(p - s + r, q - 1);
      Pow10Grows(q - 1, q);
    }
  }

  /** Between strings, integers or decimals the order is exactly inclusion of values. */
  lemma RepresentsExactlyWhen(a: Type, b: Type)
    requires Comparable(a, b)
    ensures CanRepresent(a, b) <==> Includes(a, b)
  {
    hide CanRepresent, Includes;
    if CanRepresent(a, b) {
      RepresentsIncludes(a, b);
    }
    if Includes(a, b) {
      if IntegerType(a) && IntegerType(b) {
        IntegersCompare(a, b);
      } else if DeclaredString(a) && DeclaredString(b) {
        StringsCompare(a, b);
      } else {
        DecimalsCompare(a, b);
      }
    }
  }

  /** A type change that is needed is taken for safe exactly when the new type holds all of the old
      one, except that DATETIME is never widened to DATETIMEV2, and that anything but a date may
      become STRING. */
  lemma WideningExactlyWhen(a: Type, b: Type)
    requires !CanRepresent(a, b)
    ensures SafeWidening(a, b) <==>
      (CanRepresent(b, a) && !(a.base == DateTime && b.base.DateTimeV2?))
      || (b == Type(StringBase, []) && a.base != Date && a.base != DateTime && !a.base.DateTimeV2?)
  {
  }

  // ---- The plan ----

  /** The column a name stands for is the last one of that name. */
  lemma {:induction false} LastOfItsName(table: seq<Column>, name: string)
    ensures match ByName(table, name)
      case None => forall i :: 0 <= i < |table| ==> table[i].name != name
      case Some(c) => exists k :: 0 <= k < |table| && table[k] == c && c.name == name && forall i :: k < i < |table| ==> table[i].name != name
  {
    if table != [] && table[|table| - 1].name != name {
      LastOfItsName(table[..|table| - 1], name);
    }
  }

  /** What is planned for a desired column: nothing if the stored one will do, an addition if there is
      none and it is not a key, a change if only type or nullability are short and the type can
      be widened; and an error otherwise. */
  lemma DecisionWhen(current: Option<Column>, d: Desired)
    ensures Decide(current, d) == Ok(None) <==>
      current.Some? && current.value.key == d.key && CanRepresent(current.value.ty, d.ty) && (d.nullable ==> current.value.nullable)
    ensures Decide(current, d) == Ok(Some(Add(d))) <==> current.None? && !d.key
    ensures current.Some? ==> (Decide(current, d) == Ok(Some(Modify(current.value, d))) <==>
      && current.value.key == d.key
      && if CanRepresent(current.value.ty, d.ty) then d.nullable && !current.value.nullable else SafeWidening(current.value.ty, d.ty))
    ensures Decide(current, d).Ok? ==> Decide(current, d).value in {None, Some(Add(d))} || (current.Some? && Decide(current, d).value == Some(Modify(current.value, d)))
  {
  }

  /** The stored column takes every value of the desired one, nulls included, in the same key. */
  ghost predicate Serves(table: seq<Column>, d: Desired) {
    var c := ByName(table, d.name);
    c.Some? && c.value.key == d.key && Includes(c.value.ty, d.ty) && (d.nullable ==> c.value.nullable)
  }

  lemma MetServes(table: seq<Column>, d: Desired)
    requires Met(table, d)
    ensures Serves(table, d)
  {
    hide Includes, CanRepresent;
    DecisionWhen(ByName(table, d.name), d);
    RepresentsIncludes(ByName(table, d.name).value.ty, d.ty);
  }

  lemma {:induction false} EmptyPlanMeets(table: seq<Column>, desired: seq<Desired>)
    requires Plan(table, desired) == Ok([])
    ensures forall k :: 0 <= k < |desired| ==> Met(table, desired[k])
  {
    hide Decide;
    if desired != [] {
      EmptyPlanMeets(table, desired[..|desired| - 1]);
    }
  }

  /** An empty plan means that every stored column takes every value of its desired one. */
  lemma EmptyPlanServes(table: seq<Column>, desired: seq<Desired>)
    requires Plan(table, desired) == Ok([])
    ensures forall k :: 0 <= k < |desired| ==> Serves(table, desired[k])
  {
    hide Met, Serves;
    EmptyPlanMeets(table, desired);
    forall k | 0 <= k < |desired| ensures Serves(table, desired[k]) {
      MetServes(table, desired[k]);
    }
  }

  /** And so does every column once a plan was carried out. */
  lemma PlannedTableServes(table: seq<Column>, desired: seq<Desired>)
    requires DistinctNames(desired) && Plan(table, desired).Ok?
    ensures forall k :: 0 <= k < |desired| ==> Serves(AlteredAll(table, Plan(table, desired).value), desired[k])
  {
    ReplanIsEmpty(table, desired);
    EmptyPlanServes(AlteredAll(table, Plan(table, desired).value), desired);
  }

  /** A change for the type's sake keeps every value already stored, except that a column that is no
      string and no date may become STRING, which holds the text of its values instead. */
  lemma WidenedTypeKeepsValues(c: Column, d: Desired)
    requires Decide(Some(c), d) == Ok(Some(Modify(c, d))) && !CanRepresent(c.ty, d.ty)
    ensures After(Modify(c, d)).ty == d.ty
    ensures Includes(d.ty, c.ty) || (d.ty == Type(StringBase, []) && c.ty.base !in {CharBase, VarcharBase, StringBase, Date, DateTime})
  {
    hide Includes;
    WideningLosesNothing(c.ty, d.ty);
    if CanRepresent(d.ty, c.ty) {
      RepresentsIncludes(d.ty, c.ty);
    }
  }

  // ---- The mapping ----

  /** A value that is an integer of the source fits exactly when it is one of 64 signed bits: the
      upper half of BIGINT UNSIGNED does not. */
  lemma IntegersFitWhen(c: Source, key: bool, n: int)
    requires c.dataType == IntegerData || (c.dataType == TinyIntData && (c.unsigned || !c.single))
    ensures Holds(MapType(c, key), Whole(n)) <==> -0x8000_0000_0000_0000 <= n < 0x8000_0000_0000_0000
  {
  }

  /** Decimals of up to 38 digits keep their precision and scale; longer ones become text with room
      for every digit, the sign and the point, up to the longest VARCHAR. */
  lemma DecimalsFit(c: Source, key: bool)
    requires c.dataType == DecimalData && c.numPrec.Some? && 1 <= c.numPrec.value
    ensures var p, s := c.numPrec.value, if c.numScale.Some? then c.numScale.value else 0;
      && (p <= 38 && 0 <= s <= p ==> forall v :: Holds(MapType(c, key), v) <==> FitsDigits(v, p, s))
      && (38 < p < 65530 && 0 <= s <= p ==>
            forall t: string :: |t| <= p + 1 + (if s > 0 then 1 else 0) <==> Holds(MapType(c, key), Characters(t)))
  {
  }

  /** The text a string column of the source can hold, if its type says so. */
  function TextLimit(c: Source): (n: Option<int>) {
    if c.charMaxLen.Some? && c.charMaxLen.value > 0 then c.charMaxLen else None
  }

  /** Outside the key, text is kept up to the declared length, or without a limit if there is none or
      it is too long for VARCHAR; CHAR and VARCHAR without a length get 1024. In the key a
      length is always set, and cut at the longest VARCHAR. */
  lemma TextFitsWhen(c: Source, key: bool, t: string)
    requires c.dataType in {CharData, TextData, OtherData} || (c.dataType == BitData && !c.single)
    ensures var n := TextLimit(c);
      Holds(MapType(c, key), Characters(t)) <==>
        if key then |t| <= (if n.None? then 1024 else if n.value <= 65533 then n.value else 65533)
        else c.dataType == CharData && (n.None? || n.value <= 65533) ==> |t| <= (if n.None? then 1024 else n.value)
  {
  }

  /** The other types: floating point outside the key, whole seconds, days, and truth values. */
  lemma OthersFit(c: Source, key: bool)
    ensures c.dataType == FloatData && !key ==> forall m, e :: Abs(m) < 0x20_0000_0000_0000 && -1074 <= e <= 971 ==> Holds(MapType(c, key), Real(m, e))
    ensures (c.dataType == FloatData && key) || (c.dataType == DecimalData && c.numPrec.None?) ==> forall v :: Holds(MapType(c, key), v) <==> FitsDigits(v, 27, 9)
    ensures c.dataType == DateTimeData ==> forall day, s: nat :: Holds(MapType(c, key), Moment(day, 1_000_000 * s))
    ensures c.dataType == DateData ==> forall day :: Holds(MapType(c, key), Moment(day, 0))
    ensures c.dataType == BoolData || (c.dataType == BitData && c.single) || (c.dataType == TinyIntData && c.single && !c.unsigned)
      ==> MapType(c, key) == Type(Other("BOOLEAN"), [])
  {
    forall s: nat ensures 1_000_000 * s % 1_000_000 == 0 {
      MultipleIs(1_000_000, s);
    }
  }
}
