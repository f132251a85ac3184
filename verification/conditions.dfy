/** Property based query conditions (`PropertyQueryConditionImpl` and its nested
    condition classes): one datatype constructor per value shape, each with its own closed
    operation enum, and the protocol that applies a condition to a query builder and then
    tags it with its alias. The builder is a recorder of the calls it receives. */
module Conditions {
  import opened JavaTypes

  /** `QueryBuilder.StringOrder`. */
  datatype StringOrder = CaseInsensitive | CaseSensitive

  // One operation enum per shape, as each nested class declares its own `Operation`.
  datatype NullOp = IsNull | NotNull
  datatype IntArrayOp = In | NotIn
  datatype LongOp = Equal | NotEqual | Greater | Less
  datatype LongLongOp = Between
  datatype LongArrayOp = In | NotIn
  datatype DoubleOp = Greater | Less
  datatype DoubleDoubleOp = Between
  datatype StringOp = Equal | NotEqual | Greater | Less | Contains | StartsWith | EndsWith
  datatype StringArrayOp = In
  datatype ByteArrayOp = Equal | Greater | Less

  /** What the final fields of a condition refer to: its property, its operation and its
      operand values (an array operand is taken as the values it holds). Constructors with an explicit order are the datatype constructors themselves; the
      convenience constructors that coerce their input are the functions below. */
  datatype Condition =
    | NullCondition(property: Property, nullOp: NullOp)
    | IntArrayCondition(property: Property, intArrayOp: IntArrayOp, ints: seq<Int>)
    | LongCondition(property: Property, longOp: LongOp, long: Long)
    | LongLongCondition(property: Property, longLongOp: LongLongOp, left: Long, right: Long)
    | LongArrayCondition(property: Property, longArrayOp: LongArrayOp, longs: seq<Long>)
    | DoubleCondition(property: Property, doubleOp: DoubleOp, double: Double)
    | DoubleDoubleCondition(property: Property, doubleDoubleOp: DoubleDoubleOp,
                            leftDouble: Double, rightDouble: Double)
    | StringCondition(property: Property, stringOp: StringOp, text: string, order: StringOrder)
    | StringArrayCondition(property: Property, stringArrayOp: StringArrayOp,
                           texts: seq<string>, order: StringOrder)
    | ByteArrayCondition(property: Property, byteArrayOp: ByteArrayOp, bytes: seq<Byte>)

  /** The `QueryBuilder` entry points a condition can call, by name; the overload is
      selected by the operand passed with it. */
  datatype BuilderMethod =
    | IsNull | NotNull | Equal | NotEqual | Greater | Less | Between
    | In | NotIn | Contains | StartsWith | EndsWith

  /** The operand(s) of a builder call, one variant per parameter list. */
  datatype Operand =
    | NoOperand
    | IntsOperand(ints: seq<Int>)
    | LongOperand(long: Long)
    | LongPairOperand(left: Long, right: Long)
    | LongsOperand(longs: seq<Long>)
    | DoubleOperand(double: Double)
    | DoublePairOperand(leftDouble: Double, rightDouble: Double)
    | StringOperand(text: string, order: StringOrder)
    | StringsOperand(texts: seq<string>, order: StringOrder)
    | BytesOperand(bytes: seq<Byte>)

  /** One call received by the builder. */
  datatype BuilderEvent =
    | Call(entry: BuilderMethod, property: Property, operand: Operand)
    | ParameterAlias(name: string)

  /** Reads a builder call back as the condition that makes it, if any does. This is the
      reference against which the dispatch of `ApplyCondition` is checked. */
  function DecodeEvent(e: BuilderEvent): Option<Condition>
  {
    match e
    case ParameterAlias(_) => None
    case Call(m, p, operand) =>
      match operand
      case NoOperand =>
        (match m
         case IsNull => Some(NullCondition(p, NullOp.IsNull))
         case NotNull => Some(NullCondition(p, NullOp.NotNull))
         case _ => None)
      case IntsOperand(v) =>
        (match m
         case In => Some(IntArrayCondition(p, IntArrayOp.In, v))
         case NotIn => Some(IntArrayCondition(p, IntArrayOp.NotIn, v))
         case _ => None)
      case LongOperand(v) =>
        (match m
         case Equal => Some(LongCondition(p, LongOp.Equal, v))
         case NotEqual => Some(LongCondition(p, LongOp.NotEqual, v))
         case Greater => Some(LongCondition(p, LongOp.Greater, v))
         case Less => Some(LongCondition(p, LongOp.Less, v))
         case _ => None)
      case LongPairOperand(l, r) =>
        if m == BuilderMethod.Between then Some(LongLongCondition(p, LongLongOp.Between, l, r)) else None
      case LongsOperand(v) =>
        (match m
         case In => Some(LongArrayCondition(p, LongArrayOp.In, v))
         case NotIn => Some(LongArrayCondition(p, LongArrayOp.NotIn, v))
         case _ => None)
      case DoubleOperand(v) =>
        (match m
         case Greater => Some(DoubleCondition(p, DoubleOp.Greater, v))
         case Less => Some(DoubleCondition(p, DoubleOp.Less, v))
         case _ => None)
      case DoublePairOperand(l, r) =>
        if m == BuilderMethod.Between then Some(DoubleDoubleCondition(p, DoubleDoubleOp.Between, l, r)) else None
      case StringOperand(v, o) =>
        (match m
         case Equal => Some(StringCondition(p, StringOp.Equal, v, o))
         case NotEqual => Some(StringCondition(p, StringOp.NotEqual, v, o))
         case Greater => Some(StringCondition(p, StringOp.Greater, v, o))
         case Less => Some(StringCondition(p, StringOp.Less, v, o))
         case Contains => Some(StringCondition(p, StringOp.Contains, v, o))
         case StartsWith => Some(StringCondition(p, StringOp.StartsWith, v, o))
         case EndsWith => Some(StringCondition(p, StringOp.EndsWith, v, o))
         case _ => None)
      case StringsOperand(v, o) =>
        if m == BuilderMethod.In then Some(StringArrayCondition(p, StringArrayOp.In, v, o)) else None
      case BytesOperand(v) =>
        (match m
         case Equal => Some(ByteArrayCondition(p, ByteArrayOp.Equal, v))
         case Greater => Some(ByteArrayCondition(p, ByteArrayOp.Greater, v))
         case Less => Some(ByteArrayCondition(p, ByteArrayOp.Less, v))
         case _ => None)
  }

  /** `applyCondition`: the one builder call a condition makes. Every operation of every
      shape reaches a builder call, so with a non-null operation no
      `UnsupportedOperationException` branch is taken;
      the call carries the condition's own property, operands and string order, and the
      condition can be read back from it. */
  function ApplyCondition(c: Condition): (e: BuilderEvent)
    ensures e.Call? && e.property == c.property
    ensures DecodeEvent(e) == Some(c)
    ensures c.LongLongCondition? || c.DoubleDoubleCondition? ==> e.entry == BuilderMethod.Between
    ensures c.StringArrayCondition? ==> e.entry == BuilderMethod.In
    ensures c.StringCondition? ==> e.operand == StringOperand(c.text, c.order)
    ensures c.StringArrayCondition? ==> e.operand == StringsOperand(c.texts, c.order)
  {
    var p := c.property;
    match c
    case NullCondition(_, op) =>
      (match op
       case IsNull => Call(BuilderMethod.IsNull, p, NoOperand)
       case NotNull => Call(BuilderMethod.NotNull, p, NoOperand))
    case IntArrayCondition(_, op, v) =>
      (match op
       case In => Call(BuilderMethod.In, p, IntsOperand(v))
       case NotIn => Call(BuilderMethod.NotIn, p, IntsOperand(v)))
    case LongCondition(_, op, v) =>
      (match op
       case Equal => Call(BuilderMethod.Equal, p, LongOperand(v))
       case NotEqual => Call(BuilderMethod.NotEqual, p, LongOperand(v))
       case Greater => Call(BuilderMethod.Greater, p, LongOperand(v))
       case Less => Call(BuilderMethod.Less, p, LongOperand(v)))
    case LongLongCondition(_, op, l, r) =>
      (if op == LongLongOp.Between then Call(BuilderMethod.Between, p, LongPairOperand(l, r))
       else assert false; Call(BuilderMethod.Between, p, NoOperand))
    case LongArrayCondition(_, op, v) =>
      (match op
       case In => Call(BuilderMethod.In, p, LongsOperand(v))
       case NotIn => Call(BuilderMethod.NotIn, p, LongsOperand(v)))
    case DoubleCondition(_, op, v) =>
      (match op
       case Greater => Call(BuilderMethod.Greater, p, DoubleOperand(v))
       case Less => Call(BuilderMethod.Less, p, DoubleOperand(v)))
    case DoubleDoubleCondition(_, op, l, r) =>
      (if op == DoubleDoubleOp.Between then Call(BuilderMethod.Between, p, DoublePairOperand(l, r))
       else assert false; Call(BuilderMethod.Between, p, NoOperand))
    case StringCondition(_, op, v, o) =>
      (match op
       case Equal => Call(BuilderMethod.Equal, p, StringOperand(v, o))
       case NotEqual => Call(BuilderMethod.NotEqual, p, StringOperand(v, o))
       case Greater => Call(BuilderMethod.Greater, p, StringOperand(v, o))
       case Less => Call(BuilderMethod.Less, p, StringOperand(v, o))
       case Contains => Call(BuilderMethod.Contains, p, StringOperand(v, o))
       case StartsWith => Call(BuilderMethod.StartsWith, p, StringOperand(v, o))
       case EndsWith => Call(BuilderMethod.EndsWith, p, StringOperand(v, o)))
    case StringArrayCondition(_, op, v, o) =>
      (if op == StringArrayOp.In then Call(BuilderMethod.In, p, StringsOperand(v, o))
       else assert false; Call(BuilderMethod.In, p, NoOperand))
    case ByteArrayCondition(_, op, v) =>
      (match op
       case Equal => Call(BuilderMethod.Equal, p, BytesOperand(v))
       case Greater => Call(BuilderMethod.Greater, p, BytesOperand(v))
       case Less => Call(BuilderMethod.Less, p, BytesOperand(v)))
  }

  /** Distinct conditions make distinct builder calls: the dispatch loses nothing. */
  lemma ApplyConditionInjective(c1: Condition, c2: Condition)
    ensures ApplyCondition(c1) == ApplyCondition(c2) ==> c1 == c2
  {
  }

  // ---- Convenience constructors that coerce their input ----

  /** `LongCondition(property, op, boolean)`: stores 1 for true and 0 for false. */
  function LongOfBool(p: Property, op: LongOp, value: bool): (c: Condition)
    ensures c.LongCondition? && c.property == p && c.longOp == op
    ensures c.long == 0 || c.long == 1
    ensures c.long == 1 <==> value
  {
    LongCondition(p, op, if value then 1 else 0)
  }

  /** `LongCondition(property, op, Date)`: stores `getTime()`; a null date throws. */
  function LongOfDate(p: Property, op: LongOp, value: Option<Date>): (r: Result<Condition>)
    ensures r.Success? <==> value.Some?
    ensures r.Failure? ==> r.error == NullPointerException
    ensures r.Success? ==> r.value.LongCondition? && r.value.property == p && r.value.longOp == op
                           && r.value.long == value.value.time
  {
    match value
    case None => Failure(NullPointerException)
    case Some(d) => Success(LongCondition(p, op, d.time))
  }

  /** `LongLongCondition(property, op, Date, Date)`: stores both `getTime()` values,
      left bound first; a null bound throws. */
  function LongLongOfDates(p: Property, op: LongLongOp, leftValue: Option<Date>, rightValue: Option<Date>)
    : (r: Result<Condition>)
    ensures r.Success? <==> leftValue.Some? && rightValue.Some?
    ensures r.Failure? ==> r.error == NullPointerException
    ensures r.Success? ==> r.value.LongLongCondition? && r.value.property == p
                           && r.value.left == leftValue.value.time
                           && r.value.right == rightValue.value.time
  {
    if leftValue.None? || rightValue.None? then Failure(NullPointerException)
    else Success(LongLongCondition(p, op, leftValue.value.time, rightValue.value.time))
  }

  /** `StringCondition(property, op, value)`: the order defaults to case insensitive. */
  function StringOfDefaultOrder(p: Property, op: StringOp, value: string): (c: Condition)
    ensures c.StringCondition? && c.property == p && c.stringOp == op && c.text == value
    ensures c.order == CaseInsensitive
  {
    StringCondition(p, op, value, CaseInsensitive)
  }

  /** `StringArrayCondition(property, op, value)`: the order defaults to case insensitive. */
  function StringArrayOfDefaultOrder(p: Property, op: StringArrayOp, value: seq<string>): (c: Condition)
    ensures c.StringArrayCondition? && c.property == p && c.texts == value
    ensures c.order == CaseInsensitive
  {
    StringArrayCondition(p, op, value, CaseInsensitive)
  }

  // ---- The apply protocol ----

  /** The alias test of `apply`: non-null and non-empty. */
  predicate HasAlias(alias: Option<string>)
  {
    alias.Some? && |alias.value| != 0
  }

  /** What `apply` adds to the builder: the condition's call, then the alias tag if
      there is an alias. */
  function ApplyEvents(c: Condition, alias: Option<string>): (r: seq<BuilderEvent>)
    ensures |r| == (if HasAlias(alias) then 2 else 1)
    ensures DecodeEvent(r[0]) == Some(c)
    ensures forall i :: 1 <= i < |r| ==> r[i] == ParameterAlias(alias.value) && HasAlias(alias)
  {
    [ApplyCondition(c)] + if HasAlias(alias) then [ParameterAlias(alias.value)] else []
  }

  /** A condition as it was applied: the condition and its alias. */
  datatype Applied = Applied(condition: Condition, alias: Option<string>)

  /** The alias `apply` actually passes on: an empty alias counts as none. */
  function EffectiveAlias(alias: Option<string>): (r: Option<string>)
    ensures r.Some? <==> HasAlias(alias)
    ensures r.Some? ==> r == alias
  {
    if HasAlias(alias) then alias else None
  }

  /** The builder trace of applying the given conditions one after the other. */
  function TraceOf(applied: seq<Applied>): seq<BuilderEvent>
  {
    if applied == [] then []
    else ApplyEvents(applied[0].condition, applied[0].alias) + TraceOf(applied[1..])
  }

  /** The same conditions with each alias replaced by the one `apply` passes on. */
  function Effective(applied: seq<Applied>): (r: seq<Applied>)
    ensures |r| == |applied|
    ensures forall i :: 0 <= i < |r| ==>
      r[i].condition == applied[i].condition && r[i].alias == EffectiveAlias(applied[i].alias)
  {
    if applied == [] then []
    else [Applied(applied[0].condition, EffectiveAlias(applied[0].alias))] + Effective(applied[1..])
  }

  function Prepend(a: Applied, rest: Option<seq<Applied>>): Option<seq<Applied>>
  {
    if rest.Some? then Some([a] + rest.value) else None
  }

  /** Reads a builder trace back as the conditions applied to it, in order, attaching each
      alias tag to the condition call just before it. */
  function ParseTrace(t: seq<BuilderEvent>): Option<seq<Applied>>
    decreases |t|
  {
    if t == [] then Some([])
    else match DecodeEvent(t[0])
      case None => None
      case Some(c) =>
        if |t| > 1 && t[1].ParameterAlias? && t[1].name != "" then
          Prepend(Applied(c, Some(t[1].name)), ParseTrace(t[2..]))
        else
          Prepend(Applied(c, None), ParseTrace(t[1..]))
  }

  /** A non-empty trace of applied conditions starts with a condition call, never with an
      alias tag, so a tag always belongs to the call before it. */
  lemma TraceOfStartsWithCall(applied: seq<Applied>)
    requires applied != []
    ensures TraceOf(applied) != [] && TraceOf(applied)[0].Call?
  {
  }

  /** The builder trace of conditions applied in order determines those conditions, in
      that order, together with the aliases that were non-null and non-empty. */
  lemma {:induction false} ParseTraceOfApplied(applied: seq<Applied>)
    ensures ParseTrace(TraceOf(applied)) == Some(Effective(applied))
    decreases |applied|
  {
    if applied != [] {
      var c, a := applied[0].condition, applied[0].alias;
      var rest := TraceOf(applied[1..]);
      var t := TraceOf(applied);
      assert t == ApplyEvents(c, a) + rest;
      ParseTraceOfApplied(applied[1..]);
      assert t[0] == ApplyCondition(c);
      if HasAlias(a) {
        assert t[1] == ParameterAlias(a.value);
        assert t[2..] == rest;
      } else {
        assert t[1..] == rest;
        if rest != [] {
          TraceOfStartsWithCall(applied[1..]);
          assert t[1] == rest[0];
        }
      }
    }
  }

  /** The query builder, reduced to the record of the calls it receives. */
  class QueryBuilder {
    var events: seq<BuilderEvent>

    constructor ()
      ensures events == []
    {
      events := [];
    }

    /** Receives one builder call. */
    method Receive(e: BuilderEvent)
      modifies this
      ensures events == old(events) + [e]
    {
      events := events + [e];
    }
  }

  /** A condition object: final fields in `condition`, and the alias that `alias(name)`
      sets in place. */
  class PropertyQueryCondition {
    const condition: Condition
    var alias: Option<string>

    constructor (condition: Condition)
      ensures this.condition == condition && alias == None
    {
      this.condition := condition;
      alias := None;
    }

    /** `alias(name)`: overwrites any alias set before and returns this same object. */
    method Alias(name: Option<string>) returns (r: PropertyQueryCondition)
      modifies this`alias
      ensures r == this && alias == name
    {
      alias := name;
      r := this;
    }

    /** `apply(builder)`: the condition's builder call, then `parameterAlias(alias)` when
        the alias is non-null and non-empty. The condition itself is left unchanged. */
    method Apply(builder: QueryBuilder)
      modifies builder
      ensures builder.events == old(builder.events) + ApplyEvents(condition, alias)
      ensures unchanged(this)
    {
      builder.Receive(ApplyCondition(condition));
      if HasAlias(alias) {
        builder.Receive(ParameterAlias(alias.value));
      }
    }
  }
}
