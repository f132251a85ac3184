/** The compiled query facade (`Query`): it owns a native query handle, runs every read
    under a reader cursor and `remove` under a writer cursor, rebinds parameters, and
    destroys its handle at most once. Every call across the native boundary is recorded
    in `calls`; what the native engine answers is left to the store collaborator. */
module Queries {
  import opened JavaTypes

  /** The kind of cursor the store lends for one native call. */
  datatype CursorKind = Reader | Writer

  /** A value passed to a `nativeSetParameter` overload. */
  datatype ParameterValue =
    | StringValue(text: string)
    | LongValue(long: Long)
    | DoubleValue(double: Double)

  /** The two values passed to a `nativeSetParameters` overload. */
  datatype ParameterPair =
    | LongPair(long1: Long, long2: Long)
    | DoublePair(double1: Double, double2: Double)

  /** The native entry point called and the arguments besides the query and cursor handles. */
  datatype NativeFn =
    | Destroy
    | FindFirst
    | FindUnique
    | Find(offset: Long, limit: Long)
    | FindKeysUnordered
    | Count
    | Sum(propertyId: Int)
    | SumDouble(propertyId: Int)
    | Max(propertyId: Int)
    | MaxDouble(propertyId: Int)
    | Min(propertyId: Int)
    | MinDouble(propertyId: Int)
    | Avg(propertyId: Int)
    | Remove
    | SetParameter(propertyId: Int, parameterAlias: Option<string>, value: ParameterValue)
    | SetParameters(propertyId: Int, parameterAlias: Option<string>, values: ParameterPair)

  /** One native call: the cursor it ran under (none for destroy and parameter calls),
      the query handle it was given, and the entry point with its arguments. */
  datatype NativeCall = NativeCall(cursor: Option<CursorKind>, handle: Long, fn: NativeFn)

  /** The cursor each native entry point is called under: reader cursors for the find,
      count and aggregate calls, a writer cursor for remove, and no cursor at all for
      destroy and for rebinding parameters. */
  function CursorFor(fn: NativeFn): Option<CursorKind>
  {
    match fn
    case Destroy => None
    case SetParameter(_, _, _) => None
    case SetParameters(_, _, _) => None
    case Remove => Some(Writer)
    case _ => Some(Reader)
  }

  /** Remove is the only native call made under a writer cursor. */
  lemma OnlyRemoveWrites(fn: NativeFn)
    ensures CursorFor(fn) == Some(Writer) <==> fn.Remove?
    ensures fn.Destroy? || fn.SetParameter? || fn.SetParameters? <==> CursorFor(fn).None?
  {
  }

  /** The store (`Box`) the query runs against. It lends the cursors and stands for the
      native engine: each answer is an arbitrary function of all native calls made so far,
      the current one last. */
  datatype Box<T> = Box(
    entity: seq<NativeCall> -> Option<T>,
    entities: seq<NativeCall> -> seq<T>,
    ids: seq<NativeCall> -> seq<Long>,
    long: seq<NativeCall> -> Long,
    double: seq<NativeCall> -> Double)

  /** A `LazyList` over the given ids; its internals are not part of this model. */
  datatype LazyList<T> = LazyList(box: Box<T>, ids: seq<Long>, cached: bool)

  const UnorderedOnlyMessage: string := "This method is currently only available for unordered queries"

  /** The destroy calls among `calls`, in order. */
  function Destroys(calls: seq<NativeCall>): (r: seq<NativeCall>)
    ensures |r| <= |calls|
    ensures forall c :: c in r <==> c in calls && c.fn.Destroy?
  {
    if calls == [] then []
    else (if calls[0].fn.Destroy? then [calls[0]] else []) + Destroys(calls[1..])
  }

  lemma {:induction false} DestroysAppend(a: seq<NativeCall>, b: seq<NativeCall>)
    ensures Destroys(a + b) == Destroys(a) + Destroys(b)
    decreases |a|
  {
    if a != [] {
      var head := if a[0].fn.Destroy? then [a[0]] else [];
      assert (a + b)[0] == a[0] && (a + b)[1..] == a[1..] + b;
      assert Destroys(a + b) == head + Destroys(a[1..] + b);
      DestroysAppend(a[1..], b);
      assert Destroys(a) == head + Destroys(a[1..]);
    } else {
      assert a + b == b;
    }
  }

  /** The part of a query that `close()` reads and writes. */
  datatype CloseState = CloseState(handle: Long, calls: seq<NativeCall>)

  /** `close()`: destroys a non-zero handle and zeroes it; a zero handle is left alone. */
  function Closed(s: CloseState): CloseState
  {
    if s.handle != 0 then CloseState(0, s.calls + [NativeCall(None, s.handle, Destroy)]) else s
  }

  /** `close()` called `n` times in a row. */
  function ClosedTimes(s: CloseState, n: nat): CloseState
  {
    if n == 0 then s else Closed(ClosedTimes(s, n - 1))
  }

  /** Closing any number of times (at least once) is closing once: the handle ends up zero
      and at most one destroy is made, with the handle the query had before. */
  lemma {:induction false} CloseIdempotent(s: CloseState, n: nat)
    requires n >= 1
    ensures ClosedTimes(s, n) == Closed(s)
    ensures ClosedTimes(s, n).handle == 0
    ensures Destroys(ClosedTimes(s, n).calls)
         == Destroys(s.calls) + (if s.handle != 0 then [NativeCall(None, s.handle, Destroy)] else [])
  {
    if n > 1 {
      CloseIdempotent(s, n - 1);
    }
    if s.handle != 0 {
      DestroysAppend(s.calls, [NativeCall(None, s.handle, Destroy)]);
    }
  }

  class Query<T> {
    const box: Box<T>
    const hasOrder: bool
    var handle: Long
    /** Every native call this query has made, in order. */
    var calls: seq<NativeCall>
    /** The handle the query was created with. */
    ghost const initialHandle: Long

    /** Every call ran under the cursor its entry point requires; the handle is the one
        the query was created with until `close()` zeroes it, and there has been exactly
        one destroy, of that handle, once a non-zero handle has been zeroed (a query
        created with handle 0 never destroys). */
    ghost predicate Valid()
      reads this
    {
      (handle == initialHandle || handle == 0)
      && Destroys(calls) == (if handle != initialHandle then [NativeCall(None, initialHandle, Destroy)] else [])
      && forall c | c in calls :: c.cursor == CursorFor(c.fn)
    }

    function Snapshot(): CloseState
      reads this
    {
      CloseState(handle, calls)
    }

    constructor (box: Box<T>, queryHandle: Long, hasOrder: bool)
      ensures Valid()
      ensures this.box == box && handle == queryHandle && this.hasOrder == hasOrder && calls == []
    {
      this.box := box;
      handle := queryHandle;
      this.hasOrder := hasOrder;
      calls := [];
      initialHandle := queryHandle;
    }

    /** `close()`: see `Closed`. */
    method Close()
      requires Valid()
      modifies this
      ensures Valid()
      ensures Snapshot() == Closed(old(Snapshot()))
    {
      if handle != 0 {
        DestroysAppend(calls, [NativeCall(None, handle, Destroy)]);
        calls := calls + [NativeCall(None, handle, Destroy)];
        handle := 0;
      }
    }

    /** Records one native call other than destroy, under the cursor its entry point needs. */
    method Log(fn: NativeFn)
      requires Valid() && !fn.Destroy?
      modifies this`calls
      ensures Valid()
      ensures calls == old(calls) + [NativeCall(CursorFor(fn), handle, fn)]
    {
      var call := NativeCall(CursorFor(fn), handle, fn);
      DestroysAppend(calls, [call]);
      assert Destroys([call]) == [];
      calls := calls + [call];
    }

    /** `box.internalCallWithReaderHandle` running one native call. */
    method CallWithReaderHandle(fn: NativeFn)
      requires Valid() && CursorFor(fn) == Some(Reader)
      modifies this`calls
      ensures Valid()
      ensures calls == old(calls) + [NativeCall(Some(Reader), handle, fn)]
    {
      Log(fn);
    }

    /** `box.internalCallWithWriterHandle` running one native call. */
    method CallWithWriterHandle(fn: NativeFn)
      requires Valid() && CursorFor(fn) == Some(Writer)
      modifies this`calls
      ensures Valid()
      ensures calls == old(calls) + [NativeCall(Some(Writer), handle, fn)]
    {
      Log(fn);
    }

    /** A native parameter call, made without a cursor. */
    method CallWithoutCursor(fn: NativeFn)
      requires Valid() && (fn.SetParameter? || fn.SetParameters?)
      modifies this`calls
      ensures Valid()
      ensures calls == old(calls) + [NativeCall(None, handle, fn)]
    {
      Log(fn);
    }

    method FindFirst() returns (r: Option<T>)
      requires Valid()
      modifies this`calls
      ensures Valid()
      ensures calls == old(calls) + [NativeCall(Some(Reader), handle, NativeFn.FindFirst)]
      ensures r == box.entity(calls)
    {
      CallWithReaderHandle(NativeFn.FindFirst);
      r := box.entity(calls);
    }

    method FindUnique() returns (r: Option<T>)
      requires Valid()
      modifies this`calls
      ensures Valid()
      ensures calls == old(calls) + [NativeCall(Some(Reader), handle, NativeFn.FindUnique)]
      ensures r == box.entity(calls)
    {
      CallWithReaderHandle(NativeFn.FindUnique);
      r := box.entity(calls);
    }

    /** `find()`: the same native call as `find(0, 0)`. */
    method Find() returns (r: seq<T>)
      requires Valid()
      modifies this`calls
      ensures Valid()
      ensures calls == old(calls) + [NativeCall(Some(Reader), handle, NativeFn.Find(0, 0))]
      ensures r == box.entities(calls)
    {
      CallWithReaderHandle(NativeFn.Find(0, 0));
      r := box.entities(calls);
    }

    /** `find(offset, limit)`. */
    method FindRange(offset: Long, limit: Long) returns (r: seq<T>)
      requires Valid()
      modifies this`calls
      ensures Valid()
      ensures calls == old(calls) + [NativeCall(Some(Reader), handle, NativeFn.Find(offset, limit))]
      ensures r == box.entities(calls)
    {
      CallWithReaderHandle(NativeFn.Find(offset, limit));
      r := box.entities(calls);
    }

    /** `findIds()`: an ordered query is rejected before any cursor or native call. */
    method FindIds() returns (r: Result<seq<Long>>)
      requires Valid()
      modifies this`calls
      ensures Valid()
      ensures hasOrder ==> calls == old(calls)
                           && r == Failure(UnsupportedOperationException(UnorderedOnlyMessage))
      ensures !hasOrder ==> calls == old(calls) + [NativeCall(Some(Reader), handle, FindKeysUnordered)]
                            && r == Success(box.ids(calls))
    {
      if hasOrder {
        return Failure(UnsupportedOperationException(UnorderedOnlyMessage));
      }
      CallWithReaderHandle(FindKeysUnordered);
      r := Success(box.ids(calls));
    }

    /** `findLazy()`: `findIds()`, then a non-caching lazy list over the ids. */
    method FindLazy() returns (r: Result<LazyList<T>>)
      requires Valid()
      modifies this`calls
      ensures Valid()
      ensures hasOrder ==> calls == old(calls)
                           && r == Failure(UnsupportedOperationException(UnorderedOnlyMessage))
      ensures !hasOrder ==> calls == old(calls) + [NativeCall(Some(Reader), handle, FindKeysUnordered)]
                            && r == Success(LazyList(box, box.ids(calls), false))
    {
      var ids := FindIds();
      match ids
      case Failure(e) => r := Failure(e);
      case Success(v) => r := Success(LazyList(box, v, false));
    }

    /** `findLazyCached()`: `findIds()`, then a caching lazy list over the ids. */
    method FindLazyCached() returns (r: Result<LazyList<T>>)
      requires Valid()
      modifies this`calls
      ensures Valid()
      ensures hasOrder ==> calls == old(calls)
                           && r == Failure(UnsupportedOperationException(UnorderedOnlyMessage))
      ensures !hasOrder ==> calls == old(calls) + [NativeCall(Some(Reader), handle, FindKeysUnordered)]
                            && r == Success(LazyList(box, box.ids(calls), true))
    {
      var ids := FindIds();
      match ids
      case Failure(e) => r := Failure(e);
      case Success(v) => r := Success(LazyList(box, v, true));
    }

    method Count() returns (n: Long)
      requires Valid()
      modifies this`calls
      ensures Valid()
      ensures calls == old(calls) + [NativeCall(Some(Reader), handle, NativeFn.Count)]
      ensures n == box.long(calls)
    {
      CallWithReaderHandle(NativeFn.Count);
      n := box.long(calls);
    }

    method Sum(property: Property) returns (n: Long)
      requires Valid()
      modifies this`calls
      ensures Valid()
      ensures calls == old(calls) + [NativeCall(Some(Reader), handle, NativeFn.Sum(property.id))]
      ensures n == box.long(calls)
    {
      CallWithReaderHandle(NativeFn.Sum(property.id));
      n := box.long(calls);
    }

    method SumDouble(property: Property) returns (d: Double)
      requires Valid()
      modifies this`calls
      ensures Valid()
      ensures calls == old(calls) + [NativeCall(Some(Reader), handle, NativeFn.SumDouble(property.id))]
      ensures d == box.double(calls)
    {
      CallWithReaderHandle(NativeFn.SumDouble(property.id));
      d := box.double(calls);
    }

    method Max(property: Property) returns (n: Long)
      requires Valid()
      modifies this`calls
      ensures Valid()
      ensures calls == old(calls) + [NativeCall(Some(Reader), handle, NativeFn.Max(property.id))]
      ensures n == box.long(calls)
    {
      CallWithReaderHandle(NativeFn.Max(property.id));
      n := box.long(calls);
    }

    method MaxDouble(property: Property) returns (d: Double)
      requires Valid()
      modifies this`calls
      ensures Valid()
      ensures calls == old(calls) + [NativeCall(Some(Reader), handle, NativeFn.MaxDouble(property.id))]
      ensures d == box.double(calls)
    {
      CallWithReaderHandle(NativeFn.MaxDouble(property.id));
      d := box.double(calls);
    }

    method Min(property: Property) returns (n: Long)
      requires Valid()
      modifies this`calls
      ensures Valid()
      ensures calls == old(calls) + [NativeCall(Some(Reader), handle, NativeFn.Min(property.id))]
      ensures n == box.long(calls)
    {
      CallWithReaderHandle(NativeFn.Min(property.id));
      n := box.long(calls);
    }

    method MinDouble(property: Property) returns (d: Double)
      requires Valid()
      modifies this`calls
      ensures Valid()
      ensures calls == old(calls) + [NativeCall(Some(Reader), handle, NativeFn.MinDouble(property.id))]
      ensures d == box.double(calls)
    {
      CallWithReaderHandle(NativeFn.MinDouble(property.id));
      d := box.double(calls);
    }

    method Avg(property: Property) returns (d: Double)
      requires Valid()
      modifies this`calls
      ensures Valid()
      ensures calls == old(calls) + [NativeCall(Some(Reader), handle, NativeFn.Avg(property.id))]
      ensures d == box.double(calls)
    {
      CallWithReaderHandle(NativeFn.Avg(property.id));
      d := box.double(calls);
    }

    /** `setParameter(property, String)`. */
    method SetParameterString(property: Property, value: string) returns (q: Query<T>)
      requires Valid()
      modifies this`calls
      ensures Valid() && q == this
      ensures calls == old(calls) + [NativeCall(None, handle, SetParameter(property.id, None, StringValue(value)))]
    {
      CallWithoutCursor(SetParameter(property.id, None, StringValue(value)));
      q := this;
    }

    /** `setParameter(property, long)`. */
    method SetParameterLong(property: Property, value: Long) returns (q: Query<T>)
      requires Valid()
      modifies this`calls
      ensures Valid() && q == this
      ensures calls == old(calls) + [NativeCall(None, handle, SetParameter(property.id, None, LongValue(value)))]
    {
      CallWithoutCursor(SetParameter(property.id, None, LongValue(value)));
      q := this;
    }

    /** `setParameter(property, double)`. */
    method SetParameterDouble(property: Property, value: Double) returns (q: Query<T>)
      requires Valid()
      modifies this`calls
      ensures Valid() && q == this
      ensures calls == old(calls) + [NativeCall(None, handle, SetParameter(property.id, None, DoubleValue(value)))]
    {
      CallWithoutCursor(SetParameter(property.id, None, DoubleValue(value)));
      q := this;
    }

    /** `setParameter(property, Date)`: the `long` overload with `getTime()`; a null date
        throws before anything is called. */
    method SetParameterDate(property: Property, value: Option<Date>) returns (r: Result<Query<T>>)
      requires Valid()
      modifies this`calls
      ensures Valid()
      ensures value.None? ==> calls == old(calls) && r == Failure(NullPointerException)
      ensures value.Some? ==> r == Success(this)
      ensures value.Some? ==>
        calls == old(calls) + [NativeCall(None, handle, SetParameter(property.id, None, LongValue(value.value.time)))]
    {
      if value.None? {
        return Failure(NullPointerException);
      }
      var q := SetParameterLong(property, value.value.time);
      r := Success(q);
    }

    /** `setParameter(property, boolean)`: the `long` overload with 1 for true, 0 for false. */
    method SetParameterBool(property: Property, value: bool) returns (q: Query<T>)
      requires Valid()
      modifies this`calls
      ensures Valid() && q == this
      ensures calls == old(calls) + [NativeCall(None, handle, SetParameter(property.id, None, LongValue(if value then 1 else 0)))]
    {
      q := SetParameterLong(property, if value then 1 else 0);
    }

    /** `setParameters(property, long, long)`. */
    method SetParametersLong(property: Property, value1: Long, value2: Long) returns (q: Query<T>)
      requires Valid()
      modifies this`calls
      ensures Valid() && q == this
      ensures calls == old(calls) + [NativeCall(None, handle, SetParameters(property.id, None, LongPair(value1, value2)))]
    {
      CallWithoutCursor(SetParameters(property.id, None, LongPair(value1, value2)));
      q := this;
    }

    /** `setParameters(property, double, double)`. */
    method SetParametersDouble(property: Property, value1: Double, value2: Double) returns (q: Query<T>)
      requires Valid()
      modifies this`calls
      ensures Valid() && q == this
      ensures calls == old(calls) + [NativeCall(None, handle, SetParameters(property.id, None, DoublePair(value1, value2)))]
    {
      CallWithoutCursor(SetParameters(property.id, None, DoublePair(value1, value2)));
      q := this;
    }

    /** `remove()`: the one operation run under a writer cursor. */
    method Remove() returns (n: Long)
      requires Valid()
      modifies this`calls
      ensures Valid()
      ensures calls == old(calls) + [NativeCall(Some(Writer), handle, NativeFn.Remove)]
      ensures n == box.long(calls)
    {
      CallWithWriterHandle(NativeFn.Remove);
      n := box.long(calls);
    }
  }
}
