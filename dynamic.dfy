/** The typed property accessors of Object (Int, Int64, Float64, Bool,
    String, Object) and ObjectByName. Each one reads a property through the
    native lookup, which answers with "not found" or with a dynamically typed
    value, and then switches on the value's dynamic type.

    Float payloads are kept opaque: they are raw IEEE-754 bit patterns, and
    the Go runtime's conversions between floats and integers are parameters. */
module Dynamic {
  import opened Results
  import opened Ints

  /** A property value after unpacking: its Go dynamic type and payload.
      H is the type of object handles (*Object in the package). */
  datatype Value<H> =
    | NilValue
    | BoolValue(b: bool)
    | IntValue(n: Int64)          // Go `int`, which is at most 64 bits wide
    | Int32Value(n32: Int32)
    | Int64Value(n: Int64)
    | Float32Value(f32: bv32)
    | Float64Value(f64: bv64)
    | StringValue(s: string)
    | ObjectValue(obj: H)
    | OtherValue(id: nat)         // any other Go value the engine hands back

  predicate IsInteger<H>(v: Value<H>) {
    v.IntValue? || v.Int32Value? || v.Int64Value?
  }

  predicate IsNumeric<H>(v: Value<H>) {
    IsInteger(v) || v.Float32Value? || v.Float64Value?
  }

  /** The number an integer value holds */
  function Integer<H>(v: Value<H>): int
    requires IsInteger(v)
  {
    match v
    case IntValue(n) => n
    case Int32Value(n) => n
    case Int64Value(n) => n
  }

  /** The Go runtime's float conversions, which this model does not interpret:
      truncation of a float32 or float64 to an integer, conversion of an
      integer to float64, and widening of a float32 to float64. */
  datatype FloatConversions = FloatConversions(
    truncate32: bv32 -> Ints.Int64,
    truncate64: bv64 -> Ints.Int64,
    fromInteger: int -> bv64,
    widen: bv32 -> bv64)

  /** Object.Property: `reply` is the native lookup's answer, None when the
      object has no such property, which is a panic. */
  function Property<H>(reply: Option<Value<H>>, property: string): (r: Result<Value<H>, Panic>)
    ensures r.Ok? <==> reply.Some?
    ensures r.Ok? ==> r.value == reply.value
    ensures r.Err? ==> r.error == NoSuchProperty(property)
  {
    match reply
    case None => Err(NoSuchProperty(property))
    case Some(v) => Ok(v)
  }

  /** Object.Int on a platform whose `int` is `intBits` wide. An int or int32
      is returned as it is; an int64 only when the platform int can hold it;
      floats are truncated; every other kind panics. */
  function Int<H>(reply: Option<Value<H>>, property: string, intBits: nat, conv: FloatConversions): (r: Result<int, Panic>)
    requires IsWidth(intBits)
    ensures reply.None? ==> r == Err(NoSuchProperty(property))
    ensures r.Ok? <==>
      reply.Some? && IsNumeric(reply.value) &&
      (reply.value.Int64Value? ==> InSigned(reply.value.n, intBits))
    ensures r.Ok? && IsInteger(reply.value) ==> r.value == Integer(reply.value)
    ensures r.Ok? && reply.value.Float32Value? ==> r.value == conv.truncate32(reply.value.f32)
    ensures r.Ok? && reply.value.Float64Value? ==> r.value == conv.truncate64(reply.value.f64)
    ensures reply.Some? && reply.value.Int64Value? && r.Err? ==> r.error == TooLargeForInt(property)
    ensures reply.Some? && !IsNumeric(reply.value) ==> r == Err(NotAnInt(property))
  {
    match Property(reply, property)
    case Err(p) => Err(p)
    case Ok(v) =>
      match v
      case IntValue(n) => Ok(n)
      case Int32Value(n) => Ok(n)
      case Int64Value(n) =>
        WrapIdentity(n, intBits);
        if Wrap(n, intBits) != n then Err(TooLargeForInt(property)) else Ok(Wrap(n, intBits))
      case Float32Value(f) => Ok(conv.truncate32(f))
      case Float64Value(f) => Ok(conv.truncate64(f))
      case _ => Err(NotAnInt(property))
  }

  /** Object.Int64: every integer kind is returned unchanged, floats are
      truncated, every other kind panics. */
  function Int64<H>(reply: Option<Value<H>>, property: string, conv: FloatConversions): (r: Result<Ints.Int64, Panic>)
    ensures reply.None? ==> r == Err(NoSuchProperty(property))
    ensures r.Ok? <==> reply.Some? && IsNumeric(reply.value)
    ensures r.Ok? && IsInteger(reply.value) ==> r.value == Integer(reply.value)
    ensures r.Ok? && reply.value.Float32Value? ==> r.value == conv.truncate32(reply.value.f32)
    ensures r.Ok? && reply.value.Float64Value? ==> r.value == conv.truncate64(reply.value.f64)
    ensures reply.Some? && !IsNumeric(reply.value) ==> r == Err(NotAnInt64(property))
  {
    match Property(reply, property)
    case Err(p) => Err(p)
    case Ok(v) =>
      match v
      case IntValue(n) => Ok(n)
      case Int32Value(n) => Ok(n)
      case Int64Value(n) => Ok(n)
      case Float32Value(f) => Ok(conv.truncate32(f))
      case Float64Value(f) => Ok(conv.truncate64(f))
      case _ => Err(NotAnInt64(property))
  }

  /** Object.Float64: a float64 is returned as it is, a float32 widened,
      an integer converted; every other kind panics. */
  function Float64<H>(reply: Option<Value<H>>, property: string, conv: FloatConversions): (r: Result<bv64, Panic>)
    ensures reply.None? ==> r == Err(NoSuchProperty(property))
    ensures r.Ok? <==> reply.Some? && IsNumeric(reply.value)
    ensures r.Ok? && reply.value.Float64Value? ==> r.value == reply.value.f64
    ensures r.Ok? && reply.value.Float32Value? ==> r.value == conv.widen(reply.value.f32)
    ensures r.Ok? && IsInteger(reply.value) ==> r.value == conv.fromInteger(Integer(reply.value))
    ensures reply.Some? && !IsNumeric(reply.value) ==> r == Err(NotAFloat64(property))
  {
    match Property(reply, property)
    case Err(p) => Err(p)
    case Ok(v) =>
      match v
      case IntValue(n) => Ok(conv.fromInteger(n))
      case Int32Value(n) => Ok(conv.fromInteger(n))
      case Int64Value(n) => Ok(conv.fromInteger(n))
      case Float32Value(f) => Ok(conv.widen(f))
      case Float64Value(f) => Ok(f)
      case _ => Err(NotAFloat64(property))
  }

  /** Object.Bool: the value when its dynamic type is exactly bool. */
  function Bool<H>(reply: Option<Value<H>>, property: string): (r: Result<bool, Panic>)
    ensures reply.None? ==> r == Err(NoSuchProperty(property))
    ensures r.Ok? <==> reply.Some? && reply.value.BoolValue?
    ensures r.Ok? ==> reply.value == BoolValue(r.value)
    ensures reply.Some? && r.Err? ==> r.error == NotABool(property)
  {
    match Property(reply, property)
    case Err(p) => Err(p)
    case Ok(v) => if v.BoolValue? then Ok(v.b) else Err(NotABool(property))
  }

  /** Object.String: the value when its dynamic type is exactly string. */
  function String<H>(reply: Option<Value<H>>, property: string): (r: Result<string, Panic>)
    ensures reply.None? ==> r == Err(NoSuchProperty(property))
    ensures r.Ok? <==> reply.Some? && reply.value.StringValue?
    ensures r.Ok? ==> reply.value == StringValue(r.value)
    ensures reply.Some? && r.Err? ==> r.error == NotAString(property)
  {
    match Property(reply, property)
    case Err(p) => Err(p)
    case Ok(v) => if v.StringValue? then Ok(v.s) else Err(NotAString(property))
  }

  /** Object.Object: the value when its dynamic type is exactly *Object. */
  function Object<H>(reply: Option<Value<H>>, property: string): (r: Result<H, Panic>)
    ensures reply.None? ==> r == Err(NoSuchProperty(property))
    ensures r.Ok? <==> reply.Some? && reply.value.ObjectValue?
    ensures r.Ok? ==> reply.value == ObjectValue(r.value)
    ensures reply.Some? && r.Err? ==> r.error == NotAnObject(property)
  {
    match Property(reply, property)
    case Err(p) => Err(p)
    case Ok(v) => if v.ObjectValue? then Ok(v.obj) else Err(NotAnObject(property))
  }

  /** Object.ObjectByName: `found` is what the native child search left in
      its result slot; anything but an object means nothing was found. */
  function ObjectByName<H>(found: Value<H>, objectName: string): (r: Result<H, Panic>)
    ensures r.Ok? <==> found.ObjectValue?
    ensures r.Ok? ==> found == ObjectValue(r.value)
    ensures r.Err? ==> r.error == NoSuchDescendant(objectName)
  {
    if found.ObjectValue? then Ok(found.obj) else Err(NoSuchDescendant(objectName))
  }

  /** On a 64-bit platform Int and Int64 accept the same values and return the
      same number: the size check on int64 values never fires there. */
  lemma {:induction false} IntIsInt64On64Bit<H>(reply: Option<Value<H>>, property: string, conv: FloatConversions)
    ensures Int(reply, property, 64, conv).Ok? <==> Int64(reply, property, conv).Ok?
    ensures Int(reply, property, 64, conv).Ok? ==> Int(reply, property, 64, conv).value == Int64(reply, property, conv).value
  {
  }

  /** On a 32-bit platform Int panics on an int64 of 9999999999, which
      Int64 returns. */
  lemma TooLargeOn32Bit<H>(property: string, conv: FloatConversions)
    ensures Int<H>(Some(Int64Value(9999999999)), property, 32, conv) == Err(TooLargeForInt(property))
    ensures Int64<H>(Some(Int64Value(9999999999)), property, conv) == Ok(9999999999)
  {
  }

  /** Every integer kind that Int accepts, Int64 accepts with the same number;
      Int only ever refuses more. */
  lemma {:induction false} IntRefinesInt64<H>(reply: Option<Value<H>>, property: string, intBits: nat, conv: FloatConversions)
    requires IsWidth(intBits)
    ensures Int(reply, property, intBits, conv).Ok? ==> Int64(reply, property, conv).Ok?
    ensures Int(reply, property, intBits, conv).Ok? && IsInteger(reply.value) ==>
      Int(reply, property, intBits, conv).value == Int64(reply, property, conv).value
  {
  }
}
