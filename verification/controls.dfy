/**
 * Camera properties of the core crate: property values and ranges, the range check a new
 * value must pass, value equality and ordering, and the property descriptors a camera
 * stores and updates in place.
 */
module Controls {
  import opened Wrappers
  import opened Numeric
  import opened CoreTypes
  import opened Ranges

  const I128_MIN: int := -0x8000_0000_0000_0000_0000_0000_0000_0000
  const I128_MAX: int := 0x7fff_ffff_ffff_ffff_ffff_ffff_ffff_ffff

  type i64 = x: int | I64_MIN <= x <= I64_MAX
  type i128 = x: int | I128_MIN <= x <= I128_MAX

  /** The properties a camera may expose; `Custom` names a platform-specific one. */
  datatype CameraPropertyId =
    | Brightness | Contrast | Hue | Saturation | Sharpness | Gamma | WhiteBalance
    | BacklightCompensation | Gain | Pan | Tilt | Zoom | Exposure | Iris | Focus | Facing
    | Custom(name: string)

  /** The derived `Debug` text of a property id (string escapes are not modelled). */
  function IdText(id: CameraPropertyId): (s: string)
    ensures |s| > 0
  {
    match id
    case Brightness => "Brightness"
    case Contrast => "Contrast"
    case Hue => "Hue"
    case Saturation => "Saturation"
    case Sharpness => "Sharpness"
    case Gamma => "Gamma"
    case WhiteBalance => "WhiteBalance"
    case BacklightCompensation => "BacklightCompensation"
    case Gain => "Gain"
    case Pan => "Pan"
    case Tilt => "Tilt"
    case Zoom => "Zoom"
    case Exposure => "Exposure"
    case Iris => "Iris"
    case Focus => "Focus"
    case Facing => "Facing"
    case Custom(n) => "Custom(\"" + n + "\")"
  }

  /** The flags a property may carry. */
  datatype CameraPropertyFlag = Automatic | Manual | Continuous | ReadOnly | WriteOnly | Volatile | Disabled

  /** A property value; `f32`/`f64` payloads are reals (NaN and infinities are not modelled). */
  datatype CameraPropertyValue =
    | Null
    | Boolean(b: bool)
    | Integer(i: i64)
    | LongInteger(long: i128)
    | Float(fl: real)
    | Double(dl: real)
    | String(st: string)
    | Array(arr: seq<CameraPropertyValue>)
    | EnumValue(en: CameraPropertyValue)
    | Binary(bin: seq<u8>)
    | Pair(pa: real, pb: real)
    | Triple(tx: real, ty: real, tz: real)
    | Quadruple(qx: real, qy: real, qz: real, qw: real)
    | KeyValue(key: string, kval: CameraPropertyValue)

  /** The position of a value's variant in the declaration; the reference for `is_same_type`. */
  function VariantIndex(v: CameraPropertyValue): nat
  {
    match v
    case Null => 0
    case Boolean(_) => 1
    case Integer(_) => 2
    case LongInteger(_) => 3
    case Float(_) => 4
    case Double(_) => 5
    case String(_) => 6
    case Array(_) => 7
    case EnumValue(_) => 8
    case Binary(_) => 9
    case Pair(_, _) => 10
    case Triple(_, _, _) => 11
    case Quadruple(_, _, _, _) => 12
    case KeyValue(_, _) => 13
  }

  /** `is_same_type`: true exactly for two values of the same variant, whatever their payloads. */
  function IsSameType(a: CameraPropertyValue, b: CameraPropertyValue): (r: bool)
    ensures r <==> VariantIndex(a) == VariantIndex(b)
  {
    match (a, b)
    case (Null, Null) => true
    case (Boolean(_), Boolean(_)) => true
    case (Integer(_), Integer(_)) => true
    case (LongInteger(_), LongInteger(_)) => true
    case (Float(_), Float(_)) => true
    case (Double(_), Double(_)) => true
    case (String(_), String(_)) => true
    case (Array(_), Array(_)) => true
    case (EnumValue(_), EnumValue(_)) => true
    case (Binary(_), Binary(_)) => true
    case (Pair(_, _), Pair(_, _)) => true
    case (Triple(_, _, _), Triple(_, _, _)) => true
    case (Quadruple(_, _, _, _), Quadruple(_, _, _, _)) => true
    case (KeyValue(_, _), KeyValue(_, _)) => true
    case (_, _) => false
  }

  /**
   * `PartialEq for CameraPropertyValue`: false across variants, payloads compared within a
   * variant (arrays element by element, boxed values recursively). Without NaN it is exactly
   * structural equality.
   */
  function ValueEq(a: CameraPropertyValue, b: CameraPropertyValue): (r: bool)
    ensures r <==> a == b
    ensures r ==> IsSameType(a, b)
    decreases a, 1
  {
    match a
    case Null => b.Null?
    case Boolean(x) => b.Boolean? && x == b.b
    case Integer(x) => b.Integer? && x == b.i
    case LongInteger(x) => b.LongInteger? && x == b.long
    case Float(x) => b.Float? && x == b.fl
    case Double(x) => b.Double? && x == b.dl
    case String(x) => b.String? && x == b.st
    case Array(xs) => b.Array? && ValuesEq(xs, b.arr)
    case EnumValue(x) => b.EnumValue? && ValueEq(x, b.en)
    case Binary(x) => b.Binary? && x == b.bin
    case Pair(x, y) => b.Pair? && x == b.pa && y == b.pb
    case Triple(x, y, z) => b.Triple? && x == b.tx && y == b.ty && z == b.tz
    case Quadruple(x, y, z, w) => b.Quadruple? && x == b.qx && y == b.qy && z == b.qz && w == b.qw
    case KeyValue(k, v) => b.KeyValue? && k == b.key && ValueEq(v, b.kval)
  }

  /** `PartialEq for Vec<CameraPropertyValue>`: equal lengths and pairwise `ValueEq`. */
  function ValuesEq(xs: seq<CameraPropertyValue>, ys: seq<CameraPropertyValue>): (r: bool)
    ensures r <==> xs == ys
    decreases xs, 0
  {
    if |xs| != |ys| then false
    else if xs == [] then true
    else
      var r := ValueEq(xs[0], ys[0]) && ValuesEq(xs[1..], ys[1..]);
      assert r ==> xs == [xs[0]] + xs[1..] == [ys[0]] + ys[1..] == ys;
      r
  }

  /** Comparison of two reals (an `f32`/`f64` `partial_cmp` without NaN). */
  function RealCompare(a: real, b: real): (o: Ordering)
    ensures o == Less <==> a < b
    ensures o == Equal <==> a == b
    ensures o == Greater <==> a > b
  {
    if a < b then Less else if a == b then Equal else Greater
  }

  /** `partial_cmp` of two strings: lexicographic by code point, then by length. */
  function StringCmp(s: string, t: string): (o: Ordering)
    ensures o == Equal <==> s == t
    decreases |s|
  {
    if s == [] || t == [] then Compare(|s|, |t|)
    else if s[0] != t[0] then Compare(s[0] as int, t[0] as int)
    else
      var o := StringCmp(s[1..], t[1..]);
      assert o == Equal ==> s == [s[0]] + s[1..] == [t[0]] + t[1..] == t;
      o
  }

  /** `partial_cmp` of two byte slices: lexicographic, then by length. */
  function BytesCmp(s: seq<u8>, t: seq<u8>): (o: Ordering)
    ensures o == Equal <==> s == t
    decreases |s|
  {
    if s == [] || t == [] then Compare(|s|, |t|)
    else if s[0] != t[0] then Compare(s[0], t[0])
    else
      var o := BytesCmp(s[1..], t[1..]);
      assert o == Equal ==> s == [s[0]] + s[1..] == [t[0]] + t[1..] == t;
      o
  }

  /**
   * The group a value's variant is ordered by: the two integer variants share a group, as do
   * the two floating-point variants, and the variants that do not take part in the ranking
   * (Pair, Triple, Quadruple, KeyValue) share the last.
   */
  function Rank(v: CameraPropertyValue): nat
  {
    match v
    case Null => 0
    case Boolean(_) => 1
    case Integer(_) => 2
    case LongInteger(_) => 2
    case Float(_) => 3
    case Double(_) => 3
    case String(_) => 4
    case Array(_) => 5
    case EnumValue(_) => 6
    case Binary(_) => 7
    case _ => 8
  }

  /**
   * `PartialOrd for CameraPropertyValue`, as written. Variants rank Null < Boolean <
   * Integer, LongInteger < Float, Double < String < Array < EnumValue < Binary, with numeric
   * comparison inside the number groups; Null against Null is Greater, any two enum values are
   * Equal, a Pair, Triple or Quadruple is Equal to anything, and a KeyValue compares to nothing.
   */
  function PartialCmp(a: CameraPropertyValue, b: CameraPropertyValue): (r: Option<Ordering>)
    ensures a.Integer? && b.Integer? ==> r == Some(Compare(a.i, b.i))
    ensures a.Integer? && b.LongInteger? ==>
      r == if I64_MIN <= b.long <= I64_MAX then Some(Compare(a.i, b.long)) else None
    ensures a.LongInteger? && (b.Integer? || b.LongInteger?) ==>
      r == Some(Compare(a.long, if b.Integer? then b.i else b.long))
    ensures a.Null? && b.Null? ==> r == Some(Greater)
    ensures !(a.Array? && b.Array?) ==>
      (r.None? <==> a.KeyValue? || (a.Integer? && b.LongInteger? && !(I64_MIN <= b.long <= I64_MAX)))
    decreases a, 1
  {
    match a
    case Null => if b.Null? then Some(Greater) else Some(Less)
    case Boolean(x) =>
      if b.Null? then Some(Greater)
      else if b.Boolean? then (if b.b == x then Some(Equal) else if b.b then Some(Less) else Some(Greater))
      else Some(Less)
    case Integer(x) =>
      if b.Null? || b.Boolean? then Some(Greater)
      else if b.Integer? then Some(Compare(x, b.i))
      else if b.LongInteger? then
        (if I64_MIN <= b.long <= I64_MAX then Some(Compare(x, b.long)) else None)
      else Some(Less)
    case LongInteger(x) =>
      if b.Null? || b.Boolean? then Some(Greater)
      else if b.Integer? then Some(Compare(x, b.i))
      else if b.LongInteger? then Some(Compare(x, b.long))
      else Some(Less)
    case Float(x) =>
      if b.Null? || b.Boolean? || b.Integer? || b.LongInteger? then Some(Greater)
      else if b.Float? then Some(RealCompare(x, b.fl))
      else if b.Double? then Some(RealCompare(x, b.dl))
      else Some(Less)
    case Double(x) =>
      if b.Null? || b.Boolean? || b.Integer? || b.LongInteger? then Some(Greater)
      else if b.Float? then Some(RealCompare(x, b.fl))
      else if b.Double? then Some(RealCompare(x, b.dl))
      else Some(Less)
    case String(x) =>
      if VariantIndex(b) < 6 then Some(Greater)
      else if b.String? then Some(StringCmp(x, b.st))
      else Some(Less)
    case Array(xs) =>
      if VariantIndex(b) < 7 then Some(Greater)
      else if b.Array? then ValuesCmp(xs, b.arr)
      else Some(Less)
    case EnumValue(_) =>
      if VariantIndex(b) < 8 then Some(Greater)
      else if b.EnumValue? then Some(Equal)
      else Some(Less)
    case Binary(x) =>
      if VariantIndex(b) < 9 then Some(Greater)
      else if b.Binary? then Some(BytesCmp(x, b.bin))
      else Some(Less)
    case Pair(_, _) => Some(Equal)
    case Triple(_, _, _) => Some(Equal)
    case Quadruple(_, _, _, _) => Some(Equal)
    case KeyValue(_, _) => None
  }

  /**
   * The order `partial_cmp` gives: a value of a lower group is Less than one of a higher
   * group and Greater the other way round (for every group up to Binary); inside a group,
   * false < true, floats by value, strings and bytes lexicographically, and any two enum
   * values Equal; a Pair, Triple or Quadruple is Equal to anything.
   */
  lemma PartialCmpOrder(a: CameraPropertyValue, b: CameraPropertyValue)
    ensures Rank(a) < 8 && Rank(a) < Rank(b) ==> PartialCmp(a, b) == Some(Less)
    ensures Rank(b) < Rank(a) < 8 ==> PartialCmp(a, b) == Some(Greater)
    ensures a.Boolean? && b.Boolean? ==> PartialCmp(a, b) == Some(Compare(if a.b then 1 else 0, if b.b then 1 else 0))
    ensures Rank(a) == Rank(b) == 3 ==>
      PartialCmp(a, b) == Some(RealCompare(if a.Float? then a.fl else a.dl, if b.Float? then b.fl else b.dl))
    ensures a.String? && b.String? ==> PartialCmp(a, b) == Some(StringCmp(a.st, b.st))
    ensures a.EnumValue? && b.EnumValue? ==> PartialCmp(a, b) == Some(Equal)
    ensures a.Binary? && b.Binary? ==> PartialCmp(a, b) == Some(BytesCmp(a.bin, b.bin))
    ensures a.Pair? || a.Triple? || a.Quadruple? ==> PartialCmp(a, b) == Some(Equal)
  {
  }

  /**
   * `partial_cmp` of two value slices: the first element comparison that is not
   * `Some(Equal)` decides (a `None` included), otherwise the lengths.
   */
  function ValuesCmp(xs: seq<CameraPropertyValue>, ys: seq<CameraPropertyValue>): (r: Option<Ordering>)
    decreases xs, 0
  {
    if xs == [] || ys == [] then Some(Compare(|xs|, |ys|))
    else
      var head := PartialCmp(xs[0], ys[0]);
      if head != Some(Equal) then head else ValuesCmp(xs[1..], ys[1..])
  }

  /**
   * The ordering is not a partial order as written: `Null` is Greater than itself, and a
   * `Pair` is Equal to `Null` while `Null` is Less than that `Pair`. Among integer values it
   * is antisymmetric: one side is Less exactly when the other is Greater.
   */
  lemma PartialCmpQuirks(x: i64, y: i64, l: i128, p: real, q: real)
    ensures var n := CameraPropertyValue.Null; PartialCmp(n, n) == Some(Greater)
    ensures var n, pair := CameraPropertyValue.Null, CameraPropertyValue.Pair(p, q);
      PartialCmp(pair, n) == Some(Equal) && PartialCmp(n, pair) == Some(Less)
    ensures var a, b := CameraPropertyValue.Integer(x), CameraPropertyValue.Integer(y);
      PartialCmp(a, b) == Some(Less) <==> PartialCmp(b, a) == Some(Greater)
    ensures var a, b := CameraPropertyValue.Integer(x), CameraPropertyValue.LongInteger(l);
      I64_MIN <= l <= I64_MAX ==> (PartialCmp(a, b) == Some(Less) <==> PartialCmp(b, a) == Some(Greater))
  {
  }

  /** A range over reals (the `f32`/`f64` instances of `IndicatedRange`). */
  datatype RealRange = RealRange(minimum: real, lower_inclusive: bool, maximum: real,
                                 upper_inclusive: bool, step: Option<real>, default: Option<real>)

  /** The admissible values of a property, by value kind. */
  datatype CameraPropertyRange =
    | Null
    | Boolean(Simple<bool>)
    | Integer(IndicatedRange)
    | LongInteger(IndicatedRange)
    | Float(RealRange)
    | Double(RealRange)
    | String(Simple<string>)
    | Array(ArrayRange<seq<CameraPropertyValue>>)
    | Enumeration(Options<CameraPropertyValue>)
    | Binary(Simple<seq<u8>>)
    | Pair(RealRange, RealRange)
    | Triple(RealRange, RealRange, RealRange)
    | Quadruple(RealRange, RealRange, RealRange, RealRange)
    | KeyValuePair(kv: KeyValue<string, CameraPropertyValue>)

  /** An integer range with a zero step would make the remainder in `validate` panic. */
  predicate ValidSteps(range: CameraPropertyRange)
  {
    match range
    case Integer(r) => r.step != Some(0)
    case LongInteger(r) => r.step != Some(0)
    case _ => true
  }

  /** `ControlValidationFailure`: a unit error. */
  datatype ControlValidationFailure = ControlValidationFailure

  /**
   * An arm of `check_value` that validates with `?` and then falls out of the match: a failed
   * validation returns early with the error, a passed one reaches the final `Err` all the same.
   */
  function FallThrough(validation: Result<Unit, RangeValidationFailure>): Result<Unit, ControlValidationFailure>
  {
    match validation
    case Err(_) => Err(ControlValidationFailure)
    case Ok(_) => Err(ControlValidationFailure)
  }

  /**
   * `check_value`, as written: only a Null range given a Null value, and a key-value range
   * given a pair whose key is present with a default of the same variant, return `Ok`; every
   * other path, including every successful validation, ends in `Err`. The f32/f64 arms run
   * their validators and then fall through the same way; the model goes straight to `Err`.
   */
  function CheckValue(range: CameraPropertyRange, value: CameraPropertyValue): (r: Result<Unit, ControlValidationFailure>)
    requires ValidSteps(range)
    ensures r.Ok? <==>
      (range.Null? && value.Null?)
      || (range.KeyValuePair? && value.KeyValue? && value.key in range.kv.defaults
          && IsSameType(range.kv.defaults[value.key], value.kval))
  {
    match range
    case Null => if value.Null? then Ok(Unit) else Err(ControlValidationFailure)
    case Boolean(chk) => if value.Boolean? then FallThrough(SimpleValidate(chk, value.b)) else Err(ControlValidationFailure)
    case Integer(chk) => if value.Integer? then FallThrough(IndicatedValidate(chk, value.i)) else Err(ControlValidationFailure)
    case LongInteger(chk) =>
      if value.LongInteger? then FallThrough(IndicatedValidate(chk, value.long)) else Err(ControlValidationFailure)
    case Float(_) => Err(ControlValidationFailure)
    case Double(_) => Err(ControlValidationFailure)
    case String(chk) => if value.String? then FallThrough(SimpleValidate(chk, value.st)) else Err(ControlValidationFailure)
    case Array(chk) => if value.Array? then FallThrough(ArrayRangeValidate(chk, value.arr)) else Err(ControlValidationFailure)
    case Enumeration(chk) =>
      if value.EnumValue? then FallThrough(OptionsValidate(chk, value.en)) else Err(ControlValidationFailure)
    case Binary(chk) => if value.Binary? then FallThrough(SimpleValidate(chk, value.bin)) else Err(ControlValidationFailure)
    case Pair(_, _) => Err(ControlValidationFailure)
    case Triple(_, _, _) => Err(ControlValidationFailure)
    case Quadruple(_, _, _, _) => Err(ControlValidationFailure)
    case KeyValuePair(kv) =>
      if value.KeyValue? then
        match ByKey(kv, value.key)
        case Some(vk) => if IsSameType(vk, value.kval) then Ok(Unit) else Err(ControlValidationFailure)
        case None => Err(ControlValidationFailure)
      else Err(ControlValidationFailure)
  }

  /**
   * Consequences of the fall-through: a Boolean range rejects every Boolean value although its
   * validator accepts everything, and an integer range rejects even its own default.
   */
  lemma CheckValueRejectsValidated(b: bool, chk: Simple<bool>, r: IndicatedRange, d: i64)
    requires r.step != Some(0) && r.default == Some(d)
    ensures SimpleValidate(chk, b).Ok? && CheckValue(CameraPropertyRange.Boolean(chk), CameraPropertyValue.Boolean(b)).Err?
    ensures CheckValue(CameraPropertyRange.Integer(r), CameraPropertyValue.Integer(d)).Err?
  {
  }

  /** A property: its flags, its admissible range and its current value. */
  class CameraPropertyDescriptor {
    var flags: set<CameraPropertyFlag>
    var range: CameraPropertyRange
    var value: CameraPropertyValue

    /** `CameraPropertyDescriptor::new`: the flag slice becomes a set. */
    constructor (flags: seq<CameraPropertyFlag>, range: CameraPropertyRange, value: CameraPropertyValue)
      ensures this.flags == set f | f in flags
      ensures this.range == range && this.value == value
    {
      this.flags := set f | f in flags;
      this.range := range;
      this.value := value;
    }

    /** `is_read_only`: fails exactly when the ReadOnly flag is present. */
    function IsReadOnly(): (r: Result<Unit, NokhwaError>)
      reads this
      ensures r.Err? <==> ReadOnly in flags
      ensures r.Err? ==> r.error == SetPropertyError("Flag", "N/A", "Read Only")
    {
      if ReadOnly in flags then Err(SetPropertyError("Flag", "N/A", "Read Only")) else Ok(Unit)
    }

    /** `is_write_only`: fails exactly when the WriteOnly flag is present. */
    function IsWriteOnly(): (r: Result<Unit, NokhwaError>)
      reads this
      ensures r.Err? <==> WriteOnly in flags
      ensures r.Err? ==> r.error == GetPropertyError("Flag", "Write Only")
    {
      if WriteOnly in flags then Err(GetPropertyError("Flag", "Write Only")) else Ok(Unit)
    }

    /** `is_disabled`: fails exactly when the Disabled flag is present. */
    function IsDisabled(): (r: Result<Unit, NokhwaError>)
      reads this
      ensures r.Err? <==> Disabled in flags
      ensures r.Err? ==> r.error == StructureError("CameraPropertyDescriptor", "Disabled")
    {
      if Disabled in flags then Err(StructureError("CameraPropertyDescriptor", "Disabled")) else Ok(Unit)
    }

    /** `flags()`: the flag set, unless the property is disabled. */
    function Flags(): (r: Result<set<CameraPropertyFlag>, NokhwaError>)
      reads this
      ensures r.Err? <==> Disabled in flags
      ensures r.Ok? ==> r.value == flags && Disabled !in r.value
    {
      match IsDisabled()
      case Err(e) => Err(e)
      case Ok(_) => Ok(flags)
    }

    /**
     * `set_value`: the new value must pass the range check; on failure the error carries the
     * value's text (its `Debug` rendering, given as `valueText`) and nothing changes. Flags and
     * range never change.
     */
    method SetValue(value: CameraPropertyValue, valueText: string) returns (r: Result<Unit, NokhwaError>)
      requires ValidSteps(range)
      modifies this
      ensures flags == old(flags) && range == old(range)
      ensures r.Ok? <==> CheckValue(range, value).Ok?
      ensures r.Ok? ==> this.value == value
      ensures r.Err? ==> this.value == old(this.value)
      ensures r.Err? ==> r.error == SetPropertyError("CameraPropertyValue", valueText, "Bad Type")
    {
      if CheckValue(range, value).Err? {
        return Err(SetPropertyError("CameraPropertyValue", valueText, "Bad Type"));
      }
      this.value := value;
      return Ok(Unit);
    }
  }

  /** The properties of a camera, by id; each descriptor is owned by its entry. */
  class CameraProperties {
    var props: map<CameraPropertyId, CameraPropertyDescriptor>

    /** Ownership: no descriptor is shared by two ids. */
    ghost predicate Valid()
      reads this
    {
      forall a, b :: a in props && b in props && a != b ==> props[a] != props[b]
    }

    /** `property`: the descriptor stored for an id. */
    function Property(property: CameraPropertyId): (r: Option<CameraPropertyDescriptor>)
      reads this
      ensures r.Some? <==> property in props
      ensures r.Some? ==> r.value == props[property]
    {
      if property in props then Some(props[property]) else None
    }

    /**
     * `set_property`: an absent id is an error ("Is null."); otherwise the result is that of
     * the descriptor's `set_value`, and no other descriptor changes.
     */
    method SetProperty(property: CameraPropertyId, value: CameraPropertyValue, valueText: string)
      returns (r: Result<Unit, NokhwaError>)
      requires Valid()
      requires property in props ==> ValidSteps(props[property].range)
      modifies if property in props then {props[property]} else {}
      ensures props == old(props)
      ensures property in props ==>
        props[property].flags == old(props[property].flags) && props[property].range == old(props[property].range)
      ensures property !in props ==> r == Err(SetPropertyError(IdText(property), valueText, "Is null."))
      ensures property in props ==> (r.Ok? <==> CheckValue(props[property].range, value).Ok?)
      ensures property in props && r.Ok? ==> props[property].value == value
      ensures property in props && r.Err? ==>
        props[property].value == old(props[property].value)
        && r.error == SetPropertyError("CameraPropertyValue", valueText, "Bad Type")
      ensures forall k :: k in props && k != property ==>
        props[k].value == old(props[k].value) && props[k].flags == old(props[k].flags)
        && props[k].range == old(props[k].range)
    {
      if property !in props {
        return Err(SetPropertyError(IdText(property), valueText, "Is null."));
      }
      var prop := props[property];
      r := prop.SetValue(value, valueText);
    }
  }
}
