/**
 * The value ranges a camera property may declare, and their validators. Numeric ranges are
 * modelled over mathematical integers (the i64 and i128 instances used by the controls).
 */
module Ranges {
  import opened Wrappers
  import opened CoreTypes

  /** `RangeValidationFailure`: a unit error. */
  datatype RangeValidationFailure = RangeValidationFailure

  /** `Range<T>`: optional bounds with their inclusivity, and a preferred value. */
  datatype Range<T> = Range(minimum: Option<T>, lower_inclusive: bool, maximum: Option<T>,
                            upper_inclusive: bool, preferred: T)

  /** `Range::new`: both bounds inclusive. */
  function RangeNew<T>(preferred: T, min: Option<T>, max: Option<T>): (r: Range<T>)
    ensures r.minimum == min && r.maximum == max && r.preferred == preferred
    ensures r.lower_inclusive && r.upper_inclusive
  {
    Range(min, true, max, true, preferred)
  }

  /** `Range::with_inclusive`: every field from the arguments. */
  function RangeWithInclusive<T>(preferred: T, min: Option<T>, lower_inclusive: bool, max: Option<T>,
                                 upper_inclusive: bool): (r: Range<T>)
    ensures r.minimum == min && r.maximum == max && r.preferred == preferred
    ensures r.lower_inclusive == lower_inclusive && r.upper_inclusive == upper_inclusive
  {
    Range(min, lower_inclusive, max, upper_inclusive, preferred)
  }

  /** `Range::exact` (and `Range::default` with `T::default()`): no bounds at all. */
  function RangeExact<T>(preferred: T): (r: Range<T>)
    ensures r.minimum.None? && r.maximum.None? && r.preferred == preferred
    ensures r.lower_inclusive && r.upper_inclusive
  {
    Range(None, true, None, true, preferred)
  }

  function SetMinimum<T>(r: Range<T>, minimum: Option<T>): Range<T> { r.(minimum := minimum) }
  function SetLowerInclusive<T>(r: Range<T>, lower_inclusive: bool): Range<T> { r.(lower_inclusive := lower_inclusive) }
  function SetMaximum<T>(r: Range<T>, maximum: Option<T>): Range<T> { r.(maximum := maximum) }
  function SetUpperInclusive<T>(r: Range<T>, upper_inclusive: bool): Range<T> { r.(upper_inclusive := upper_inclusive) }
  function SetPreferred<T>(r: Range<T>, preferred: T): Range<T> { r.(preferred := preferred) }

  /**
   * Each `set_*` replaces its own field and no other: the new value is read back by the
   * getter, the remaining four fields are those of the original range, and setting a field
   * to its current value changes nothing.
   */
  lemma RangeSetters<T>(r: Range<T>, lo: Option<T>, hi: Option<T>, li: bool, ui: bool, p: T)
    ensures var s := SetMinimum(r, lo);
      s.minimum == lo && s.lower_inclusive == r.lower_inclusive && s.maximum == r.maximum
      && s.upper_inclusive == r.upper_inclusive && s.preferred == r.preferred
    ensures var s := SetLowerInclusive(r, li);
      s.minimum == r.minimum && s.lower_inclusive == li && s.maximum == r.maximum
      && s.upper_inclusive == r.upper_inclusive && s.preferred == r.preferred
    ensures var s := SetMaximum(r, hi);
      s.minimum == r.minimum && s.lower_inclusive == r.lower_inclusive && s.maximum == hi
      && s.upper_inclusive == r.upper_inclusive && s.preferred == r.preferred
    ensures var s := SetUpperInclusive(r, ui);
      s.minimum == r.minimum && s.lower_inclusive == r.lower_inclusive && s.maximum == r.maximum
      && s.upper_inclusive == ui && s.preferred == r.preferred
    ensures var s := SetPreferred(r, p);
      s.minimum == r.minimum && s.lower_inclusive == r.lower_inclusive && s.maximum == r.maximum
      && s.upper_inclusive == r.upper_inclusive && s.preferred == p
    ensures SetMinimum(r, r.minimum) == r && SetMaximum(r, r.maximum) == r && SetPreferred(r, r.preferred) == r
  {
  }

  /** Whether `value` lies on the accepting side of a lower bound, with the given inclusivity. */
  predicate AboveLower(min: int, inclusive: bool, value: int)
  {
    if inclusive then min <= value else min < value
  }

  /** Whether `value` lies on the accepting side of an upper bound, with the given inclusivity. */
  predicate BelowUpper(max: int, inclusive: bool, value: int)
  {
    if inclusive then max >= value else max > value
  }

  /**
   * `num_range_validate`, as written. A value equal to the default is accepted first;
   * otherwise the value is REJECTED when it is on the accepting side of a present bound
   * (the comparisons are the right ones, but they guard the error path). The default is an
   * `Option` because `IndicatedRange` stores an optional one; `Range` passes its preferred value.
   */
  function NumRangeValidate(minimum: Option<int>, maximum: Option<int>, default: Option<int>,
                            lower_inclusive: bool, upper_inclusive: bool, value: int)
    : (r: Result<Unit, RangeValidationFailure>)
    ensures default == Some(value) ==> r.Ok?
    ensures minimum.None? && maximum.None? ==> r.Ok?
    ensures default != Some(value) ==>
      (r.Err? <==>
        (minimum.Some? && AboveLower(minimum.value, lower_inclusive, value))
        || (maximum.Some? && BelowUpper(maximum.value, upper_inclusive, value)))
  {
    if default == Some(value) then Ok(Unit)
    else if minimum.Some? && AboveLower(minimum.value, lower_inclusive, value) then Err(RangeValidationFailure)
    else if maximum.Some? && BelowUpper(maximum.value, upper_inclusive, value) then Err(RangeValidationFailure)
    else Ok(Unit)
  }

  /**
   * The consequence of the inverted tests: with both bounds present and `min < max`, no value
   * other than the default is accepted, in particular none inside the range. Concretely,
   * the range [0, 10] with default 5 rejects 3.
   */
  lemma NumRangeRejectsInRange(min: int, max: int, default: Option<int>, li: bool, ui: bool, value: int)
    requires min < max
    ensures NumRangeValidate(Some(min), Some(max), default, li, ui, value).Ok? <==> default == Some(value)
    ensures NumRangeValidate(Some(0), Some(10), Some(5), true, true, 3).Err?
  {
  }

  /**
   * The evidently intended check: the default, or any value on the accepting side of every
   * present bound, is accepted.
   */
  function NumRangeValidateIntended(minimum: Option<int>, maximum: Option<int>, default: Option<int>,
                                    lower_inclusive: bool, upper_inclusive: bool, value: int)
    : (r: Result<Unit, RangeValidationFailure>)
  {
    if default == Some(value) then Ok(Unit)
    else if minimum.Some? && !AboveLower(minimum.value, lower_inclusive, value) then Err(RangeValidationFailure)
    else if maximum.Some? && !BelowUpper(maximum.value, upper_inclusive, value) then Err(RangeValidationFailure)
    else Ok(Unit)
  }

  /**
   * The intended check accepts every value of a closed range [min, max] and rejects every
   * value outside it other than the default; on a value that differs from the default and
   * lies strictly inside both bounds the two checks disagree.
   */
  lemma NumRangeIntendedAcceptsInRange(min: int, max: int, default: Option<int>, value: int)
    ensures min <= value <= max ==> NumRangeValidateIntended(Some(min), Some(max), default, true, true, value).Ok?
    ensures !(min <= value <= max) && default != Some(value) ==>
      NumRangeValidateIntended(Some(min), Some(max), default, true, true, value).Err?
    ensures min <= value <= max && default != Some(value) ==>
      NumRangeValidate(Some(min), Some(max), default, true, true, value).Err?
  {
  }

  /** `ValidatableRange for Range<T>`: the preferred value plays the default. */
  function RangeValidate(r: Range<int>, value: int): (res: Result<Unit, RangeValidationFailure>)
    ensures value == r.preferred ==> res.Ok?
    ensures res == NumRangeValidate(r.minimum, r.maximum, Some(r.preferred), r.lower_inclusive, r.upper_inclusive, value)
  {
    NumRangeValidate(r.minimum, r.maximum, Some(r.preferred), r.lower_inclusive, r.upper_inclusive, value)
  }

  /** An exact range (no bounds) accepts every value. */
  lemma ExactRangeAcceptsAll(preferred: int, value: int)
    ensures RangeValidate(RangeExact(preferred), value).Ok?
  {
  }

  /** `IndicatedRange<T>`: mandatory bounds, an optional step and an optional default. */
  datatype IndicatedRange = IndicatedRange(minimum: int, lower_inclusive: bool, maximum: int,
                                           upper_inclusive: bool, step: Option<int>, default: Option<int>)

  /**
   * `IndicatedRange::validate`: with a step, a value whose offset from the minimum is not a
   * multiple of the step fails; everything else goes to `num_range_validate`. A zero integer
   * step would make the remainder panic. Rust's `%` truncates and Dafny's is Euclidean, but
   * both are zero exactly on the multiples.
   */
  function IndicatedValidate(r: IndicatedRange, value: int): (res: Result<Unit, RangeValidationFailure>)
    requires r.step.Some? ==> r.step.value != 0
    ensures r.step.Some? && (value - r.minimum) % r.step.value != 0 ==> res.Err?
    ensures r.step.None? || (value - r.minimum) % r.step.value == 0 ==>
      res == NumRangeValidate(Some(r.minimum), Some(r.maximum), r.default, r.lower_inclusive, r.upper_inclusive, value)
  {
    if r.step.Some? && (value - r.minimum) % r.step.value != 0 then Err(RangeValidationFailure)
    else NumRangeValidate(Some(r.minimum), Some(r.maximum), r.default, r.lower_inclusive, r.upper_inclusive, value)
  }

  /**
   * As written, an indicated range whose minimum is below its maximum accepts exactly its
   * default, and only when the default is aligned to the step.
   */
  lemma IndicatedAcceptsOnlyDefault(r: IndicatedRange, value: int)
    requires r.step.Some? ==> r.step.value != 0
    requires r.minimum < r.maximum
    ensures IndicatedValidate(r, value).Ok? <==>
      r.default == Some(value) && (r.step.None? || (value - r.minimum) % r.step.value == 0)
  {
    NumRangeRejectsInRange(r.minimum, r.maximum, r.default, r.lower_inclusive, r.upper_inclusive, value);
  }

  /** `Options<T>`: a list of admissible values and a default. */
  datatype Options<T> = Options(default: Option<T>, available: seq<T>)

  /** `Options::new`: the default is stored as present. */
  function OptionsNew<T>(values: seq<T>, default_value: T): (o: Options<T>)
    ensures o.available == values && o.default == Some(default_value)
  {
    Options(Some(default_value), values)
  }

  /** `Options::validate`: a listed value passes. */
  function OptionsValidate<T(==)>(o: Options<T>, value: T): (r: Result<Unit, RangeValidationFailure>)
    ensures r.Ok? <==> exists i :: 0 <= i < |o.available| && o.available[i] == value
  {
    if value in o.available then Ok(Unit) else Err(RangeValidationFailure)
  }

  /** `KeyValue<K, V>`: default values by key. */
  datatype KeyValue<K, V> = KeyValue(defaults: map<K, V>)

  /** `KeyValue::by_key`: the stored value for a key, if any. */
  function ByKey<K, V>(kv: KeyValue<K, V>, key: K): (r: Option<V>)
    ensures r.Some? <==> key in kv.defaults
    ensures r.Some? ==> r.value == kv.defaults[key]
  {
    if key in kv.defaults then Some(kv.defaults[key]) else None
  }

  /** `ArrayRange<T>`: the options a list may contain, and the default list. */
  datatype ArrayRange<T> = ArrayRange(appendable_options: seq<T>, default_options: seq<T>)

  const ARRAY_RANGE_ERROR: string :=
    "Attempted to add an undependable option to default option - ILLEGAL! - If you got this while using a driver, this is a bug! Please report to https://github.com/l1npengtul/nokhwa/issues!"

  /**
   * `ArrayRange::new`: scans the defaults in order and fails on the first that is not
   * appendable; otherwise both lists are stored unchanged.
   */
  method ArrayRangeNew<T(==)>(appendable: seq<T>, default: seq<T>) returns (r: Result<ArrayRange<T>, NokhwaError>)
    ensures r.Ok? <==> forall i :: 0 <= i < |default| ==> default[i] in appendable
    ensures r.Ok? ==> r.value.appendable_options == appendable && r.value.default_options == default
    ensures r.Err? ==> r.error == StructureError("ArrayRange", ARRAY_RANGE_ERROR)
  {
    for i := 0 to |default|
      invariant forall k :: 0 <= k < i ==> default[k] in appendable
    {
      if default[i] !in appendable {
        return Err(StructureError("ArrayRange", ARRAY_RANGE_ERROR));
      }
    }
    return Ok(ArrayRange(appendable, default));
  }

  /** `ArrayRange::validate`: a value passes when it is one of the appendable options. */
  function ArrayRangeValidate<T(==)>(a: ArrayRange<T>, value: T): (r: Result<Unit, RangeValidationFailure>)
    ensures r.Ok? <==> exists i :: 0 <= i < |a.appendable_options| && a.appendable_options[i] == value
  {
    if value in a.appendable_options then Ok(Unit) else Err(RangeValidationFailure)
  }

  /** `Simple<T>`: any value, with an optional default. */
  datatype Simple<T> = Simple(default: Option<T>)

  /** `Simple::validate`: always succeeds. */
  function SimpleValidate<T>(s: Simple<T>, value: T): (r: Result<Unit, RangeValidationFailure>)
    ensures r.Ok?
  {
    Ok(Unit)
  }
}
