/**
 * The backend's field helpers (backend/src/helpers/index.ts): normalising a raw payload
 * field to "a finite number or nothing", and adding a numeric field to a store point
 * only when it holds a valid number.
 */
module Helpers {
  import opened Wrappers
  import opened JsValues

  /** Inputs that mean "no value": null, undefined, false and the empty string. */
  predicate IsBlank(v: JsValue)
  {
    v.JNull? || v.JUndefined? || v == JBool(false) || v == JStr("")
  }

  /**
   * `toNumber`: null when the value is falsy (except the number 0) or when `Number(value)`
   * is not finite; otherwise that number. The result is never NaN nor an infinity: the
   * type `Option<real>` holds only finite numbers.
   */
  function ToNumber(value: JsValue, host: Host): (r: Option<real>)
    // numeric zero is a present value, not a missing one
    ensures value == JNum(Finite(0.0)) ==> r == Some(0.0)
    // missing, empty and NaN inputs are absent
    ensures IsBlank(value) || value == JNum(NaN) ==> r == None
    // present exactly when a non-blank value coerces to a finite number, which is then the result
    ensures r.Some? <==> !IsBlank(value) && NumberOf(value, host).Finite?
    ensures r.Some? ==> NumberOf(value, host) == Finite(r.value)
  {
    if !Truthy(value) && value != JNum(Finite(0.0)) then None
    else
      match NumberOf(value, host)
      case Finite(x) => Some(x)
      case _ => None
  }

  /**
   * The part of the store client's `Point` that the core uses: a measurement name, string
   * tags and floating-point fields. Adding a field under an existing name replaces it.
   */
  class Point {
    const measurement: string
    var tags: map<string, string>
    var fields: map<string, real>

    constructor (measurement: string)
      ensures this.measurement == measurement
      ensures tags == map[] && fields == map[]
    {
      this.measurement := measurement;
      tags := map[];
      fields := map[];
    }

    method Tag(key: string, value: string)
      modifies this
      ensures tags == old(tags)[key := value]
      ensures fields == old(fields)
    {
      tags := tags[key := value];
    }

    method FloatField(name: string, value: real)
      modifies this
      ensures fields == old(fields)[name := value]
      ensures tags == old(tags)
    {
      fields := fields[name := value];
    }
  }

  /** `addField`: writes `name ↦ value` into the point only for a non-null finite number. */
  method AddField(p: Point, name: string, value: Option<JsNumber>)
    modifies p
    ensures p.tags == old(p.tags)
    ensures value.None? || !value.value.Finite? ==> p.fields == old(p.fields)
    ensures value.Some? && value.value.Finite? ==> p.fields == old(p.fields)[name := value.value.value]
  {
    if value.None? {
      return;
    }
    if !value.value.Finite? {
      return;
    }
    p.FloatField(name, value.value.value);
  }
}
