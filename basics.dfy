// Shared values of the aircraft model: optional values, positions, projected
// points, altitudes and headings, together with the JavaScript coercions that
// the tracking code relies on (null reads as 0, "ground" reads as NaN, a
// heading of 0 is falsy).

module Basics {

  /** JavaScript's null/undefined for a field, or a value. */
  datatype Option<T> = None | Some(value: T)

  /** A longitude/latitude pair in degrees, as the receiver reports it. */
  datatype Position = Position(lon: real, lat: real)

  /** A map coordinate after projection. */
  datatype Point = Point(x: real, y: real)

  /** Barometric altitude: null, the string "ground", or a number of feet. */
  datatype Altitude = Unknown | Ground | Feet(ft: int)

  /** A heading in degrees; None stands for null or undefined. */
  type Heading = Option<real>

  /** JavaScript truthiness of a heading: null, undefined and 0 are all falsy. */
  predicate Truthy(h: Heading) {
    h.Some? && h.value != 0.0
  }

  /** The number an altitude becomes under JavaScript subtraction:
      null is 0 and "ground" is NaN (None). */
  function AsNumber(a: Altitude): Option<int> {
    match a
    case Unknown => Some(0)
    case Ground => None
    case Feet(n) => Some(n)
  }

  /** A nullable number as JavaScript's arithmetic and comparisons read it. */
  function OrZero(v: Option<real>): real {
    if v.Some? then v.value else 0.0
  }

  /** A field of an update record when the record carries it, else the
      value held so far. */
  function Or<T>(incoming: Option<T>, current: Option<T>): Option<T> {
    if incoming.Some? then incoming else current
  }

  function ValueOr<T>(incoming: Option<T>, current: T): T {
    if incoming.Some? then incoming.value else current
  }

  function Abs(x: real): real {
    if x < 0.0 then -x else x
  }
}
