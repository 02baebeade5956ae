/**
 * Types and JavaScript number semantics shared by the four PEQ handlers.
 *
 * Filter values are JavaScript numbers; the model takes them as exact reals
 * and writes out the integer conversions the handlers rely on: Math.round,
 * the ToInt32 truncation behind `>>` and `&`, and the modulo-256 store of a
 * Uint8Array.
 */
module PeqTypes {

  /** A byte as stored in a Uint8Array report. */
  type Byte = x: int | 0 <= x < 256

  datatype Option<T> = None | Some(value: T)

  /** The errors a handler operation can end with. */
  datatype Error =
    | PacketTooShort    // a filter report shorter than the parser accepts
    | Timeout           // no matching report before the deadline: the report stream ended
    | InvalidResponse   // a reply without the structure the handler needs
    | TypeError         // a property read on undefined or null
    | NotConfirmed      // the device did not confirm an update

  datatype Result<T> = Ok(value: T) | Err(error: Error)

  /** One HID output report: the report id and the bytes sent with it. */
  datatype Report = Report(reportId: Byte, data: seq<Byte>)

  /** A filter as the caller hands it to pushToDevice. */
  datatype Filter = Filter(freq: real, gain: real, q: real)

  /** Filter types the handlers decode. */
  datatype FilterType = PK | LSQ | HSQ

  /** Math.round: the nearest integer, halves rounded up. */
  function Round(x: real): (r: int)
    ensures r as real - 0.5 <= x < r as real + 0.5
  {
    (x + 0.5).Floor
  }

  /** ToInt32's truncation toward zero, as `>>` and `&` apply it to a number. */
  function Trunc(x: real): (r: int)
    ensures 0.0 <= x ==> 0 <= r && r as real <= x < r as real + 1.0
    ensures x < 0.0 ==> r <= 0 && r as real - 1.0 < x <= r as real
  {
    if x >= 0.0 then x.Floor else -((-x).Floor)
  }

  /** The remainder `x % 1` of JavaScript: the fractional part, with the sign of x. */
  function FracPart(x: real): real
  {
    x - Trunc(x) as real
  }

  /**
   * Byte i of a report as a bitwise operator sees it: a byte past the end
   * is `undefined`, which `|`, `&` and `<<` read as 0.
   */
  function ByteOr0(data: seq<Byte>, i: nat): Byte
  {
    if i < |data| then data[i] else 0
  }

  /**
   * The first report of a stream that a listener accepts: how every
   * single-shot request in the handlers is correlated with its reply.
   */
  function FirstMatch(window: seq<seq<Byte>>, accepts: seq<Byte> -> bool): (r: Option<nat>)
    ensures r.None? <==> forall j :: 0 <= j < |window| ==> !accepts(window[j])
    ensures r.Some? ==> r.value < |window| && accepts(window[r.value])
    ensures r.Some? ==> forall j :: 0 <= j < r.value ==> !accepts(window[j])
  {
    if window == [] then None
    else if accepts(window[0]) then Some(0)
    else match FirstMatch(window[1..], accepts)
      case None => None
      case Some(j) => Some(j + 1)
  }
}
