/**
 * Control-surface trim writing (Mdk.SimpleAutopilot/Program.cs, ApplyTrim and
 * ApplyTrimMultiple).
 *
 * A control surface is a record of its invert flag and its current trim. A
 * command reaches `ApplyTrim` as a single-precision float: either a finite
 * value or NaN/an infinity, which is refused without a write.
 */
module Actuators {

  /** A single-precision command: a finite value, or NaN or an infinity. */
  datatype Trim = Finite(value: real) | NonFinite

  /** A control surface as the autopilot sees it. */
  datatype Device = Device(invert: bool, trim: real)

  /** The largest trim a surface is given, either way. */
  const MaxTrim: real := 44.0

  /**
   * The smallest magnitude a double must reach for the conversion to float to
   * round to an infinity: 2^128 - 2^103, half a unit beyond the largest float.
   */
  const FloatOverflow: real := 340282356779733661637539395458142568448.0

  /** The cast of a double command to float; rounding inside the range is not modelled. */
  function Narrow(x: real): (t: Trim)
    ensures t.Finite? <==> -FloatOverflow < x < FloatOverflow
    ensures t.Finite? ==> t.value == x
  {
    if -FloatOverflow < x < FloatOverflow then Finite(x) else NonFinite
  }

  /** t limited to [-MaxTrim, MaxTrim]. */
  function Limit(t: real): real {
    if t > MaxTrim then MaxTrim else if t < -MaxTrim then -MaxTrim else t
  }

  /**
   * The trim a finite command t puts on a surface: limited to [-44, 44], and
   * negated when the surface is inverted (the flag is read only for a
   * non-zero value).
   */
  function Written(t: real, invert: bool): (w: real)
    ensures -MaxTrim <= w <= MaxTrim
    ensures w == 0.0 <==> t == 0.0
    ensures t != 0.0 ==> (w > 0.0 <==> (t > 0.0) != invert)
    ensures -MaxTrim <= t <= MaxTrim ==> w == (if invert then -t else t)
    ensures t > MaxTrim ==> w == (if invert then -MaxTrim else MaxTrim)
    ensures t < -MaxTrim ==> w == (if invert then MaxTrim else -MaxTrim)
  {
    var limited := Limit(t);
    if limited != 0.0 && invert then -limited else limited
  }

  /** One surface after `ApplyTrim`: a non-finite command leaves it as it was. */
  function ApplyTrim(d: Device, t: Trim): (r: Device)
    ensures r.invert == d.invert
    ensures t.NonFinite? ==> r == d
    ensures t.Finite? ==> r.trim == Written(t.value, d.invert)
  {
    match t
    case NonFinite => d
    case Finite(v) => d.(trim := Written(v, d.invert))
  }

  /** Every surface of a list after the same command. */
  function TrimAll(wings: seq<Device>, t: Trim): (r: seq<Device>)
    ensures |r| == |wings|
    ensures forall i :: 0 <= i < |wings| ==> r[i] == ApplyTrim(wings[i], t)
  {
    seq(|wings|, i requires 0 <= i < |wings| => ApplyTrim(wings[i], t))
  }

  /** `ApplyTrimMultiple`: an empty list is left alone, otherwise each surface in order. */
  method ApplyTrimMultiple(wings: seq<Device>, t: Trim) returns (written: seq<Device>)
    ensures written == TrimAll(wings, t)
  {
    if |wings| == 0 {
      return wings;
    }
    written := [];
    var i := 0;
    while i < |wings|
      invariant 0 <= i <= |wings|
      invariant written == TrimAll(wings[..i], t)
    {
      written := written + [ApplyTrim(wings[i], t)];
      i := i + 1;
    }
    assert wings[..i] == wings;
  }

  /** A zero command writes 0 to every surface, whatever its invert flag. */
  lemma ZeroCommandIgnoresInvert(wings: seq<Device>)
    ensures forall i :: 0 <= i < |wings| ==>
      TrimAll(wings, Finite(0.0))[i] == Device(wings[i].invert, 0.0)
  {
  }

  /** A refused command writes nothing. */
  lemma NonFiniteWritesNothing(wings: seq<Device>)
    ensures TrimAll(wings, NonFinite) == wings
  {
  }

  /** After any command every surface is within the trim limit. */
  lemma TrimsBounded(wings: seq<Device>, t: Trim)
    requires forall i :: 0 <= i < |wings| ==> -MaxTrim <= wings[i].trim <= MaxTrim
    ensures forall i :: 0 <= i < |wings| ==> -MaxTrim <= TrimAll(wings, t)[i].trim <= MaxTrim
  {
  }

  /** Writing the same command twice is the same as writing it once. */
  lemma TrimAllIdempotent(wings: seq<Device>, t: Trim)
    ensures TrimAll(TrimAll(wings, t), t) == TrimAll(wings, t)
  {
  }

  /** An inverted surface receives exactly the opposite of a plain one. */
  lemma InvertMirrors(t: real)
    ensures Written(t, true) == -Written(t, false)
  {
  }

  /** Worked values: large commands saturate, and an inverted surface flips the sign. */
  lemma WrittenExamples()
    ensures Written(1000.0, false) == 44.0
    ensures Written(-1000.0, false) == -44.0
    ensures Written(1000.0, true) == -44.0
    ensures Written(5.0, true) == -5.0
    ensures Written(0.0, true) == 0.0
  {
  }
}
