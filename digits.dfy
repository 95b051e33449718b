/**
 * The segment selection of `printDigit` (pong.c:80-108): which of the seven
 * bars of a seven-segment display are drawn for a score digit. The drawing
 * itself (the rectangles and their coordinates) is not modelled.
 */
module Digits {
  import opened Simulation

  datatype Segment = Bottom | Middle | Top | UpperLeft | LowerLeft | UpperRight | LowerRight

  const AllSegments: set<Segment> := {Bottom, Middle, Top, UpperLeft, LowerLeft, UpperRight, LowerRight}

  /** The bars `printDigit` draws for `digit` (any `unsigned char`, not only 0..9). */
  function Segments(digit: uint8): (r: set<Segment>)
    ensures digit > 9 ==> r == {UpperRight, LowerRight}
  {
    (if digit == 0 || digit == 2 || digit == 3 || digit == 5 || digit == 6 || digit == 8 then {Bottom} else {}) +
    (if (2 <= digit <= 6) || digit == 8 || digit == 9 then {Middle} else {}) +
    (if digit == 0 || digit == 2 || digit == 3 || (5 <= digit <= 9) then {Top} else {}) +
    (if digit == 0 || digit == 4 || digit == 5 || digit == 6 || digit == 8 || digit == 9 then {UpperLeft} else {}) +
    (if digit == 0 || digit == 2 || digit == 6 || digit == 8 then {LowerLeft} else {}) +
    (if !(digit == 5 || digit == 6) then {UpperRight} else {}) +
    (if digit != 2 then {LowerRight} else {})
  }

  /** A set of bars read as a 7-bit number, one bit per segment. */
  function Code(segments: set<Segment>): (c: nat)
    ensures c < 128
  {
    (if Bottom in segments then 1 else 0) +
    (if Middle in segments then 2 else 0) +
    (if Top in segments then 4 else 0) +
    (if UpperLeft in segments then 8 else 0) +
    (if LowerLeft in segments then 16 else 0) +
    (if UpperRight in segments then 32 else 0) +
    (if LowerRight in segments then 64 else 0)
  }

  /** Reads a lit display back as the digit it shows, if it shows one. */
  function Decode(segments: set<Segment>): (r: Option<uint8>)
    ensures r.Some? ==> r.value <= 9
  {
    match Code(segments)
    case 125 => Some(0)
    case 96 => Some(1)
    case 55 => Some(2)
    case 103 => Some(3)
    case 106 => Some(4)
    case 79 => Some(5)
    case 95 => Some(6)
    case 100 => Some(7)
    case 127 => Some(8)
    case 110 => Some(9)
    case _ => None
  }

  datatype Option<T> = None | Some(value: T)

  /** Every score digit is drawn so that it can be read back: the segment table has an inverse on 0..9. */
  lemma ReadBack(digit: uint8)
    requires digit <= 9
    ensures Decode(Segments(digit)) == Some(digit)
  {
  }

  /** No two score digits look alike. */
  lemma SegmentsDistinct(d1: uint8, d2: uint8)
    requires d1 <= 9 && d2 <= 9 && d1 != d2
    ensures Segments(d1) != Segments(d2)
  {
  }

  /** 8 lights every bar, 1 only the two right-hand bars, 9 everything except the bottom and lower-left bars. */
  lemma NotableDigits()
    ensures Segments(8) == AllSegments
    ensures Segments(1) == {UpperRight, LowerRight}
    ensures Bottom !in Segments(9) && Segments(9) == AllSegments - {Bottom, LowerLeft}
  {
  }
}
