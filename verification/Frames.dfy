/** Values shared by the modules of the live path. */
module Frames {
  /** One octet, as `std::uint8_t` holds it. */
  type Byte = b: int | 0 <= b < 256

  datatype Option<+T> = None | Some(value: T)

  /** A valid GstClockTime: 64 bits, below GST_CLOCK_TIME_NONE. */
  type ClockTime = t: int | 0 <= t < 0xFFFF_FFFF_FFFF_FFFF

  /** One access unit: a GstBuffer with the caps that describe it. */
  datatype Frame = Frame(payload: seq<Byte>, pts: Option<ClockTime>, caps: Option<nat>, keyframe: bool)

  /** The octets of an ASCII literal. */
  function Ascii(text: string): (bytes: seq<Byte>)
    requires forall i :: 0 <= i < |text| ==> text[i] < 256 as char
    ensures |bytes| == |text|
    ensures forall i :: 0 <= i < |text| ==> bytes[i] == text[i] as int
  {
    seq(|text|, i requires 0 <= i < |text| => text[i] as int)
  }
}
