/** Small value types shared by the whole model: an optional value (what
    Kotlin writes as a nullable reference) and Kotlin's 32-bit `Int`. */
module Values {

  /** `null` or a value. */
  datatype Option<+T> = None | Some(value: T)

  const INT32_MIN: int := -0x8000_0000
  const INT32_MAX: int := 0x7fff_ffff

  /** Kotlin's `Int`: the values an intent extra or a layout coordinate can hold. */
  newtype int32 = x: int | -0x8000_0000 <= x < 0x8000_0000

  /** Two's-complement wrap-around of an exact sum into the `Int` range, as
      Kotlin's `Int` arithmetic does it. */
  function Wrap32(x: int): (r: int32)
    ensures (r as int - x) % 0x1_0000_0000 == 0
    ensures INT32_MIN <= x <= INT32_MAX ==> r as int == x
  {
    var shifted := x + 0x8000_0000;
    var q := shifted / 0x1_0000_0000;
    assert shifted % 0x1_0000_0000 - shifted == -q * 0x1_0000_0000;
    ((shifted % 0x1_0000_0000) - 0x8000_0000) as int32
  }
}
