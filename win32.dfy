/**
 * The machine integers and Win32 constants that the keyboard hook's
 * dispatch routine works with (64-bit Windows target).
 */
module Win32 {

  type u32 = x: int | 0 <= x < 0x1_0000_0000
  type i32 = x: int | -0x8000_0000 <= x < 0x8000_0000
  type usize = x: int | 0 <= x < 0x1_0000_0000_0000_0000
  type isize = x: int | -0x8000_0000_0000_0000 <= x < 0x8000_0000_0000_0000

  /** Hook code meaning "the notification carries a keyboard action". */
  const HC_ACTION: i32 := 0
  /** Message identifiers carried in WPARAM by a low-level keyboard hook. */
  const WM_KEYDOWN: u32 := 0x0100
  const WM_KEYUP: u32 := 0x0101
  /** Virtual-key codes used by the scenarios below. */
  const VK_SPACE: u32 := 0x20
  const VK_A: u32 := 0x41
  const VK_B: u32 := 0x42

  /** `wparam.0 as u32`: a truncating cast from usize, which keeps the low 32 bits. */
  function AsU32(w: usize): (r: u32)
    ensures w < 0x1_0000_0000 ==> r == w
    ensures (w - r) % 0x1_0000_0000 == 0
  {
    w % 0x1_0000_0000
  }
}
