/** Machine words of the Win32 ABI the reader works with (BYTE, WORD, DWORD), as bounded
    integers, and the little-endian loads the reader performs on an x86 host. */
module Words {

  const Two16: int := 0x1_0000
  const Two32: int := 0x1_0000_0000

  type byte = b: int | 0 <= b < 0x100
  type u16 = x: int | 0 <= x < 0x1_0000
  type u32 = x: int | 0 <= x < 0x1_0000_0000

  /** DWORD addition as C performs it: the sum wraps around modulo 2^32. */
  function Add32(a: u32, b: u32): (r: u32)
    ensures a + b < Two32 ==> r == a + b
    ensures a + b >= Two32 ==> r == a + b - Two32
  {
    (a + b) % Two32
  }

  /** DWORD doubling as C performs it on a 32-bit target (a count of WCHARs times
      sizeof(WCHAR)): the product wraps around modulo 2^32. */
  function Double32(a: u32): (r: u32)
    ensures 2 * a < Two32 ==> r == 2 * a
    ensures 2 * a >= Two32 ==> r == 2 * a - Two32
  {
    (2 * a) % Two32
  }

  /** The WORD stored little-endian in two bytes. */
  function Le16(b: seq<byte>): (w: u16)
    requires |b| == 2
  {
    b[0] as int + 0x100 * (b[1] as int)
  }

  /** The DWORD stored little-endian in four bytes. */
  function Le32(b: seq<byte>): (d: u32)
    requires |b| == 4
  {
    b[0] as int + 0x100 * (b[1] as int) + 0x1_0000 * (b[2] as int) + 0x100_0000 * (b[3] as int)
  }
}
