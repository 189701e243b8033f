/** C++ strings as C functions see them, and texts printed into 256-byte buffers. */
module CText {

  const NUL := 0 as char

  /** What a C function sees of a C++ string. */
  function CString(s: string): (t: string)
    ensures NUL !in t && t <= s && (t == s <==> NUL !in s) && (t != s ==> s[|t|] == NUL)
  {
    if s == [] || s[0] == NUL then []
    else
      assert s == [s[0]] + s[1..];
      [s[0]] + CString(s[1..])
  }

  /** A text printed into a buffer of 256 bytes, one of them for the NUL. */
  function Cut(s: string): string {
    if |s| <= 255 then s else s[..255]
  }
}
