/** What C does to strings on the way through fixed buffers. */
module CStrings {

  /** A copy into a buffer of `size` bytes, cut to leave room for the terminator. */
  function Take(s: string, size: nat): string
    requires size > 0
  {
    if |s| >= size then s[..size - 1] else s
  }

  /** tolower in the C locale. */
  function Lower(c: char): char {
    if 'A' <= c <= 'Z' then c - 'A' + 'a' else c
  }
}
