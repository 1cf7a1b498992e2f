/**
 * The C output stream the serialiser writes to. A `FILE *` is modelled as the
 * text written to it so far; `fputc`, `fputs` and `fprintf` append to it.
 */
module Stdio {

  /** An output stream: everything written to it, in order. */
  class Stream {
    var text: string

    constructor ()
      ensures text == []
    {
      text := [];
    }

    /** `fputc(c, fp)`: appends one character. */
    method Putc(c: char)
      modifies this
      ensures text == old(text) + [c]
    {
      text := text + [c];
    }

    /** `fputs(s, fp)`, or `fprintf` once its format has been expanded. */
    method Puts(s: string)
      modifies this
      ensures text == old(text) + s
    {
      text := text + s;
    }
  }

  /** Writing `a` and then `b` leaves the same text as writing `a + b`. */
  lemma Concat(t: string, a: string, b: string)
    ensures t + a + b == t + (a + b)
  {
  }

  /**
   * What a `%s` conversion prints for `s.c_str()`: the characters of the
   * string up to, not including, its first NUL.
   */
  function CStr(s: string): (r: string)
    ensures r <= s
    ensures '\0' !in r
    ensures |r| < |s| ==> s[|r|] == '\0'
  {
    if s == [] || s[0] == '\0' then [] else [s[0]] + CStr(s[1..])
  }

  /** A string without a NUL is printed whole. */
  lemma CStrWhole(s: string)
    requires '\0' !in s
    ensures CStr(s) == s
  {
  }

  /** Whatever `%s` prints is taken from the string, so it holds no character the string lacks. */
  lemma CStrChars(s: string, c: char)
    requires c !in s
    ensures c !in CStr(s)
  {
  }
}
