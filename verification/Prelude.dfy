/** The few general-purpose types the other modules share. */
module Prelude {

  /** A value the source may answer as `null` or `undefined`. */
  datatype Option<+T> = None | Some(value: T)

  type Byte = b: int | 0 <= b < 0x100

  function Min(a: int, b: int): int { if a <= b then a else b }

  function Max(a: int, b: int): int { if a >= b then a else b }

  function MinR(a: real, b: real): real { if a <= b then a else b }

  function MaxR(a: real, b: real): real { if a <= b then b else a }

  /** `list.indexOf(x)` */
  function IndexOf<T(==)>(list: seq<T>, x: T): (i: int)
    ensures -1 <= i < |list|
    ensures if i >= 0 then list[i] == x && x !in list[..i] else x !in list
  {
    if list == [] then -1
    else if list[0] == x then 0
    else var i := IndexOf(list[1..], x); if i < 0 then -1 else i + 1
  }

  /** JavaScript's white space and line terminators. */
  predicate IsSpace(c: char) {
    '\t' <= c <= '\r' || c == ' ' || c == '\U{A0}' || c == '\U{1680}' || '\U{2000}' <= c <= '\U{200A}'
        || c == '\U{2028}'
    || c == '\U{2029}' || c == '\U{202F}' || c == '\U{205F}' || c == '\U{3000}' || c == '\U{FEFF}'
  }

  /** `s.trim()` */
  function Trim(s: string): string {
    if s == "" then s
    else if IsSpace(s[0]) then Trim(s[1..])
    else if IsSpace(s[|s| - 1]) then Trim(s[..|s| - 1])
    else s
  }
}
