/** A value that may be absent: stands for a JavaScript field that is `undefined`,
    or a response that is `null` because the HTTP call failed. */
module Wrappers {

  datatype Option<+T> = None | Some(value: T)

  /** JavaScript `n || d` for a number: a missing value or 0 is falsy. */
  function NumberOr(n: Option<int>, d: int): int {
    if n.Some? && n.value != 0 then n.value else d
  }

  /** JavaScript `s || d` for a string: a missing value or "" is falsy. */
  function StringOr(s: Option<string>, d: string): string {
    if s.Some? && s.value != "" then s.value else d
  }
}
