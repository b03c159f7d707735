// The few built-in values and functions of the source language that several
// modules need.
module JavaScript {

  const MAX_SAFE_INTEGER: int := 9007199254740991

  function Max(a: int, b: int): int {
    if a < b then b else a
  }

  function Min(a: int, b: int): int {
    if a < b then a else b
  }

  /** The white space that `trim` removes. */
  predicate IsSpace(c: char) {
    || c in "\t\n\r \U{B}\U{C}\U{A0}\U{1680}\U{2028}\U{2029}\U{202F}\U{205F}\U{3000}\U{FEFF}"
    || '\U{2000}' <= c <= '\U{200A}'
  }

  /** Nothing is left after `trim`. */
  predicate Blank(key: string) {
    forall i :: 0 <= i < |key| ==> IsSpace(key[i])
  }
}
