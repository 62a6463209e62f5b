/** What every model here uses: an optional value and a few integer functions. */
module Wrappers {

  datatype Option<+T> = None | Some(value: T)

  /** The next state of a step that needs no more than its guard. */
  function Guard<T>(enabled: bool, next: T): Option<T> {
    if enabled then Some(next) else None
  }

  function One(b: bool): nat {
    if b then 1 else 0
  }

  function Min(a: int, b: int): int {
    if a < b then a else b
  }

  function Max(a: int, b: int): int {
    if a < b then b else a
  }
}
