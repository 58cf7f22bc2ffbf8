/** Small value wrappers shared by the whole model. */
module Wrappers {
  datatype Option<+T> = None | Some(value: T)

  /** How an operation that may throw ends: normally, or with the exception's message. */
  datatype Outcome = Completed | Threw(message: string)

  /** What an ImGui slider leaves in its variable: the value it was dragged to, or the old one. */
  function Moved<T>(v: T, slider: Option<T>): T
  {
    if slider.Some? then slider.value else v
  }

  /** `n` copies of `x`. */
  function Repeat<T>(x: T, n: nat): (s: seq<T>)
    ensures |s| == n && forall i | 0 <= i < n :: s[i] == x
  {
    if n == 0 then [] else [x] + Repeat(x, n - 1)
  }
}
