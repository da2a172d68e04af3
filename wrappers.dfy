/** The nullable references of the widgets (`cachedCurrentlyPlaying`, `artImage`,
    `accessToken`, `cachedQuery`, ...) are modelled as options. */
module Wrappers {

  datatype Option<+T> = None | Some(value: T)

  /** How a step of the source ends: normally, or by an exception the step's own
      code raises (a null dereference, an index past the end of a list or array,
      or a colour channel outside 0..255 given to `Color.FromArgb`). `IndexPastEnd`
      stands for both `ArgumentOutOfRangeException`, which a `List<T>` indexer
      throws, and `IndexOutOfRangeException`, which an array access throws. */
  datatype Fault = NullReference | IndexPastEnd | InvalidArgument

  datatype Outcome = Completed | Threw(fault: Fault)
}
