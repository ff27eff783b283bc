/** The optional value used where the component tests a value for truthiness
    (the dialog's result) and where a reader may find nothing to read back:
    `SplitTimestamp`, `ProjectOf` and `MeetingOf`. */
module Wrappers {
  datatype Option<T> = None | Some(value: T)
}
