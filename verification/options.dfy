/** An optional value. It stands for JavaScript's `undefined` (a missing
    message field, an unset player role) and for the `-1` empty-slot marker. */
module Options {

  datatype Option<+T> = None | Some(value: T)

}
