/** The "maybe absent" value the source expresses with `null` or an omitted argument. */
module Options {
  datatype Option<+T> = None | Some(value: T)
}
