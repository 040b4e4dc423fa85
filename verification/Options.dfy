/** An optional value, for the `null`, `undefined` and `NaN` results of the modelled code. */
module Options {
  datatype Option<+T> = None | Some(value: T)
}
