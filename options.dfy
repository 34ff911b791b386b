/** An optional value, used where the source either produces a value or
    signals that there is none (a `NaN` parse, a thrown error). */
module Options {
  datatype Option<T> = None | Some(value: T)
}
