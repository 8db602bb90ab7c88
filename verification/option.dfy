/** An optional value: `None` stands for JavaScript's `null`/`undefined` (and, where
    a value is only ever tested for truthiness, for any falsy value). */
module Optional {
  datatype Option<T> = None | Some(value: T)
}
