/** An optional value: `None` stands for JavaScript's `undefined` (an absent field). */
module Optional {

  datatype Option<+T> = None | Some(value: T)
}
