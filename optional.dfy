/** An optional value: `None` stands for the empty string or the null reference of the components. */
module Optional {

  datatype Option<+T> = None | Some(value: T)

}
