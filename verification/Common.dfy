/** Small result types shared by every component model. */
module Common {

  datatype Option<+T> = None | Some(value: T)

}
