/** Types shared by the controllers. */
module Common {

  datatype Option<+T> = None | Some(value: T)

  datatype CmdType = READ | WRITE
}
