/** Types shared by the syntax tree and the resolved graph. */
module Basics {

  datatype Option<+T> = None | Some(value: T)

  datatype Direction = Undirected | In | Out | InOut
}
