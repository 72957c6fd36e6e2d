/** Identifiers and small datatypes shared by the modules of this project. */
module Base {
  datatype Option<+T> = None | Some(value: T)

  // Names are opaque: the code only ever compares them for equality.
  type Name = nat
  type TaskId = Name
  type HostId = Name
  type AgentId = Name
  type Path = Name

  // A clock reading, in milliseconds.
  type Time = int

  type Byte = bv8
  type Bytes = seq<Byte>

  const NEWLINE: Byte := 10

  function Elements<T>(s: seq<T>): set<T> {
    set x | x in s
  }
}
