/** Small value types shared by every module of the model. */
module Base {

  /** A value that may be absent: Go's nil pointer or an empty single-slot channel. */
  datatype Option<+T> = None | Some(value: T)

  /** How a call into the modelled code ends. `Panic` is a Go panic carrying its
      message; `OutOfFuel` means the model's step budget ran out before a drain
      loop emptied its queue (the Go loop would still be running). */
  datatype Outcome<+T> = Ok(value: T) | Panic(msg: string) | OutOfFuel
}
