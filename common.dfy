/** Small result types shared by the kernel models. */
module Common {

  datatype Option<T> = None | Some(value: T)

  /** The result of a kernel routine that either returns normally or halts
      the machine with `panic(msg)`. */
  datatype Outcome<T> = Ok(value: T) | Panic(msg: string)
}
