/** Option, the error kinds a weather lookup can end in, and Result. */
module Results {

  datatype Option<+T> = None | Some(value: T)

  /** The ways a call to a provider can fail. The source raises these as
      untyped error values; the model gives each its own variant. */
  datatype Error =
    | Transport                 // the request could not be sent or its body read
    | HttpStatus(code: int)     // the server answered with a 4xx or 5xx status
    | Vendor(info: string)      // the body is the vendor's error envelope
    | Schema                    // the body is not JSON, or not the expected shape
    | InvalidResponse           // the shape is right but there is no description

  datatype Result<+T> = Ok(value: T) | Err(error: Error)
}
