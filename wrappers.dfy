/** Option, Result and the kinds of error the plugins can end a run with. */
module Wrappers {

  datatype Option<+T> = None | Some(value: T)

  /** The kinds of failure behind the plugins' boxed error type. The details of
      library errors (I/O, HTTP, JSON) are not modelled and are carried as text. */
  datatype Error =
    | Io(detail: string)       // a std::io failure: metadata, open, create_dir_all, create, write
    | Clock                    // SystemTime::duration_since: the file is newer than `now`
    | Http(detail: string)     // the HTTP client's failure or a non-success status
    | Json(detail: string)     // serde_json could not read or write a value
    | Message(text: string)    // an error built from a formatted message
    | Panic(text: string)      // an `expect` that fails; the run stops here

  datatype Result<+T> = Ok(value: T) | Err(error: Error)
}
