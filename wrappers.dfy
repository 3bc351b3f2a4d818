/** Option, errors and the two-valued returns of the modelled Go functions. */
module Wrappers {

  /** Go's nil-or-present value: `None` stands for a nil map or pointer. */
  datatype Option<+T> = None | Some(value: T)

  /** The errors that cross the modelled functions. `MissingInput` is raised by the
      chains themselves; the other two come from collaborators outside this model
      and are passed on unchanged. */
  datatype Error =
    | MissingInput          // the input map has no "input" key
    | TemplateError(msg: string)
    | ModelError(msg: string)

  /** A value or an error, for collaborators whose value is meaningless on error. */
  datatype Result<+T> = Ok(value: T) | Err(error: Error)

  /** A Go `(output string, err error)` pair: the output is kept even when `err` is set. */
  datatype Answer = Answer(output: string, err: Option<Error>)

  /** A Go `(output map[string]string, err error)` pair. */
  datatype MapAnswer = MapAnswer(output: Option<map<string, string>>, err: Option<Error>)
}
