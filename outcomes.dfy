/** Values and errors shared by the other modules. */
module Outcomes {

  datatype Option<+T> = None | Some(value: T)

  /** The exceptions raised by the builder, one constructor per raise site.
      IOError: WhereMissing, CommandMissing, SourceMissing.
      ValueError: NoRedirectStream, MissingRequired, UnknownKey, NotSshConfig.
      InvalidContextError: InvalidContext. */
  datatype Error =
    | WhereMissing(path: string)
    | CommandMissing(path: string)
    | SourceMissing(path: string)
    | NoRedirectStream
    | MissingRequired(key: string)
    | UnknownKey(key: string)
    | NotSshConfig
    | InvalidContext

  datatype Result<+T> = Ok(value: T) | Err(error: Error)

  datatype Outcome = Pass | Fail(error: Error)
}
