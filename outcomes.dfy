/** Values or the error check-sdist raises instead of returning. */
module Outcomes {

  /** The exceptions raised by the modelled code, one constructor per cause. */
  datatype Error =
      /** A configuration value is used as a table or a list of strings and is not one
          (Python raises AttributeError or TypeError). */
    | WrongType(key: string)
      /** A poetry exclude record selected for the SDist has no "path" (KeyError). */
    | MissingKey(key: string)
      /** An explicitly requested build backend that no branch handles (ValueError). */
    | UnknownBackend(backend: string)
      /** `sdist_files` asked for a build system it has no command for (NotImplementedError). */
    | UnsupportedBuildSystem(name: string)
      /** The archive's members do not share exactly one top-level directory (AssertionError). */
    | MultiplePackages(prefixes: set<string>)
      /** A file or symlink member has no `/` after its top-level directory (IndexError). */
    | NoPathAfterPrefix

  datatype Result<+T> = Ok(value: T) | Err(error: Error) {
    predicate IsFailure() {
      Err?
    }

    function PropagateFailure<U>(): Result<U>
      requires Err?
    {
      Err(error)
    }

    function Extract(): T
      requires Ok?
    {
      value
    }
  }

  datatype Option<+T> = None | Some(value: T)
}
