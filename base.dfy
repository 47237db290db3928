/** Values shared by the whole model: optional values, the Python exceptions that end
    a run of ozinfo2yaml.py, and results that carry either a value or one of them. */
module Base {

  datatype Option<T> = None | Some(value: T)

  /** The exceptions the script lets escape; each one ends the run. */
  datatype Error =
      /** `int()` rejected a level or use-flag field of the ozinfo table. */
    | ValueError(literal: string)
      /** `diagfiles[0]` on an empty directory listing (an IndexError in Python). */
    | NoDiagFiles
      /** `tmpsuffix[-2]` on an example basename without a '.' (an IndexError in Python). */
    | NoDotInName(basename: string)
      /** numpy fancy indexing of `obuse` or `layer` past their end (an IndexError in Python). */
    | LevelIndexError(sensor: string)
      /** An undefined name read at run time. */
    | NameError(name: string)

  datatype Result<T> = Ok(value: T) | Err(error: Error)
}
