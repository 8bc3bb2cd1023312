/** The two result shapes the model uses for SQL NULL, "no rows" and Go error returns. */
module Options {
  datatype Option<+T> = None | Some(value: T)

  datatype Result<+T, +E> = Ok(value: T) | Err(error: E)
}
