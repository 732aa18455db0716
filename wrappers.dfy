/** Option and Result, the two wrappers the model uses for Java's null and for thrown exceptions. */
module Wrappers {

  /** `None` stands for a Java `null`. */
  datatype Option<+T> = None | Some(value: T)

  /** `Err` stands for an exception, carrying the text the source would report. */
  datatype Result<+T, +E> = Ok(value: T) | Err(error: E)
}
