/** The optional command-line values of the tool: a token symbol and a date cutoff. */
module Options {

  /** A value that may be absent, as an unset command-line option is. */
  datatype Option<+T> = None | Some(value: T)

}
