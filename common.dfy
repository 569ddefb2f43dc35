/** Option and Result, the two failure-carrying shapes every other module uses. */
module Common {

  datatype Option<+T> = None | Some(value: T)

  datatype Result<+T, +E> = Ok(value: T) | Err(error: E)

  /** The prefix that marks an anonymous, machine-derived distinct id. */
  const DevicePrefix: string := "$device:"

  predicate StartsWith(s: string, prefix: string) {
    |prefix| <= |s| && s[..|prefix|] == prefix
  }
}
