/** An optional value: what TypeScript writes as `T | undefined` or `T | null`. */
module Optional {
  datatype Option<T> = None | Some(value: T)
}
