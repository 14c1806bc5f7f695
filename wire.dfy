/** The values that cross the XPC connection between the service and the app. */
module Wire {
  import opened Wrappers

  /** A value of an `[String: Any]` dictionary, as far as the client inspects it. */
  datatype AnyValue = Str(s: string) | Int(i: int) | Other

  type Dictionary = map<string, AnyValue>

  /** `getPhotoSyncProgress` reply: files processed, files listed, and the current-file text. */
  datatype Progress = Progress(current: int, total: int, currentFile: string)

  /** The two arguments of a completion handler: a value or nil, and an error or nil. The
      error crosses as its localised description. */
  datatype Reply<T> = Reply(value: Option<T>, error: Option<string>)
}
