/** What the program sees of an external process (`run_command`), and the
    errors the program raises as `RuntimeError`. */
module Gateway {

  /** The result of one finished external process: its exit status and the
      text it wrote. Only the listing's output is read; whatever the other
      commands write is ignored. */
  datatype ProcessResult = ProcessResult(status: int, stdout: string, stderr: string)

  /** The program's `RuntimeError`s. */
  datatype Error =
    | MissingDependency(binary: string)   // `_require_binary`: not on PATH
    | DeviceQueryFailed(detail: string)   // `adb devices` exited nonzero
    | StayAwakeSetFailed                  // `settings put` exited nonzero
}
