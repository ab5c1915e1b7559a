/** What a blocking `subprocess.run(..., capture_output=True, text=True, timeout=t)`
    call hands back to its caller. The model never starts a process: every such
    call is an input of the operation that makes it. */
module Process {

  datatype Outcome =
    | Completed(returncode: int, stdout: string, stderr: string)  // the process ran and exited
    | TimeoutExpired                                               // `subprocess.TimeoutExpired` was raised
    | Raised                                                       // any other exception (program not found, ...)

  /** Exit code 0. */
  predicate ExitedZero(o: Outcome) {
    o.Completed? && o.returncode == 0
  }

  /** A file the code reads: absent, present but failing to read (an
      exception from `read_text`), or present with its text. */
  datatype FileState =
    | Missing
    | Unreadable
    | Present(content: string)

  predicate Exists(f: FileState) {
    !f.Missing?
  }
}
