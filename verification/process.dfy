/** External processes as the two script backends see them: the command they
    would start and what came back. Starting the process is not modelled; its
    outcome is an input. */
module Process {
  import opened Wrappers
  import opened Errors

  /** A program and its argument list, as given to `std::process::Command`. */
  datatype Command = Command(program: string, args: seq<string>)

  /** What running a command produced: it could not be started, or it exited
      with some status and standard-error text. */
  datatype Outcome =
    | SpawnFailed(error: IoError)
    | Exited(success: bool, stderr: string)

  /** How both script backends turn an outcome into their result: a failure to
      start converts through `From<io::Error>`, and an unsuccessful exit is a
      `SendFailed` that names the backend and carries the standard error. */
  function CheckExit(backend: string, o: Outcome): (r: Result<(), NotificationError>)
    ensures r.Ok? <==> o.Exited? && o.success
    ensures o.SpawnFailed? ==> r == Err(FromIo(o.error)) && r.error.Source() == Some(o.error)
    ensures o.Exited? && !o.success ==>
      r.Err? && r.error.SendFailed? && r.error.backend == backend && r.error.reason == o.stderr
  {
    match o
    case SpawnFailed(e) => Err(FromIo(e))
    case Exited(ok, stderr) =>
      if ok then Ok(()) else Err(SendFailed(backend, stderr))
  }
}
