/** The remote side as the checks see it. A host answers each command with its
    standard output or with an error; `executeRemoteCommand` (running.go:33-49,
    expectations.go:203-216) hands back the output with surrounding white space
    removed. The SSH channel itself is not part of this model. */
module Host {
  import opened Wrappers
  import opened Text

  /** The commands the checks issue; their shell text is immaterial here. */
  datatype Command =
    | Status(service: string)      // `status <name>`
    | ProcessDetail(pid: string)   // `ps -p <pid> -o user,pid,etime | tail -1`
    | PortHolder(port: int)        // `lsof -nP | grep :<port> | grep LISTEN | awk '{print $2}'`
    | ParentOf(pid: string)        // `cat /proc/<pid>/stat | awk '{print $4}'`
    | ProcessSearch(regex: string) // `ps ax -o user,pid,etime,command | grep '<regex>'`
    | ShellLine(cli: string)       // a shell probe's own command line

  datatype Reply = Stdout(text: string) | RunError(message: string)

  /** A host: what it answers to every command. */
  type Executor = Command -> Reply

  /** `executeRemoteCommand`: trimmed output, or the error's text. */
  function Execute(exec: Executor, c: Command): (r: Result<string, string>)
    ensures exec(c).RunError? <==> r.Err?
    ensures r.Err? ==> r.error == exec(c).message
    ensures r.Ok? ==> r.value == TrimSpace(exec(c).text)
  {
    match exec(c)
    case Stdout(text) => Ok(TrimSpace(text))
    case RunError(message) => Err(message)
  }
}
