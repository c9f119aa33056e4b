/** The free-style shell probe of shell.go: run a command line on the host
    and, when an output is expected, compare it with what came back. */
module Shell {
  import opened Wrappers
  import opened Text
  import opened Host

  datatype Shell = Shell(name: string, cli: string, expected: string)

  /** The errors the probe returns (`only(err)` and `onlyF(...)`). */
  datatype ShellError =
    | RunFailed(text: string)
    | OutputMismatch(actual: string, expected: string)

  function ErrorText(e: ShellError): string {
    match e
    case RunFailed(text) => text
    case OutputMismatch(actual, expected) =>
      "Could not match output of process: " + actual + " (expected " + expected + ")"
  }

  /** `Shell.CheckExpectation`: at most one error. An empty expected output
      switches the comparison off; otherwise the trimmed output must equal it. */
  function ShellCheck(sh: Shell, exec: Executor): (errs: seq<ShellError>)
    ensures |errs| <= 1
    ensures exec(ShellLine(sh.cli)).RunError? ==> errs == [RunFailed(exec(ShellLine(sh.cli)).message)]
    ensures sh.expected == "" ==> forall e :: e in errs ==> e.RunFailed?
    ensures exec(ShellLine(sh.cli)).Stdout? && errs != [] ==>
      errs == [OutputMismatch(TrimSpace(exec(ShellLine(sh.cli)).text), sh.expected)]
  {
    var response := Execute(exec, ShellLine(sh.cli));
    if response.Err? then [RunFailed(response.error)]
    else if sh.expected != "" && response.value != sh.expected then [OutputMismatch(response.value, sh.expected)]
    else []
  }

  /** The probe passes exactly when the command runs and either nothing is
      expected or the trimmed output is exactly what is expected. */
  lemma ShellPassesIff(sh: Shell, exec: Executor)
    ensures ShellCheck(sh, exec) == [] <==>
      var reply := exec(ShellLine(sh.cli));
      reply.Stdout? && (sh.expected == "" || TrimSpace(reply.text) == sh.expected)
  {
  }

  /** White space around the expected text in the raw output does not matter. */
  lemma {:induction false} PaddedOutputPasses(sh: Shell, exec: Executor, before: string, after: string)
    requires AllSpace(before) && AllSpace(after)
    requires sh.expected != [] && !IsSpace(sh.expected[0]) && !IsSpace(sh.expected[|sh.expected| - 1])
    requires exec(ShellLine(sh.cli)) == Stdout(before + sh.expected + after)
    ensures ShellCheck(sh, exec) == []
  {
    TrimPadded(before, sh.expected, after);
  }

  /** A mismatch names both the output and the expected text. */
  lemma MismatchNamesBoth(actual: string, expected: string)
    ensures Contains(ErrorText(OutputMismatch(actual, expected)), actual)
    ensures Contains(ErrorText(OutputMismatch(actual, expected)), expected)
  {
    var a := "Could not match output of process: ";
    var p := a + actual + " (expected ";
    ContainsSelf(actual);
    ContainsRight(a, actual, actual);
    ContainsLeft(a + actual, " (expected ", actual);
    ContainsLeft(p, expected, actual);
    ContainsLeft(p + expected, ")", actual);
    ContainsSelf(expected);
    ContainsRight(p, expected, expected);
    ContainsLeft(p + expected, ")", expected);
  }
}
