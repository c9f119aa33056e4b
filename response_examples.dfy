/** The status allow-list at work on one response: accepted codes {200}, no
    expected body. */
module ResponseExamples {
  import opened Wrappers
  import opened Text
  import opened Failures
  import opened Responses
  import opened Expectations

  function Health(): Response {
    Response(name := "health", url := "http://host1/health", codes := [200], response := "", server := "host1")
  }

  /** A web that answers every GET with the given status and an empty body. */
  function AnswersWith(status: int): Fetcher {
    (url: string) => Answer(status, Ok(""))
  }

  /** Status 200 is accepted and, with no body expected, nothing is reported. */
  lemma AcceptedCode()
    ensures ResponsesRun([Health()], AnswersWith(200)) == []
  {
    ResponsePassesIff(Health(), AnswersWith(200));
    assert [Health()][..0] == [];
  }

  /** Status 503 gives exactly one failure, naming 503 and the accepted codes. */
  lemma RejectedCode()
    ensures ResponsesRun([Health()], AnswersWith(503))
         == [Responses.NewFailure(Health(), CodeMismatch(503, [200]))]
    ensures Contains(Message(CodeMismatch(503, [200])), IntToString(503))
    ensures Contains(Message(CodeMismatch(503, [200])), FormatInts([200]))
  {
    assert 503 !in [200];
    assert [Health()][..0] == [];
    CodeMismatchNames(503, [200]);
  }
}
