# hostchecker verification engine, modelled in Dafny

hostchecker checks that the services declared for a host are healthy. A
service is healthy when its process runs under the expected user, holds the
expected ports (itself or through its parent) and is not older than a bound.
HTTP endpoints must answer with an accepted status code and, optionally, an
exact body. Shell probes must print an expected output.

This project models the engine that does the checking:

- the elapsed-time parser of `util.go` (`Elapsed`, `ElapsedFacts`);
- the two output patterns of `services.go`, written as recognisers (`Recognisers`);
- the service checks of `services.go` (`Services`), with a worked example host
  (`ServiceExamples`);
- the per-host orchestration and the HTTP checks of `expectations.go`
  (`Expectations`, with `ResponseExamples`);
- the shell probe of `shell.go` (`Shell`);
- the failure records of `failures.go`, `failure/failures.go` and
  `responses.go` (`Failures`, `FailurePackage`, `Responses`).

The remote host is an `Executor`: a function from a command to its standard
output or an error. `Host.Execute` trims the output the way
`executeRemoteCommand` does. The web is a `Fetcher`: a function from a URL to
a transport error, or to a status code and a body (or the error from reading
it).

Every check returns the failures it found and the commands it issued, so
"stops early" and "no further command" can be stated. A failure carries a
structured `Reason`. `Failures.Message` renders the reason as the text the
program formats with `fmt.Sprintf`.

`Expectation` is a class, because the program updates its state in place.
`CheckServer` sets the SSH client, which the `channelOpen` field stands for.
The `Server`-propagation loop (expectations.go:47-56) ranges over the
expectations by value. It writes the server into the service and response
records through the pointers that the copy `e` holds, so the change is seen
through the original expectation. The model holds those records as values in
sequence fields of the `Expectation`, and the loop reassigns the fields. Its
loops are methods, each proved equal to a specification function (`RunAll`,
`ResponsesRun`, `ServerRun`, `UpstartWith`, `CustomWith`, `ResponsesWith`)
whose properties are proved as lemmas.

Three behaviours of the code that differ from what a reader might expect:

- **Aborts.** The elapsed-time parser calls `log.Fatalf` when the text has no
  `DD:DD` pair or the day count does not fit an `int`. This aborts the whole
  run; it is not a recoverable error that becomes one failure.
  - The model returns `Err` from `ParseElapsed`.
  - `Err` propagates through `CheckOld`, the service check, the service list
    and `CheckServer`.
  - Once a service check has aborted, the responses are not checked.
- **Bare seconds.** A bare seconds value such as `"45"` does not match the
  pattern, so the program aborts on it. It is not read as 45 seconds
  (`ElapsedFacts.BareSecondsRejected`).
- **Channel failures.** A failure to open the channel is a process abort in
  the code. It is not a reported failure. The channel itself is left out (see
  below).

## Model

| member | source | states |
|---|---|---|
| Host.Execute | running.go:45-48 | a command error is returned as an error carrying its text; otherwise the output comes back with surrounding white space removed |
| Text.TrimSpaceShape | running.go:48 | the trimmed text is the slice of the output between a white-space prefix and a white-space suffix, and has no white space at either end |
| Text.TrimPadded | running.go:48 | white space added around a text without border spaces is exactly what trimming removes |
| Text.TrimIdempotent | running.go:48 | trimming twice is trimming once |
| Elapsed.ClockAt | util.go:10 | `((\d{2}):)?(\d{2}):(\d{2})` matches at a position exactly when `DD:DD` is there; the match has two-digit fields and no days |
| Elapsed.MatchAt | util.go:10 | the match at a position is well-formed, and a `DD:DD` pair there always gives one |
| Elapsed.FindFrom | util.go:25-28 | a match found from a position is well-formed |
| Elapsed.Atoi | util.go:18-21 | a numeral converts exactly when its value fits in a 64-bit `int`, and then to that value |
| Elapsed.ToIntOrZero | util.go:14-23 | an absent group counts as 0, any other converts as `Atoi` does |
| Elapsed.Total | util.go:34-39 | both branches compute `days*86400 + hours*3600 + minutes*60 + seconds` with absent groups 0; an out-of-range day count aborts |
| Elapsed.ParseElapsed | util.go:25-42 | no match aborts with the program's message; otherwise the result is the total of the leftmost match |
| ElapsedFacts.MinutesSecondsMatch | util.go:28-32 | `MM:SS` is matched with minutes and seconds and no hours or days |
| ElapsedFacts.MinutesSeconds | util.go:36 | `MM:SS` gives `minutes*60 + seconds` |
| ElapsedFacts.HoursMatch | util.go:28-32 | `HH:MM:SS` is matched with hours, minutes and seconds, and the hours group is preferred |
| ElapsedFacts.HoursMinutesSeconds | util.go:36 | `HH:MM:SS` gives `hours*3600 + minutes*60 + seconds` |
| ElapsedFacts.DaysMatch | util.go:28-32 | `D-HH:MM:SS` is matched with all four groups |
| ElapsedFacts.DaysHoursMinutesSeconds | util.go:38 | `D-HH:MM:SS` gives `days*86400 + hours*3600 + minutes*60 + seconds` |
| ElapsedFacts.DaysOutOfRange | util.go:18-21 | a day count too large for `int` aborts with the conversion error |
| ElapsedFacts.MatchNeedsPair | util.go:10 | every match contains a `DD:DD` pair at or after where it starts |
| ElapsedFacts.FindNoneIff | util.go:25-27 | the scan from a position finds nothing exactly when no `DD:DD` pair occurs from there on |
| ElapsedFacts.FindFromLeftmost | util.go:25-28 | a match found from a position is the match at some later position, and no position before it matches: the scan finds the leftmost match |
| ElapsedFacts.RejectedIffNoPair | util.go:25-27 | a text is rejected for not matching exactly when it holds no `DD:DD` pair, and then the run aborts with the program's message |
| ElapsedFacts.BareSecondsRejected | util.go:25-27 | a bare `"45"` is rejected |
| ElapsedFacts.FieldsBelowHundred | util.go:10 | a parsed age has minute, second and (present) hour fields of two digits, each below 100 |
| ElapsedFacts.ExampleMinutes | util.go:36 | `"02:45"` gives 165 |
| ElapsedFacts.ExampleHours | util.go:36 | `"01:02:45"` gives 3765 |
| ElapsedFacts.ExampleDays | util.go:38 | `"3-01:02:45"` gives 262965 |
| Recognisers.StatusPid | services.go:10 | a pid found is a non-empty digit run that ends the text and is preceded by a non-digit |
| Recognisers.StatusPidComplete | services.go:35-36 | whatever match `([a-z-]+)[^\d]*(\d+)$` has, its group 2 is the pid returned |
| Recognisers.StatusPidSound | services.go:35-36 | a pid returned is group 2 of an actual match of the pattern |
| Recognisers.StatusMatchIff | services.go:32 | the pattern matches exactly when a pid is found |
| Recognisers.PsFields | services.go:11 | the fields found are three non-empty tokens without `\s` |
| Recognisers.PsFieldsSound | services.go:47-50 | the fields found are the three groups of a match of `([^\s]+)\s+([^\s]+)\s+([^\s]+)` at the leftmost start |
| Recognisers.PsFieldsComplete | services.go:47-50 | any text laid out like the pattern gives exactly those three groups |
| Recognisers.PsMatchIff | services.go:44 | the pattern matches exactly when three tokens are found |
| Recognisers.PsFieldsOfTokens | services.go:47-50 | `user pid etime` joined by single spaces reads back as user, pid and etime |
| Failures.Message | services.go:64-70 | the text `fmt.Sprintf` gives for each reason; an error's own text passes through unchanged; the `...Names` lemmas below state which arguments each message contains |
| Failures.Describe | failures.go:12-14 | the description is "On server ", the server, " the service ", the service name, " check failed with reason: " and the message, each at its own position |
| Failures.Render | failures.go:12-14 | the description of a failure contains its server, its service name and its reason's message |
| Failures.DescribeNamesFields | failures.go:13 | the description contains the server, the service name and the message |
| Failures.DescribeDecodes | failures.go:13 | given the lengths of server and service name, the description determines all three fields |
| Failures.ListingMismatchNames | services.go:33 | the listing-mismatch message contains the status output |
| Failures.DetailMismatchNames | services.go:45 | the process-analysis message contains the `ps` output |
| Failures.WrongUserNames | services.go:106 | the wrong-user message contains the actual and the expected user |
| Failures.TooOldNames | services.go:98 | the age message contains the bound and the age |
| Failures.PortFreeNames | services.go:78 | the free-port message contains the port |
| Failures.PortForeignNames | services.go:87-88 | the foreign-port message contains the port, the holder, its parent and the service pid |
| Failures.CodeMismatchNames | expectations.go:182 | the status message contains the status and the accepted codes |
| Failures.BodyMismatchNames | expectations.go:195 | the body message contains the body received and the one expected |
| FailurePackage.New | failure/failures.go:19-25 | the failure records the service name, the server and the error's text |
| FailurePackage.String | failure/failures.go:14-16 | the description is the root package's sentence, with server, service name and message in the same slots |
| FailurePackage.SameFormat | failure/failures.go:14-16 | the package's description is the same sentence as the root package's |
| FailurePackage.NewNamesArguments | failure/failures.go:14-16 | the description of a failure built by `New` contains all three arguments |
| Responses.NewFailure | responses.go:14-20 | the failure records the response's name and server and the given reason |
| Services.NewFailure | services.go:64-70 | the failure records the service's name and server and the given reason |
| Services.CheckUser | services.go:104-109 | fails exactly when the user differs (exact comparison), with a wrong-user reason naming both users |
| Services.CheckOld | services.go:94-102 | a bound of 0 never fails and does not read the age; otherwise an unreadable age aborts, and the check fails exactly when the age exceeds the bound |
| Services.PortCheck | services.go:74-89 | a port passes exactly when its holder is the service or the holder's parent is; an empty holder gives the free-port reason; a holder that is neither the service nor its child gives the foreign-port reason naming port, holder, parent and pid; an error from either command is reported with its own text; at most two commands |
| Services.PortsCheck | services.go:72-92 | no ports gives no failure and no command; at most two commands per port |
| Services.PortsCheckPassesIff | services.go:73-91 | `checkPorts` passes exactly when every port is held by the service or its child |
| Services.PortsCheckFirstFailure | services.go:75-88 | a failure is that of the first port not held, after every earlier port was held; the commands are those of the earlier ports, then those of that port |
| Services.PortsCheckAppend | services.go:73-91 | over leading ports that are all held, `checkPorts` goes on to the rest, after issuing their commands |
| Services.CheckPort | services.go:74-89 | the loop body computes `PortCheck` |
| Services.CheckPorts | services.go:72-92 | the loop with early return computes `PortsCheck` |
| Services.DiscoverUpstart | services.go:29-50 | discovery issues `status`, then `ps` for the pid found; it succeeds exactly when the status output names a pid and says "running" and the `ps` output has three tokens, and then gives user and etime; an error from either command is reported with its own text |
| Services.DiscoverCustom | services.go:119-128 | discovery issues one search; it succeeds exactly when the output has three tokens, and then the pid is the second token; a search error is reported with its own text; otherwise the reason is "not found" |
| Services.Subchecks | services.go:52-61 | the sub-checks give at most three failures, all about the service, and abort exactly when the age check does |
| Services.SubchecksVerdict | services.go:52-61 | the failures come in the order user, ports, age, and there are none exactly when the process is healthy |
| Services.Complete | services.go:28-62 | a failed discovery is the one failure; otherwise the sub-checks' failures follow, after the discovery commands |
| Services.CompleteVerdict | services.go:28-62 | the check passes exactly when discovery succeeds and the process is healthy, and aborts exactly when the age text is unreadable |
| Services.UpstartCheck | services.go:28-62 | the check reports no failure exactly when discovery succeeds and the process is healthy (right user, every port held, not too old); it aborts exactly when the age bound is set and the elapsed time cannot be read |
| Services.CustomCheck | services.go:118-140 | the same verdict for a custom service, with the process found by the search |
| Services.UpstartCheckShape | services.go:28-62 | at most three failures, all about the service; a failed discovery gives exactly one, and issues only `status` and `ps` |
| Services.CustomCheckShape | services.go:118-140 | at most three failures, all about the service |
| Services.UpstartEarlyStops | services.go:29-46 | no pid, not running, or a `ps` line without three tokens each give exactly one failure and no further command |
| Services.CustomNotFoundOnly | services.go:119-128 | a search output without three tokens gives exactly one "not found"; otherwise the sub-checks use the second token as the pid |
| Services.RunSubchecks | services.go:52-61 | the successive appends compute `Subchecks` |
| Services.CheckUpstart | services.go:28-62 | the method computes the Upstart check |
| Services.CheckCustom | services.go:118-140 | the method computes the custom check |
| ServiceExamples.DiscoversAlice | services.go:35-50 | status output "running 1234" and `ps` output "alice 1234 01:00:00" give pid 1234, user alice and etime 01:00:00 |
| ServiceExamples.OnlyUserFails | services.go:28-62 | on any host that answers a status line and a `ps` line, with no ports and an age within the bound, the check's only possible failure is the user's, after the two discovery commands |
| ServiceExamples.HealthyService | services.go:52-61 | with user alice, no ports and a bound of 7200, that host gives no failure |
| ServiceExamples.WrongUserOnly | services.go:52-61 | with user bob expected, that host gives exactly one wrong-user failure, and the port and age checks pass |
| ServiceExamples.WrongUserNamesBoth | services.go:106 | that failure's message contains "alice" and "bob" |
| Shell.ShellCheck | shell.go:15-23 | at most one error; a run error is the one error; an empty expected output never gives a mismatch; a mismatch names the trimmed output and the expected text |
| Shell.ErrorText | shell.go:20 | the text of each error: a run error's own text, or "Could not match output of process: <output> (expected <expected>)" |
| Shell.ShellPassesIff | shell.go:16-22 | the probe passes exactly when the command runs and nothing is expected or the trimmed output equals the expected text |
| Shell.PaddedOutputPasses | shell.go:16-19 | white space around the expected text in the raw output does not make the probe fail |
| Shell.MismatchNamesBoth | shell.go:20 | the mismatch message contains the output and the expected text |
| Expectations.ResponseCheck | expectations.go:168-198 | a transport error gives that error; a status not accepted gives the status failure; with a body expected, a read error is reported with its text and a different body gives the body failure naming both; the failure is about the response |
| Expectations.ResponsePassesIff | expectations.go:174-198 | a response passes exactly when the status is accepted and, if a body is expected, exactly that body arrived |
| Expectations.NoCodesAlwaysFail | expectations.go:174-184 | with no accepted codes every response fails |
| Expectations.BodyIgnoredOnBadCode | expectations.go:181-186 | when the status is rejected, the body does not affect the result |
| Expectations.CodeFound | expectations.go:174-180 | the flag loop finds the status exactly when it is among the codes |
| Expectations.ResponsesRun | expectations.go:165-199 | at most one failure per response |
| Expectations.ResponsesRunAppend | expectations.go:165-199 | checking two lists one after the other is checking their concatenation, so no response stops a later one |
| Expectations.RunAll | expectations.go:91-130 | an empty list gives no failure and no command |
| Expectations.RunAllOkIff | expectations.go:91-130 | a run completes exactly when no service check aborts |
| Expectations.RunAllAppend | expectations.go:91-130 | running two service lists in sequence is running their concatenation: an abort stops the rest, otherwise the results join in order |
| Expectations.RunAllStep | expectations.go:91-130 | each further service either aborts the run or appends its failures and commands |
| Expectations.RunAllSplit | expectations.go:91-130 | in a completed run, each service's failures sit between those of the services before it and those after it |
| Expectations.RunAllOnServer | expectations.go:91-130 | when every service's failures are about one server, so are the run's |
| Expectations.ServerRun | expectations.go:79-81 | the run aborts exactly when a service list aborts |
| Expectations.NoServicesNoCommands | expectations.go:86-88 | with no services no command is sent, and the result is that of the responses alone |
| Expectations.ServerRunOnServer | expectations.go:47-57 | once the server is propagated, every failure reported names the expectation's server |
| Expectations.UpstartWith | expectations.go:48-50 | the list keeps its length, and each service is the old one with the given server |
| Expectations.CustomWith | expectations.go:51-53 | the list keeps its length, and each custom service is the old one with the given server |
| Expectations.ResponsesWith | expectations.go:54-56 | the list keeps its length, and each response is the old one with the given server |
| Expectations.PropagationIdempotent | expectations.go:47-57 | handing the same server down twice changes nothing the second time |
| Expectations.HandUpstart | expectations.go:48-50 | the first propagation loop computes `UpstartWith` |
| Expectations.HandCustom | expectations.go:51-53 | the second propagation loop computes `CustomWith` |
| Expectations.HandResponses | expectations.go:54-56 | the third propagation loop computes `ResponsesWith` |
| Expectations.Expectation.DemandsSSH | expectations.go:86-88 | an expectation needs the command channel exactly when it has an Upstart or a custom service; responses alone never do |
| Expectations.Expectation.constructor | expectations.go:24-33 | a new expectation holds the given settings, with no channel open |
| Expectations.Expectation.CheckUpstartServices | expectations.go:90-132 | the loop computes `RunAll` over the Upstart services |
| Expectations.Expectation.CheckCustomServices | expectations.go:134-162 | the loop computes `RunAll` over the custom services |
| Expectations.Expectation.CheckResponses | expectations.go:164-201 | the loop computes `ResponsesRun` |
| Expectations.Expectation.CheckServer | expectations.go:62-84 | the result is upstart, then custom, then response failures (`ServerRun`); the channel is opened exactly when a service demands it; nothing else changes |
| Expectations.Expectation.PropagateServer | expectations.go:48-56 | the new state is the old one handed down (`HandedDown`): each list is the old list with the expectation's server in every record, and server, user, password and channel are unchanged; afterwards every record names the server |
| Expectations.CheckResponse | expectations.go:166-198 | one iteration of the response loop computes `ResponseCheck` |
| Expectations.PropagateServers | expectations.go:47-57 | for every expectation in the list, each service and response list is its old value with the expectation's server in every record, and server, user, password and channel are unchanged; an expectation listed twice ends the same as if listed once; afterwards every expectation is propagated |
| ResponseExamples.AcceptedCode | expectations.go:174-184 | accepted codes {200}, no body expected, status 200: no failure |
| ResponseExamples.RejectedCode | expectations.go:174-184 | accepted codes {200}, status 503: exactly one status failure, naming 503 and [200] |

## Left out

- The SSH plumbing is not modelled: dialing, sessions, closing the client, and `log.Fatal` when dialing fails (running.go, expectations.go:65-77, expectations.go:203-216). The host is the `Executor` function, and `channelOpen` stands for `sshClient` being set.
- The shell text of each command is not modelled. Commands are an opaque datatype, and the error text an executor returns is taken as given.
- `http.Get` and `ioutil.ReadAll` are replaced by the `Fetcher` function, so closing the response body is not modelled.
- Reading and unmarshalling the JSON file is not modelled (expectations.go:36-46). Only the `Server`-propagation loop is.
- The `fmt.Printf` progress lines are not modelled, nor the numbered printing and exit status in `main.go` and `cmd/main/main.go`.
- `Services.CheckOld` and `Elapsed.Total` use unbounded integers. They do not model 64-bit wrap-around of `days*86400 + ...`; no realistic uptime reaches it.
- `Failures.Reported`: the program passes an error's text to `Sprintf` as the format itself (services.go:31, services.go:76, expectations.go:95). A `%` in that text would be rewritten by `fmt`. The model keeps the text verbatim.
- `Text.IsSpace`: characters are treated as Unicode code points. UTF-8 decoding of invalid byte sequences is not modelled.
- The `fmt.Stringer` and `error` arguments of `FailurePackage.New` are the texts their methods return.
- `Services.UpstartService` stands for `Service` (expectations.go:28), whose declaration is not part of this model; it is used as the Upstart service type.
- `checkUpstartServices` and `checkCustomServices` repeat the steps of `CheckExpectation` inline (expectations.go:91-160). The model uses one definition for both.
- `Shell.ShellCheck`: `only` and `onlyF` are not part of this model; they are taken to return one-element error lists. The shell probe is not part of an `Expectation` in this code and is modelled on its own.
- `remote.go` and `comm.go` are not part of this model. They are older copies of the check loops.
- `Expectations.Expectation`: services and responses are values held in sequence fields, so aliasing between the pointers of one expectation and another is not modelled.
- The `log.Fatal` aborts are results (`Err`), not process exits. A run that aborts reports no failure list; the abort's message is its value.
