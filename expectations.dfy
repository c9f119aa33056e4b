/** expectations.go: one host's expectations, checked list by list. Services
    are checked through the host's command channel, responses over HTTP. */
module Expectations {
  import opened Wrappers
  import opened Text
  import opened Failures
  import opened Host
  import opened Services
  import opened Responses

  // ------------------------------------------------------------- HTTP

  /** What `http.Get` gave: a transport error, or a status code and the body
      as `ioutil.ReadAll` read it (or its error). */
  datatype HttpReply =
    | TransportError(message: string)
    | Answer(status: int, body: Result<string, string>)

  /** The web as the checks see it: the reply to a GET of each URL. */
  type Fetcher = string -> HttpReply

  /** One iteration of the loop in `checkResponses`: the status code must be
      one of the accepted ones, and only then is the body read and compared,
      when a body is expected. */
  function ResponseCheck(r: Response, fetch: Fetcher): (f: Option<Failure>)
    ensures f.Some? ==> f.value.serviceName == r.name && f.value.server == r.server
    ensures fetch(r.url).TransportError? ==> f == Some(Responses.NewFailure(r, Reported(fetch(r.url).message)))
    ensures fetch(r.url).Answer? && fetch(r.url).status !in r.codes ==>
      f == Some(Responses.NewFailure(r, CodeMismatch(fetch(r.url).status, r.codes)))
    ensures fetch(r.url).Answer? && fetch(r.url).status in r.codes && r.response != "" ==>
      var body := fetch(r.url).body;
      && (body.Err? ==> f == Some(Responses.NewFailure(r, Reported(body.error))))
      && (body.Ok? && body.value != r.response ==>
            f == Some(Responses.NewFailure(r, BodyMismatch(body.value, r.response))))
  {
    match fetch(r.url)
    case TransportError(message) => Some(Responses.NewFailure(r, Reported(message)))
    case Answer(status, body) =>
      if status !in r.codes then Some(Responses.NewFailure(r, CodeMismatch(status, r.codes)))
      else if r.response != "" then
        match body
        case Err(message) => Some(Responses.NewFailure(r, Reported(message)))
        case Ok(data) => if data != r.response then Some(Responses.NewFailure(r, BodyMismatch(data, r.response))) else None
      else None
  }

  /** A response passes exactly when it arrives with an accepted code and,
      if a body is expected, exactly that body. */
  lemma ResponsePassesIff(r: Response, fetch: Fetcher)
    ensures ResponseCheck(r, fetch).None? <==>
      && fetch(r.url).Answer? && fetch(r.url).status in r.codes
      && (r.response == "" || fetch(r.url).body == Ok(r.response))
  {
  }

  /** With no accepted code every response fails, whatever its body. */
  lemma NoCodesAlwaysFail(r: Response, fetch: Fetcher)
    requires r.codes == []
    ensures ResponseCheck(r, fetch).Some?
  {
  }

  /** The body is never looked at when the code is rejected: two replies that
      differ only in their body give the same result. */
  lemma BodyIgnoredOnBadCode(r: Response, fetch1: Fetcher, fetch2: Fetcher)
    requires fetch1(r.url).Answer? && fetch2(r.url).Answer?
    requires fetch1(r.url).status == fetch2(r.url).status
    requires fetch1(r.url).status !in r.codes
    ensures ResponseCheck(r, fetch1) == ResponseCheck(r, fetch2)
  {
  }

  /** The flag loop of `checkResponses`: whether the status is an accepted code. */
  method CodeFound(codes: seq<int>, status: int) returns (found: bool)
    ensures found <==> status in codes
  {
    found := false;
    var i := 0;
    while i < |codes|
      invariant 0 <= i <= |codes|
      invariant !found && status !in codes[..i]
    {
      if codes[i] == status {
        found := true;
        break;
      }
      i := i + 1;
    }
    assert found || codes[..i] == codes;
  }

  /** The failures of a list of responses, in list order, one at most for each. */
  function ResponsesRun(rs: seq<Response>, fetch: Fetcher): (failures: seq<Failure>)
    ensures |failures| <= |rs|
  {
    if rs == [] then []
    else ResponsesRun(rs[..|rs| - 1], fetch) + AsSeq(ResponseCheck(rs[|rs| - 1], fetch))
  }

  /** Checking two lists one after the other is checking their concatenation:
      no response keeps a later one from being checked. */
  lemma {:induction false} ResponsesRunAppend(a: seq<Response>, b: seq<Response>, fetch: Fetcher)
    ensures ResponsesRun(a + b, fetch) == ResponsesRun(a, fetch) + ResponsesRun(b, fetch)
  {
    if b != [] {
      var last := b[|b| - 1];
      assert (a + b)[..|a + b| - 1] == a + b[..|b| - 1];
      ResponsesRunAppend(a, b[..|b| - 1], fetch);
    } else {
      assert a + b == a;
    }
  }

  // ------------------------------------------------------------- service lists

  /** Every check of a list, in order; the failures and commands of each
      follow those of the ones before. `Err` is the run aborting, and no
      later item is checked after it. */
  function RunAll<T>(items: seq<T>, check: T -> Result<Checked, string>): (r: Result<Checked, string>)
    ensures items == [] ==> r == Ok(Checked([], []))
  {
    if items == [] then Ok(Checked([], []))
    else
      var before :- RunAll(items[..|items| - 1], check);
      var last :- check(items[|items| - 1]);
      Ok(Checked(before.failures + last.failures, before.issued + last.issued))
  }

  /** Joins two successful runs. */
  function Join(a: Checked, b: Checked): (c: Checked)
    ensures |c.failures| == |a.failures| + |b.failures| && |c.issued| == |a.issued| + |b.issued|
  {
    Checked(a.failures + b.failures, a.issued + b.issued)
  }

  /** Running two lists one after the other is running their concatenation:
      an abort in the first is the abort of the whole and stops the second;
      otherwise an abort in the second is; otherwise the results join. */
  lemma {:induction false} RunAllAppend<T>(a: seq<T>, b: seq<T>, check: T -> Result<Checked, string>)
    ensures RunAll(a, check).Err? ==> RunAll(a + b, check) == RunAll(a, check)
    ensures RunAll(a, check).Ok? && RunAll(b, check).Err? ==> RunAll(a + b, check) == RunAll(b, check)
    ensures RunAll(a, check).Ok? && RunAll(b, check).Ok? ==>
      RunAll(a + b, check) == Ok(Join(RunAll(a, check).value, RunAll(b, check).value))
  {
    if b == [] {
      assert a + b == a;
      if RunAll(a, check).Ok? {
        var x := RunAll(a, check).value;
        assert x.failures + [] == x.failures && x.issued + [] == x.issued;
      }
    } else {
      var init := b[..|b| - 1];
      var x := b[|b| - 1];
      InitOfAppend(a, b);
      RunAllLast(a + b, check);
      RunAllAppend(a, init, check);
      if RunAll(a, check).Ok? {
        RunAllLast(b, check);
        if RunAll(init, check).Ok? && check(x).Ok? {
          var p, q, r := RunAll(a, check).value, RunAll(init, check).value, check(x).value;
          assert (p.failures + q.failures) + r.failures == p.failures + (q.failures + r.failures);
          assert (p.issued + q.issued) + r.issued == p.issued + (q.issued + r.issued);
        }
      }
    }
  }

  /** The run of a non-empty list: that of all but the last item, then the last. */
  lemma RunAllLast<T>(items: seq<T>, check: T -> Result<Checked, string>)
    requires items != []
    ensures var before := RunAll(items[..|items| - 1], check);
      var last := check(items[|items| - 1]);
      RunAll(items, check)
      == if before.Err? then before
         else if last.Err? then Err(last.error)
         else Ok(Join(before.value, last.value))
  {
  }

  /** One more item: its abort is the run's; otherwise its result joins on. */
  lemma RunAllStep<T>(items: seq<T>, check: T -> Result<Checked, string>, i: nat)
    requires i < |items| && RunAll(items[..i], check).Ok?
    ensures check(items[i]).Err? ==> RunAll(items, check) == Err(check(items[i]).error)
    ensures check(items[i]).Ok? ==>
      RunAll(items[..i + 1], check) == Ok(Join(RunAll(items[..i], check).value, check(items[i]).value))
  {
    assert items[..i + 1][..i] == items[..i];
    assert items[..i + 1][i] == items[i];
    if check(items[i]).Err? {
      RunAllAppend(items[..i + 1], items[i + 1..], check);
      assert items[..i + 1] + items[i + 1..] == items;
    }
  }

  /** A run completes exactly when no item's check aborts. */
  lemma {:induction false} RunAllOkIff<T>(items: seq<T>, check: T -> Result<Checked, string>)
    ensures RunAll(items, check).Ok? <==> forall i :: 0 <= i < |items| ==> check(items[i]).Ok?
  {
    if items != [] {
      var init := items[..|items| - 1];
      RunAllOkIff(init, check);
      assert forall i :: 0 <= i < |init| ==> init[i] == items[i];
    }
  }

  /** A one-item run is that item's check. */
  lemma RunAllSingle<T>(x: T, check: T -> Result<Checked, string>)
    ensures RunAll([x], check) == check(x)
  {
    assert [x][..0] == [] && [x][0] == x;
    if check(x).Ok? {
      var c := check(x).value;
      assert [] + c.failures == c.failures && [] + c.issued == c.issued;
    }
  }

  /** A successful run of a concatenation is made of two successful runs. */
  lemma RunAllOkSplits<T>(a: seq<T>, b: seq<T>, check: T -> Result<Checked, string>)
    requires RunAll(a + b, check).Ok?
    ensures RunAll(a, check).Ok? && RunAll(b, check).Ok?
    ensures RunAll(a + b, check).value.failures == RunAll(a, check).value.failures + RunAll(b, check).value.failures
  {
    RunAllAppend(a, b, check);
  }

  /** Where the failures of one item sit among those of a successful run:
      after those of the items before it and before those of the items after. */
  lemma RunAllSplit<T>(before: seq<T>, x: T, after: seq<T>, check: T -> Result<Checked, string>)
    requires RunAll(before + [x] + after, check).Ok?
    ensures RunAll(before, check).Ok? && check(x).Ok? && RunAll(after, check).Ok?
    ensures RunAll(before + [x] + after, check).value.failures
         == RunAll(before, check).value.failures + check(x).value.failures + RunAll(after, check).value.failures
  {
    RunAllOkSplits(before + [x], after, check);
    RunAllOkSplits(before, [x], check);
    RunAllSingle(x, check);
  }

  /** When every item's failures are about one server, so are the run's. */
  lemma {:induction false} RunAllOnServer<T>(items: seq<T>, check: T -> Result<Checked, string>, server: string)
    requires forall i :: 0 <= i < |items| && check(items[i]).Ok? ==>
      forall f :: f in check(items[i]).value.failures ==> f.server == server
    ensures RunAll(items, check).Ok? ==>
      forall f :: f in RunAll(items, check).value.failures ==> f.server == server
  {
    if items != [] {
      var init := items[..|items| - 1];
      assert forall i :: 0 <= i < |init| ==> init[i] == items[i];
      RunAllOnServer(init, check, server);
    }
  }

  function UpstartChecks(exec: Executor): UpstartService -> Result<Checked, string> {
    s => UpstartCheck(s, exec)
  }

  function CustomChecks(exec: Executor): CustomService -> Result<Checked, string> {
    c => CustomCheck(c, exec)
  }

  /** `CheckServer` on the lists of one expectation: upstart failures, then
      custom failures, then response failures. Responses are checked only if
      no service check aborted the run. */
  function ServerRun(ups: seq<UpstartService>, cus: seq<CustomService>, rs: seq<Response>,
                     exec: Executor, fetch: Fetcher): (r: Result<Checked, string>)
    ensures r.Err? <==> RunAll(ups, UpstartChecks(exec)).Err? || RunAll(cus, CustomChecks(exec)).Err?
  {
    var u :- RunAll(ups, UpstartChecks(exec));
    var c :- RunAll(cus, CustomChecks(exec));
    Ok(Checked(u.failures + c.failures + ResponsesRun(rs, fetch), u.issued + c.issued))
  }

  /** Without a service to check no command is sent: the result is that of
      the responses alone, whatever the host would answer. */
  lemma NoServicesNoCommands(rs: seq<Response>, exec1: Executor, exec2: Executor, fetch: Fetcher)
    ensures ServerRun([], [], rs, exec1, fetch) == ServerRun([], [], rs, exec2, fetch)
         == Ok(Checked(ResponsesRun(rs, fetch), []))
  {
    assert [] + [] + ResponsesRun(rs, fetch) == ResponsesRun(rs, fetch);
  }

  predicate UpstartOn(ups: seq<UpstartService>, server: string) {
    forall i :: 0 <= i < |ups| ==> ups[i].server == server
  }

  predicate CustomOn(cus: seq<CustomService>, server: string) {
    forall i :: 0 <= i < |cus| ==> cus[i].base.server == server
  }

  predicate ResponsesOn(rs: seq<Response>, server: string) {
    forall i :: 0 <= i < |rs| ==> rs[i].server == server
  }

  /** The services of a list, each handed the given server. */
  function UpstartWith(ups: seq<UpstartService>, server: string): (r: seq<UpstartService>)
    ensures |r| == |ups| && UpstartOn(r, server)
    ensures forall i :: 0 <= i < |r| ==> r[i] == ups[i].(server := server)
  {
    if ups == [] then [] else [ups[0].(server := server)] + UpstartWith(ups[1..], server)
  }

  /** The custom services of a list, each handed the given server. */
  function CustomWith(cus: seq<CustomService>, server: string): (r: seq<CustomService>)
    ensures |r| == |cus| && CustomOn(r, server)
    ensures forall i :: 0 <= i < |r| ==> r[i] == cus[i].(base := cus[i].base.(server := server))
  {
    if cus == [] then []
    else [cus[0].(base := cus[0].base.(server := server))] + CustomWith(cus[1..], server)
  }

  /** The responses of a list, each handed the given server. */
  function ResponsesWith(rs: seq<Response>, server: string): (r: seq<Response>)
    ensures |r| == |rs| && ResponsesOn(r, server)
    ensures forall i :: 0 <= i < |r| ==> r[i] == rs[i].(server := server)
  {
    if rs == [] then [] else [rs[0].(server := server)] + ResponsesWith(rs[1..], server)
  }

  /** The state of one expectation, as a value. */
  datatype Fields = Fields(server: string, user: string, password: string,
                           upstartServices: seq<UpstartService>, customServices: seq<CustomService>,
                           responses: seq<Response>, channelOpen: bool)

  /** The propagation loop's effect on one expectation: its server handed
      down to every service and response, nothing else changed. */
  function HandedDown(f: Fields): Fields {
    f.(upstartServices := UpstartWith(f.upstartServices, f.server),
       customServices := CustomWith(f.customServices, f.server),
       responses := ResponsesWith(f.responses, f.server))
  }

  /** Handing the same server down twice changes nothing the second time. */
  lemma PropagationIdempotent(f: Fields)
    ensures HandedDown(HandedDown(f)) == HandedDown(f)
  {
  }

  lemma {:induction false} ResponsesRunOnServer(rs: seq<Response>, fetch: Fetcher, server: string)
    requires ResponsesOn(rs, server)
    ensures forall f :: f in ResponsesRun(rs, fetch) ==> f.server == server
  {
    if rs != [] {
      ResponsesRunOnServer(rs[..|rs| - 1], fetch, server);
    }
  }

  /** Once every item carries the expectation's server, so does every failure
      the expectation reports. */
  lemma ServerRunOnServer(ups: seq<UpstartService>, cus: seq<CustomService>, rs: seq<Response>,
                          exec: Executor, fetch: Fetcher, server: string)
    requires UpstartOn(ups, server) && CustomOn(cus, server) && ResponsesOn(rs, server)
    ensures ServerRun(ups, cus, rs, exec, fetch).Ok? ==>
      forall f :: f in ServerRun(ups, cus, rs, exec, fetch).value.failures ==> f.server == server
  {
    forall i | 0 <= i < |ups| && UpstartChecks(exec)(ups[i]).Ok?
      ensures forall f :: f in UpstartChecks(exec)(ups[i]).value.failures ==> f.server == server
    {
      UpstartCheckShape(ups[i], exec);
    }
    RunAllOnServer(ups, UpstartChecks(exec), server);
    forall i | 0 <= i < |cus| && CustomChecks(exec)(cus[i]).Ok?
      ensures forall f :: f in CustomChecks(exec)(cus[i]).value.failures ==> f.server == server
    {
      CustomCheckShape(cus[i], exec);
    }
    RunAllOnServer(cus, CustomChecks(exec), server);
    ResponsesRunOnServer(rs, fetch, server);
  }

  // ------------------------------------------------------------- the expectation

  /** `Expectation`: a host, its credentials and what to check on it.
      `channelOpen` stands for `sshClient` having been set. */
  class Expectation {
    var server: string
    var user: string
    var password: string
    var upstartServices: seq<UpstartService>
    var customServices: seq<CustomService>
    var responses: seq<Response>
    var channelOpen: bool

    constructor(server: string, user: string, password: string,
                ups: seq<UpstartService>, cus: seq<CustomService>, rs: seq<Response>)
      ensures this.server == server && this.user == user && this.password == password
      ensures upstartServices == ups && customServices == cus && responses == rs
      ensures !channelOpen
    {
      this.server := server;
      this.user := user;
      this.password := password;
      upstartServices := ups;
      customServices := cus;
      responses := rs;
      channelOpen := false;
    }

    /** `demandsSSH`: only services need the command channel. */
    predicate DemandsSSH()
      reads this
    {
      |customServices| > 0 || |upstartServices| > 0
    }

    /** Every service and response names this expectation's server. */
    predicate Propagated()
      reads this
    {
      UpstartOn(upstartServices, server) && CustomOn(customServices, server) && ResponsesOn(responses, server)
    }

    function Snapshot(): Fields
      reads this
    {
      Fields(server, user, password, upstartServices, customServices, responses, channelOpen)
    }

    /** `checkUpstartServices`: every service in order, each one's failures
        appended; a failure never skips the next service. */
    method CheckUpstartServices(exec: Executor) returns (r: Result<Checked, string>)
      ensures r == RunAll(upstartServices, UpstartChecks(exec))
    {
      var failures: seq<Failure> := [];
      var issued: seq<Command> := [];
      var i := 0;
      while i < |upstartServices|
        invariant 0 <= i <= |upstartServices|
        invariant RunAll(upstartServices[..i], UpstartChecks(exec)) == Ok(Checked(failures, issued))
      {
        var one := CheckUpstart(upstartServices[i], exec);
        assert UpstartChecks(exec)(upstartServices[i]) == one;
        RunAllStep(upstartServices, UpstartChecks(exec), i);
        if one.Err? {
          return Err(one.error);
        }
        failures := failures + one.value.failures;
        issued := issued + one.value.issued;
        i := i + 1;
      }
      assert upstartServices[..i] == upstartServices;
      return Ok(Checked(failures, issued));
    }

    /** `checkCustomServices`: the same loop over the custom services. */
    method CheckCustomServices(exec: Executor) returns (r: Result<Checked, string>)
      ensures r == RunAll(customServices, CustomChecks(exec))
    {
      var failures: seq<Failure> := [];
      var issued: seq<Command> := [];
      var i := 0;
      while i < |customServices|
        invariant 0 <= i <= |customServices|
        invariant RunAll(customServices[..i], CustomChecks(exec)) == Ok(Checked(failures, issued))
      {
        var one := CheckCustom(customServices[i], exec);
        assert CustomChecks(exec)(customServices[i]) == one;
        RunAllStep(customServices, CustomChecks(exec), i);
        if one.Err? {
          return Err(one.error);
        }
        failures := failures + one.value.failures;
        issued := issued + one.value.issued;
        i := i + 1;
      }
      assert customServices[..i] == customServices;
      return Ok(Checked(failures, issued));
    }

    /** `checkResponses`: every response in order, at most one failure each. */
    method CheckResponses(fetch: Fetcher) returns (failures: seq<Failure>)
      ensures failures == ResponsesRun(responses, fetch)
    {
      failures := [];
      var i := 0;
      while i < |responses|
        invariant 0 <= i <= |responses|
        invariant failures == ResponsesRun(responses[..i], fetch)
      {
        assert responses[..i + 1][..i] == responses[..i];
        var response := responses[i];
        var one := CheckResponse(response, fetch);
        failures := failures + AsSeq(one);
        i := i + 1;
      }
      assert responses[..i] == responses;
    }

    /** `CheckServer`: opens the channel when a service needs it, then
        upstart, custom and response failures in that order. */
    method CheckServer(exec: Executor, fetch: Fetcher) returns (r: Result<Checked, string>)
      modifies this
      ensures r == ServerRun(upstartServices, customServices, responses, exec, fetch)
      ensures channelOpen == (old(DemandsSSH()) || old(channelOpen))
      ensures server == old(server) && user == old(user) && password == old(password)
      ensures upstartServices == old(upstartServices) && customServices == old(customServices)
      ensures responses == old(responses)
    {
      if DemandsSSH() {
        channelOpen := true;
      }
      var u :- CheckUpstartServices(exec);
      var c :- CheckCustomServices(exec);
      var rs := CheckResponses(fetch);
      return Ok(Checked(u.failures + c.failures + rs, u.issued + c.issued));
    }

    /** The `Server`-propagation loop of `ReadExpectationsFromJSON` for this
        expectation: every child record gets the expectation's server and
        nothing else changes. */
    method PropagateServer()
      modifies this
      ensures Snapshot() == HandedDown(old(Snapshot()))
      ensures Propagated()
    {
      upstartServices := HandUpstart(upstartServices, server);
      customServices := HandCustom(customServices, server);
      responses := HandResponses(responses, server);
    }
  }

  /** The first propagation loop: each Upstart service, in order, is set to
      the server. */
  method HandUpstart(ups: seq<UpstartService>, server: string) returns (r: seq<UpstartService>)
    ensures r == UpstartWith(ups, server)
  {
    r := ups;
    var i := 0;
    while i < |r|
      invariant 0 <= i <= |r| == |ups|
      invariant forall j :: 0 <= j < i ==> r[j] == ups[j].(server := server)
      invariant forall j :: i <= j < |r| ==> r[j] == ups[j]
    {
      r := r[i := r[i].(server := server)];
      i := i + 1;
    }
  }

  /** The second propagation loop, over the custom services. */
  method HandCustom(cus: seq<CustomService>, server: string) returns (r: seq<CustomService>)
    ensures r == CustomWith(cus, server)
  {
    r := cus;
    var i := 0;
    while i < |r|
      invariant 0 <= i <= |r| == |cus|
      invariant forall j :: 0 <= j < i ==> r[j] == cus[j].(base := cus[j].base.(server := server))
      invariant forall j :: i <= j < |r| ==> r[j] == cus[j]
    {
      r := r[i := r[i].(base := r[i].base.(server := server))];
      i := i + 1;
    }
  }

  /** The third propagation loop, over the responses. */
  method HandResponses(rs: seq<Response>, server: string) returns (r: seq<Response>)
    ensures r == ResponsesWith(rs, server)
  {
    r := rs;
    var i := 0;
    while i < |r|
      invariant 0 <= i <= |r| == |rs|
      invariant forall j :: 0 <= j < i ==> r[j] == rs[j].(server := server)
      invariant forall j :: i <= j < |r| ==> r[j] == rs[j]
    {
      r := r[i := r[i].(server := server)];
      i := i + 1;
    }
  }

  /** One iteration of the loop in `checkResponses`. */
  method CheckResponse(response: Response, fetch: Fetcher) returns (failure: Option<Failure>)
    ensures failure == ResponseCheck(response, fetch)
  {
    var resp := fetch(response.url);
    if resp.TransportError? {
      return Some(Responses.NewFailure(response, Reported(resp.message)));
    }
    var codeFound := CodeFound(response.codes, resp.status);
    if !codeFound {
      return Some(Responses.NewFailure(response, CodeMismatch(resp.status, response.codes)));
    }
    failure := None;
    if response.response != "" {
      if resp.body.Err? {
        failure := Some(Responses.NewFailure(response, Reported(resp.body.error)));
      } else if resp.body.value != response.response {
        failure := Some(Responses.NewFailure(response, BodyMismatch(resp.body.value, response.response)));
      }
    }
  }

  /** The loop of `ReadExpectationsFromJSON` that hands each expectation's
      server down to its services and responses. An expectation listed twice
      is handed its server twice, which changes nothing the second time. */
  method PropagateServers(es: seq<Expectation>)
    modifies set e | e in es
    ensures forall e :: e in es ==> e.Snapshot() == HandedDown(old(e.Snapshot()))
    ensures forall e :: e in es ==>
      && e.server == old(e.server) && e.user == old(e.user) && e.password == old(e.password)
      && e.channelOpen == old(e.channelOpen)
    ensures forall e :: e in es ==>
      && e.upstartServices == UpstartWith(old(e.upstartServices), e.server)
      && e.customServices == CustomWith(old(e.customServices), e.server)
      && e.responses == ResponsesWith(old(e.responses), e.server)
    ensures forall e :: e in es ==> e.Propagated()
  {
    var i := 0;
    ghost var done: set<Expectation> := {};
    while i < |es|
      invariant 0 <= i <= |es|
      invariant forall j :: 0 <= j < i ==> es[j] in done
      invariant forall e :: e in es ==>
        e.Snapshot() == if e in done then HandedDown(old(e.Snapshot())) else old(e.Snapshot())
    {
      var e := es[i];
      PropagationIdempotent(old(e.Snapshot()));
      e.PropagateServer();
      done := done + {e};
      i := i + 1;
    }
  }
}
