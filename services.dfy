/** The service checks of services.go: an Upstart service found through
    `status`, a custom service found through `ps | grep`, and the three
    sub-checks they share (user, ports, age). */
module Services {
  import opened Wrappers
  import opened Text
  import opened Failures
  import opened Host
  import opened Elapsed
  import opened Recognisers

  /** `UpstartService`: its `Server` is filled in after loading. */
  datatype UpstartService = UpstartService(
    name: string, user: string, newerThanSeconds: int, ports: seq<int>, server: string)

  /** `CustomService`: the same settings plus the pattern `grep` looks for. */
  datatype CustomService = CustomService(base: UpstartService, regex: string)

  /** What one check produced: its failures, and the commands it issued. */
  datatype Checked = Checked(failures: seq<Failure>, issued: seq<Command>)

  /** What one port (or the whole port list) produced. */
  datatype Probe = Probe(failure: Option<Failure>, issued: seq<Command>)

  /** `newFailure`: a failure of this service, on its server. */
  function NewFailure(s: UpstartService, reason: Reason): (f: Failure)
    ensures f.serviceName == s.name && f.server == s.server && f.reason == reason
  {
    Failure(server := s.server, serviceName := s.name, reason := reason)
  }

  // ------------------------------------------------------------- sub-checks

  /** `checkUser`: fails exactly when the process runs as someone else. */
  function CheckUser(s: UpstartService, user: string): (r: Option<Failure>)
    ensures r.Some? <==> user != s.user
    ensures r.Some? ==> r.value.serviceName == s.name && r.value.server == s.server
    ensures r.Some? ==> r.value.reason == WrongUser(user, s.user)
  {
    if user != s.user then Some(NewFailure(s, WrongUser(user, s.user))) else None
  }

  /** `checkOld`. A bound of 0 switches the check off, and the elapsed time is
      not even read; otherwise the age may reach the bound but not exceed it.
      `Err` is the program aborting on an elapsed time it cannot read. */
  function CheckOld(s: UpstartService, elapsedTime: string): (r: Result<Option<Failure>, string>)
    ensures s.newerThanSeconds == 0 ==> r == Ok(None)
    ensures s.newerThanSeconds != 0 ==> (r.Err? <==> ParseElapsed(elapsedTime).Err?)
    ensures s.newerThanSeconds != 0 && r.Err? ==> r.error == ParseElapsed(elapsedTime).error
    ensures s.newerThanSeconds != 0 && ParseElapsed(elapsedTime).Ok? ==>
      (r.value.Some? <==> ParseElapsed(elapsedTime).value > s.newerThanSeconds)
    ensures r.Ok? && r.value.Some? ==>
      r.value.value.serviceName == s.name && r.value.value.server == s.server
      && r.value.value.reason == TooOld(s.newerThanSeconds, ParseElapsed(elapsedTime).value)
  {
    if s.newerThanSeconds != 0 then
      var age :- ParseElapsed(elapsedTime);
      if age > s.newerThanSeconds then Ok(Some(NewFailure(s, TooOld(s.newerThanSeconds, age))))
      else Ok(None)
    else Ok(None)
  }

  /** The port is held by the service: some process listens on it, and that
      process or its parent has the service's pid. */
  predicate PortHeld(exec: Executor, port: int, pid: string) {
    var holder := Execute(exec, PortHolder(port));
    holder.Ok? && holder.value != ""
    && (holder.value == pid || Execute(exec, ParentOf(holder.value)) == Ok(pid))
  }

  /** One iteration of the loop in `checkPorts`. */
  function PortCheck(s: UpstartService, exec: Executor, pid: string, port: int): (r: Probe)
    ensures r.failure.None? <==> PortHeld(exec, port, pid)
    ensures 1 <= |r.issued| <= 2 && r.issued[0] == PortHolder(port)
    ensures r.failure.Some? ==> r.failure.value.serviceName == s.name && r.failure.value.server == s.server
    ensures Execute(exec, PortHolder(port)) == Ok("") ==>
      r.failure == Some(NewFailure(s, PortFree(port)))
    ensures var holder := Execute(exec, PortHolder(port));
      holder.Err? ==> r.failure == Some(NewFailure(s, Reported(holder.error)))
    ensures var holder := Execute(exec, PortHolder(port));
      holder.Ok? && holder.value != "" && holder.value != pid ==>
        var parent := Execute(exec, ParentOf(holder.value));
        && (parent.Err? ==> r.failure == Some(NewFailure(s, Reported(parent.error))))
        && (parent.Ok? && parent.value != pid ==>
              r.failure == Some(NewFailure(s, PortForeign(port, holder.value, parent.value, pid))))
  {
    var holder := Execute(exec, PortHolder(port));
    if holder.Err? then Probe(Some(NewFailure(s, Reported(holder.error))), [PortHolder(port)])
    else if holder.value == "" then Probe(Some(NewFailure(s, PortFree(port))), [PortHolder(port)])
    else if holder.value == pid then Probe(None, [PortHolder(port)])
    else
      var parent := Execute(exec, ParentOf(holder.value));
      var issued := [PortHolder(port), ParentOf(holder.value)];
      if parent.Err? then Probe(Some(NewFailure(s, Reported(parent.error))), issued)
      else if parent.value != pid then
        Probe(Some(NewFailure(s, PortForeign(port, holder.value, parent.value, pid))), issued)
      else Probe(None, issued)
  }

  /** `checkPorts` over a list of ports: the first port not held stops it. */
  function PortsCheck(s: UpstartService, exec: Executor, pid: string, ports: seq<int>): (r: Probe)
    ensures ports == [] ==> r == Probe(None, [])
    ensures |r.issued| <= 2 * |ports|
    ensures r.failure.Some? ==> r.failure.value.serviceName == s.name && r.failure.value.server == s.server
  {
    if ports == [] then Probe(None, [])
    else
      var first := PortCheck(s, exec, pid, ports[0]);
      if first.failure.Some? then first
      else
        var rest := PortsCheck(s, exec, pid, ports[1..]);
        Probe(rest.failure, first.issued + rest.issued)
  }

  /** `checkPorts` passes exactly when the service holds every port. */
  lemma {:induction false} PortsCheckPassesIff(s: UpstartService, exec: Executor, pid: string, ports: seq<int>)
    ensures PortsCheck(s, exec, pid, ports).failure.None?
        <==> forall i :: 0 <= i < |ports| ==> PortHeld(exec, ports[i], pid)
  {
    if ports != [] && PortCheck(s, exec, pid, ports[0]).failure.None? {
      PortsCheckPassesIff(s, exec, pid, ports[1..]);
      assert forall i :: 1 <= i < |ports| ==> ports[i] == ports[1..][i - 1];
    }
  }

  /** The failure `checkPorts` reports is that of the first port not held,
      after every port before it was held; the commands are those of the
      ports before it, then its own. */
  lemma PortsCheckFirstFailure(s: UpstartService, exec: Executor, pid: string, ports: seq<int>)
    requires PortsCheck(s, exec, pid, ports).failure.Some?
    ensures exists k :: (0 <= k < |ports|
      && (forall j :: 0 <= j < k ==> PortHeld(exec, ports[j], pid))
      && !PortHeld(exec, ports[k], pid)
      && PortsCheck(s, exec, pid, ports).failure == PortCheck(s, exec, pid, ports[k]).failure
      && PortsCheck(s, exec, pid, ports).issued
         == PortsCheck(s, exec, pid, ports[..k]).issued + PortCheck(s, exec, pid, ports[k]).issued)
  {
    var k := FirstUnheld(s, exec, pid, ports);
    assert ports[..k] + ports[k..] == ports;
    PortsCheckAppend(s, exec, pid, ports[..k], ports[k..]);
    PortsCheckFrom(s, exec, pid, ports, k);
  }

  /** Where `checkPorts` fails there is a first port not held. */
  lemma {:induction false} FirstUnheld(s: UpstartService, exec: Executor, pid: string, ports: seq<int>) returns (k: nat)
    requires PortsCheck(s, exec, pid, ports).failure.Some?
    ensures k < |ports| && !PortHeld(exec, ports[k], pid)
    ensures forall j :: 0 <= j < k ==> PortHeld(exec, ports[j], pid)
  {
    if PortCheck(s, exec, pid, ports[0]).failure.Some? {
      k := 0;
    } else {
      var k' := FirstUnheld(s, exec, pid, ports[1..]);
      k := k' + 1;
      forall j | 0 <= j < k ensures PortHeld(exec, ports[j], pid) {
        if j > 0 { assert ports[j] == ports[1..][j - 1]; }
      }
    }
  }

  /** Over leading ports that are all held, `checkPorts` goes on to the
      rest, having issued their commands first. */
  lemma {:induction false} PortsCheckAppend(s: UpstartService, exec: Executor, pid: string, held: seq<int>, rest: seq<int>)
    requires forall j :: 0 <= j < |held| ==> PortHeld(exec, held[j], pid)
    ensures PortsCheck(s, exec, pid, held + rest)
         == Probe(PortsCheck(s, exec, pid, rest).failure,
                  PortsCheck(s, exec, pid, held).issued + PortsCheck(s, exec, pid, rest).issued)
  {
    if held == [] {
      assert held + rest == rest;
    } else {
      var first := PortCheck(s, exec, pid, held[0]);
      assert first.failure.None?;
      var tail := held[1..];
      assert forall j :: 0 <= j < |tail| ==> tail[j] == held[j + 1];
      PortsCheckAppend(s, exec, pid, tail, rest);
      TailOfAppend(held, rest);
      var a := PortsCheck(s, exec, pid, tail).issued;
      var b := PortsCheck(s, exec, pid, rest).issued;
      assert first.issued + (a + b) == (first.issued + a) + b;
    }
  }

  /** The port list from i on: port i first, then the rest unless it failed. */
  lemma PortsCheckFrom(s: UpstartService, exec: Executor, pid: string, ports: seq<int>, i: nat)
    requires i < |ports|
    ensures var first := PortCheck(s, exec, pid, ports[i]);
      var rest := PortsCheck(s, exec, pid, ports[i + 1..]);
      PortsCheck(s, exec, pid, ports[i..])
      == if first.failure.Some? then first else Probe(rest.failure, first.issued + rest.issued)
  {
    assert ports[i..][0] == ports[i] && ports[i..][1..] == ports[i + 1..];
  }

  /** One iteration of the loop in `checkPorts`: ask who listens on the port,
      and, when that is another process, who its parent is. */
  method CheckPort(s: UpstartService, exec: Executor, pid: string, port: int)
    returns (failure: Option<Failure>, issued: seq<Command>)
    ensures Probe(failure, issued) == PortCheck(s, exec, pid, port)
  {
    var holder := Execute(exec, PortHolder(port));
    issued := [PortHolder(port)];
    if holder.Err? {
      return Some(NewFailure(s, Reported(holder.error))), issued;
    } else if holder.value == "" {
      return Some(NewFailure(s, PortFree(port))), issued;
    }
    failure := None;
    if holder.value != pid {
      var parent := Execute(exec, ParentOf(holder.value));
      issued := issued + [ParentOf(holder.value)];
      if parent.Err? {
        failure := Some(NewFailure(s, Reported(parent.error)));
      } else if parent.value != pid {
        failure := Some(NewFailure(s, PortForeign(port, holder.value, parent.value, pid)));
      }
    }
  }

  /** `checkPorts`: walks the ports in order and stops at the first port the
      service does not hold; with no ports it issues no command at all. */
  method CheckPorts(s: UpstartService, exec: Executor, pid: string) returns (failure: Option<Failure>, issued: seq<Command>)
    ensures Probe(failure, issued) == PortsCheck(s, exec, pid, s.ports)
  {
    issued := [];
    var i := 0;
    assert s.ports[i..] == s.ports;
    while i < |s.ports|
      invariant 0 <= i <= |s.ports|
      invariant PortsCheck(s, exec, pid, s.ports)
             == Probe(PortsCheck(s, exec, pid, s.ports[i..]).failure,
                      issued + PortsCheck(s, exec, pid, s.ports[i..]).issued)
    {
      PortsCheckFrom(s, exec, pid, s.ports, i);
      var portFailure, portIssued := CheckPort(s, exec, pid, s.ports[i]);
      ghost var before := issued;
      issued := issued + portIssued;
      if portFailure.Some? {
        failure := portFailure;
        return;
      }
      ghost var tail := PortsCheck(s, exec, pid, s.ports[i + 1..]);
      assert before + (portIssued + tail.issued) == issued + tail.issued;
      i := i + 1;
    }
    failure := None;
  }

  // ------------------------------------------------------------- the two phases

  /** What discovery learnt about the running process. */
  datatype Found = Found(pid: string, user: string, elapsedTime: string)

  /** The discovery phase: the process found, or the one failure that ends the
      check; and the commands it issued. */
  datatype Discovery = Discovery(outcome: Result<Found, Failure>, issued: seq<Command>)

  /** Discovery for an Upstart service: `status <name>` must end in a pid and
      say "running"; `ps -p <pid>` must then show at least three tokens. */
  function DiscoverUpstart(s: UpstartService, exec: Executor): (d: Discovery)
    ensures d.issued == [Status(s.name)]
         || (|d.issued| == 2 && d.issued[0] == Status(s.name) && d.issued[1].ProcessDetail?)
    ensures d.outcome.Ok? ==> d.issued == [Status(s.name), ProcessDetail(d.outcome.value.pid)]
    ensures d.outcome.Err? ==> d.outcome.error.serviceName == s.name && d.outcome.error.server == s.server
    ensures d.outcome.Ok? ==>
      var app := Execute(exec, Status(s.name));
      var out := Execute(exec, ProcessDetail(d.outcome.value.pid));
      && app.Ok? && StatusPid(app.value) == Some(d.outcome.value.pid) && Contains(app.value, "running")
      && out.Ok? && PsFields(out.value).Some?
      && PsFields(out.value).value.user == d.outcome.value.user
      && PsFields(out.value).value.etime == d.outcome.value.elapsedTime
    ensures var app := Execute(exec, Status(s.name));
      d.outcome.Ok? <==>
        && app.Ok? && StatusPid(app.value).Some? && Contains(app.value, "running")
        && Execute(exec, ProcessDetail(StatusPid(app.value).value)).Ok?
        && PsFields(Execute(exec, ProcessDetail(StatusPid(app.value).value)).value).Some?
    ensures var app := Execute(exec, Status(s.name));
      app.Err? ==> d.outcome == Err(NewFailure(s, Reported(app.error)))
    ensures var app := Execute(exec, Status(s.name));
      app.Ok? && StatusPid(app.value).Some? && Contains(app.value, "running") ==>
        var out := Execute(exec, ProcessDetail(StatusPid(app.value).value));
        out.Err? ==> d.outcome == Err(NewFailure(s, Reported(out.error)))
  {
    var app := Execute(exec, Status(s.name));
    if app.Err? then Discovery(Err(NewFailure(s, Reported(app.error))), [Status(s.name)])
    else if StatusPid(app.value).None? then
      Discovery(Err(NewFailure(s, ListingMismatch(app.value))), [Status(s.name)])
    else
      var pid := StatusPid(app.value).value;
      if !Contains(app.value, "running") then Discovery(Err(NewFailure(s, ServiceNotUp)), [Status(s.name)])
      else
        var out := Execute(exec, ProcessDetail(pid));
        var issued := [Status(s.name), ProcessDetail(pid)];
        if out.Err? then Discovery(Err(NewFailure(s, Reported(out.error))), issued)
        else if PsFields(out.value).None? then
          Discovery(Err(NewFailure(s, DetailMismatch(out.value))), issued)
        else
          var line := PsFields(out.value).value;
          Discovery(Ok(Found(pid, line.user, line.etime)), issued)
  }

  /** Discovery for a custom service: the first `ps ax | grep` line that has
      three tokens gives user, pid and elapsed time. */
  function DiscoverCustom(c: CustomService, exec: Executor): (d: Discovery)
    ensures d.issued == [ProcessSearch(c.regex)]
    ensures d.outcome.Err? ==> d.outcome.error.serviceName == c.base.name && d.outcome.error.server == c.base.server
    ensures d.outcome.Ok? <==>
      Execute(exec, ProcessSearch(c.regex)).Ok? && PsFields(Execute(exec, ProcessSearch(c.regex)).value).Some?
    ensures d.outcome.Ok? ==>
      var line := PsFields(Execute(exec, ProcessSearch(c.regex)).value).value;
      d.outcome.value == Found(line.pid, line.user, line.etime)
    ensures Execute(exec, ProcessSearch(c.regex)).Ok? && d.outcome.Err? ==>
      d.outcome.error == NewFailure(c.base, CustomNotFound)
    ensures var out := Execute(exec, ProcessSearch(c.regex));
      out.Err? ==> d.outcome == Err(NewFailure(c.base, Reported(out.error)))
  {
    var out := Execute(exec, ProcessSearch(c.regex));
    var issued := [ProcessSearch(c.regex)];
    if out.Err? then Discovery(Err(NewFailure(c.base, Reported(out.error))), issued)
    else if PsFields(out.value).None? then Discovery(Err(NewFailure(c.base, CustomNotFound)), issued)
    else
      var line := PsFields(out.value).value;
      Discovery(Ok(Found(line.pid, line.user, line.etime)), issued)
  }

  /** The age sub-check passes: it is off, or the age does not exceed the bound. */
  predicate AgeAcceptable(s: UpstartService, elapsedTime: string) {
    s.newerThanSeconds == 0
    || (ParseElapsed(elapsedTime).Ok? && ParseElapsed(elapsedTime).value <= s.newerThanSeconds)
  }

  /** The three sub-checks, each run whatever the others found: user, then
      ports, then age. `Err` is the program aborting inside the age check. */
  function Subchecks(s: UpstartService, exec: Executor, f: Found): (r: Result<Checked, string>)
    ensures r.Err? <==> CheckOld(s, f.elapsedTime).Err?
    ensures r.Ok? ==> |r.value.failures| <= 3
    ensures r.Ok? ==> r.value.issued == PortsCheck(s, exec, f.pid, s.ports).issued
    ensures r.Ok? ==> forall i :: 0 <= i < |r.value.failures| ==>
      r.value.failures[i].serviceName == s.name && r.value.failures[i].server == s.server
  {
    var user := CheckUser(s, f.user);
    var ports := PortsCheck(s, exec, f.pid, s.ports);
    match CheckOld(s, f.elapsedTime)
    case Err(message) => Err(message)
    case Ok(age) => Ok(Checked(AsSeq(user) + AsSeq(ports.failure) + AsSeq(age), ports.issued))
  }

  /** The process discovery found satisfies all three constraints. */
  predicate Healthy(s: UpstartService, exec: Executor, f: Found) {
    && f.user == s.user
    && (forall i :: 0 <= i < |s.ports| ==> PortHeld(exec, s.ports[i], f.pid))
    && AgeAcceptable(s, f.elapsedTime)
  }

  /** The sub-checks report in the order user, ports, age, and report nothing
      exactly when the process is healthy. */
  lemma SubchecksVerdict(s: UpstartService, exec: Executor, f: Found)
    requires Subchecks(s, exec, f).Ok?
    ensures Subchecks(s, exec, f).value.failures
         == AsSeq(CheckUser(s, f.user)) + AsSeq(PortsCheck(s, exec, f.pid, s.ports).failure)
            + AsSeq(CheckOld(s, f.elapsedTime).value)
    ensures Subchecks(s, exec, f).value.failures == [] <==> Healthy(s, exec, f)
  {
    PortsCheckPassesIff(s, exec, f.pid, s.ports);
  }

  /** Both `CheckExpectation`s: a failed discovery is the one and only failure;
      otherwise the sub-checks follow, after the discovery commands. */
  function Complete(s: UpstartService, exec: Executor, d: Discovery): (r: Result<Checked, string>)
    ensures d.outcome.Err? ==> r == Ok(Checked([d.outcome.error], d.issued))
    ensures d.outcome.Ok? ==> (r.Err? <==> Subchecks(s, exec, d.outcome.value).Err?)
    ensures d.outcome.Ok? && r.Ok? ==>
      r.value.failures == Subchecks(s, exec, d.outcome.value).value.failures
      && r.value.issued == d.issued + Subchecks(s, exec, d.outcome.value).value.issued
  {
    match d.outcome
    case Err(failure) => Ok(Checked([failure], d.issued))
    case Ok(found) =>
      var rest :- Subchecks(s, exec, found);
      Ok(Checked(rest.failures, d.issued + rest.issued))
  }

  /** `UpstartService.CheckExpectation` (and the loop body of `checkUpstartServices`). */
  function UpstartCheck(s: UpstartService, exec: Executor): (r: Result<Checked, string>)
    ensures var d := DiscoverUpstart(s, exec);
      (r.Ok? && r.value.failures == []) <==> d.outcome.Ok? && Healthy(s, exec, d.outcome.value)
    ensures var d := DiscoverUpstart(s, exec);
      r.Err? <==> d.outcome.Ok? && s.newerThanSeconds != 0 && ParseElapsed(d.outcome.value.elapsedTime).Err?
  {
    CompleteVerdict(s, exec, DiscoverUpstart(s, exec));
    Complete(s, exec, DiscoverUpstart(s, exec))
  }

  /** `CustomService.CheckExpectation` (and the loop body of `checkCustomServices`). */
  function CustomCheck(c: CustomService, exec: Executor): (r: Result<Checked, string>)
    ensures var d := DiscoverCustom(c, exec);
      (r.Ok? && r.value.failures == []) <==> d.outcome.Ok? && Healthy(c.base, exec, d.outcome.value)
    ensures var d := DiscoverCustom(c, exec);
      r.Err? <==> d.outcome.Ok? && c.base.newerThanSeconds != 0 && ParseElapsed(d.outcome.value.elapsedTime).Err?
  {
    CompleteVerdict(c.base, exec, DiscoverCustom(c, exec));
    Complete(c.base, exec, DiscoverCustom(c, exec))
  }

  /** A check reports no failure exactly when discovery succeeds and the
      process is healthy; it aborts exactly when discovery succeeds, the age
      check is on and the elapsed time cannot be read. */
  lemma CompleteVerdict(s: UpstartService, exec: Executor, d: Discovery)
    ensures (Complete(s, exec, d).Ok? && Complete(s, exec, d).value.failures == [])
        <==> d.outcome.Ok? && Healthy(s, exec, d.outcome.value)
    ensures Complete(s, exec, d).Err?
        <==> d.outcome.Ok? && s.newerThanSeconds != 0 && ParseElapsed(d.outcome.value.elapsedTime).Err?
  {
    if d.outcome.Ok? && Subchecks(s, exec, d.outcome.value).Ok? {
      SubchecksVerdict(s, exec, d.outcome.value);
    }
  }

  /** Every failure of an Upstart check is about that service on its server;
      there are at most three, and a failed discovery is the only one, after
      which no port is probed. */
  lemma UpstartCheckShape(s: UpstartService, exec: Executor)
    ensures UpstartCheck(s, exec).Ok? ==>
      var r := UpstartCheck(s, exec).value;
      && |r.failures| <= 3
      && (forall i :: 0 <= i < |r.failures| ==> r.failures[i].serviceName == s.name && r.failures[i].server == s.server)
    ensures DiscoverUpstart(s, exec).outcome.Err? ==>
      && UpstartCheck(s, exec).Ok? && |UpstartCheck(s, exec).value.failures| == 1
      && (forall c :: c in UpstartCheck(s, exec).value.issued ==> c.Status? || c.ProcessDetail?)
  {
    var d := DiscoverUpstart(s, exec);
    if d.outcome.Ok? {
      var sub := Subchecks(s, exec, d.outcome.value);
    } else {
      assert UpstartCheck(s, exec) == Ok(Checked([d.outcome.error], d.issued));
      forall c | c in d.issued ensures c.Status? || c.ProcessDetail? {
        assert d.issued == [Status(s.name)] || (|d.issued| == 2 && c in [d.issued[0], d.issued[1]]);
      }
    }
  }

  /** Every failure of a custom check is about that service on its server,
      and there are at most three. */
  lemma CustomCheckShape(c: CustomService, exec: Executor)
    ensures CustomCheck(c, exec).Ok? ==>
      var r := CustomCheck(c, exec).value;
      && |r.failures| <= 3
      && (forall i :: 0 <= i < |r.failures| ==>
            r.failures[i].serviceName == c.base.name && r.failures[i].server == c.base.server)
  {
  }

  /** The three ways discovery of an Upstart service stops the check, each with
      one failure and no command after the one that told. */
  lemma UpstartEarlyStops(s: UpstartService, exec: Executor)
    ensures var app := Execute(exec, Status(s.name));
      app.Ok? && StatusPid(app.value).None? ==>
        UpstartCheck(s, exec) == Ok(Checked([NewFailure(s, ListingMismatch(app.value))], [Status(s.name)]))
    ensures var app := Execute(exec, Status(s.name));
      app.Ok? && StatusPid(app.value).Some? && !Contains(app.value, "running") ==>
        UpstartCheck(s, exec) == Ok(Checked([NewFailure(s, ServiceNotUp)], [Status(s.name)]))
    ensures var app := Execute(exec, Status(s.name));
      app.Ok? && StatusPid(app.value).Some? && Contains(app.value, "running") ==>
        var pid := StatusPid(app.value).value;
        var out := Execute(exec, ProcessDetail(pid));
        out.Ok? && PsFields(out.value).None? ==>
          UpstartCheck(s, exec)
          == Ok(Checked([NewFailure(s, DetailMismatch(out.value))], [Status(s.name), ProcessDetail(pid)]))
  {
  }

  /** A custom service whose search output has fewer than three tokens is
      reported not found, once; otherwise its sub-checks use the second token
      as the pid. */
  lemma CustomNotFoundOnly(c: CustomService, exec: Executor)
    ensures var out := Execute(exec, ProcessSearch(c.regex));
      out.Ok? && PsFields(out.value).None? ==>
        CustomCheck(c, exec) == Ok(Checked([NewFailure(c.base, CustomNotFound)], [ProcessSearch(c.regex)]))
    ensures var out := Execute(exec, ProcessSearch(c.regex));
      out.Ok? && PsFields(out.value).Some? ==>
        var line := PsFields(out.value).value;
        CustomCheck(c, exec) == Complete(c.base, exec, Discovery(Ok(Found(line.pid, line.user, line.etime)), [ProcessSearch(c.regex)]))
  {
  }

  /** The sub-checks, in the order the program runs them, appending a failure
      for each that fails. */
  method RunSubchecks(s: UpstartService, exec: Executor, f: Found) returns (r: Result<Checked, string>)
    ensures r == Subchecks(s, exec, f)
  {
    var failures: seq<Failure> := [];
    var userFailure := CheckUser(s, f.user);
    if userFailure.Some? {
      failures := failures + [userFailure.value];
    }
    assert failures == AsSeq(userFailure);
    var portFailure, issued := CheckPorts(s, exec, f.pid);
    if portFailure.Some? {
      failures := failures + [portFailure.value];
    }
    assert failures == AsSeq(userFailure) + AsSeq(portFailure);
    var ageFailure :- CheckOld(s, f.elapsedTime);
    if ageFailure.Some? {
      failures := failures + [ageFailure.value];
    }
    assert failures == AsSeq(userFailure) + AsSeq(portFailure) + AsSeq(ageFailure);
    return Ok(Checked(failures, issued));
  }

  /** `UpstartService.CheckExpectation`. */
  method CheckUpstart(s: UpstartService, exec: Executor) returns (r: Result<Checked, string>)
    ensures r == UpstartCheck(s, exec)
  {
    var app := Execute(exec, Status(s.name));
    var issued := [Status(s.name)];
    if app.Err? {
      return Ok(Checked([NewFailure(s, Reported(app.error))], issued));
    }
    var found := StatusPid(app.value);
    if found.None? {
      return Ok(Checked([NewFailure(s, ListingMismatch(app.value))], issued));
    }
    var pid := found.value;
    if !Contains(app.value, "running") {
      return Ok(Checked([NewFailure(s, ServiceNotUp)], issued));
    }
    var out := Execute(exec, ProcessDetail(pid));
    issued := [Status(s.name), ProcessDetail(pid)];
    if out.Err? {
      return Ok(Checked([NewFailure(s, Reported(out.error))], issued));
    }
    var fields := PsFields(out.value);
    if fields.None? {
      return Ok(Checked([NewFailure(s, DetailMismatch(out.value))], issued));
    }
    var rest :- RunSubchecks(s, exec, Found(pid, fields.value.user, fields.value.etime));
    return Ok(Checked(rest.failures, issued + rest.issued));
  }

  /** `CustomService.CheckExpectation`. */
  method CheckCustom(c: CustomService, exec: Executor) returns (r: Result<Checked, string>)
    ensures r == CustomCheck(c, exec)
  {
    var out := Execute(exec, ProcessSearch(c.regex));
    var issued := [ProcessSearch(c.regex)];
    if out.Err? {
      return Ok(Checked([NewFailure(c.base, Reported(out.error))], issued));
    }
    var fields := PsFields(out.value);
    if fields.None? {
      return Ok(Checked([NewFailure(c.base, CustomNotFound)], issued));
    }
    var rest :- RunSubchecks(c.base, exec, Found(fields.value.pid, fields.value.user, fields.value.etime));
    return Ok(Checked(rest.failures, issued + rest.issued));
  }
}
