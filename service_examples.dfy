/** Two concrete runs of the Upstart check against a host whose answers are
    fixed: a healthy service, and the same service expected under another user. */
module ServiceExamples {
  import opened Wrappers
  import opened Text
  import opened Failures
  import opened Host
  import opened Elapsed
  import opened ElapsedFacts
  import opened Recognisers
  import opened Services

  const StatusText: string := "running 1234"
  const DetailText: string := "alice 1234 01:00:00"

  /** A host where the service is up with pid 1234, run by alice for an hour. */
  function Host1234(): Executor {
    (c: Command) => if c.Status? then Stdout(StatusText)
         else if c.ProcessDetail? then Stdout(DetailText)
         else RunError("no such command")
  }

  lemma NoPadding(t: string)
    requires t != [] && !IsSpace(t[0]) && !IsSpace(t[|t| - 1])
    ensures TrimSpace(t) == t
  {
    TrimPadded([], t, []);
    assert [] + t + [] == t;
  }

  lemma StatusReadsPid()
    ensures StatusPid(StatusText) == Some("1234")
  {
    var t := StatusText;
    assert |t| == 12;
    assert t[0] == 'r' && t[1] == 'u' && t[2] == 'n' && t[3] == 'n';
    assert t[4] == 'i' && t[5] == 'n' && t[6] == 'g' && t[7] == ' ';
    assert t[8] == '1' && t[9] == '2' && t[10] == '3' && t[11] == '4';
    assert forall k :: 0 <= k < 7 ==> IsNameChar(t[k]);
    assert forall k :: 8 <= k < 12 ==> IsDigit(t[k]);
    assert StatusMatch(t, 0, 7, 8);
    StatusPidComplete(t, 0, 7, 8);
    assert t[8..] == "1234";
  }

  lemma StatusSaysRunning()
    ensures Contains(StatusText, "running")
  {
    assert StatusText[..|"running"|] == "running";
  }

  lemma DetailTokens()
    ensures "alice" + " " + "1234" + " " + "01:00:00" == DetailText
  {
    var t := "alice" + " " + "1234" + " " + "01:00:00";
    assert |t| == 19;
    assert forall i :: 0 <= i < 19 ==> t[i] == DetailText[i];
  }

  lemma DetailReadsFields()
    ensures PsFields(DetailText) == Some(PsLine("alice", "1234", "01:00:00"))
  {
    assert NoSpace("alice") && NoSpace("1234") && NoSpace("01:00:00");
    PsFieldsOfTokens("alice", "1234", "01:00:00");
    DetailTokens();
  }

  lemma HostAnswers()
    ensures Execute(Host1234(), Status("web")) == Ok(StatusText)
    ensures Execute(Host1234(), ProcessDetail("1234")) == Ok(DetailText)
  {
    NoPadding(StatusText);
    NoPadding(DetailText);
  }

  /** Discovery on that host finds pid 1234, user alice, an hour of uptime. */
  lemma DiscoversAlice(s: UpstartService)
    requires s.name == "web"
    ensures DiscoverUpstart(s, Host1234())
         == Discovery(Ok(Found("1234", "alice", "01:00:00")), [Status("web"), ProcessDetail("1234")])
  {
    HostAnswers();
    StatusReadsPid();
    StatusSaysRunning();
    DetailReadsFields();
  }

  lemma HourIs3600()
    ensures ParseElapsed("01:00:00") == Ok(3600)
  {
    assert DecimalValue("01") == 1 && DecimalValue("00") == 0;
    HoursMinutesSeconds("01", "00", "00");
    assert "01" + ":" + "00" + ":" + "00" == "01:00:00";
  }

  /** With no ports and an age within the bound, only the user can fail. */
  lemma OnlyUserMatters(s: UpstartService, exec: Executor, f: Found)
    requires s.ports == [] && ParseElapsed(f.elapsedTime).Ok?
    requires ParseElapsed(f.elapsedTime).value <= s.newerThanSeconds
    ensures Subchecks(s, exec, f) == Ok(Checked(AsSeq(CheckUser(s, f.user)), []))
  {
    assert CheckOld(s, f.elapsedTime) == Ok(None);
    assert PortsCheck(s, exec, f.pid, []) == Probe(None, []);
    var u := AsSeq(CheckUser(s, f.user));
    assert u + AsSeq<Failure>(None) + AsSeq<Failure>(None) == u;
  }

  /** Discovery that finds the process through a status answer and a `ps`
      answer, followed by sub-checks where only the user can fail: the
      result is the user check alone, after the two discovery commands. */
  lemma OnlyUserFails(s: UpstartService, exec: Executor, status: string, detail: string, f: Found)
    requires Execute(exec, Status(s.name)) == Ok(status)
    requires StatusPid(status) == Some(f.pid) && Contains(status, "running")
    requires Execute(exec, ProcessDetail(f.pid)) == Ok(detail)
    requires PsFields(detail).Some? && PsFields(detail).value.user == f.user
    requires PsFields(detail).value.etime == f.elapsedTime
    requires s.ports == [] && ParseElapsed(f.elapsedTime).Ok?
    requires ParseElapsed(f.elapsedTime).value <= s.newerThanSeconds
    ensures UpstartCheck(s, exec) == Ok(Checked(AsSeq(CheckUser(s, f.user)), [Status(s.name), ProcessDetail(f.pid)]))
  {
    var issued := [Status(s.name), ProcessDetail(f.pid)];
    DiscoversFound(s, exec, status, detail, f);
    OnlyUserMatters(s, exec, f);
    assert issued + [] == issued;
  }

  /** The process discovery finds is read from the two answers. */
  lemma DiscoversFound(s: UpstartService, exec: Executor, status: string, detail: string, f: Found)
    requires Execute(exec, Status(s.name)) == Ok(status)
    requires StatusPid(status) == Some(f.pid) && Contains(status, "running")
    requires Execute(exec, ProcessDetail(f.pid)) == Ok(detail)
    requires PsFields(detail).Some? && PsFields(detail).value.user == f.user
    requires PsFields(detail).value.etime == f.elapsedTime
    ensures DiscoverUpstart(s, exec) == Discovery(Ok(f), [Status(s.name), ProcessDetail(f.pid)])
  {
  }

  /** Right user, no ports, at most two hours old: no failure. */
  lemma HealthyService()
    ensures var s := UpstartService("web", "alice", 7200, [], "host1");
      UpstartCheck(s, Host1234()) == Ok(Checked([], [Status("web"), ProcessDetail("1234")]))
  {
    var s := UpstartService("web", "alice", 7200, [], "host1");
    HostAnswers();
    StatusReadsPid();
    StatusSaysRunning();
    DetailReadsFields();
    HourIs3600();
    OnlyUserFails(s, Host1234(), StatusText, DetailText, Found("1234", "alice", "01:00:00"));
    assert CheckUser(s, "alice") == None;
  }

  /** The same host with bob expected: exactly one failure, naming both users,
      while the port and age checks still ran and passed. */
  lemma WrongUserOnly()
    ensures var s := UpstartService("web", "bob", 7200, [], "host1");
      UpstartCheck(s, Host1234())
      == Ok(Checked([Failure("host1", "web", WrongUser("alice", "bob"))], [Status("web"), ProcessDetail("1234")]))
  {
    var s := UpstartService("web", "bob", 7200, [], "host1");
    HostAnswers();
    StatusReadsPid();
    StatusSaysRunning();
    DetailReadsFields();
    HourIs3600();
    OnlyUserFails(s, Host1234(), StatusText, DetailText, Found("1234", "alice", "01:00:00"));
    assert CheckUser(s, "alice") == Some(Failure("host1", "web", WrongUser("alice", "bob")));
  }

  /** Its message names both users. */
  lemma WrongUserNamesBoth()
    ensures var m := Message(WrongUser("alice", "bob")); Contains(m, "alice") && Contains(m, "bob")
  {
    WrongUserNames("alice", "bob");
  }
}
