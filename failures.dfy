/** The failure record of failures.go and its one-line description. */
module Failures {
  import opened Text

  /** Why a check failed. Each reason stands for the message the program
      formats with `fmt.Sprintf`; `Message` gives that text. */
  datatype Reason =
    | Reported(text: string)                   // an error's own text (`err.Error()`)
    | ListingMismatch(app: string)             // services.go:33
    | ServiceNotUp                             // services.go:38
    | DetailMismatch(out: string)              // services.go:45
    | WrongUser(actual: string, expected: string)          // services.go:106
    | TooOld(bound: int, age: int)             // services.go:98
    | PortFree(port: int)                      // services.go:78
    | PortForeign(port: int, holder: string, parent: string, pid: string)  // services.go:87-88
    | CustomNotFound                           // services.go:123
    | CodeMismatch(status: int, codes: seq<int>)           // expectations.go:182
    | BodyMismatch(data: string, expected: string)         // expectations.go:195

  /** The text `fmt.Sprintf` produces for a reason. */
  function Message(r: Reason): string {
    match r
    case Reported(text) => text
    case ListingMismatch(app) => "Could not match output of service listing in '" + app + "'"
    case ServiceNotUp => "Service not up"
    case DetailMismatch(out) => "Could not match output of process analysis in '" + out + "' (service down?)"
    case WrongUser(actual, expected) => "User is not correct for this service: " + actual + " != (expected) " + expected
    case TooOld(bound, age) =>
      "Service is older than " + IntToString(bound) + " seconds (age is " + IntToString(age) + " seconds)"
    case PortFree(port) => "Port " + IntToString(port) + " is not being taken by any process"
    case PortForeign(port, holder, parent, pid) =>
      "Port " + IntToString(port) + " is being taken by the process PID=" + holder
      + ". Neither that PID nor its parent (" + parent + ") is of the service (" + pid + ")"
    case CustomNotFound => "Custom service has not been found on this server"
    case CodeMismatch(status, codes) =>
      "Code (" + IntToString(status) + ") is not as expected (" + FormatInts(codes) + ")"
    case BodyMismatch(data, expected) => "Response (" + data + ") is not as expected (" + expected + ")"
  }

  /** `a + x + b` contains x, in the left-nested shape the messages are built in. */
  lemma Names3(a: string, x: string, b: string)
    ensures Contains(a + x + b, x)
  {
    ContainsSelf(x);
    ContainsRight(a, x, x);
    ContainsLeft(a + x, b, x);
  }

  /** `a + x + b + y` contains both x and y. */
  lemma NamesPair(a: string, x: string, b: string, y: string)
    ensures Contains(a + x + b + y, x) && Contains(a + x + b + y, y)
  {
    Names3(a, x, b);
    ContainsLeft(a + x + b, y, x);
    ContainsSelf(y);
    ContainsRight(a + x + b, y, y);
  }

  /** `a + x + b + y + c` contains both x and y. */
  lemma NamesBoth(a: string, x: string, b: string, y: string, c: string)
    ensures Contains(a + x + b + y + c, x) && Contains(a + x + b + y + c, y)
  {
    NamesPair(a, x, b, y);
    ContainsLeft(a + x + b + y, c, x);
    ContainsLeft(a + x + b + y, c, y);
  }

  // Every message names the values it is about.

  lemma ListingMismatchNames(app: string)
    ensures Contains(Message(ListingMismatch(app)), app)
  {
    Names3("Could not match output of service listing in '", app, "'");
  }

  lemma DetailMismatchNames(out: string)
    ensures Contains(Message(DetailMismatch(out)), out)
  {
    Names3("Could not match output of process analysis in '", out, "' (service down?)");
  }

  lemma WrongUserNames(actual: string, expected: string)
    ensures Contains(Message(WrongUser(actual, expected)), actual)
    ensures Contains(Message(WrongUser(actual, expected)), expected)
  {
    NamesPair("User is not correct for this service: ", actual, " != (expected) ", expected);
  }

  lemma TooOldNames(bound: int, age: int)
    ensures Contains(Message(TooOld(bound, age)), IntToString(bound))
    ensures Contains(Message(TooOld(bound, age)), IntToString(age))
  {
    NamesBoth("Service is older than ", IntToString(bound), " seconds (age is ", IntToString(age), " seconds)");
  }

  lemma PortFreeNames(port: int)
    ensures Contains(Message(PortFree(port)), IntToString(port))
  {
    Names3("Port ", IntToString(port), " is not being taken by any process");
  }

  lemma CodeMismatchNames(status: int, codes: seq<int>)
    ensures Contains(Message(CodeMismatch(status, codes)), IntToString(status))
    ensures Contains(Message(CodeMismatch(status, codes)), FormatInts(codes))
  {
    NamesBoth("Code (", IntToString(status), ") is not as expected (", FormatInts(codes), ")");
  }

  lemma BodyMismatchNames(data: string, expected: string)
    ensures Contains(Message(BodyMismatch(data, expected)), data)
    ensures Contains(Message(BodyMismatch(data, expected)), expected)
  {
    NamesBoth("Response (", data, ") is not as expected (", expected, ")");
  }

  lemma PortForeignNames(port: int, holder: string, parent: string, pid: string)
    ensures Contains(Message(PortForeign(port, holder, parent, pid)), IntToString(port))
    ensures Contains(Message(PortForeign(port, holder, parent, pid)), holder)
    ensures Contains(Message(PortForeign(port, holder, parent, pid)), parent)
    ensures Contains(Message(PortForeign(port, holder, parent, pid)), pid)
  {
    var p1 := "Port " + IntToString(port);
    var p2 := p1 + " is being taken by the process PID=";
    var p3 := p2 + holder;
    var p4 := p3 + ". Neither that PID nor its parent (";
    var p5 := p4 + parent;
    var p6 := p5 + ") is of the service (";
    var p7 := p6 + pid;
    var x := IntToString(port);
    ContainsSelf(x);
    ContainsRight("Port ", x, x);
    ContainsLeft(p1, " is being taken by the process PID=", x);
    ContainsLeft(p2, holder, x);
    ContainsLeft(p3, ". Neither that PID nor its parent (", x);
    ContainsLeft(p4, parent, x);
    ContainsLeft(p5, ") is of the service (", x);
    ContainsLeft(p6, pid, x);
    ContainsLeft(p7, ")", x);
    ContainsSelf(holder);
    ContainsRight(p2, holder, holder);
    ContainsLeft(p3, ". Neither that PID nor its parent (", holder);
    ContainsLeft(p4, parent, holder);
    ContainsLeft(p5, ") is of the service (", holder);
    ContainsLeft(p6, pid, holder);
    ContainsLeft(p7, ")", holder);
    ContainsSelf(parent);
    ContainsRight(p4, parent, parent);
    ContainsLeft(p5, ") is of the service (", parent);
    ContainsLeft(p6, pid, parent);
    ContainsLeft(p7, ")", parent);
    ContainsSelf(pid);
    ContainsRight(p6, pid, pid);
    ContainsLeft(p7, ")", pid);
  }

  /** One failed constraint: which server, which check, and why. */
  datatype Failure = Failure(server: string, serviceName: string, reason: Reason)

  const ServerLead: string := "On server "
  const ServiceLead: string := " the service "
  const ReasonLead: string := " check failed with reason: "

  /** The fixed sentence of `Failure.String`: the server, then the service
      name, then the message, each in its own slot. */
  function Describe(server: string, serviceName: string, msg: string): (r: string)
    ensures |r| == |ServerLead| + |server| + |ServiceLead| + |serviceName| + |ReasonLead| + |msg|
    ensures r[..|ServerLead|] == ServerLead
    ensures r[|ServerLead|..|ServerLead| + |server|] == server
    ensures var k := |ServerLead| + |server| + |ServiceLead|;
      r[k - |ServiceLead|..k] == ServiceLead && r[k..k + |serviceName|] == serviceName
    ensures r[|r| - |msg| - |ReasonLead|..|r| - |msg|] == ReasonLead
    ensures r[|r| - |msg|..] == msg
  {
    ServerLead + server + ServiceLead + serviceName + ReasonLead + msg
  }

  /** `Failure.String`: the sentence names the server, the service and the
      reason's message. */
  function Render(f: Failure): (r: string)
    ensures Contains(r, f.server) && Contains(r, f.serviceName) && Contains(r, Message(f.reason))
  {
    DescribeNamesFields(f.server, f.serviceName, Message(f.reason));
    Describe(f.server, f.serviceName, Message(f.reason))
  }

  /** The description names the server, the service and the message. */
  lemma DescribeNamesFields(server: string, serviceName: string, msg: string)
    ensures Contains(Describe(server, serviceName, msg), server)
    ensures Contains(Describe(server, serviceName, msg), serviceName)
    ensures Contains(Describe(server, serviceName, msg), msg)
  {
    var p2 := ServerLead + server + ServiceLead;
    var p4 := p2 + serviceName + ReasonLead;
    Names3(ServerLead, server, ServiceLead);
    ContainsLeft(p2, serviceName, server);
    ContainsLeft(p2 + serviceName, ReasonLead, server);
    ContainsLeft(p4, msg, server);
    Names3(p2, serviceName, ReasonLead);
    ContainsLeft(p4, msg, serviceName);
    ContainsSelf(msg);
    ContainsRight(p4, msg, msg);
  }

  /** Given how long the server and service names are, the description gives
      back the server, the service and the message. */
  lemma DescribeDecodes(server1: string, name1: string, msg1: string,
                        server2: string, name2: string, msg2: string)
    requires |server1| == |server2| && |name1| == |name2|
    requires Describe(server1, name1, msg1) == Describe(server2, name2, msg2)
    ensures server1 == server2 && name1 == name2 && msg1 == msg2
  {
    var r := Describe(server1, name1, msg1);
    assert server1 == r[|ServerLead|..|ServerLead| + |server1|] == server2;
    var k := |ServerLead| + |server1| + |ServiceLead|;
    assert name1 == r[k..k + |name1|] == name2;
    assert |msg1| == |msg2|;
    assert msg1 == r[|r| - |msg1|..] == msg2;
  }

}

/** The `failure` package (failure/failures.go): the same record, built by
    `New` from a server and a name that can describe themselves and an error. */
module FailurePackage {
  import opened Text
  import Failures

  datatype Failure = Failure(server: string, serviceName: string, msg: string)

  /** `New`. The arguments are the texts their `String()` and `Error()`
      methods return. */
  function New(server: string, name: string, errorText: string): (f: Failure)
    ensures f.serviceName == name && f.server == server && f.msg == errorText
  {
    Failure(server := server, serviceName := name, msg := errorText)
  }

  /** `Failure.String` of this package: the sentence of the other package,
      slot for slot. */
  function String(f: Failure): (r: string)
    ensures r == Failures.Describe(f.server, f.serviceName, f.msg)
  {
    "On server " + f.server + " the service " + f.serviceName + " check failed with reason: " + f.msg
  }

  /** Both packages describe a failure in the same sentence, so here too the
      server comes first, the service second and the message last. */
  lemma SameFormat(server: string, name: string, errorText: string)
    ensures String(New(server, name, errorText)) == Failures.Describe(server, name, errorText)
  {
  }

  /** A failure built by `New` names all three of its arguments. */
  lemma NewNamesArguments(server: string, name: string, errorText: string)
    ensures var r := String(New(server, name, errorText));
      Contains(r, server) && Contains(r, name) && Contains(r, errorText)
  {
    SameFormat(server, name, errorText);
    Failures.DescribeNamesFields(server, name, errorText);
  }
}
