/** The argument vector of `virtctl port-forward`, and its inverse. */
module PortForwardArgv {
  import opened Decimal
  import opened Wrappers

  datatype Request = Request(kubeconfig: string, context: string, namespace: string, vmName: string, localPort: int)

  function FlagArgs(name: string, value: string): seq<string> {
    if value == "" then [] else [name, value]
  }

  function TargetArg(namespace: string, vmName: string): string {
    "vm/" + vmName + (if namespace == "" then "" else "/" + namespace)
  }

  function Argv(r: Request): seq<string> {
    ["port-forward"] + FlagArgs("--kubeconfig", r.kubeconfig) + FlagArgs("--context", r.context)
    + [TargetArg(r.namespace, r.vmName), Itoa(r.localPort) + ":22"]
  }

  method BuildArgv(r: Request) returns (argv: seq<string>)
    ensures argv == Argv(r)
    ensures argv == ["port-forward"]
                    + (if r.kubeconfig != "" then ["--kubeconfig", r.kubeconfig] else [])
                    + (if r.context != "" then ["--context", r.context] else [])
                    + ["vm/" + r.vmName + (if r.namespace != "" then "/" + r.namespace else "")]
                    + [Itoa(r.localPort) + ":22"]
  {
    argv := ["port-forward"];
    if r.kubeconfig != "" {
      argv := argv + ["--kubeconfig", r.kubeconfig];
    }
    if r.context != "" {
      argv := argv + ["--context", r.context];
    }
    var target := "vm/" + r.vmName;
    if r.namespace != "" {
      target := target + ("/" + r.namespace);
    }
    argv := argv + [target, Itoa(r.localPort) + ":22"];
    assert target == TargetArg(r.namespace, r.vmName);
  }

  /* ----- reading an argument vector back ----- */

  function TakeFlag(argv: seq<string>, name: string): (string, seq<string>) {
    if |argv| >= 4 && argv[0] == name then (argv[1], argv[2..]) else ("", argv)
  }

  /** The text before the first slash, and after it. */
  function CutSlash(s: string): (string, string) {
    if s == "" then ("", "")
    else if s[0] == '/' then ("", s[1..])
    else var (before, after) := CutSlash(s[1..]); ([s[0]] + before, after)
  }

  function ParseArgv(argv: seq<string>): Option<Request> {
    if argv == [] || argv[0] != "port-forward" then None
    else
      var (kubeconfig, rest) := TakeFlag(argv[1..], "--kubeconfig");
      var (context, args) := TakeFlag(rest, "--context");
      if |args| != 2 || !("vm/" <= args[0]) || |args[1]| < 3 || args[1][|args[1]| - 3..] != ":22" then None
      else
        match Atoi(args[1][..|args[1]| - 3])
        case None => None
        case Some(port) =>
          var (vmName, namespace) := CutSlash(args[0][3..]);
          Some(Request(kubeconfig, context, namespace, vmName, port))
  }

  lemma {:induction false} CutAtFirstSlash(name: string, rest: string)
    requires '/' !in name
    ensures CutSlash(name + "/" + rest) == (name, rest)
    ensures CutSlash(name) == (name, "")
    decreases |name|
  {
    if name == "" {
      assert "" + "/" + rest == "/" + rest;
      assert ("/" + rest)[1..] == rest;
    } else {
      assert (name + "/" + rest)[1..] == name[1..] + "/" + rest;
      CutAtFirstSlash(name[1..], rest);
      assert [name[0]] + name[1..] == name;
    }
  }

  lemma FlagIsTaken(name: string, value: string, rest: seq<string>)
    requires |rest| >= 2 && rest[0] != name
    ensures TakeFlag(FlagArgs(name, value) + rest, name) == (value, rest)
  {
    if value == "" {
      assert FlagArgs(name, value) + rest == rest;
    } else {
      assert (FlagArgs(name, value) + rest)[2..] == rest;
    }
  }

  lemma TargetIsCut(namespace: string, vmName: string)
    requires '/' !in vmName
    ensures "vm/" <= TargetArg(namespace, vmName)
    ensures CutSlash(TargetArg(namespace, vmName)[3..]) == (vmName, namespace)
  {
    var target := TargetArg(namespace, vmName);
    CutAtFirstSlash(vmName, namespace);
    assert target == "vm/" + target[3..];
    if namespace == "" {
      assert target[3..] == vmName;
    } else {
      assert target[3..] == vmName + "/" + namespace;
    }
  }

  lemma PortIsRead(port: int)
    requires MIN_INT <= port <= MAX_INT
    ensures var arg := Itoa(port) + ":22";
            |arg| >= 3 && arg[|arg| - 3..] == ":22" && Atoi(arg[..|arg| - 3]) == Some(port)
  {
    var arg := Itoa(port) + ":22";
    assert arg[..|arg| - 3] == Itoa(port);
    AtoiOfItoa(port);
  }

  /** Arguments after the flags: the target is never mistaken for one. */
  function Positional(r: Request): seq<string> {
    [TargetArg(r.namespace, r.vmName), Itoa(r.localPort) + ":22"]
  }

  /**
   Every request for a VirtualMachine name without a slash is read back exactly: both optional flags
   present or absent, whatever their values, with or without a namespace, at every 64-bit port number.
   */
  lemma ArgvIsUndone(r: Request)
    requires '/' !in r.vmName && MIN_INT <= r.localPort <= MAX_INT
    ensures ParseArgv(Argv(r)) == Some(r)
  {
    var tail := Positional(r);
    var rest := FlagArgs("--context", r.context) + tail;
    TargetIsCut(r.namespace, r.vmName);
    PortIsRead(r.localPort);
    assert tail[0][0] == 'v';
    FlagIsTaken("--context", r.context, tail);
    assert rest[0] != "--kubeconfig";
    FlagIsTaken("--kubeconfig", r.kubeconfig, rest);
    assert Argv(r)[1..] == FlagArgs("--kubeconfig", r.kubeconfig) + rest;
  }

  /** Two requests for slash-free names share an argument vector only when they are the same request. */
  lemma ArgvIsInjective(a: Request, b: Request)
    requires '/' !in a.vmName && '/' !in b.vmName
    requires MIN_INT <= a.localPort <= MAX_INT && MIN_INT <= b.localPort <= MAX_INT
    requires Argv(a) == Argv(b)
    ensures a == b
  {
    ArgvIsUndone(a);
    ArgvIsUndone(b);
  }

  /** Without that, a name can swallow the namespace. */
  lemma SlashedNamesCollide(r: Request)
    requires r.vmName == "a/b" && r.namespace == ""
    ensures Argv(r) == Argv(r.(vmName := "a", namespace := "b"))
  {
    assert TargetArg("", "a/b") == TargetArg("b", "a");
  }
}
