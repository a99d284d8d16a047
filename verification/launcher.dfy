/**
  One invocation of the launcher, from the argument vector to the process status.

  The private display-manager service is not modelled; what the script learns
  from it is passed in:
  - `directory`: the names of the reachable devices in the order the service
    reports them, or `None` when the framework, the manager class, its shared
    instance or the device query is unavailable (the `fatalError` paths);
  - `completion`: what the single connect/disconnect callback delivers, `None`
    for no error and `Some(description)` for an error. It is consulted only when
    an operation is actually requested, and is delivered exactly once.
 */
module Launcher {
  import opened Wrappers
  import opened Ascii
  import opened Cli
  import opened Directory

  /** Process exit statuses. */
  const Ok := 0
  const UsageFailure := 1
  const NoDevices := 2
  const NameNotFound := 3
  const OperationFailed := 4

  /** How the process ends: `exit(code)`, or a `fatalError` trap with no defined status. */
  datatype Termination = Exit(code: nat) | Trap

  /** What the script writes to standard output, one message per `print`. */
  datatype Message =
    | Usage(error: UsageError)      // the one-line reason for a usage error
    | Help                          // the help text
    | NoDevicesDetected
    | NotInList(target: string)     // names the lower-cased target
    | OperationError(description: string)
    | Connected
    | Disconnected
    | DeviceName(name: string)

  /** The one call made on the service's manager, on the device at an index of the directory. */
  datatype Operation = ConnectToDevice(device: nat) | DisconnectFromDevice(device: nat)

  /** Everything observable about one invocation: whether the service was
      contacted at all, the operation invoked (at most one), the output, and how
      the process ended. */
  datatype Outcome = Outcome(contacted: bool, invoked: Option<Operation>, output: seq<Message>, status: Termination)

  /** The `devices` listing: every reported name, in order, one per line. */
  function Listing(names: seq<string>): (lines: seq<Message>)
    ensures |lines| == |names|
    ensures forall i :: 0 <= i < |names| ==> lines[i] == DeviceName(names[i])
  {
    if names == [] then [] else [DeviceName(names[0])] + Listing(names[1..])
  }

  /** The whole script. Stages run in the order of the source: argument checks,
      the service (and its device query), the empty-directory check, then either
      the listing or resolution followed by the single operation. */
  function Run(args: seq<string>, directory: Option<seq<string>>, completion: Option<string>): (o: Outcome)
    // usage errors come first and never reach the service
    ensures o.status == Exit(UsageFailure) <==> Parse(args).Failure?
    ensures Parse(args).Failure? ==>
      !o.contacted && o.invoked.None? && o.output == [Usage(Parse(args).error), Help]
    ensures o.contacted <==> Parse(args).Success?
    // an unavailable service is a trap
    ensures o.status == Trap <==> Parse(args).Success? && directory.None?
    // an empty directory stops every command
    ensures o.status == Exit(NoDevices) <==> Parse(args).Success? && directory == Some([])
    // no match: status 3 and no operation
    ensures o.status == Exit(NameNotFound) <==>
      && Parse(args).Success? && TakesDevice(Parse(args).value.cmd)
      && directory.Some? && |directory.value| > 0
      && forall j :: 0 <= j < |directory.value| ==> !Matches(directory.value[j], Parse(args).value.target)
    // an operation is invoked only on the first matching device, and it is
    // a disconnect exactly for `disconnect`
    ensures o.invoked.Some? ==>
      && Parse(args).Success? && TakesDevice(Parse(args).value.cmd) && directory.Some?
      && IsFirstMatch(directory.value, Parse(args).value.target, o.invoked.value.device)
      && (o.invoked.value.DisconnectFromDevice? <==> Parse(args).value.cmd == Disconnect)
    // and whenever a device matches, that operation is invoked on the first match
    ensures Parse(args).Success? && TakesDevice(Parse(args).value.cmd) && directory.Some? ==>
      forall i :: IsFirstMatch(directory.value, Parse(args).value.target, i) ==>
        o.invoked == Some(if Parse(args).value.cmd == Connect then ConnectToDevice(i) else DisconnectFromDevice(i))
    // the completion decides between status 4 and 0
    ensures o.status == Exit(OperationFailed) <==> o.invoked.Some? && completion.Some?
    ensures o.invoked.Some? && completion.Some? ==> o.output == [OperationError(completion.value)]
    ensures o.invoked.Some? && completion.None? ==>
      o.status == Exit(Ok) && o.output == [if Parse(args).value.cmd == Connect then Connected else Disconnected]
    // no other status is ever produced
    ensures o.status.Exit? ==> o.status.code <= OperationFailed
    // success is either a completed operation or a non-empty listing
    ensures o.status == Exit(Ok) <==>
      (o.invoked.Some? && completion.None?) ||
      (Parse(args) == Success(Request(Devices, "")) && directory.Some? && |directory.value| > 0)
  {
    match Parse(args)
    case Failure(e) => Outcome(false, None, [Usage(e), Help], Exit(UsageFailure))
    case Success(req) =>
      match directory
      case None => Outcome(true, None, [], Trap)
      case Some(names) =>
        if |names| == 0 then Outcome(true, None, [NoDevicesDetected], Exit(NoDevices))
        else if !TakesDevice(req.cmd) then Outcome(true, None, Listing(names), Exit(Ok))
        else match Resolve(names, req.target)
          case None => Outcome(true, None, [NotInList(req.target)], Exit(NameNotFound))
          case Some(i) =>
            assert forall k :: IsFirstMatch(names, req.target, k) ==> k == i by {
              forall k | IsFirstMatch(names, req.target, k) ensures k == i {
                ResolveIsFirstMatch(names, req.target, k);
              }
            }
            var op := if req.cmd == Connect then ConnectToDevice(i) else DisconnectFromDevice(i);
            match completion
            case Some(e) => Outcome(true, Some(op), [OperationError(e)], Exit(OperationFailed))
            case None => Outcome(true, Some(op), [if req.cmd == Connect then Connected else Disconnected], Exit(Ok))
  }

  /** The arguments matter only through what the parser makes of them. */
  lemma RunDependsOnParse(args: seq<string>, args': seq<string>, d: Option<seq<string>>, c: Option<string>)
    requires Parse(args) == Parse(args')
    ensures Run(args, d, c) == Run(args', d, c)
  {
  }

  /** With only the program name the process exits with status 1 before
      contacting the service. */
  lemma OnlyProgramName(directory: Option<seq<string>>, completion: Option<string>)
    ensures Run([], directory, completion) ==
      Outcome(false, None, [Usage(CommandNotSpecified), Help], Exit(UsageFailure))
  {
  }

  /** A usage error does not depend on anything the service would report. */
  lemma UsageErrorIgnoresService(args: seq<string>, d: Option<seq<string>>, c: Option<string>,
                                 d': Option<seq<string>>, c': Option<string>)
    requires Parse(args).Failure?
    ensures Run(args, d, c) == Run(args, d', c')
  {
  }

  /** An empty directory yields status 2 for every command, whatever the
      completion would have been, and nothing is invoked. */
  lemma EmptyDirectoryStopsEveryCommand(args: seq<string>, c: Option<string>)
    requires Parse(args).Success?
    ensures Run(args, Some([]), c) == Outcome(true, None, [NoDevicesDetected], Exit(NoDevices))
  {
  }

  /** A name that matches nothing yields status 3 without invoking anything,
      whatever the completion would have been. */
  lemma NotFoundIgnoresCompletion(args: seq<string>, d: Option<seq<string>>, c: Option<string>, c': Option<string>)
    requires Run(args, d, c).status == Exit(NameNotFound)
    ensures Run(args, d, c') == Run(args, d, c)
    ensures Run(args, d, c).invoked.None?
    ensures Run(args, d, c).output == [NotInList(Parse(args).value.target)]
  {
  }

  /** When the requested name matches, exactly one operation is invoked, on the
      first matching device, and the completion alone decides the rest. */
  lemma MatchInvokesOnce(args: seq<string>, names: seq<string>, c: Option<string>, i: nat)
    requires Parse(args).Success? && TakesDevice(Parse(args).value.cmd)
    requires IsFirstMatch(names, Parse(args).value.target, i)
    ensures var cmd := Parse(args).value.cmd;
      Run(args, Some(names), c) ==
      Outcome(true,
              Some(if cmd == Connect then ConnectToDevice(i) else DisconnectFromDevice(i)),
              [if c.Some? then OperationError(c.value) else if cmd == Connect then Connected else Disconnected],
              Exit(if c.Some? then OperationFailed else Ok))
  {
    ResolveIsFirstMatch(names, Parse(args).value.target, i);
  }

  /** When no reported name matches, the process exits with status 3, naming the target. */
  lemma NoMatchNotFound(args: seq<string>, names: seq<string>, c: Option<string>)
    requires Parse(args).Success? && TakesDevice(Parse(args).value.cmd)
    requires |names| > 0
    requires forall j :: 0 <= j < |names| ==> !Matches(names[j], Parse(args).value.target)
    ensures Run(args, Some(names), c) ==
      Outcome(true, None, [NotInList(Parse(args).value.target)], Exit(NameNotFound))
  {
  }

  /** `devices` on a non-empty directory prints every name in order and succeeds. */
  lemma DevicesListsEveryName(word: string, extra: seq<string>, names: seq<string>, c: Option<string>)
    requires LowerStr(word) == "devices"
    requires |names| > 0
    ensures var o := Run([word] + extra, Some(names), c);
      && o.status == Exit(Ok) && o.invoked.None?
      && |o.output| == |names|
      && forall i :: 0 <= i < |names| ==> o.output[i] == DeviceName(names[i])
  {
    DevicesIgnoresArguments(word, extra);
  }

  /** Both the command word and the device name are case-insensitive, and
      arguments after the device name are ignored. */
  lemma RunCaseInsensitive(w: string, a: string, extra: seq<string>, w': string, b: string,
                           d: Option<seq<string>>, c: Option<string>)
    requires LowerStr(w) == LowerStr(w')
    requires LowerStr(a) == LowerStr(b)
    ensures Run([w, a] + extra, d, c) == Run([w', b], d, c)
  {
    ParseIgnoresTrailing([w, a], extra);
    ParseCaseInsensitive([w, a], [w', b]);
    RunDependsOnParse([w, a] + extra, [w', b], d, c);
  }

  /** A device whose reported name differs from the requested one only in the
      case of ASCII letters is found, provided no earlier device matches. */
  lemma ConnectIgnoresLetterCase(requested: string, names: seq<string>, i: nat, c: Option<string>)
    requires i < |names|
    requires SameUpToCase(names[i], requested)
    requires forall j :: 0 <= j < i ==> LowerStr(names[j]) != LowerStr(requested)
    ensures Run(["connect", requested], Some(names), c).invoked == Some(ConnectToDevice(i))
  {
    LowerStrCaseInsensitive(names[i], requested);
    LowerStrFixedPoints("connect");
    assert Parse(["connect", requested]) == Success(Request(Connect, LowerStr(requested)));
    MatchInvokesOnce(["connect", requested], names, c, i);
  }
}
