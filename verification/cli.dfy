/**
  Argument validation of the launcher. `args` is the argument vector WITHOUT the
  program name, so the source's `CommandLine.arguments.count == 1` is `|args| == 0`
  here and `CommandLine.arguments[k]` is `args[k - 1]`.
 */
module Cli {
  import opened Wrappers
  import opened Ascii

  /** The three command words, as the `Command` enum with raw `String` values. */
  datatype Command = Devices | Connect | Disconnect

  /** The raw value of each case of the enum. */
  function RawValue(c: Command): string {
    match c
    case Devices => "devices"
    case Connect => "connect"
    case Disconnect => "disconnect"
  }

  /** `Command(rawValue:)`: the case whose raw value is exactly `s`, if any. */
  function CommandFromRaw(s: string): (r: Option<Command>)
    ensures r.Some? ==> RawValue(r.value) == s
    ensures r.None? ==> forall c: Command :: RawValue(c) != s
  {
    if s == "devices" then Some(Devices)
    else if s == "connect" then Some(Connect)
    else if s == "disconnect" then Some(Disconnect)
    else None
  }

  /** True for the commands that take a device name. */
  predicate TakesDevice(c: Command) {
    c == Connect || c == Disconnect
  }

  /** A validated invocation: the command and the lower-cased target device name
      (the empty string for `devices`). */
  datatype Request = Request(cmd: Command, target: string)

  /** The three usage errors, each of which ends the process with status 1. */
  datatype UsageError = CommandNotSpecified | InvalidCommand | DeviceNameNotSpecified

  /** Classifies the arguments. The command word is compared after lower-casing;
      a device name is required after `connect` and `disconnect`; anything after
      that, and anything after `devices`, is ignored. */
  function Parse(args: seq<string>): (r: Result<Request, UsageError>)
    ensures r == Failure(CommandNotSpecified) <==> |args| == 0
    ensures r == Failure(InvalidCommand) <==>
      |args| > 0 && forall c: Command :: RawValue(c) != LowerStr(args[0])
    ensures r == Failure(DeviceNameNotSpecified) <==>
      |args| == 1 && (LowerStr(args[0]) == "connect" || LowerStr(args[0]) == "disconnect")
    ensures r.Success? ==>
      && |args| > 0
      && RawValue(r.value.cmd) == LowerStr(args[0])
      && (TakesDevice(r.value.cmd) ==> |args| >= 2 && r.value.target == LowerStr(args[1]))
      && (!TakesDevice(r.value.cmd) ==> r.value.target == "")
  {
    if |args| == 0 then Failure(CommandNotSpecified)
    else match CommandFromRaw(LowerStr(args[0]))
      case None => Failure(InvalidCommand)
      case Some(cmd) =>
        if TakesDevice(cmd) then
          if |args| == 1 then Failure(DeviceNameNotSpecified)
          else Success(Request(cmd, LowerStr(args[1])))
        else Success(Request(cmd, ""))
  }

  /** A request the parser can produce: its target is lower-cased, and empty exactly for `devices`. */
  predicate WellFormed(req: Request) {
    if TakesDevice(req.cmd) then IsLowered(req.target) else req.target == ""
  }

  /** The shortest argument vector that asks for `req`. */
  function Words(req: Request): (args: seq<string>)
    ensures 1 <= |args| <= 2
  {
    if TakesDevice(req.cmd) then [RawValue(req.cmd), req.target] else [RawValue(req.cmd)]
  }

  /** `Command(rawValue:)` inverts the raw values, and only the raw values map to a case. */
  lemma CommandRawRoundTrip(c: Command, s: string)
    ensures CommandFromRaw(RawValue(c)) == Some(c)
    ensures CommandFromRaw(s) == Some(c) <==> s == RawValue(c)
  {
  }

  /** Every well-formed request is parsed back from its words followed by any
      extra arguments. */
  lemma ParseWordsRoundTrip(req: Request, extra: seq<string>)
    requires WellFormed(req)
    ensures Parse(Words(req) + extra) == Success(req)
  {
    var args := Words(req) + extra;
    var w := RawValue(req.cmd);
    LowerStrFixedPoints(w);
    assert args[0] == w;
    assert LowerStr(w) == w;
    if TakesDevice(req.cmd) {
      LowerStrFixedPoints(req.target);
      assert args[1] == req.target;
    }
  }

  /** Whatever the parser accepts is well-formed. */
  lemma ParseYieldsWellFormed(args: seq<string>)
    ensures Parse(args).Success? ==> WellFormed(Parse(args).value)
  {
    if Parse(args).Success? && TakesDevice(Parse(args).value.cmd) {
      LowerStrFixedPoints(args[1]);
    }
  }

  /** Only the first two arguments matter: anything after them changes nothing. */
  lemma ParseIgnoresTrailing(args: seq<string>, extra: seq<string>)
    requires |args| >= 2
    ensures Parse(args + extra) == Parse(args)
  {
    assert (args + extra)[0] == args[0];
    assert (args + extra)[1] == args[1];
  }

  /** `devices` ignores every further argument. */
  lemma DevicesIgnoresArguments(word: string, extra: seq<string>)
    requires LowerStr(word) == "devices"
    ensures Parse([word] + extra) == Success(Request(Devices, ""))
  {
    assert ([word] + extra)[0] == word;
  }

  /** The parser sees the command word and the device name only through their
      lower-case forms: vectors of the same length whose first two words fold
      alike parse alike. */
  lemma ParseCaseInsensitive(args: seq<string>, args': seq<string>)
    requires |args| == |args'|
    requires |args| >= 1 ==> LowerStr(args[0]) == LowerStr(args'[0])
    requires |args| >= 2 ==> LowerStr(args[1]) == LowerStr(args'[1])
    ensures Parse(args) == Parse(args')
  {
  }

  /** An upper-case command word is accepted. */
  lemma UpperCaseCommandWord(name: string)
    ensures Parse(["CONNECT", name]) == Success(Request(Connect, LowerStr(name)))
  {
    assert LowerStr("CONNECT") == "connect";
  }
}
