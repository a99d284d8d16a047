# SidecarLauncher, modelled in Dafny

SidecarLauncher is a macOS command-line tool that lists the devices the private
Sidecar display-manager service can reach, and connects to or disconnects from
one of them by name. Its whole decision procedure is one top-level script. This
project models that script as pure functions and proves what it does. The
script has four stages:

1. **Argument validation** (`Cli.Parse`). The command word (`devices`, `connect`,
   `disconnect`) is matched after lower-casing. `connect` and `disconnect` need a
   device name. That name is lower-cased. Every further argument is ignored.
2. **Service and device query.** The service is represented by its answers. One
   answer is the ordered list of device names, or `None` when the service cannot
   be reached; that is the `fatalError` path, modelled as `Trap`. An empty list
   ends the run with status 2.
3. **Device resolution** (`Directory.Resolve`, `Directory.FindFirst`). The model
   picks the first device whose lower-cased name equals the lower-cased target.
4. **The single operation and its completion** (`Launcher.Run`). Exactly one of
   `connectToDevice` and `disconnectFromDevice` is invoked, on the resolved
   device. A completion carrying an error gives status 4. One without an error
   prints `connected` or `disconnected`, and the script then falls off the end
   with status 0. `devices` prints every name in order.

Exit statuses: 0 success, 1 usage error, 2 no devices, 3 name not found, 4 the
completion reported an error.

Files: `wrappers.dfy` (Option, Result), `ascii.dfy` (case folding), `cli.dfy`
(the `Command` enum and argument validation), `directory.dfy` (first-match
resolution), `launcher.dfy` (the whole run), `scenarios.dfy` (concrete
invocations).

Modelling decisions:
- `args` is the argument vector without the program name. The source's
  `CommandLine.arguments.count == 1` is therefore `|args| == 0`.
- The service's answers are inputs: `directory: Option<seq<string>>` and
  `completion: Option<string>`. A device is identified by its index in the
  reported list.
- The code has no transport option (such as a wired-connection flag) for
  `connect`, so the model has none. `connect <name> -wired` simply ignores
  `-wired`, like any other argument after the device name.

## Model

| member | source | states |
|---|---|---|
| Ascii.LowerStr | SidecarLauncher/main.swift:33 | lower-casing keeps the length and folds each character on its own (ASCII letters only) |
| Ascii.LowerStrFixedPoints | SidecarLauncher/main.swift:46 | a lower-cased string has no upper-case letters, and a string is its own lower-case form exactly when it has none |
| Ascii.LowerStrIdempotent | SidecarLauncher/main.swift:75 | lower-casing the already lower-cased target again changes nothing |
| Ascii.LowerStrCaseInsensitive | SidecarLauncher/main.swift:75 | two strings fold to the same string iff they have the same length and each pair of characters is equal up to ASCII letter case: case-insensitive, otherwise exact |
| Cli.CommandFromRaw | SidecarLauncher/main.swift:10-14 | `Command(rawValue:)` yields a case only for that case's exact raw value, and none for every other string |
| Cli.CommandRawRoundTrip | SidecarLauncher/main.swift:10-14 | raw value and `Command(rawValue:)` are inverse: a string maps to a case iff it is that case's raw value |
| Cli.Parse | SidecarLauncher/main.swift:27-49 | each of the three usage errors happens exactly in its own situation (no arguments; an unknown command word after lower-casing; connect/disconnect without a name). On success the command's raw value is the lower-cased first word, and the target is the lower-cased second word for connect/disconnect and empty for devices |
| Cli.ParseWordsRoundTrip | SidecarLauncher/main.swift:33-46 | every request with a lower-case target is parsed back from its command word and name, followed by any extra arguments |
| Cli.ParseYieldsWellFormed | SidecarLauncher/main.swift:39-49 | every accepted request has a lower-case target, and an empty one for devices |
| Cli.ParseIgnoresTrailing | SidecarLauncher/main.swift:40-46 | arguments after the second one never change the parse |
| Cli.DevicesIgnoresArguments | SidecarLauncher/main.swift:47-49 | `devices`, in any letter case and followed by anything, parses as Devices with an empty target |
| Cli.ParseCaseInsensitive | SidecarLauncher/main.swift:33-46 | argument vectors of equal length whose first two words fold alike parse alike |
| Cli.UpperCaseCommandWord | SidecarLauncher/main.swift:33-37 | `CONNECT <name>` parses as Connect with the lower-cased name |
| Directory.Resolve | SidecarLauncher/main.swift:73-76 | the result is the smallest index whose lower-cased name equals the target, and there is no result iff no entry matches |
| Directory.FindFirst | SidecarLauncher/main.swift:73-76 | the loop stops at a match with no match before it, or it reports that no entry matches; either way its answer is the one `Resolve` gives |
| Directory.ResolveIsFirstMatch | SidecarLauncher/main.swift:73-76 | Resolve returns i iff i is the first match, so the first match is unique |
| Directory.ResolveIgnoresLaterEntries | SidecarLauncher/main.swift:73-76 | first match wins: entries appended after a match, duplicates included, never change the answer |
| Directory.ResolveSkipsNonMatching | SidecarLauncher/main.swift:73-76 | prepending entries that do not match shifts the answer by their count, and keeps "no match" as no match |
| Launcher.Listing | SidecarLauncher/main.swift:106-109 | the listing prints one line per reported device, in the reported order, naming it |
| Launcher.Run | SidecarLauncher/main.swift:27-110 | status 1 iff parsing fails, and then the service is not contacted. Trap iff the service is unavailable. Status 2 iff the list is empty. Status 3 iff no entry matches. Any operation is on the first match, and whenever a first match exists that operation is invoked; it is a disconnect iff the command is disconnect. Status 4 iff an operation was invoked and its completion carried an error. Status 0 iff a completion without error or a non-empty listing; no status above 4 is produced |
| Launcher.RunDependsOnParse | SidecarLauncher/main.swift:27-49 | the arguments affect the run only through the parsed request |
| Launcher.OnlyProgramName | SidecarLauncher/main.swift:27-31 | with only the program name: status 1, the reason and help text printed, no query, no operation |
| Launcher.UsageErrorIgnoresService | SidecarLauncher/main.swift:27-49 | a usage error precedes the device query, so the run does not depend on the service's answers |
| Launcher.EmptyDirectoryStopsEveryCommand | SidecarLauncher/main.swift:67-70 | an empty list gives status 2 for every valid command, before any lookup or operation, whatever the completion |
| Launcher.NotFoundIgnoresCompletion | SidecarLauncher/main.swift:78-85 | on status 3 nothing is invoked, the lower-cased target is named in the output, and the completion is irrelevant |
| Launcher.MatchInvokesOnce | SidecarLauncher/main.swift:88-103 | when i is the first match, exactly one operation is invoked, on i, and it is a disconnect iff the command is disconnect. The completion then alone decides between its description with status 4 and connected/disconnected with status 0 |
| Launcher.NoMatchNotFound | SidecarLauncher/main.swift:78-85 | a non-empty list with no matching entry gives status 3 and no operation |
| Launcher.DevicesListsEveryName | SidecarLauncher/main.swift:105-109 | `devices` on a non-empty list prints every name in order, invokes nothing and gives status 0 |
| Launcher.RunCaseInsensitive | SidecarLauncher/main.swift:33-76 | command word and device name are matched case-insensitively, and arguments after the name are ignored, for the whole run |
| Launcher.ConnectIgnoresLetterCase | SidecarLauncher/main.swift:73-76 | a device whose name differs from the requested one only in letter case is the one connected to, if no earlier device matches |
| Scenarios.OfficeIpadScenario | SidecarLauncher/main.swift:72-103 | `connect "office ipad"` against Kitchen iPad and Office iPad connects once, to the second device, prints connected and gives status 0 |
| Scenarios.ApostropheScenario | SidecarLauncher/main.swift:78-85 | a trailing space or a different apostrophe glyph gives status 3, while a difference in letter case alone connects |
| Scenarios.CompletionErrorScenario | SidecarLauncher/main.swift:93-95 | a disconnect whose completion carries an error prints that error's description and gives status 4 |

## Left out

- Loading the private framework, the Objective-C runtime lookups and the dynamic
  `perform` calls (lines 51-65, 74, 102, 106). They are calls into a foreign
  runtime. What they return is an input: the list of names, or `None`, which
  gives `Trap`.
- The `fatalError` paths have no defined exit status and write to standard
  error. They are collapsed into the single outcome `Trap` with no output.
- The `DispatchGroup` enter/leave/wait bridging (lines 87-103) is concurrency.
  The completion is one input value, delivered exactly once. A completion that
  never arrives would block forever; that case is not modelled.
- The exact help and diagnostic texts and how an `NSError` prints are not
  modelled. Output is a sequence of abstract messages, one per `print`.
- Ascii.LowerStr: folds only the ASCII letters A-Z. Swift's `lowercased()`
  applies the full Unicode case mapping, which this model does not include.
- Directory.Matches: names are compared as sequences of Unicode scalar values.
  Swift's `String ==` compares grapheme clusters up to canonical equivalence,
  so a precomposed and a decomposed spelling of the same text (NFC and NFD,
  such as `é` against `e` followed by a combining acute accent) match in the
  source but not in the model.
- Argument vectors with no program name at all cannot occur, and the source
  does not handle them (it would index past the end). The model starts from
  the arguments after the program name.
- The forced `as! String` cast of a device's name (lines 74, 106) is not
  modelled. Every reported name is a string by construction.
