/** The command dispatcher: `listen`, `write <text>` and `info`, each gated by
    the platform probe, with the exit code of every outcome.
    The two OS capabilities (the global hook and the text injector) are
    oracles fixed when the process starts; the process records every call it
    makes to them. */
module Dispatch {
  import opened Wrappers
  import opened PlatformErrors
  import opened Platform
  import opened Events
  import opened Listener

  /** What the text injector will report: creating it, then typing the text.
      A failure carries the injector's own message. */
  datatype Injector = Injector(init: Result<string>, typing: Result<string>)

  /** What the global hook will do once started: deliver `events` to the
      callback, in order, and then return `result`. */
  datatype Hook = Hook(events: seq<Event>, result: Result<string>)

  /** The error `write_text` propagates. */
  datatype WriteError =
    | WriteGateError(cause: PlatformError)
    | InjectorInitError(detail: string)
    | TypingError(detail: string)

  /** The error `listen_for_events` propagates. */
  datatype ListenError = ListenGateError(cause: PlatformError) | HookError(detail: string)

  /** The environment variables `info` echoes on Linux. */
  datatype EnvVar = DisplayVar | WaylandDisplayVar | SessionTypeVar

  /** A line on standard output. */
  datatype OutLine =
    | PlatformLine(platform: string)
    | StatusReady
    | StatusNotReady(message: string)
    | ResolutionHint(os: OsFamily)
    | EnvValue(variable: EnvVar, value: string)
    | EventLine(record: RdevEvent)

  /** A diagnostic on standard error; the wording is not modelled, only the
      kind of message and the values it shows. */
  datatype Diagnostic =
    | AccessibilityReminder
    | WritePlatformError(platform: string, message: string)
    | WriteWaylandHint
    | InjectorCreationFailed(platform: string, detail: string)
    | InjectorPermissionHint(os: OsFamily)
    | TypingFailed(platform: string, detail: string)
    | WriteCommandFailed(message: string)
    | ListenPlatformError(platform: string, message: string)
    | ListenWaylandHint
    | ListenerStarting(platform: string)
    | HookFailed(detail: string)
    | ListenCommandFailed(platform: string)
    | WriteNeedsText
    | Usage(platform: string, program: string, os: OsFamily)

  /** The command selected by the argument vector. */
  datatype Command = Listen | Write(text: string) | WriteMissingText | Info | Unknown

  const DefaultProgramName: string := "speakmcp-rs"

  /** Dispatch on `args[1]`; `write` takes its text from `args[2]` and
      ignores anything after it. */
  function ParseArgs(args: seq<string>): (c: Command)
    ensures c.Listen? <==> |args| >= 2 && args[1] == "listen"
    ensures c.Info? <==> |args| >= 2 && args[1] == "info"
    ensures c.Write? <==> |args| >= 3 && args[1] == "write"
    ensures c.Write? ==> c.text == args[2]
    ensures c.WriteMissingText? <==> |args| == 2 && args[1] == "write"
    ensures c.Unknown? <==> |args| < 2 || args[1] !in {"listen", "write", "info"}
  {
    if |args| < 2 then Unknown
    else if args[1] == "listen" then Listen
    else if args[1] == "write" then (if |args| < 3 then WriteMissingText else Write(args[2]))
    else if args[1] == "info" then Info
    else Unknown
  }

  function ProgramName(args: seq<string>): string {
    if |args| > 0 then args[0] else DefaultProgramName
  }

  /** The message `Display` gives the error `write` reports. */
  function WriteErrorMessage(e: WriteError): string {
    match e
    case WriteGateError(cause) => Render(cause)
    case InjectorInitError(detail) => detail
    case TypingError(detail) => detail
  }

  /** The outcome of `write_text`: gate, then injector creation, then typing,
      stopping at the first failure and reporting it unchanged. */
  function WriteTextResult(os: OsFamily, env: Env, injector: Injector): (r: Result<WriteError>)
    ensures r.Ok? <==> CheckPlatformRequirements(os, env).Ok? && injector.init.Ok? && injector.typing.Ok?
    ensures r.Err? && r.error.WriteGateError? ==> CheckPlatformRequirements(os, env) == Err(r.error.cause)
    ensures r.Err? && r.error.InjectorInitError? ==>
      CheckPlatformRequirements(os, env).Ok? && injector.init == Err(r.error.detail)
    ensures r.Err? && r.error.TypingError? ==>
      CheckPlatformRequirements(os, env).Ok? && injector.init.Ok? && injector.typing == Err(r.error.detail)
  {
    var gate := CheckPlatformRequirements(os, env);
    if gate.Err? then Err(WriteGateError(gate.error))
    else if injector.init.Err? then Err(InjectorInitError(injector.init.error))
    else if injector.typing.Err? then Err(TypingError(injector.typing.error))
    else Ok
  }

  /** The outcome of `listen_for_events` once the hook has returned. */
  function ListenResult(os: OsFamily, env: Env, hook: Hook): (r: Result<ListenError>)
    ensures r.Ok? <==> CheckPlatformRequirements(os, env).Ok? && hook.result.Ok?
    ensures r.Err? && r.error.ListenGateError? ==> CheckPlatformRequirements(os, env) == Err(r.error.cause)
    ensures r.Err? && r.error.HookError? ==>
      CheckPlatformRequirements(os, env).Ok? && hook.result == Err(r.error.detail)
  {
    var gate := CheckPlatformRequirements(os, env);
    if gate.Err? then Err(ListenGateError(gate.error))
    else if hook.result.Err? then Err(HookError(hook.result.error))
    else Ok
  }

  /** The exit code of the process: 0 for `info` and for a successful `write`
      or returning `listen`, 101 for a failed `write`, 1 for everything else. */
  function ExitCode(os: OsFamily, env: Env, injector: Injector, hook: Hook, args: seq<string>): (code: int)
    ensures code in {0, 1, 101}
    ensures code == 101 <==> ParseArgs(args).Write? && WriteTextResult(os, env, injector).Err?
    ensures code == 0 <==>
      || ParseArgs(args).Info?
      || (ParseArgs(args).Write? && WriteTextResult(os, env, injector).Ok?)
      || (ParseArgs(args).Listen? && ListenResult(os, env, hook).Ok?)
  {
    match ParseArgs(args)
    case Listen => if ListenResult(os, env, hook).Ok? then 0 else 1
    case Write(_) => if WriteTextResult(os, env, injector).Ok? then 0 else 101
    case WriteMissingText => 1
    case Info => 0
    case Unknown => 1
  }

  /** The macOS gate's warning. */
  function GateWarnings(os: OsFamily): seq<Diagnostic> {
    if os == MacOS then [AccessibilityReminder] else []
  }

  /** What `write_text` prints to standard error. The Wayland hint appears
      exactly when the Linux gate refuses a Wayland session, and the permission
      hint exactly when the injector cannot be created on macOS or Linux. */
  function WriteTextDiagnostics(os: OsFamily, env: Env, injector: Injector): (d: seq<Diagnostic>)
    ensures WriteWaylandHint in d <==> os == Linux && CheckPlatformRequirements(os, env) == Err(WaylandNotSupported)
    ensures forall o :: InjectorPermissionHint(o) in d <==>
      o == os && (os == MacOS || os == Linux) && CheckPlatformRequirements(os, env).Ok? && injector.init.Err?
  {
    var gate := CheckPlatformRequirements(os, env);
    var platform := PlatformInfo(os, env);
    GateWarnings(os) +
    if gate.Err? then
      [WritePlatformError(platform, Render(gate.error))] +
      (if os == Linux && gate.error.WaylandNotSupported? then [WriteWaylandHint] else [])
    else if injector.init.Err? then
      [InjectorCreationFailed(platform, injector.init.error)] +
      (if os == MacOS || os == Linux then [InjectorPermissionHint(os)] else [])
    else if injector.typing.Err? then
      [TypingFailed(platform, injector.typing.error)]
    else []
  }

  /** What `listen_for_events` prints to standard error. The Wayland hint
      appears exactly when the Linux gate refuses a Wayland session. */
  function ListenDiagnostics(os: OsFamily, env: Env, hook: Hook): (d: seq<Diagnostic>)
    ensures ListenWaylandHint in d <==> os == Linux && CheckPlatformRequirements(os, env) == Err(WaylandNotSupported)
  {
    var gate := CheckPlatformRequirements(os, env);
    var platform := PlatformInfo(os, env);
    GateWarnings(os) +
    if gate.Err? then
      [ListenPlatformError(platform, Render(gate.error))] +
      (if os == Linux && gate.error.WaylandNotSupported? then [ListenWaylandHint] else [])
    else
      [ListenerStarting(platform)] + (if hook.result.Err? then [HookFailed(hook.result.error)] else [])
  }

  /** The stdout lines of the forwarded records. */
  function EventLines(records: seq<RdevEvent>): (lines: seq<OutLine>)
    ensures |lines| == |records|
    ensures forall i :: 0 <= i < |records| ==> lines[i] == EventLine(records[i])
  {
    if records == [] then [] else [EventLine(records[0])] + EventLines(records[1..])
  }

  lemma EventLinesAppend(a: seq<RdevEvent>, b: seq<RdevEvent>)
    ensures EventLines(a + b) == EventLines(a) + EventLines(b)
  {
  }

  function EnvLine(variable: EnvVar, value: Option<string>): seq<OutLine> {
    if value.Some? then [EnvValue(variable, value.value)] else []
  }

  function EnvOf(env: Env, variable: EnvVar): Option<string> {
    match variable
    case DisplayVar => env.display
    case WaylandDisplayVar => env.waylandDisplay
    case SessionTypeVar => env.sessionType
  }

  /** The status lines of `info` for a gate verdict. */
  function StatusLines(os: OsFamily, gate: Result<PlatformError>): (lines: seq<OutLine>)
    ensures |lines| >= 1 && (lines[0] == StatusReady <==> gate.Ok?)
    ensures forall m :: StatusNotReady(m) in lines <==> gate.Err? && m == Render(gate.error)
    ensures forall v, x :: EnvValue(v, x) !in lines
    ensures forall r :: EventLine(r) !in lines
  {
    if gate.Ok? then [StatusReady]
    else
      [StatusNotReady(Render(gate.error))] +
      (if (gate.error.AccessibilityDenied? && os == MacOS) || (gate.error.WaylandNotSupported? && os == Linux)
       then [ResolutionHint(os)] else [])
  }

  /** The environment lines of `info`, Linux only. */
  function EnvLines(os: OsFamily, env: Env): (lines: seq<OutLine>)
    ensures os != Linux ==> lines == []
    ensures forall i :: 0 <= i < |lines| ==> lines[i].EnvValue?
    ensures forall i, j :: 0 <= i < j < |lines| ==> lines[i].variable != lines[j].variable
    ensures forall v, x :: EnvValue(v, x) in lines <==> os == Linux && EnvOf(env, v) == Some(x)
    ensures forall m :: StatusNotReady(m) !in lines
    ensures forall r :: EventLine(r) !in lines
  {
    if os == Linux then
      EnvLine(DisplayVar, env.display) + EnvLine(WaylandDisplayVar, env.waylandDisplay) +
      EnvLine(SessionTypeVar, env.sessionType)
    else []
  }

  /** What `info` prints to standard output: the platform label, the gate's
      verdict (with a resolution hint for the failures that have one), and on
      Linux the raw value of each display variable that is set. */
  function InfoReport(os: OsFamily, env: Env): (lines: seq<OutLine>)
    ensures |lines| >= 2
    ensures lines[0] == PlatformLine(PlatformInfo(os, env))
    ensures lines[1] == StatusReady <==> CheckPlatformRequirements(os, env).Ok?
    ensures CheckPlatformRequirements(os, env).Err? ==>
      lines[1] == StatusNotReady(Render(CheckPlatformRequirements(os, env).error))
    ensures forall m :: StatusNotReady(m) in lines <==>
      CheckPlatformRequirements(os, env).Err? && m == Render(CheckPlatformRequirements(os, env).error)
    ensures forall v, x :: EnvValue(v, x) in lines <==> os == Linux && EnvOf(env, v) == Some(x)
    ensures forall o :: ResolutionHint(o) in lines <==>
      o == Linux && os == Linux && CheckPlatformRequirements(os, env) == Err(WaylandNotSupported)
    ensures forall r :: EventLine(r) !in lines
  {
    [PlatformLine(PlatformInfo(os, env))] + StatusLines(os, CheckPlatformRequirements(os, env)) + EnvLines(os, env)
  }

  /** The macOS resolution hint of `info` is never printed: the macOS gate
      always passes, so it never reports `AccessibilityDenied`. */
  lemma AccessibilityResolutionUnreachable(env: Env)
    ensures ResolutionHint(MacOS) !in InfoReport(MacOS, env)
  {
  }

  /** A Wayland session on Linux is refused by both `listen` and `write`,
      whatever the providers would have done. */
  lemma WaylandSessionRefused(env: Env, injector: Injector, hook: Hook, program: string, text: string)
    requires env.waylandDisplay.Some? && IsWaylandSession(env.sessionType)
    ensures ExitCode(Linux, env, injector, hook, [program, "listen"]) == 1
    ensures ExitCode(Linux, env, injector, hook, [program, "write", text]) == 101
  {
  }

  /** `write` ignores everything after its text argument. */
  lemma WriteIgnoresExtraArguments(os: OsFamily, env: Env, injector: Injector, hook: Hook,
                                   args: seq<string>, extra: seq<string>)
    requires |args| >= 3
    ensures ParseArgs(args + extra) == ParseArgs(args)
    ensures ExitCode(os, env, injector, hook, args + extra) == ExitCode(os, env, injector, hook, args)
  {
  }

  /** One run of the helper process: its standard streams and the calls it
      has made to the capability providers. */
  class Process {
    const os: OsFamily
    const env: Env
    const injector: Injector
    const hook: Hook

    var stdout: seq<OutLine>
    var stderr: seq<Diagnostic>
    var injectorInits: nat    // times the text injector was created
    var typed: seq<string>    // texts handed to the injector, in order
    var hookStarts: nat       // times the global hook was started

    constructor (os: OsFamily, env: Env, injector: Injector, hook: Hook)
      ensures this.os == os && this.env == env && this.injector == injector && this.hook == hook
      ensures stdout == [] && stderr == [] && injectorInits == 0 && typed == [] && hookStarts == 0
    {
      this.os := os;
      this.env := env;
      this.injector := injector;
      this.hook := hook;
      stdout := [];
      stderr := [];
      injectorInits := 0;
      typed := [];
      hookStarts := 0;
    }

    /** `check_platform_requirements`, with the macOS warning it prints. */
    method CheckRequirements() returns (r: Result<PlatformError>)
      modifies this`stderr
      ensures r == CheckPlatformRequirements(os, env)
      ensures stderr == old(stderr) + GateWarnings(os)
    {
      if os == MacOS {
        stderr := stderr + [AccessibilityReminder];
      }
      r := CheckPlatformRequirements(os, env);
    }

    /** `write_text`: the injector is created only when the gate passes, and
      handed `text` unchanged only when it was created. */
    method WriteText(text: string) returns (r: Result<WriteError>)
      modifies this`stderr, this`injectorInits, this`typed
      ensures r == WriteTextResult(os, env, injector)
      ensures stderr == old(stderr) + WriteTextDiagnostics(os, env, injector)
      ensures injectorInits == old(injectorInits) + (if CheckPlatformRequirements(os, env).Ok? then 1 else 0)
      ensures typed == old(typed) +
        (if CheckPlatformRequirements(os, env).Ok? && injector.init.Ok? then [text] else [])
    {
      var gate := CheckRequirements();
      if gate.Err? {
        var platform := PlatformInfo(os, env);
        stderr := stderr + [WritePlatformError(platform, Render(gate.error))];
        if os == Linux && gate.error.WaylandNotSupported? {
          stderr := stderr + [WriteWaylandHint];
        }
        return Err(WriteGateError(gate.error));
      }
      injectorInits := injectorInits + 1;
      if injector.init.Err? {
        var platform := PlatformInfo(os, env);
        stderr := stderr + [InjectorCreationFailed(platform, injector.init.error)];
        if os == MacOS || os == Linux {
          stderr := stderr + [InjectorPermissionHint(os)];
        }
        return Err(InjectorInitError(injector.init.error));
      }
      typed := typed + [text];
      if injector.typing.Err? {
        var platform := PlatformInfo(os, env);
        stderr := stderr + [TypingFailed(platform, injector.typing.error)];
        return Err(TypingError(injector.typing.error));
      }
      return Ok;
    }

    /** The hook's event loop: each event in turn goes to the `listen`
      callback, which prints the normalised record of a key press or key
      release and ignores every other event. */
    method DeliverEvents(events: seq<Event>)
      modifies this`stdout
      ensures stdout == old(stdout) + EventLines(Forwarded(events))
    {
      var i := 0;
      while i < |events|
        invariant 0 <= i <= |events|
        invariant stdout == old(stdout) + EventLines(Forwarded(events[..i]))
      {
        var event := events[i];
        if IsKeyEvent(event) {
          stdout := stdout + [EventLine(DealEventToJson(event))];
        }
        ghost var step := Forwarded([event]);
        assert [event][1..] == [];
        assert step == if IsKeyEvent(event) then [DealEventToJson(event)] else [];
        assert EventLines(step) == if IsKeyEvent(event) then [EventLine(DealEventToJson(event))] else [];
        ForwardedAppend(events[..i], [event]);
        EventLinesAppend(Forwarded(events[..i]), step);
        assert events[..i + 1] == events[..i] + [event];
        i := i + 1;
      }
      assert events[..i] == events;
    }

    /** `listen_for_events`: the hook is started only when the gate passes;
      its callback prints one record per key event, in order. */
    method ListenForEvents() returns (r: Result<ListenError>)
      modifies this`stdout, this`stderr, this`hookStarts
      ensures r == ListenResult(os, env, hook)
      ensures stderr == old(stderr) + ListenDiagnostics(os, env, hook)
      ensures hookStarts == old(hookStarts) + (if CheckPlatformRequirements(os, env).Ok? then 1 else 0)
      ensures stdout == old(stdout) +
        (if CheckPlatformRequirements(os, env).Ok? then EventLines(Forwarded(hook.events)) else [])
    {
      var gate := CheckRequirements();
      if gate.Err? {
        var platform := PlatformInfo(os, env);
        stderr := stderr + [ListenPlatformError(platform, Render(gate.error))];
        if os == Linux && gate.error.WaylandNotSupported? {
          stderr := stderr + [ListenWaylandHint];
        }
        return Err(ListenGateError(gate.error));
      }
      stderr := stderr + [ListenerStarting(PlatformInfo(os, env))];
      hookStarts := hookStarts + 1;
      DeliverEvents(hook.events);
      if hook.result.Err? {
        stderr := stderr + [HookFailed(hook.result.error)];
        return Err(HookError(hook.result.error));
      }
      return Ok;
    }

    /** `show_usage`. */
    method ShowUsage(program: string)
      modifies this`stderr
      ensures stderr == old(stderr) + [Usage(PlatformInfo(os, env), program, os)]
    {
      stderr := stderr + [Usage(PlatformInfo(os, env), program, os)];
    }

    /** `show_platform_info`. */
    method ShowPlatformInfo()
      modifies this`stdout, this`stderr
      ensures stdout == old(stdout) + InfoReport(os, env)
      ensures stderr == old(stderr) + GateWarnings(os)
    {
      var platform := PlatformInfo(os, env);
      stdout := stdout + [PlatformLine(platform)];
      var gate := CheckRequirements();
      if gate.Ok? {
        stdout := stdout + [StatusReady];
      } else {
        stdout := stdout + [StatusNotReady(Render(gate.error))];
        if (gate.error.AccessibilityDenied? && os == MacOS) || (gate.error.WaylandNotSupported? && os == Linux) {
          stdout := stdout + [ResolutionHint(os)];
        }
      }
      assert stdout == old(stdout) + [PlatformLine(platform)] + StatusLines(os, gate);
      if os == Linux {
        ShowEnvironment();
      }
      assert stdout == old(stdout) + ([PlatformLine(platform)] + StatusLines(os, gate) + EnvLines(os, env));
    }

    /** The Linux part of `show_platform_info`: each display variable that is
      set, with its raw value. */
    method ShowEnvironment()
      requires os == Linux
      modifies this`stdout
      ensures stdout == old(stdout) + EnvLines(os, env)
    {
      if env.display.Some? {
        stdout := stdout + [EnvValue(DisplayVar, env.display.value)];
      }
      if env.waylandDisplay.Some? {
        stdout := stdout + [EnvValue(WaylandDisplayVar, env.waylandDisplay.value)];
      }
      if env.sessionType.Some? {
        stdout := stdout + [EnvValue(SessionTypeVar, env.sessionType.value)];
      }
    }

    /** `main`: dispatch on `args[1]` and end with the exit code. No provider
      is touched unless the command needs it and the gate has passed. */
    method Run(args: seq<string>) returns (code: int)
      modifies this`stdout, this`stderr, this`injectorInits, this`typed, this`hookStarts
      ensures code == ExitCode(os, env, injector, hook, args)
      ensures !ParseArgs(args).Write? ==> injectorInits == old(injectorInits) && typed == old(typed)
      ensures !ParseArgs(args).Listen? ==> hookStarts == old(hookStarts)
      ensures CheckPlatformRequirements(os, env).Err? ==>
        injectorInits == old(injectorInits) && typed == old(typed) && hookStarts == old(hookStarts)
      ensures match ParseArgs(args)
        case Listen =>
          && stdout == old(stdout) +
             (if CheckPlatformRequirements(os, env).Ok? then EventLines(Forwarded(hook.events)) else [])
          && hookStarts == old(hookStarts) + (if CheckPlatformRequirements(os, env).Ok? then 1 else 0)
          && stderr == old(stderr) + ListenDiagnostics(os, env, hook) +
             (if ListenResult(os, env, hook).Err? then [ListenCommandFailed(PlatformInfo(os, env))] else [])
        case Write(text) =>
          && stdout == old(stdout)
          && injectorInits == old(injectorInits) + (if CheckPlatformRequirements(os, env).Ok? then 1 else 0)
          && typed == old(typed) +
             (if CheckPlatformRequirements(os, env).Ok? && injector.init.Ok? then [text] else [])
          && var r := WriteTextResult(os, env, injector);
             stderr == old(stderr) + WriteTextDiagnostics(os, env, injector) +
             (if r.Err? then [WriteCommandFailed(WriteErrorMessage(r.error))] else [])
        case WriteMissingText =>
          && stdout == old(stdout)
          && stderr == old(stderr) + [WriteNeedsText, Usage(PlatformInfo(os, env), ProgramName(args), os)]
        case Info =>
          && stdout == old(stdout) + InfoReport(os, env)
          && stderr == old(stderr) + GateWarnings(os)
        case Unknown =>
          && stdout == old(stdout)
          && stderr == old(stderr) + [Usage(PlatformInfo(os, env), ProgramName(args), os)]
    {
      var program := ProgramName(args);
      var verb := if |args| > 1 then Some(args[1]) else None;
      if verb == Some("listen") {
        var r := ListenForEvents();
        if r.Err? {
          stderr := stderr + [ListenCommandFailed(PlatformInfo(os, env))];
          return 1;
        }
        return 0;
      } else if verb == Some("write") {
        if |args| < 3 {
          stderr := stderr + [WriteNeedsText];
          ShowUsage(program);
          return 1;
        }
        var text := args[2];
        var r := WriteText(text);
        if r.Ok? {
          return 0;
        }
        stderr := stderr + [WriteCommandFailed(WriteErrorMessage(r.error))];
        return 101;
      } else if verb == Some("info") {
        ShowPlatformInfo();
        return 0;
      } else {
        ShowUsage(program);
        return 1;
      }
    }
  }
}
