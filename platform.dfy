/** The platform probe: the readiness gate and the platform label.
    The compile-time choice of target OS becomes the `OsFamily` parameter, and
    the three environment variables the probe reads are an `Env` value. */
module Platform {
  import opened Wrappers
  import opened PlatformErrors

  datatype OsFamily = MacOS | Linux | Windows | OtherOs

  /** The environment variables the probe reads; a variable that is unset
      (or not valid Unicode) is `None`. */
  datatype Env = Env(waylandDisplay: Option<string>, display: Option<string>, sessionType: Option<string>)

  function LowerChar(c: char): char {
    if 'A' <= c <= 'Z' then (c as int - 'A' as int + 'a' as int) as char else c
  }

  /** Lower-cases the ASCII letters of `s` and keeps every other character. */
  function AsciiLower(s: string): (r: string)
    ensures |r| == |s|
    ensures forall i :: 0 <= i < |s| ==> r[i] == LowerChar(s[i])
  {
    if s == [] then [] else [LowerChar(s[0])] + AsciiLower(s[1..])
  }

  /** `XDG_SESSION_TYPE` is set and says "wayland" in any letter case. */
  predicate IsWaylandSession(sessionType: Option<string>) {
    sessionType.Some? && AsciiLower(sessionType.value) == "wayland"
  }

  /** The Linux gate, checked in the source's order: an explicit Wayland session,
      then Wayland without an X11 fallback, then a missing X11 display.
      Its contract is the classification over the presence of the two display
      variables and the session type. */
  function CheckLinuxDisplayServer(env: Env): (r: Result<PlatformError>)
    ensures r.Ok? <==> env.display.Some? && !(env.waylandDisplay.Some? && IsWaylandSession(env.sessionType))
    ensures r == Err(WaylandNotSupported) <==>
      env.waylandDisplay.Some? && (env.display.None? || IsWaylandSession(env.sessionType))
    ensures r == Err(X11NotAvailable) <==> env.waylandDisplay.None? && env.display.None?
  {
    if env.waylandDisplay.Some? && IsWaylandSession(env.sessionType) then
      Err(WaylandNotSupported)
    else if env.waylandDisplay.Some? && env.display.None? then
      Err(WaylandNotSupported)
    else if env.display.None? then
      Err(X11NotAvailable)
    else
      Ok
  }

  /** The readiness gate run before any capability provider is touched.
      macOS only warns (the warning itself is emitted by the dispatcher), so it
      cannot report `AccessibilityDenied`; the gate never reports an
      initialization failure either. */
  function CheckPlatformRequirements(os: OsFamily, env: Env): (r: Result<PlatformError>)
    ensures r.Err? ==> !r.error.AccessibilityDenied? && !r.error.InitializationFailed?
    ensures os == MacOS || os == Windows ==> r == Ok
    ensures os == OtherOs ==> r == Err(PlatformNotSupported)
    ensures os == Linux ==> r == CheckLinuxDisplayServer(env)
  {
    match os
    case MacOS => Ok
    case Linux => CheckLinuxDisplayServer(env)
    case Windows => Ok
    case OtherOs => Err(PlatformNotSupported)
  }

  /** The platform label. On Linux the display server is named in precedence
      order: Wayland whenever `WAYLAND_DISPLAY` is set, else X11 when `DISPLAY`
      is set, else Unknown. */
  function PlatformInfo(os: OsFamily, env: Env): (info: string)
    ensures os == Windows ==> info == "Windows"
    ensures os == MacOS ==> info == "macOS"
    ensures os == OtherOs ==> info == "Unsupported"
    ensures os == Linux ==> (info == "Linux (Wayland)" <==> env.waylandDisplay.Some?)
    ensures os == Linux ==> (info == "Linux (X11)" <==> env.waylandDisplay.None? && env.display.Some?)
    ensures os == Linux ==> (info == "Linux (Unknown)" <==> env.waylandDisplay.None? && env.display.None?)
  {
    match os
    case Windows => "Windows"
    case MacOS => "macOS"
    case Linux =>
      var displayServer :=
        if env.waylandDisplay.Some? then "Wayland"
        else if env.display.Some? then "X11"
        else "Unknown";
      assert ("Linux (" + "Unknown" + ")")[7] != ("Linux (" + "Wayland" + ")")[7];
      "Linux (" + displayServer + ")"
    case OtherOs => "Unsupported"
  }

  /** The label names the OS family it was computed on. */
  lemma PlatformInfoIdentifiesFamily(os1: OsFamily, env1: Env, os2: OsFamily, env2: Env)
    requires PlatformInfo(os1, env1) == PlatformInfo(os2, env2)
    ensures os1 == os2
  {
  }

  /** The label does not follow the gate: a Wayland display with an X11
      fallback and a non-Wayland session type passes the gate, yet is labelled
      Wayland. */
  lemma WaylandLabelWithOpenGate(env: Env)
    requires env.waylandDisplay.Some? && env.display.Some? && !IsWaylandSession(env.sessionType)
    ensures CheckPlatformRequirements(Linux, env) == Ok
    ensures PlatformInfo(Linux, env) == "Linux (Wayland)"
  {
  }

  /** The session type is compared without regard to letter case: it names a
      Wayland session exactly when it spells "wayland" with each letter in
      either case. */
  lemma SessionIsWaylandInAnyCase(s: string)
    ensures IsWaylandSession(Some(s)) <==>
      |s| == 7 && forall i :: 0 <= i < 7 ==> s[i] == "wayland"[i] || s[i] == "WAYLAND"[i]
  {
  }
}
