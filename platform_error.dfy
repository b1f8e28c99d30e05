/** The platform failure kinds and their `Display` rendering. */
module PlatformErrors {

  datatype PlatformError =
    | AccessibilityDenied
    | WaylandNotSupported
    | X11NotAvailable
    | PlatformNotSupported
    | InitializationFailed(msg: string)

  const InitializationFailedPrefix: string := "Platform initialization failed: "

  /** True when `s` begins with the `InitializationFailed` prefix. */
  predicate HasInitializationFailedPrefix(s: string) {
    |InitializationFailedPrefix| <= |s| && s[..|InitializationFailedPrefix|] == InitializationFailedPrefix
  }

  /** The message `Display` writes for an error: a fixed text per constant kind,
      and for `InitializationFailed` the fixed prefix followed by the detail verbatim.
      Only `InitializationFailed` messages carry the prefix. */
  function Render(e: PlatformError): (s: string)
    ensures |s| > 0
    ensures e.InitializationFailed? <==> HasInitializationFailedPrefix(s)
    ensures e.InitializationFailed? ==> s[|InitializationFailedPrefix|..] == e.msg
  {
    match e
    case AccessibilityDenied =>
      var text := "macOS Accessibility permissions required";
      assert text[0] != InitializationFailedPrefix[0];
      text
    case WaylandNotSupported =>
      var text := "Wayland is not supported, X11 session required";
      assert text == "Wayland is not supported, " + "X11 session required";
      assert text[0] != InitializationFailedPrefix[0];
      text
    case X11NotAvailable =>
      var text := "X11 display server not available";
      assert text[0] != InitializationFailedPrefix[0];
      text
    case PlatformNotSupported => "Platform not supported"
    case InitializationFailed(msg) => InitializationFailedPrefix + msg
  }

  /** Distinct errors render to distinct messages, so a rendered message identifies its error. */
  lemma RenderInjective(a: PlatformError, b: PlatformError)
    requires Render(a) == Render(b)
    ensures a == b
  {
  }
}
