# speakmcp-rs platform helper — Dafny model

`speakmcp-rs` is a small helper process. It is started with one verb (`listen`, `write <text>` or
`info`) and bridges OS-level global keyboard hooks and accessibility text injection to its parent
application. It reports through its exit code, standard output and standard error.
This project models the helper's decision logic, all of it in `speakmcp-rs/src/main.rs`:

- `platform_error.dfy` (module `PlatformErrors`): the `PlatformError` kinds and their `Display` text.
- `platform.dfy` (module `Platform`): the readiness gate (`check_platform_requirements`,
  `check_linux_display_server`) and the platform label (`get_platform_info`). The compile-time
  `#[cfg(target_os)]` choice becomes a runtime `OsFamily` parameter. The three environment
  variables become an `Env` value of `Option<string>` fields.
- `events.dfy` (module `Events`): `deal_event_to_json`. The program has no decoder; the model adds
  `Decode` as the reference inverse of the normaliser. `DealEventToJson`'s contract and
  `DecodeThenNormalise` prove the round trip in both directions, so normalisation loses nothing
  in the model (JSON can still merge non-finite coordinates; see "## Left out"). The program calls
  the normaliser only on key events (main.rs:245-246), so its other four branches are never reached
  from `listen`.
- `listener.dfy` (module `Listener`): what the `listen` callback forwards. Only key events are
  forwarded, "filter then map", in input order.
- `dispatch.dfy` (module `Dispatch`): `write_text`, `listen_for_events`, `show_usage`,
  `show_platform_info` and `main`. They are methods of a `Process` class.
  - The class holds both standard streams as sequences of lines.
  - It logs every call made to the two capability providers: injector creations, texts typed and
    hook starts.
  - It reads what each provider will report from two oracle values, `Injector` and `Hook`.
  - Pure functions (`WriteTextResult`, `ListenResult`, `ExitCode`, `InfoReport`, the diagnostics
    functions) state what each method must produce. The methods' `ensures` tie them to those
    functions.
- `wrappers.dfy` (module `Wrappers`): `Option` and Rust's `Result<(), E>`.

Two behaviours of `main` worth noting:
- The usage line shows `write <text>` (main.rs:261), but main.rs:329-335 only requires at least
  one argument after the verb and ignores the rest (`WriteIgnoresExtraArguments`).
- A hook that returns Ok falls out of `main`, so `listen` then exits 0 (main.rs:321-327).

The macOS gate always passes. So the `AccessibilityDenied` resolution line of `info` is never
printed (`AccessibilityResolutionUnreachable`). The model keeps that branch as written.

## Model

| member | source | states |
|---|---|---|
| `PlatformErrors.Render` | speakmcp-rs/src/main.rs:25-35 | every error renders to a non-empty message; only `InitializationFailed` messages start with "Platform initialization failed: ", and the rest of such a message is the detail verbatim |
| `PlatformErrors.RenderInjective` | speakmcp-rs/src/main.rs:25-35 | distinct errors render to distinct messages (the four constant texts are pairwise distinct and none collides with an initialization failure) |
| `Platform.AsciiLower` | speakmcp-rs/src/main.rs:84 | lower-casing keeps the length and maps every character through the letter-case mapping |
| `Platform.SessionIsWaylandInAnyCase` | speakmcp-rs/src/main.rs:83-86 | a session type names a Wayland session exactly when it is seven characters spelling "wayland" with each letter in either case |
| `Platform.CheckLinuxDisplayServer` | speakmcp-rs/src/main.rs:79-101 | Ok exactly when `DISPLAY` is set and not (`WAYLAND_DISPLAY` set and the session type is wayland); `WaylandNotSupported` exactly when `WAYLAND_DISPLAY` is set and either `DISPLAY` is unset or the session is wayland; `X11NotAvailable` exactly when both display variables are unset |
| `Platform.CheckPlatformRequirements` | speakmcp-rs/src/main.rs:45-76 | never reports `AccessibilityDenied` or `InitializationFailed`; macOS and Windows always pass, any other family fails with `PlatformNotSupported`, Linux gives the Linux classification |
| `Platform.PlatformInfo` | speakmcp-rs/src/main.rs:103-124 | fixed labels for Windows, macOS and other families; on Linux "Linux (Wayland)" exactly when `WAYLAND_DISPLAY` is set, "Linux (X11)" exactly when only `DISPLAY` is set, "Linux (Unknown)" exactly when neither is |
| `Platform.PlatformInfoIdentifiesFamily` | speakmcp-rs/src/main.rs:103-124 | equal labels come from the same OS family |
| `Platform.WaylandLabelWithOpenGate` | speakmcp-rs/src/main.rs:79-124 | the label does not follow the gate: Wayland with an X11 fallback and a non-wayland session passes the gate yet is labelled "Linux (Wayland)" |
| `Events.DealEventToJson` | speakmcp-rs/src/main.rs:127-182 | the label is the variant's name, `name` and `time` are copied, the payload keys are exactly the variant's schema (`key`, `x`/`y`, `delta_x`/`delta_y`), and decoding the record gives back the original event |
| `Events.DecodeThenNormalise` | speakmcp-rs/src/main.rs:127-182 | every record the decoder accepts is exactly the normalisation of the event it decodes to, so normalisation is a bijection onto well-formed records |
| `Listener.Forwarded` | speakmcp-rs/src/main.rs:244-250 | `listen` prints at most one record per event, and every printed record is labelled KeyPress or KeyRelease |
| `Listener.ForwardedIsFilterThenMap` | speakmcp-rs/src/main.rs:244-250 | the printed records are the key events of the input, in input order, each normalised |
| `Listener.ForwardedAppend` | speakmcp-rs/src/main.rs:244-250 | events are handled one at a time: forwarding a concatenation forwards each part in turn |
| `Listener.NonKeyEventsAreSilent` | speakmcp-rs/src/main.rs:244-250 | mouse moves, button events and wheel events print nothing |
| `Listener.ForwardedMembership` | speakmcp-rs/src/main.rs:244-250 | a record is printed if and only if it normalises some key event of the input |
| `Dispatch.ParseArgs` | speakmcp-rs/src/main.rs:320-354 | the verb is `args[1]`; `write` with fewer than three arguments is the missing-text case, otherwise its text is `args[2]`; a missing or unknown verb is the usage case |
| `Dispatch.WriteTextResult` | speakmcp-rs/src/main.rs:184-224 | `write_text` succeeds exactly when gate, injector creation and typing all succeed; a failure is the first failing step's error, unchanged |
| `Dispatch.ListenResult` | speakmcp-rs/src/main.rs:226-256 | `listen_for_events` succeeds exactly when the gate passes and the hook returns Ok; a failure is the gate's error or the hook's |
| `Dispatch.ExitCode` | speakmcp-rs/src/main.rs:320-354 | the exit code is 0, 1 or 101; 101 exactly for a failed `write`; 0 exactly for `info`, a successful `write` or a returning `listen`; 1 otherwise |
| `Dispatch.StatusLines` | speakmcp-rs/src/main.rs:283-298 | the first status line is "Ready" exactly when the gate passes; "Not ready" carries the rendered gate error |
| `Dispatch.EnvLines` | speakmcp-rs/src/main.rs:300-312 | off Linux there are no lines; on Linux every line is an environment line, no variable appears twice, and a variable's raw value appears exactly when it is set |
| `Dispatch.InfoReport` | speakmcp-rs/src/main.rs:279-313 | `info` prints the platform label first, then the gate verdict ("Ready" when it passes, otherwise "Not ready" with the rendered error as the second line); the raw value of a variable is printed exactly when on Linux and it is set; no event record is printed; the resolution line appears exactly when the Linux gate refuses a Wayland session |
| `Dispatch.WriteTextDiagnostics` | speakmcp-rs/src/main.rs:188-222 | `write_text` prints the Wayland hint exactly when the Linux gate refuses a Wayland session, and the permission hint (naming the platform) exactly when the gate passes but the injector cannot be created on macOS or Linux |
| `Dispatch.ListenDiagnostics` | speakmcp-rs/src/main.rs:228-251 | `listen_for_events` prints the Wayland hint exactly when the Linux gate refuses a Wayland session |
| `Dispatch.AccessibilityResolutionUnreachable` | speakmcp-rs/src/main.rs:288-291 | the macOS resolution hint of `info` is never printed |
| `Dispatch.WaylandSessionRefused` | speakmcp-rs/src/main.rs:320-344 | on Linux, a Wayland display with a wayland session makes `listen` exit 1 and `write` exit 101, whatever the providers would do |
| `Dispatch.WriteIgnoresExtraArguments` | speakmcp-rs/src/main.rs:328-336 | arguments after the text change neither the command nor the exit code |
| `Dispatch.Process.CheckRequirements` | speakmcp-rs/src/main.rs:45-76 | returns the gate's verdict and prints the accessibility reminder on macOS only |
| `Dispatch.Process.WriteText` | speakmcp-rs/src/main.rs:184-224 | the injector is created once if and only if the gate passes; the text is typed once, unchanged, if and only if creation also succeeded; the result and diagnostics are those of the step that failed |
| `Dispatch.Process.DeliverEvents` | speakmcp-rs/src/main.rs:244-250 | standard output gains exactly one line per forwarded key event, in order |
| `Dispatch.Process.ListenForEvents` | speakmcp-rs/src/main.rs:226-256 | the hook is started once if and only if the gate passes; output is the forwarded events only then; the result is `ListenResult` |
| `Dispatch.Process.ShowUsage` | speakmcp-rs/src/main.rs:258-277 | usage goes to standard error, naming the platform and the program |
| `Dispatch.Process.ShowPlatformInfo` | speakmcp-rs/src/main.rs:279-313 | standard output gains exactly `InfoReport`; standard error gains only the gate's macOS reminder |
| `Dispatch.Process.ShowEnvironment` | speakmcp-rs/src/main.rs:300-312 | on Linux, standard output gains the set display variables with their raw values |
| `Dispatch.Process.Run` | speakmcp-rs/src/main.rs:315-355 | the exit code is `ExitCode`; no provider is touched when the gate fails or the command does not need it; per command, the exact lines added to each stream and the provider calls made |

## Left out

- The OS hook (`rdev::listen`) and the text injector (`enigo`) are foreign calls. Each is an oracle value that fixes what the provider reports: `Hook` holds the events delivered and the final result, `Injector` holds the creation and typing outcomes.
- `listen` in the source blocks until the hook's loop ends. The model covers only a hook that returns after a finite sequence of events.
- `process::exit` is the method's returned exit code.
- JSON serialisation (`serde_json`) is not modelled: the payload is a map from field name to value, not a JSON string, and a printed event line carries the record itself. In the program, `json!` writes a NaN or infinite `f64` as `null` (main.rs:151-154), so two MouseMove records that differ only in such a coordinate have the same `data`; the model keeps the bits and so tells them apart.
- `format!("{:?}", key)` Debug formatting is not modelled: keys and buttons carry their debug string as an opaque value.
- `f64` coordinates are opaque 64-bit values that are only copied. `SystemTime` timestamps are opaque too.
- The wording of diagnostics, usage, hint and status text is not modelled. Each line is a constructor that names its kind and the values it shows. Only the platform labels and the `PlatformError` messages are exact strings.
- Standard output and standard error are separate sequences, so their interleaving is not modelled.
- Platform.AsciiLower: `to_lowercase` is Unicode-aware in the source; the model lower-cases ASCII letters only.
- An environment variable whose value is not valid Unicode reads as unset, as `env::var` returning `Err` does.
- Writes to standard output and standard error are assumed to succeed. In the source, `println!` and `eprintln!` panic on a stream that cannot be written (a closed pipe, say); the panic exits 101, so `info` can then exit 101 and a parent that has gone away ends `listen`.
- Command-line arguments are assumed to be valid Unicode. `env::args()` (main.rs:316) panics, and the process exits 101, on one that is not.
- Event timestamps are assumed not to be before the Unix epoch. For such a timestamp, serialising the record fails and the `unwrap()` at main.rs:247 panics; the model's `SystemTime` admits negative ticks and still prints the line.
- The `i64` wheel deltas are carried as unbounded integers; they are only copied, so no overflow can arise.
- The `Debug` text of the listen error in the final "Listen command failed" line is not modelled; the line carries only the platform label.
