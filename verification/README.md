# rust-toast in Dafny

rust-toast is a command-line tool and library that shows a desktop
notification on the machine it runs on. A notification has a title, a
message, a timeout, an icon, an urgency, a subtitle, a sound and an optional
forced backend. It is assembled with a builder whose unset fields take
defaults. It is then sent through one of three backends:

- **Linux** sends a D-Bus notification through the notify-rust library.
- **Windows** runs a PowerShell balloon-tip script with `powershell.exe`. WSL
  uses this backend too.
- **macOS** runs an AppleScript `display notification` command with
  `osascript -e`.

The backend follows from the forced choice or, failing that, from the
detected platform. A backend that this build cannot use is refused.

This project models that core as pure functions over immutable datatypes.
Everything the program would observe from the outside becomes a parameter:

- the compile target's OS name (`std::env::consts::OS` and `cfg!`);
- the contents of `/proc/version`, or None when the file cannot be read;
- the outcome of running a command, as a function from the command to
  "could not start" or "exited with this status and standard error";
- the result of the D-Bus call, as a function from the request the backend
  builds to success or the library's error text.

Modules, one per source file or concern:

| module | file | models |
|---|---|---|
| `Wrappers` | wrappers.dfy | `Option` and `Result` |
| `Text` | text.dfy | character counting, `str::replace` on one character, substring search, ASCII lowercasing, decimal digits |
| `Errors` | errors.dfy | `NotificationError`, its `Display`, `source` and `From` conversions |
| `Platforms` | platforms.dfy | `Platform`, its classifications and display text, `detect_platform`, `is_wsl` |
| `Notifications` | notifications.dfy | `UrgencyLevel`, `Notification`, `NotificationBuilder` |
| `Process` | process.dfy | the command a script backend runs and how its exit becomes a result |
| `MacOs` | macos.dfy | `escape_applescript`, the AppleScript text, the macOS backend |
| `Windows` | windows.dfy | `escape_powershell`, the PowerShell text, the Windows backend |
| `PowerShellQuotes` | powershell_quotes.dfy | PowerShell's full set of single-quote characters: the defect it exposes in `escape_powershell` and a corrected escape |
| `Linux` | linux.dfy | the timeout and urgency mappings, the D-Bus request, the Linux backend and its non-Linux stub |
| `Dispatch` | dispatch.dfy | `select_notifier` and `NotificationBuilder::send` |
| `Cli` | cli.dfy | `Args`, the two CLI enumerations and `into_builder` |

Each escaping function has a partner: a reader for the string literal it
feeds. For AppleScript the reader takes double-quoted strings with `\\` and
`\"`. For PowerShell the `Windows` module's reader takes single-quoted
strings delimited by the ASCII apostrophe U+0027, with `''` standing for one
apostrophe. Reading an escaped literal gives back the original text, and
every literal the reader accepts is an escaped text. Each script also has a
reader that recovers the notification's fields from the generated script.
For AppleScript this shows that message, title and subtitle cannot break out
of their literals. For PowerShell it shows this only with respect to the
ASCII apostrophe. PowerShell also closes single-quoted strings at the
typographic quotes U+2018 to U+201B, which `escape_powershell` leaves as they
are: a title such as "It’s" breaks the script (see Findings).

The macOS script puts the sound name in without escaping, as the code does.
The model keeps this. `MacOs.ScriptRoundTrip` needs a sound with no quote
and no backslash. `MacOs.UnescapedSoundIsLost` shows that a sound containing
a quote or a backslash does not come back out of the script. `MacOs.SoundQuoteClosesLiteral`
shows where the literal then ends.

## Model

| member | source | states |
|---|---|---|
| Errors.NotificationError.ToString | src/error.rs:51-66 | A send failure reads "<backend> notification failed: <reason>". An unsupported platform reads "Unsupported platform: <detail>". A command error reads "Command execution error: <io message>". `Other` shows its message verbatim. |
| Errors.NotificationError.Source | src/error.rs:76-81 | An underlying error exists exactly for `CommandExecution`, and it is the wrapped I/O error. |
| Errors.FromIo | src/error.rs:92-96 | An I/O error becomes `CommandExecution` carrying it, and it is the error's source. |
| Errors.FromMessage | src/error.rs:99-110 | A `String` or `&str` becomes `Other`. It displays as exactly that text and has no source. |
| Errors.FromBoxed | src/error.rs:115-119 | A boxed error converts like its display text. |
| Errors.FromDbus | src/error.rs:122-130 | A notify-rust error becomes a `SendFailed` from "Linux" with the library's text as reason, so it displays as "Linux notification failed: <text>". |
| Errors.DisplayKeepsPayload | src/error.rs:51-66 | The payload can be read back from the display text, after the fixed prefix or the backend and infix. |
| Errors.DisplayInjectivePerKind | src/error.rs:51-66 | Two errors of the same kind (unsupported platform, command error or other) with equal display texts are equal. |
| Platforms.DisplayTexts | src/platform.rs:39-49 | The five display texts: "Linux", "WSL (Windows Subsystem for Linux)", "macOS", "Windows", "Unknown". |
| Platforms.FromDisplay | src/platform.rs:39-49 | Any platform the inverse returns displays as the given text. |
| Platforms.DisplayRoundTrip | src/platform.rs:39-49 | Every platform's display text reads back as that platform, so the five texts are distinct. |
| Platforms.ClassificationPartition | src/platform.rs:55-62 | Windows-like means exactly Wsl or Windows. Unix-like means exactly Linux or MacOs. No platform is both, and only Unknown is neither. |
| Platforms.IsWsl | src/platform.rs:105-116 | An unreadable file means not WSL. A readable one means WSL exactly when its lowercase form contains "microsoft" or "wsl". |
| Platforms.Detect | src/platform.rs:78-94 | "macos" gives MacOs and "windows" gives Windows. "linux" gives Wsl or Linux as the kernel text says. Every other OS name gives Unknown. Each iff holds both ways. |
| Platforms.IsWslIgnoresCase | src/platform.rs:110-114 | Changing the case of the kernel text does not change the WSL verdict. |
| Platforms.WindowsTargetNeverWsl | src/platform.rs:81-93 | A Windows build detects Windows whatever `/proc/version` holds. |
| Platforms.MentionsVerbatim | src/platform.rs:111-113 | A lowercase word found verbatim in the text is found after lowercasing too. |
| Platforms.Wsl2KernelDetected | src/platform.rs:105-109 | The WSL2 kernel string in the source's comment is detected as WSL on a Linux build. |
| Notifications.DefaultUrgency | src/notifier/mod.rs:80-89 | The default urgency is Normal. |
| Notifications.NewBuilder | src/notifier/mod.rs:150-152 | A new builder has every field unset. |
| Notifications.Builder.Title | src/notifier/mod.rs:158-161 | Sets the title and changes no other field. |
| Notifications.Builder.Message | src/notifier/mod.rs:164-167 | Sets the message and changes no other field. |
| Notifications.Builder.Timeout | src/notifier/mod.rs:170-173 | Sets the timeout and changes no other field. |
| Notifications.Builder.Icon | src/notifier/mod.rs:176-179 | Sets the icon and changes no other field. |
| Notifications.Builder.Urgency | src/notifier/mod.rs:182-185 | Sets the urgency and changes no other field. |
| Notifications.Builder.Subtitle | src/notifier/mod.rs:188-191 | Sets the subtitle and changes no other field. |
| Notifications.Builder.Sound | src/notifier/mod.rs:194-197 | Sets the sound and changes no other field. |
| Notifications.Builder.Backend | src/notifier/mod.rs:200-203 | Sets the forced backend and changes no other field. |
| Notifications.Builder.Build | src/notifier/mod.rs:206-217 | Each set field is carried over. Each unset field takes its documented default. The forced backend is carried over as it stands. |
| Notifications.DefaultsOfNewBuilder | src/notifier/mod.rs:289-296 | A fresh builder builds "Notification", "", 5000, "dialog-information", Normal, "", "default" and no forced backend. |
| Notifications.SetterReachesBuild | src/notifier/mod.rs:158-217 | Whatever came before, each setter changes exactly its own field of the built notification, to the value given. |
| Notifications.LastSetterWins | src/notifier/mod.rs:158-203 | For each of the eight setters, a second call to the same setter overrides the first. |
| Notifications.SettersCommute | src/notifier/mod.rs:158-203 | Calls to two different setters commute, for every pair of the eight setters. |
| Process.CheckExit | src/notifier/macos.rs:44-54 | The send succeeds exactly when the command started and exited successfully. A failure to start becomes `CommandExecution`. An unsuccessful exit becomes `SendFailed` with the backend name and the standard error. |
| MacOs.Escape | src/notifier/macos.rs:78-80 | A text without backslashes or quotes is unchanged. The output grows by one character per backslash and per quote. |
| MacOs.EscapeIsCharwise | src/notifier/macos.rs:79 | The two whole-string replacements equal one pass that rewrites `\` to `\\` and `"` to `\"`. The backslash added before a quote is therefore not doubled. |
| MacOs.LiteralRoundTrip | src/notifier/macos.rs:68-80 | An AppleScript reader of double-quoted literals returns the original text from the escaped text and its closing quote, and leaves what follows untouched. |
| MacOs.LiteralOnlyFromEscape | src/notifier/macos.rs:68-80 | Every literal the reader accepts is an escaped text followed by a closing quote. |
| MacOs.EscapeInjective | src/notifier/macos.rs:78-80 | Distinct texts escape to distinct texts. |
| MacOs.ScriptLayout | src/notifier/macos.rs:26-37 | The script is the message and title head, then a subtitle clause, then the sound clause last. The subtitle clause is empty exactly when the subtitle is empty. |
| MacOs.ParseScriptUpToSound | src/notifier/macos.rs:20-37 | Whenever the verbatim sound clause reads as a sound, the script reads back with message, title and subtitle exactly as given and that sound. When the sound clause does not read, neither does the script. |
| MacOs.ScriptRoundTrip | src/notifier/macos.rs:20-37 | With a sound name free of quotes and backslashes, all four fields read back from the script. |
| MacOs.UnescapedSoundIsLost | src/notifier/macos.rs:37 | A sound name containing a quote or a backslash does not read back: the script fails to read or yields another sound. |
| MacOs.SoundQuoteClosesLiteral | src/notifier/macos.rs:37 | A quote inside the sound ends the sound literal there. The rest of the sound is left as script text. |
| MacOs.IsAvailable | src/notifier/macos.rs:57-61 | Available exactly on a macOS build. |
| MacOs.CommandFor | src/notifier/macos.rs:41-44 | Runs `osascript -e <script>`. |
| MacOs.Send | src/notifier/macos.rs:18-55 | Succeeds exactly when osascript ran successfully. A spawn failure is a command error. A failed run is `SendFailed` from "macOS" carrying the standard error. |
| Windows.Escape | src/notifier/windows.rs:84-86 | A text without apostrophes is unchanged. The output grows by one character per apostrophe. |
| Windows.EscapeIsCharwise | src/notifier/windows.rs:85 | Escaping doubles each apostrophe and keeps every other character. |
| Windows.UnescapeEscape | src/notifier/windows.rs:84-86 | Collapsing each `''` back to `'` recovers the input. |
| Windows.EscapedRunsEven | src/notifier/windows.rs:75-86 | Every maximal run of ASCII apostrophes in the output has even length, so no such run can end the literal. |
| Windows.LiteralRoundTrip | src/notifier/windows.rs:75-86 | A reader of single-quoted literals delimited by the ASCII apostrophe returns the original text from the escaped text and its closing apostrophe, whenever what follows is not an apostrophe. |
| Windows.LiteralOnlyFromEscape | src/notifier/windows.rs:75-86 | Every literal the reader accepts is an escaped text followed by the closing apostrophe. |
| Windows.EscapeInjective | src/notifier/windows.rs:84-86 | Distinct texts escape to distinct texts. |
| Windows.ScriptRoundTrip | src/notifier/windows.rs:30-43 | Reading the generated script yields the raw title as `BalloonTipTitle`, the raw message as `BalloonTipText`, and the timeout as the number passed to `ShowBalloonTip`, for every title and message, under a reader whose only quote character is the ASCII apostrophe. |
| Windows.IsAvailable | src/notifier/windows.rs:65-68 | Available exactly on a Windows or Linux build. |
| Windows.CommandFor | src/notifier/windows.rs:47-52 | Runs `powershell.exe -NoProfile -NonInteractive -Command <script>`. |
| Windows.Send | src/notifier/windows.rs:19-63 | Succeeds exactly when PowerShell ran successfully. A spawn failure is a command error. A failed run is `SendFailed` from "Windows" carrying the standard error. |
| PowerShellQuotes.ReadersAgree | src/notifier/windows.rs:75-86 | On text without typographic quotes, the reader with all five quote characters and the ASCII-only reader give the same result. |
| PowerShellQuotes.CurlyApostropheClosesLiteral | src/notifier/windows.rs:84-86 | The escape leaves "It’s" unchanged, and the full reader closes that literal after "It", leaving "s" as script text. |
| PowerShellQuotes.TitleClosedEarly | src/notifier/windows.rs:30-43 | If the full reader closes the title literal early, before something other than a line break, the generated script does not read. |
| PowerShellQuotes.CurlyApostropheBreaksScript | src/notifier/windows.rs:30-43 | Any notification titled "It’s" yields a script that does not read under the full reader. |
| PowerShellQuotes.EscapeQuotesExtendsEscape | src/notifier/windows.rs:84-86 | On text without typographic quotes, the corrected escape equals `escape_powershell`. |
| PowerShellQuotes.QuotedRoundTrip | src/notifier/windows.rs:84-86 | Under the full reader, text escaped with every quote character doubled reads back as the original. The literal closes at the quote written after it, provided no quote character follows. |
| PowerShellQuotes.EscapeQuotesInjective | src/notifier/windows.rs:84-86 | Distinct texts escape to distinct texts under the corrected escape. |
| PowerShellQuotes.QuoteSafeScriptExtendsScript | src/notifier/windows.rs:30-43 | With no typographic quote in title or message, the corrected script is exactly the backend's script. |
| PowerShellQuotes.QuoteSafeScriptRoundTrip | src/notifier/windows.rs:30-43 | Under the full reader, the corrected script yields title, message and timeout for every title and message. |
| Linux.ToTimeout | src/notifier/linux.rs:33-37 | Zero means never expire. Any other value is kept as milliseconds. |
| Linux.TimeoutConversionInverts | src/notifier/linux.rs:33-37 | The conversion loses nothing and never yields an explicit zero milliseconds. |
| Linux.ToUrgency | src/notifier/linux.rs:40-44 | Each level maps to the library level of the same name. |
| Linux.UrgencyBijection | src/notifier/linux.rs:40-44 | The urgency mapping is a bijection. |
| Linux.RequestFor | src/notifier/linux.rs:46-53 | The request carries title as summary, message as body, the icon unchanged, and the converted timeout and urgency. |
| Linux.IsAvailable | src/notifier/linux.rs:58-61 | Available exactly on a Linux build. The stub at lines 86-88 answers false. |
| Linux.BackendName | src/notifier/linux.rs:63-65 | "Linux (D-Bus)" on a Linux build. The stub at lines 90-92 answers "Linux (unavailable)". |
| Linux.Send | src/notifier/linux.rs:31-56 | On Linux it succeeds exactly when the D-Bus call does, and a library error becomes a Linux `SendFailed`. Elsewhere it always fails with the stub's `UnsupportedPlatform` (lines 80-84). |
| Dispatch.AvailabilityTable | src/notifier/mod.rs:67 | Which builds each backend's `is_available` accepts. |
| Dispatch.NotifierFor | src/notifier/mod.rs:258-267 | Linux maps to the Linux backend. Wsl and Windows map to the Windows backend. MacOs maps to the macOS backend. Unknown has none. |
| Dispatch.ResolvePlatform | src/notifier/mod.rs:254 | The forced backend if present, detection otherwise. |
| Dispatch.SelectNotifier | src/notifier/mod.rs:252-278 | Succeeds exactly when the resolved platform has a backend that this build can use. A returned backend is available and belongs to that platform. Unknown fails with the manual-backend hint. An unavailable backend fails naming itself. |
| Dispatch.OverrideIgnoresDetection | src/notifier/mod.rs:254 | With a forced backend, `/proc/version` does not matter. |
| Dispatch.AutomaticSelectionSucceeds | src/notifier/mod.rs:252-278 | Without a forced backend, a Linux, macOS or Windows build always gets a backend. On Linux it is Windows from WSL and Linux otherwise. |
| Dispatch.OverrideRejectedWhenUnavailable | src/notifier/mod.rs:270-275 | Forcing macOS on any other build fails with `UnsupportedPlatform`. The detail is the macOS backend name, "macOS (osascript)", followed by " notifier is not available on this platform". |
| Dispatch.SendNotification | src/notifier/mod.rs:225-239 | A selection failure is returned unchanged. Otherwise the chosen backend's send decides the result, on the built notification. |
| Dispatch.SendOnlyThroughAvailableBackend | src/notifier/mod.rs:225-239 | A successful send went through a backend that this build can use. |
| Dispatch.ScenarioNotification | src/notifier/mod.rs:158-217 | Setting title, message, timeout, urgency and macOS gives those values, with defaults elsewhere. |
| Dispatch.ScenarioHead | src/notifier/macos.rs:20-29 | That notification's script head is `display notification "Hello" with title "Test"`. |
| Dispatch.ScenarioHeadText | src/notifier/macos.rs:26-29 | The head's fixed text around "Hello" and "Test" spelled out. |
| Dispatch.ScenarioRejectedElsewhere | src/notifier/mod.rs:270-275 | Sending it from a non-macOS build fails before anything runs, naming the macOS backend. |
| Dispatch.ScenarioDelegatesOnMacOs | src/notifier/mod.rs:225-238 | On a macOS build its result is the macOS backend's result. |
| Dispatch.ScenarioScript | src/notifier/macos.rs:26-43 | The script given to `osascript` starts with that head. |
| Cli.WithDefaults | src/cli.rs:31-66 | An argument set given only a message has no forced backend. Its title, timeout, icon, urgency, subtitle and sound equal the library's defaults. |
| Cli.ToUrgencyLevel | src/cli.rs:104-112 | Each CLI level maps to the library level of the same name. |
| Cli.UrgencyConversionBijective | src/cli.rs:104-112 | The urgency conversion is a bijection. |
| Cli.ToPlatform | src/cli.rs:115-123 | Linux, Windows and Macos map to the platforms of the same name. The result is never Wsl or Unknown. |
| Cli.BackendConversionInverts | src/cli.rs:115-123 | The forced-backend choices reach exactly Linux, Windows and MacOs, each from one choice. |
| Cli.IntoBuilder | src/cli.rs:140-156 | The builder builds every argument field as given, with the urgency converted. The backend is forced exactly when one was given, to the converted platform. |
| Cli.DefaultsAgree | src/cli.rs:33-61 | Command-line defaults agree with the builder's: giving only a message builds the same notification as a builder given only that message. |
| Cli.IntoBuilderInjective | src/cli.rs:140-156 | Distinct argument sets build distinct notifications. |

## Left out

- Starting `osascript` and `powershell.exe` is left out because it is process I/O. The outcome is a parameter, and the standard error arrives as text, so `from_utf8_lossy` decoding is not modelled.
- The notify-rust `show()` call is left out because it is a foreign library call over D-Bus. Its answer is a parameter, and its error's text is treated as an opaque string.
- Reading `/proc/version` is left out because it is file I/O. Its contents, or None when unreadable, are a parameter.
- Platforms.IsWsl: lowercases ASCII letters only, where Rust applies Unicode's full `to_lowercase`. The verdict can differ only for kernel text whose non-ASCII characters lowercase into the letters of "microsoft" or "wsl".
- Compile-time selection with `cfg!`, `#[cfg]` and `std::env::consts::OS` becomes an OS-name parameter. The Linux backend's two compiled variants are one function of that name.
- The `eprintln!` debug line in `NotificationBuilder::send` is left out because it is only a side effect.
- Command-line parsing by clap is left out because it is foreign code. `Args` is its result, and `Cli.WithDefaults` records the default values the attributes declare.
- The entry point (`src/main.rs`) and the library re-exports (`src/lib.rs`) are left out: they print and re-export and hold no logic of their own.
- MacOs.ReadLiteral: accepts only the `\\` and `\"` escapes. AppleScript's other escapes (`\n`, `\t`, `\r`) are left out because the escaping function never produces them.
- Windows.ReadLiteral: treats only the ASCII apostrophe as a quote, so `Windows.LiteralRoundTrip`, `Windows.EscapedRunsEven` and `Windows.ScriptRoundTrip` promise nothing about the typographic quotes U+2018 to U+201B. Those quotes are handled by `PowerShellQuotes` and the finding below.
- `Box<dyn Notifier>` dynamic dispatch is modelled as a three-case datatype.

## Findings

| source | as written | input that shows it | evidently intended | confidence | as-written member | corrected member |
|---|---|---|---|---|---|---|
| src/notifier/windows.rs:84-86 | `escape_powershell` doubles only the ASCII apostrophe U+0027, but PowerShell also ends a single-quoted string at U+2018, U+2019, U+201A and U+201B | a title "It’s" with U+2019: the title literal closes after "It" and the rest of the script no longer parses | every character PowerShell treats as a single quote is doubled, so any title and message reach the balloon | not executed; medium, since it rests on PowerShell's tokenizer treating the four typographic quotes as single quotes | PowerShellQuotes.CurlyApostropheBreaksScript | PowerShellQuotes.QuoteSafeScriptRoundTrip |

`Windows.Script` keeps the escape as written, so that the Windows backend
describes what the program sends. `PowerShellQuotes.QuoteSafeScript` is the
script with the corrected escape. `PowerShellQuotes.QuoteSafeScriptExtendsScript`
shows that the two scripts are identical whenever title and message hold no
typographic quote.
