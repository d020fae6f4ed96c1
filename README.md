# SISR core, modelled in Dafny

SISR forwards physical game controllers to VIIPER, a server that exposes virtual controllers to Steam. It does so from three threads: the SDL input thread, an async runtime and the winit window. This project models the logic at its centre and proves what that logic promises.

- **Device-correlation registry** (`input_handler.dfy`, `event_handler.dfy`):
  - SDL hot-plug events join joystick and gamepad handles of one physical controller into one device;
  - the virtual clones that Steam itself injects are recognised by their vendor/product ids and skipped;
  - each device gets a virtual VIIPER device once Steam has assigned it a handle;
  - the handlers react to the asynchronous VIIPER results: created, connected, rumble, disconnected, errors.

  Every handler appears twice. One is a pure transition on a `State` snapshot (the `...Spec` functions). The other is a method of the `EventHandler` class that updates maps in place in the code's order and is proved to reach that transition. The `...Sound` lemmas show that every transition keeps the registry invariant, never reuses or lowers a device id, and only appends bridge requests, effects and enforcer URLs.
- **VIIPER bridge** (`viiper_bridge.dfy`): the cached bus id and the `ensure_bus` decision, the asynchronous create and connect tasks completing in any order, the per-device stream queues, the rumble frame decode, and the events posted back to the SDL thread.
- **SDL loop** (`sdl_loop.dfy`, `sdl_devices.dfy`): the routing of each SDL or handler event to one handler, redraw batching, Quit, and the zero guards on the Steam handle query.
- **Readiness gate** (`readiness.dfy`):
  - the lenient VIIPER version parser and its comparison;
  - the dev-build bypass;
  - the five-ping retry loop with at most one local spawn;
  - `shutdown`, which kills the spawned server at most once.
- **Steam helpers** (`binding_enforcer.dfy`, `steam_util.dfy`):
  - the binding enforcer's `steam://forceinputappid` state machine;
  - the marker-shortcut search and the game id built from it, which round-trips through the enforcer's `>> 32`;
  - the shortcuts path and the `ActiveUser` scan;
  - the `steam_path` and `launched_via_steam` caches, and `try_set_marker_steam_env`.
- **Smaller pieces**:
  - the LIFO dialog registry (`dialogs.rs`, in `dialogs.dfy`);
  - the CEF tab choice and reply classification (`cef_inject.dfy`);
  - the CEF WebSocket dispatch and response slot (`cef_ws.dfy`);
  - config candidate paths, format dispatch and merge order (`config.dfy`);
  - the surface configuration and resize clamp (`gfx.dfy`);
  - the overlay window's passthrough and UI-visibility flags (`window.dfy`);
  - the download page's asset scoring (`downloads.dfy`);
  - the development HTTP mock interceptor (`http_interceptor.dfy`).
- **Shared helpers**: `text.dfy` (Rust's `split`, `trim`, parsing and printing unsigned integers, ASCII case), `search.dfy` (first element passing a test) and `wrappers.dfy` (`Option`, `Result`).

Foreign calls become parameters or recorded logs. These include SDL queries, VIIPER and CDP replies, URL opening, process spawning, file existence and winit answers. Threads and timers become explicit events.

Two source files are from a revision older than their callers: `handler/mod.rs` and `device.rs`. The device and state fields follow their use in `events_connection.rs` and `events_input.rs`, not those definitions.

## Model

| member | source | states |
|---|---|---|
| BindingEnforcer.ForceInputUrl | src/app/steam_utils/binding_enforcer.rs:58 | the URL starts with `steam://forceinputappid/` and the rest reads back as the app id, for every u32 id |
| BindingEnforcer.ParseGameId | src/app/steam_utils/binding_enforcer.rs:14-16 | a game id read from `SteamGameId` is a u64; no variable or no number gives none |
| BindingEnforcer.AppIdOf | src/app/steam_utils/binding_enforcer.rs:18 | the app id is the high 32 bits of the game id: `r * 2^32 <= gid < (r + 1) * 2^32`, and it is a u32 |
| BindingEnforcer.ActivateStep | src/app/steam_utils/binding_enforcer.rs:46-85 | an active enforcer or a missing app id changes nothing; otherwise the force URL for the id is opened and the enforcer is active exactly when that succeeded |
| BindingEnforcer.DeactivateStep | src/app/steam_utils/binding_enforcer.rs:87-102 | an inactive enforcer changes nothing; otherwise the id-0 URL is opened and the enforcer stays active exactly when that failed |
| BindingEnforcer.Enforcer.constructor | src/app/steam_utils/binding_enforcer.rs:13-32 | the game id is the parsed variable, the app id its high half, inactive, nothing opened |
| BindingEnforcer.Enforcer.Activate | src/app/steam_utils/binding_enforcer.rs:46-67 | the new state is `ActivateStep` on the stored app id |
| BindingEnforcer.Enforcer.ActivateWithAppId | src/app/steam_utils/binding_enforcer.rs:69-85 | the new state is `ActivateStep` on the given id |
| BindingEnforcer.Enforcer.Deactivate | src/app/steam_utils/binding_enforcer.rs:87-102 | the new state is `DeactivateStep` |
| BindingEnforcer.Enforcer.Drop | src/app/steam_utils/binding_enforcer.rs:111-117 | dropping deactivates an active enforcer and leaves an inactive one alone |
| CefInject.PortCell.constructor | src/app/steam_utils/cef_debug/inject.rs:21 | the port cell starts unset |
| CefInject.PortCell.Set | src/app/steam_utils/cef_debug/inject.rs:23-25 | only the first call stores its port, and the call reports success exactly then |
| CefInject.PortCell.Get | src/app/steam_utils/cef_debug/inject.rs:27-29 | returns the stored port, if any |
| CefInject.SisrHost | src/app/steam_utils/cef_debug/inject.rs:31-36 | the host is `localhost:` followed by a decimal that reads back as the recorded port, or 0 when none is recorded |
| CefInject.SisrHostInjective | src/app/steam_utils/cef_debug/inject.rs:31-36 | equal hosts mean equal ports |
| CefInject.ResolvedTitle | src/app/steam_utils/cef_debug/inject.rs:44-54 | any title but "Overlay" is kept; "Overlay" becomes the title of a tab containing "Overlay", and is an error exactly when no tab does |
| CefInject.TargetTab | src/app/steam_utils/cef_debug/inject.rs:44-58 | the tab found is a listed tab with the resolved title; "not found" only when no tab has that title |
| CefInject.ExactTitleFindsFirst | src/app/steam_utils/cef_debug/inject.rs:55-58 | a title other than "Overlay" selects the first tab with that exact title |
| CefInject.OverlayFindsFirstOverlayTab | src/app/steam_utils/cef_debug/inject.rs:48-58 | "Overlay" selects exactly the first tab whose title contains "Overlay" |
| CefInject.Expression | src/app/steam_utils/cef_debug/inject.rs:64 | the expression starts with the `SISR_HOST` declaration for this port and ends with the payload |
| CefInject.EvaluateCommand | src/app/steam_utils/cef_debug/inject.rs:66-74 | the command has id 1, method `Runtime.evaluate`, that expression, return by value and await promise |
| CefInject.Classify | src/app/steam_utils/cef_debug/inject.rs:90-120 | success exactly when the reply has no nested exception, no top-level exception and no protocol error, and then the value's text or `undefined`; each error has the priority the source checks them in |
| CefInject.ReplyOutcome | src/app/steam_utils/cef_debug/inject.rs:83-126 | only a parsable text frame can succeed, and it gets `Classify`'s verdict; no frame, a read error, a non-text frame and unparsable JSON each give their own error |
| CefInject.InjectOutcome | src/app/steam_utils/cef_debug/inject.rs:38-127 | success needs a listing, a target tab, a connection and a send, and is then the reply's outcome; the command sent is always the evaluate command; a listing, lookup or connect failure sends nothing and gives its error; a failed send gives `SendFailed` |
| CefInject.Inject | src/app/steam_utils/cef_debug/inject.rs:38-127 | panics, listing and sending nothing, exactly when no server port was recorded; otherwise the command sent and the result are those `InjectOutcome` gives for the recorded port |
| CefInject.InjectWithPort | src/app/steam_utils/cef_debug/inject.rs:44-127 | for a known port, the command sent and the result are those `InjectOutcome` gives |
| CefWs.MessageObject | src/app/steam_utils/cef_ws/response_writer.rs:28-30 | the message value is an object with the single field `message` |
| CefWs.ResponseWriter.constructor | src/app/steam_utils/cef_ws/response_writer.rs:9-13 | the slot starts empty |
| CefWs.ResponseWriter.Write | src/app/steam_utils/cef_ws/response_writer.rs:14-26 | a serialised value replaces the slot's content and succeeds; a serialisation error is reported with its prefix and leaves the slot as it was |
| CefWs.ResponseWriter.WriteMessage | src/app/steam_utils/cef_ws/response_writer.rs:28-30 | succeeds and stores `{"message": m}` |
| CefWs.ResponseWriter.Take | src/app/steam_utils/cef_ws/response_writer.rs:32-38 | returns what the slot held and leaves it empty |
| CefWs.PongObject | src/app/steam_utils/cef_ws/handlers/ping.rs:10-14 | the pong is `{pong: true, timestamp}` in that field order |
| CefWs.MessageData | src/app/steam_utils/cef_ws/handler.rs:26-45 | a ping produces data, the pong for the current time, and an overlay change produces none |
| CefWs.HandlePing | src/app/steam_utils/cef_ws/handlers/ping.rs:16-35 | the writer holds the pong stamped with the given time |
| CefWs.Handle | src/app/steam_utils/cef_ws/handler.rs:26-45 | the response is a success carrying exactly `MessageData` for the message: nothing carries over from earlier messages |
| Config.LastIndex | src/config.rs:250 | the last position of a character, and none exactly when the character does not occur |
| Config.Extension | src/config.rs:250 | an extension holds no dot and no path separator |
| Config.ExtensionOfJoined | src/config.rs:221 | a candidate `name.ext` joined to any directory has extension `ext` |
| Config.FormatFor | src/config.rs:250-255 | YAML exactly for `yaml` and `yml`, JSON exactly for `json`, TOML for any other extension or none |
| Config.DirCandidates | src/config.rs:214-223 | eight paths per available directory, candidate `i` being the directory joined with the `i`-th name |
| Config.Candidates | src/config.rs:212-239 | the search list has 0, 8 or 16 entries: the config directory's, then the executable directory's |
| Config.CandidateFormat | src/config.rs:214-221 | candidate `i` is read as TOML, YAML, YAML, JSON by `i % 4` |
| Config.PushDirCandidates | src/config.rs:219-223 | the nested loops append exactly one directory's candidates |
| Config.CandidatePaths | src/config.rs:212-239 | the list built is `Candidates` of the two directories |
| Config.Merge | src/config.rs:249 | a merge keeps every key of both layers, and the later layer's values win |
| Config.LoadFile | src/config.rs:248-256 | a file is read in the format its extension names; an absent file contributes nothing; a malformed one is marked failed |
| Config.Layers | src/config.rs:247-271 | the layers in merge order: each candidate, then the explicit file (or nothing), then the command line |
| Config.Combine | src/config.rs:249 | merging adds a layer on top and keeps a read failure |
| Config.FoldStep | src/config.rs:248-257 | folding one more layer onto a prefix is combining it with the prefix's fold |
| Config.FoldFailed | src/config.rs:259-277 | the fold has failed exactly when some layer failed to read |
| Config.FoldLastWins | src/config.rs:247-271 | a key set by a layer, with no later layer setting it, has that layer's value |
| Config.FoldKeepsBase | src/config.rs:247 | a key no layer sets keeps its default |
| Config.DefaultLayer | src/config.rs:173-208 | the defaults set exactly the eight serialised keys (tray, address, create, fullscreen, continuous draw, log level, CEF debug switch, launch timeout) |
| Config.BoolField | src/config.rs:272 | an absent key is `None`; a present key is read exactly when it holds a boolean |
| Config.StrField | src/config.rs:272 | an absent key is `None`; a present key is read exactly when it holds a string |
| Config.U64Field | src/config.rs:161 | an absent key is `None`; a present key is read exactly when it holds a number below 2^64 |
| Config.Extract | src/config.rs:272 | extraction fails exactly when some known key has the wrong type, and otherwise carries each of the nine fields' values (an absent key is `None`) |
| Config.DefaultsExtract | src/config.rs:173-208 | the defaults alone extract: tray on, fullscreen on, address `localhost:3242`, launch timeout 1, create, continuous draw and the CEF debug switch off, log level DEBUG in debug builds and INFO otherwise, no Steam path |
| Config.Outcome | src/config.rs:272-277 | a read failure panics; otherwise the result is configured exactly when extraction succeeds, with its settings |
| Config.Finish | src/config.rs:272-277 | the method's result is `Outcome` of the folded configuration |
| Config.CliWins | src/config.rs:271 | a key set on the command line has the command line's value |
| Config.ExplicitBeatsCandidates | src/config.rs:259-270 | a key the explicit file sets, and the command line does not, has the explicit file's value over every candidate |
| Config.DefaultsUnlessSet | src/config.rs:247 | a key nothing sets keeps its default |
| Config.Parse | src/config.rs:241-279 | the outcome is the defaults, each provider merged in order, then extraction |
| Dialogs.NewDialog | src/app/gui/dialogs.rs:131-137 | title and message as given; no labels, no custom body, no callbacks |
| Dialogs.NewOk | src/app/gui/dialogs.rs:139-151 | an "OK" button with the positive callback and nothing else |
| Dialogs.NewOkCancel | src/app/gui/dialogs.rs:153-173 | "OK" and "Cancel" buttons with their callbacks |
| Dialogs.NewYesNo | src/app/gui/dialogs.rs:175-195 | "Yes" and "No" buttons with their callbacks |
| Dialogs.Buttons | src/app/gui/dialogs.rs:218-239 | the positive button always shows, labelled "OK" when no label is set; the negative button shows exactly when a negative label is set |
| Dialogs.ConstructorLabels | src/app/gui/dialogs.rs:131-239 | the buttons each constructor's dialog shows, with their callbacks |
| Dialogs.Signalled | src/app/gui/dialogs.rs:96-125 | one event is sent exactly when the loop's proxy is installed |
| Dialogs.PushSpec | src/app/gui/dialogs.rs:84-89 | a push puts the dialog on top and leaves the rest as it was |
| Dialogs.PopSpec | src/app/gui/dialogs.rs:106-111 | a pop takes the top dialog off, and finds nothing exactly when the stack is empty |
| Dialogs.PopAfterPush | src/app/gui/dialogs.rs:84-111 | popping right after a push returns that dialog and the stack from before |
| Dialogs.PushAfterPop | src/app/gui/dialogs.rs:84-111 | pushing back what was popped restores the stack |
| Dialogs.PopAll | src/app/gui/dialogs.rs:106-111 | `n` pops return `n` dialogs |
| Dialogs.PopAllReverses | src/app/gui/dialogs.rs:106-111 | popping everything returns the dialogs newest first |
| Dialogs.Registry.constructor | src/app/gui/dialogs.rs:62-67 | the registry starts with no dialogs and no events sent |
| Dialogs.Registry.InstallProxy | src/app/gui/dialogs.rs:35 | the waker slot now holds a proxy |
| Dialogs.Registry.IsEmpty | src/app/gui/dialogs.rs:69-75 | true exactly when no dialog is queued |
| Dialogs.Registry.Snapshot | src/app/gui/dialogs.rs:76-82 | every dialog, oldest first, with the stack unchanged |
| Dialogs.Registry.Push | src/app/gui/dialogs.rs:84-104 | the new stack is `PushSpec`, and `DialogPushed` is sent when a proxy is installed |
| Dialogs.Registry.Pop | src/app/gui/dialogs.rs:106-127 | the dialog returned and the new stack are `PopSpec`, and `DialogPopped` is sent when a proxy is installed, even from an empty stack |
| Dialogs.PushDialog | src/app/gui/dialogs.rs:15-21 | fails exactly when the registry is not set; otherwise pushes onto it |
| Dialogs.PopDialog | src/app/gui/dialogs.rs:23-30 | fails when the registry is not set, or pops and fails exactly when no dialog was queued; otherwise returns the top dialog |
| Dialogs.Click | src/app/gui/dialogs.rs:222-239 | a click runs the button's callback, if it has one, and then pops the top dialog |
| Downloads.Normalize | main/javascript/downloads.js:39-41 | a missing value becomes ""; a present one keeps its length and is lower-cased character by character |
| Downloads.NormalizeIdempotent | main/javascript/downloads.js:39-41 | normalising twice is normalising once |
| Downloads.FirstNonEmpty | main/javascript/downloads.js:53 | `a \|\| b \|\| c` on strings: the first non-empty one, else the last |
| Downloads.ClassifyPlatform | main/javascript/downloads.js:54-56 | windows exactly when the text contains "win"; linux exactly when it contains "linux" but not "win"; darwin exactly when neither and "mac" or "darwin"; unknown otherwise |
| Downloads.DarwinOnlyViaMac | main/javascript/downloads.js:54-56 | text containing "darwin" is classified as windows, so darwin is detected only through "mac" |
| Downloads.DetectPlatform | main/javascript/downloads.js:49-56 | the platform is the classification of the first non-empty of the client-hint platform, `navigator.platform` and the user agent |
| Downloads.ArchFromHints | main/javascript/downloads.js:61-67 | arm64 exactly when the hinted architecture contains "arm"; x64 exactly when it does not but it names x86 or x64 or the bitness is 64 |
| Downloads.ArchFromUserAgent | main/javascript/downloads.js:73-76 | arm64 exactly when the user agent names arm64 or aarch64; x64 exactly when it does not but names x86_64, win64, x64 or amd64 |
| Downloads.DetectArch | main/javascript/downloads.js:58-78 | the client hints decide when they give an answer; otherwise the user agent heuristics do |
| Downloads.Capitalize | main/javascript/downloads.js:31 | the length is kept, the first character is upper-cased and the rest is unchanged |
| Downloads.CapitalizeHead | main/javascript/downloads.js:31 | capitalising a concatenation capitalises only its first part |
| Downloads.CapitalizedYourOs | main/javascript/downloads.js:27-31 | "your OS" is shown as "Your OS" |
| Downloads.FormatUnknownPlatform | main/javascript/downloads.js:26-32 | an unknown platform reads "Your OS", followed by the architecture when it is known |
| Downloads.FormatDetected | main/javascript/downloads.js:26-32 | a known platform and architecture read as the capitalised platform, a space and the architecture |
| Downloads.FormatUnknownArch | main/javascript/downloads.js:26-32 | an unknown architecture is left out of the label |
| Downloads.ChecksumPenalty | main/javascript/downloads.js:86-88 | -50 exactly for checksum and signature suffixes, 0 otherwise |
| Downloads.PlatformBonus | main/javascript/downloads.js:90-106 | no bonus for a platform other than windows, linux and darwin; at most 73 otherwise |
| Downloads.ArchBonus | main/javascript/downloads.js:108-116 | one of 0, 5, 30 or 35, and 0 for an architecture other than arm64 and x64 |
| Downloads.SourcePenalty | main/javascript/downloads.js:118-120 | between -15 and 0, and 0 exactly when the name mentions neither "source" nor "src" |
| Downloads.Score | main/javascript/downloads.js:81-123 | every score lies between -65 and 108 |
| Downloads.AddPlatformBonus | main/javascript/downloads.js:90-106 | the platform tests add exactly `PlatformBonus` |
| Downloads.AddArchBonus | main/javascript/downloads.js:108-116 | the architecture tests add exactly `ArchBonus` |
| Downloads.ScoreAsset | main/javascript/downloads.js:81-123 | the score computed test by test is `Score` |
| Downloads.ScoreCaseInsensitive | main/javascript/downloads.js:82 | a name scores the same as its lower-case form |
| Downloads.Arm64NamesGet35 | main/javascript/downloads.js:109-112 | a name containing arm64 earns both arm bonuses |
| Downloads.X86_64NamesGet35 | main/javascript/downloads.js:113-116 | a name containing x86_64 earns both x64 bonuses |
| Downloads.DarwinNamesMatchWindows | main/javascript/downloads.js:91-92 | a name containing "darwin" earns the Windows bonus too, because it contains "win" |
| Downloads.Scores | main/javascript/downloads.js:131-132 | one score per asset, in order |
| Downloads.FirstMaxStep | main/javascript/downloads.js:133-136 | a strictly greater score takes over as the best; an equal or smaller one leaves it |
| Downloads.FirstMaxBounds | main/javascript/downloads.js:140 | the best score bounds every score |
| Downloads.TiesGoEarliest | main/javascript/downloads.js:133 | an asset with the best score is at or after the one picked |
| Downloads.PickBestAsset | main/javascript/downloads.js:125-142 | nothing exactly for a non-array or when every score is below 5; otherwise the first asset with the greatest score, which is at least 5 |
| Downloads.LatestPrerelease | main/javascript/downloads.js:175-182 | nothing exactly for a non-array or when no entry is a published pre-release; otherwise the first entry that is one |
| Downloads.PickLatestPrerelease | main/javascript/downloads.js:175-182 | the loop returns `LatestPrerelease` |
| Gfx.ChooseAlpha | src/gfx/mod.rs:80-93 | PreMultiplied exactly when offered; PostMultiplied exactly when it is offered and PreMultiplied is not; Auto exactly when neither is offered |
| Gfx.ChosenAlphaOffered | src/gfx/mod.rs:80-93 | the chosen alpha mode is one the surface offers unless it is the Auto fallback |
| Gfx.ChooseFormat | src/gfx/mod.rs:96-101 | nothing exactly for an empty list (where the source panics); otherwise a listed format: the first non-sRGB one, or the first listed when every format is sRGB |
| Gfx.NonSrgbPreferred | src/gfx/mod.rs:96-101 | any non-sRGB format in the list means a non-sRGB format is chosen |
| Gfx.AtLeastOne | src/gfx/mod.rs:23-24 | a dimension of 0 becomes 1; any other is kept |
| Gfx.InitialConfig | src/gfx/mod.rs:22-112 | with a format available: the inner size raised to at least 1 by 1, the chosen format and alpha mode, Fifo presentation and a frame latency of 2 |
| Gfx.Resized | src/gfx/mod.rs:124-125 | a resize with a zero side leaves the configuration as it was |
| Gfx.ResizeClamps | src/gfx/mod.rs:124-130 | a non-empty resize keeps each side that fits the texture limit and caps the others at it, changing nothing else |
| Gfx.ResizeIdempotent | src/gfx/mod.rs:124-130 | resizing twice to the same size is resizing once |
| Gfx.ResizeLastWins | src/gfx/mod.rs:124-130 | after a non-empty resize the earlier resize no longer matters |
| Gfx.Surface.constructor | src/gfx/mod.rs:103-121 | the surface is configured once, with the initial configuration, and keeps the device's texture limit |
| Gfx.Surface.Resize | src/gfx/mod.rs:124-130 | the configuration becomes `Resized`, the surface is reconfigured exactly when both sides are non-zero, and the invariant holds for a non-zero limit |
| HttpInterceptor.Invoke | cef_injectee/src/dev/http-interceptor.ts:16 | a function mock yields what calling it returns; a value mock yields the value itself |
| HttpInterceptor.HostOr | cef_injectee/src/dev/http-interceptor.ts:9 | a set, non-empty `SISR_HOST` is used; an unset or empty one gives the fallback |
| HttpInterceptor.ResolvedHostAsWritten | cef_injectee/src/dev/http-interceptor.ts:9 | with `SISR_HOST` unset the host is the full origin `http://localhost` |
| HttpInterceptor.ResolvedHost | cef_injectee/src/dev/http-interceptor.ts:9 | with `SISR_HOST` unset the host is the bare `localhost`; a set one is used as it is |
| HttpInterceptor.Resolve | cef_injectee/src/dev/http-interceptor.ts:12 | a pattern without the placeholder is left as it is; otherwise its first placeholder is replaced by the host and the text around it is kept |
| HttpInterceptor.MockFor | cef_injectee/src/dev/http-interceptor.ts:14 | a mock exactly when the entry lists the method, and then the listed one |
| HttpInterceptor.FirstServingFound | cef_injectee/src/dev/http-interceptor.ts:11-17 | the search stops at the first entry whose pattern matches and whose mock for the method is usable |
| HttpInterceptor.MockResponse | cef_injectee/src/dev/http-interceptor.ts:11-20 | `null` when no entry serves the request; otherwise the invoked mock of the first entry that does |
| HttpInterceptor.SkipsUnservedEntry | cef_injectee/src/dev/http-interceptor.ts:13-15 | a matching entry with no usable mock for the method is passed over and the search goes on |
| HttpInterceptor.EarlierEntryWins | cef_injectee/src/dev/http-interceptor.ts:11-16 | an entry that serves the request wins over every later one |
| HttpInterceptor.GetMockResponse | cef_injectee/src/dev/http-interceptor.ts:8-21 | the loop returns `MockResponse` for the host as resolved at line 9, with the `'http://localhost'` fallback |
| HttpInterceptor.RequestMethod | cef_injectee/src/dev/http-interceptor.ts:28 | a missing or empty method is GET; any other is used as given |
| HttpInterceptor.Fetch | cef_injectee/src/dev/http-interceptor.ts:25-39 | the request is mocked exactly when the lookup gives a non-null answer: status 200, JSON content and that answer; otherwise it goes to the original `fetch` with its URL and method; the lookup uses the `'http://localhost'` fallback as written |
| HttpInterceptor.FetchDefaultsToGet | cef_injectee/src/dev/http-interceptor.ts:28 | a request without a method is treated as a GET |
| HttpInterceptor.NullMockPassesThrough | cef_injectee/src/dev/http-interceptor.ts:16-31 | a serving mock function that returns `null` sends the request to the network |
| HttpInterceptor.ResolveShipped | cef_injectee/src/dev/mocks.ts:2-8 | a shipped pattern resolves to the scheme, the host and the path |
| HttpInterceptor.FallbackDoublesScheme | cef_injectee/src/dev/http-interceptor.ts:9-30 | as written, with `SISR_HOST` unset the `/ping` pattern resolves to `http://http://localhost/ping`, so a GET of `http://localhost/ping` is not mocked and `Fetch` hands it to the original `fetch` |
| HttpInterceptor.FallbackServesPing | cef_injectee/src/dev/http-interceptor.ts:9-12 | with the bare-host fallback the same GET is answered by the `/ping` mock |
| InputHandler.RegistryUpdate | src/app/input/handler/events_connection.rs:264-279 | replacing a device by one with the same id and SDL ids and some info keeps the registry invariant |
| InputHandler.RegistryErase | src/app/input/handler/events_connection.rs:195-204 | erasing a device with its only SDL id and that id's index entry keeps the registry invariant |
| InputHandler.RegistryAdd | src/app/input/handler/events_connection.rs:315-350 | a new device under the next id, indexed by a fresh SDL id, keeps the registry invariant with the counter bumped |
| InputHandler.RegistryForget | src/app/input/handler/events_misc.rs:23-25 | dropping a device record keeps the registry invariant |
| InputHandler.RegistryReframe | src/app/input/handler/events_input.rs:26-36 | a new input frame for an indexed SDL id keeps the registry invariant |
| InputHandler.RegistryHandles | src/app/input/handler/events_connection.rs:264-266 | changing only the Steam handles keeps the registry invariant |
| InputHandler.SoleSdlId | src/app/input/handler/events_connection.rs:195-204 | under the invariant a device has exactly one SDL id, the one that indexes it |
| InputHandler.FallbackVidPid | src/app/input/handler/events_connection.rs:357-365 | SDL's ids are available exactly when both the vendor and the product id are |
| InputHandler.RealVidPid | src/app/input/handler/events_connection.rs:353-385 | the ids from the third '#'-segment of the device path win when it has two '&'-parts; otherwise SDL's ids; nothing exactly when neither is available |
| InputHandler.KindPosition | src/app/input/handler/events_connection.rs:174-177 | the position of the first info of the given kind, and none exactly when no info is of that kind |
| InputHandler.RemoveInfo | src/app/input/handler/events_connection.rs:174-179 | with an info of the kind present, exactly one such info is removed and the others stay; otherwise nothing changes |
| InputHandler.PopHandle | src/app/input/handler/events_connection.rs:145-150 | the newest handle under the id is dropped, the emptied entry with it, and every other entry is untouched |
| InputHandler.Scale257 | src/app/input/handler/events_input.rs:180 | a rumble byte becomes the 16-bit value whose high and low bytes both equal it |
| InputHandler.PadRemovedSpec | src/app/input/handler/events_connection.rs:131-229 | the handle list is popped; an unindexed or unknown device changes nothing else; otherwise every other device is untouched |
| InputHandler.PadRemovedErases | src/app/input/handler/events_connection.rs:195-221 | once the removed handle was the device's last, its record, index entry and queue go, and an active enforcer is deactivated exactly when the device was the last steam-bound connected one |
| InputHandler.PadRemovedKeeps | src/app/input/handler/events_connection.rs:172-197 | otherwise only the device's infos shrink, and its SDL ids once the infos run out; index, queues and enforcer stay |
| InputHandler.PadRemovedSteps | src/app/input/handler/events_connection.rs:145-222 | the field-by-field steps of the code after the pop end where `PadRemovedSpec` says |
| InputHandler.PadRemovedErasesLastInfo | src/app/input/handler/events_connection.rs:172-198 | under the invariant a removal erases the device exactly when its only info is of the removed kind |
| InputHandler.ExistingDeviceConnect | src/app/input/handler/events_connection.rs:286-313 | a stored handle of 0 is replaced by a non-zero one, and only then, lacking a virtual device, one creation is requested; a non-zero handle is never overwritten |
| InputHandler.NewDevice | src/app/input/handler/events_connection.rs:315-351 | the device is stored with the SDL id, its info, the handle and the default type; exactly a gamepad with a non-zero handle gets one creation request |
| InputHandler.PadAddedSpec | src/app/input/handler/events_connection.rs:13-130 | a failed open changes nothing; a clone of one of our virtual devices is never stored and at most removes an earlier joystick entry; otherwise the handle is appended under the id and effects and enforcer stay |
| InputHandler.StoredHandle | src/app/input/handler/events_connection.rs:90 | the handle is appended to the list under the id, created if missing, and nothing else changes |
| InputHandler.PadAddedStepsKnown | src/app/input/handler/events_connection.rs:90-113 | for an id indexing a known device the code's steps (store, append the info, then the existing-device check) end where `PadAddedSpec` says |
| InputHandler.PadAddedStepsStale | src/app/input/handler/events_connection.rs:90-98 | for an id indexing a device that is gone, only the handle is stored |
| InputHandler.PadAddedStepsNew | src/app/input/handler/events_connection.rs:90-129 | for a new id the code's steps (store, take the next id, index it, then the new-device step) end where `PadAddedSpec` says |
| InputHandler.PadAddedFresh | src/app/input/handler/events_connection.rs:114-129 | a new SDL id gets a new device under the next id with a neutral frame, and a creation exactly for a gamepad with a Steam handle |
| InputHandler.PadAddedIndexed | src/app/input/handler/events_connection.rs:97-113 | an SDL id already indexed adds and removes no device and changes no device but its own |
| InputHandler.PadAddedKnown | src/app/input/handler/events_connection.rs:286-313 | a known device gains one info; its handle is adopted only when the stored one is 0 and the new one is not, and only then, lacking a virtual device, one creation is requested |
| InputHandler.RefreshPad | src/app/input/handler/events_connection.rs:254-279 | a gamepad indexing a known device sets that device's handle to SDL's current one and requests a creation exactly when it has no virtual device; any other pad changes nothing |
| InputHandler.RefreshPads | src/app/input/handler/events_connection.rs:247-281 | only Steam handles change, and every request is a creation for a known device lacking a virtual device; joysticks alone change nothing |
| InputHandler.RefreshStep | src/app/input/handler/events_connection.rs:249-253 | a gamepad is refreshed and a joystick skipped |
| InputHandler.SteamHandleUpdatedSpec | src/app/input/handler/events_connection.rs:235-283 | no handles stored means no change at all; otherwise only Steam handles change, only creations are requested and one redraw follows |
| InputHandler.SteamHandleUpdatedSteps | src/app/input/handler/events_connection.rs:247-282 | the refresh folded over the stored handles, then the redraw, is what `SteamHandleUpdatedSpec` gives |
| InputHandler.UpdateCompleteSpec | src/app/input/handler/events_input.rs:11-41 | nothing changes while the overlay is open, for an unindexed id or without a stored gamepad; otherwise the polled frame replaces the stored one and is sent for the device |
| InputHandler.ClearedLeavesOthers | src/app/input/handler/events_input.rs:86-90 | once a device is no longer steam-bound and connected, "any device is" means "another device is" |
| InputHandler.ServerDisconnectedSpec | src/app/input/handler/events_input.rs:68-98 | the device's queue is always dropped; a known device loses its virtual device and connection, and an active enforcer is deactivated exactly when it was the last steam-bound connected device |
| InputHandler.DeviceCreatedSpec | src/app/input/handler/events_input.rs:99-114 | a known device stores the descriptor, gets exactly one connect request and a redraw; an unknown one changes nothing |
| InputHandler.DeviceConnectedSpec | src/app/input/handler/events_input.rs:115-142 | a known device is marked connected and a redraw requested; an inactive enforcer is activated exactly when that device has a Steam handle |
| InputHandler.RumbleSpec | src/app/input/handler/events_input.rs:143-184 | only the effects change: both motors of the first gamepad under the device's chosen SDL id for 10000 ms, then a redraw; a missing device, id or gamepad changes nothing |
| InputHandler.ViiperEventSpec | src/app/input/handler/events_input.rs:66-194 | the two error events only request a redraw |
| InputHandler.IgnoreDeviceSpec | src/app/input/handler/events_misc.rs:15-29 | exactly the device's record goes; every other record, the index, the handles and the queues stay |
| InputHandler.ConnectViiperDeviceSpec | src/app/input/handler/events_misc.rs:31-59 | a known device that is not connected, has no virtual device and has a Steam handle gets one creation request and a redraw; any other call changes nothing |
| InputHandler.DisconnectViiperDeviceSpec | src/app/input/handler/events_misc.rs:61-81 | only a connected device with a virtual device has its queue dropped; nothing else changes |
| InputHandler.CefDebugReadySpec | src/app/input/handler/events_misc.rs:83-135 | the port is recorded and a redraw requested; launched by Steam without continuous redraw, the overlay notifier injection is started too |
| InputHandler.OverlayStateChangedSpec | src/app/input/handler/events_misc.rs:137-164 | ignored with continuous draw configured; otherwise the overlay state is recorded, opening turns continuous redraw on at once and closing schedules turning it off |
| InputHandler.OverlayCloseTimerSpec | src/app/input/handler/events_misc.rs:155-158 | the delayed store turns continuous redraw off and retires one pending timer |
| InputHandler.OverlayReopenRace | src/app/input/handler/events_misc.rs:151-163 | closing and reopening the overlay before the timer fires leaves it open with continuous redraw off |
| InputHandler.EvolvesTrans | src/app/input/handler/events_connection.rs:13-283 | the per-handler guarantee composes over a sequence of handler calls |
| InputHandler.IssueIdle | src/app/input/handler/viiper_bridge.rs:74-157 | bridge requests keep a bridge without a client idle |
| InputHandler.PopHandleNonEmpty | src/app/input/handler/events_connection.rs:145-150 | popping a handle never leaves an empty handle list stored |
| InputHandler.PadRemovedSound | src/app/input/handler/events_connection.rs:131-229 | `on_pad_removed` keeps the registry invariant, never reuses device ids and only appends requests, effects and enforcer URLs |
| InputHandler.PadRemovedErasedSound | src/app/input/handler/events_connection.rs:195-221 | the same for a removal that erases the device |
| InputHandler.PadRemovedKeptSound | src/app/input/handler/events_connection.rs:172-197 | the same for a removal that keeps the device |
| InputHandler.PadAddedSound | src/app/input/handler/events_connection.rs:13-130 | `on_pad_added` keeps the invariant in the same sense |
| InputHandler.PadAddedExistingSound | src/app/input/handler/events_connection.rs:97-113 | the same for an SDL id already indexed |
| InputHandler.PadAddedKnownSound | src/app/input/handler/events_connection.rs:97-113 | the same for an added handle joining a known device |
| InputHandler.PadAddedNewSound | src/app/input/handler/events_connection.rs:114-129 | the same for an SDL id seen for the first time |
| InputHandler.PadAddedFreshSound | src/app/input/handler/events_connection.rs:315-351 | the same for the new device stored under the next id |
| InputHandler.SteamHandleUpdatedSound | src/app/input/handler/events_connection.rs:235-283 | `on_steam_handle_updated` keeps the invariant in the same sense |
| InputHandler.UpdateCompleteSound | src/app/input/handler/events_input.rs:11-41 | `on_update_complete` keeps the invariant in the same sense |
| InputHandler.ServerDisconnectedSound | src/app/input/handler/events_input.rs:68-98 | ServerDisconnected keeps the invariant in the same sense |
| InputHandler.DeviceCreatedSound | src/app/input/handler/events_input.rs:99-114 | DeviceCreated keeps the invariant in the same sense |
| InputHandler.DeviceConnectedSound | src/app/input/handler/events_input.rs:115-142 | DeviceConnected keeps the invariant in the same sense |
| InputHandler.ViiperEventSound | src/app/input/handler/events_input.rs:66-194 | every VIIPER event keeps the invariant in the same sense |
| InputHandler.IgnoreDeviceSound | src/app/input/handler/events_misc.rs:15-29 | `ignore_device` keeps the invariant in the same sense |
| InputHandler.ConnectViiperDeviceSound | src/app/input/handler/events_misc.rs:31-59 | `connect_viiper_device` keeps the invariant in the same sense |
| InputHandler.DisconnectViiperDeviceSound | src/app/input/handler/events_misc.rs:61-81 | `disconnect_viiper_device` keeps the invariant in the same sense |
| InputHandler.CefDebugReadySound | src/app/input/handler/events_misc.rs:83-135 | `on_cef_debug_ready` keeps the invariant in the same sense |
| InputHandler.OverlayStateChangedSound | src/app/input/handler/events_misc.rs:137-164 | `on_overlay_state_changed` keeps the invariant in the same sense |
| InputHandler.OverlayCloseTimerSound | src/app/input/handler/events_misc.rs:155-158 | the close timer keeps the invariant in the same sense |
| EventHandlers.EventHandler.constructor | src/app/input/handler/mod.rs:47-67 | the handler starts with no devices, index entries or handles, the given first device id, the overlay closed, no CEF port and no effects, and keeps the invariant |
| EventHandlers.EventHandler.OnPadRemoved | src/app/input/handler/events_connection.rs:131-229 | the new state is `PadRemovedSpec` of the old one, and the invariant is kept |
| EventHandlers.EventHandler.RemovePad | src/app/input/handler/events_connection.rs:145-222 | the pop followed by the device steps ends in `PadRemovedSpec` |
| EventHandlers.EventHandler.ShrinkDevice | src/app/input/handler/events_connection.rs:172-222 | removing the matching info and, once none is left, the SDL id ends in the registry, bridge and enforcer that `PadRemovedSpec` gives |
| EventHandlers.EventHandler.EraseDevice | src/app/input/handler/events_connection.rs:198-220 | erasing a device whose last SDL id went ends in the specified state: sender, index entry and device gone, enforcer deactivated as specified |
| EventHandlers.EventHandler.PopSdlHandle | src/app/input/handler/events_connection.rs:145-150 | the handle map becomes `PopHandle` of the old one |
| EventHandlers.EventHandler.ReleaseBindings | src/app/input/handler/events_connection.rs:212-220 | the enforcer is deactivated exactly when the removed device was steam-bound and connected, none is left and it was active |
| EventHandlers.EventHandler.OnPadAdded | src/app/input/handler/events_connection.rs:13-130 | the new state is `PadAddedSpec` of the old one, and the invariant is kept |
| EventHandlers.EventHandler.AddPad | src/app/input/handler/events_connection.rs:13-130 | the code's branches end in `PadAddedSpec` |
| EventHandlers.EventHandler.StorePad | src/app/input/handler/events_connection.rs:84-129 | the part after the clone check ends in `PadAddedSpec` |
| EventHandlers.EventHandler.PushHandle | src/app/input/handler/events_connection.rs:90 | the state becomes `StoredHandle` |
| EventHandlers.EventHandler.AttachToKnown | src/app/input/handler/events_connection.rs:97-113 | storing the handle and appending the info, then `ExistingDeviceConnect` |
| EventHandlers.EventHandler.AttachToNew | src/app/input/handler/events_connection.rs:114-129 | storing the handle, indexing the next id, then `NewDevice` |
| EventHandlers.EventHandler.HandleExistingDeviceConnect | src/app/input/handler/events_connection.rs:286-313 | the state becomes `ExistingDeviceConnect` of the old one |
| EventHandlers.EventHandler.HandleNewDevice | src/app/input/handler/events_connection.rs:315-351 | the state becomes `NewDevice` of the old one |
| EventHandlers.EventHandler.OnSteamHandleUpdated | src/app/input/handler/events_connection.rs:235-283 | the new state is `SteamHandleUpdatedSpec` of the old one, and the invariant is kept |
| EventHandlers.EventHandler.RefreshHandles | src/app/input/handler/events_connection.rs:240-282 | the lookup, the loop and the redraw end in `SteamHandleUpdatedSpec` |
| EventHandlers.EventHandler.RefreshAll | src/app/input/handler/events_connection.rs:247-281 | the loop over the handles ends where `RefreshPads` says, with its requests issued in order |
| EventHandlers.EventHandler.RefreshOne | src/app/input/handler/events_connection.rs:249-280 | one loop element ends where `RefreshStep` says |
| EventHandlers.EventHandler.OnUpdateComplete | src/app/input/handler/events_input.rs:11-41 | the new state is `UpdateCompleteSpec` of the old one, and the invariant is kept |
| EventHandlers.EventHandler.PollPad | src/app/input/handler/events_input.rs:19-40 | the overlay check, the lookups and the poll end in `UpdateCompleteSpec` |
| EventHandlers.EventHandler.OnViiperEvent | src/app/input/handler/events_input.rs:66-194 | the new state is `ViiperEventSpec` of the old one, and the invariant is kept |
| EventHandlers.EventHandler.RequestRedraw | src/app/input/handler/gui.rs:8-16 | exactly one Redraw effect is appended |
| EventHandlers.EventHandler.OnServerDisconnected | src/app/input/handler/events_input.rs:68-98 | the state becomes `ServerDisconnectedSpec` of the old one |
| EventHandlers.EventHandler.OnDeviceCreated | src/app/input/handler/events_input.rs:99-114 | the state becomes `DeviceCreatedSpec` of the old one |
| EventHandlers.EventHandler.OnDeviceConnected | src/app/input/handler/events_input.rs:115-142 | the state becomes `DeviceConnectedSpec` of the old one |
| EventHandlers.EventHandler.OnDeviceRumble | src/app/input/handler/events_input.rs:143-184 | the state becomes `RumbleSpec` of the old one |
| EventHandlers.EventHandler.IgnoreDevice | src/app/input/handler/events_misc.rs:15-29 | the new state is `IgnoreDeviceSpec` of the old one, and the invariant is kept |
| EventHandlers.EventHandler.ForgetDevice | src/app/input/handler/events_misc.rs:23-28 | the record removal is `IgnoreDeviceSpec` |
| EventHandlers.EventHandler.ConnectViiperDevice | src/app/input/handler/events_misc.rs:31-59 | the new state is `ConnectViiperDeviceSpec` of the old one, and the invariant is kept |
| EventHandlers.EventHandler.RequestConnect | src/app/input/handler/events_misc.rs:39-58 | the checks and the request end in `ConnectViiperDeviceSpec` |
| EventHandlers.EventHandler.DisconnectViiperDevice | src/app/input/handler/events_misc.rs:61-81 | the new state is `DisconnectViiperDeviceSpec` of the old one, and the invariant is kept |
| EventHandlers.EventHandler.RequestDisconnect | src/app/input/handler/events_misc.rs:69-80 | the checks and the removal end in `DisconnectViiperDeviceSpec` |
| EventHandlers.EventHandler.OnCefDebugReady | src/app/input/handler/events_misc.rs:83-135 | the new state is `CefDebugReadySpec` of the old one, and the invariant is kept |
| EventHandlers.EventHandler.RecordCefPort | src/app/input/handler/events_misc.rs:91-131 | recording the port, the redraw and the injection check end in `CefDebugReadySpec` |
| EventHandlers.EventHandler.OnOverlayStateChanged | src/app/input/handler/events_misc.rs:137-164 | the new state is `OverlayStateChangedSpec` of the old one, and the invariant is kept |
| EventHandlers.EventHandler.RecordOverlayState | src/app/input/handler/events_misc.rs:139-163 | the configuration check and the stores end in `OverlayStateChangedSpec` |
| EventHandlers.EventHandler.FireOverlayCloseTimer | src/app/input/handler/events_misc.rs:155-158 | the timer's store is `OverlayCloseTimerSpec`, and the invariant is kept |
| EventHandlers.EventHandler.ClearContinuousRedraw | src/app/input/handler/events_misc.rs:157 | the store itself is `OverlayCloseTimerSpec` |
| ViiperBridge.EnsureBus | src/app/input/handler/viiper_bridge.rs:242-255 | the bus list is queried exactly when a bus id is cached; a new bus is created exactly when none is cached or the cached one is no longer listed; a reused id is the cached, listed one; an error comes exactly from a failed listing or a failed creation |
| ViiperBridge.EnsureBusReusesListed | src/app/input/handler/viiper_bridge.rs:243-247 | a cached bus that is still listed is reused without creating one |
| ViiperBridge.EnsureBusIgnoresListingWithoutCache | src/app/input/handler/viiper_bridge.rs:243-251 | without a cached bus the listing plays no part |
| ViiperBridge.DecodeRumble | src/app/input/handler/viiper_bridge.rs:197-206 | an output report is decoded exactly when a full report of `OUTPUT_SIZE` bytes is available, giving its first two bytes as the left and right motors |
| ViiperBridge.Apply | src/app/input/handler/viiper_bridge.rs:74-282 | every call is recorded; create fails at once without a client and otherwise spawns a task; connect fails at once without a descriptor or client and otherwise spawns a task; remove drops exactly that device's queue; an update queues one frame on the device's queue only, if it has one |
| ViiperBridge.ApplyAll | src/app/input/handler/viiper_bridge.rs:74-282 | the calls are recorded in order |
| ViiperBridge.ApplyAllConcat | src/app/input/handler/viiper_bridge.rs:74-282 | applying two batches of calls in turn is applying their concatenation |
| ViiperBridge.ApplyAllOne | src/app/input/handler/viiper_bridge.rs:74-282 | a batch of one call is that call |
| ViiperBridge.ApplyAllWithoutClient | src/app/input/handler/viiper_bridge.rs:74-157 | without a client no task or queue ever appears |
| ViiperBridge.Bridge.constructor | src/app/input/handler/viiper_bridge.rs:54-72 | a new bridge has no bus, queues, events, calls, tasks or callbacks, and keeps the invariant |
| ViiperBridge.Bridge.InstallWaker | src/app/input/handler/viiper_bridge.rs:49 | the SDL event sender is installed |
| ViiperBridge.Bridge.PushEvent | src/app/input/handler/viiper_bridge.rs:284-291 | the event is delivered exactly when the SDL sender exists |
| ViiperBridge.Bridge.CreateDevice | src/app/input/handler/viiper_bridge.rs:74-136 | the bridge changes as `Apply` says for a create call, keeping the invariant |
| ViiperBridge.Bridge.ConnectDevice | src/app/input/handler/viiper_bridge.rs:138-240 | the bridge changes as `Apply` says for a connect call, keeping the invariant |
| ViiperBridge.Bridge.RemoveDevice | src/app/input/handler/viiper_bridge.rs:257-265 | the bridge changes as `Apply` says for a remove call, keeping the invariant |
| ViiperBridge.Bridge.UpdateDeviceState | src/app/input/handler/viiper_bridge.rs:267-282 | the bridge changes as `Apply` says for an update call, keeping the invariant |
| ViiperBridge.Bridge.CompleteCreate | src/app/input/handler/viiper_bridge.rs:89-135 | the task ends; the bus id is stored after a successful `ensure_bus`; DeviceCreated is reported exactly when both the bus and the device were obtained, ErrorCreateDevice otherwise |
| ViiperBridge.Bridge.CompleteConnect | src/app/input/handler/viiper_bridge.rs:162-228 | the task ends; a failed connection reports ErrorConnectDevice and changes nothing else; otherwise the callbacks that registered are installed, a fresh queue is put in place and DeviceConnected is reported |
| ViiperBridge.Bridge.FireDisconnect | src/app/input/handler/viiper_bridge.rs:178-184 | the disconnect callback reports ServerDisconnected for the device |
| ViiperBridge.Bridge.FireOutput | src/app/input/handler/viiper_bridge.rs:194-210 | the output callback reports the decoded rumble, and nothing for a short report |
| SdlDevices.InfoOf | src/app/input/handler/events_connection.rs:89 | the info records a gamepad exactly for a gamepad handle |
| SdlDevices.SteamHandle | src/app/input/sdl.rs:21-49 | 0 when the instance id is missing or 0 or the raw pointer is null; any non-zero handle is what SDL reports |
| SdlDevices.FirstGamepad | src/app/input/handler/events_input.rs:30-34 | the first gamepad among the handles, after joysticks only; none exactly when every handle is a joystick |
| SdlLoop.OpenedHandle | src/app/input/handler/events_connection.rs:29-37 | a handle exactly when the gamepad opened, and then that gamepad |
| SdlLoop.Process | src/app/input/sdl.rs:235-335 | the loop stops exactly on Quit; the redraw mark is set exactly by Steam-handle updates, controller additions and removals; Quit, joystick additions and other events leave the handler alone |
| SdlLoop.Then | src/app/input/sdl.rs:220-227 | the later event decides the state and the Quit verdict; the redraw mark is kept once set |
| SdlLoop.ProcessEvolves | src/app/input/sdl.rs:235-335 | every routed event keeps the registry invariant, never reuses device ids and only appends requests, effects and enforcer URLs |
| SdlLoop.HandleUpdatedEvolves | src/app/input/sdl.rs:244-248 | the same for a Steam-handle update |
| SdlLoop.GamepadUpdateEvolves | src/app/input/sdl.rs:249-252 | the same for a gamepad update completion |
| SdlLoop.JoystickUpdateEvolves | src/app/input/sdl.rs:253-256 | the same for a joystick update completion |
| SdlLoop.AddedEvolves | src/app/input/sdl.rs:266-269 | the same for a controller addition |
| SdlLoop.JoyRemovedEvolves | src/app/input/sdl.rs:270-273 | the same for a joystick removal |
| SdlLoop.ControllerRemovedEvolves | src/app/input/sdl.rs:270-273 | the same for a controller removal |
| SdlLoop.UserEvolves | src/app/input/sdl.rs:278-322 | the same for a user event |
| SdlLoop.DispatchEvolves | src/app/input/sdl.rs:282-320 | every handler event keeps the invariant in the same sense |
| SdlLoop.PostedEvolves | src/app/input/sdl.rs:283-285 | the same for a posted VIIPER event |
| SdlLoop.IgnoreEvolves | src/app/input/sdl.rs:286-288 | the same for an ignore request |
| SdlLoop.ConnectEvolves | src/app/input/sdl.rs:289-291 | the same for a connect request |
| SdlLoop.CefEvolves | src/app/input/sdl.rs:297-299 | the same for CEF debug readiness |
| SdlLoop.OverlayEvolves | src/app/input/sdl.rs:300-302 | the same for an overlay state change |
| SdlLoop.DisconnectEvolves | src/app/input/sdl.rs:292-296 | the same for a disconnect request |
| SdlLoop.BatchQuit | src/app/input/sdl.rs:220-226 | a batch quits exactly when it holds a Quit |
| SdlLoop.BatchStops | src/app/input/sdl.rs:220-226 | nothing after a Quit is handled |
| SdlLoop.BatchRedraw | src/app/input/sdl.rs:215-229 | a batch that does not quit is marked for redraw exactly when one of its events marks it |
| SdlLoop.BatchEvolves | src/app/input/sdl.rs:220-227 | a whole batch keeps the invariant in the same sense |
| SdlLoop.AfterBatchEvolves | src/app/input/sdl.rs:214-231 | a loop turn, with its redraw request, keeps the invariant in the same sense |
| SdlLoop.RunEvolves | src/app/input/sdl.rs:214-232 | any number of loop turns keep the invariant in the same sense |
| SdlLoop.RunQuit | src/app/input/sdl.rs:214-232 | the loop returns exactly when some batch holds a Quit |
| SdlLoop.ProcessOne | src/app/input/sdl.rs:235-335 | calling the handler as `process_one` does ends in `Process`, with its redraw mark and Quit verdict, keeping the invariant |
| SdlLoop.DispatchUser | src/app/input/sdl.rs:282-320 | the user event's handler call ends in `Dispatch`, keeping the invariant |
| SdlLoop.RequestRedraw | src/app/input/sdl.rs:337-348 | exactly one Redraw is appended |
| SdlLoop.RunBatch | src/app/input/sdl.rs:215-231 | one turn ends in `AfterBatch` of `Batch`, reporting its Quit verdict |
| SdlLoop.Advance | src/app/input/sdl.rs:220-226 | the next event of the batch is handled after the ones before it |
| SdlLoop.BatchSnoc | src/app/input/sdl.rs:223-226 | handling one more event extends the handled prefix by `Process`, unless it had quit |
| SdlLoop.BatchPrefixQuit | src/app/input/sdl.rs:220-226 | a batch whose prefix quit ends as the prefix did |
| SdlLoop.RunLoop | src/app/input/sdl.rs:214-233 | the loop over the batches ends in `Run`, reporting whether one quit, keeping the invariant |
| SdlLoop.RunStops | src/app/input/sdl.rs:220-226 | no turn after the one that quit is taken |
| SdlLoop.RunPrefixQuit | src/app/input/sdl.rs:220-226 | a run whose first turns quit ends as they did |
| Readiness.StripV | src/app/core.rs:458 | one leading 'v' is dropped and nothing else; text without one is unchanged |
| Readiness.ParseVersion | src/app/core.rs:456-465 | a parsed version has three components, each within u64 |
| Readiness.AtLeastTotalOrder | src/app/core.rs:478 | the `(major, minor, patch)` comparison is reflexive, total, antisymmetric and transitive |
| Readiness.VersionAccepted | src/app/core.rs:451-482 | accepted exactly when the dev-build bypass applies or both versions parse and the reported one is at least the minimum |
| Readiness.AcceptedUpward | src/app/core.rs:478 | any version at least as new as an accepted one is accepted |
| Readiness.ShownParts | src/app/core.rs:457-460 | dotted decimal text has no white space, no '-', no leading 'v', and splits on '.' into its three components |
| Readiness.VersionRoundTrip | src/app/core.rs:456-465 | printing three u64 components as `a.b.c` and parsing gives them back |
| Readiness.VersionDecorated | src/app/core.rs:457-459 | a leading 'v' and a `-suffix` do not change the parsed version |
| Readiness.VersionMajorOnly | src/app/core.rs:461-463 | a version of one component reads minor and patch as 0 |
| Readiness.DigitsOnlyParts | src/app/core.rs:457-460 | plain digits are a single component after trimming, stripping and splitting |
| Readiness.ZeroParses | src/app/core.rs:462-463 | the default "0" of a missing component parses as 0 |
| Readiness.VersionNoPatch | src/app/core.rs:463 | a version `a.b` reads its patch as 0 |
| Readiness.DialogTitle | src/app/core.rs:430-602 | a ready server shows no dialog; each failure shows its own title |
| Readiness.TrySpawn | src/app/core.rs:521-567 | a tracked child means success with no new process; a process is started exactly when none is tracked and the executable exists; success exactly when one was tracked or the spawn worked; the new child is tracked only then |
| Readiness.Then | src/app/core.rs:429-588 | prefixing pings, sleeps and spawns keeps the verdict and child and adds the counts and delays |
| Readiness.Classify | src/app/core.rs:432-499 | a non-VIIPER server is invalid; a VIIPER server is ready exactly when its version is accepted, else too old; a reply never means a spawn failure or unavailability |
| Readiness.GatePings | src/app/core.rs:429-602 | a run pings at least once and at most five times, and all five times before giving up |
| Readiness.GateSleepCount | src/app/core.rs:586 | one sleep follows each failed ping that does not end the run |
| Readiness.GateSleeps | src/app/core.rs:418-424 | the sleeps are a prefix of the schedule 1, 1, 2, 4, 6 seconds, and all of it when the gate gives up |
| Readiness.GateSpawns | src/app/core.rs:518-520 | at most one spawn per run, only on a loopback address with no tracked child and an existing executable; a tracked child stays |
| Readiness.GateRetriesOnlyFailures | src/app/core.rs:515-587 | every ping before the last one of a run failed |
| Readiness.GateReplyStep | src/app/core.rs:431-514 | a reply ends the run on that ping, with the verdict on that reply |
| Readiness.GateSpawnFailStep | src/app/core.rs:569-583 | a failed spawn ends the run on that ping as a spawn failure |
| Readiness.GateFailedStep | src/app/core.rs:515-587 | a failed ping that does not end the run leaves the verdict to the following attempts |
| Readiness.GateDecidedAt | src/app/core.rs:429-602 | the ping numbered as the run's last decides the verdict |
| Readiness.GateDecidedByLastPing | src/app/core.rs:429-602 | a reply on the last ping gives the verdict on that reply; a failure there means a spawn failure or giving up |
| Readiness.ChildSlot.constructor | src/app/core.rs:33 | the slot starts empty with nothing killed |
| Readiness.ChildSlot.Spawn | src/app/core.rs:521-567 | the slot and the outcome are those of the spawn closure's specification |
| Readiness.ChildSlot.KillSpawned | src/app/core.rs:211-222 | the slot is emptied and its child, if any, is killed |
| Readiness.Kill | src/app/core.rs:211-222 | the slot ends empty; a tracked child is added to the killed processes, and nothing is added otherwise |
| Readiness.KillOnce | src/app/core.rs:213 | a second shutdown kills nothing more |
| Readiness.GateRetryStep | src/app/core.rs:515-587 | a failed ping that does not end the run is one ping, the attempt's delay, and the rest of the run |
| Readiness.ThenThen | src/app/core.rs:429-589 | recording two stretches one after another equals recording them together |
| Readiness.CheckReply | src/app/core.rs:432-499 | the verdict equals the one specified for the reply |
| Readiness.Attempt | src/app/core.rs:430-587 | one pass of the loop is the first step of the specified run: either the whole run or one ping and delay before the rest |
| Readiness.EnsureViiper | src/app/core.rs:418-602 | the verdict, pings, sleeps, spawns and tracked child are exactly those of the specified gate run |
| Readiness.Shutdown | src/app/core.rs:207-241 | the server is killed as specified, and each loop is woken exactly when its sender is set |
| SteamUtil.StrField | src/app/steam_utils/util.rs:243-254 | a field is read exactly when it is present and a string |
| SteamUtil.AppIdField | src/app/steam_utils/util.rs:262 | the app id is below 2^32; an in-range integer appid is kept; a missing or non-u64 appid gives 0 |
| SteamUtil.NormalizePath | src/app/steam_utils/util.rs:256-259 | same length; each character lower-cased, with a backslash turned into '/' |
| SteamUtil.NormalizedPathIsCanonical | src/app/steam_utils/util.rs:256-259 | a normalised path has no backslash and no upper-case letter, and normalising again changes nothing |
| SteamUtil.MarkerAppId | src/app/steam_utils/util.rs:232-268 | below 2^32; 0 when the file did not parse to an object or holds no marker shortcut |
| SteamUtil.FirstMarkerWins | src/app/steam_utils/util.rs:241-265 | the first marker shortcut decides the answer, even when a later one has an appid |
| SteamUtil.MarkerAppIdFound | src/app/steam_utils/util.rs:241-265 | a non-zero answer is the appid of a marker shortcut with no marker before it |
| SteamUtil.FindMarker | src/app/steam_utils/util.rs:232-268 | the loop returns the specified marker app id |
| SteamUtil.MarkerGameId | src/app/steam_utils/util.rs:390 | the game id fits u64, holds the shortcut type `2 << 24` in its low 32 bits and the marker in its high 32 bits |
| SteamUtil.MarkerGameIdRoundTrip | src/app/steam_utils/util.rs:390 | shifting the game id right by 32, as the binding enforcer does, gives the marker back |
| SteamUtil.MarkerGameIdThroughEnv | src/app/steam_utils/util.rs:390-391 | the decimal `SteamGameId` parses back into the game id, and the enforcer reads the marker from it |
| SteamUtil.GetShortcutsPath | src/app/steam_utils/util.rs:218-230 | a path exactly when the shortcuts file exists, and then `<steam>/userdata/<id>/config/shortcuts.vdf` |
| SteamUtil.JoinedParts | src/app/steam_utils/util.rs:219-223 | slash-free components joined under a base split back into those components |
| SteamUtil.ShortcutsPathParts | src/app/steam_utils/util.rs:219-223 | the shortcuts path lies under the Steam directory, its components are `userdata`, the id, `config`, `shortcuts.vdf`, and the id reads back |
| SteamUtil.ShortcutsPathInjective | src/app/steam_utils/util.rs:219-223 | different users have different shortcuts files |
| SteamUtil.LineUserId | src/app/steam_utils/util.rs:139-151 | a line gives an id only when it is a non-zero u32 |
| SteamUtil.LineUserIdShown | src/app/steam_utils/util.rs:139-151 | the line `"ActiveUser"<sep>"<id>"` gives that id |
| SteamUtil.QuotedLineParts | src/app/steam_utils/util.rs:139-141 | such a line is its own trim, starts with the quoted key, and splits on '"' into the empty text, the key, the separator, the id and the empty text |
| SteamUtil.QuoteSplit | src/app/steam_utils/util.rs:141 | three quote-free pieces between quotes split into them, with empty ends |
| SteamUtil.RegistryUserId | src/app/steam_utils/util.rs:138-154 | a non-zero u32 when found; none exactly when no line names a user |
| SteamUtil.RegistryFirstLineWins | src/app/steam_utils/util.rs:138-154 | the first line naming a user gives the answer |
| SteamUtil.CheckLine | src/app/steam_utils/util.rs:139-151 | the test of one line equals the specified line reading |
| SteamUtil.ScanRegistry | src/app/steam_utils/util.rs:138-154 | the loop returns the specified registry user id |
| SteamUtil.EntryUserId | src/app/steam_utils/util.rs:163-173 | an entry gives an id only when it is a directory with a UTF-8 name that parses to a non-zero u32, and then that number |
| SteamUtil.UserdataUserId | src/app/steam_utils/util.rs:159-178 | none exactly when no entry names a user; otherwise a non-zero u32 |
| SteamUtil.UserdataFirstEntryWins | src/app/steam_utils/util.rs:162-176 | the first entry naming a user gives the answer |
| SteamUtil.ScanUserdata | src/app/steam_utils/util.rs:159-178 | the loop returns the specified userdata user id |
| SteamUtil.ActiveUserId | src/app/steam_utils/util.rs:115-183 | nothing without a Steam path; the registry's id when it has one; otherwise the userdata listing's; any id is a non-zero u32 |
| SteamUtil.SteamPathChoice | src/app/steam_utils/util.rs:47-59 | a configured path wins, then the cached one, then detection |
| SteamUtil.SteamPathCacheAfter | src/app/steam_utils/util.rs:76-91 | a set cache never changes, and it is only ever set to a found path |
| SteamUtil.SteamPathSticks | src/app/steam_utils/util.rs:56-59 | once a path is detected, every later call without a configured path returns it |
| SteamUtil.LinuxSteamDir | src/app/steam_utils/util.rs:83-95 | `$HOME/.steam/steam` exactly when it exists |
| SteamUtil.SteamGlobals.constructor | src/app/steam_utils/util.rs:12-13 | both caches start unset |
| SteamUtil.SteamGlobals.Init | src/app/steam_utils/util.rs:16-20 | the first call records whether `SteamGameId` is set; later calls change nothing |
| SteamUtil.SteamGlobals.LaunchedViaSteam | src/app/steam_utils/util.rs:22-24 | false before `init`, the recorded value after |
| SteamUtil.SteamGlobals.SteamPath | src/app/steam_utils/util.rs:47-113 | the result and the new cache are the specified choice and cache |
| SteamUtil.MarkerVars | src/app/steam_utils/util.rs:386-395 | exactly the six variables are written, and both game-id variables hold the decimal game id |
| SteamUtil.MarkerEnvOutcome | src/app/steam_utils/util.rs:356-416 | each error means every earlier item was found and this one was not, in the order steam path, user id, shortcuts file, marker, gamepad info file |
| SteamUtil.ProcessEnv.constructor | src/app/steam_utils/util.rs:385-414 | the environment starts as given |
| SteamUtil.TrySetMarkerSteamEnv | src/app/steam_utils/util.rs:356-416 | the specified outcome; the environment is unchanged on an early error, holds the marker variables when only the gamepad info file is missing, and also `SteamVirtualGamepadInfo` on success |
| SteamUtil.MarkerEnvFeedsEnforcer | src/app/steam_utils/util.rs:389-391 | after a marker is found, the environment names it and the enforcer reading `SteamGameId` gets the marker's app id |
| Window.MapMouseButton | src/app/window.rs:172-181 | the named buttons map to 1 to 5; another button keeps its number exactly when it fits a byte |
| Window.NamedButtonsDistinct | src/app/window.rs:172-181 | different named buttons get different numbers |
| Window.Initial | src/app/window.rs:148-156 | fullscreen by default; the UI starts hidden when fullscreen and otherwise exactly when kbm emulation is off; no window, passthrough or overlay yet |
| Window.PassthroughAfter | src/app/window.rs:207-219 | without a window nothing changes; otherwise passthrough is the request unless the overlay is open; no other flag changes |
| Window.HitTestCall | src/app/window.rs:214-218 | a hit-test call is made exactly when passthrough changes, with the new value negated |
| Window.HitTestCallKeepsAgreement | src/app/window.rs:214-218 | after the call the window hit-tests exactly when passthrough is off |
| Window.ResumedStep | src/app/window.rs:471-560 | a second resume changes nothing; the first creates the window and sets passthrough exactly when fullscreen, UI hidden, kbm off and no overlay |
| Window.ToggleUiStep | src/app/window.rs:622-672 | with a window the UI flips; hiding it asks for passthrough under fullscreen without kbm and overlay; showing it turns passthrough off |
| Window.KbmGrabStep | src/app/window.rs:687-710 | the kbm flag is always stored; with a window not reported hidden, passthrough is recomputed from it, and otherwise nothing else changes |
| Window.OverlayStep | src/app/window.rs:711-726 | the overlay flag is stored; an open overlay turns passthrough off, a closed one restores the resting value |
| Window.CaptureStep | src/app/window.rs:673-686 | with a window the UI is hidden and passthrough set under fullscreen without kbm and overlay |
| Window.UserEventStep | src/app/window.rs:566-774 | no event creates or removes the window or changes fullscreen; an opened overlay turns passthrough off; passthrough stays safe |
| Window.ShowShown | src/app/window.rs:576-602 | with a window the shared window flag is set and the cursor hidden exactly while capturing |
| Window.HideShown | src/app/window.rs:603-621 | with a window the shared window flag is cleared and the cursor shown |
| Window.DialogPushedShown | src/app/window.rs:727-733 | the window counts as visible before the dialog exactly when it exists and reports visible |
| Window.ToggleShown | src/app/window.rs:622-672 | the shared UI flag follows the toggle; the cursor is hidden exactly when the new UI is hidden under kbm emulation; the shared window flag follows the UI unless the window was visible before a dialog |
| Window.CaptureShown | src/app/window.rs:673-686 | with a window the cursor is hidden exactly when kbm emulation is on |
| Window.KbmGrabShown | src/app/window.rs:698-706 | with a window not reported hidden and the UI hidden, the cursor is hidden exactly when kbm is enabled; otherwise nothing changes |
| Window.UserShownStep | src/app/window.rs:566-774 | without a window only a dialog push changes what is shown; Quit, Redraw, DialogPopped and OverlayStateChanged change nothing shown |
| Window.UserEventSent | src/app/window.rs:649-656 | the only push is one release-all, exactly when ToggleUi shows the UI |
| Window.UserEventsKeepPassthroughSafe | src/app/window.rs:207-219 | over any sequence of user events passthrough is only on with a window and a closed overlay |
| Window.WindowEventFlags | src/app/window.rs:893-920 | the UI flips exactly for the Ctrl+Shift+Alt+S chord that egui did not consume, with a window; no other flag changes |
| Window.WindowEventSent | src/app/window.rs:830-967 | at most one push; nothing for consumed input or a modifier change; anything but the chord is pushed only while capturing; the chord pushes at most a release-all |
| Window.ForwardedWhileCapturing | src/app/window.rs:886-967 | while capturing, an input egui did not consume is forwarded once |
| Window.ToggleChordFlipsUi | src/app/window.rs:897-920 | the chord flips the UI and releases every input exactly when it shows the UI |
| Window.DeviceEventSent | src/app/window.rs:446-468 | raw motion is forwarded exactly while capturing and when it moved |
| Window.WindowRunner.constructor | src/app/window.rs:76-158 | the initial flags, the pre-dialog visibility from the window configuration, the shared SDL sender slot as handed in, and nothing recorded yet |
| Window.WindowRunner.InstallSdlSender | src/app/window.rs:54 | once the SDL thread fills the shared slot, pushes reach it |
| Window.WindowRunner.TryPush | src/app/window.rs:160-170 | the event is recorded as reaching the SDL thread exactly when its sender is installed; otherwise it is dropped |
| Window.WindowRunner.SetPassthrough | src/app/window.rs:207-219 | the flags and hit-test calls are the specified ones |
| Window.WindowRunner.UpdateCursorVisibility | src/app/window.rs:221-235 | the cursor is hidden exactly while capturing |
| Window.WindowRunner.Resumed | src/app/window.rs:471-560 | the flags, cursor and hit-test calls are the specified ones, and the runner stays valid |
| Window.WindowRunner.ShowWindow | src/app/window.rs:576-602 | what is shown is the specified one |
| Window.WindowRunner.HideWindow | src/app/window.rs:603-621 | what is shown is the specified one |
| Window.WindowRunner.DialogPushed | src/app/window.rs:727-746 | passthrough goes off and the pre-dialog visibility is recorded |
| Window.WindowRunner.HideUi | src/app/window.rs:629-648 | the flags and what is shown are those of the specified toggle |
| Window.WindowRunner.ShowUi | src/app/window.rs:649-669 | the same, and one release-all is pushed when the SDL sender is installed |
| Window.WindowRunner.ToggleUi | src/app/window.rs:622-672 | the flags, what is shown and what is pushed are those specified; pushes are dropped without an SDL sender |
| Window.WindowRunner.EnterCaptureMode | src/app/window.rs:673-686 | the flags and what is shown are those specified |
| Window.WindowRunner.SetKbmCursorGrab | src/app/window.rs:687-710 | the flags and what is shown are those specified |
| Window.WindowRunner.OverlayStateChanged | src/app/window.rs:711-726 | the flags are those specified |
| Window.WindowRunner.UserEvent | src/app/window.rs:566-774 | each state part is that of the specified step, Quit ends the loop, and the runner stays valid; pushes are dropped without an SDL sender |
| Window.WindowRunner.ToggleChord | src/app/window.rs:903-919 | with a window the UI flips, and a release-all is pushed when it shows and the SDL sender is installed |
| Window.WindowRunner.WindowEvent | src/app/window.rs:816-967 | the flags, pushes and modifiers are those specified for the input: consumed input changes nothing, a modifier change is stored; pushes are dropped without an SDL sender |
| Window.WindowRunner.Forward | src/app/window.rs:922-967 | the input's event is pushed exactly while capturing with the SDL sender installed |
| Window.WindowRunner.DeviceEvent | src/app/window.rs:446-468 | the pushes are the specified ones, dropped without an SDL sender |
| Text.Lower | src/app/steam_utils/util.rs:239 | same length, each character lower-cased |
| Text.LowerIsLower | src/app/steam_utils/util.rs:256-259 | lower-cased text has no upper-case letter, and lower-casing it again changes nothing |
| Text.Split | src/app/core.rs:459-460 | splitting always yields at least one part |
| Text.SplitJoin | src/app/core.rs:459-460 | joining the parts with the separator gives the text back |
| Text.SplitPartsFree | src/app/steam_utils/util.rs:141 | no part contains the separator |
| Text.SplitFirst | src/app/core.rs:459 | the first part is the text before the first separator, and the whole text without one |
| Text.TrimStart | src/app/core.rs:457 | only leading white space is removed, and the result does not start with white space |
| Text.TrimEnd | src/app/core.rs:457 | only trailing white space is removed, and the result does not end with white space |
| Text.ParseUnsigned | src/app/steam_utils/util.rs:143 | a parsed number is within the type's range and comes from text starting with a digit or '+'; empty text and a lone '+' fail |
| Text.NatToDecimal | src/app/steam_utils/util.rs:389 | the shortest decimal spelling: digits only, with that value and no leading zero |
| Text.DecimalRoundTrip | src/app/steam_utils/util.rs:389-391 | printing an in-range number and parsing it gives it back |
| Text.Hex4 | src/app/input/handler/events_connection.rs:362-363 | exactly four lower-case hex digits |
| Text.IndexOf | cef_injectee/src/dev/http-interceptor.ts:12 | the position of the first occurrence: the pattern occurs there and nowhere before; none exactly when it does not occur |
| Text.ReplaceFirst | cef_injectee/src/dev/http-interceptor.ts:12 | JavaScript `replace` with a string pattern: unchanged without an occurrence, otherwise the first occurrence is replaced and the rest kept |
| Text.ReplaceFirstAt | cef_injectee/src/dev/http-interceptor.ts:12 | wherever the first occurrence lies, it is the one replaced, and the text before and after it is kept |
| Search.FirstWhere | src/app/steam_utils/cef_debug/inject.rs:48-58 | the first element passing the test, with none before it passing; none exactly when no element passes |
| Search.FirstWhereIs | src/app/steam_utils/cef_debug/inject.rs:48-58 | an element that passes with none before it passing is the one found |

## Left out

- Mutex and RwLock poisoning: every lock is assumed to succeed. The error branches that log a failed lock are not modelled.
- Threads, the tokio runtime and sleeps. Asynchronous results arrive as explicit events in any order. A completed task is one atomic step. The retry delays are recorded, not waited for.
- The 1000 ms overlay-close timer of `on_overlay_state_changed`: the timer's expiry is a separate event (`OverlayCloseTimerSpec`).
- The 100 ms dialog-hide thread of the window's `DialogPopped` arm.
- Frame pacing in `about_to_wait`.
- Network I/O. VIIPER client calls, the CDP tab listing and WebSocket exchange, the WebSocket broadcast, and GitHub's API are outcomes passed as parameters.
- The stream-sender forwarding loop that writes frames to VIIPER. Frames are recorded in the per-device queue, not sent.
- Operating-system calls are inputs. These cover process spawn and kill, the Windows registry, sysinfo, libloading, file existence and `current_exe`. Only environment-variable writes are modelled, as a map.
- The Windows and macOS branches of `steam_path` and `active_user_id`. Only the Linux detection is modelled; `steam_running` and the overlay library loader are left out as OS interaction.
- `PathBuf::join` is string concatenation with '/'. The lines of `registry.vdf` are given as a sequence; reading the file and `str::lines` are not modelled.
- The order of a serde map is the order of the shortcut list given to the model.
- Which element a `HashSet` yields first (the rumble target's SDL id) is an arbitrary function `pick` passed with the event.
- Case mapping and trimming are ASCII only. Rust and JavaScript apply the Unicode tables.
- JavaScript `replace` special `$` patterns and prototype-chain property lookups are not modelled.
- The SDL raw-pointer transmute in `get_gamepad_steam_handle` is not modelled beyond its zero guards.
- Floating point: mouse and wheel deltas, scale factors and `bytesToMiB`. A moved wheel or mouse is a boolean.
- Winit `MouseButton::Other(u16)` is a `nat`, and the keycode-to-scancode map is a parameter.
- Rendering and egui, wgpu and winit calls: window attributes, cursor grab, focus, window level, redraw requests and drawing the dialogs. Whether egui consumed an event and whether the window is visible are parameters.
- Creating the wgpu instance, adapter and device. `surface.configure` is a log of configurations. The DX12 options and the `expect` panics on a missing adapter are not modelled.
- `Gfx.Surface.constructor`: an empty format list is a precondition, because the source indexes it unchecked and panics.
- The initial surface size is not clamped to the texture limit, as in the source.
- Window: an event is dropped when no SDL sender is installed (`TryPush`). A `push_custom_event` that fails with a sender installed is not modelled: the event is recorded as pushed.
- `guard.binding_enforcer` in the connection handlers and the global `binding_enforcer()` in the input handlers are modelled as one enforcer. The stale `State` definition does not show whether they are the same object.
- `viiper_type`'s default and the first device id are constructor parameters. `OUTPUT_SIZE` is a parameter of the rumble decode, at least 2.
- Stale or superseded files: `device.rs`, the `State` of `handler/mod.rs`, `handler/events.rs` and `handler/viiper.rs`.
- The keyboard-and-mouse and `ViiperReady` handler events are routed but change no registry state in the model. `on_pad_event` is a no-op.
- The redraw request of `handler/gui.rs` is recorded as one `Redraw` effect, whether or not a window waker is set.
- The SDL loop runs forever in the source. The model runs a given finite sequence of batches.
- The VIIPER address is a parameter: its resolution from the configuration and the loopback test. So are the build's minimum version and dev-build switch.
- Readiness: the `ViiperReady` event pushed to the SDL thread is the `Ready` verdict. The dialog text is reduced to its title.
- `create_sisr_marker_shortcut` (a CEF injection), `open_steam_url` and `load_steam_overlay`/`unload_steam_overlay`: foreign calls outside the modelled logic.
- In the bit arithmetic of the marker game id, the OR is a sum, since the two bit ranges are disjoint.
- Dialogs: callbacks are tokens appended to a log when run. Drawing and layout are left out.
- CEF injection: the `list_tabs` HTTP call and serde's JSON handling are left out.
- CEF WebSocket: the broadcast to clients and the overlay handler's redraw are left out. The ping timestamp is a parameter.
- Config: the serde-skipped fields, `log_file`, the clap parser and the Windows console field are left out. `Path::extension` is modelled on the candidate name forms only. The typed extraction reads the nine known keys (the eight defaults and `steam_path`) and ignores others; its failure is modelled as the source's panic (`Config.Outcome`), not as an error message.
- Downloads:
  - the DOM code and `fetchJson` are left out;
  - the async client hints are a parameter;
  - `normalize` is modelled on string or missing values only.
- HTTP interceptor:
  - the XHR patch and console logging are left out;
  - the network pass-through is the original `fetch`, whose responses are not modelled;
  - `JSON.stringify` is not modelled: the response carries the mock's data itself;
  - NaN is not among the falsy values.

## Findings

| source | as written | input that shows it | evidently intended | confidence | as-written member | corrected member |
|---|---|---|---|---|---|---|
| cef_injectee/src/dev/http-interceptor.ts:9 | with `window.SISR_HOST` unset the host fallback is `'http://localhost'`, and it replaces `${SISR_HOST}` in patterns that already begin with `http://` | `SISR_HOST` unset, a GET of `http://localhost/ping`: the pattern resolves to `http://http://localhost/ping`, so the request is not mocked | a bare `localhost` fallback, so the pattern resolves to `http://localhost/ping` and the mock answers | medium, not executed | HttpInterceptor.FallbackDoublesScheme | HttpInterceptor.FallbackServesPing |

`HttpInterceptor.GetMockResponse` and `HttpInterceptor.Fetch` model the code as written, with the `'http://localhost'` fallback. The corrected bare-host fallback is `HttpInterceptor.ResolvedHost`, and `HttpInterceptor.FallbackServesPing` proves that it lets the `/ping` mock answer.

A related note, not a row: `detectPlatformArch` (main/javascript/downloads.js:54-56) tests "win" before "darwin". So a platform string containing "darwin" is classified as Windows, and only "mac" leads to darwin (`Downloads.DarwinOnlyViaMac`). Browsers on macOS report "Mac", so this is likely harmless.
