# Browser control CLI — a Dafny model

This project models `BrowserCLI`, the `browser` subcommand family of the
`clawdis-mac` command-line tool. The tool drives a dedicated Chrome/Chromium
instance through a loopback HTTP control server. One invocation of
`BrowserCLI.run` goes through these stages:

1. It reads the subcommand and scans the remaining tokens for its flags.
2. It reads the browser section of the user's configuration and stops with
   exit 1 when browser control is disabled.
3. It resolves the base URL of the control server.
4. It plans at most one HTTP request: method, path, query items, JSON body
   and timeout.
5. It classifies what the server answers, or how the transport failed.
6. It renders the answer for humans, or as a JSON envelope for machines:
   `{"ok": …, "result": …}`.
7. It exits with 0 (success or help), 1 (disabled, network or API failure)
   or 2 (usage error).

The modules follow those stages:

| module | file | models |
|---|---|---|
| `Wrappers` | wrappers.dfy | `Option` and `Result` |
| `Text` | text.dfy | the Foundation/stdlib string operations used: trimming, `split`, `joined`, `prefix`, `String(repeating:count:)`, `String(Int)`, `Int(String)` |
| `Json` | json.dfy | decoded JSON and the `as? String / Bool / Int / [String: Any]` casts |
| `Args` | args.dfy | the scan loop (a method) and an independent position-based definition of its result |
| `Config` | config.dfy | `loadBrowserConfig` on the decoded root dictionary |
| `Output` | output.dfy | what an invocation emits (printed items, standard error, files), and the top-level failure report |
| `Plan` | plan.dfy | the `switch sub` of `run`: exits without a request, and the one request with its view |
| `PlanProperties` | plan_properties.dfy | exit codes, endpoint table, eval script precedence, query-string shape |
| `Errors` | errors.dfy | `wrapNetworkError` and `describeError` |
| `Transport` | transport.dfy | `httpJSON` classifying an exchange given as an input value; `withQuery` as the URL string |
| `Render` | render.dfy | `printResult`, `formatTabs`/`printTabs`, `printEval`, `printQuery`, `printSnapshotAria`; loops as methods proved equal to specification functions |
| `Cli` | cli.dfy | `run` end to end and scenarios |

The loops of the source are imperative methods:
- the scan loop is `Args.ScanArgs`;
- the item-appending blocks are the `Plan.Collect*` methods;
- the loops of `formatTabs`, `printQuery` and `printSnapshotAria` are
  `Render.FormatTabs`, `Render.PrintQuery` and `Render.PrintSnapshotAria`.

Each method is proved equal to a specification function, and the properties
are proved about those functions.

Three behaviours worth stating plainly:
- An unknown subcommand prints the usage text and exits 2
  (BrowserCLI.swift:311-313).
- A `query` match head is `<index>. <tag#id.c1.c2.c3>`, inside angle
  brackets. `#` is printed whenever `id` is a string, even an empty one
  (BrowserCLI.swift:499-503).
- After `--out`, `dom` and `snapshot` show `{"ok": true, "out": <path>}`
  (or the bare path), not the server's answer (BrowserCLI.swift:264-271, 293-301).

## Model

All source paths are `apps/macos/Sources/ClawdisCLI/BrowserCLI.swift`.

| member | source | states |
|---|---|---|
| Args.ScanArgs | apps/macos/Sources/ClawdisCLI/BrowserCLI.swift:34-64 | the scan loop yields exactly the position-based reference scan of the tokens: each flag's last unconsumed occurrence decides it, and the other tokens are the positionals in order |
| Args.ValueStep | apps/macos/Sources/ClawdisCLI/BrowserCLI.swift:37-38 | a value flag and the token after it are consumed together and set the flag to that token (nothing when no token is left), and the next token is again a boundary |
| Args.ValueFlagToken | apps/macos/Sources/ClawdisCLI/BrowserCLI.swift:37-60 | after its own token, a value flag holds the next token, and no other flag changes |
| Args.ConsumedStep | apps/macos/Sources/ClawdisCLI/BrowserCLI.swift:38 | a token taken as a flag's value changes no flag and no positional |
| Args.OtherStep | apps/macos/Sources/ClawdisCLI/BrowserCLI.swift:39-62 | a switch sets only its flag, and any other token is appended to the positionals |
| Args.ScanIsPrefixStable | apps/macos/Sources/ClawdisCLI/BrowserCLI.swift:34-64 | once no flag awaits its value, later tokens cannot change what the earlier tokens produced |
| Args.AppendPositional | apps/macos/Sources/ClawdisCLI/BrowserCLI.swift:61-62 | an unknown token after a complete scan only extends `rest` by itself |
| Args.AppendValueFlag | apps/macos/Sources/ClawdisCLI/BrowserCLI.swift:37-60 | a value flag and its value set that flag, even when the value looks like a flag, and leave the positionals alone |
| Args.AppendDanglingFlag | apps/macos/Sources/ClawdisCLI/BrowserCLI.swift:37-60 | a value flag as the last token resets that flag to absent |
| Args.NonIntegerLimitIsAbsent | apps/macos/Sources/ClawdisCLI/BrowserCLI.swift:55-58 | a `--limit` / `--max-chars` value that is not an integer leaves the number absent |
| Args.NoFlagsAllPositional | apps/macos/Sources/ClawdisCLI/BrowserCLI.swift:20-64 | without known flags, every flag keeps its initial value and every token is positional |
| Args.ScanIsFold | apps/macos/Sources/ClawdisCLI/BrowserCLI.swift:34-64 | the position-based scan equals the token-by-token fold of the loop from the initial flags |
| Args.ScanThenRun | apps/macos/Sources/ClawdisCLI/BrowserCLI.swift:34-64 | where no value flag is waiting, the later tokens act on the flags the earlier ones produced and on nothing else |
| Args.ApplyCommutes | apps/macos/Sources/ClawdisCLI/BrowserCLI.swift:39-60 | two different known flags set different variables, so applying them in either order gives the same flags |
| Args.FlagOrderIrrelevant | apps/macos/Sources/ClawdisCLI/BrowserCLI.swift:34-64 | swapping two complete groups (a switch, or a value flag with its value) of different flags, at a token boundary, does not change the scan |
| Args.FlagPastPositional | apps/macos/Sources/ClawdisCLI/BrowserCLI.swift:34-64 | moving a complete flag group past a positional, at a token boundary, does not change the scan: the flag is set the same and the positionals keep their relative order |
| Text.Trim | apps/macos/Sources/ClawdisCLI/BrowserCLI.swift:76 | the trim has no whitespace at either end, is empty exactly when the input is all whitespace, and is the input with a blank head and a blank tail cut off, nothing else removed |
| Text.TrimIdempotent | apps/macos/Sources/ClawdisCLI/BrowserCLI.swift:393 | trimming a trimmed string changes nothing |
| Text.SplitSeparatesRuns | apps/macos/Sources/ClawdisCLI/BrowserCLI.swift:501 | a separator splits the input into the pieces of what stands before it and the pieces of what stands after it; a non-empty run without the separator is one piece |
| Text.SplitKeepsEverythingElse | apps/macos/Sources/ClawdisCLI/BrowserCLI.swift:501 | the pieces laid end to end are the input with the separators removed |
| Text.SplitJoinRoundTrip | apps/macos/Sources/ClawdisCLI/BrowserCLI.swift:501 | splitting the join of non-empty separator-free pieces gives back those pieces |
| Text.JoinLength | apps/macos/Sources/ClawdisCLI/BrowserCLI.swift:199 | the length of the join is the parts' total length plus one separator per gap |
| Text.JoinSnoc | apps/macos/Sources/ClawdisCLI/BrowserCLI.swift:199 | joining one more part appends the separator and that part |
| Text.Prefix | apps/macos/Sources/ClawdisCLI/BrowserCLI.swift:444 | `prefix(n)` is the first `n` characters, or the whole string when it is shorter |
| Text.ParseInt | apps/macos/Sources/ClawdisCLI/BrowserCLI.swift:56 | an accepted string is an optional sign and digits, and its value is those digits' value with that sign, within 64 bits; so the empty string, anything else, and a value outside 64 bits are refused, and every well-formed string whose value fits is accepted with that value |
| Text.DecimalRoundTrip | apps/macos/Sources/ClawdisCLI/BrowserCLI.swift:237 | `Int(String(n)) == n` for every 64-bit `n` |
| Config.LoadBrowserConfig | apps/macos/Sources/ClawdisCLI/BrowserCLI.swift:331-337 | disabled exactly when `browser.enabled` is the boolean false; the URL is `browser.controlUrl` when that is a string, otherwise the default |
| Config.DefaultsWhenMissing | apps/macos/Sources/ClawdisCLI/BrowserCLI.swift:5 | an empty configuration gives enabled control at `http://127.0.0.1:18791` |
| Plan.CollectScreenshotItems | apps/macos/Sources/ClawdisCLI/BrowserCLI.swift:164-170 | the appended items are exactly the screenshot query items |
| Plan.CollectQueryItems | apps/macos/Sources/ClawdisCLI/BrowserCLI.swift:232-238 | the appended items are exactly the query items for the selector |
| Plan.CollectDomItems | apps/macos/Sources/ClawdisCLI/BrowserCLI.swift:251-260 | the appended items are exactly the dom query items |
| Plan.CollectSnapshotItems | apps/macos/Sources/ClawdisCLI/BrowserCLI.swift:283-289 | the appended items are exactly the snapshot query items |
| Plan.PlanEval | apps/macos/Sources/ClawdisCLI/BrowserCLI.swift:184-223 | `eval` exits with 1 or 2 without a request, or POSTs to `/eval` with the eval rendering |
| Plan.PlanCommand | apps/macos/Sources/ClawdisCLI/BrowserCLI.swift:84-313 | no subcommand exits with anything but 1 or 2 before its request |
| PlanProperties.HelpExitsZero | apps/macos/Sources/ClawdisCLI/BrowserCLI.swift:9-18 | no subcommand, `help`, `--help` or `-h` prints the usage and exits 0 with no request |
| PlanProperties.DisabledExitsOne | apps/macos/Sources/ClawdisCLI/BrowserCLI.swift:66-74 | disabled control exits 1 with the disabled message (or envelope), whatever the environment, before any URL check or request |
| PlanProperties.DispatchPlans | apps/macos/Sources/ClawdisCLI/BrowserCLI.swift:76-84 | past the gate and the URL check, the subcommand is planned against the trimmed override-or-configured base |
| PlanProperties.InvalidBaseThrows | apps/macos/Sources/ClawdisCLI/BrowserCLI.swift:76-81 | a base that is not a URL is thrown out of `run` as "Invalid browser control URL: <base>" |
| PlanProperties.MissingTargetExitsTwo | apps/macos/Sources/ClawdisCLI/BrowserCLI.swift:121-153 | `open`, `focus` and `close` without a non-empty first positional print the usage and exit 2 |
| PlanProperties.UnknownSubcommandExitsTwo | apps/macos/Sources/ClawdisCLI/BrowserCLI.swift:311-313 | an unknown subcommand still passes the gate (exit 1) and the URL check (throw), and then exits 2 |
| PlanProperties.UnknownPlan | apps/macos/Sources/ClawdisCLI/BrowserCLI.swift:311-313 | the `default` branch prints the usage and exits 2 |
| PlanProperties.ExitCodesAreZeroOneTwo | apps/macos/Sources/ClawdisCLI/BrowserCLI.swift:7-313 | every exit before a request uses 0, 1 or 2 |
| PlanProperties.RequestsFollowEndpointTable | apps/macos/Sources/ClawdisCLI/BrowserCLI.swift:85-291 | every planned request has its subcommand's method, path and timeout (2, 3, 5, 15 or 20 s); `close` puts the id in the path; only `open`, `focus` and `eval` send a body, and those bodies are given; only `query`, `dom`, `snapshot` and `screenshot` carry query items |
| PlanProperties.ScriptPrecedence | apps/macos/Sources/ClawdisCLI/BrowserCLI.swift:185-201 | `--js-stdin` with `--js-file` is refused; otherwise the script is the first available of file, stdin, `--js`, positionals, else empty |
| PlanProperties.EvalConflictExitsTwo | apps/macos/Sources/ClawdisCLI/BrowserCLI.swift:185-188 | `--js-stdin` with any `--js-file` prints the usage and exits 2 |
| PlanProperties.EvalSendsScript | apps/macos/Sources/ClawdisCLI/BrowserCLI.swift:190-216 | `eval` sends exactly when the script was read and is not blank. A blank script exits 2, an unreadable file exits 1, and the body carries the script, the target id (or "") and `await` |
| PlanProperties.EvalJoinsPositionals | apps/macos/Sources/ClawdisCLI/BrowserCLI.swift:199 | with no other source, the script is the positionals joined by spaces |
| PlanProperties.PositiveItemRoundTrip | apps/macos/Sources/ClawdisCLI/BrowserCLI.swift:236-238 | a positive number put in the query string reads back as that number |
| PlanProperties.QueryItemsShape | apps/macos/Sources/ClawdisCLI/BrowserCLI.swift:232-238 | `selector` comes first, then `targetId` and `limit` in that order, each present exactly when its condition holds |
| PlanProperties.QueryNeedsSelector | apps/macos/Sources/ClawdisCLI/BrowserCLI.swift:226-230 | a blank selector (a blank `--selector` included, even with positionals) prints the usage and exits 2 |
| PlanProperties.QuerySendsSelector | apps/macos/Sources/ClawdisCLI/BrowserCLI.swift:226-244 | `query` sends exactly when its selector (`--selector` if given, else the first positional) is not blank, with the trimmed selector as the first item; otherwise it prints the usage and exits 2 |
| PlanProperties.DomItemsShape | apps/macos/Sources/ClawdisCLI/BrowserCLI.swift:251-260 | `format` comes first, then `targetId`, `selector` and `maxChars` in that order, each present exactly when its condition holds; `targetId` carries the id and `selector` the trimmed `--selector` |
| PlanProperties.DomRunsOrdered | apps/macos/Sources/ClawdisCLI/BrowserCLI.swift:251-260 | the four optional runs of the dom items, laid end to end, keep the order of the source |
| PlanProperties.DomAsksForFormat | apps/macos/Sources/ClawdisCLI/BrowserCLI.swift:249-262 | `dom` asks for `format=text` exactly when `--format text` was given, else `format=html`, and keeps `--out` for the view |
| PlanProperties.SnapshotItemsShape | apps/macos/Sources/ClawdisCLI/BrowserCLI.swift:283-289 | `format` comes first, then `targetId` and `limit` in that order, each present exactly when its condition holds |
| PlanProperties.SnapshotAsksForFormat | apps/macos/Sources/ClawdisCLI/BrowserCLI.swift:281-292 | `snapshot` asks for `format=domSnapshot` exactly when `--format domSnapshot` was given, else `format=aria`, and only `aria` is rendered as lines |
| PlanProperties.ScreenshotItemsShape | apps/macos/Sources/ClawdisCLI/BrowserCLI.swift:164-173 | `targetId` comes before `fullPage`. There is no query string exactly when neither applies; `targetId` appears, carrying the id, exactly with a non-empty `--target-id`, and `fullPage=1` exactly with `--full-page` |
| Errors.WrapNetworkError | apps/macos/Sources/ClawdisCLI/BrowserCLI.swift:398-422 | the six connectivity codes of `NSURLErrorDomain`, and only those, give the hint naming the URL and advising a restart; anything else gives "Failed to reach <url> (timeout <n>s)." |
| Errors.DescribeError | apps/macos/Sources/ClawdisCLI/BrowserCLI.swift:391-396 | the trimmed description when not blank, else "Browser request failed (<base>)"; never empty |
| Errors.WrappedFailureIsShownVerbatim | apps/macos/Sources/ClawdisCLI/BrowserCLI.swift:391-422 | a wrapped network error reaches the user unchanged by `describeError` |
| Transport.UrlString | apps/macos/Sources/ClawdisCLI/BrowserCLI.swift:347-351 | the request URL is the base followed by the path, and nothing more when there are no query items; otherwise a `?` follows the path |
| Transport.UrlQueryRoundTrip | apps/macos/Sources/ClawdisCLI/BrowserCLI.swift:347-351 | when base and path hold no `?` and no item an `&`, the part after the `?` splits at `&` into the `name=value` pieces of the items, in order |
| Transport.HttpJson | apps/macos/Sources/ClawdisCLI/BrowserCLI.swift:353-389 | success exactly for a decoded dictionary with a 2xx status. A transport failure is wrapped; an undecodable body gives exactly "HTTP <status> <method> <url>: <response text>"; a non-2xx dictionary gives its `error` string, else "HTTP <status>" |
| Transport.UndecodableIsAlwaysAnError | apps/macos/Sources/ClawdisCLI/BrowserCLI.swift:374-379 | a body that is not a JSON dictionary is an error even with a 2xx status |
| Transport.BlankServerErrorIsGeneric | apps/macos/Sources/ClawdisCLI/BrowserCLI.swift:385-396 | a blank server `error` reaches the user as the generic failure naming the base |
| Output.ReportFailure | apps/macos/Sources/ClawdisCLI/BrowserCLI.swift:315-322 | a failure is one item: the `ok: false` envelope on standard output in machine mode, else the message on standard error alone |
| Render.ResultLines | apps/macos/Sources/ClawdisCLI/BrowserCLI.swift:424-434 | one line: the non-empty `message` string, else the dictionary's description |
| Render.FormatTabs | apps/macos/Sources/ClawdisCLI/BrowserCLI.swift:436-451 | the loop yields exactly the per-tab lines of the `tabs` array |
| Render.TabsLinesCount | apps/macos/Sources/ClawdisCLI/BrowserCLI.swift:440-449 | one summary line per tab and one `id:` line per tab with a non-empty id |
| Render.TabsLinesLayout | apps/macos/Sources/ClawdisCLI/BrowserCLI.swift:440-449 | tab k's summary (id cut to 8 characters) stands at its position, followed by its full `id:` line exactly when the id is non-empty |
| Render.NoTabsNoLines | apps/macos/Sources/ClawdisCLI/BrowserCLI.swift:437 | a missing, ill-typed or empty `tabs` gives no lines |
| Render.TabsOutput | apps/macos/Sources/ClawdisCLI/BrowserCLI.swift:453-459 | "Running: true/false" (false unless the boolean true), then every tab line in order |
| Render.EvalLines | apps/macos/Sources/ClawdisCLI/BrowserCLI.swift:461-485 | one item. Without an inner `result` it is the generic rendering of the answer. With a `value` it is pretty JSON when the value is an array or dictionary, and its description otherwise. Without a `value` it is the non-empty `description`, else the generic rendering of the inner dictionary |
| Render.ClassParts | apps/macos/Sources/ClawdisCLI/BrowserCLI.swift:501 | at most the first three space-separated classes, in order, each non-empty and space-free |
| Render.ClassSuffixShape | apps/macos/Sources/ClawdisCLI/BrowserCLI.swift:501-502 | the class part is empty exactly when there are no classes; otherwise it is a dot followed by the shown classes (at most three), which split back at the dots when no class contains a dot |
| Render.PrintQuery | apps/macos/Sources/ClawdisCLI/BrowserCLI.swift:487-509 | the loop yields exactly the query rendering: the generic rendering without `matches`, "No matches." for none, else each match's lines in order |
| Render.PrintMatch | apps/macos/Sources/ClawdisCLI/BrowserCLI.swift:497-507 | one match prints its head and, when the text is non-empty, the indented text |
| Render.QueryLinesCount | apps/macos/Sources/ClawdisCLI/BrowserCLI.swift:492-508 | no matches print exactly "No matches."; otherwise one head per match and one text line per match with text |
| Render.IndentLevel | apps/macos/Sources/ClawdisCLI/BrowserCLI.swift:521 | the indent level is the depth clamped to 0..20: a negative depth gives 0, a depth above 20 gives 20 |
| Render.Indent | apps/macos/Sources/ClawdisCLI/BrowserCLI.swift:521 | the indent is two spaces per level |
| Render.NegativeDepthTraps | apps/macos/Sources/ClawdisCLI/BrowserCLI.swift:517-521 | as written, a negative depth has no indent (a trap); otherwise the indent agrees with the clamped level |
| Render.PrintSnapshotAria | apps/macos/Sources/ClawdisCLI/BrowserCLI.swift:511-527 | the loop yields exactly one ARIA line per node, or the generic rendering without `nodes` |
| Render.PrintNode | apps/macos/Sources/ClawdisCLI/BrowserCLI.swift:516-525 | a node's fields, with their defaults, give its ARIA line |
| Render.BuildNodeLine | apps/macos/Sources/ClawdisCLI/BrowserCLI.swift:521-524 | the appended pieces give the node line |
| Render.NodeLineShape | apps/macos/Sources/ClawdisCLI/BrowserCLI.swift:521-524 | the line is 2×level spaces, then "- ", then the role |
| Render.AriaLineShape | apps/macos/Sources/ClawdisCLI/BrowserCLI.swift:517-524 | a node's line is 2×min(depth, 20) spaces, then "- ", then its role |
| Render.MissingRoleIsUnknown | apps/macos/Sources/ClawdisCLI/BrowserCLI.swift:518 | a node without a role string shows the role `unknown` |
| Cli.Run | apps/macos/Sources/ClawdisCLI/BrowserCLI.swift:7-323 | `run`'s outcome is the planned step completed with the server's answer. A request is sent exactly when one is planned, it is that request, and every exit code is 0, 1 or 2 |
| Cli.Perform | apps/macos/Sources/ClawdisCLI/BrowserCLI.swift:83-323 | a planned step is carried out with at most one request, exactly the planned one |
| Cli.FinishExitsZeroOrOne | apps/macos/Sources/ClawdisCLI/BrowserCLI.swift:83-323 | after a request `run` never throws: it exits 1 when the request failed or the `--out` write failed, and 0 otherwise |
| Cli.CompleteExitCodes | apps/macos/Sources/ClawdisCLI/BrowserCLI.swift:7-323 | every exit of an invocation uses 0, 1 or 2 |
| Cli.UnreachableServerExitsOne | apps/macos/Sources/ClawdisCLI/BrowserCLI.swift:315-322 | an unreachable server exits 1 with the hint naming the request URL and containing "Start (or restart)", as the envelope or on standard error alone |
| Cli.OneTabShown | apps/macos/Sources/ClawdisCLI/BrowserCLI.swift:436-459 | `tabs` on a one-tab answer prints the running flag, the summary with the id cut to 8 characters, and the full id |
| Cli.ScreenshotShowsMedia | apps/macos/Sources/ClawdisCLI/BrowserCLI.swift:175-181 | a non-empty `path` prints `MEDIA:<path>`, and anything else gets the generic rendering |
| Cli.SnapshotOutWritesFile | apps/macos/Sources/ClawdisCLI/BrowserCLI.swift:293-301 | `snapshot --out` writes the whole answer as pretty JSON and then shows only `{"ok": true, "out": <path>}` or the path, whatever the format |
| Cli.FailedWriteExitsOne | apps/macos/Sources/ClawdisCLI/BrowserCLI.swift:264-265 | a failed `--out` write exits 1 with the reported error |

## Left out

- URLSession, `async`/`await` and the timeout enforcement: the server's
  answer (or the transport failure with its error domain and code) is an
  input value of type `Transport.Exchange`.
- These results of the environment are parameters of `Plan.Env`:
  - reading `--js-file`;
  - reading standard input for `--js-stdin`;
  - writing `--out`.
- Reading `~/.clawdis/clawdis.json` (loadConfigDict, lines 339-345) is not
  modelled: `Config.LoadBrowserConfig` takes the decoded root dictionary,
  which is empty when the file is missing or not a JSON object.
- These renderings stay abstract variants of `Output.Printed`:
  - the bytes of pretty-printed JSON;
  - `printJSON`'s envelope text;
  - Swift's `description` of a dictionary or value;
  - the usage text.
- `printJSON`'s fallback when encoding fails (line 542) is not modelled.
  The same goes for `JSONSerialization` throwing while serialising the
  snapshot for `--out` (line 294).
- URL handling is simplified:
  - `URL(string:)` acceptance is an oracle (`Env.urlParses`);
  - `appendingPathComponent` is modelled as concatenating base and path;
  - `withQuery` is modelled as `?name=value&…`, with no percent-encoding;
  - `baseURL.absoluteString` in `describeError` is the trimmed base string.
- Transport.UrlString: does not percent-encode the query items as
  `URLComponents` does, so characters outside those allowed in a query
  are kept as they are; `Transport.UrlQueryRoundTrip` holds only for items
  without `&`.
- Render.PrintSnapshotAria: a negative `depth` is rendered as an
  unindented line, where the program as written traps at line 521 (see
  Findings); the as-written indent is `Render.IndentAsWritten`.
- Cli.Run: for the same reason a `snapshot` answer with a negative
  `depth` ends in exit 0 with unindented lines rather than in the trap.
- JSON numbers are reals. `as? Int` succeeds for integral values within
  64 bits. NSNumber's bridging between booleans and the numbers 0 and 1
  is not modelled.
- Strings are sequences of Unicode scalars, so `prefix(8)` counts scalars
  rather than grapheme clusters. Trimming uses a fixed whitespace set.
- Timeouts are whole seconds. Every timeout in the source is a whole
  number, so `Int(timeoutInterval)` loses nothing.
- The `_testFormatTabs` hook (lines 529-533) is a test-only alias of
  `formatTabs`.
- apps/macos/Sources/Clawdis/PeekabooBridgeHostCoordinator.swift is not
  part of this model.

## Findings

| source | as written | input that shows it | evidently intended | confidence | as-written member | corrected member |
|---|---|---|---|---|---|---|
| apps/macos/Sources/ClawdisCLI/BrowserCLI.swift:517-521 | the indent is `String(repeating: "  ", count: min(depth, 20))` with `depth` taken from the server, and a negative count traps at run time | a snapshot answer `{"nodes": [{"depth": -1, "role": "button"}]}` rendered for humans | the depth clamped to 0..20, so a negative depth prints no indent | not executed | Render.IndentAsWritten (exhibited by Render.NegativeDepthTraps) | Render.IndentLevel (used by Render.AriaLine; proved in Render.AriaLineShape) |
