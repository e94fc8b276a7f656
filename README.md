# caddy-knownagents, modelled in Dafny

A Caddy HTTP middleware that reports each handled request to an agent-analytics service and can
fetch, once at provisioning, a generated robots.txt that it then exposes to later handlers through a
request variable. The repository ships it twice: `knownagents.go` (Known Agents) and
`darkvisitors.go` (Dark Visitors). The two differ in the names of the request variable and the endpoints,
and in how provisioning treats the robots.txt fetch. This project models both with one set of classes,
chosen by `Handler.Variant`.

Modules:

- `Wrappers` (wrappers.dfy): `Option` and `Result`.
- `Agents` (agents.dfy): the 13-label agent-type catalog and the membership check behind Validate.
- `Caddyfile` (caddyfile.dfy): the configuration block as pure functions. The parser's input is an
  abstract directive: a sequence of entries `key args... { lines }`, where a `robots_txt` entry's lines are
  `key args...`, plus the arguments left over after the block. Each function is one step of
  `UnmarshalCaddyfile`.
- `ParserProperties` (parser_properties.dfy): what the parser promises, proved about those functions.
  It covers which blocks are accepted, which error a rejected one reports, and which values win.
- `Handler` (handler.dfy): the Go structs as classes. `RobotsTxt` holds the agent list, the disallow
  path and the cached text. `Middleware` holds the access token and the policy pointer. `UnmarshalCaddyfile`,
  `FetchRobotsTxt` and `Provision` update the fields in place, as the Go methods do; `Validate` and
  `ServeHTTP` only read them, as the Go value-receiver methods do. Each method is proved against the `Caddyfile` functions or against a
  direct statement of its effect.
- `Lifecycle` (lifecycle.dfy): client methods that drive a middleware in the host's order: parse,
  provision, validate (Caddy provisions a module before validating it), then serve. They use the `Handler`
  contracts and `ParserProperties.WildcardAgentTypes`.

The network is an oracle. The robots.txt fetch is handed its outcome (`FetchOutcome`: the response
body, or the error that ended the attempt). The visit report is returned as the outbound request that
would be posted. The next handler is a function from the request and the request variables it is
handed to the request as it leaves it, the variables it leaves and its error. This is what lets
`ServeHTTP` state that the robots.txt variable is set before that handler runs, and that the visit is
reported with the request as it stands after that handler, which may have rewritten it in place.

Points of the code's behaviour that are easy to misread, all modelled as written:

- The default disallow path `/` is applied by `Provision`, not by the parser. A parse without a
  `disallow` line leaves the path empty (`ParserProperties.ExplicitAgentTypes`).
- `*` expands to the catalog only as the first argument. `agent_types A *` keeps `*` as a literal label,
  and Validate later rejects it (`ParserProperties.LateWildcardIsALabel`).
- The two variants disagree on fetch failure. In knownagents.go a failure fails provisioning. In
  darkvisitors.go the fetch is detached, a failure is only logged, and provisioning always succeeds.
  Both behaviours are modelled.
- The robots.txt fetch never checks the response status: any body that is read, an error page
  included, becomes the cached text (`Fetched(body)` stands for every response that was read).
- The agent list may name a label twice (`agent_types Archiver Archiver`, or `*` followed by a
  catalog label on a later line); the parser keeps both, and Validate accepts the list.

The line numbers below cite knownagents.go. The same code is in darkvisitors.go at these lines:

- catalog: 48-62
- FetchRobotsTxt: 105-144
- Provision: 146-162
- Validate: 164-183
- ServeHTTP: 185-241
- UnmarshalCaddyfile: 243-306

## Model

| member | source | states |
|---|---|---|
| `Agents.CatalogIsOrderedSet` | knownagents.go:49-63 | the catalog has exactly 13 labels and none twice |
| `Agents.FirstUnrecognized` | knownagents.go:174-180 | None iff every label is in the catalog; otherwise the index of the first label not in it, with every earlier label known |
| `Caddyfile.Unmarshal` | knownagents.go:250-312 | a successful parse has no leftover arguments, a non-empty token and, when a policy is present, a non-empty agent list; the post-parse checks do not alter the parsed settings |
| `Caddyfile.AgentTypesLine` | knownagents.go:262-276 | an agent_types line is accepted iff it has an argument and a leading `*` stands alone; otherwise the argument error or "unexpected argument" naming the token after `*`; an accepted line never leaves the list empty, keeps the disallow path, and when it starts with a label keeps the earlier labels in front |
| `Caddyfile.RobotsLine` | knownagents.go:261-285 | a robots_txt line is accepted iff it is `agent_types` with arguments (and `*` alone if first) or `disallow` with an argument; a rejected line gives the argument error, "unexpected argument" naming the token after `*`, or "unknown subdirective" naming the key; an accepted line changes only the field its key names |
| `Caddyfile.RobotsBlock` | knownagents.go:260-286 | the lines are applied in order, stopping at the first error; a parsed block has no agent types iff it started with none and has no agent_types line (the condition behind "missing agent type filters") |
| `Caddyfile.DirectiveEntry` | knownagents.go:254-294 | a top-level entry is accepted iff it is access_token with an argument or a robots_txt block that parses, and robots_txt is not already configured (then "robots_txt is already configured"); an accepted entry changes only the field its key names |
| `Caddyfile.Entries` | knownagents.go:253-295 | the entries are applied in order, stopping at the first error; a policy that is already configured is never replaced |
| `ParserProperties.RobotsBlockSucceedsIff` | knownagents.go:260-286 | a robots_txt block parses iff every line is acceptable on its own |
| `ParserProperties.RobotsBlockFirstError` | knownagents.go:260-286 | a rejected block reports the error of its first bad line |
| `ParserProperties.AgentTypesAccumulate` | knownagents.go:271-276 | without a leading-`*` line, the labels of all agent_types lines are appended in order to the initial list |
| `ParserProperties.AgentTypesAfterLastWildcard` | knownagents.go:266-276 | after the last `agent_types *` line, the list is the catalog followed by the labels of later agent_types lines; earlier labels are dropped |
| `ParserProperties.DisallowLastWins` | knownagents.go:278-282 | the first argument of the last disallow line is the disallow path |
| `ParserProperties.DisallowUnset` | knownagents.go:259-282 | without a disallow line the path keeps its initial value (empty for a new block) |
| `ParserProperties.EntriesSplit` | knownagents.go:253-295 | entries are processed strictly in order: the parse of a sequence is the parse of a prefix, continued from its result |
| `ParserProperties.EntriesSucceedIff` | knownagents.go:253-295 | the block's entries parse iff each is a known key with its required argument or a valid robots_txt block, and robots_txt occurs at most once (not at all if already configured) |
| `ParserProperties.AccessTokenUnset` | knownagents.go:287-291 | entries other than access_token leave the token unchanged |
| `ParserProperties.AccessTokenLastWins` | knownagents.go:287-291 | the first argument of the last access_token line is the token |
| `ParserProperties.RobotsTxtUnset` | knownagents.go:255-259 | entries other than robots_txt leave the policy unchanged |
| `ParserProperties.RobotsTxtFromBlock` | knownagents.go:255-286 | the policy of a successful parse is exactly its robots_txt block applied to a new, empty policy |
| `ParserProperties.DuplicateRobotsTxt` | knownagents.go:256-258 | a second robots_txt entry fails with "robots_txt is already configured" once the entries before it parse |
| `ParserProperties.UnknownKeyFails` | knownagents.go:292-293 | an unknown top-level key fails with "unrecognized subdirective" naming it, once the entries before it parse |
| `ParserProperties.AccessTokenWithoutArgument` | knownagents.go:288-290 | access_token without an argument fails with the argument error |
| `ParserProperties.RobotsLineErrorPropagates` | knownagents.go:260-286 | the first bad line of the robots_txt block becomes the error of the whole parse |
| `ParserProperties.PostParseCheckOrder` | knownagents.go:297-309 | after the entries parse: leftover arguments fail first, naming the first; then an empty token fails with "missing access token", taking precedence over "missing agent type filters" |
| `ParserProperties.EntryErrorFirst` | knownagents.go:253-299 | an error among the entries is reported before any post-parse check |
| `ParserProperties.AccessTokenOnly` | knownagents_test.go:15-37 | `access_token X` alone parses to token X and no robots.txt policy |
| `ParserProperties.EmptyTokenRejected` | knownagents.go:301-303 | an empty token fails with "missing access token" even when the robots_txt block has no agent types |
| `ParserProperties.RobotsTxtWithoutAgentTypes` | knownagents.go:305-309 | a robots_txt block without agent_types fails with "missing agent type filters" |
| `ParserProperties.ExplicitAgentTypes` | knownagents_test.go:39-100 | explicit labels come out in the given order with the given disallow path; without a disallow line the path is empty |
| `ParserProperties.WildcardAgentTypes` | knownagents_test.go:102-154 | `agent_types *` gives exactly the catalog in catalog order; any argument after `*` fails with "unexpected argument" naming it |
| `ParserProperties.LateWildcardIsALabel` | knownagents.go:266-276 | a `*` that is not the first argument is appended verbatim, and the membership check names it as the first unrecognized label |
| `Handler.RobotsTxt.constructor` | knownagents.go:259 | a new policy has no agent types, no disallow path and no cached text |
| `Handler.RobotsTxt.UnmarshalLine` | knownagents.go:261-285 | one line updates the policy in place exactly as `Caddyfile.RobotsLine` says, or reports its error; the cached text is untouched |
| `Handler.RobotsTxt.UnmarshalBlock` | knownagents.go:260-286 | the block's loop reports exactly `Caddyfile.RobotsBlock`'s error, or leaves exactly its policy |
| `Handler.Middleware.constructor` | knownagents.go:322 | a new module has an empty token and no policy |
| `Handler.Middleware.UnmarshalCaddyfile` | knownagents.go:250-312 | the parse loop reports exactly the error of `Caddyfile.Unmarshal` from the current fields, or leaves exactly its settings; a policy it creates is a new object with empty cached text; an existing policy object is kept |
| `Handler.Middleware.Validate` | knownagents.go:171-189 | no error without a policy; with one, the error names the first agent type not in the catalog, and there is no error iff all are in it |
| `Handler.Middleware.FetchRobotsTxt` | knownagents.go:106-147 | posts the policy's agent types and disallow path to the variant's robots.txt endpoint with a bearer token and JSON content type; caches the response body verbatim on success; a failure leaves the text unchanged and is returned only by the knownagents variant |
| `Handler.Middleware.Provision` | knownagents.go:150-168 | without a policy nothing happens; with one an empty disallow becomes "/" and others are kept; knownagents fetches synchronously and fails with the fetch's error; darkvisitors starts a detached fetch, leaves the text unchanged and always succeeds |
| `Handler.Middleware.RequestVars` | knownagents.go:197-199 | the variables handed to the next handler: the request's own, plus the cached text under the variant's name (`ka_robots_txt` or `dv_robots_txt`) iff a policy is configured, every other variable unchanged |
| `Handler.Middleware.ServeHTTP` | knownagents.go:192-247 | the next handler is given the request and `RequestVars`; its error and variables are returned unchanged; a report exists iff there is no error, carrying the path, the method and the headers minus exactly Cookie of the request as the next handler left it, to the analytics endpoint with the bearer token |
| `Lifecycle.KnownAgentsWildcard` | knownagents_test.go:102-154 | the wildcard configuration parses, provisions and then validates; the next request's handler sees the fetched body in `ka_robots_txt`, and that request is reported |
| `Lifecycle.KnownAgentsFetchFails` | knownagents.go:161-164 | with knownagents, a failed fetch fails provisioning with the fetch's error |
| `Lifecycle.ReportsRewrittenPath` | knownagents.go:202-214 | when the next handler rewrites the request's path, the visit is reported with the rewritten path and the method it left |
| `Lifecycle.DarkVisitorsWildcard` | darkvisitors.go:154-161 | with darkvisitors, provisioning succeeds; requests served before the detached fetch completes see an empty `dv_robots_txt`; afterwards they see the body, or still the empty text if the fetch failed |

## Left out

- Handler.Middleware.UnmarshalCaddyfile: after a parse error, the fields it had already set are not specified, because `parseCaddyfile` discards the module on any error.
- Handler.RobotsTxt.UnmarshalLine: after an error the policy is not specified (for `agent_types * x` the Go code has already set the catalog); for the same reason.
- Handler.RobotsTxt.UnmarshalBlock: after an error the policy holds the lines before the bad one and is not specified; for the same reason.
- The Caddyfile lexer and `Dispenser`: quoting, nesting counters, line tracking, and what the cursor makes of a nested block or of extra tokens after `access_token`, `disallow` or `robots_txt`. The model works on the abstract directive and accepts such extra arguments: only the first argument of `access_token` and `disallow` is read, as in the code, and `access_token A B` parses with token `A`, while the Go loop would hand `B` to the next iteration of its switch as a subdirective. Likewise the precedence `ParserProperties.EntryErrorFirst` states (an entry error before leftover arguments) holds for the abstract input: in Caddy, leftover arguments sit on the directive line, and the block is then never opened.
- The full error text: `d.Err`/`d.Errf` prefix the file and line, and `d.ArgErr` has its own wording. `Caddyfile.ParseError` keeps which error it is and the token it names.
- Outbound HTTP: the client, the 10-second timeout of knownagents' robots.txt client, sending and reading the response. These are network I/O and are replaced by the `FetchOutcome` oracle and the returned `OutboundRequest`.
- JSON encoding of the robots.txt query and of the visit event (including `omitempty` on disallow, which is never empty when the fetch runs), and the round trip of that encoding. This is a foreign library; payloads are Dafny records.
- The goroutines that post the visit report and, in darkvisitors, run the fetch. This is fire-and-forget concurrency. The model returns whether a report is produced and what it holds. A detached fetch is a later call of `FetchRobotsTxt`.
- The outcome of posting the visit report: it is only logged and cannot reach the response.
- The placeholder replacer applied to the access token in `Provision`. It is a foreign call; the token is treated as an already resolved, opaque string.
- Logging (zap), including the token debug log in `Validate`.
- The deferred `resp.Body.Close()`, including the one reached after a failed send.
- Module plumbing: `init` registration, `CaddyModule`, the `parseCaddyfile` wrapper and the interface guards.
- Header-name canonicalisation by `http.Header.Del`: header keys are assumed canonical.
- `http.ResponseWriter`: the response the next handler writes is not modelled.
