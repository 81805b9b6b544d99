# A Dafny model of the tumblerous dispatcher and logger

This project models the two sequential components of the tumblerous Go web
framework and proves properties about them:

- **The dispatcher (`app.go`).** An `App` keeps an ordered table of routes.
  Each route has a pattern, an HTTP method and a handler. `ServeHTTP` scans
  the table in registration order and invokes the first route whose method
  accepts the request (a GET route also answers HEAD) and whose pattern
  matches the path. The handler gets the capture groups and runs inside the
  `protect` failure boundary. A handler panic is logged at ERROR and answered
  with a 500. When no route answers, the reply is a 404, and a hit line is
  logged. A `Request` renders one response through `Reply`, which applies
  fixed header rules and refuses to run twice.
- **The leveled logger (`log.go`).** A `Logger` has a minimum level, a
  reusable line buffer and a sink. `SetLevel` ignores out-of-range levels.
  `logf` and `logc` filter by level before doing any work, and `logc` does
  not call its closure when the level is filtered out. `write` composes one
  line: a prefix, the message, and a newline when one is needed.
  `fileBasename` shortens the caller's file name. `Critical` always panics.

## Structure

- `wrappers.dfy`: `Option`, and `Outcome` (a call returns normally or panics
  with a value).
- `decimal.dfy`: the decimal rendering used by `strconv.Itoa` and `%d`,
  with a parser that inverts it.
- `logging.dfy`: the logger. It has pure specification functions
  (`LogState`, `WriteEffect`, `LogfEffect`, `EmitEffect`, `CriticalEffect`)
  and a `Logger` class whose methods are proved against them.
- `webapp.dfy`: the dispatcher. It has pure specification functions
  (`ReqState`, `ReplyEffect`, `RunSteps`, `ProtectEffect`, `ServeEffect`,
  `RegisterEffect`) and the `Request` and `App` classes, whose methods are
  proved against them.
- `webapp_laws.dfy`: lemmas about the dispatcher's specification functions.

## How the model represents the program

- A Go string is a byte sequence. Here a `string` holds those bytes, one
  element per byte, so `|body|` is Go's `len(body)`.
- A panic is a returned `Outcome.Panic(value)`, passed up explicitly to the
  nearest recover. This is the `protect` boundary, or no recover at all when
  it escapes `ServeHTTP`.
- A compiled pattern is an uninterpreted `Matcher`. It maps a path to the
  submatches `FindStringSubmatch` would return, or to `None`. The whole match
  comes first, so a match always has at least one element.
- A handler is a function from its arguments to the calls it makes on the
  request, in order: `SetHeader`, `AddHeader`, `Reply`, and `Raise` for a
  panic. `Request.Perform` runs those calls.
- The response writer is recorded as three things: the header map, the
  statuses passed to `WriteHeader`, and the byte strings passed to `Write`.
- Each log call gets its surroundings as a `CallEnv`:
  - the time, already rendered as RFC 3339;
  - the process id;
  - the caller's frame as `runtime.Caller(callDepth)` reports it, or `None`
    when that call fails (the prefix then reads `???:0`);
  - `fmt.Sprintf`, left uninterpreted.

  Formatting arguments are given by their textual rendering. The request's
  creation time is given as its RFC 1123 rendering in UTC.

In these places the model follows the code, which a reader might not expect:

- Only the not-found path calls `logHit` (app.go:228-231). A request that
  matched a route is never hit-logged.
- Whenever the body is non-empty, `Reply` sets `Content-Type` to the
  request's `contentType` field (app.go:64-66). Nothing ever assigns that
  field after `newRequest`, so a `Content-Type` set by the handler is then
  overwritten.
- A HEAD request answered by a GET handler still passes the body to `Write`.
  Dropping it is left to the transport.
- Suppose a handler replies and then panics, or replies twice, in which case
  the second `Reply` panics through `Critical`. `protect` recovers the panic,
  and the dispatcher's own 500 `Reply` then panics again. That second panic
  leaves `ServeHTTP` (lemma `ServeDoubleReply`). The response still holds
  only the first reply.

## Model

| member | source | states |
|---|---|---|
| `Decimal.FormatInt` | app.go:66 | The decimal text of an integer is non-empty and starts with '-' exactly when the integer is negative |
| `Decimal.FormatIntRoundTrip` | app.go:66 | Parsing the decimal text back gives the same integer, so the Content-Length value reads back as the body length |
| `Logging.LevelStringAsWritten` | log.go:31-36 | Level.String as written: no result (the index panic) exactly at level 6, the level's letter for 0..5, "UNKNOWN" below 0 and above 6 |
| `Logging.LevelStringAsWrittenPanics` | log.go:32 | The input that shows the off-by-one: level CRITICAL+1 panics |
| `Logging.LevelString` | log.go:28-36 | Corrected Level.String: one letter exactly for TRACE..CRITICAL (T, D, I, W, E, C), "UNKNOWN" for every other integer, and never a panic |
| `Logging.LevelStringCorrected` | log.go:28-36 | The corrected version agrees with the written one everywhere except level 6, and distinct levels get distinct letters |
| `Logging.LastSlash` | log.go:277-281 | The backward scan finds the last '/' at an index above 0 below the bound, or -1; index 0 is never reported |
| `Logging.BasenameIsLastComponent` | log.go:275-284 | The base name is a suffix of the file name. It is the whole name exactly when no '/' occurs after index 0; otherwise it follows a '/' at index > 0 and contains no '/' |
| `Logging.Line` | log.go:253-258 | The composed line starts with prefix ++ message, adds a newline exactly when the message is non-empty and does not already end in one, and is just the prefix for an empty message |
| `Logging.EmitWrites` | log.go:217-247 | Below the minimum level nothing changes and "" is returned. Otherwise the buffer holds only the new line, whose message part is the returned string, and the sink gains exactly that line. Without arguments the format is the message verbatim; a closure's text is the message |
| `Logging.CriticalAlwaysPanics` | log.go:138-151 | Critical never returns normally. When CRITICAL passes the filter it panics with the message it logged, and the sink gains a line that ends in a newline whenever that message is non-empty; when filtered it panics with "" and writes nothing |
| `Logging.Basename` | log.go:275-284 | What fileBasename computes: the part after the last '/' found at an index above 0, or the whole name; always a suffix of the file name |
| `Logging.Prefix` | log.go:265-270 | The header "<letter> [<time> <pid>] (<base name>:<line>) " that fmtPrefix renders; it is non-empty and starts with the level's letter |
| `Logging.WriteEffect` | log.go:250-261 | write's effect: the level is kept, the buffer holds only the new line (longer than the message, ending in a newline when the message is non-empty), and the sink gains exactly that buffer |
| `Logging.LogfEffect` | log.go:217-232 | logf's effect: below the minimum level nothing changes and "" is returned; otherwise one line is written whose message is the format verbatim when there are no arguments |
| `Logging.LogcEffect` | log.go:235-247 | logc's effect: below the minimum level nothing changes; otherwise the closure's text is written as one line and returned |
| `Logging.EmitEffect` | log.go:73-81 | The type switch of one log call: the level never changes, a filtered call changes nothing and returns "", an unfiltered one appends exactly its buffer to the sink |
| `Logging.CriticalEffect` | log.go:138-151 | Critical's effect: always a panic, the level kept; when CRITICAL is filtered, the state is unchanged and the panic value is "" |
| `Logging.Closure.constructor` | log.go:208-212 | The Closure factory records the format and arguments; the closure has not been called yet |
| `Logging.Closure.Call` | log.go:209-211 | Calling the closure renders its text and counts one call |
| `Logging.Logger.constructor` | log.go:54-56 | NewLogger takes the level as given, without a range check, and starts with an empty buffer and an empty sink |
| `Logging.Logger.GetLevel` | log.go:59-61 | Returns the current minimum level |
| `Logging.Logger.SetLevel` | log.go:64-69 | The level changes only to a value within [TRACE, CRITICAL]; otherwise it stays as it was; buffer and sink are untouched |
| `Logging.Logger.Trace` | log.go:72-82 | One TRACE log call; a closure is called once when TRACE passes the filter, never otherwise |
| `Logging.Logger.Debug` | log.go:85-95 | Same as Trace, at DEBUG |
| `Logging.Logger.Info` | log.go:98-108 | Same as Trace, at INFO |
| `Logging.Logger.Warn` | log.go:111-121 | Same as Trace, at WARN |
| `Logging.Logger.Error` | log.go:124-134 | Same as Trace, at ERROR |
| `Logging.Logger.Critical` | log.go:138-151 | Logs at CRITICAL, then always returns a panic carrying what logf or logc returned |
| `Logging.Logger.Emit` | log.go:73-81 | The type switch: a format goes to logf with its arguments; a closure goes to logc and ignores the arguments; any other value becomes its text plus one " %v" per argument |
| `Logging.Logger.Logf` | log.go:217-232 | Filters before any work, formats only when there are arguments, writes one line, and returns the message written ("" when filtered) |
| `Logging.Logger.Logc` | log.go:235-247 | Like Logf, with the closure's text; the closure is called exactly once when the level passes and not at all when it is filtered |
| `Logging.Logger.Write` | log.go:250-261 | Resets the buffer, so nothing earlier survives, and composes exactly Line(prefix, msg) in it; the sink gains that buffer |
| `Logging.Logger.FmtPrefix` | log.go:264-272 | Appends "<letter> [<time> <pid>] (<base name>:<line>) " to the buffer |
| `Logging.Logger.FileBasename` | log.go:275-284 | The backward loop returns exactly Basename(file) |
| `Webapp.HttpDate` | app.go:112-118 | The result has the same length; only a trailing "UTC" is replaced, by "GMT"; the result never ends in "UTC"; the string is unchanged exactly when it did not end in "UTC" |
| `Webapp.BytesSent` | app.go:98-101 | The bytes-sent field is "-" exactly when the content length is 0 or less; otherwise it reads back as the content length |
| `Webapp.SelectFrom` | app.go:213-227 | The selection is the first route, in order, whose method accepts the request and whose pattern matches. Every route before it fails one of the two tests, and its arguments are the submatches without the whole match |
| `Webapp.Accepts` | app.go:215 | A request method other than HEAD is accepted only by a route of the same method; HEAD is accepted by HEAD and GET routes |
| `Webapp.NewReqState` | app.go:82-94 | The state newRequest creates satisfies the single-reply invariant: not replied, no headers, nothing written |
| `Webapp.ReplyEffect` | app.go:57-76 | Reply's effect: afterwards the request counts as replied; on a replied request nothing changes in it and the result is a panic; otherwise it returns normally, leaves the log alone and adds exactly one status line |
| `Webapp.RunSteps` | app.go:262 | A handler's calls in order until the first panic; a run that ends normally leaves the log untouched, and a replied request stays replied |
| `Webapp.CrashReport` | app.go:250-258 | The crash report starts with "handler crashed: <value>" and ends in a newline |
| `Webapp.ProtectEffect` | app.go:246-264 | The failure boundary changes the request exactly as the handler's calls do, reports a panic exactly when the run panicked, and touches the log only when it did |
| `Webapp.HitEffect` | app.go:102-108 | logHit's effect: the level is kept; nothing changes when INFO is filtered; otherwise the sink gains exactly one non-empty line |
| `Webapp.ServeEffect` | app.go:210-232 | The outcome of one exchange: the route invoked is the one selection picks, a panic can escape only when a route was invoked, and an unmatched request ends with status 404 |
| `Webapp.RegisterEffect` | app.go:236-242 | registerRoute's effect: the table only grows, by at most one route; it returns normally exactly when the pattern compiles, and then the log is untouched |
| `Webapp.CrashReportOf` | app.go:250-258 | The recover handler's buffer is "handler crashed: <value>" followed by one "! file:line" line per stack frame |
| `Webapp.Request.constructor` | app.go:82-94 | newRequest: status 200, content length 0, content type text/html; charset=utf-8, not replied, nothing written |
| `Webapp.Request.SetHeader` | app.go:33-35 | The named header now holds exactly the one value |
| `Webapp.Request.AddHeader` | app.go:39-41 | The value is appended after the header's existing values |
| `Webapp.Request.Reply` | app.go:57-76 | Reply's whole effect on the request, its response and the logger equals ReplyEffect (header rules, the replied flag, one WriteHeader, a Write only for a non-empty body, Critical on a second call) |
| `Webapp.Request.OK` | app.go:45-47 | Reply with status 200 |
| `Webapp.Request.NotFound` | app.go:51-53 | Reply with status 404 |
| `Webapp.Request.LogHit` | app.go:97-109 | Logs one INFO hit line with remote address, method, path, protocol, status and bytes sent |
| `Webapp.Request.Perform` | app.go:262 | The handler's calls run against the request in order, and the first panic stops them |
| `Webapp.App.constructor` | app.go:156-165 | NewApp: a fresh logger at the given level with call depth 2, hit logging on, and no routes |
| `Webapp.App.RegisterRoute` | app.go:236-242 | A route whose pattern compiles is appended; otherwise Critical logs and panics and the table is unchanged |
| `Webapp.App.Get` | app.go:188-190 | Registers a GET route |
| `Webapp.App.Post` | app.go:193-195 | Registers a POST route |
| `Webapp.App.Put` | app.go:198-200 | Registers a PUT route |
| `Webapp.App.Delete` | app.go:203-205 | Registers a DELETE route |
| `Webapp.App.Protect` | app.go:246-264 | Runs the handler. On a panic it logs the crash report at ERROR and returns the panic value instead of propagating it; otherwise it returns nothing |
| `Webapp.App.ServeHTTP` | app.go:210-232 | The loop over the routes produces exactly ServeEffect: the request's final state, the logger's final state, any escaping panic, and which route was invoked with which arguments |
| `WebappLaws.SelectIsFirstAnswer` | app.go:213-227 | Route i is invoked exactly when it answers and no earlier route does, so a later route that also answers is never invoked |
| `WebappLaws.HeadDispatchesAsGet` | app.go:215 | With routes registered as GET/POST/PUT/DELETE, a HEAD request is dispatched exactly as a GET would be and only ever reaches a GET route |
| `WebappLaws.RegisterAppends` | app.go:236-242 | Registration appends exactly one route at the end, keeps earlier routes and the log, and never changes the dispatch of a request already answered; a bad pattern leaves the table unchanged and panics |
| `WebappLaws.HttpDateIdempotent` | app.go:112-118 | Rewriting the date twice equals rewriting it once |
| `WebappLaws.FirstReply` | app.go:57-76 | On a new request: Date is always set. Content-Type and Content-Length are set iff the body is non-empty, and Content-Length reads back as the body length. Connection: close is set iff status >= 400. One status line is written, and the body is written iff it is non-empty |
| `WebappLaws.ReplyRules` | app.go:61-75 | On any request not yet replied to, the same rules are applied over the existing headers and every other header is kept; the replied flag is then set |
| `WebappLaws.SecondReplyPanics` | app.go:58-60 | A second reply leaves request and response untouched, logs the complaint at CRITICAL, and panics |
| `WebappLaws.ReplyKeepsConsistent` | app.go:57-76 | Reply preserves the single-reply invariant: a status line is written iff the request was replied to, at most once, with the recorded status, and at most one body follows |
| `WebappLaws.RunStepsKeepsConsistent` | app.go:262 | Any sequence of handler calls preserves that invariant |
| `WebappLaws.ServeRepliesAtMostOnce` | app.go:210-232 | Whatever the routes and handlers do, an exchange writes at most one status line and at most one body |
| `WebappLaws.ServeNotFound` | app.go:228-231 | With no answering route: status 404 with body `<h1>Not found</h1>`, nothing invoked, and a hit logged exactly when LogHits is on and INFO passes the filter |
| `WebappLaws.ServeHandlerPanics` | app.go:221-225 | A handler that panics after only header calls ends normally with one 500 reply carrying the fixed body, and the log changes only by the ERROR crash report |
| `WebappLaws.ServeMatchedLogsNothing` | app.go:221-226 | A handler that never panics and replies at most once ends the exchange normally with the log untouched, so the matched path writes no hit line |
| `WebappLaws.ServeDoubleReply` | app.go:58-60 | A handler whose calls are two replies makes a panic escape ServeHTTP, while the response keeps only the first status and body |

## Findings

| source | as written | input that shows it | evidently intended | confidence | as-written member | corrected member |
|---|---|---|---|---|---|---|
| log.go:32 | the guard is `int(l) > len(levelStrings)`, so level 6 reaches `levelStrings[6]` | `Level(6).String()` indexes past the six-element table and panics | `>=`, so every integer outside 0..5 gives "UNKNOWN" | high; not executed | `Logging.LevelStringAsWritten`, `Logging.LevelStringAsWrittenPanics` | `Logging.LevelString`, `Logging.LevelStringCorrected` |

## Left out

- The HTTP transport is not modelled: `Run`, `ListenAndServe`, server timeouts and the real `ResponseWriter`. Also left to the transport: the implicit 200 sent when a handler writes nothing, dropping the body of a HEAD reply, header-name canonicalisation in `Header.Set`/`Add`, and what a panic escaping `ServeHTTP` does to the connection.
- Regular expressions are not interpreted. Compilation is an uninterpreted `compile` argument and matching is a `Matcher`. `MatchString` and `FindStringSubmatch` are assumed to agree, so the model makes one call where the code makes two.
- `runtime.Caller` stack walking is replaced by inputs: the caller frame in `CallEnv` and the list of frames in `protect`. The panic/recover mechanism itself is replaced by explicit `Outcome` values.
- `time.Now`, RFC 1123 and RFC 3339 time formatting, `os.Getpid` and `fmt.Sprintf`/`fmt.Sprint` are inputs. Within one `ServeHTTP` call, every log call uses the same `CallEnv`.
- The logger's `sync.Mutex` is left out because its purpose is concurrency, and the logger is modelled sequentially.
- The sink's write error is not modelled: the sink is an append-only string. `logf` and `logc` discard that error anyway.
- Handlers are modelled only through the request calls they make. Their own log calls and other side effects are not modelled.
- The package-level default logger (log.go:157-201) is not modelled. It only forwards to one `Logger`.
- `App.host` and `App.port` are not modelled; only `Run` reads them (app.go:168-182). `NewApp` stores `App.templatePath` and nothing in app.go reads it, so it is not modelled either.
- main.go is not part of this model.
