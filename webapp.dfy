/** The request dispatcher of app.go: an ordered route table scanned first
    match first, a per-request context that renders exactly one response, and
    a failure boundary around each handler call.

    The HTTP transport is reduced to what the dispatcher sees of it: an
    inbound request (method, path, protocol, remote address) and a response
    record (header map, WriteHeader calls, Write calls). */
module Webapp {
  import opened Wrappers
  import opened Decimal
  import opened Logging

  // --- routes ---------------------------------------------------------------

  /** http.Header: each name holds a list of values. */
  type Header = map<string, seq<string>>

  /** What FindStringSubmatch returns on a match: the whole match first, then
      one entry per capture group, in pattern order. */
  type Submatches = m: seq<string> | |m| >= 1 witness [""]

  /** A compiled route pattern, which this model does not interpret: the
      submatches for a path, or None when the path does not match. */
  type Matcher = string -> Option<Submatches>

  /** What a handler does with its request, in order: header updates, replies,
      and Raise for a panic. */
  datatype Step =
    | SetHeader(name: string, value: string)
    | AddHeader(name: string, value: string)
    | Reply(status: int, body: string)
    | Raise(value: string)

  /** A RouteHandler, seen through what it does with the arguments it gets. */
  type Handler = seq<string> -> seq<Step>

  datatype Route = Route(pattern: string, re: Matcher, verb: string, handler: Handler)

  datatype Inbound = Inbound(verb: string, path: string, proto: string, remoteAddr: string)

  const DefaultContentType := "text/html; charset=utf-8"
  const AlreadyReplied := "this context has already been replied to!"
  const NotFoundBody := "<h1>Not found</h1>"
  const ServerErrorBody := "Internal server error"
  const HitFormat := "hit: %s %s %s %s %d %s\n"
  const BadPatternFormat := "could not compile route pattern: %q"
  const StatusOK := 200
  const StatusNotFound := 404
  const StatusServerError := 500

  // --- pure helpers of the request ------------------------------------------

  predicate HasSuffix(s: string, suffix: string)
  {
    |suffix| <= |s| && s[|s| - |suffix|..] == suffix
  }

  /** httpDate on an RFC 1123 rendering `f` of a UTC time: a trailing "UTC"
      becomes the "GMT" that HTTP dates must carry. */
  function HttpDate(f: string): (r: string)
    ensures |r| == |f|
    ensures forall i :: 0 <= i < |f| - 3 ==> r[i] == f[i]
    ensures !HasSuffix(r, "UTC")
    ensures r == f <==> !HasSuffix(f, "UTC")
    ensures HasSuffix(f, "UTC") ==> HasSuffix(r, "GMT")
  {
    if HasSuffix(f, "UTC") then f[..|f| - 3] + "GMT" else f
  }

  /** The bytes-sent field of the hit log. */
  function BytesSent(contentLength: int): (r: string)
    ensures r == "-" <==> contentLength <= 0
    ensures contentLength > 0 ==> ParseInt(r) == Some(contentLength)
  {
    if contentLength > 0 then
      FormatIntRoundTrip(contentLength);
      FormatInt(contentLength)
    else "-"
  }

  // --- route selection ------------------------------------------------------

  /** A route's method accepts the request's method when they are equal, or
      when a HEAD request meets a GET route. */
  predicate Accepts(reqMethod: string, routeMethod: string)
    ensures reqMethod != "HEAD" ==> (Accepts(reqMethod, routeMethod) <==> routeMethod == reqMethod)
    ensures reqMethod == "HEAD" ==> (Accepts(reqMethod, routeMethod) <==> routeMethod in {"HEAD", "GET"})
  {
    reqMethod == routeMethod || (reqMethod == "HEAD" && routeMethod == "GET")
  }

  predicate Answers(r: Route, verb: string, path: string)
  {
    Accepts(verb, r.verb) && r.re(path).Some?
  }

  /** The route chosen, and the arguments its handler receives. */
  datatype Selected = Selected(index: nat, args: seq<string>)

  /** The first route at or after `from` that answers the request. */
  function SelectFrom(routes: seq<Route>, from: nat, verb: string, path: string): (s: Option<Selected>)
    requires from <= |routes|
    ensures s.Some? ==> from <= s.value.index < |routes|
    ensures s.Some? ==> Answers(routes[s.value.index], verb, path)
    ensures s.Some? ==> s.value.args == routes[s.value.index].re(path).value[1..]
    ensures forall k :: from <= k < |routes| && (s.None? || k < s.value.index) ==> !Answers(routes[k], verb, path)
    decreases |routes| - from
  {
    if from == |routes| then None
    else if Answers(routes[from], verb, path) then Some(Selected(from, routes[from].re(path).value[1..]))
    else SelectFrom(routes, from + 1, verb, path)
  }

  function Select(routes: seq<Route>, verb: string, path: string): Option<Selected>
  {
    SelectFrom(routes, 0, verb, path)
  }

  // --- the state of one exchange --------------------------------------------

  /** A Request's fields together with what it has done to its
      ResponseWriter: the header map, the statuses passed to WriteHeader and
      the byte strings passed to Write. */
  datatype ReqState = ReqState(
    status: int,
    contentLength: int,
    contentType: string,
    replied: bool,
    header: Header,
    statusLines: seq<int>,
    writes: seq<string>)

  /** newRequest: status 200, no content, HTML content type, not replied. */
  function NewReqState(): (q: ReqState)
    ensures Consistent(q) && !q.replied && q.header == map[]
  {
    ReqState(StatusOK, 0, DefaultContentType, false, map[], [], [])
  }

  /** The single-reply discipline: a status line is written exactly when the
      request has been replied to, never twice, and it carries the recorded
      status; at most one body write follows it, of contentLength bytes. */
  predicate Consistent(q: ReqState)
  {
    && (q.replied <==> q.statusLines != [])
    && |q.statusLines| <= 1
    && (q.replied ==> q.statusLines[0] == q.status)
    && |q.writes| <= 1
    && (q.writes != [] ==> q.replied && q.writes[0] != "" && |q.writes[0]| == q.contentLength)
  }

  /** The request together with the logger it reports to. */
  datatype World = World(req: ReqState, log: LogState)

  function SetHeaderIn(h: Header, name: string, value: string): Header
  {
    h[name := [value]]
  }

  function AddHeaderIn(h: Header, name: string, value: string): Header
  {
    h[name := (if name in h then h[name] else []) + [value]]
  }

  /** Reply on a request whose creation time renders as `date`. */
  function ReplyEffect(w: World, status: int, body: string, date: string, env: CallEnv): (r: (World, Outcome))
    ensures r.0.req.replied
    ensures w.req.replied ==> r.0.req == w.req && r.1.Panic?
    ensures !w.req.replied ==> r.1 == Done && r.0.log == w.log && r.0.req.statusLines == w.req.statusLines + [status]
  {
    if w.req.replied then
      var (l, o) := CriticalEffect(w.log, Format(AlreadyReplied), [], env);
      (w.(log := l), o)
    else
      var q := w.req;
      var n := |body|;
      var h1 := SetHeaderIn(q.header, "Date", HttpDate(date));
      var h2 := if n > 0 then SetHeaderIn(SetHeaderIn(h1, "Content-Type", q.contentType), "Content-Length", FormatInt(n)) else h1;
      var h3 := if status >= 400 then SetHeaderIn(h2, "Connection", "close") else h2;
      var writes := if n > 0 then q.writes + [body] else q.writes;
      (World(ReqState(status, n, q.contentType, true, h3, q.statusLines + [status], writes), w.log), Done)
  }

  function StepEffect(w: World, s: Step, date: string, env: CallEnv): (World, Outcome)
  {
    match s
    case SetHeader(name, value) => (w.(req := w.req.(header := SetHeaderIn(w.req.header, name, value))), Done)
    case AddHeader(name, value) => (w.(req := w.req.(header := AddHeaderIn(w.req.header, name, value))), Done)
    case Reply(status, body) => ReplyEffect(w, status, body, date, env)
    case Raise(value) => (w, Panic(value))
  }

  /** A handler's steps, in order, until the first panic. */
  function RunSteps(w: World, steps: seq<Step>, date: string, env: CallEnv): (r: (World, Outcome))
    ensures r.1 == Done ==> r.0.log == w.log
    ensures w.req.replied ==> r.0.req.replied
    decreases |steps|
  {
    if steps == [] then (w, Done)
    else
      var (w1, o) := StepEffect(w, steps[0], date, env);
      if o.Panic? then (w1, o) else RunSteps(w1, steps[1..], date, env)
  }

  function FrameLine(f: Frame): string
  {
    "! " + f.file + ":" + FormatInt(f.line) + "\n"
  }

  /** One "! file:line" line per stack frame. */
  function FrameLines(stack: seq<Frame>): (lines: string)
    ensures stack != [] ==> |lines| > 0 && lines[|lines| - 1] == '\n'
  {
    if stack == [] then "" else FrameLines(stack[..|stack| - 1]) + FrameLine(stack[|stack| - 1])
  }

  /** The first line of a crash report. */
  function CrashHeading(value: string): string
  {
    "handler crashed: " + value + "\n"
  }

  /** The text protect logs when a handler panics with `value`. */
  function CrashReport(value: string, stack: seq<Frame>): (report: string)
    ensures CrashHeading(value) <= report
    ensures |report| > 0 && report[|report| - 1] == '\n'
  {
    CrashHeading(value) + FrameLines(stack)
  }

  /** protect: runs the handler; a panic is logged at ERROR and returned
      instead of propagating. */
  function ProtectEffect(w: World, steps: seq<Step>, date: string, env: CallEnv, stack: seq<Frame>): (r: (World, Option<string>))
    ensures r.0.req == RunSteps(w, steps, date, env).0.req
    ensures r.1.None? <==> RunSteps(w, steps, date, env).1 == Done
    ensures r.1.None? ==> r.0.log == w.log
  {
    var (w1, o) := RunSteps(w, steps, date, env);
    if o.Panic? then
      var (l, _) := EmitEffect(w1.log, ERROR, Format(CrashReport(o.value, stack)), [], env);
      (w1.(log := l), Some(o.value))
    else (w1, None)
  }

  /** The arguments of the hit log line. */
  function HitArgs(inb: Inbound, q: ReqState): seq<string>
  {
    [inb.remoteAddr, inb.verb, inb.path, inb.proto, FormatInt(q.status), BytesSent(q.contentLength)]
  }

  function HitEffect(l: LogState, inb: Inbound, q: ReqState, env: CallEnv): (r: LogState)
    ensures r.level == l.level
    ensures INFO < l.level ==> r == l
    ensures INFO >= l.level ==> r.sink == l.sink + r.buf && |r.buf| > 0
  {
    LogfEffect(l, INFO, HitFormat, HitArgs(inb, q), env).0
  }

  /** The outcome of one exchange: the final request and logger, whether a
      panic escaped, and which route was invoked with which arguments. */
  datatype Served = Served(req: ReqState, log: LogState, outcome: Outcome, invoked: Option<Selected>)

  /** ServeHTTP on a fresh request. */
  function ServeEffect(routes: seq<Route>, logHits: bool, inb: Inbound, date: string, env: CallEnv,
                       stack: seq<Frame>, l: LogState): (r: Served)
    ensures r.invoked == Select(routes, inb.verb, inb.path)
    ensures r.outcome.Panic? ==> r.invoked.Some?
    ensures r.invoked.None? ==> r.req.status == StatusNotFound
  {
    var w0 := World(NewReqState(), l);
    match Select(routes, inb.verb, inb.path)
    case None =>
      var (w1, o) := ReplyEffect(w0, StatusNotFound, NotFoundBody, date, env);
      var l2 := if logHits then HitEffect(w1.log, inb, w1.req, env) else w1.log;
      Served(w1.req, l2, o, None)
    case Some(sel) =>
      var (w1, e) := ProtectEffect(w0, routes[sel.index].handler(sel.args), date, env, stack);
      if e.Some? then
        var (w2, o) := ReplyEffect(w1, StatusServerError, ServerErrorBody, date, env);
        Served(w2.req, w2.log, o, Some(sel))
      else Served(w1.req, w1.log, Done, Some(sel))
  }

  /** registerRoute: a route is appended when its pattern compiles; otherwise
      Critical logs and panics and the table is left as it was. */
  function RegisterEffect(routes: seq<Route>, l: LogState, pattern: string, verb: string, handler: Handler,
                          compile: string -> Option<Matcher>, env: CallEnv): (r: (seq<Route>, LogState, Outcome))
    ensures routes <= r.0 && |r.0| <= |routes| + 1
    ensures r.2 == Done <==> compile(pattern).Some?
    ensures r.2 == Done ==> r.1 == l
  {
    match compile(pattern)
    case Some(re) => (routes + [Route(pattern, re, verb, handler)], l, Done)
    case None =>
      var (l1, o) := CriticalEffect(l, Format(BadPatternFormat), [pattern], env);
      (routes, l1, o)
  }

  lemma AppendAssoc(a: string, b: string, c: string)
    ensures (a + b) + c == a + (b + c)
  {
  }

  lemma FrameLinesSnoc(stack: seq<Frame>, i: nat)
    requires i < |stack|
    ensures FrameLines(stack[..i + 1]) == FrameLines(stack[..i]) + FrameLine(stack[i])
  {
    assert stack[..i + 1][..i] == stack[..i];
  }

  /** The deferred recover handler's buffer: the panic value, then one line
      per frame reported by runtime.Caller until it fails. */
  method CrashReportOf(value: string, stack: seq<Frame>) returns (buf: string)
    ensures buf == CrashReport(value, stack)
  {
    var head := CrashHeading(value);
    buf := head;
    var i := 0;
    while i < |stack|
      invariant 0 <= i <= |stack|
      invariant buf == head + FrameLines(stack[..i])
    {
      var line := FrameLine(stack[i]);
      FrameLinesSnoc(stack, i);
      AppendAssoc(head, FrameLines(stack[..i]), line);
      buf := buf + line;
      i := i + 1;
    }
    assert stack[..i] == stack;
  }

  // --- the request context --------------------------------------------------

  class Request {
    const inbound: Inbound
    /** The creation time, rendered as RFC 1123 in UTC. */
    const date: string
    /** The application's logger. */
    const log: Logger
    var status: int
    var contentLength: int
    var contentType: string
    var replied: bool
    var header: Header
    var statusLines: seq<int>
    var writes: seq<string>

    ghost function State(): ReqState
      reads this
    {
      ReqState(status, contentLength, contentType, replied, header, statusLines, writes)
    }

    /** newRequest. */
    constructor (inbound: Inbound, date: string, log: Logger)
      ensures State() == NewReqState()
      ensures this.inbound == inbound && this.date == date && this.log == log
    {
      this.inbound := inbound;
      this.date := date;
      this.log := log;
      status := StatusOK;
      contentLength := 0;
      contentType := DefaultContentType;
      replied := false;
      header := map[];
      statusLines := [];
      writes := [];
    }

    method SetHeader(name: string, value: string)
      modifies this`header
      ensures header == SetHeaderIn(old(header), name, value)
    {
      header := header[name := [value]];
    }

    method AddHeader(name: string, value: string)
      modifies this`header
      ensures header == AddHeaderIn(old(header), name, value)
    {
      var values := if name in header then header[name] else [];
      header := header[name := values + [value]];
    }

    method Reply(status: int, body: string, env: CallEnv) returns (o: Outcome)
      modifies this, log
      ensures (World(State(), log.State()), o) == ReplyEffect(World(old(State()), old(log.State())), status, body, date, env)
    {
      if replied {
        o := log.Critical(Format(AlreadyReplied), [], env);
        return;
      }
      this.status := status;
      contentLength := |body|;
      SetHeader("Date", HttpDate(date));
      if contentLength > 0 {
        SetHeader("Content-Type", contentType);
        SetHeader("Content-Length", FormatInt(contentLength));
      }
      if this.status >= 400 {
        SetHeader("Connection", "close");
      }
      replied := true;
      statusLines := statusLines + [this.status];
      if contentLength > 0 {
        writes := writes + [body];
      }
      o := Done;
    }

    method OK(body: string, env: CallEnv) returns (o: Outcome)
      modifies this, log
      ensures (World(State(), log.State()), o) == ReplyEffect(World(old(State()), old(log.State())), StatusOK, body, date, env)
    {
      o := Reply(StatusOK, body, env);
    }

    method NotFound(body: string, env: CallEnv) returns (o: Outcome)
      modifies this, log
      ensures (World(State(), log.State()), o) == ReplyEffect(World(old(State()), old(log.State())), StatusNotFound, body, date, env)
    {
      o := Reply(StatusNotFound, body, env);
    }

    method LogHit(env: CallEnv)
      modifies log
      ensures log.State() == HitEffect(old(log.State()), inbound, State(), env)
    {
      var bytesSent := "-";
      if contentLength > 0 {
        bytesSent := FormatInt(contentLength);
      }
      log.Info(Format(HitFormat),
               [inbound.remoteAddr, inbound.verb, inbound.path, inbound.proto, FormatInt(status), bytesSent],
               env);
    }

    /** Calls the handler: its steps run against this request in order, and
        the first panic ends the call. */
    method Perform(steps: seq<Step>, env: CallEnv) returns (o: Outcome)
      modifies this, log
      ensures (World(State(), log.State()), o) == RunSteps(World(old(State()), old(log.State())), steps, date, env)
    {
      ghost var w0 := World(State(), log.State());
      var i := 0;
      while i < |steps|
        invariant 0 <= i <= |steps|
        invariant RunSteps(w0, steps, date, env) == RunSteps(World(State(), log.State()), steps[i..], date, env)
      {
        assert steps[i..][0] == steps[i] && steps[i..][1..] == steps[i + 1..];
        match steps[i] {
          case SetHeader(name, value) =>
            SetHeader(name, value);
          case AddHeader(name, value) =>
            AddHeader(name, value);
          case Reply(status, body) =>
            o := Reply(status, body, env);
            if o.Panic? {
              return;
            }
          case Raise(value) =>
            o := Panic(value);
            return;
        }
        i := i + 1;
      }
      o := Done;
    }
  }

  // --- the application ------------------------------------------------------

  class App {
    const log: Logger
    var logHits: bool
    var routes: seq<Route>

    /** NewApp: hit logging on, no routes, a logger at the given level whose
        call depth is 2. Host and port only serve Run; the template path is
        stored and never read. */
    constructor (lvl: int)
      ensures fresh(log) && log.State() == LogState(lvl, [], []) && log.callDepth == 2
      ensures logHits && routes == []
    {
      log := new Logger(lvl, 2);
      logHits := true;
      routes := [];
    }

    method RegisterRoute(pattern: string, verb: string, handler: Handler,
                         compile: string -> Option<Matcher>, env: CallEnv) returns (o: Outcome)
      modifies this`routes, log
      ensures (routes, log.State(), o) == RegisterEffect(old(routes), old(log.State()), pattern, verb, handler, compile, env)
    {
      var re := compile(pattern);
      if re.None? {
        o := log.Critical(Format(BadPatternFormat), [pattern], env);
        return;
      }
      routes := routes + [Route(pattern, re.value, verb, handler)];
      o := Done;
    }

    method Get(pattern: string, handler: Handler, compile: string -> Option<Matcher>, env: CallEnv) returns (o: Outcome)
      modifies this`routes, log
      ensures (routes, log.State(), o) == RegisterEffect(old(routes), old(log.State()), pattern, "GET", handler, compile, env)
    {
      o := RegisterRoute(pattern, "GET", handler, compile, env);
    }

    method Post(pattern: string, handler: Handler, compile: string -> Option<Matcher>, env: CallEnv) returns (o: Outcome)
      modifies this`routes, log
      ensures (routes, log.State(), o) == RegisterEffect(old(routes), old(log.State()), pattern, "POST", handler, compile, env)
    {
      o := RegisterRoute(pattern, "POST", handler, compile, env);
    }

    method Put(pattern: string, handler: Handler, compile: string -> Option<Matcher>, env: CallEnv) returns (o: Outcome)
      modifies this`routes, log
      ensures (routes, log.State(), o) == RegisterEffect(old(routes), old(log.State()), pattern, "PUT", handler, compile, env)
    {
      o := RegisterRoute(pattern, "PUT", handler, compile, env);
    }

    method Delete(pattern: string, handler: Handler, compile: string -> Option<Matcher>, env: CallEnv) returns (o: Outcome)
      modifies this`routes, log
      ensures (routes, log.State(), o) == RegisterEffect(old(routes), old(log.State()), pattern, "DELETE", handler, compile, env)
    {
      o := RegisterRoute(pattern, "DELETE", handler, compile, env);
    }

    /** Runs a handler inside the failure boundary. A panic is turned into a
        crash report (the panic value and the frames above the boundary),
        logged at ERROR, and returned. */
    method Protect(handler: Handler, req: Request, args: seq<string>, env: CallEnv, stack: seq<Frame>)
      returns (e: Option<string>)
      requires req.log == log
      modifies req, log
      ensures (World(req.State(), log.State()), e)
           == ProtectEffect(World(old(req.State()), old(log.State())), handler(args), req.date, env, stack)
    {
      var o := req.Perform(handler(args), env);
      if o.Panic? {
        var report := CrashReportOf(o.value, stack);
        log.Error(Format(report), [], env);
        e := Some(o.value);
      } else {
        e := None;
      }
    }

    /** Handles one inbound request on a fresh request context; returns that
        context, any panic that escaped, and the route invoked. */
    method ServeHTTP(inb: Inbound, date: string, env: CallEnv, stack: seq<Frame>)
      returns (req: Request, o: Outcome, invoked: Option<Selected>)
      modifies log
      ensures fresh(req)
      ensures var s := ServeEffect(routes, logHits, inb, date, env, stack, old(log.State()));
        req.State() == s.req && log.State() == s.log && o == s.outcome && invoked == s.invoked
    {
      req := new Request(inb, date, log);
      var path := inb.path;
      var i := 0;
      while i < |routes|
        invariant 0 <= i <= |routes|
        invariant Select(routes, inb.verb, path) == SelectFrom(routes, i, inb.verb, path)
        invariant req.State() == NewReqState() && log.State() == old(log.State())
      {
        var route := routes[i];
        if !Accepts(inb.verb, route.verb) {
          i := i + 1;
          continue;
        }
        var found := route.re(path);
        if found.None? {
          i := i + 1;
          continue;
        }
        var args := found.value[1..];
        invoked := Some(Selected(i, args));
        var err := Protect(route.handler, req, args, env, stack);
        if err.Some? {
          o := req.Reply(StatusServerError, ServerErrorBody, env);
        } else {
          o := Done;
        }
        return;
      }
      invoked := None;
      o := req.NotFound(NotFoundBody, env);
      if logHits {
        req.LogHit(env);
      }
    }
  }
}
