/** Properties of the dispatcher model: route selection, the reply rules,
    the single-reply discipline, and how an exchange ends when no route
    answers, when the handler panics, and when it behaves. */
module WebappLaws {
  import opened Wrappers
  import opened Decimal
  import opened Logging
  import opened Webapp

  // --- route selection ------------------------------------------------------

  /** Route i is dispatched to exactly when it answers the request and no
      earlier route does: registration order breaks ties, and a later route
      that also answers is never invoked. */
  lemma SelectIsFirstAnswer(routes: seq<Route>, verb: string, path: string, i: nat)
    requires i < |routes|
    ensures (Select(routes, verb, path).Some? && Select(routes, verb, path).value.index == i)
        <==> (Answers(routes[i], verb, path) && forall k :: 0 <= k < i ==> !Answers(routes[k], verb, path))
  {
  }

  lemma {:induction false} SelectFromSameAnswers(routes: seq<Route>, from: nat, v1: string, v2: string, path: string)
    requires from <= |routes|
    requires forall k :: from <= k < |routes| ==> (Answers(routes[k], v1, path) <==> Answers(routes[k], v2, path))
    ensures SelectFrom(routes, from, v1, path) == SelectFrom(routes, from, v2, path)
    decreases |routes| - from
  {
    if from < |routes| {
      SelectFromSameAnswers(routes, from + 1, v1, v2, path);
    }
  }

  /** The methods Get, Post, Put and Delete register. */
  predicate RegisteredVerb(v: string)
  {
    v == "GET" || v == "POST" || v == "PUT" || v == "DELETE"
  }

  /** With routes registered through Get, Post, Put and Delete, a HEAD request
      is dispatched exactly as a GET request for the same path would be, so it
      only ever reaches a GET route. */
  lemma HeadDispatchesAsGet(routes: seq<Route>, path: string)
    requires forall k :: 0 <= k < |routes| ==> RegisteredVerb(routes[k].verb)
    ensures Select(routes, "HEAD", path) == Select(routes, "GET", path)
    ensures Select(routes, "HEAD", path).Some? ==> routes[Select(routes, "HEAD", path).value.index].verb == "GET"
  {
    SelectFromSameAnswers(routes, 0, "HEAD", "GET", path);
  }

  lemma {:induction false} SelectFromAppend(routes: seq<Route>, r: Route, from: nat, verb: string, path: string)
    requires from <= |routes|
    ensures SelectFrom(routes + [r], from, verb, path)
         == if SelectFrom(routes, from, verb, path).Some? then SelectFrom(routes, from, verb, path)
            else if Answers(r, verb, path) then Some(Selected(|routes|, r.re(path).value[1..]))
            else None
    decreases |routes| - from
  {
    var rs := routes + [r];
    if from < |routes| {
      assert rs[from] == routes[from];
      SelectFromAppend(routes, r, from + 1, verb, path);
    } else {
      assert rs[from] == r;
    }
  }

  /** registerRoute appends exactly one route at the end and leaves the earlier
      routes as they were, so a request an earlier route already answers is
      dispatched as before; an uncompilable pattern panics and leaves the
      table unchanged. */
  lemma RegisterAppends(routes: seq<Route>, l: LogState, pattern: string, verb: string, handler: Handler,
                        compile: string -> Option<Matcher>, env: CallEnv, reqVerb: string, path: string)
    ensures var (rs, l1, o) := RegisterEffect(routes, l, pattern, verb, handler, compile, env);
      && (compile(pattern).Some? ==>
            && |rs| == |routes| + 1 && rs[..|routes|] == routes
            && rs[|routes|] == Route(pattern, compile(pattern).value, verb, handler)
            && l1 == l && o == Done)
      && (compile(pattern).None? ==> rs == routes && o.Panic?)
      && (Select(routes, reqVerb, path).Some? ==> Select(rs, reqVerb, path) == Select(routes, reqVerb, path))
  {
    var (rs, l1, o) := RegisterEffect(routes, l, pattern, verb, handler, compile, env);
    if compile(pattern).Some? {
      assert rs == routes + [Route(pattern, compile(pattern).value, verb, handler)];
      assert rs[..|routes|] == routes;
      SelectFromAppend(routes, Route(pattern, compile(pattern).value, verb, handler), 0, reqVerb, path);
    }
  }

  // --- replies --------------------------------------------------------------

  /** Rewriting the date twice is the same as rewriting it once. */
  lemma HttpDateIdempotent(f: string)
    ensures HttpDate(HttpDate(f)) == HttpDate(f)
  {
  }

  /** The first reply on a new request: Date always; Content-Type and
      Content-Length exactly when the body is non-empty, the latter reading
      back as the body length; Connection: close exactly when the status is
      400 or more; one status line; the body written exactly when non-empty. */
  lemma FirstReply(l: LogState, status: int, body: string, date: string, env: CallEnv)
    ensures var (w, o) := ReplyEffect(World(NewReqState(), l), status, body, date, env);
      var h := w.req.header;
      && o == Done && w.log == l && w.req.replied
      && w.req.status == status && w.req.contentLength == |body|
      && (forall name :: name in h ==> name in {"Date", "Content-Type", "Content-Length", "Connection"})
      && "Date" in h && h["Date"] == [HttpDate(date)]
      && ("Content-Type" in h <==> body != "")
      && ("Content-Length" in h <==> body != "")
      && (body != "" ==> h["Content-Type"] == [DefaultContentType])
      && (body != "" ==> |h["Content-Length"]| == 1 && ParseInt(h["Content-Length"][0]) == Some(|body|))
      && ("Connection" in h <==> status >= 400)
      && (status >= 400 ==> h["Connection"] == ["close"])
      && w.req.statusLines == [status]
      && w.req.writes == (if body != "" then [body] else [])
  {
    ReplyRules(World(NewReqState(), l), status, body, date, env);
    FormatIntRoundTrip(|body|);
  }

  /** Reply on any request not yet replied to: the same header rules applied
      over whatever the handler set before, every other header kept. */
  lemma ReplyRules(w: World, status: int, body: string, date: string, env: CallEnv)
    requires !w.req.replied
    ensures var (w', o) := ReplyEffect(w, status, body, date, env);
      var h, h' := w.req.header, w'.req.header;
      && o == Done && w'.log == w.log && w'.req.replied
      && w'.req.status == status && w'.req.contentLength == |body|
      && w'.req.statusLines == w.req.statusLines + [status]
      && w'.req.writes == w.req.writes + (if body != "" then [body] else [])
      && "Date" in h' && h'["Date"] == [HttpDate(date)]
      && (body != "" ==> "Content-Type" in h' && h'["Content-Type"] == [w.req.contentType])
      && (body != "" ==> "Content-Length" in h' && h'["Content-Length"] == [FormatInt(|body|)])
      && (status >= 400 ==> "Connection" in h' && h'["Connection"] == ["close"])
      && (forall name :: name in h' ==> name in h || name == "Date" || (body != "" && (name == "Content-Type" || name == "Content-Length")) || (status >= 400 && name == "Connection"))
      && (forall name :: name in h && name != "Date" && (body == "" || (name != "Content-Type" && name != "Content-Length")) && (status < 400 || name != "Connection")
            ==> name in h' && h'[name] == h[name])
  {
  }

  /** A second reply leaves the request and its response untouched and goes
      to Critical, which logs the complaint (unless CRITICAL is filtered) and
      panics. */
  lemma SecondReplyPanics(w: World, status: int, body: string, date: string, env: CallEnv)
    requires w.req.replied
    ensures var (w', o) := ReplyEffect(w, status, body, date, env);
      && w'.req == w.req
      && o == Panic(if CRITICAL < w.log.level then "" else AlreadyReplied)
      && w'.log == LogfEffect(w.log, CRITICAL, AlreadyReplied, [], env).0
  {
  }

  // --- the single-reply discipline ------------------------------------------

  lemma ReplyKeepsConsistent(w: World, status: int, body: string, date: string, env: CallEnv)
    requires Consistent(w.req)
    ensures Consistent(ReplyEffect(w, status, body, date, env).0.req)
  {
  }

  lemma {:induction false} RunStepsKeepsConsistent(w: World, steps: seq<Step>, date: string, env: CallEnv)
    requires Consistent(w.req)
    ensures Consistent(RunSteps(w, steps, date, env).0.req)
    decreases |steps|
  {
    if steps != [] {
      var (w1, o) := StepEffect(w, steps[0], date, env);
      if steps[0].Reply? {
        ReplyKeepsConsistent(w, steps[0].status, steps[0].body, date, env);
      }
      if !o.Panic? {
        RunStepsKeepsConsistent(w1, steps[1..], date, env);
      }
    }
  }

  /** Whatever the routes and their handlers do, one exchange writes at most
      one status line, carrying the final status, and at most one body. */
  lemma ServeRepliesAtMostOnce(routes: seq<Route>, logHits: bool, inb: Inbound, date: string, env: CallEnv,
                               stack: seq<Frame>, l: LogState)
    ensures var s := ServeEffect(routes, logHits, inb, date, env, stack, l);
      && Consistent(s.req)
      && |s.req.statusLines| <= 1 && |s.req.writes| <= 1
  {
    var w0 := World(NewReqState(), l);
    match Select(routes, inb.verb, inb.path)
    case None =>
      ReplyKeepsConsistent(w0, StatusNotFound, NotFoundBody, date, env);
    case Some(sel) =>
      var steps := routes[sel.index].handler(sel.args);
      RunStepsKeepsConsistent(w0, steps, date, env);
      var (w1, e) := ProtectEffect(w0, steps, date, env, stack);
      if e.Some? {
        ReplyKeepsConsistent(w1, StatusServerError, ServerErrorBody, date, env);
      }
  }

  // --- how an exchange ends ---------------------------------------------------

  lemma PrefixNonEmpty(lvl: int, now: string, pid: int, file: string, line: int)
    requires IsLevel(lvl)
    ensures |Prefix(lvl, now, pid, file, line)| > 0
  {
  }

  /** No route answers: a 404 with the fixed body, no route invoked, and a hit
      logged exactly when hit logging is on (and INFO passes the filter), with
      the status and the body length as its last two fields. */
  lemma ServeNotFound(routes: seq<Route>, logHits: bool, inb: Inbound, date: string, env: CallEnv,
                      stack: seq<Frame>, l: LogState)
    requires Select(routes, inb.verb, inb.path).None?
    ensures var s := ServeEffect(routes, logHits, inb, date, env, stack, l);
      && s.invoked == None && s.outcome == Done
      && s.req.status == StatusNotFound && s.req.statusLines == [StatusNotFound]
      && s.req.writes == [NotFoundBody]
      && s.log == (if logHits then HitEffect(l, inb, s.req, env) else l)
      && HitArgs(inb, s.req) == [inb.remoteAddr, inb.verb, inb.path, inb.proto, FormatInt(404), FormatInt(18)]
      && (s.log != l <==> logHits && l.level <= INFO)
  {
    var s := ServeEffect(routes, logHits, inb, date, env, stack, l);
    if logHits && l.level <= INFO {
      var f := Site(env);
      PrefixNonEmpty(INFO, env.now, env.pid, f.file, f.line);
      assert |s.log.sink| > |l.sink|;
    }
  }

  /** Steps that only touch headers. */
  predicate HeaderOnly(steps: seq<Step>)
  {
    forall j :: 0 <= j < |steps| ==> steps[j].SetHeader? || steps[j].AddHeader?
  }

  lemma {:induction false} HeaderStepsFirst(w: World, pre: seq<Step>, rest: seq<Step>, date: string, env: CallEnv)
    requires HeaderOnly(pre)
    ensures var (w1, o1) := RunSteps(w, pre, date, env);
      && o1 == Done && w1.log == w.log && w1.req == w.req.(header := w1.req.header)
      && RunSteps(w, pre + rest, date, env) == RunSteps(w1, rest, date, env)
    decreases |pre|
  {
    if pre == [] {
      assert pre + rest == rest;
    } else {
      var (w0, _) := StepEffect(w, pre[0], date, env);
      assert (pre + rest)[0] == pre[0] && (pre + rest)[1..] == pre[1..] + rest;
      HeaderStepsFirst(w0, pre[1..], rest, date, env);
    }
  }

  /** A handler that panics before replying (after any header updates): the
      exchange still ends normally, with a single 500 reply carrying the fixed
      body and nothing from the handler, and the only log output is the ERROR
      crash report naming the panic value and the stack frames. */
  lemma ServeHandlerPanics(routes: seq<Route>, logHits: bool, inb: Inbound, date: string, env: CallEnv,
                           stack: seq<Frame>, l: LogState, pre: seq<Step>, v: string, post: seq<Step>)
    requires Select(routes, inb.verb, inb.path).Some?
    requires routes[Select(routes, inb.verb, inb.path).value.index].handler(Select(routes, inb.verb, inb.path).value.args)
             == pre + [Raise(v)] + post
    requires HeaderOnly(pre)
    ensures var s := ServeEffect(routes, logHits, inb, date, env, stack, l);
      && s.outcome == Done && s.invoked == Select(routes, inb.verb, inb.path)
      && s.req.status == StatusServerError && s.req.statusLines == [StatusServerError]
      && s.req.writes == [ServerErrorBody]
      && s.log == EmitEffect(l, ERROR, Format(CrashReport(v, stack)), [], env).0
  {
    assert pre + [Raise(v)] + post == pre + ([Raise(v)] + post);
    HeaderStepsFirst(World(NewReqState(), l), pre, [Raise(v)] + post, date, env);
  }

  function ReplyCount(steps: seq<Step>): nat
  {
    if steps == [] then 0 else (if steps[0].Reply? then 1 else 0) + ReplyCount(steps[1..])
  }

  predicate NoRaise(steps: seq<Step>)
  {
    forall j :: 0 <= j < |steps| ==> !steps[j].Raise?
  }

  lemma {:induction false} QuietRun(w: World, steps: seq<Step>, date: string, env: CallEnv)
    requires NoRaise(steps)
    requires if w.req.replied then ReplyCount(steps) == 0 else ReplyCount(steps) <= 1
    ensures RunSteps(w, steps, date, env).1 == Done
    ensures RunSteps(w, steps, date, env).0.log == w.log
    decreases |steps|
  {
    if steps != [] {
      var (w1, o) := StepEffect(w, steps[0], date, env);
      assert !steps[0].Raise?;
      assert o == Done && w1.log == w.log;
      assert w1.req.replied == (w.req.replied || steps[0].Reply?);
      QuietRun(w1, steps[1..], date, env);
    }
  }

  /** A handler that neither panics nor replies twice: the exchange ends
      normally and the log is untouched; in particular no hit line is
      written, since only the not-found path logs hits. */
  lemma ServeMatchedLogsNothing(routes: seq<Route>, logHits: bool, inb: Inbound, date: string, env: CallEnv,
                                stack: seq<Frame>, l: LogState)
    requires Select(routes, inb.verb, inb.path).Some?
    requires var sel := Select(routes, inb.verb, inb.path).value;
      NoRaise(routes[sel.index].handler(sel.args)) && ReplyCount(routes[sel.index].handler(sel.args)) <= 1
    ensures var s := ServeEffect(routes, logHits, inb, date, env, stack, l);
      s.outcome == Done && s.log == l && s.invoked == Select(routes, inb.verb, inb.path)
  {
    var sel := Select(routes, inb.verb, inb.path).value;
    QuietRun(World(NewReqState(), l), routes[sel.index].handler(sel.args), date, env);
  }

  /** A handler that replies twice: the second Reply panics through Critical
      before touching the response, protect logs that panic, and the
      dispatcher's own 500 reply then panics again, out of ServeHTTP. The
      response still holds only the first reply. */
  lemma ServeDoubleReply(routes: seq<Route>, logHits: bool, inb: Inbound, date: string, env: CallEnv,
                         stack: seq<Frame>, l: LogState, s1: int, b1: string, s2: int, b2: string)
    requires Select(routes, inb.verb, inb.path).Some?
    requires routes[Select(routes, inb.verb, inb.path).value.index].handler(Select(routes, inb.verb, inb.path).value.args)
             == [Reply(s1, b1), Reply(s2, b2)]
    ensures var s := ServeEffect(routes, logHits, inb, date, env, stack, l);
      && s.outcome.Panic?
      && s.req.status == s1 && s.req.statusLines == [s1]
      && s.req.writes == (if b1 != "" then [b1] else [])
  {
    var sel := Select(routes, inb.verb, inb.path).value;
    var steps := [Reply(s1, b1), Reply(s2, b2)];
    var w0 := World(NewReqState(), l);
    var (w1, o1) := ReplyEffect(w0, s1, b1, date, env);
    ReplyRules(w0, s1, b1, date, env);
    var (w2, o2) := ReplyEffect(w1, s2, b2, date, env);
    SecondReplyPanics(w1, s2, b2, date, env);
    assert steps[1..] == [Reply(s2, b2)] && steps[1..][1..] == [];
    assert RunSteps(w0, steps, date, env) == (w2, o2);
    var (w3, e) := ProtectEffect(w0, steps, date, env, stack);
    assert w3.req == w2.req && e.Some?;
    SecondReplyPanics(w3, StatusServerError, ServerErrorBody, date, env);
  }
}
