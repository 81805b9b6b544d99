/** The leveled logger of log.go: a minimum level, a reusable line buffer and
    a sink that receives one composed line per message that passes the level
    filter. The mutex that serializes writers is not modelled; the logger is
    used sequentially here. */
module Logging {
  import opened Wrappers
  import opened Decimal

  // --- levels ---------------------------------------------------------------

  const TRACE := 0
  const DEBUG := 1
  const INFO := 2
  const WARN := 3
  const ERROR := 4
  const CRITICAL := 5

  /** levelStrings: one letter per level, indexed by the level. */
  const LevelLetters: seq<string> := ["T", "D", "I", "W", "E", "C"]

  predicate IsLevel(l: int) { TRACE <= l <= CRITICAL }

  /** Level.String exactly as written. Its guard rejects `l > 6` instead of
      `l >= 6`, so level 6 reaches `levelStrings[6]`, an index out of range,
      which panics in Go; None stands for that panic. */
  function LevelStringAsWritten(l: int): (r: Option<string>)
    ensures r.None? <==> l == |LevelLetters|
    ensures r.Some? && 0 <= l < |LevelLetters| ==> r.value == LevelLetters[l]
    ensures l < 0 || l > |LevelLetters| ==> r == Some("UNKNOWN")
  {
    if l < 0 || l > |LevelLetters| then Some("UNKNOWN")
    else if l < |LevelLetters| then Some(LevelLetters[l])
    else None
  }

  /** The input that shows the defect: one past CRITICAL panics. */
  lemma LevelStringAsWrittenPanics()
    ensures LevelStringAsWritten(CRITICAL + 1) == None
  {
  }

  /** Level.String with the bound check corrected to `>=`: a letter for each
      level, "UNKNOWN" for every other integer, and never a panic. */
  function LevelString(l: int): (r: string)
    ensures |r| == 1 <==> IsLevel(l)
    ensures IsLevel(l) ==> r == LevelLetters[l]
    ensures !IsLevel(l) ==> r == "UNKNOWN"
  {
    if l < 0 || l >= |LevelLetters| then "UNKNOWN" else LevelLetters[l]
  }

  /** The corrected Level.String agrees with the written one wherever the
      written one does not panic, and the letters name the levels uniquely. */
  lemma LevelStringCorrected(l: int, m: int)
    ensures l != |LevelLetters| ==> LevelStringAsWritten(l) == Some(LevelString(l))
    ensures IsLevel(l) && IsLevel(m) && LevelString(l) == LevelString(m) ==> l == m
  {
  }

  // --- file base names ------------------------------------------------------

  /** The index of the last '/' in s[1..hi], or -1 when there is none. Index 0
      is never examined. */
  function LastSlash(s: string, hi: nat): (j: int)
    requires hi <= |s|
    ensures j == -1 || (0 < j < hi && s[j] == '/')
    ensures forall i :: 0 < i < hi && j < i ==> s[i] != '/'
    decreases hi
  {
    if hi <= 1 then -1
    else if s[hi - 1] == '/' then hi - 1
    else LastSlash(s, hi - 1)
  }

  /** fileBasename: what follows the last '/' found at an index above 0; the
      whole name when there is no such '/'. */
  function Basename(file: string): (short: string)
    ensures |short| <= |file| && short == file[|file| - |short|..]
  {
    var j := LastSlash(file, |file|);
    if j < 0 then file else file[j + 1..]
  }

  /** The base name is a suffix of the name. It is the whole name exactly when
      no '/' occurs after index 0; otherwise it is what follows a '/' at an
      index above 0 and holds no '/' itself. */
  lemma BasenameIsLastComponent(file: string)
    ensures var short := Basename(file);
      && |short| <= |file| && short == file[|file| - |short|..]
      && (short == file <==> forall i :: 0 < i < |file| ==> file[i] != '/')
      && (short != file ==> |short| + 1 < |file| && file[|file| - |short| - 1] == '/')
      && (short != file ==> forall i :: 0 <= i < |short| ==> short[i] != '/')
  {
    var j := LastSlash(file, |file|);
    if j >= 0 {
      assert |file[j + 1..]| < |file|;
    }
  }

  // --- line composition -----------------------------------------------------

  /** The line that write composes: prefix, message, and a newline unless the
      message is empty or already ends in one. */
  function Line(prefix: string, msg: string): (line: string)
    ensures |prefix| + |msg| <= |line| <= |prefix| + |msg| + 1
    ensures line[..|prefix| + |msg|] == prefix + msg
    ensures msg != "" ==> line[|line| - 1] == '\n'
    ensures |line| == |prefix| + |msg| + 1 <==> msg != "" && msg[|msg| - 1] != '\n'
    ensures msg == "" ==> line == prefix
  {
    if |msg| > 0 && msg[|msg| - 1] != '\n' then prefix + msg + "\n" else prefix + msg
  }

  /** The header fmtPrefix renders with "%s [%s %d] (%s:%d) ". */
  function Prefix(lvl: int, now: string, pid: int, file: string, line: int): (p: string)
    requires IsLevel(lvl)
    ensures |p| > 0 && p[0] == LevelLetters[lvl][0]
  {
    LevelLetters[lvl] + " [" + now + " " + FormatInt(pid) + "] (" + Basename(file)
      + ":" + FormatInt(line) + ") "
  }

  // --- the environment of one log call -------------------------------------

  /** fmt.Sprintf, which this model does not interpret. */
  type Formatter = (string, seq<string>) -> string

  datatype Frame = Frame(file: string, line: int)

  /** What one log call reads from its surroundings: the current time already
      rendered as RFC 3339, the process id, the caller's frame as
      runtime.Caller(callDepth) reports it (None when it fails), and the
      formatter. Arguments are represented by their textual rendering. */
  datatype CallEnv = CallEnv(now: string, pid: int, caller: Option<Frame>, sprintf: Formatter)

  /** The frame used in the prefix: "???" and line 0 when runtime.Caller fails. */
  function Site(env: CallEnv): Frame
  {
    match env.caller
    case Some(f) => f
    case None => Frame("???", 0)
  }

  function Repeat(s: string, n: nat): string
  {
    if n == 0 then "" else s + Repeat(s, n - 1)
  }

  // --- the logger's state and the effect of each call -----------------------

  datatype LogState = LogState(level: int, buf: string, sink: string)

  /** write: the buffer holds only the new line, and the sink receives it. */
  function WriteEffect(s: LogState, lvl: int, msg: string, env: CallEnv): (r: LogState)
    requires IsLevel(lvl)
    ensures r.level == s.level
    ensures r.sink == s.sink + r.buf
    ensures |r.buf| > |msg|
    ensures msg != "" ==> r.buf[|r.buf| - 1] == '\n'
  {
    var line := Line(Prefix(lvl, env.now, env.pid, Site(env).file, Site(env).line), msg);
    LogState(s.level, line, s.sink + line)
  }

  /** logf's message: the format verbatim when there are no arguments. */
  function FormatMessage(format: string, args: seq<string>, sprintf: Formatter): string
  {
    if |args| > 0 then sprintf(format, args) else format
  }

  function LogfEffect(s: LogState, lvl: int, format: string, args: seq<string>, env: CallEnv): (r: (LogState, string))
    requires IsLevel(lvl)
    ensures r.0.level == s.level
    ensures lvl < s.level ==> r == (s, "")
    ensures lvl >= s.level ==> r.0.sink == s.sink + r.0.buf && |r.0.buf| > |r.1|
    ensures lvl >= s.level && args == [] ==> r.1 == format
  {
    if lvl < s.level then (s, "")
    else
      var msg := FormatMessage(format, args, env.sprintf);
      (WriteEffect(s, lvl, msg, env), msg)
  }

  function LogcEffect(s: LogState, lvl: int, c: Closure, env: CallEnv): (r: (LogState, string))
    requires IsLevel(lvl)
    ensures r.0.level == s.level
    ensures lvl < s.level ==> r == (s, "")
    ensures lvl >= s.level ==> r.0.sink == s.sink + r.0.buf && r.1 == c.Text()
  {
    if lvl < s.level then (s, "") else (WriteEffect(s, lvl, c.Text(), env), c.Text())
  }

  /** The first argument of Trace, ..., Critical: a format string, a deferred
      message closure, or any other value (given by its fmt.Sprint text). */
  datatype Message = Format(format: string) | Deferred(closure: Closure) | Value(text: string)

  /** The type switch shared by Trace, Debug, Info, Warn, Error and Critical. */
  function EmitEffect(s: LogState, lvl: int, m: Message, args: seq<string>, env: CallEnv): (r: (LogState, string))
    requires IsLevel(lvl)
    ensures r.0.level == s.level
    ensures lvl < s.level ==> r == (s, "")
    ensures lvl >= s.level ==> r.0.sink == s.sink + r.0.buf && |r.0.buf| > |r.1|
  {
    match m
    case Format(f) => LogfEffect(s, lvl, f, args, env)
    case Deferred(c) => LogcEffect(s, lvl, c, env)
    case Value(t) => LogfEffect(s, lvl, t + Repeat(" %v", |args|), args, env)
  }

  function CriticalEffect(s: LogState, m: Message, args: seq<string>, env: CallEnv): (r: (LogState, Outcome))
    ensures r.1.Panic?
    ensures r.0.level == s.level
    ensures CRITICAL < s.level ==> r == (s, Panic(""))
  {
    var (s', msg) := EmitEffect(s, CRITICAL, m, args, env);
    (s', Panic(msg))
  }

  /** What one log call does to the logger: below the minimum level nothing
      changes and the result is ""; otherwise the buffer holds exactly the new
      line, whose message part is the returned string, and the sink gains that
      line and keeps everything it had. */
  lemma EmitWrites(s: LogState, lvl: int, m: Message, args: seq<string>, env: CallEnv)
    requires IsLevel(lvl)
    ensures var (s', msg) := EmitEffect(s, lvl, m, args, env);
      && s'.level == s.level
      && (lvl < s.level ==> s' == s && msg == "")
      && (lvl >= s.level && m.Format? && args == [] ==> msg == m.format)
      && (lvl >= s.level && m.Deferred? ==> msg == m.closure.Text())
      && (lvl >= s.level ==>
            var p := Prefix(lvl, env.now, env.pid, Site(env).file, Site(env).line);
            && s'.buf == Line(p, msg)
            && s'.buf[|p|..|p| + |msg|] == msg
            && s'.sink == s.sink + s'.buf)
  {
    var (s', msg) := EmitEffect(s, lvl, m, args, env);
    if lvl >= s.level {
      var p := Prefix(lvl, env.now, env.pid, Site(env).file, Site(env).line);
      assert s'.buf[..|p| + |msg|] == p + msg;
      assert s'.buf[|p|..|p| + |msg|] == (p + msg)[|p|..];
    }
  }

  /** Critical never returns normally: it panics with the logged message, or
      with "" when CRITICAL is filtered out. */
  lemma CriticalAlwaysPanics(s: LogState, m: Message, args: seq<string>, env: CallEnv)
    ensures var (s', o) := CriticalEffect(s, m, args, env);
      && o.Panic?
      && (CRITICAL < s.level ==> s' == s && o.value == "")
      && (CRITICAL >= s.level ==>
            && o.value == EmitEffect(s, CRITICAL, m, args, env).1
            && s'.sink == s.sink + s'.buf
            && (o.value != "" ==> s'.buf[|s'.buf| - 1] == '\n'))
  {
  }

  // --- the deferred message -------------------------------------------------

  /** The closure built by Closure(format, args...): it renders the message
      only when it is called. The ghost `calls` counts its invocations; the
      program keeps no such count. */
  class Closure {
    const format: string
    const args: seq<string>
    const sprintf: Formatter
    ghost var calls: nat

    constructor (format: string, args: seq<string>, sprintf: Formatter)
      ensures this.format == format && this.args == args && this.sprintf == sprintf
      ensures calls == 0
    {
      this.format := format;
      this.args := args;
      this.sprintf := sprintf;
      calls := 0;
    }

    /** Unlike logf, the closure always formats, even without arguments. */
    function Text(): string
    {
      sprintf(format, args)
    }

    method Call() returns (msg: string)
      modifies this`calls
      ensures msg == Text()
      ensures calls == old(calls) + 1
    {
      msg := sprintf(format, args);
      calls := calls + 1;
    }
  }

  // --- the logger -----------------------------------------------------------

  class Logger {
    var level: int
    var buf: string
    var sink: string
    const callDepth: int

    ghost function State(): LogState
      reads this
    {
      LogState(level, buf, sink)
    }

    /** NewLogger: the level is taken as given, without a range check. */
    constructor (lvl: int, callDepth: int)
      ensures State() == LogState(lvl, [], [])
      ensures this.callDepth == callDepth
    {
      level := lvl;
      buf := [];
      sink := [];
      this.callDepth := callDepth;
    }

    method GetLevel() returns (lvl: int)
      ensures lvl == level
    {
      lvl := level;
    }

    /** Out-of-range levels are ignored. */
    method SetLevel(lvl: int)
      modifies this`level
      ensures level == if IsLevel(lvl) then lvl else old(level)
      ensures IsLevel(old(level)) ==> IsLevel(level)
    {
      if lvl < TRACE || lvl > CRITICAL {
        return;
      }
      level := lvl;
    }

    method Trace(m: Message, args: seq<string>, env: CallEnv)
      modifies this`buf, this`sink, if m.Deferred? then {m.closure} else {}
      ensures State() == EmitEffect(old(State()), TRACE, m, args, env).0
      ensures m.Deferred? ==> m.closure.calls == old(m.closure.calls) + if TRACE < level then 0 else 1
    {
      var _ := Emit(TRACE, m, args, env);
    }

    method Debug(m: Message, args: seq<string>, env: CallEnv)
      modifies this`buf, this`sink, if m.Deferred? then {m.closure} else {}
      ensures State() == EmitEffect(old(State()), DEBUG, m, args, env).0
      ensures m.Deferred? ==> m.closure.calls == old(m.closure.calls) + if DEBUG < level then 0 else 1
    {
      var _ := Emit(DEBUG, m, args, env);
    }

    method Info(m: Message, args: seq<string>, env: CallEnv)
      modifies this`buf, this`sink, if m.Deferred? then {m.closure} else {}
      ensures State() == EmitEffect(old(State()), INFO, m, args, env).0
      ensures m.Deferred? ==> m.closure.calls == old(m.closure.calls) + if INFO < level then 0 else 1
    {
      var _ := Emit(INFO, m, args, env);
    }

    method Warn(m: Message, args: seq<string>, env: CallEnv)
      modifies this`buf, this`sink, if m.Deferred? then {m.closure} else {}
      ensures State() == EmitEffect(old(State()), WARN, m, args, env).0
      ensures m.Deferred? ==> m.closure.calls == old(m.closure.calls) + if WARN < level then 0 else 1
    {
      var _ := Emit(WARN, m, args, env);
    }

    method Error(m: Message, args: seq<string>, env: CallEnv)
      modifies this`buf, this`sink, if m.Deferred? then {m.closure} else {}
      ensures State() == EmitEffect(old(State()), ERROR, m, args, env).0
      ensures m.Deferred? ==> m.closure.calls == old(m.closure.calls) + if ERROR < level then 0 else 1
    {
      var _ := Emit(ERROR, m, args, env);
    }

    /** Logs at CRITICAL and then panics with what logf or logc returned. */
    method Critical(m: Message, args: seq<string>, env: CallEnv) returns (p: Outcome)
      modifies this`buf, this`sink, if m.Deferred? then {m.closure} else {}
      ensures (State(), p) == CriticalEffect(old(State()), m, args, env)
      ensures p.Panic?
      ensures m.Deferred? ==> m.closure.calls == old(m.closure.calls) + if CRITICAL < level then 0 else 1
    {
      var msg := Emit(CRITICAL, m, args, env);
      p := Panic(msg);
    }

    /** The type switch on the first argument. */
    method Emit(lvl: int, m: Message, args: seq<string>, env: CallEnv) returns (msg: string)
      requires IsLevel(lvl)
      modifies this`buf, this`sink, if m.Deferred? then {m.closure} else {}
      ensures (State(), msg) == EmitEffect(old(State()), lvl, m, args, env)
      ensures m.Deferred? ==> m.closure.calls == old(m.closure.calls) + if lvl < level then 0 else 1
    {
      match m
      case Format(f) =>
        msg := Logf(lvl, f, args, env);
      case Deferred(c) =>
        msg := Logc(lvl, c, env);
      case Value(t) =>
        msg := Logf(lvl, t + Repeat(" %v", |args|), args, env);
    }

    /** Filters first, then formats (only when there are arguments), then
        writes; returns the message written, or "" when filtered. */
    method Logf(lvl: int, format: string, args: seq<string>, env: CallEnv) returns (msg: string)
      requires IsLevel(lvl)
      modifies this`buf, this`sink
      ensures (State(), msg) == LogfEffect(old(State()), lvl, format, args, env)
    {
      if lvl < level {
        return "";
      }
      var file, line := "???", 0;
      if env.caller.Some? {
        file, line := env.caller.value.file, env.caller.value.line;
      }
      msg := format;
      if |args| > 0 {
        msg := env.sprintf(format, args);
      }
      Write(lvl, env.now, env.pid, file, line, msg);
    }

    /** Like Logf, but the message comes from the closure, which is not
        called at all when the level is filtered out. */
    method Logc(lvl: int, c: Closure, env: CallEnv) returns (msg: string)
      requires IsLevel(lvl)
      modifies this`buf, this`sink, c`calls
      ensures (State(), msg) == LogcEffect(old(State()), lvl, c, env)
      ensures c.calls == old(c.calls) + if lvl < level then 0 else 1
    {
      if lvl < level {
        return "";
      }
      var file, line := "???", 0;
      if env.caller.Some? {
        file, line := env.caller.value.file, env.caller.value.line;
      }
      msg := c.Call();
      Write(lvl, env.now, env.pid, file, line, msg);
    }

    /** Resets the buffer, composes one line in it and hands it to the sink. */
    method Write(lvl: int, now: string, pid: int, file: string, line: int, msg: string)
      requires IsLevel(lvl)
      modifies this`buf, this`sink
      ensures buf == Line(Prefix(lvl, now, pid, file, line), msg)
      ensures sink == old(sink) + buf
    {
      ghost var prefix := Prefix(lvl, now, pid, file, line);
      buf := [];
      FmtPrefix(lvl, now, pid, file, line);
      assert buf == prefix;
      buf := buf + msg;
      if |msg| > 0 && msg[|msg| - 1] != '\n' {
        buf := buf + "\n";
      }
      assert buf == Line(prefix, msg);
      sink := sink + buf;
    }

    method FmtPrefix(lvl: int, now: string, pid: int, file: string, line: int)
      requires IsLevel(lvl)
      modifies this`buf
      ensures buf == old(buf) + Prefix(lvl, now, pid, file, line)
    {
      var short := FileBasename(file);
      var hdr := LevelLetters[lvl] + " [" + now + " " + FormatInt(pid) + "] (" + short
        + ":" + FormatInt(line) + ") ";
      buf := buf + hdr;
    }

    /** Scans backwards from the end for a '/', stopping before index 0. */
    method FileBasename(file: string) returns (short: string)
      ensures short == Basename(file)
    {
      short := file;
      var i := |file| - 1;
      while i > 0
        invariant -1 <= i < |file|
        invariant LastSlash(file, |file|) == LastSlash(file, i + 1)
        invariant short == file
      {
        if file[i] == '/' {
          short := file[i + 1..];
          break;
        }
        i := i - 1;
      }
    }
  }
}
