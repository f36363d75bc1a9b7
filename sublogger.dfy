/**
 * The Sublogger tree and its logging facade. A Sublogger is a view on one
 * shared top-level logger (a BasicLogger) with its own module path and default
 * level; every logging call on it becomes exactly one Raw(level, module,
 * message) call on the top-level logger. Here the top-level logger records
 * those calls in a trace; what Raw then does with them is modelled in
 * module Logging.
 */
module Subloggers {
  import opened Wrappers
  import opened Levels
  import opened Text

  /** One Raw(level, modulePath, message) call received by the top-level logger. */
  datatype Event = Event(level: Level, modulePath: string, message: string)

  /** What a Sublogger's `parent` (of Go interface type Logger) refers to. */
  datatype Parent = NoParent | TopParent(top: BasicLogger) | SubParent(sub: Sublogger)

  /** The module path of a child made by Sublogger.Sub: the parent's path, "/", then the segments joined by "/". */
  function ChildModule(parentModule: string, segments: seq<string>): (r: string)
    ensures |r| > |parentModule|
    ensures r[..|parentModule| + 1] == parentModule + "/"
    ensures r[|parentModule| + 1..] == Join(segments, "/")
  {
    parentModule + "/" + Join(segments, "/")
  }

  /** Sub(a).Sub(b) on a Sublogger names the same module as Sub(a..., b...) for non-empty segment lists. */
  lemma ChildOfChild(m: string, xs: seq<string>, ys: seq<string>)
    requires xs != [] && ys != []
    ensures ChildModule(ChildModule(m, xs), ys) == ChildModule(m, xs + ys)
  {
    JoinConcat(xs, ys, "/");
  }

  /** Sub(a) on the top-level logger followed by Sub(b) names the module Sub(a..., b...) names on the top-level logger. */
  lemma TopChildThenChild(xs: seq<string>, ys: seq<string>)
    requires xs != [] && ys != []
    ensures ChildModule(Join(xs, "/"), ys) == Join(xs + ys, "/")
  {
    JoinConcat(xs, ys, "/");
  }

  /** The top-level logger: the shared sink that every Sublogger dispatches to. */
  class BasicLogger {
    /** Every Raw call received so far, oldest first. */
    var trace: seq<Event>
    /** The embedded root Sublogger, through which BasicLogger answers WithDefaultLevel. */
    var root: Sublogger?

    /** A fresh top-level logger with an empty trace; its root view has an empty module and level Info. */
    constructor ()
      ensures trace == [] && root != null && fresh(root)
      ensures root.topLevel == this && root.parent == NoParent
      ensures root.Module == "" && root.DefaultLevel == LevelInfo
    {
      trace := [];
      root := null;
      new;
      root := new Sublogger(this, NoParent, "", LevelInfo);
    }

    /** The dispatch primitive: records one event. */
    method Raw(level: Level, modulePath: string, message: string)
      modifies this`trace
      ensures trace == old(trace) + [Event(level, modulePath, message)]
    {
      trace := trace + [Event(level, modulePath, message)];
    }

    /** A child view whose module is the segments joined by "/" (no leading "/"), at level Info. */
    method Sub(segments: seq<string>) returns (s: Sublogger)
      ensures fresh(s)
      ensures s.topLevel == this && s.parent == TopParent(this)
      ensures s.Module == Join(segments, "/") && s.DefaultLevel == LevelInfo
    {
      s := new Sublogger(this, TopParent(this), Join(segments, "/"), LevelInfo);
    }

    /** Delegates to the root view's WithDefaultLevel. */
    method WithDefaultLevel(lvl: Level) returns (s: Sublogger)
      requires root != null
      ensures fresh(s)
      ensures s.topLevel == root.topLevel && s.parent == root.parent
      ensures s.Module == root.Module && s.DefaultLevel == lvl
    {
      s := root.WithDefaultLevel(lvl);
    }
  }

  /** A view on a shared top-level logger with its own module path and default level. */
  class Sublogger {
    var topLevel: BasicLogger
    var parent: Parent
    var Module: string
    var DefaultLevel: Level

    /** The Go struct literal &Sublogger{...}. */
    constructor (topLevel: BasicLogger, parent: Parent, modulePath: string, defaultLevel: Level)
      ensures this.topLevel == topLevel && this.parent == parent
      ensures Module == modulePath && DefaultLevel == defaultLevel
    {
      this.topLevel := topLevel;
      this.parent := parent;
      Module := modulePath;
      DefaultLevel := defaultLevel;
    }

    method GetParent() returns (p: Parent)
      ensures p == parent
    {
      p := parent;
    }

    /** A child view: same top-level logger and default level, this view as parent, the module extended by the segments. */
    method Sub(segments: seq<string>) returns (s: Sublogger)
      ensures fresh(s)
      ensures s.topLevel == topLevel && s.parent == SubParent(this)
      ensures s.Module == ChildModule(Module, segments) && s.DefaultLevel == DefaultLevel
    {
      s := new Sublogger(topLevel, SubParent(this), ChildModule(Module, segments), DefaultLevel);
    }

    /** A sibling view: everything as in this view except the default level; this view is untouched. */
    method WithDefaultLevel(lvl: Level) returns (s: Sublogger)
      ensures fresh(s)
      ensures s.topLevel == topLevel && s.parent == parent
      ensures s.Module == Module && s.DefaultLevel == lvl
    {
      s := new Sublogger(topLevel, parent, Module, lvl);
    }

    method SetModule(mod: string)
      modifies this`Module
      ensures Module == mod
      ensures topLevel == old(topLevel) && parent == old(parent) && DefaultLevel == old(DefaultLevel)
    {
      Module := mod;
    }

    method SetDefaultLevel(lvl: Level)
      modifies this`DefaultLevel
      ensures DefaultLevel == lvl
      ensures topLevel == old(topLevel) && parent == old(parent) && Module == old(Module)
    {
      DefaultLevel := lvl;
    }

    /** Despite its name, replaces the top-level logger and leaves `parent` as it was. */
    method SetParent(p: BasicLogger)
      modifies this`topLevel
      ensures topLevel == p
      ensures parent == old(parent) && Module == old(Module) && DefaultLevel == old(DefaultLevel)
    {
      topLevel := p;
    }

    /** io.Writer: logs the bytes at the default level under this view's module and reports them all written. */
    method Write(p: string) returns (n: int, err: Option<string>)
      modifies topLevel`trace
      ensures topLevel.trace == old(topLevel.trace) + [Event(DefaultLevel, Module, p)]
      ensures n == |p| && err == None
    {
      topLevel.Raw(DefaultLevel, Module, p);
      n, err := |p|, None;
    }

    /** Logs at the given level with an EMPTY module, whatever this view's module is. */
    method Log(level: Level, parts: seq<Value>)
      modifies topLevel`trace
      ensures topLevel.trace == old(topLevel.trace) + [Event(level, "", Sprintln(parts))]
    {
      topLevel.Raw(level, "", Sprintln(parts));
    }

    /** Logs at the given level with an EMPTY module; the format gets no newline added. */
    method Logf(level: Level, message: string, args: seq<Value>)
      modifies topLevel`trace
      ensures topLevel.trace == old(topLevel.trace) + [Event(level, "", Sprintf(message, args))]
    {
      topLevel.Raw(level, "", Sprintf(message, args));
    }

    method Debug(parts: seq<Value>)
      modifies topLevel`trace
      ensures topLevel.trace == old(topLevel.trace) + [Event(LevelDebug, Module, Sprintln(parts))]
    {
      topLevel.Raw(LevelDebug, Module, Sprintln(parts));
    }

    method Debugf(message: string, args: seq<Value>)
      modifies topLevel`trace
      ensures topLevel.trace == old(topLevel.trace) + [Event(LevelDebug, Module, Sprintf(message + "\n", args))]
    {
      topLevel.Raw(LevelDebug, Module, Sprintf(message + "\n", args));
    }

    method Info(parts: seq<Value>)
      modifies topLevel`trace
      ensures topLevel.trace == old(topLevel.trace) + [Event(LevelInfo, Module, Sprintln(parts))]
    {
      topLevel.Raw(LevelInfo, Module, Sprintln(parts));
    }

    method Infof(message: string, args: seq<Value>)
      modifies topLevel`trace
      ensures topLevel.trace == old(topLevel.trace) + [Event(LevelInfo, Module, Sprintf(message + "\n", args))]
    {
      topLevel.Raw(LevelInfo, Module, Sprintf(message + "\n", args));
    }

    method Warn(parts: seq<Value>)
      modifies topLevel`trace
      ensures topLevel.trace == old(topLevel.trace) + [Event(LevelWarn, Module, Sprintln(parts))]
    {
      topLevel.Raw(LevelWarn, Module, Sprintln(parts));
    }

    method Warnf(message: string, args: seq<Value>)
      modifies topLevel`trace
      ensures topLevel.trace == old(topLevel.trace) + [Event(LevelWarn, Module, Sprintf(message + "\n", args))]
    {
      topLevel.Raw(LevelWarn, Module, Sprintf(message + "\n", args));
    }

    method Error(parts: seq<Value>)
      modifies topLevel`trace
      ensures topLevel.trace == old(topLevel.trace) + [Event(LevelError, Module, Sprintln(parts))]
    {
      topLevel.Raw(LevelError, Module, Sprintln(parts));
    }

    method Errorf(message: string, args: seq<Value>)
      modifies topLevel`trace
      ensures topLevel.trace == old(topLevel.trace) + [Event(LevelError, Module, Sprintf(message + "\n", args))]
    {
      topLevel.Raw(LevelError, Module, Sprintf(message + "\n", args));
    }

    /** Only dispatches at level Fatal: the process is not stopped. */
    method Fatal(parts: seq<Value>)
      modifies topLevel`trace
      ensures topLevel.trace == old(topLevel.trace) + [Event(LevelFatal, Module, Sprintln(parts))]
    {
      topLevel.Raw(LevelFatal, Module, Sprintln(parts));
    }

    /** Only dispatches at level Fatal: the process is not stopped. */
    method Fatalf(message: string, args: seq<Value>)
      modifies topLevel`trace
      ensures topLevel.trace == old(topLevel.trace) + [Event(LevelFatal, Module, Sprintf(message + "\n", args))]
    {
      topLevel.Raw(LevelFatal, Module, Sprintf(message + "\n", args));
    }
  }

  /** Sub("auth").Sub("login").Error(...) on a fresh top-level logger dispatches one event under "auth/login". */
  method NestedErrorScenario(parts: seq<Value>) returns (top: BasicLogger)
    ensures fresh(top)
    ensures top.trace == [Event(LevelError, "auth/login", Sprintln(parts))]
  {
    top := new BasicLogger();
    var auth := top.Sub(["auth"]);
    var login := auth.Sub(["login"]);
    assert login.Module == "auth/login";
    login.Error(parts);
  }
}
