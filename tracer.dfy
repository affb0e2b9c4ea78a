/** The C++ class `Tracer` (Tracer.h, cpp/Tracer.cpp).

    The class's static members (the environment cache and the serial counter)
    live in one `TraceContext` object shared by every handle, together with
    the lines written to stderr so far. Each `Tracer` object is one handle;
    its destructor is the explicit method `Close`. Formatted messages arrive
    already rendered. */
module CppTracer {

  import opened Optional
  import opened CNumber
  import opened Sequences
  import opened Filter

  /** The cached environment: `Tracer::grpenv`, `Tracer::tracelevel`, `Tracer::onlyflag`. */
  datatype EnvCache = EnvCache(grpenv: Option<string>, tracelevel: int, onlyflag: bool)

  /** The values the statics start with, before the environment is read. */
  const InitialCache := EnvCache(None, 0, false)

  /** TRACEONLY switches on exact mode when it is exactly "TRUE" or "true". */
  function OnlyFlagAccepted(traceOnly: Option<string>): (r: bool)
    ensures r <==> traceOnly in {Some("TRUE"), Some("true")}
  {
    traceOnly.Some? && (traceOnly.value == "TRUE" || traceOnly.value == "true")
  }

  /** The cache once `CheckEnvironment` has run over the initial values:
      TRACEGROUP as it is, TRACELEVEL through `atoi` (0 when unset), and the only-flag. */
  function CheckedCache(env: Environment): EnvCache
  {
    EnvCache(env.traceGroup,
             if env.traceLevel.Some? then Atoi(env.traceLevel.value) else InitialCache.tracelevel,
             OnlyFlagAccepted(env.traceOnly) || InitialCache.onlyflag)
  }

  /** A TRACELEVEL that spells out a number, as `%d` would print it, is read
      back as that number. */
  lemma TraceLevelReadsBack(env: Environment, n: int)
    requires env.traceLevel == Some(IntToString(n))
    ensures CheckedCache(env).tracelevel == n
  {
    AtoiOfIntToString(n, "");
    assert IntToString(n) + "" == IntToString(n);
  }

  /** What `CheckEnvironment` leaves in the cache: TRACEGROUP as it is, the
      level 0 when TRACELEVEL is unset, and exact mode exactly for "TRUE" and "true". */
  lemma CheckedCacheFields(env: Environment)
    ensures CheckedCache(env).grpenv == env.traceGroup
    ensures env.traceLevel.None? ==> CheckedCache(env).tracelevel == 0
    ensures env.traceLevel.Some? ==> CheckedCache(env).tracelevel == Atoi(env.traceLevel.value)
    ensures CheckedCache(env).onlyflag <==> env.traceOnly == Some("TRUE") || env.traceOnly == Some("true")
  {
  }

  /** Other spellings leave the default mode in place: the comparison is exact. */
  lemma OtherOnlyValuesIgnored(env: Environment)
    requires env.traceOnly in {Some("True"), Some("1"), Some("TRUE "), Some("")}
    ensures !CheckedCache(env).onlyflag
  {
    assert "True"[1] != "TRUE"[1] && "True"[0] != "true"[0];
    assert "1"[0] != "TRUE"[0] && "1"[0] != "true"[0];
  }

  /** The filter decision taken by the constructor against a cache. */
  function Passes(cache: EnvCache, group: Option<string>, level: int): bool
  {
    Enabled(group, level, cache.grpenv, cache.tracelevel, cache.onlyflag)
  }

  /** `serial = ++tracecount` when the filter passes, otherwise serial 0 and
      the counter untouched: the pair (serial, new counter). */
  function Allocate(tracecount: nat, enabled: bool): (r: (nat, nat))
    ensures r.0 != 0 <==> enabled
    ensures enabled ==> r.0 == r.1
    ensures r.1 == tracecount + (if enabled then 1 else 0)
  {
    if enabled then (tracecount + 1, tracecount + 1) else (0, tracecount)
  }

  /** The serials drawn by a run of constructions whose filter decisions are
      `decisions`, starting from counter `tracecount`. */
  function Serials(tracecount: nat, decisions: seq<bool>): (r: seq<nat>)
    decreases |decisions|
    ensures |r| == |decisions|
  {
    if decisions == [] then []
    else
      var (serial, next) := Allocate(tracecount, decisions[0]);
      [serial] + Serials(next, decisions[1..])
  }

  /** How many of `decisions` passed the filter. */
  function CountPassed(decisions: seq<bool>): nat
  {
    if decisions == [] then 0 else (if decisions[0] then 1 else 0) + CountPassed(decisions[1..])
  }

  /** The k-th handle of a run gets serial 0 if its filter failed, and
      otherwise the starting counter plus the number of handles up to and
      including it that passed. */
  lemma {:induction false} SerialsNumberPassedHandles(tracecount: nat, decisions: seq<bool>)
    decreases |decisions|
    ensures |Serials(tracecount, decisions)| == |decisions|
    ensures forall k :: 0 <= k < |decisions| ==>
      Serials(tracecount, decisions)[k] == if decisions[k] then tracecount + CountPassed(decisions[..k + 1]) else 0
  {
    if decisions != [] {
      var (serial, next) := Allocate(tracecount, decisions[0]);
      var rest := decisions[1..];
      SerialsNumberPassedHandles(next, rest);
      forall k | 0 <= k < |decisions|
        ensures Serials(tracecount, decisions)[k] == if decisions[k] then tracecount + CountPassed(decisions[..k + 1]) else 0
      {
        if k > 0 {
          assert decisions[..k + 1][1..] == rest[..k];
          assert decisions[k] == rest[k - 1];
        }
      }
    }
  }

  lemma {:induction false} CountPassedGrows(decisions: seq<bool>, i: nat, j: nat)
    requires i <= j <= |decisions|
    requires i < j && decisions[j - 1]
    ensures CountPassed(decisions[..i]) < CountPassed(decisions[..j])
  {
    if i == 0 {
      CountPassedLast(decisions[..j]);
      assert decisions[..j][..j - 1] == decisions[..j - 1];
    } else {
      assert decisions[..i][1..] == decisions[1..][..i - 1];
      assert decisions[..j][1..] == decisions[1..][..j - 1];
      CountPassedGrows(decisions[1..], i - 1, j - 1);
    }
  }

  lemma {:induction false} CountPassedLast(decisions: seq<bool>)
    requires decisions != [] && decisions[|decisions| - 1]
    ensures CountPassed(decisions) > 0
  {
    if |decisions| > 1 {
      CountPassedLast(decisions[1..]);
    }
  }

  /** Nonzero serials never repeat and grow strictly in construction order,
      and each one is above the counter the run started from. */
  lemma SerialsUniqueAndIncreasing(tracecount: nat, decisions: seq<bool>)
    ensures var s := Serials(tracecount, decisions);
      |s| == |decisions|
      && (forall k :: 0 <= k < |s| ==> (s[k] != 0 <==> decisions[k]) && (s[k] != 0 ==> s[k] > tracecount))
      && (forall i, j :: 0 <= i < j < |s| && s[i] != 0 && s[j] != 0 ==> s[i] < s[j])
  {
    SerialsNumberPassedHandles(tracecount, decisions);
    var s := Serials(tracecount, decisions);
    forall k | 0 <= k < |s| && decisions[k] ensures s[k] > tracecount {
      CountPassedGrows(decisions, 0, k + 1);
    }
    forall i, j | 0 <= i < j < |s| && s[i] != 0 && s[j] != 0 ensures s[i] < s[j] {
      CountPassedGrows(decisions, i + 1, j + 1);
    }
  }

  /** One line a handle writes to stderr: a message line (from the
      constructor or `Print`) or the destructor's exit line. */
  datatype Line = Message(serial: int, group: string, level: int, text: string) | Exit(serial: int, group: string, level: int)

  /** What a line ends with: the message, or "-exit-" for the exit line. */
  function TextOf(line: Line): string
  {
    if line.Message? then line.text else "-exit-"
  }

  /** The text of a line: `"Tracer: [%d][%s, %d] "` with serial, group and
      level, then the message (or "-exit-"), then the newline. */
  function Render(line: Line): (r: string)
    ensures "Tracer: [" < r && r[|r| - 1] == '\n'
  {
    "Tracer: [" + (IntToString(line.serial) + ("][" + (line.group
      + (", " + (IntToString(line.level) + ("] " + (TextOf(line) + "\n")))))))
  }

  /** The serial a reader of the output finds in a line: the number after "Tracer: [". */
  function SerialOf(line: string): int
  {
    if |line| < 9 then 0 else Atoi(line[9..])
  }

  /** Every line a handle writes carries its own serial, readable back from
      the text, which is what lets interleaved lines be told apart. */
  lemma SerialReadsBack(line: Line)
    ensures SerialOf(Render(line)) == line.serial
  {
    var rest := "][" + (line.group + (", " + (IntToString(line.level) + ("] " + (TextOf(line) + "\n")))));
    var head := "Tracer: [";
    DropPrefix(head, IntToString(line.serial) + rest);
    AtoiOfIntToString(line.serial, rest);
  }

  /** Where the group starts in a rendered line: after "Tracer: [", the serial and "][". */
  function GroupStart(line: Line): nat
  {
    9 + |IntToString(line.serial)| + 2
  }

  /** Where the level starts: after the group and ", ". */
  function LevelStart(line: Line): nat
  {
    GroupStart(line) + |line.group| + 2
  }

  /** The group of a line stands between "][" and ", ". */
  lemma GroupReadsBack(line: Line)
    ensures LevelStart(line) <= |Render(line)|
    ensures Render(line)[GroupStart(line) - 2..GroupStart(line)] == "]["
    ensures Render(line)[GroupStart(line)..LevelStart(line) - 2] == line.group
    ensures Render(line)[LevelStart(line) - 2..LevelStart(line)] == ", "
  {
    var r := Render(line);
    var g, k := GroupStart(line), LevelStart(line);
    PiecesAt("Tracer: [", IntToString(line.serial), "][", line.group, ", ",
      IntToString(line.level) + ("] " + (TextOf(line) + "\n")));
    assert r[g - 2..g] == "][";
    assert r[g..k - 2] == line.group;
  }

  /** What follows the group and ", ": the level, "] ", the text and the newline. */
  lemma AfterGroup(line: Line)
    ensures LevelStart(line) <= |Render(line)|
    ensures Render(line)[LevelStart(line)..]
         == IntToString(line.level) + ("] " + (TextOf(line) + "\n"))
  {
    PiecesAt("Tracer: [", IntToString(line.serial), "][", line.group, ", ",
      IntToString(line.level) + ("] " + (TextOf(line) + "\n")));
  }

  /** The level written after the group reads back as the line's level. */
  lemma LevelReadsBack(line: Line)
    ensures LevelStart(line) <= |Render(line)|
    ensures Atoi(Render(line)[LevelStart(line)..]) == line.level
  {
    AfterGroup(line);
    AtoiOfIntToString(line.level, "] " + (TextOf(line) + "\n"));
  }

  /** Where the text starts: after the level and "] ". */
  function TextStart(line: Line): nat
  {
    LevelStart(line) + |IntToString(line.level)| + 2
  }

  /** The level is closed by "] ", and the message (or "-exit-") and the
      newline end the line. */
  lemma TextEndsLine(line: Line)
    ensures TextStart(line) <= |Render(line)|
    ensures Render(line)[TextStart(line) - 2..TextStart(line)] == "] "
    ensures Render(line)[TextStart(line)..] == TextOf(line) + "\n"
  {
    TailAt("Tracer: [", IntToString(line.serial), "][", line.group, ", ",
      IntToString(line.level), "] ", TextOf(line) + "\n");
  }

  /** The static state of class `Tracer`, shared by all its instances. */
  class TraceContext {
    /** The process environment, as `getenv` would see it. */
    const env: Environment

    var envchecked: bool
    var grpenv: Option<string>
    var tracelevel: int
    var onlyflag: bool
    /** `unsigned tracecount`, the source of serial numbers. */
    var tracecount: nat
    /** Every line written to stderr, in order. */
    var stderr: seq<Line>
    /** How many times the environment has been read. */
    ghost var envReads: nat

    function Cache(): EnvCache
      reads this
    {
      EnvCache(grpenv, tracelevel, onlyflag)
    }

    /** Until the environment is checked the cache holds its initial values
        and the environment has not been read; afterwards it holds what the
        environment gave, and the environment has been read exactly once. */
    ghost predicate Valid()
      reads this
    {
      && Cache() == (if envchecked then CheckedCache(env) else InitialCache)
      && envReads == if envchecked then 1 else 0
    }

    /** The statics at program start. */
    constructor (env: Environment)
      ensures Valid() && this.env == env
      ensures !envchecked && Cache() == InitialCache && tracecount == 0 && stderr == [] && envReads == 0
    {
      this.env := env;
      envchecked := false;
      grpenv := None;
      tracelevel := 0;
      onlyflag := false;
      tracecount := 0;
      stderr := [];
      envReads := 0;
    }

    /** `Tracer::CheckEnvironment`: TRACEGROUP is stored as it is; TRACELEVEL,
        when set, through `atoi`; the only-flag is raised by "TRUE" or "true".
        An unset TRACELEVEL or another TRACEONLY leaves the old value. */
    method CheckEnvironment()
      modifies this`grpenv, this`tracelevel, this`onlyflag, this`envReads
      ensures envReads == old(envReads) + 1
      ensures grpenv == env.traceGroup
      ensures tracelevel == if env.traceLevel.Some? then Atoi(env.traceLevel.value) else old(tracelevel)
      ensures onlyflag == (OnlyFlagAccepted(env.traceOnly) || old(onlyflag))
    {
      envReads := envReads + 1;
      grpenv := env.traceGroup;
      var levenv := env.traceLevel;
      var onlyenv := env.traceOnly;
      if levenv.Some? {
        tracelevel := Atoi(levenv.value);
      }
      if onlyenv.Some? {
        if onlyenv.value == "TRUE" || onlyenv.value == "true" {
          onlyflag := true;
        }
      }
    }
  }

  /** One `Tracer` object. */
  class Tracer {
    const ctx: TraceContext
    /** The copy of the group name; `None` for a null group. */
    const group: Option<string>
    const level: int
    /** Nonzero exactly when this handle prints; then it is its unique number. */
    var serial: nat
    /** How many `Print` calls have written a line. */
    var usecount: nat
    /** The object has not been destroyed yet. */
    ghost var alive: bool

    ghost predicate Valid()
      reads this
    {
      serial != 0 ==> group.Some?
    }

    /** `Tracer::Tracer`: read the environment on first use, decide once
        whether this handle prints, draw a serial if it does (whatever
        `condition` is), and write the opening line if `condition` holds too. */
    constructor (ctx: TraceContext, condition: bool, aGroup: Option<string>, aLevel: int, message: string)
      requires ctx.Valid()
      modifies ctx
      ensures Valid() && alive && this.ctx == ctx
      ensures group == aGroup && level == aLevel && usecount == 0
      ensures ctx.Valid() && ctx.envchecked && ctx.envReads == 1
      ensures old(ctx.envchecked) ==> ctx.Cache() == old(ctx.Cache()) && ctx.envReads == old(ctx.envReads)
      ensures var enabled := Passes(CheckedCache(ctx.env), aGroup, aLevel);
        (serial, ctx.tracecount) == Allocate(old(ctx.tracecount), enabled)
        && ctx.stderr == old(ctx.stderr) + if enabled && condition then [Message(serial, aGroup.value, aLevel, message)] else []
    {
      this.ctx := ctx;
      group := aGroup;
      level := aLevel;
      serial := 0;
      usecount := 0;
      alive := true;
      new;
      if !ctx.envchecked {
        ctx.envchecked := true;
        ctx.CheckEnvironment();
      }
      if group.Some? && ctx.grpenv.Some? {
        if GroupListed(ctx.grpenv.value, group.value) {
          if (ctx.onlyflag && level == ctx.tracelevel) || (!ctx.onlyflag && level <= ctx.tracelevel) {
            ctx.tracecount := ctx.tracecount + 1;
            serial := ctx.tracecount;
            if condition {
              ctx.stderr := ctx.stderr + [Message(serial, group.value, level, message)];
            }
          }
        }
      }
    }

    /** `Tracer::Print`: a line and one more use when `condition` holds and
        the handle prints; otherwise nothing. The filter is not consulted again. */
    method Print(condition: bool, message: string)
      requires Valid() && alive
      modifies this`usecount, ctx`stderr
      ensures Valid()
      ensures usecount == old(usecount) + if condition && serial != 0 then 1 else 0
      ensures ctx.stderr == old(ctx.stderr) + if condition && serial != 0 then [Message(serial, group.value, level, message)] else []
    {
      if condition && serial != 0 {
        ctx.stderr := ctx.stderr + [Message(serial, group.value, level, message)];
        usecount := usecount + 1;
      }
    }

    /** `Tracer::~Tracer`: the exit line, only for a handle that prints and
        whose `Print` wrote at least once. */
    method Close()
      requires Valid() && alive
      modifies this`alive, ctx`stderr
      ensures !alive
      ensures ctx.stderr == old(ctx.stderr) + if serial != 0 && usecount > 0 then [Exit(serial, group.value, level)] else []
    {
      if serial != 0 && usecount > 0 {
        ctx.stderr := ctx.stderr + [Exit(serial, group.value, level)];
      }
      alive := false;
    }
  }
}
