/** The C function `trace()` (c/trace.c): the same filter as the C++ class,
    but stateless apart from its function-static copy of the environment, and
    with its own edge behaviour: an unset TRACELEVEL switches it off, only
    "TRUE" selects exact mode, and TRACELEVEL is parsed again on every call.
    The static locals live in a `TraceState` object, with the lines written
    to stderr so far. */
module CTrace {

  import opened Optional
  import opened CString
  import opened CNumber
  import opened Filter
  import opened Sequences
  import CppTracer

  /** The static locals `grpenv`, `levenv` and `onlyflag`. TRACELEVEL is kept
      as text and only parsed when a call needs it. */
  datatype CCache = CCache(grpenv: Option<string>, levenv: Option<string>, onlyflag: bool)

  /** Their values before the first call. */
  const Unchecked := CCache(None, None, false)

  /** TRACEONLY selects exact mode only when it is exactly "TRUE". */
  function OnlyFlagExact(traceOnly: Option<string>): (r: bool)
    ensures r <==> traceOnly == Some("TRUE")
  {
    traceOnly.Some? && traceOnly.value == "TRUE"
  }

  /** The static locals after the first call has read the environment. */
  function CheckedCCache(env: Environment): CCache
  {
    CCache(env.traceGroup, env.traceLevel, OnlyFlagExact(env.traceOnly) || Unchecked.onlyflag)
  }

  /** Whether a call writes its line: all three pointers non-null, a nonzero
      condition, the group listed, and the level passing against `atoi` of
      the TRACELEVEL text. */
  function Prints(cache: CCache, condition: int, group: Option<string>, level: int): (r: bool)
    ensures r ==> condition != 0 && group.Some? && cache.grpenv.Some? && cache.levenv.Some?
    ensures r ==> Contains(cache.grpenv.value, group.value) || Contains(cache.grpenv.value, "ALL")
    ensures r ==> level <= Atoi(cache.levenv.value)
  {
    && group.Some? && cache.grpenv.Some? && cache.levenv.Some?
    && condition != 0
    && GroupListed(cache.grpenv.value, group.value)
    && LevelPasses(cache.onlyflag, level, Atoi(cache.levenv.value))
  }

  /** One line written by `trace()`. */
  datatype TraceLine = TraceLine(group: string, level: int, text: string)

  /** Its text: `"Trace: [%s, %d] "` with group and level, the message, and the newline. */
  function Render(line: TraceLine): (r: string)
    ensures |r| > 8 && r[..8] == "Trace: [" && r[|r| - 1] == '\n'
  {
    var r := "Trace: [" + (line.group + (", " + (IntToString(line.level) + ("] " + (line.text + "\n")))));
    assert r[..8] == "Trace: [";
    r
  }

  /** Where the level starts in a rendered line: after "Trace: [", the group and ", ". */
  function LevelStart(line: TraceLine): nat
  {
    |"Trace: ["| + |line.group| + |", "|
  }

  /** Where the message starts: after the level and "] ". */
  function TextStart(line: TraceLine): nat
  {
    LevelStart(line) + |IntToString(line.level)| + |"] "|
  }

  /** The group stands right after "Trace: [" and before ", ", and the level
      written after it reads back as the line's level. */
  lemma FieldsReadBack(line: TraceLine)
    ensures LevelStart(line) <= |Render(line)|
    ensures Render(line)[|"Trace: ["|..LevelStart(line) - 2] == line.group
    ensures Render(line)[LevelStart(line) - 2..LevelStart(line)] == ", "
    ensures Atoi(Render(line)[LevelStart(line)..]) == line.level
  {
    var r := Render(line);
    var r4 := "] " + (line.text + "\n");
    var r3 := IntToString(line.level) + r4;
    var r2 := ", " + r3;
    var r1 := line.group + r2;
    assert r[0..] == "Trace: [" + r1;
    ReadPast(r, 0, "Trace: [", r1);
    ReadPast(r, 8, line.group, r2);
    ReadPast(r, 8 + |line.group|, ", ", r3);
    assert LevelStart(line) == 8 + |line.group| + 2;
    assert r[LevelStart(line)..] == r3;
    AtoiOfIntToString(line.level, r4);
  }

  /** After the level and "] " comes the message, and the line ends there
      with the newline. */
  lemma TextEndsLine(line: TraceLine)
    ensures TextStart(line) <= |Render(line)|
    ensures Render(line)[TextStart(line) - 2..TextStart(line)] == "] "
    ensures Render(line)[TextStart(line)..] == line.text + "\n"
  {
    var r := Render(line);
    var r5 := line.text + "\n";
    var r4 := "] " + r5;
    var r3 := IntToString(line.level) + r4;
    PiecesAt("Trace: [", line.group, ", ", IntToString(line.level), "] ", r5);
    var k := TextStart(line);
    assert k == 8 + |line.group| + 2 + |IntToString(line.level)| + 2;
    assert r[k - 2..k] == "] ";
    assert r[k..] == r5;
  }

  /** The decision in terms of the environment alone: a nonzero condition, a
      TRACELEVEL that is set, and the shared filter with TRACELEVEL through
      `atoi` and exact mode for "TRUE". */
  lemma PrintsIffEnabled(env: Environment, condition: int, group: Option<string>, level: int)
    ensures Prints(CheckedCCache(env), condition, group, level)
        <==> condition != 0 && env.traceLevel.Some?
             && Enabled(group, level, env.traceGroup, Atoi(env.traceLevel.value), OnlyFlagExact(env.traceOnly))
  {
  }

  /** With TRACELEVEL set and TRACEONLY other than "true", `trace()` with a
      nonzero condition prints exactly when a C++ handle for the same group
      and level would be enabled. */
  lemma FormsAgree(env: Environment, condition: int, group: Option<string>, level: int)
    requires env.traceLevel.Some? && env.traceOnly != Some("true") && condition != 0
    ensures Prints(CheckedCCache(env), condition, group, level)
        <==> CppTracer.Passes(CppTracer.CheckedCache(env), group, level)
  {
  }

  /** Where the forms part: with TRACELEVEL unset the C form never prints,
      while the C++ form reads the level as 0. */
  lemma UnsetLevelDiffers(env: Environment, condition: int, group: Option<string>, level: int)
    requires env.traceLevel.None?
    ensures !Prints(CheckedCCache(env), condition, group, level)
    ensures CppTracer.Passes(CppTracer.CheckedCache(env), group, level)
        <==> Enabled(group, level, env.traceGroup, 0, CppTracer.OnlyFlagAccepted(env.traceOnly))
  {
  }

  /** Where the forms part: TRACEONLY=true selects exact mode in C++ only. */
  lemma LowerCaseTrueDiffers(level: int, n: int)
    requires level < n
    ensures var env := Environment(Some("ALL"), Some(IntToString(n)), Some("true"));
      Prints(CheckedCCache(env), 1, Some("Us"), level)
      && !CppTracer.Passes(CppTracer.CheckedCache(env), Some("Us"), level)
  {
    AtoiOfIntToString(n, "");
    assert IntToString(n) + "" == IntToString(n);
    assert OccursAt("ALL", "ALL", 0);
    assert "true" != "TRUE" by {
      assert "true"[0] != "TRUE"[0];
    }
  }

  /** The function-static state of `trace()`. */
  class TraceState {
    /** The process environment, as `getenv` would see it. */
    const env: Environment

    var checked: bool
    var grpenv: Option<string>
    var levenv: Option<string>
    var onlyflag: bool
    /** Every line written to stderr, in order. */
    var stderr: seq<TraceLine>
    /** How many times the environment has been read. */
    ghost var envReads: nat

    function Cache(): CCache
      reads this
    {
      CCache(grpenv, levenv, onlyflag)
    }

    /** Before the first call the statics hold their initial values and the
        environment has not been read; from the first call on they hold what
        the environment gave, and the environment has been read exactly once. */
    ghost predicate Valid()
      reads this
    {
      && Cache() == (if checked then CheckedCCache(env) else Unchecked)
      && envReads == if checked then 1 else 0
    }

    /** The statics at program start. */
    constructor (env: Environment)
      ensures Valid() && this.env == env && !checked && stderr == [] && envReads == 0
    {
      this.env := env;
      checked := false;
      grpenv := None;
      levenv := None;
      onlyflag := false;
      stderr := [];
      envReads := 0;
    }

    /** `trace(condition, group, level, format, ...)`: read the environment
        on the first call only; write one line when the decision says so,
        and nothing otherwise. */
    method Trace(condition: int, group: Option<string>, level: int, message: string)
      requires Valid()
      modifies this
      ensures Valid() && checked && envReads == 1
      ensures old(checked) ==> Cache() == old(Cache()) && envReads == old(envReads)
      ensures stderr == old(stderr)
        + if Prints(CheckedCCache(env), condition, group, level) then [TraceLine(group.value, level, message)] else []
    {
      if !checked {
        checked := true;
        envReads := envReads + 1;
        grpenv := env.traceGroup;
        levenv := env.traceLevel;
        var onlyenv := env.traceOnly;
        if onlyenv.Some? {
          if onlyenv.value == "TRUE" {
            onlyflag := true;
          }
        }
      }
      if group.Some? && grpenv.Some? && levenv.Some? {
        if condition != 0 {
          if GroupListed(grpenv.value, group.value) {
            var tracelevel := Atoi(levenv.value);
            if (onlyflag && level == tracelevel) || (!onlyflag && level <= tracelevel) {
              stderr := stderr + [TraceLine(group.value, level, message)];
            }
          }
        }
      }
    }
  }
}
