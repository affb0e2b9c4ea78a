/** The call sites of cpp/example.cpp, restated as methods over the model,
    and the stderr output the program documents for three environments. */
module TracerExample {

  import opened Optional
  import opened CString
  import opened CNumber
  import opened Filter
  import opened CppTracer
  import opened Sequences

  /** The lines of `tt.Print(true, "Iteration %d", i)` for i below n. */
  function Iterations(serial: int, n: nat): seq<Line>
  {
    seq(n, i => Message(serial, "Foo", 10, "Iteration " + IntToString(i)))
  }

  /** A `Tracer(...)` statement: a temporary constructed and destroyed at
      once, so at most its opening line and never an exit line. */
  method Temporary(ctx: TraceContext, condition: bool, group: string, level: int, message: string)
    requires ctx.Valid()
    modifies ctx
    ensures ctx.Valid() && ctx.envchecked
    ensures var on := Passes(CheckedCache(ctx.env), Some(group), level);
      var n := old(ctx.tracecount);
      ctx.tracecount == (if on then n + 1 else n)
      && ctx.stderr == old(ctx.stderr) + if on && condition then [Message(n + 1, group, level, message)] else []
  {
    var t := new Tracer(ctx, condition, Some(group), level, message);
    t.Close();
  }

  /** `for (int i = 0; i < 10; i++) tt.Print(true, "Iteration %d", i);` */
  method PrintIterations(tt: Tracer)
    requires tt.Valid() && tt.alive && tt.group == Some("Foo") && tt.level == 10
    modifies tt`usecount, tt.ctx`stderr
    ensures tt.usecount == old(tt.usecount) + if tt.serial != 0 then 10 else 0
    ensures tt.ctx.stderr == old(tt.ctx.stderr) + if tt.serial != 0 then Iterations(tt.serial, 10) else []
  {
    for i := 0 to 10
      invariant tt.usecount == old(tt.usecount) + if tt.serial != 0 then i else 0
      invariant tt.ctx.stderr == old(tt.ctx.stderr) + if tt.serial != 0 then Iterations(tt.serial, i) else []
    {
      ghost var before := tt.ctx.stderr;
      tt.Print(true, "Iteration " + IntToString(i));
      if tt.serial != 0 {
        var line := Message(tt.serial, "Foo", 10, "Iteration " + IntToString(i));
        assert tt.ctx.stderr == before + [line];
        assert Iterations(tt.serial, i + 1) == Iterations(tt.serial, i) + [line];
      }
    }
  }

  /** What the level-10 handle of FooFunction writes when it prints under `serial`. */
  function DetailedLines(serial: nat): seq<Line>
  {
    [Message(serial, "Foo", 10, "Doing some detailed calculations")] + Iterations(serial, 10) + [Exit(serial, "Foo", 10)]
  }

  /** What the level-10 handle writes from counter `n`, given its filter decision. */
  function DetailedOutput(n: nat, on: bool): seq<Line>
  {
    if on then DetailedLines(n + 1) else []
  }

  /** The level-10 handle of FooFunction: opened, printed ten times, destroyed. */
  method Detailed(ctx: TraceContext)
    requires ctx.Valid()
    modifies ctx
    ensures ctx.Valid() && ctx.envchecked
    ensures var on := Passes(CheckedCache(ctx.env), Some("Foo"), 10);
      var n := old(ctx.tracecount);
      ctx.tracecount == (if on then n + 1 else n)
      && ctx.stderr == old(ctx.stderr) + DetailedOutput(n, on)
  {
    ghost var start := ctx.stderr;
    var tt := new Tracer(ctx, true, Some("Foo"), 10, "Doing some detailed calculations");
    PrintIterations(tt);
    tt.Close();
    if tt.serial != 0 {
      var opening := [Message(tt.serial, "Foo", 10, "Doing some detailed calculations")];
      var iterations := Iterations(tt.serial, 10);
      var exit := [Exit(tt.serial, "Foo", 10)];
      AppendAssoc(start, opening, iterations);
      AppendAssoc(start, opening + iterations, exit);
    }
  }

  /** The second message of FooFunction, once formatted. */
  const ErrorText := "Encountered an error condition: Too Close for Comfort!"

  /** `"Encountered an error condition: %s"` with the error message. */
  lemma ErrorTextFormatted(someErrorMessage: string)
    requires someErrorMessage == "Too Close for Comfort!"
    ensures "Encountered an error condition: " + someErrorMessage == ErrorText
  {
  }

  /** What the two level-5 temporaries of FooFunction write, from counter `n`. */
  function FooEntryLines(n: nat, on5: bool): seq<Line>
  {
    if on5 then [Message(n + 1, "Foo", 5, "Entering FooFunction()"), Message(n + 2, "Foo", 5, ErrorText)] else []
  }

  /** The counter after FooFunction. */
  function FooCount(n: nat, on5: bool, on10: bool): nat
  {
    n + (if on5 then 2 else 0) + (if on10 then 1 else 0)
  }

  /** The first statements of FooFunction: the entering message and the error
      message, both as temporaries at level 5. */
  method FooEntry(ctx: TraceContext)
    requires ctx.Valid()
    modifies ctx
    ensures ctx.Valid() && ctx.envchecked
    ensures var on5 := Passes(CheckedCache(ctx.env), Some("Foo"), 5);
      ctx.tracecount == old(ctx.tracecount) + (if on5 then 2 else 0)
      && ctx.stderr == old(ctx.stderr) + FooEntryLines(old(ctx.tracecount), on5)
  {
    Temporary(ctx, true, "Foo", 5, "Entering FooFunction()");
    var someErrorFlag := true;
    var someErrorMessage := "Too Close for Comfort!";
    ErrorTextFormatted(someErrorMessage);
    Temporary(ctx, someErrorFlag, "Foo", 5, "Encountered an error condition: " + someErrorMessage);
  }

  /** `Foo::FooFunction`: two temporaries at level 5, then the level-10 handle. */
  method FooFunction(ctx: TraceContext)
    requires ctx.Valid()
    modifies ctx
    ensures ctx.Valid() && ctx.envchecked
    ensures var cache := CheckedCache(ctx.env);
      var on5 := Passes(cache, Some("Foo"), 5);
      var on10 := Passes(cache, Some("Foo"), 10);
      var n := old(ctx.tracecount);
      ctx.tracecount == FooCount(n, on5, on10)
      && ctx.stderr == old(ctx.stderr) + FooEntryLines(n, on5) + DetailedOutput(n + (if on5 then 2 else 0), on10)
  {
    FooEntry(ctx);
    Detailed(ctx);
  }

  /** What BarFunction writes, starting from counter `n`. */
  function BarLines(n: nat, on5: bool): seq<Line>
  {
    if on5 then [Message(n + 1, "Bar", 5, "Entering BarFunction()")] else []
  }

  /** `Bar::BarFunction`: one temporary at level 5. */
  method BarFunction(ctx: TraceContext)
    requires ctx.Valid()
    modifies ctx
    ensures ctx.Valid() && ctx.envchecked
    ensures var on5 := Passes(CheckedCache(ctx.env), Some("Bar"), 5);
      var n := old(ctx.tracecount);
      ctx.tracecount == (if on5 then n + 1 else n)
      && ctx.stderr == old(ctx.stderr) + BarLines(n, on5)
  {
    var entering := new Tracer(ctx, true, Some("Bar"), 5, "Entering BarFunction()");
    entering.Close();
  }

  /** Everything the program writes to stderr when its environment leaves the
      cache `cache`: FooFunction, then BarFunction, with serials from 1. */
  function ProgramOutput(cache: EnvCache): seq<Line>
  {
    var on5 := Passes(cache, Some("Foo"), 5);
    var on10 := Passes(cache, Some("Foo"), 10);
    FooEntryLines(0, on5) + DetailedOutput(if on5 then 2 else 0, on10)
    + BarLines(FooCount(0, on5, on10), Passes(cache, Some("Bar"), 5))
  }

  /** `main`: a fresh process with environment `env` runs FooFunction, then BarFunction. */
  method RunExample(env: Environment) returns (output: seq<Line>)
    ensures output == ProgramOutput(CheckedCache(env))
  {
    var ctx := new TraceContext(env);
    FooFunction(ctx);
    ghost var cache := CheckedCache(env);
    ghost var on5, on10 := Passes(cache, Some("Foo"), 5), Passes(cache, Some("Foo"), 10);
    EmptyAppend(FooEntryLines(0, on5), DetailedOutput(if on5 then 2 else 0, on10));
    BarFunction(ctx);
    output := ctx.stderr;
  }

  /** With TRACEGROUP=Foo,Bar both groups pass the group test, so only the
      level test decides. */
  lemma FooBarListed(cache: EnvCache)
    requires cache.grpenv == Some("Foo,Bar")
    ensures forall level :: Passes(cache, Some("Foo"), level) == LevelPasses(cache.onlyflag, level, cache.tracelevel)
    ensures forall level :: Passes(cache, Some("Bar"), level) == LevelPasses(cache.onlyflag, level, cache.tracelevel)
  {
    assert OccursAt("Foo,Bar", "Foo", 0);
    assert OccursAt("Foo,Bar", "Bar", 4);
  }

  /** The three environments the program documents: TRACEGROUP=Foo,Bar with
      TRACELEVEL=5, with TRACELEVEL=10, and with TRACELEVEL=10 and TRACEONLY=TRUE.
      The TRACELEVEL text is written as the decimal text of the number. */
  const Level5 := Environment(Some("Foo,Bar"), Some(IntToString(5)), None)
  const Level10 := Environment(Some("Foo,Bar"), Some(IntToString(10)), None)
  const OnlyLevel10 := Environment(Some("Foo,Bar"), Some(IntToString(10)), Some("TRUE"))

  lemma DocumentedLevelTexts()
    ensures Level5.traceLevel == Some("5")
    ensures Level10.traceLevel == OnlyLevel10.traceLevel == Some("10")
  {
    assert DigitChar(1) == '1' && DigitChar(0) == '0';
    assert NatToString(10) == NatToString(1) + [DigitChar(0)] == "10";
  }

  lemma DocumentedCaches()
    ensures CheckedCache(Level5) == EnvCache(Some("Foo,Bar"), 5, false)
    ensures CheckedCache(Level10) == EnvCache(Some("Foo,Bar"), 10, false)
    ensures CheckedCache(OnlyLevel10) == EnvCache(Some("Foo,Bar"), 10, true)
  {
    CacheAtLevel5();
    CacheAtLevel10();
    CacheOnlyLevel10();
  }

  /** The same, one documented environment at a time. */
  lemma CacheAtLevel5()
    ensures CheckedCache(Level5) == EnvCache(Some("Foo,Bar"), 5, false)
  {
    TraceLevelReadsBack(Level5, 5);
  }

  lemma CacheAtLevel10()
    ensures CheckedCache(Level10) == EnvCache(Some("Foo,Bar"), 10, false)
  {
    TraceLevelReadsBack(Level10, 10);
  }

  lemma CacheOnlyLevel10()
    ensures CheckedCache(OnlyLevel10) == EnvCache(Some("Foo,Bar"), 10, true)
  {
    TraceLevelReadsBack(OnlyLevel10, 10);
  }

  /** The documented run with TRACEGROUP=Foo,Bar and TRACELEVEL=5: the
      level-10 handle is off, so it takes no serial and writes no exit line. */
  lemma ExampleAtLevel5()
    ensures ProgramOutput(CheckedCache(Level5))
         == [Message(1, "Foo", 5, "Entering FooFunction()"),
             Message(2, "Foo", 5, ErrorText),
             Message(3, "Bar", 5, "Entering BarFunction()")]
  {
    CacheAtLevel5();
    FooBarListed(EnvCache(Some("Foo,Bar"), 5, false));
  }

  /** The documented run with TRACELEVEL=10: the level-10 handle takes serial
      3, prints ten times and writes its exit line; Bar gets serial 4. */
  lemma ExampleAtLevel10()
    ensures ProgramOutput(CheckedCache(Level10))
         == [Message(1, "Foo", 5, "Entering FooFunction()"),
             Message(2, "Foo", 5, ErrorText),
             Message(3, "Foo", 10, "Doing some detailed calculations")]
            + Iterations(3, 10)
            + [Exit(3, "Foo", 10),
               Message(4, "Bar", 5, "Entering BarFunction()")]
  {
    CacheAtLevel10();
    FooBarListed(EnvCache(Some("Foo,Bar"), 10, false));
  }

  /** The documented run with TRACELEVEL=10 and TRACEONLY=TRUE: only the
      level-10 handle prints, and it is the first to take a serial. */
  lemma ExampleOnlyLevel10()
    ensures ProgramOutput(CheckedCache(OnlyLevel10))
         == [Message(1, "Foo", 10, "Doing some detailed calculations")]
            + Iterations(1, 10)
            + [Exit(1, "Foo", 10)]
  {
    CacheOnlyLevel10();
    FooBarListed(EnvCache(Some("Foo,Bar"), 10, true));
  }

  /** A line of the documented output as text: the first iteration of the
      level-10 handle with serial 3. */
  lemma IterationLineText()
    ensures Render(Message(3, "Foo", 10, "Iteration 0")) == "Tracer: [3][Foo, 10] Iteration 0\n"
  {
    DocumentedNumbers();
  }

  /** The exit line of that handle as text. */
  lemma ExitLineText()
    ensures Render(Exit(3, "Foo", 10)) == "Tracer: [3][Foo, 10] -exit-\n"
  {
    DocumentedNumbers();
  }

  /** The `%d` texts of the numbers in those lines. */
  lemma DocumentedNumbers()
    ensures IntToString(3) == "3" && IntToString(10) == "10"
  {
    assert NatToString(10) == NatToString(1) + [DigitChar(0)];
  }
}
