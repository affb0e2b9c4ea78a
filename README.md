# Tracer: environment-controlled debug tracing, modelled in Dafny

The repository provides conditional debug output to stderr, switched on at
run time by three environment variables:

- TRACEGROUP lists the groups to trace.
- TRACELEVEL gives the highest (or the exact) level to print.
- TRACEONLY=TRUE switches from "at most" to "exactly".

It does this in two forms:

- **the C++ class `Tracer`** (Tracer.h, cpp/Tracer.cpp). Each handle decides
  once, at construction, whether it prints. A handle that prints draws a
  unique serial number from a static counter, whatever its `condition` is.
  It writes an opening line only when `condition` also holds, one line per
  `Print` whose own condition holds, and an `-exit-` line at destruction,
  but only if `Print` wrote at least once. The environment is read once and
  cached in static members.
- **the C function `trace()`** (c/trace.c). It is stateless apart from its
  function-static copy of the environment. A call writes one line when its
  condition is nonzero, the group is non-null, TRACEGROUP and TRACELEVEL are
  both set, and the filter passes; otherwise it writes nothing.

The model is split into these modules:

| file | module | what it holds |
|---|---|---|
| optional.dfy | `Optional` | `Option`, which stands for a C pointer that may be NULL. |
| sequences.dfy | `Sequences` | Where the pieces of a concatenation stand, used to read a rendered line back. |
| cstring.dfy | `CString` | `strstr` as a first-occurrence search, specified by substring containment. |
| cnumber.dfy | `CNumber` | `atoi` (white space, sign, digits; 0 for non-numeric text) and `%d` rendering, with their round trip. |
| filter.dfy | `Filter` | The group and level test that both forms share, over an `Environment` of three optional strings. |
| tracer.dfy | `CppTracer` | `TraceContext`, a class holding the C++ statics and the stderr log. `Tracer`, a class for one handle; its destructor is the method `Close`. Serial allocation over a run of constructions. |
| example.dfy | `TracerExample` | The call sites of cpp/example.cpp restated as methods over the model, and the three stderr outputs that file documents. |
| trace.dfy | `CTrace` | `TraceState`, a class holding the static locals of `trace()` and its stderr log. `Trace`, the function itself. Lemmas comparing it with the C++ form. |

Each state class carries a ghost count of environment reads, so that "read
once" is part of its invariant. Output is a log of structured lines (`CppTracer.Line`, `CTrace.TraceLine`).
A function renders each one to text in the program's format. Messages arrive
already formatted.

## Model

| member | source | states |
|---|---|---|
| `CString.StrStr` | cpp/Tracer.cpp:51 | `strstr` finds a match exactly when the needle is a substring. The result is an occurrence with no earlier one. An empty needle is found at index 0. |
| `CString.FindFrom` | c/trace.c:59 | The search from a position returns the first occurrence at or after it, or none when there is no such occurrence. |
| `CNumber.SkipSpace` | cpp/Tracer.cpp:108 | `atoi`'s skip of leading white space removes exactly a prefix of spaces and stops at a non-space. |
| `CNumber.LeadingDigits` | cpp/Tracer.cpp:108 | The digits `atoi` consumes are the longest all-digit prefix. |
| `CNumber.Atoi` | c/trace.c:62 | `atoi`: a negative result comes only from a leading minus after the blanks. Its value on every text is given by `CNumber.AtoiOfNumber` (blanks, sign and digits) and `CNumber.AtoiOfNonNumeric` (no digits). |
| `CNumber.AtoiOfNumber` | cpp/Tracer.cpp:108 | Text made of any blanks, an optional '+' or '-', digits, and then a non-digit or the end reads as the digits' value, negated after '-'. " 5", "+5" and "05" all read as 5. A sign with no digits after it reads as 0. |
| `CNumber.DigitsValueLeadingZero` | cpp/Tracer.cpp:108 | A leading zero does not change the value of a digit string, so "05" and "5" read alike. |
| `CNumber.AtoiOfIntToString` | cpp/Tracer.cpp:108 | `atoi` of a `%d` rendering gives back the number, for negative numbers too, whatever non-digit text follows. |
| `CNumber.AtoiOfNonNumeric` | cpp/Tracer.cpp:108 | Text with no digit after its leading blanks and optional sign reads as 0 ("", "x", "-", "+x"). It is not an error. |
| `CNumber.IntToString` | cpp/Tracer.cpp:66 | `%d` text is non-empty and starts with neither a blank nor a plus sign. |
| `CNumber.IntToStringCanonical` | cpp/Tracer.cpp:66 | `%d` text starts with a minus sign exactly when the number is negative, and the digits after it are canonical: at least one, all decimal, and no leading zero unless the number is 0. So "-0", "05" and "-05" are never written. |
| `CNumber.NatToString` | cpp/Tracer.cpp:66 | The digits of a non-negative number have no leading zero. |
| `CNumber.DigitsValueOfNatToString` | cpp/Tracer.cpp:66 | The value of the rendered digits is the number rendered. |
| `Filter.GroupListed` | cpp/Tracer.cpp:51 | The group test holds exactly when the group, or "ALL", is a substring of TRACEGROUP. |
| `Filter.LevelPasses` | cpp/Tracer.cpp:54 | The level test holds iff the level is at most TRACELEVEL and, in exact mode, equal to it. The same test is c/trace.c:63. |
| `Filter.Enabled` | cpp/Tracer.cpp:48-54 | A handle is enabled iff the group is non-null, TRACEGROUP is set, the group test holds, and the level is equal to TRACELEVEL in exact mode or at most TRACELEVEL otherwise. |
| `Filter.UnsetGroupListDisables` | cpp/Tracer.cpp:48 | With TRACEGROUP unset nothing is enabled. |
| `Filter.AllEnablesEveryGroup` | cpp/Tracer.cpp:51 | A TRACEGROUP containing "ALL" anywhere leaves only the level test. |
| `Filter.EmptyGroupAlwaysListed` | cpp/Tracer.cpp:51 | An empty, non-null group passes the group test of every list. |
| `Filter.SubstringMatching` | Tracer.h:32-34 | Matching is by substring, not by comma-separated name: "Foo" is listed by "Foobar" and by "NotFoo". |
| `Filter.UnlistedGroup` | Tracer.h:12-16 | One instance: TRACEGROUP=Foo,Bar does not list the group Baz. The general rule is the iff of `Filter.GroupListed`. |
| `Filter.LevelExamples` | Tracer.h:20-23 | Instances at TRACELEVEL 5: default mode passes 3 and 5 but not 6; exact mode passes only 5. The general rule is the contract of `Filter.LevelPasses`. |
| `Filter.ExactModeIsNarrower` | Tracer.h:36-40 | Exact mode admits a subset of what default mode admits, and drops every level other than TRACELEVEL. |
| `CppTracer.TraceLevelReadsBack` | cpp/Tracer.cpp:107-108 | A TRACELEVEL holding the decimal text of n caches the level n. |
| `CppTracer.OnlyFlagAccepted` | cpp/Tracer.cpp:112 | TRACEONLY is accepted iff it is set to exactly "TRUE" or "true". |
| `CppTracer.CheckedCacheFields` | cpp/Tracer.cpp:13-15 | After the environment is read, the group list is TRACEGROUP. The level is 0 when TRACELEVEL is unset and its `atoi` otherwise. Exact mode is on iff TRACEONLY is "TRUE" or "true". |
| `CppTracer.OtherOnlyValuesIgnored` | cpp/Tracer.cpp:110-116 | Other TRACEONLY values ("True", "1", "TRUE " with a trailing blank, the empty string) leave default mode. |
| `CppTracer.Allocate` | cpp/Tracer.cpp:59 | One construction: the serial is nonzero iff the filter passed, and then it equals the new counter. The counter grows by one iff the filter passed. |
| `CppTracer.Serials` | cpp/Tracer.cpp:59 | A run of constructions yields one serial per handle. Their numbering and uniqueness are `CppTracer.SerialsNumberPassedHandles` and `CppTracer.SerialsUniqueAndIncreasing`. |
| `CppTracer.SerialsNumberPassedHandles` | cpp/Tracer.cpp:59 | Over a run of constructions, a handle whose filter failed has serial 0. Otherwise its serial is the starting counter plus the number of enabled handles up to and including it. |
| `CppTracer.CountPassedGrows` | cpp/Tracer.cpp:59 | The count of enabled handles grows strictly past each enabled one. |
| `CppTracer.SerialsUniqueAndIncreasing` | Tracer.h:107-108 | A serial is nonzero iff its handle is enabled. Nonzero serials are above the starting counter and strictly increase, hence are unique. |
| `CppTracer.Render` | cpp/Tracer.cpp:66-68 | A rendered line starts with "Tracer: [" and ends with the newline. The exit line of cpp/Tracer.cpp:85-86 has the same shape. Its content is read back by `CppTracer.SerialReadsBack`, `CppTracer.GroupReadsBack`, `CppTracer.LevelReadsBack` and `CppTracer.TextEndsLine`. |
| `CppTracer.SerialReadsBack` | cpp/Tracer.cpp:66 | The serial written at the head of every line reads back from the text as the handle's serial. |
| `CppTracer.GroupReadsBack` | cpp/Tracer.cpp:66 | In every line, message or exit, the group stands right after the serial and "][", and ", " follows it. |
| `CppTracer.LevelReadsBack` | cpp/Tracer.cpp:66 | The text after the group and ", " reads back through `atoi` as the line's level. |
| `CppTracer.TextEndsLine` | cpp/Tracer.cpp:66-68 | After the level comes "] ", then the message, and the line ends there with the newline. An exit line has "-exit-" in place of the message (cpp/Tracer.cpp:85-86). |
| `CppTracer.TraceContext.constructor` | cpp/Tracer.cpp:13-17 | At program start the statics are unchecked: no group list, level 0, default mode, counter 0. Nothing is written and the environment has not been read. |
| `CppTracer.TraceContext.CheckEnvironment` | cpp/Tracer.cpp:98-117 | One read of the environment. TRACEGROUP is stored as is. TRACELEVEL, when set, is stored through `atoi`. Exact mode is raised by "TRUE" or "true". An unset TRACELEVEL or another TRACEONLY value keeps the old value. |
| `CppTracer.Tracer.constructor` | cpp/Tracer.cpp:27-74 | After any construction the environment has been read exactly once. A construction after the first reads it no more and leaves the cache unchanged. A handle gets the next serial and bumps the counter iff the filter passes, whatever the condition is; otherwise serial 0 and the counter is unchanged. The opening line is written iff the filter passes and the condition holds. Use count starts at 0. |
| `CppTracer.Tracer.Print` | cpp/Tracer.cpp:126-144 | One line is written and the use count goes up by one iff the condition holds and the serial is nonzero; otherwise nothing changes. The filter is not consulted again. |
| `CppTracer.Tracer.Close` | cpp/Tracer.cpp:80-91 | The exit line is written iff the serial is nonzero and `Print` wrote at least once. |
| `TracerExample.Temporary` | cpp/example.cpp:9 | A temporary `Tracer(...)` statement writes at most its opening line and never an exit line. |
| `TracerExample.PrintIterations` | cpp/example.cpp:19-20 | The loop of ten `Print` calls writes "Iteration 0" to "Iteration 9" under the handle's serial when it prints, and nothing otherwise. |
| `TracerExample.Detailed` | cpp/example.cpp:18-21 | The level-10 handle writes its opening line, ten iterations and its exit line when enabled, and nothing otherwise. |
| `TracerExample.ErrorTextFormatted` | cpp/example.cpp:14-15 | The error message formats to "Encountered an error condition: Too Close for Comfort!". |
| `TracerExample.FooEntry` | cpp/example.cpp:9-15 | The two level-5 temporaries take two serials and write their two lines when level 5 passes for Foo, and take and write nothing otherwise. |
| `TracerExample.FooFunction` | cpp/example.cpp:6-21 | FooFunction writes the level-5 lines, then the level-10 block, each only when its level passes. The level-10 serial follows the level-5 ones. |
| `TracerExample.BarFunction` | cpp/example.cpp:27-33 | BarFunction writes one line at level 5 when enabled. |
| `TracerExample.RunExample` | cpp/example.cpp:37-62 | A fresh process writes exactly the program's output for the cache its environment produces: FooFunction's lines, then BarFunction's, with serials from 1. |
| `TracerExample.FooBarListed` | cpp/example.cpp:44 | With TRACEGROUP=Foo,Bar both groups are listed, so only the level decides. |
| `TracerExample.DocumentedLevelTexts` | cpp/example.cpp:49-50 | The documented environments carry TRACELEVEL texts "5" and "10". |
| `TracerExample.DocumentedCaches` | cpp/example.cpp:49-55 | The documented environments cache level 5, level 10, and level 10 in exact mode. |
| `TracerExample.ExampleAtLevel5` | cpp/example.cpp:64-68 | With TRACEGROUP=Foo,Bar and TRACELEVEL=5 the program's output is the three level-5 lines with serials 1, 2, 3 and no exit line. |
| `TracerExample.ExampleAtLevel10` | cpp/example.cpp:70-86 | With TRACELEVEL=10 the level-10 handle takes serial 3, prints ten iterations and its exit line, and Bar takes serial 4. |
| `TracerExample.ExampleOnlyLevel10` | cpp/example.cpp:88-101 | With TRACEONLY=TRUE only the level-10 handle prints, under serial 1, with its exit line. |
| `TracerExample.IterationLineText` | cpp/example.cpp:76 | The first iteration line of the serial-3 handle renders to exactly "Tracer: [3][Foo, 10] Iteration 0" and the newline. |
| `TracerExample.ExitLineText` | cpp/example.cpp:86 | Its exit line renders to exactly "Tracer: [3][Foo, 10] -exit-" and the newline. |
| `CTrace.FieldsReadBack` | c/trace.c:67 | In a `trace()` line the group stands right after "Trace: [", ", " follows it, and the text after that reads back through `atoi` as the line's level. |
| `CTrace.TextEndsLine` | c/trace.c:67-69 | After the level comes "] ", then the message, and the line ends there with the newline. |
| `CTrace.Render` | c/trace.c:67-69 | A rendered line starts with "Trace: [" and ends with the newline. Its content is read back by `CTrace.FieldsReadBack` and `CTrace.TextEndsLine`. |
| `CTrace.OnlyFlagExact` | c/trace.c:45 | TRACEONLY selects exact mode iff it is exactly "TRUE". |
| `CTrace.Prints` | c/trace.c:53-63 | A call prints only with a nonzero condition, a non-null group, TRACEGROUP and TRACELEVEL set, the group or "ALL" contained in TRACEGROUP, and a level at most `atoi(TRACELEVEL)`. The full iff is `CTrace.PrintsIffEnabled`. |
| `CTrace.PrintsIffEnabled` | c/trace.c:53-63 | `trace()` prints iff the condition is nonzero, TRACELEVEL is set, and the shared filter passes with `atoi(TRACELEVEL)` and exact mode for "TRUE" only. |
| `CTrace.FormsAgree` | c/trace.c:53-63 | With TRACELEVEL set, TRACEONLY other than "true" and a nonzero condition, `trace()` prints iff a C++ handle with the same group and level is enabled. |
| `CTrace.UnsetLevelDiffers` | c/trace.c:53 | With TRACELEVEL unset `trace()` never prints, while the C++ form filters with level 0. |
| `CTrace.LowerCaseTrueDiffers` | c/trace.c:45 | TRACEONLY=true selects exact mode in the C++ form only. A level below TRACELEVEL prints in C and not in C++. |
| `CTrace.TraceState.constructor` | c/trace.c:19-25 | The static locals start unchecked, with no environment values and default mode, and the environment has not been read. |
| `CTrace.TraceState.Trace` | c/trace.c:17-75 | After any call the environment has been read exactly once. A call after the first reads it no more and leaves the statics unchanged. Each call appends exactly one line `[group, level] message` iff the C decision holds, and nothing otherwise. |

## Left out

- Output formatting (`fprintf`, `vfprintf` and varargs) is not modelled. Messages arrive as already-formatted strings. Lines are kept as structured values, and `Render` gives the text of one line.
- `getenv` is not modelled. The three variables are an `Environment` of optional strings, fixed for the life of a process.
- Copying the group name with `new[]`, `strcpy` and `delete[]` (cpp/Tracer.cpp:34-38 and 90) is not modelled. The group is an `Option<string>`.
- `atoi` overflow and the `unsigned` counter wrapping into the `int` serial (cpp/Tracer.cpp:59) are not modelled. Integers are unbounded, so serials never wrap.
- CppTracer.Tracer.Close: the destructor is an explicit method. Automatic destruction at the end of a scope is written out in the scenarios.
- CTrace.TraceState.Trace: its line never shows that TRACELEVEL is re-parsed on every call. The environment is fixed, so every parse gives the same value, and the decision uses that value.
- `atoi` here includes the C library's skip of leading white space, as `isspace` defines it in the C locale. This goes beyond a plain "sign, then digits" reading.
- python/Tracer.py and python/example.py are not part of this model. They are an unfinished port with no filter and no `Print`.
- The test `main` functions of cpp/Tracer.cpp (lines 146-254) and c/trace.c (lines 79-115) are demo programs and are not modelled. cpp/example.cpp is modelled as scenarios.
- The documented outputs of cpp/example.cpp are stated as `Line` values, not as the text of each line. `Render` gives the text of each, and its read-back lemmas (serial, group, level, message) say what that text holds. Two documented lines are rendered to their exact text (`TracerExample.IterationLineText`, `TracerExample.ExitLineText`).
- Strings are sequences of characters with no terminator, so nothing stops an `Environment` value or a group name from holding a NUL. In C such a value would end at the NUL, and there `strstr` can answer differently from `Contains`. Such inputs stand for nothing in the program.
- Concurrency is not modelled. Neither form guards its static state, and the model is single-threaded.
