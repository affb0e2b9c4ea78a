/** The filter decision shared by the C function `trace()` and the C++ class
    `Tracer`: is a (group, level) pair switched on by the environment? */
module Filter {

  import opened Optional
  import opened CString

  /** The three environment variables, as `getenv` returns them: `None` for a
      variable that is not set. */
  datatype Environment = Environment(traceGroup: Option<string>, traceLevel: Option<string>, traceOnly: Option<string>)

  /** The group test: `strstr(grpenv, group) || strstr(grpenv, "ALL")`.
      Containment is of substrings, not of comma-separated names, and an empty
      group is contained in every list. */
  function GroupListed(grpenv: string, group: string): (r: bool)
    ensures r <==> Contains(grpenv, group) || Contains(grpenv, "ALL")
  {
    StrStr(grpenv, group).Some? || StrStr(grpenv, "ALL").Some?
  }

  /** The level test: at most `tracelevel` by default, exactly `tracelevel`
      when the only-flag is set. */
  function LevelPasses(onlyflag: bool, level: int, tracelevel: int): (r: bool)
    ensures r <==> level <= tracelevel && (onlyflag ==> level == tracelevel)
  {
    (onlyflag && level == tracelevel) || (!onlyflag && level <= tracelevel)
  }

  /** The whole decision: both pointers non-null, the group listed, the level passing. */
  function Enabled(group: Option<string>, level: int, grpenv: Option<string>, tracelevel: int, onlyflag: bool): (r: bool)
    ensures r <==> group.Some? && grpenv.Some?
                   && (Contains(grpenv.value, group.value) || Contains(grpenv.value, "ALL"))
                   && (if onlyflag then level == tracelevel else level <= tracelevel)
  {
    group.Some? && grpenv.Some? && GroupListed(grpenv.value, group.value) && LevelPasses(onlyflag, level, tracelevel)
  }

  /** With TRACEGROUP unset nothing is enabled, whatever the level. */
  lemma UnsetGroupListDisables(group: Option<string>, level: int, tracelevel: int, onlyflag: bool)
    ensures !Enabled(group, level, None, tracelevel, onlyflag)
  {
  }

  /** A list that mentions "ALL" anywhere leaves only the level test. */
  lemma AllEnablesEveryGroup(grpenv: string, group: string, level: int, tracelevel: int, onlyflag: bool)
    requires Contains(grpenv, "ALL")
    ensures Enabled(Some(group), level, Some(grpenv), tracelevel, onlyflag) == LevelPasses(onlyflag, level, tracelevel)
  {
  }

  /** An empty (non-null) group passes the group test of every list. */
  lemma EmptyGroupAlwaysListed(grpenv: string)
    ensures GroupListed(grpenv, "")
  {
    assert OccursAt(grpenv, "", 0);
  }

  /** Containment is loose: "Foo" is listed by "Foobar" and by "NotFoo". */
  lemma SubstringMatching()
    ensures GroupListed("Foobar", "Foo")
    ensures GroupListed("NotFoo", "Foo")
    ensures GroupListed("Foo,Bar", "Bar")
  {
    assert OccursAt("Foobar", "Foo", 0);
    assert OccursAt("NotFoo", "Foo", 3);
    assert OccursAt("Foo,Bar", "Bar", 4);
  }

  /** A list that names neither the group nor ALL does not list it. */
  lemma UnlistedGroup()
    ensures !GroupListed("Foo,Bar", "Baz")
  {
    var h := "Foo,Bar";
    forall i | 0 <= i ensures !OccursAt(h, "Baz", i) && !OccursAt(h, "ALL", i) {
      if i <= |h| - 3 {
        assert h[i..i + 3][0] == h[i] != 'A';
        assert h[i..i + 3][2] == h[i + 2] != 'z';
      }
    }
  }

  /** The level tables: TRACELEVEL 5 passes 3 and 5 but not 6; in exact mode it passes only 5. */
  lemma LevelExamples()
    ensures LevelPasses(false, 3, 5) && LevelPasses(false, 5, 5) && !LevelPasses(false, 6, 5)
    ensures !LevelPasses(true, 3, 5) && LevelPasses(true, 5, 5) && !LevelPasses(true, 6, 5)
  {
  }

  /** Exact mode never lets through a level that the default mode would stop. */
  lemma ExactModeIsNarrower(level: int, tracelevel: int)
    ensures LevelPasses(true, level, tracelevel) ==> LevelPasses(false, level, tracelevel)
    ensures LevelPasses(false, level, tracelevel) && level != tracelevel ==> !LevelPasses(true, level, tracelevel)
  {
  }
}
