/** The one C string routine the tracer relies on: `strstr`.
    A C string is modelled as the characters before its terminating NUL, so a
    `seq<char>` with no NUL in it; a NULL result is `None` and a pointer into
    the haystack is the index it points at. */
module CString {

  import opened Optional

  /** `needle` sits in `hay` starting at index `i`. */
  predicate OccursAt(hay: string, needle: string, i: int)
  {
    0 <= i && i + |needle| <= |hay| && hay[i..i + |needle|] == needle
  }

  /** `needle` is a substring of `hay` (the empty string is a substring of every string). */
  ghost predicate Contains(hay: string, needle: string)
  {
    exists i :: OccursAt(hay, needle, i)
  }

  /** The first occurrence of `needle` in `hay` at or after `from`. */
  function FindFrom(hay: string, needle: string, from: nat): (r: Option<nat>)
    decreases |hay| - from
    ensures r.Some? ==> from <= r.value && OccursAt(hay, needle, r.value)
    ensures r.Some? ==> forall i :: from <= i < r.value ==> !OccursAt(hay, needle, i)
    ensures r.None? ==> forall i :: from <= i ==> !OccursAt(hay, needle, i)
  {
    if from + |needle| > |hay| then None
    else if hay[from..from + |needle|] == needle then Some(from)
    else FindFrom(hay, needle, from + 1)
  }

  /** C's `strstr(hay, needle)`: the position of the first occurrence of
      `needle` in `hay`, or NULL when there is none. An empty needle is found
      at the very start of any haystack. */
  function StrStr(hay: string, needle: string): (r: Option<nat>)
    ensures r.Some? <==> Contains(hay, needle)
    ensures r.Some? ==> OccursAt(hay, needle, r.value)
    ensures r.Some? ==> forall i :: 0 <= i < r.value ==> !OccursAt(hay, needle, i)
    ensures needle == [] ==> r == Some(0)
  {
    var r := FindFrom(hay, needle, 0);
    assert needle == [] ==> OccursAt(hay, needle, 0);
    r
  }
}
