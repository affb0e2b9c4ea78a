/** Facts about where the pieces of a concatenation stand, stated once for
    any element type and used wherever a line of output is read back. */
module Sequences {

  /** Regrouping appended sequences. */
  lemma AppendAssoc<T>(a: seq<T>, b: seq<T>, c: seq<T>)
    ensures a + b + c == a + (b + c)
  {
  }

  /** Appending to an empty sequence. */
  lemma EmptyAppend<T>(a: seq<T>, b: seq<T>)
    ensures [] + a + b == a + b
  {
  }

  /** Dropping a known prefix leaves the rest. */
  lemma DropPrefix<T>(head: seq<T>, rest: seq<T>)
    ensures (head + rest)[|head|..] == rest
  {
  }

  /** Reading on past a known piece of a sequence. */
  lemma ReadPast<T>(x: seq<T>, i: nat, a: seq<T>, y: seq<T>)
    requires i <= |x| && x[i..] == a + y
    ensures i + |a| <= |x| && x[i..i + |a|] == a && x[i + |a|..] == y
  {
    assert x[i..i + |a|] == (a + y)[..|a|];
    assert x[i + |a|..] == (a + y)[|a|..];
  }

  /** Where the last two pieces stand once the rest of `x` from `k` is known. */
  lemma LastPieces<T>(x: seq<T>, k: nat, a: seq<T>, b: seq<T>, t: seq<T>)
    requires k <= |x| && x[k..] == a + (b + t)
    ensures var j := k + |a| + |b|;
      j <= |x| && x[j - |b|..j] == b && x[j..] == t
  {
    ReadPast(x, k, a, b + t);
    ReadPast(x, k + |a|, b, t);
  }

  /** Where each piece of `p + s + q + g + c + rest` stands. */
  lemma PiecesAt<T>(p: seq<T>, s: seq<T>, q: seq<T>, g: seq<T>, c: seq<T>, rest: seq<T>)
    ensures var x := p + (s + (q + (g + (c + rest))));
      var i := |p| + |s| + |q|;
      var k := i + |g| + |c|;
      k <= |x| && x[i - |q|..i] == q && x[i..i + |g|] == g && x[k - |c|..k] == c && x[k..] == rest
  {
    var x := p + (s + (q + (g + (c + rest))));
    assert x[0..] == p + (s + (q + (g + (c + rest))));
    ReadPast(x, 0, p, s + (q + (g + (c + rest))));
    ReadPast(x, |p|, s, q + (g + (c + rest)));
    ReadPast(x, |p| + |s|, q, g + (c + rest));
    ReadPast(x, |p| + |s| + |q|, g, c + rest);
    ReadPast(x, |p| + |s| + |q| + |g|, c, rest);
  }

  /** Where the last two pieces of `p + s + q + g + c + l + b + t` stand. */
  lemma TailAt<T>(p: seq<T>, s: seq<T>, q: seq<T>, g: seq<T>, c: seq<T>, l: seq<T>, b: seq<T>, t: seq<T>)
    ensures var x := p + (s + (q + (g + (c + (l + (b + t))))));
      var j := |p| + |s| + |q| + |g| + |c| + |l| + |b|;
      j <= |x| && x[j - |b|..j] == b && x[j..] == t
  {
    var x := p + (s + (q + (g + (c + (l + (b + t))))));
    PiecesAt(p, s, q, g, c, l + (b + t));
    LastPieces(x, |p| + |s| + |q| + |g| + |c|, l, b, t);
  }
}
