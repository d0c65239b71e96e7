/** The parts of Go's `strings` package and of string building the detector uses. */
module Strings {

  /** strings.HasPrefix(s, prefix) */
  predicate HasPrefix(s: string, prefix: string)
  {
    |prefix| <= |s| && s[..|prefix|] == prefix
  }

  /** strings.Contains(s, sub): `sub` occurs in `s` at some offset. */
  predicate Contains(s: string, sub: string)
  {
    exists i :: 0 <= i <= |s| && HasPrefix(s[i..], sub)
  }

  /** The empty string occurs in every string, so an empty literal pattern hits every page. */
  lemma EmptyIsContained(s: string)
    ensures Contains(s, "")
  {
    assert HasPrefix(s[0..], "");
  }

  /** Containment is transitive: what occurs in a piece of `t` occurs in `t`. */
  lemma ContainsTransitive(t: string, mid: string, p: string)
    requires Contains(t, mid) && Contains(mid, p)
    ensures Contains(t, p)
  {
    var i :| 0 <= i <= |t| && HasPrefix(t[i..], mid);
    var j :| 0 <= j <= |mid| && HasPrefix(mid[j..], p);
    forall k | 0 <= k < |p|
      ensures t[i + j..][k] == p[k]
    {
      assert t[i..][j + k] == mid[j + k] == mid[j..][k] == p[k];
    }
    assert t[i + j..][..|p|] == p;
  }

  /** The concatenation of `f(x)` over `xs`, in order: what a loop of `out += f(x)` builds. */
  function ConcatMap<T>(f: T -> string, xs: seq<T>): string
  {
    if xs == [] then "" else ConcatMap(f, xs[..|xs| - 1]) + f(xs[|xs| - 1])
  }

  /** Concatenating over two lists is concatenating the two outputs. */
  lemma {:induction false} ConcatMapAppend<T>(f: T -> string, xs: seq<T>, ys: seq<T>)
    ensures ConcatMap(f, xs + ys) == ConcatMap(f, xs) + ConcatMap(f, ys)
  {
    if ys == [] {
      assert xs + ys == xs;
    } else {
      var n := |ys| - 1;
      assert (xs + ys)[..|xs + ys| - 1] == xs + ys[..n];
      ConcatMapAppend(f, xs, ys[..n]);
    }
  }

  /** Each element's piece sits in the output between the pieces of the elements before and after it. */
  lemma ConcatMapAt<T>(f: T -> string, xs: seq<T>, i: nat)
    requires i < |xs|
    ensures ConcatMap(f, xs) == ConcatMap(f, xs[..i]) + f(xs[i]) + ConcatMap(f, xs[i + 1..])
  {
    var front, back := xs[..i + 1], xs[i + 1..];
    assert xs == front + back;
    ConcatMapAppend(f, front, back);
    assert front[..|front| - 1] == xs[..i];
    assert ConcatMap(f, front) == ConcatMap(f, xs[..i]) + f(xs[i]);
  }

  /** Number of line feeds in `s`. */
  function CountNewlines(s: string): nat
  {
    if s == [] then 0 else (if s[0] == '\n' then 1 else 0) + CountNewlines(s[1..])
  }

  lemma {:induction false} CountNewlinesAppend(s: string, t: string)
    ensures CountNewlines(s + t) == CountNewlines(s) + CountNewlines(t)
  {
    if s != [] {
      assert (s + t)[1..] == s[1..] + t;
      CountNewlinesAppend(s[1..], t);
    } else {
      assert s + t == t;
    }
  }

  lemma NoNewlines(s: string)
    requires '\n' !in s
    ensures CountNewlines(s) == 0
  {
    if s != [] {
      assert s[0] in s;
      assert forall c :: c in s[1..] ==> c in s;
      NoNewlines(s[1..]);
    }
  }
}
