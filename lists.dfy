/** Python's `[f(x) for x in xs]`, used by the loops that rebuild a list row by row. */
module Lists {
  /** The image of `s` under `f`, built from the end so that a loop that appends
      one element at a time matches it step by step. */
  function Map<A, B>(f: A -> B, s: seq<A>): (r: seq<B>)
    ensures |r| == |s|
  {
    if s == [] then [] else Map(f, s[..|s| - 1]) + [f(s[|s| - 1])]
  }

  /** Element `i` of the image is `f` of element `i`. */
  lemma {:induction false} MapAt<A, B>(f: A -> B, s: seq<A>, i: int)
    requires 0 <= i < |s|
    ensures Map(f, s)[i] == f(s[i])
    decreases |s|
  {
    if i < |s| - 1 {
      MapAt(f, s[..|s| - 1], i);
    }
  }

  /** One step of a loop that appends `f(s[i])` to the image of the first `i` elements. */
  lemma MapStep<A, B>(f: A -> B, s: seq<A>, i: int)
    requires 0 <= i < |s|
    ensures Map(f, s[..i + 1]) == Map(f, s[..i]) + [f(s[i])]
  {
    assert s[..i + 1][..i] == s[..i];
  }

  /** The image of a whole sequence is the image of its full prefix. */
  lemma MapAll<A, B>(f: A -> B, s: seq<A>)
    ensures Map(f, s[..|s|]) == Map(f, s)
  {
    assert s[..|s|] == s;
  }

  /** Python's `[f(x, n) for n, x in enumerate(s, start=1)]`: each element with its 1-based number. */
  function MapNumbered<A, B>(f: (A, nat) -> B, s: seq<A>): (r: seq<B>)
    ensures |r| == |s|
  {
    if s == [] then [] else MapNumbered(f, s[..|s| - 1]) + [f(s[|s| - 1], |s|)]
  }

  /** Element `i` of the numbered image is `f` of element `i` and the number `i + 1`. */
  lemma {:induction false} MapNumberedAt<A, B>(f: (A, nat) -> B, s: seq<A>, i: int)
    requires 0 <= i < |s|
    ensures MapNumbered(f, s)[i] == f(s[i], i + 1)
    decreases |s|
  {
    if i < |s| - 1 {
      MapNumberedAt(f, s[..|s| - 1], i);
    }
  }

  /** One step of a loop that appends the next numbered element. */
  lemma MapNumberedStep<A, B>(f: (A, nat) -> B, s: seq<A>, i: int)
    requires 0 <= i < |s|
    ensures MapNumbered(f, s[..i + 1]) == MapNumbered(f, s[..i]) + [f(s[i], i + 1)]
  {
    assert s[..i + 1][..i] == s[..i];
  }

  /** The numbered image of a whole sequence is that of its full prefix. */
  lemma MapNumberedAll<A, B>(f: (A, nat) -> B, s: seq<A>)
    ensures MapNumbered(f, s[..|s|]) == MapNumbered(f, s)
  {
    assert s[..|s|] == s;
  }
}
