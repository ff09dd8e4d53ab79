/** The string operations of the source language the printers and parsers use.
    Text is UTF-8, one `char` per byte; white space is the ASCII white space. */
module Strings {
  import opened Common

  /** p occurs in s at i. */
  predicate At(s: string, p: string, i: int) {
    0 <= i <= |s| - |p| && s[i..i + |p|] == p
  }

  /** Rust's `find`. */
  function Find(s: string, p: string): (r: Option<nat>)
    ensures r.Some? ==> r.value + |p| <= |s|
  {
    if |s| < |p| then None
    else if s[..|p|] == p then Some(0)
    else if s == [] then None
    else
      var r := Find(s[1..], p);
      if r.Some? then Some(r.value + 1) else None
  }

  /** It finds the first occurrence, and fails only when there is none. */
  lemma {:induction false} FindsTheFirst(s: string, p: string)
    requires p != []
    ensures match Find(s, p)
            case Some(i) => At(s, p, i) && forall j :: 0 <= j < i ==> !At(s, p, j)
            case None => forall j :: !At(s, p, j)
  {
    if |s| >= |p| && s[..|p|] != p {
      FindsTheFirst(s[1..], p);
      forall j | j >= 1 ensures At(s, p, j) <==> At(s[1..], p, j - 1) {
        if j + |p| <= |s| {
          assert s[1..][j - 1..j - 1 + |p|] == s[j..j + |p|];
        }
      }
      assert !At(s, p, 0);
      forall j | At(s, p, j) ensures j >= 1 && At(s[1..], p, j - 1) {
      }
    }
  }

  predicate White(c: char) {
    c == ' ' || ('\t' <= c <= '\r')
  }

  function TrimStart(s: string): string {
    if s != [] && White(s[0]) then TrimStart(s[1..]) else s
  }

  function TrimEnd(s: string): string {
    if s != [] && White(s[|s| - 1]) then TrimEnd(s[..|s| - 1]) else s
  }

  function Trim(s: string): string {
    TrimEnd(TrimStart(s))
  }

  predicate Trimmed(s: string) {
    s != [] ==> !White(s[0]) && !White(s[|s| - 1])
  }

  lemma TrimKeepsTrimmed(s: string)
    requires Trimmed(s)
    ensures Trim(s) == s
  {
  }

  lemma {:induction false} TrimStartStarts(s: string)
    ensures TrimStart(s) != [] ==> !White(TrimStart(s)[0])
    ensures forall c :: c in TrimStart(s) ==> c in s
  {
    if s != [] && White(s[0]) { TrimStartStarts(s[1..]); }
  }

  lemma {:induction false} TrimEndEnds(s: string)
    ensures TrimEnd(s) != [] ==> !White(TrimEnd(s)[|TrimEnd(s)| - 1]) && TrimEnd(s)[0] == s[0]
    ensures forall c :: c in TrimEnd(s) ==> c in s
  {
    if s != [] && White(s[|s| - 1]) { TrimEndEnds(s[..|s| - 1]); }
  }

  /** Trimming trims, and adds nothing. */
  lemma TrimTrims(s: string)
    ensures Trimmed(Trim(s)) && forall c :: c in Trim(s) ==> c in s
  {
    TrimStartStarts(s);
    TrimEndEnds(TrimStart(s));
  }

  lemma HeadsMatch(s: string, p: string)
    requires p != []
    ensures forall j :: At(s, p, j) ==> s[j] == p[0]
  {
    forall j | At(s, p, j) ensures s[j] == p[0] {
      assert s[j] == s[j..j + |p|][0];
    }
  }

  /** The first position of a character. */
  function IndexOf(s: string, c: char): (r: Option<nat>)
    ensures r.Some? ==> r.value < |s| && s[r.value] == c
    ensures r.None? <==> c !in s
  {
    if s == [] then None
    else if s[0] == c then Some(0)
    else
      var r := IndexOf(s[1..], c);
      if r.Some? then Some(r.value + 1) else None
  }

  /** A separator after text that does not contain it is found there. */
  lemma {:induction false} FindsSeparator(a: string, c: char, b: string)
    requires c !in a
    ensures IndexOf(a + [c] + b, c) == Some(|a|)
    ensures (a + [c] + b)[..|a|] == a && (a + [c] + b)[|a| + 1..] == b
  {
    if a != [] {
      FindsSeparator(a[1..], c, b);
      assert (a + [c] + b)[1..] == a[1..] + [c] + b;
    }
  }

  predicate StartsWith(s: string, p: string) {
    |p| <= |s| && s[..|p|] == p
  }

  lemma StartsAlike(s: string, p: string)
    ensures p != "" && StartsWith(s, p) ==> s != "" && s[0] == p[0]
    ensures StartsWith(p + s, p) && (p + s)[|p|..] == s
  {
  }

  /** What each element contributes, in order. */
  function Collect<A, B>(f: A -> seq<B>, xs: seq<A>): seq<B> {
    if xs == [] then [] else Collect(f, xs[..|xs| - 1]) + f(xs[|xs| - 1])
  }

  lemma {:induction false} CollectConcat<A, B>(f: A -> seq<B>, a: seq<A>, b: seq<A>)
    ensures Collect(f, a + b) == Collect(f, a) + Collect(f, b)
  {
    if b == [] {
      assert a + b == a;
    } else {
      var n := |b| - 1;
      CollectConcat(f, a, b[..n]);
      assert (a + b)[..|a| + n] == a + b[..n];
    }
  }
}
