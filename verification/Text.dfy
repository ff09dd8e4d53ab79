/** Decimal printing and the order of printed text. */
module Text {

  function Digit(d: nat): char
    requires d < 10
  {
    '0' + d as char
  }

  /** A number in decimal, without leading zeros. */
  function Dec(n: nat): (s: string)
    ensures s != [] && forall k :: 0 <= k < |s| ==> '0' <= s[k] <= '9'
  {
    if n < 10 then [Digit(n)] else Dec(n / 10) + [Digit(n % 10)]
  }

  function Zeros(n: nat): (s: string)
    ensures |s| == n
  {
    seq(n, _ => '0')
  }

  /** Rust's `{:0w}`: zero-padded to at least w characters. */
  function Pad(n: nat, w: nat): string {
    if |Dec(n)| >= w then Dec(n) else Zeros(w - |Dec(n)|) + Dec(n)
  }

  function Pow10(w: nat): (p: nat)
    ensures p >= 1
  {
    if w == 0 then 1 else 10 * Pow10(w - 1)
  }

  /** The number a digit string stands for. */
  function Value(s: string): int {
    if s == [] then 0 else 10 * Value(s[..|s| - 1]) + (s[|s| - 1] as int - '0' as int)
  }

  lemma {:induction false} ValueOfDec(n: nat)
    ensures Value(Dec(n)) == n
  {
    if n >= 10 {
      ValueOfDec(n / 10);
      assert Dec(n)[..|Dec(n)| - 1] == Dec(n / 10);
    } else {
      assert Dec(n)[..0] == [];
    }
  }

  // --------------------------------------------------------- fixed-width fields

  /** The last w digits of a number. */
  function Fixed(n: nat, w: nat): (s: string)
    ensures |s| == w
  {
    if w == 0 then "" else Fixed(n / 10, w - 1) + [Digit(n % 10)]
  }

  lemma {:induction false} ZeroIsFixed(w: nat)
    ensures Fixed(0, w) == Zeros(w)
  {
    if w > 0 {
      ZeroIsFixed(w - 1);
    }
  }

  lemma {:induction false} PadIsFixed(n: nat, w: nat)
    requires n < Pow10(w) && w >= 1
    ensures Pad(n, w) == Fixed(n, w)
  {
    if w == 1 {
      assert Pow10(1) == 10 * Pow10(0);
      assert Fixed(n / 10, 0) == "";
    } else if n < 10 {
      ZeroIsFixed(w - 1);
      assert n / 10 == 0 && n % 10 == n;
    } else {
      PadIsFixed(n / 10, w - 1);
      assert Pad(n, w) == Pad(n / 10, w - 1) + [Digit(n % 10)];
    }
  }

  // ----------------------------------------------------------- order of texts

  /** The order in which a database compares text. */
  predicate LexLess(a: string, b: string) {
    b != [] && (a == [] || a[0] < b[0] || (a[0] == b[0] && LexLess(a[1..], b[1..])))
  }

  lemma {:induction false} LexOfConcat(p: string, q: string, a: string, b: string)
    requires |p| == |q|
    ensures LexLess(p + a, q + b) <==> LexLess(p, q) || (p == q && LexLess(a, b))
  {
    if p == [] {
      assert p + a == a && q + b == b;
    } else {
      LexOfConcat(p[1..], q[1..], a, b);
      assert (p + a)[1..] == p[1..] + a && (q + b)[1..] == q[1..] + b;
      assert p == [p[0]] + p[1..] && q == [q[0]] + q[1..];
    }
  }

  lemma DivideStep(x: nat, w: nat)
    requires w > 0 && x < Pow10(w)
    ensures x / 10 < Pow10(w - 1)
  {
  }

  lemma {:induction false} ValueOfFixed(n: nat, w: nat)
    requires n < Pow10(w)
    ensures Value(Fixed(n, w)) == n
  {
    if w > 0 {
      DivideStep(n, w);
      ValueOfFixed(n / 10, w - 1);
      assert Fixed(n, w)[..w - 1] == Fixed(n / 10, w - 1);
    }
  }

  /** Fixed-width fields order as their numbers do. */
  lemma {:induction false} FixedOrder(x: nat, y: nat, w: nat)
    requires x < Pow10(w) && y < Pow10(w)
    ensures LexLess(Fixed(x, w), Fixed(y, w)) <==> x < y
    ensures Fixed(x, w) == Fixed(y, w) <==> x == y
  {
    if w > 0 {
      DivideStep(x, w);
      DivideStep(y, w);
      FixedOrder(x / 10, y / 10, w - 1);
      LexOfConcat(Fixed(x / 10, w - 1), Fixed(y / 10, w - 1), [Digit(x % 10)], [Digit(y % 10)]);
      assert Fixed(x, w)[..w - 1] == Fixed(x / 10, w - 1) && Fixed(x, w)[w - 1] == Digit(x % 10);
      assert Fixed(y, w)[..w - 1] == Fixed(y / 10, w - 1) && Fixed(y, w)[w - 1] == Digit(y % 10);
    }
  }

  // ------------------------------------------------------ records of fields

  /** Fields printed one after the other, each followed by its separator. */
  function Render(fields: seq<nat>, widths: seq<nat>, seps: string): string
    requires |fields| == |widths| == |seps|
  {
    if fields == [] then ""
    else Pad(fields[0], widths[0]) + [seps[0]] + Render(fields[1..], widths[1..], seps[1..])
  }

  predicate Fits(fields: seq<nat>, widths: seq<nat>) {
    |fields| == |widths| && forall k :: 0 <= k < |fields| ==> widths[k] >= 1 && fields[k] < Pow10(widths[k])
  }

  predicate FieldsLess(a: seq<nat>, b: seq<nat>) {
    a != [] && b != [] && (a[0] < b[0] || (a[0] == b[0] && FieldsLess(a[1..], b[1..])))
  }

  lemma {:induction false} NotBeforeItself(a: string)
    ensures !LexLess(a, a)
  {
    if a != [] { NotBeforeItself(a[1..]); }
  }

  lemma SameConcat(p: string, q: string, a: string, b: string)
    requires |p| == |q|
    ensures p + a == q + b <==> p == q && a == b
  {
    if p + a == q + b {
      assert (p + a)[..|p|] == p && (q + b)[..|q|] == q;
      assert (p + a)[|p|..] == a && (q + b)[|q|..] == b;
    }
  }

  lemma FieldOrder(x: nat, y: nat, w: nat, sep: char, r: string, s: string)
    requires w >= 1 && x < Pow10(w) && y < Pow10(w)
    ensures LexLess(Pad(x, w) + [sep] + r, Pad(y, w) + [sep] + s) <==> x < y || (x == y && LexLess(r, s))
    ensures Pad(x, w) + [sep] + r == Pad(y, w) + [sep] + s <==> x == y && r == s
  {
    PadIsFixed(x, w);
    PadIsFixed(y, w);
    FixedOrder(x, y, w);
    var p, q := Pad(x, w), Pad(y, w);
    LexOfConcat(p + [sep], q + [sep], r, s);
    LexOfConcat(p, q, [sep], [sep]);
    NotBeforeItself([sep]);
    SameConcat(p + [sep], q + [sep], r, s);
    SameConcat(p, q, [sep], [sep]);
  }

  /** Records that fit their widths order as their fields do. */
  lemma {:induction false} RenderOrder(a: seq<nat>, b: seq<nat>, widths: seq<nat>, seps: string)
    requires Fits(a, widths) && Fits(b, widths) && |seps| == |widths|
    ensures LexLess(Render(a, widths, seps), Render(b, widths, seps)) <==> FieldsLess(a, b)
    ensures Render(a, widths, seps) == Render(b, widths, seps) <==> a == b
  {
    if a != [] {
      RenderOrder(a[1..], b[1..], widths[1..], seps[1..]);
      FieldOrder(a[0], b[0], widths[0], seps[0], Render(a[1..], widths[1..], seps[1..]), Render(b[1..], widths[1..], seps[1..]));
      assert a == [a[0]] + a[1..] && b == [b[0]] + b[1..];
    }
  }

  // ------------------------------------------------------------ reading them back

  /** The numbers in fields of these widths, a character between each two. */
  function ReadFields(s: string, widths: seq<nat>): seq<int> {
    if widths == [] || |s| <= widths[0] then [] else [Value(s[..widths[0]])] + ReadFields(s[widths[0] + 1..], widths[1..])
  }

  /** The characters after each of them, and what is left over. */
  function ReadSeparators(s: string, widths: seq<nat>): string {
    if widths == [] || |s| <= widths[0] then s else [s[widths[0]]] + ReadSeparators(s[widths[0] + 1..], widths[1..])
  }

  /** Reading undoes rendering. */
  lemma {:induction false} ReadUndoesRender(fields: seq<nat>, widths: seq<nat>, seps: string)
    requires Fits(fields, widths) && |seps| == |widths|
    ensures ReadFields(Render(fields, widths, seps), widths) == fields
    ensures ReadSeparators(Render(fields, widths, seps), widths) == seps
  {
    if fields != [] {
      var w, rest := widths[0], Render(fields[1..], widths[1..], seps[1..]);
      PadIsFixed(fields[0], w);
      ValueOfFixed(fields[0], w);
      ReadUndoesRender(fields[1..], widths[1..], seps[1..]);
      var s := Render(fields, widths, seps);
      assert s == Fixed(fields[0], w) + [seps[0]] + rest;
      assert s[..w] == Fixed(fields[0], w) && s[w] == seps[0] && s[w + 1..] == rest;
    }
  }
}
