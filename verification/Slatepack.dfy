/** The payment message: a preamble line, a blank line and the slatepack armor.
    Text is modelled as UTF-8, one `char` per byte, because the limits count
    bytes. */
module Slatepack {
  import opened Common
  import opened Strings

  const MAX_WRAP_CONTENT: nat := 64 * 1024
  const MAX_RUMOR_CONTENT: nat := 32 * 1024
  const MAX_SLATEPACK: nat := 30 * 1024
  const PREAMBLE: string :=
    "[Goblin] GRIN payment" + " message \U{E2}\U{80}\U{94} " + "open in Goblin " + "(https://goblin.st) " + "to process."
  const ARMOR_BEGIN: string := "BEGINSLATEPACK."
  const ARMOR_END: string := "ENDSLATEPACK."

  // ------------------------------------------------------------- the functions

  function BuildPaymentContent(slatepack: string): string {
    PREAMBLE + "\n\n" + Trim(slatepack)
  }

  /** Where the two searches put the block: the first opening, and the end of the
      first closing after it. */
  function Span(content: string): (r: Option<(nat, nat)>)
    ensures r.Some? ==> r.value.0 + |ARMOR_END| <= r.value.1 <= |content|
  {
    var start := Find(content, ARMOR_BEGIN);
    if start.None? then None
    else
      var endRel := Find(content[start.value..], ARMOR_END);
      if endRel.None? then None else Some((start.value, start.value + endRel.value + |ARMOR_END|))
  }

  predicate SecondBlock(rest: string) {
    var next := Find(rest, ARMOR_BEGIN);
    next.Some? && Find(rest[next.value..], ARMOR_END).Some?
  }

  function ExtractSlatepack(content: string): Option<string> {
    if |content| > MAX_RUMOR_CONTENT then None
    else
      var span := Span(content);
      if span.None? || SecondBlock(content[span.value.1..]) then None
      else
        var armor := Trim(content[span.value.0..span.value.1]);
        if |armor| > MAX_SLATEPACK then None else Some(armor)
  }

  // ------------------------------------------------------------- what they mean

  /** A complete block of armor runs from s to e. */
  predicate Block(content: string, s: int, e: int) {
    At(content, ARMOR_BEGIN, s) && s <= e - |ARMOR_END| && At(content, ARMOR_END, e - |ARMOR_END|)
  }

  /** The block that starts at the first opening and ends at the first closing
      after it. */
  ghost predicate FirstBlock(content: string, s: int, e: int) {
    && Block(content, s, e)
    && (forall i :: 0 <= i < s ==> !At(content, ARMOR_BEGIN, i))
    && (forall j :: s <= j < e - |ARMOR_END| ==> !At(content, ARMOR_END, j))
  }

  ghost predicate BlockFrom(content: string, from: int) {
    exists s, e :: from <= s && Block(content, s, e)
  }

  lemma Shift(content: string, from: int, p: string)
    requires 0 <= from <= |content|
    ensures forall i :: i >= 0 ==> (At(content[from..], p, i) <==> At(content, p, from + i))
  {
    forall i | i >= 0 ensures At(content[from..], p, i) <==> At(content, p, from + i) {
      if i + |p| <= |content| - from {
        assert content[from..][i..i + |p|] == content[from + i..from + i + |p|];
      }
    }
  }

  lemma FindFrom(content: string, from: int, p: string)
    requires 0 <= from <= |content| && p != []
    ensures match Find(content[from..], p)
            case Some(i) => At(content, p, from + i) && forall j :: from <= j < from + i ==> !At(content, p, j)
            case None => forall j :: from <= j ==> !At(content, p, j)
  {
    FindsTheFirst(content[from..], p);
    Shift(content, from, p);
    forall j | from <= j ensures At(content, p, j) <==> At(content[from..], p, j - from) {
    }
  }

  /** The second search answers exactly whether another complete block follows. */
  lemma SecondBlockIsBlock(content: string, end: int)
    requires 0 <= end <= |content|
    ensures SecondBlock(content[end..]) <==> BlockFrom(content, end)
  {
    FindFrom(content, end, ARMOR_BEGIN);
    var next := Find(content[end..], ARMOR_BEGIN);
    if next.Some? {
      var s := end + next.value;
      assert content[end..][next.value..] == content[s..];
      FindFrom(content, s, ARMOR_END);
      var close := Find(content[s..], ARMOR_END);
      if BlockFrom(content, end) {
        var s', e' :| end <= s' && Block(content, s', e');
        assert s <= s' && At(content, ARMOR_END, e' - |ARMOR_END|);
      }
      assert close.Some? ==> Block(content, s, s + close.value + |ARMOR_END|);
    }
  }

  /** The searches answer the first block when there is one, and only then. */
  lemma SpanIsFirstBlock(content: string)
    ensures match Span(content)
            case Some(span) => FirstBlock(content, span.0, span.1)
            case None => !BlockFrom(content, 0)
    ensures Span(content).Some? ==> BlockFrom(content, 0)
  {
    FindFrom(content, 0, ARMOR_BEGIN);
    assert content[0..] == content;
    var start := Find(content, ARMOR_BEGIN);
    if start.Some? {
      FindFrom(content, start.value, ARMOR_END);
      if BlockFrom(content, 0) {
        var s', e' :| 0 <= s' && Block(content, s', e');
        assert start.value <= s' && At(content, ARMOR_END, e' - |ARMOR_END|);
      }
      if Span(content).Some? {
        assert Block(content, Span(content).value.0, Span(content).value.1);
      }
    }
  }

  lemma FirstBlockIsUnique(content: string, s: int, e: int, s': int, e': int)
    requires FirstBlock(content, s, e) && FirstBlock(content, s', e')
    ensures s == s' && e == e'
  {
    assert At(content, ARMOR_BEGIN, s) && At(content, ARMOR_BEGIN, s');
    assert At(content, ARMOR_END, e - |ARMOR_END|) && At(content, ARMOR_END, e' - |ARMOR_END|);
  }

  lemma BlockEnds(content: string, s: int, e: int)
    requires Block(content, s, e)
    ensures 0 <= s < e <= |content| && Trimmed(content[s..e])
  {
    assert content[s] == content[s..s + |ARMOR_BEGIN|][0] == 'B';
    var n := |ARMOR_END|;
    assert content[e - 1] == content[e - n..e][n - 1] == '.';
  }

  /** Extraction in one statement: it yields x exactly when the content is within
      its limit, x is the first block, no complete block follows it, and x is
      within its own limit. */
  lemma ExtractsTheOnlyBlock(content: string, s: int, e: int)
    requires FirstBlock(content, s, e)
    ensures ExtractSlatepack(content) ==
            if |content| <= 32768 && !BlockFrom(content, e) && e - s <= 30720
            then Some(content[s..e]) else None
  {
    SpanIsFirstBlock(content);
    assert Block(content, s, e) && BlockFrom(content, 0);
    FirstBlockIsUnique(content, s, e, Span(content).value.0, Span(content).value.1);
    SecondBlockIsBlock(content, e);
    BlockEnds(content, s, e);
    TrimKeepsTrimmed(content[s..e]);
  }

  /** Without a complete block nothing is extracted. */
  lemma NoBlockNoArmor(content: string)
    requires !BlockFrom(content, 0)
    ensures ExtractSlatepack(content) == None
  {
    SpanIsFirstBlock(content);
  }

  lemma BlockIsMarked(content: string, s: int, e: int)
    requires Block(content, s, e)
    ensures 0 <= s && s + 28 <= e <= |content|
    ensures content[s..s + 15] == "BEGINSLATEPACK." && content[e - 13..e] == "ENDSLATEPACK."
  {
    assert content[e - 13..e - 13 + |ARMOR_END|] == ARMOR_END;
    // a closing cannot begin inside an opening
    assert content[e - 13..e][0] == content[e - 13] == 'E' && content[e - 13..e][1] == content[e - 12] == 'N';
    assert forall j :: s <= j < s + 15 ==> content[j] == content[s..s + 15][j - s];
  }

  /** A message with two complete blocks, one after the other, is refused. */
  lemma TwoBlocksAreRefused(content: string, s1: int, e1: int, s2: int, e2: int)
    requires Block(content, s1, e1) && e1 <= s2 && Block(content, s2, e2)
    ensures ExtractSlatepack(content) == None
  {
    assert BlockFrom(content, 0);
    SpanIsFirstBlock(content);
    var s, e := Span(content).value.0, Span(content).value.1;
    assert At(content, ARMOR_BEGIN, s1) && At(content, ARMOR_END, e1 - |ARMOR_END|);
    assert BlockFrom(content, e);
    ExtractsTheOnlyBlock(content, s, e);
  }

  // ---------------------------------------------------------------- round trip

  lemma PreambleHasNoB()
    ensures 'B' !in PREAMBLE
  {
    assert 'B' !in "[Goblin] GRIN payment";
    assert 'B' !in " message \U{E2}\U{80}\U{94} ";
    assert 'B' !in "open in Goblin ";
    assert 'B' !in "(https://goblin.st) ";
    assert 'B' !in "to process.";
  }

  /** Nothing in the preamble can open a block. */
  lemma PreambleOpensNothing(armor: string, i: int)
    requires 0 <= i < |PREAMBLE| + 2
    ensures !At(PREAMBLE + "\n\n" + armor, ARMOR_BEGIN, i)
  {
    var head := PREAMBLE + "\n\n";
    PreambleHasNoB();
    assert head[i] in head;
    var content := head + armor;
    assert content[i] == head[i];
    HeadsMatch(content, ARMOR_BEGIN);
  }

  /** A head in which no block can open, whatever follows. */
  ghost predicate OpensNothing(head: string) {
    forall armor: string, i :: 0 <= i < |head| ==> !At(head + armor, ARMOR_BEGIN, i)
  }

  lemma Reindex(content: string, armor: string, n: nat, e: int)
    requires n + |armor| == |content|
    requires forall i :: i >= 0 ==> (At(armor, ARMOR_BEGIN, i) <==> At(content, ARMOR_BEGIN, n + i))
    requires forall i :: i >= 0 ==> (At(armor, ARMOR_END, i) <==> At(content, ARMOR_END, n + i))
    requires forall i :: 0 <= i < n ==> !At(content, ARMOR_BEGIN, i)
    ensures FirstBlock(content, n, n + e) <==> FirstBlock(armor, 0, e)
  {
    var m := |ARMOR_END|;
    assert e >= m ==> (At(armor, ARMOR_END, e - m) <==> At(content, ARMOR_END, n + (e - m)));
    assert At(armor, ARMOR_BEGIN, 0) <==> At(content, ARMOR_BEGIN, n + 0);
    if FirstBlock(armor, 0, e) {
      forall j | n <= j < n + e - m ensures !At(content, ARMOR_END, j) {
        assert At(armor, ARMOR_END, j - n) <==> At(content, ARMOR_END, n + (j - n));
      }
    }
    if FirstBlock(content, n, n + e) {
      forall j | 0 <= j < e - m ensures !At(armor, ARMOR_END, j) {
        assert !At(content, ARMOR_END, n + j);
      }
    }
  }

  /** What is appended to such a head holds the message's first block iff it opens
      with one. */
  lemma BuiltFirstBlock(head: string, armor: string, e: int)
    requires OpensNothing(head)
    ensures FirstBlock(head + armor, |head|, |head| + e) <==> FirstBlock(armor, 0, e)
  {
    var content, n := head + armor, |head|;
    assert content[n..] == armor;
    Shift(content, n, ARMOR_BEGIN);
    Shift(content, n, ARMOR_END);
    Reindex(content, armor, n, e);
  }

  lemma NothingFollows(content: string)
    ensures !BlockFrom(content, |content|)
  {
  }

  lemma WholeArmorExtracts(content: string, n: nat)
    requires FirstBlock(content, n, |content|) && n <= 1024
    ensures ExtractSlatepack(content) == if |content| - n <= MAX_SLATEPACK then Some(content[n..|content|]) else None
  {
    NothingFollows(content);
    ExtractsTheOnlyBlock(content, n, |content|);
  }

  /** A first block as long as the armor is the armor's own span. */
  lemma SpansAll(head: string, armor: string, s: int, e: int)
    requires OpensNothing(head) && FirstBlock(head + armor, s, e) && e - s == |armor|
    ensures s == |head| && e == |head| + |armor|
  {
    BlockEnds(head + armor, s, e);
    assert At(head + armor, ARMOR_BEGIN, s);
  }

  lemma OtherTextDiffers(head: string, armor: string)
    requires OpensNothing(head) && !FirstBlock(armor, 0, |armor|)
    ensures ExtractSlatepack(head + armor) != Some(armor)
  {
    var content := head + armor;
    SpanIsFirstBlock(content);
    if Span(content).None? {
      NoBlockNoArmor(content);
    } else {
      var s, e := Span(content).value.0, Span(content).value.1;
      ExtractsTheOnlyBlock(content, s, e);
      BlockEnds(content, s, e);
      if content[s..e] == armor {
        SpansAll(head, armor, s, e);
        BuiltFirstBlock(head, armor, |armor|);
      }
    }
  }

  lemma ExtractsArmor(head: string, armor: string)
    requires OpensNothing(head) && |head| <= 1024
    ensures ExtractSlatepack(head + armor) == Some(armor) <==> FirstBlock(armor, 0, |armor|) && |armor| <= MAX_SLATEPACK
  {
    BuiltFirstBlock(head, armor, |armor|);
    if FirstBlock(armor, 0, |armor|) {
      WholeArmorExtracts(head + armor, |head|);
      assert (head + armor)[|head|..|head + armor|] == armor;
    } else {
      OtherTextDiffers(head, armor);
    }
  }

  /** A message gives its armor back, trimmed, if and only if that is one
      well-delimited block (its first closing is at its end) within its limit. */
  lemma ExtractUndoesBuild(slatepack: string)
    ensures ExtractSlatepack(BuildPaymentContent(slatepack)) == Some(Trim(slatepack)) <==>
            FirstBlock(Trim(slatepack), 0, |Trim(slatepack)|) && |Trim(slatepack)| <= 30720
  {
    var head := PREAMBLE + "\n\n";
    forall armor: string, i | 0 <= i < |head| ensures !At(head + armor, ARMOR_BEGIN, i) {
      PreambleOpensNothing(armor, i);
    }
    ExtractsArmor(head, Trim(slatepack));
  }
}
