/** The pay-URI a checkout page shows, and the decoder that undoes it. */
module Uri {
  import opened Common
  import opened Text
  import opened Strings

  const NANO: nat := 1000000000
  const SCHEME: string := "goblin:"

  // ------------------------------------------------------------------- amounts

  /** `trim_end_matches('0')`. */
  function TrimZeros(s: string): string {
    if s != [] && s[|s| - 1] == '0' then TrimZeros(s[..|s| - 1]) else s
  }

  /** Nanogrin as a decimal grin amount without trailing zeros. */
  function NanogrinToGrin(nano: nat): string {
    if nano % NANO == 0 then Dec(nano / NANO)
    else Dec(nano / NANO) + ['.'] + TrimZeros(Pad(nano % NANO, 9))
  }

  /** v with k zeros appended. */
  function Scaled(v: int, k: nat): int {
    if k == 0 then v else 10 * Scaled(v, k - 1)
  }

  /** The amount a decimal grin text stands for, in nanogrin. */
  function ParseGrin(s: string): int {
    match IndexOf(s, '.')
    case None => Value(s) * NANO
    case Some(i) =>
      var frac := s[i + 1..];
      Value(s[..i]) * NANO + if |frac| <= 9 then Scaled(Value(frac), 9 - |frac|) else 0
  }

  /** Dropped zeros are made up for by the scale. */
  lemma {:induction false} TrimZerosKeepsValue(s: string)
    ensures |TrimZeros(s)| <= |s| && Scaled(Value(TrimZeros(s)), |s| - |TrimZeros(s)|) == Value(s)
    ensures forall c :: c in TrimZeros(s) ==> c in s
  {
    if s != [] && s[|s| - 1] == '0' {
      TrimZerosKeepsValue(s[..|s| - 1]);
    }
  }

  lemma {:induction false} DigitsOnly(n: nat, w: nat)
    ensures forall c :: c in Fixed(n, w) ==> '0' <= c <= '9'
  {
    if w > 0 { DigitsOnly(n / 10, w - 1); }
  }

  lemma AmountText(nano: nat)
    ensures forall c :: c in NanogrinToGrin(nano) ==> '0' <= c <= '9' || c == '.'
  {
    assert Pow10(9) == NANO;
    PadIsFixed(nano % NANO, 9);
    DigitsOnly(nano % NANO, 9);
    TrimZerosKeepsValue(Pad(nano % NANO, 9));
  }

  lemma ParseParts(whole: string, frac: string)
    requires '.' !in whole && |frac| <= 9
    ensures ParseGrin(whole + ['.'] + frac) == Value(whole) * NANO + Scaled(Value(frac), 9 - |frac|)
  {
    FindsSeparator(whole, '.', frac);
  }

  lemma {:induction false} TrimZerosTrims(s: string)
    ensures TrimZeros(s) != "" ==> TrimZeros(s)[|TrimZeros(s)| - 1] != '0'
  {
    if s != [] && s[|s| - 1] == '0' { TrimZerosTrims(s[..|s| - 1]); }
  }

  /** Printing an amount loses nothing, and a decimal point is followed by digits
      that do not end in a zero. */
  lemma ParseUndoesPrint(nano: nat)
    ensures ParseGrin(NanogrinToGrin(nano)) == nano
    ensures '.' in NanogrinToGrin(nano) ==> NanogrinToGrin(nano)[|NanogrinToGrin(nano)| - 1] != '0'
  {
    var whole, part := nano / NANO, nano % NANO;
    ValueOfDec(whole);
    assert '.' !in Dec(whole);
    if part != 0 {
      assert Pow10(9) == NANO;
      PadIsFixed(part, 9);
      ValueOfFixed(part, 9);
      TrimZerosKeepsValue(Pad(part, 9));
      ParseParts(Dec(whole), TrimZeros(Pad(part, 9)));
      TrimZerosTrims(Pad(part, 9));
    }
  }

  // ---------------------------------------------------------- percent-encoding

  /** Section 2.3 of RFC 3986. */
  predicate Unreserved(c: char) {
    'A' <= c <= 'Z' || 'a' <= c <= 'z' || '0' <= c <= '9' || c == '-' || c == '.' || c == '_' || c == '~'
  }

  predicate IsBytes(s: string) {
    forall k :: 0 <= k < |s| ==> s[k] as int < 256
  }

  function HexDigit(n: nat): char
    requires n < 16
  {
    if n < 10 then '0' + n as char else 'A' + (n - 10) as char
  }

  /** Section 2.1 of RFC 3986: `%` and two upper-case hex digits of the byte. */
  function EncodeByte(c: char): string {
    if Unreserved(c) then [c] else ['%', HexDigit(c as int / 16 % 16), HexDigit(c as int % 16)]
  }

  function PercentEncode(s: string): string {
    Collect(EncodeByte, s)
  }

  function HexValue(c: char): int {
    if '0' <= c <= '9' then c as int - '0' as int
    else if 'A' <= c <= 'F' then c as int - 'A' as int + 10
    else -1
  }

  /** The decoder of section 2.1: every escape stands for one byte. */
  function PercentDecode(s: string): string {
    if s == [] then []
    else if s[0] == '%' && |s| >= 3 && HexValue(s[1]) >= 0 && HexValue(s[2]) >= 0
    then [(16 * HexValue(s[1]) + HexValue(s[2])) as char] + PercentDecode(s[3..])
    else [s[0]] + PercentDecode(s[1..])
  }

  lemma HexPair(a: nat, b: nat)
    requires a < 16 && b < 16
    ensures HexValue(HexDigit(a)) == a && HexValue(HexDigit(b)) == b
  {
  }

  lemma DecodeByte(c: char, rest: string)
    requires c as int < 256
    ensures PercentDecode(EncodeByte(c) + rest) == [c] + PercentDecode(rest)
  {
    var e := EncodeByte(c) + rest;
    if Unreserved(c) {
      assert e[1..] == rest;
    } else {
      assert e[3..] == rest;
      HexPair(c as int / 16, c as int % 16);
    }
  }

  lemma {:induction false} DecodeUndoesEncode(s: string)
    requires IsBytes(s)
    ensures PercentDecode(PercentEncode(s)) == s
  {
    if s != [] {
      var c, rest := s[0], s[1..];
      DecodeUndoesEncode(rest);
      CollectConcat(EncodeByte, [c], rest);
      assert s == [c] + rest && [c][..0] == [];
      assert Collect(EncodeByte, [c]) == EncodeByte(c);
      DecodeByte(c, PercentEncode(rest));
    }
  }

  /** The unreserved characters by their ASCII codes. */
  predicate IsPlain(c: char) {
    var n := c as int;
    65 <= n <= 90 || 97 <= n <= 122 || 48 <= n <= 57 || n in {45, 46, 95, 126}
  }

  /** What is encoded holds the unreserved characters of section 2.3 and percent signs
      only, and a text of these characters alone is left as it is. */
  lemma {:induction false} EncodedIsPlain(s: string)
    ensures forall c :: c in PercentEncode(s) ==> IsPlain(c) || c == '%'
    ensures (forall c :: c in s ==> IsPlain(c)) ==> PercentEncode(s) == s
    ensures s != [] ==> PercentEncode(s) != []
  {
    if s != [] {
      var n := |s| - 1;
      EncodedIsPlain(s[..n]);
      assert s == s[..n] + [s[n]] && s[n] in s;
      assert PercentEncode(s) == PercentEncode(s[..n]) + EncodeByte(s[n]);
    }
  }

  // ------------------------------------------------------------------ the URI

  predicate HasAmount(amount: Option<i64>) {
    amount.Some? && amount.value > 0
  }

  predicate HasMemo(memo: Option<string>) {
    memo.Some? && Trim(memo.value) != []
  }

  /** The memo is UTF-8, one `char` per byte. */
  predicate Encodable(memo: Option<string>) {
    memo.Some? ==> IsBytes(Trim(memo.value))
  }

  /** The query of a pay-URI. */
  function QueryText(amount: Option<i64>, memo: Option<string>): string
    requires Encodable(memo)
  {
    if HasAmount(amount) then
      "amount=" + NanogrinToGrin(amount.value) + if HasMemo(memo) then "&memo=" + PercentEncode(Trim(memo.value)) else ""
    else if HasMemo(memo) then "memo=" + PercentEncode(Trim(memo.value))
    else ""
  }

  function PayUri(nprofile: string, amount: Option<i64>, memo: Option<string>): string
    requires Encodable(memo)
  {
    SCHEME + nprofile + if HasAmount(amount) || HasMemo(memo) then "?" + QueryText(amount, memo) else ""
  }

  /** What a pay-URI says. */
  datatype Link = Link(profile: string, amount: Option<int>, memo: Option<string>)

  /** What the invoice meant it to say. */
  function Meant(nprofile: string, amount: Option<i64>, memo: Option<string>): Link {
    Link(nprofile,
         if amount.Some? && amount.value >= 1 then Some(amount.value) else None,
         if memo.Some? && Trim(memo.value) != "" then Some(Trim(memo.value)) else None)
  }

  function DecodeQuery(profile: string, query: string): Option<Link> {
    if StartsWith(query, "amount=") then
      var body := query[7..];
      match IndexOf(body, '&')
      case None => Some(Link(profile, Some(ParseGrin(body)), None))
      case Some(i) =>
        if StartsWith(body[i + 1..], "memo=")
        then Some(Link(profile, Some(ParseGrin(body[..i])), Some(PercentDecode(body[i + 1..][5..]))))
        else None
    else if StartsWith(query, "memo=") then Some(Link(profile, None, Some(PercentDecode(query[5..]))))
    else None
  }

  function DecodeUri(uri: string): Option<Link> {
    if !StartsWith(uri, "goblin:") then None
    else
      var rest := uri[7..];
      match IndexOf(rest, '?')
      case None => Some(Link(rest, None, None))
      case Some(i) => DecodeQuery(rest[..i], rest[i + 1..])
  }

  lemma DecodeAmount(profile: string, nano: nat)
    ensures DecodeQuery(profile, "amount=" + NanogrinToGrin(nano)) == Some(Link(profile, Some(nano), None))
  {
    StartsAlike(NanogrinToGrin(nano), "amount=");
    AmountText(nano);
    ParseUndoesPrint(nano);
  }

  lemma SplitQuery(profile: string, a: string, m: string)
    requires '&' !in a
    ensures DecodeQuery(profile, "amount=" + a + ("&memo=" + m)) == Some(Link(profile, Some(ParseGrin(a)), Some(PercentDecode(m))))
  {
    var body := a + ['&'] + ("memo=" + m);
    assert "amount=" + a + ("&memo=" + m) == "amount=" + body;
    StartsAlike(body, "amount=");
    FindsSeparator(a, '&', "memo=" + m);
    StartsAlike(m, "memo=");
  }

  lemma DecodeAmountAndMemo(profile: string, nano: nat, memo: string)
    requires IsBytes(memo)
    ensures DecodeQuery(profile, "amount=" + NanogrinToGrin(nano) + ("&memo=" + PercentEncode(memo))) ==
            Some(Link(profile, Some(nano), Some(memo)))
  {
    AmountText(nano);
    ParseUndoesPrint(nano);
    DecodeUndoesEncode(memo);
    SplitQuery(profile, NanogrinToGrin(nano), PercentEncode(memo));
  }

  lemma DecodeMemo(profile: string, memo: string)
    requires IsBytes(memo)
    ensures DecodeQuery(profile, "memo=" + PercentEncode(memo)) == Some(Link(profile, None, Some(memo)))
  {
    var m := PercentEncode(memo);
    StartsAlike(m, "memo=");
    StartsAlike("memo=" + m, "amount=");
    assert ("memo=" + m)[0] == 'm';
    DecodeUndoesEncode(memo);
  }

  lemma SplitUri(nprofile: string, q: string)
    requires '?' !in nprofile
    ensures DecodeUri(SCHEME + nprofile + ("?" + q)) == DecodeQuery(nprofile, q)
  {
    var rest := nprofile + ['?'] + q;
    assert SCHEME + nprofile + ("?" + q) == SCHEME + rest;
    StartsAlike(rest, SCHEME);
    FindsSeparator(nprofile, '?', q);
  }

  lemma QueryDecodes(nprofile: string, amount: Option<i64>, memo: Option<string>)
    requires Encodable(memo) && (HasAmount(amount) || HasMemo(memo))
    ensures DecodeQuery(nprofile, QueryText(amount, memo)) == Some(Meant(nprofile, amount, memo))
  {
    if HasAmount(amount) && HasMemo(memo) {
      DecodeAmountAndMemo(nprofile, amount.value, Trim(memo.value));
    } else if HasAmount(amount) {
      DecodeAmount(nprofile, amount.value);
      assert "amount=" + NanogrinToGrin(amount.value) + "" == "amount=" + NanogrinToGrin(amount.value);
    } else {
      DecodeMemo(nprofile, Trim(memo.value));
    }
  }

  /** The URI can be undone: it determines the profile, the positive amount and the
      trimmed memo. */
  lemma DecodeUndoesPayUri(nprofile: string, amount: Option<i64>, memo: Option<string>)
    requires '?' !in nprofile && Encodable(memo)
    ensures DecodeUri(PayUri(nprofile, amount, memo)) == Some(Meant(nprofile, amount, memo))
  {
    if HasAmount(amount) || HasMemo(memo) {
      SplitUri(nprofile, QueryText(amount, memo));
      QueryDecodes(nprofile, amount, memo);
    } else {
      var uri := SCHEME + nprofile + "";
      assert uri[..|SCHEME|] == SCHEME && uri[|SCHEME|..] == nprofile;
    }
  }

  // ------------------------------------------------------------- as they run

  method EncodeAll(s: string) returns (out: string)
    ensures out == PercentEncode(s)
  {
    out := "";
    for k := 0 to |s|
      invariant out == PercentEncode(s[..k])
    {
      assert s[..k + 1][..k] == s[..k];
      var b := s[k];
      if Unreserved(b) {
        out := out + [b];
      } else {
        out := out + ['%', HexDigit(b as int / 16 % 16), HexDigit(b as int % 16)];
      }
    }
    assert s[..|s|] == s;
  }

  lemma Appended(start: string, middle: string, encoded: string)
    ensures start + ("?" + middle) + (['&'] + "memo=" + encoded) == start + ("?" + (middle + ("&memo=" + encoded)))
    ensures start + "" + (['?'] + "memo=" + encoded) == start + ("?" + ("memo=" + encoded))
  {
    assert ['&'] + "memo=" == "&memo=";
  }

  method BuildUri(nprofile: string, amount: Option<i64>, memo: Option<string>) returns (uri: string)
    requires Encodable(memo)
    ensures uri == PayUri(nprofile, amount, memo)
    ensures '?' !in nprofile ==> DecodeUri(uri) == Some(Meant(nprofile, amount, memo))
  {
    uri := SCHEME + nprofile;
    ghost var start := uri;
    var sep := '?';
    if amount.Some? && amount.value > 0 {
      uri := uri + [sep];
      uri := uri + "amount=" + NanogrinToGrin(amount.value);
      sep := '&';
    }
    ghost var middle := if HasAmount(amount) then "amount=" + NanogrinToGrin(amount.value) else "";
    assert uri == start + (if HasAmount(amount) then "?" + middle else "");
    if memo.Some? {
      var trimmed := Trim(memo.value);
      if trimmed != [] {
        var encoded := EncodeAll(trimmed);
        uri := uri + ([sep] + "memo=" + encoded);
        Appended(start, middle, encoded);
      }
    }
    if '?' !in nprofile {
      DecodeUndoesPayUri(nprofile, amount, memo);
    }
  }
}
