/** Models of the .NET string and number services the client relies on:
    whitespace tests, ordinal substring search, lower-casing, decimal
    formatting and parsing of integers, String.Split on one character, and
    the upper-case hexadecimal rendering of BitConverter.ToString. */
module Text {
  import opened Wrappers

  /** char.IsWhiteSpace, restricted to the ASCII and Latin-1 white-space characters. */
  predicate IsWhiteSpaceChar(c: char) {
    c == ' ' || ('\t' <= c <= '\r') || c as int == 0x85 || c as int == 0xA0
  }

  /** string.IsNullOrWhiteSpace on a string that is not null. */
  predicate IsBlank(s: string) {
    forall i :: 0 <= i < |s| ==> IsWhiteSpaceChar(s[i])
  }

  /** string.IsNullOrWhiteSpace. */
  predicate IsNullOrWhiteSpace(s: Option<string>) {
    s.None? || IsBlank(s.value)
  }

  /** string.IsNullOrEmpty. */
  predicate IsNullOrEmpty(s: Option<string>) {
    s.None? || s.value == ""
  }

  /** `sub` occurs in `s` starting at index `i`. */
  ghost predicate OccursAt(s: string, sub: string, i: int) {
    0 <= i && i + |sub| <= |s| && s[i..i + |sub|] == sub
  }

  lemma OccursShift(s: string, sub: string)
    requires |s| > 0
    ensures (exists j :: OccursAt(s[1..], sub, j)) <==> (exists i :: 1 <= i && OccursAt(s, sub, i))
  {
    if exists j :: OccursAt(s[1..], sub, j) {
      var j :| OccursAt(s[1..], sub, j);
      assert s[1..][j..j + |sub|] == s[j + 1..j + 1 + |sub|];
      assert OccursAt(s, sub, j + 1);
    }
    if exists i :: 1 <= i && OccursAt(s, sub, i) {
      var i :| 1 <= i && OccursAt(s, sub, i);
      assert s[1..][i - 1..i - 1 + |sub|] == s[i..i + |sub|];
      assert OccursAt(s[1..], sub, i - 1);
    }
  }

  /** string.Contains with ordinal comparison: true exactly when `sub` occurs somewhere in `s`. */
  function Contains(s: string, sub: string): (r: bool)
    ensures r <==> exists i :: OccursAt(s, sub, i)
    decreases |s|
  {
    if |sub| > |s| then
      false
    else if s[..|sub|] == sub then
      assert OccursAt(s, sub, 0);
      true
    else
      OccursShift(s, sub);
      assert !OccursAt(s, sub, 0);
      Contains(s[1..], sub)
  }

  /** char.ToLower for the ASCII letters; other characters are kept. */
  function LowerChar(c: char): char {
    if 'A' <= c <= 'Z' then (c as int + 32) as char else c
  }

  /** string.ToLower, applied character by character. */
  function ToLower(s: string): string {
    seq(|s|, i requires 0 <= i < |s| => LowerChar(s[i]))
  }

  predicate IsDigit(c: char) {
    '0' <= c <= '9'
  }

  function DigitChar(d: int): char
    requires 0 <= d < 10
  {
    ('0' as int + d) as char
  }

  function DigitValue(c: char): int
    requires IsDigit(c)
  {
    c as int - '0' as int
  }

  /** The decimal digits of `n`, most significant first, without leading zeros. */
  function NatToString(n: nat): (r: string)
    ensures |r| > 0 && forall i :: 0 <= i < |r| ==> IsDigit(r[i])
  {
    if n < 10 then [DigitChar(n)] else NatToString(n / 10) + [DigitChar(n % 10)]
  }

  /** Int32.ToString(): a '-' sign for negative values, then the decimal digits. */
  function IntToString(i: int): (r: string)
    ensures forall k :: 0 <= k < |r| ==> IsDigit(r[k]) || r[k] == '-'
  {
    if i < 0 then "-" + NatToString(-i) else NatToString(i)
  }

  /** The value of a non-empty string of decimal digits. */
  function ParseDigits(s: string): (r: Option<int>)
    ensures r.Some? ==> r.value >= 0
  {
    if |s| == 0 || !IsDigit(s[|s| - 1]) then
      None
    else if |s| == 1 then
      Some(DigitValue(s[0]))
    else
      match ParseDigits(s[..|s| - 1])
      case None => None
      case Some(v) => Some(v * 10 + DigitValue(s[|s| - 1]))
  }

  const INT32_MIN: int := -0x8000_0000
  const INT32_MAX: int := 0x7FFF_FFFF

  predicate IsInt32(i: int) {
    INT32_MIN <= i <= INT32_MAX
  }

  /** Convert.ToInt32(string): an optional '-' and decimal digits whose value fits in 32 bits;
      None stands for the FormatException or OverflowException. */
  function ParseInt32(s: string): (r: Option<int>)
    ensures r.Some? ==> IsInt32(r.value)
  {
    var v: Option<int> :=
      if |s| > 0 && s[0] == '-' then
        (match ParseDigits(s[1..]) case Some(d) => Some(-d) case None => None)
      else
        (match ParseDigits(s) case Some(d) => Some(d) case None => None);
    if v.Some? && IsInt32(v.value) then v else None
  }

  lemma {:induction false} ParseDigitsOfNatToString(n: nat)
    decreases n
    ensures ParseDigits(NatToString(n)) == Some(n)
  {
    if n >= 10 {
      var s := NatToString(n);
      assert s[..|s| - 1] == NatToString(n / 10);
      ParseDigitsOfNatToString(n / 10);
    }
  }

  /** Formatting a 32-bit integer and parsing it back gives the same integer. */
  lemma ParseInt32OfIntToString(i: int)
    requires IsInt32(i)
    ensures ParseInt32(IntToString(i)) == Some(i)
  {
    if i < 0 {
      assert IntToString(i)[1..] == NatToString(-i);
      ParseDigitsOfNatToString(-i);
    } else {
      assert IsDigit(NatToString(i)[0]);
      ParseDigitsOfNatToString(i);
    }
  }

  /** String.Split(char) with default options: the pieces between separators, empty pieces kept. */
  function Split(s: string, sep: char): (r: seq<string>)
    ensures |r| >= 1
    decreases |s|
  {
    if |s| == 0 then
      [""]
    else
      var rest := Split(s[1..], sep);
      if s[0] == sep then [""] + rest else [[s[0]] + rest[0]] + rest[1..]
  }

  /** A string without the separator splits into itself alone. */
  lemma {:induction false} SplitWithoutSeparator(s: string, sep: char)
    requires sep !in s
    ensures Split(s, sep) == [s]
    decreases |s|
  {
    if |s| > 0 {
      SplitWithoutSeparator(s[1..], sep);
      assert [s[0]] + s[1..] == s;
    }
  }

  /** The first piece of `a + [sep] + b` is `a` when `a` holds no separator. */
  lemma {:induction false} SplitAtFirstSeparator(a: string, b: string, sep: char)
    requires sep !in a
    ensures Split(a + [sep] + b, sep) == [a] + Split(b, sep)
    decreases |a|
  {
    var s := a + [sep] + b;
    if |a| == 0 {
      assert s[1..] == b;
    } else {
      assert s[1..] == a[1..] + [sep] + b;
      SplitAtFirstSeparator(a[1..], b, sep);
      assert [a[0]] + a[1..] == a;
    }
  }

  /** The upper-case hexadecimal digit of a value below 16. */
  function HexDigit(d: int): char
    requires 0 <= d < 16
  {
    if d < 10 then ('0' as int + d) as char else ('A' as int + d - 10) as char
  }

  /** The two upper-case hexadecimal digits of one byte. */
  function HexPair(b: bv8): string {
    [HexDigit(b as int / 16), HexDigit(b as int % 16)]
  }

  /** BitConverter.ToString(byte[]): the hexadecimal pairs of the bytes, joined by '-'. */
  function BitConverterToString(bytes: seq<bv8>): string {
    if |bytes| == 0 then ""
    else if |bytes| == 1 then HexPair(bytes[0])
    else HexPair(bytes[0]) + "-" + BitConverterToString(bytes[1..])
  }

  /** String.Replace(c.ToString(), string.Empty): every occurrence of `c` removed. */
  function RemoveChar(s: string, c: char): (r: string)
    ensures c !in r
  {
    if |s| == 0 then "" else (if s[0] == c then "" else [s[0]]) + RemoveChar(s[1..], c)
  }

  /** The hexadecimal pairs of the bytes, concatenated without separators. */
  function HexString(bytes: seq<bv8>): string {
    if |bytes| == 0 then "" else HexPair(bytes[0]) + HexString(bytes[1..])
  }

  lemma {:induction false} RemoveCharAppend(a: string, b: string, c: char)
    ensures RemoveChar(a + b, c) == RemoveChar(a, c) + RemoveChar(b, c)
    decreases |a|
  {
    if |a| > 0 {
      assert (a + b)[1..] == a[1..] + b;
      RemoveCharAppend(a[1..], b, c);
    } else {
      assert a + b == b;
    }
  }

  lemma PairHasNoDash(b: bv8)
    ensures RemoveChar(HexPair(b), '-') == HexPair(b)
  {
    var p := HexPair(b);
    assert p[0] != '-' && p[1] != '-';
    assert p[1..][1..] == "";
    assert RemoveChar(p[1..], '-') == [p[1]] + RemoveChar("", '-');
    assert p == [p[0]] + [p[1]];
  }

  /** Removing the dashes from BitConverter.ToString leaves the plain hexadecimal string. */
  lemma {:induction false} BitConverterWithoutDashes(bytes: seq<bv8>)
    ensures RemoveChar(BitConverterToString(bytes), '-') == HexString(bytes)
    decreases |bytes|
  {
    if |bytes| == 1 {
      PairHasNoDash(bytes[0]);
      assert HexString(bytes) == HexPair(bytes[0]) + HexString([]);
    } else if |bytes| > 1 {
      var p := HexPair(bytes[0]);
      var rest := BitConverterToString(bytes[1..]);
      assert BitConverterToString(bytes) == (p + "-") + rest;
      RemoveCharAppend(p + "-", rest, '-');
      RemoveCharAppend(p, "-", '-');
      assert RemoveChar("-", '-') == "";
      PairHasNoDash(bytes[0]);
      BitConverterWithoutDashes(bytes[1..]);
    }
  }

  /** The value of an upper-case hexadecimal digit. */
  function HexValue(c: char): (r: Option<int>)
    ensures r.Some? ==> 0 <= r.value < 16
  {
    if '0' <= c <= '9' then Some(c as int - '0' as int)
    else if 'A' <= c <= 'F' then Some(c as int - 'A' as int + 10)
    else None
  }

  function ByteOf(hi: int, lo: int): bv8
    requires 0 <= hi < 16 && 0 <= lo < 16
  {
    (hi * 16 + lo) as bv8
  }

  /** The inverse of HexString: pairs of upper-case hexadecimal digits back to bytes. */
  function HexDecode(s: string): Option<seq<bv8>>
    decreases |s|
  {
    if |s| == 0 then
      Some([])
    else if |s| < 2 || HexValue(s[0]).None? || HexValue(s[1]).None? then
      None
    else
      match HexDecode(s[2..])
      case None => None
      case Some(rest) => Some([ByteOf(HexValue(s[0]).value, HexValue(s[1]).value)] + rest)
  }

  lemma HexValueOfDigit(d: int)
    requires 0 <= d < 16
    ensures HexValue(HexDigit(d)) == Some(d)
  {
  }

  lemma ByteOfDigits(b: bv8)
    ensures ByteOf(b as int / 16, b as int % 16) == b
  {
    var v := b as int;
    assert v == (v / 16) * 16 + v % 16;
  }

  /** Decoding one hexadecimal pair in front of a string. */
  lemma DecodePair(b: bv8, t: string)
    ensures HexDecode(HexPair(b) + t) ==
      match HexDecode(t) case Some(rest) => Some([b] + rest) case None => None
  {
    var s := HexPair(b) + t;
    var v := b as int;
    HexValueOfDigit(v / 16);
    HexValueOfDigit(v % 16);
    ByteOfDigits(b);
    assert s[0] == HexDigit(v / 16) && s[1] == HexDigit(v % 16);
    assert s[2..] == t;
  }

  /** Decoding the hexadecimal string of a byte sequence gives the bytes back,
      and the string has exactly two characters per byte. */
  lemma {:induction false} HexRoundTrip(bytes: seq<bv8>)
    ensures |HexString(bytes)| == 2 * |bytes|
    ensures HexDecode(HexString(bytes)) == Some(bytes)
    decreases |bytes|
  {
    if |bytes| > 0 {
      HexRoundTrip(bytes[1..]);
      DecodePair(bytes[0], HexString(bytes[1..]));
      assert [bytes[0]] + bytes[1..] == bytes;
    }
  }
}
