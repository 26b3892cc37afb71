/** The parts of Python's `str` behaviour that the pipeline relies on: `endswith`,
    the `in` substring test, `replace`, `str(int)` and UTF-8 encoding. */
module Strings {

  import opened Wrappers

  type byte = b: int | 0 <= b < 256

  /** `s.endswith(suffix)` */
  predicate EndsWith(s: string, suffix: string)
  {
    |suffix| <= |s| && s[|s| - |suffix|..] == suffix
  }

  /** `t in s` for strings, written as the left-to-right search Python performs. */
  predicate Contains(s: string, t: string)
    decreases |s|
  {
    t <= s || (|s| > 0 && Contains(s[1..], t))
  }

  /** `t` occurs in `s` starting at offset `i`. */
  predicate OccursAt(s: string, t: string, i: int)
  {
    0 <= i <= |s| - |t| && s[i..i + |t|] == t
  }

  /** The search agrees with the textbook definition: `t` occurs at some offset of `s`. */
  lemma {:induction false} ContainsIff(s: string, t: string)
    ensures Contains(s, t) <==> exists i :: OccursAt(s, t, i)
    decreases |s|
  {
    if t <= s {
      assert OccursAt(s, t, 0);
    } else if |s| > 0 {
      ContainsIff(s[1..], t);
      if Contains(s[1..], t) {
        var i :| OccursAt(s[1..], t, i);
        assert s[i + 1..i + 1 + |t|] == s[1..][i..i + |t|];
        assert OccursAt(s, t, i + 1);
      }
      if exists i :: OccursAt(s, t, i) {
        var i :| OccursAt(s, t, i);
        assert i > 0;
        assert s[1..][i - 1..i - 1 + |t|] == s[i..i + |t|];
        assert OccursAt(s[1..], t, i - 1);
      }
    }
  }

  /** The longest prefix of `s` that holds no '/': what the pattern `[^/]+` consumes
      greedily, and one component of a path. */
  function TakeUntilSlash(s: string): (seg: string)
    ensures seg <= s
    ensures forall i :: 0 <= i < |seg| ==> seg[i] != '/'
    ensures |seg| == |s| || s[|seg|] == '/'
    decreases |s|
  {
    if s == [] || s[0] == '/' then [] else [s[0]] + TakeUntilSlash(s[1..])
  }

  /** No character of `s` is '/'. */
  predicate NoSlash(s: string)
  {
    forall i :: 0 <= i < |s| ==> s[i] != '/'
  }

  lemma NoSlashConcat(a: string, b: string)
    requires NoSlash(a) && NoSlash(b)
    ensures NoSlash(a + b)
  {
    forall i | 0 <= i < |a + b| ensures (a + b)[i] != '/' {
      if i >= |a| {
        assert (a + b)[i] == b[i - |a|];
      }
    }
  }

  /** The greedy segment is determined by its two properties: a prefix without '/' that
      reaches the end of `s` or a '/'. */
  lemma {:induction false} TakeUntilSlashUnique(s: string, seg: string)
    requires seg <= s && NoSlash(seg)
    requires |seg| == |s| || s[|seg|] == '/'
    ensures TakeUntilSlash(s) == seg
    decreases |s|
  {
    if seg != [] {
      TakeUntilSlashUnique(s[1..], seg[1..]);
    }
  }

  /** `s.replace(pat, rep)`: every non-overlapping occurrence, scanned left to right. */
  function ReplaceAll(s: string, pat: string, rep: string): (r: string)
    requires pat != []
    decreases |s|
  {
    if |s| < |pat| then s
    else if pat <= s then rep + ReplaceAll(s[|pat|..], pat, rep)
    else [s[0]] + ReplaceAll(s[1..], pat, rep)
  }

  /** A string without an occurrence of the pattern is left as it is. */
  lemma {:induction false} ReplaceAllAbsent(s: string, pat: string, rep: string)
    requires pat != []
    requires !Contains(s, pat)
    ensures ReplaceAll(s, pat, rep) == s
    decreases |s|
  {
    if |s| >= |pat| {
      ReplaceAllAbsent(s[1..], pat, rep);
    }
  }

  /** A longer replacement makes the string grow, and strictly so once the pattern
      occurs: `replace` then never hands back its input. */
  lemma {:induction false} ReplaceAllGrows(s: string, pat: string, rep: string)
    requires pat != [] && |rep| > |pat|
    ensures |ReplaceAll(s, pat, rep)| >= |s|
    ensures Contains(s, pat) ==> |ReplaceAll(s, pat, rep)| > |s|
    decreases |s|
  {
    if |s| < |pat| {
      if Contains(s, pat) {
        ContainsIff(s, pat);
        assert false;
      }
    } else if pat <= s {
      ReplaceAllGrows(s[|pat|..], pat, rep);
    } else {
      ReplaceAllGrows(s[1..], pat, rep);
    }
  }

  function DigitChar(d: nat): char
    requires d < 10
  {
    (('0' as int) + d) as char
  }

  lemma DigitRoundTrip(d: nat)
    requires d < 10
    ensures IsDigit(DigitChar(d)) && DigitValue(DigitChar(d)) == d
  {
  }

  function DigitValue(c: char): nat
  {
    if '0' <= c <= '9' then (c as int) - ('0' as int) else 0
  }

  predicate IsDigit(c: char)
  {
    '0' <= c <= '9'
  }

  /** The value of a string of decimal digits. */
  function DecimalValue(s: string): nat
  {
    if s == [] then 0 else DecimalValue(s[..|s| - 1]) * 10 + DigitValue(s[|s| - 1])
  }

  /** `str(n)` for a non-negative integer. */
  function NatToDecimal(n: nat): (s: string)
    decreases n
  {
    if n < 10 then [DigitChar(n)] else NatToDecimal(n / 10) + [DigitChar(n % 10)]
  }

  /** `str(n)` is a non-empty run of digits without a leading zero whose value is n. */
  lemma {:induction false} NatToDecimalCorrect(n: nat)
    ensures var s := NatToDecimal(n);
      s != [] && (forall i :: 0 <= i < |s| ==> IsDigit(s[i])) &&
      (|s| > 1 ==> s[0] != '0') &&
      DecimalValue(s) == n
    decreases n
  {
    if n >= 10 {
      NatToDecimalCorrect(n / 10);
      DigitRoundTrip(n % 10);
      var s := NatToDecimal(n);
      assert s[..|s| - 1] == NatToDecimal(n / 10);
    } else {
      DigitRoundTrip(n);
    }
  }

  /** The UTF-8 encoding of one Unicode scalar value: one byte below U+0080, two below
      U+0800, three below U+10000 and four above, with the lead byte announcing the length
      and the code point rebuilt from the payload bits. */
  function EncodeChar(c: char): (bs: seq<byte>)
    ensures 1 <= |bs| <= 4 && |bs| == SequenceLength(c as int)
    ensures LeadLength(bs[0]) == |bs|
    ensures forall i :: 1 <= i < |bs| ==> IsContinuation(bs[i])
    ensures ScalarOf(bs) == c as int
  {
    // cp = ((q3 * 64 + b2) * 64 + b1) * 64 + b0, with six bits in each bI
    var cp := c as int;
    var q1, b0 := cp / 64, cp % 64;
    var q2, b1 := q1 / 64, q1 % 64;
    var q3, b2 := q2 / 64, q2 % 64;
    if cp < 0x80 then [cp]
    else if cp < 0x800 then [0xC0 + q1, 0x80 + b0]
    else if cp < 0x10000 then [0xE0 + q2, 0x80 + b1, 0x80 + b0]
    else [0xF0 + q3, 0x80 + b2, 0x80 + b1, 0x80 + b0]
  }

  /** The number of bytes UTF-8 spends on a code point. */
  function SequenceLength(cp: int): nat
  {
    if cp < 0x80 then 1 else if cp < 0x800 then 2 else if cp < 0x10000 then 3 else 4
  }

  /** The length a lead byte announces, or 0 for a byte that cannot lead. */
  function LeadLength(b: byte): nat
  {
    if b < 0x80 then 1
    else if 0xC0 <= b < 0xE0 then 2
    else if 0xE0 <= b < 0xF0 then 3
    else if 0xF0 <= b < 0xF8 then 4
    else 0
  }

  /** A continuation byte, `10xxxxxx`. */
  predicate IsContinuation(b: byte)
  {
    0x80 <= b < 0xC0
  }

  /** The code point a well-formed sequence of one to four bytes carries: the lead
      byte's payload followed by six bits from each continuation byte. */
  function ScalarOf(bs: seq<byte>): int
    requires 1 <= |bs| <= 4
  {
    if |bs| == 1 then bs[0] as int
    else if |bs| == 2 then (bs[0] as int - 0xC0) * 64 + (bs[1] as int - 0x80)
    else if |bs| == 3 then (bs[0] as int - 0xE0) * 4096 + (bs[1] as int - 0x80) * 64 + (bs[2] as int - 0x80)
    else (bs[0] as int - 0xF0) * 262144 + (bs[1] as int - 0x80) * 4096 + (bs[2] as int - 0x80) * 64 + (bs[3] as int - 0x80)
  }

  /** A Unicode scalar value: not a surrogate and at most U+10FFFF. */
  predicate IsScalar(cp: int)
  {
    0 <= cp < 0xD800 || 0xE000 <= cp < 0x110000
  }

  /** `s.encode('utf-8')` */
  function EncodeUtf8(s: string): (bs: seq<byte>)
    ensures |s| <= |bs| <= 4 * |s|
  {
    if s == [] then [] else EncodeChar(s[0]) + EncodeUtf8(s[1..])
  }

  /** Strict UTF-8 decoding (`bytes.decode('utf-8')`): None on a bad lead byte, a missing
      or bad continuation byte, a surrogate, a code point past U+10FFFF or an overlong
      form. */
  function DecodeUtf8(bs: seq<byte>): (r: Option<string>)
    decreases |bs|
  {
    if bs == [] then Some([])
    else
      var n := LeadLength(bs[0]);
      if n == 0 || |bs| < n || exists i :: 1 <= i < n && !IsContinuation(bs[i]) then None
      else
        var cp := ScalarOf(bs[..n]);
        if !IsScalar(cp) || SequenceLength(cp) != n then None
        else match DecodeUtf8(bs[n..])
          case None => None
          case Some(t) => Some([cp as char] + t)
  }

  /** Decoding undoes encoding, so `encode('utf-8')` loses nothing. */
  lemma {:induction false} DecodeEncodeUtf8(s: string)
    ensures DecodeUtf8(EncodeUtf8(s)) == Some(s)
  {
    if s != [] {
      var head := EncodeChar(s[0]);
      var bs := EncodeUtf8(s);
      assert bs == head + EncodeUtf8(s[1..]);
      assert bs[..|head|] == head && bs[|head|..] == EncodeUtf8(s[1..]);
      DecodeEncodeUtf8(s[1..]);
      assert (s[0] as int) as char == s[0];
      assert [s[0]] + s[1..] == s;
    }
  }

  /** Two texts with the same encoding are the same text. */
  lemma EncodeUtf8Injective(s: string, t: string)
    requires EncodeUtf8(s) == EncodeUtf8(t)
    ensures s == t
  {
    DecodeEncodeUtf8(s);
    DecodeEncodeUtf8(t);
  }

  /** On ASCII text the encoding is the identity on code points. */
  lemma {:induction false} EncodeUtf8Ascii(s: string)
    requires forall i :: 0 <= i < |s| ==> (s[i] as int) < 0x80
    ensures |EncodeUtf8(s)| == |s|
    ensures forall i :: 0 <= i < |s| ==> EncodeUtf8(s)[i] == s[i] as int
  {
    if s != [] {
      EncodeUtf8Ascii(s[1..]);
    }
  }

  /** A non-empty sequence is its front followed by its last element. */
  lemma FrontThenLast<T>(c: seq<T>)
    requires c != []
    ensures c[..|c| - 1] + [c[|c| - 1]] == c
  {
  }

  /** The three pieces of `p + d + q` can be cut back out of it. */
  lemma SliceParts<T>(p: seq<T>, d: seq<T>, q: seq<T>)
    requires q != []
    ensures (p + d + q)[..|p|] == p
    ensures (p + d + q)[|p|..|p| + |d|] == d
    ensures (p + d + q)[|p| + |d|] == q[0]
  {
  }

  /** Membership survives concatenation on either side. */
  lemma InConcat<T>(a: seq<T>, b: seq<T>, x: T)
    requires x in a || x in b
    ensures x in a + b
  {
    if x in b {
      var j :| 0 <= j < |b| && b[j] == x;
      assert (a + b)[|a| + j] == x;
    }
  }
}
