/** The demo app's `ByteArray.toHex`: every byte, read unsigned, as two
    lowercase base-16 digits, joined without separator; and the decoder that
    reads consecutive digit pairs back. */
module ByteArrayExt {
  import opened Kotlin

  /** `asUByteArray()`: the unsigned reading of a signed byte. */
  function Unsigned(b: int8): (u: nat)
    ensures u < 256
    ensures (u - b as int) % 256 == 0
  {
    if b < 0 then b as int + 256 else b as int
  }

  /** A lowercase hex digit: `0`-`9` or `a`-`f`. */
  predicate IsHexDigit(c: char)
  {
    '0' <= c <= '9' || 'a' <= c <= 'f'
  }

  /** The lowercase digit Kotlin's `toString(radix = 16)` writes for `d`. */
  function Digit(d: nat): (c: char)
    requires d < 16
    ensures IsHexDigit(c)
  {
    if d < 10 then ('0' as int + d) as char else ('a' as int + d - 10) as char
  }

  /** `toString(radix = 16)` of a non-negative number: its base-16 digits,
      most significant first, without leading zeros. */
  function Radix16(n: nat): (s: string)
    ensures |s| >= 1
    decreases n
  {
    if n < 16 then [Digit(n)] else Radix16(n / 16) + [Digit(n % 16)]
  }

  /** `padStart(len, c)`. */
  function PadStart(s: string, len: nat, c: char): (r: string)
  {
    if |s| >= len then s else seq(len - |s|, _ => c) + s
  }

  /** One byte as the source renders it. */
  function ByteHex(b: int8): (s: string)
    ensures s == [Digit(Unsigned(b) / 16), Digit(Unsigned(b) % 16)]
  {
    var u := Unsigned(b);
    if u < 16 then
      assert PadStart([Digit(u)], 2, '0') == ['0'] + [Digit(u)];
      PadStart(Radix16(u), 2, '0')
    else
      assert Radix16(u / 16) == [Digit(u / 16)];
      PadStart(Radix16(u), 2, '0')
  }

  /** `ByteArray.toHex()`: `joinToString("")` of the per-byte renderings. */
  function ToHex(a: seq<int8>): (s: string)
    ensures |s| == 2 * |a|
  {
    if |a| == 0 then "" else ByteHex(a[0]) + ToHex(a[1..])
  }

  // ----- Decoding -------------------------------------------------------------

  /** The value of a lowercase hex digit. */
  function DigitValue(c: char): (r: Option<nat>)
    ensures r.Some? ==> r.value < 16 && Digit(r.value) == c
    ensures r.None? <==> !IsHexDigit(c)
  {
    if '0' <= c <= '9' then Some(c as int - '0' as int)
    else if 'a' <= c <= 'f' then Some(c as int - 'a' as int + 10)
    else None
  }

  /** The signed byte whose unsigned reading is `u`. */
  function Signed(u: nat): (b: int8)
    requires u < 256
    ensures Unsigned(b) == u
  {
    if u < 128 then u as int8 else (u - 256) as int8
  }

  lemma SignedOfUnsigned(b: int8)
    ensures Signed(Unsigned(b)) == b
  {
  }

  /** Reads the string two digits at a time; `None` on an odd length or a
      character that is not a lowercase hex digit. */
  function FromHex(s: string): (r: Option<seq<int8>>)
    ensures r.Some? ==> 2 * |r.value| == |s|
    decreases |s|
  {
    if |s| == 0 then Some([])
    else if |s| == 1 then None
    else
      match (DigitValue(s[0]), DigitValue(s[1]), FromHex(s[2..]))
      case (Some(hi), Some(lo), Some(rest)) => Some([Signed(16 * hi + lo)] + rest)
      case _ => None
  }

  // ----- Properties -----------------------------------------------------------

  /** Only lowercase hex digits appear in the output. */
  lemma {:induction false} ToHexAlphabet(a: seq<int8>)
    ensures forall i :: 0 <= i < |ToHex(a)| ==> IsHexDigit(ToHex(a)[i])
  {
    if |a| > 0 {
      ToHexAlphabet(a[1..]);
      forall i | 0 <= i < |ToHex(a)| ensures IsHexDigit(ToHex(a)[i]) {
        if i >= 2 {
          assert ToHex(a)[i] == ToHex(a[1..])[i - 2];
        }
      }
    }
  }

  /** Characters `2i` and `2i+1` render byte `i`. */
  lemma {:induction false} ToHexPair(a: seq<int8>, i: nat)
    requires i < |a|
    ensures ToHex(a)[2 * i .. 2 * i + 2] == ByteHex(a[i])
  {
    if i > 0 {
      ToHexPair(a[1..], i - 1);
      assert ToHex(a)[2 * i .. 2 * i + 2] == ToHex(a[1..])[2 * (i - 1) .. 2 * (i - 1) + 2];
    }
  }

  /** Rendering distributes over concatenation. */
  lemma {:induction false} ToHexConcat(a: seq<int8>, b: seq<int8>)
    ensures ToHex(a + b) == ToHex(a) + ToHex(b)
  {
    if |a| == 0 {
      assert a + b == b;
    } else {
      assert (a + b)[1..] == a[1..] + b;
      ToHexConcat(a[1..], b);
    }
  }

  /** Decoding the rendering gives the bytes back. */
  lemma {:induction false} FromHexToHex(a: seq<int8>)
    ensures FromHex(ToHex(a)) == Some(a)
  {
    if |a| > 0 {
      var s := ToHex(a);
      var u := Unsigned(a[0]);
      assert s[2..] == ToHex(a[1..]);
      FromHexToHex(a[1..]);
      assert DigitValue(s[0]) == Some(u / 16);
      assert DigitValue(s[1]) == Some(u % 16);
      SignedOfUnsigned(a[0]);
      assert Signed(16 * (u / 16) + u % 16) == a[0];
      assert [a[0]] + a[1..] == a;
    }
  }

  /** Every decodable string is the rendering of what it decodes to, so the
      rendering is one-to-one onto the even-length lowercase hex strings. */
  lemma {:induction false} ToHexFromHex(s: string, a: seq<int8>)
    requires FromHex(s) == Some(a)
    ensures ToHex(a) == s
    decreases |s|
  {
    if |s| > 0 {
      var hi := DigitValue(s[0]).value;
      var lo := DigitValue(s[1]).value;
      var rest := FromHex(s[2..]).value;
      ToHexFromHex(s[2..], rest);
      assert a == [Signed(16 * hi + lo)] + rest;
      assert a[1..] == rest;
      assert ByteHex(a[0]) == s[..2];
      assert s == s[..2] + s[2..];
    }
  }

  /** Worked examples: -1 renders as "ff", 0 as "00", 10 as "0a". */
  lemma ToHexExamples()
    ensures ToHex([-1]) == "ff"
    ensures ToHex([0]) == "00"
    ensures ToHex([10]) == "0a"
    ensures ToHex([]) == ""
  {
  }
}
