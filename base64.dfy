/** Standard base64 (section 4 of RFC 4648) as Go's encoding/base64 StdEncoding
    uses it: EncodeToString, the validity test DecodeString performs, and the
    UTF-8 bytes of a Go string that get encoded. */
module Base64 {

  type byte = x: int | 0 <= x < 256

  /** The character for a 6-bit value: A-Z, a-z, 0-9, '+', '/'. */
  function Char(n: int): (c: char)
    requires 0 <= n < 64
    ensures InAlphabet(c)
  {
    if n < 26 then ('A' as int + n) as char
    else if n < 52 then ('a' as int + (n - 26)) as char
    else if n < 62 then ('0' as int + (n - 52)) as char
    else if n == 62 then '+'
    else '/'
  }

  predicate InAlphabet(c: char)
  {
    'A' <= c <= 'Z' || 'a' <= c <= 'z' || '0' <= c <= '9' || c == '+' || c == '/'
  }

  /** StdEncoding.EncodeToString: each group of three bytes becomes four
      characters; a final group of one or two bytes is padded with '='. */
  function Encode(b: seq<byte>): string
    decreases |b|
  {
    if |b| == 0 then ""
    else if |b| == 1 then [Char(b[0] / 4), Char((b[0] % 4) * 16), '=', '=']
    else if |b| == 2 then [Char(b[0] / 4), Char((b[0] % 4) * 16 + b[1] / 16), Char((b[1] % 16) * 4), '=']
    else [Char(b[0] / 4), Char((b[0] % 4) * 16 + b[1] / 16), Char((b[1] % 16) * 4 + b[2] / 64), Char(b[2] % 64)]
         + Encode(b[3..])
  }

  /** The decoder skips carriage returns and newlines wherever they occur. */
  function StripNewlines(s: string): string
  {
    if s == [] then ""
    else (if s[0] == '\r' || s[0] == '\n' then "" else [s[0]]) + StripNewlines(s[1..])
  }

  /** A quantum of four alphabet characters. */
  predicate FullQuantum(q: string)
    requires |q| == 4
  {
    InAlphabet(q[0]) && InAlphabet(q[1]) && InAlphabet(q[2]) && InAlphabet(q[3])
  }

  /** The last quantum may also be "xx==" or "xxx=". */
  predicate FinalQuantum(q: string)
    requires |q| == 4
  {
    && InAlphabet(q[0]) && InAlphabet(q[1])
    && ((InAlphabet(q[2]) && (InAlphabet(q[3]) || q[3] == '=')) || (q[2] == '=' && q[3] == '='))
  }

  /** Whole quanta only; padding only in the last one. */
  predicate ValidQuanta(t: string)
    decreases |t|
  {
    t == [] || (|t| >= 4 && if |t| == 4 then FinalQuantum(t) else FullQuantum(t[..4]) && ValidQuanta(t[4..]))
  }

  /** StdEncoding.DecodeString(s) returns no error. */
  predicate IsValid(s: string)
  {
    ValidQuanta(StripNewlines(s))
  }

  /** Four output characters per started group of three input bytes. */
  lemma {:induction false} EncodeLength(b: seq<byte>)
    ensures |Encode(b)| == 4 * ((|b| + 2) / 3)
    decreases |b|
  {
    if |b| > 2 {
      EncodeLength(b[3..]);
      assert (|b| + 2) / 3 == (|b[3..]| + 2) / 3 + 1;
    }
  }

  /** Text with no CR or LF is left alone by the decoder's newline skipping. */
  lemma {:induction false} StripNoNewlines(s: string)
    requires forall i | 0 <= i < |s| :: s[i] != '\r' && s[i] != '\n'
    ensures StripNewlines(s) == s
  {
    if s != [] {
      StripNoNewlines(s[1..]);
    }
  }

  /** Every encoded character is an alphabet character or the padding '='. */
  lemma {:induction false} EncodeChars(b: seq<byte>)
    ensures forall i | 0 <= i < |Encode(b)| :: InAlphabet(Encode(b)[i]) || Encode(b)[i] == '='
    decreases |b|
  {
    if |b| > 2 {
      EncodeChars(b[3..]);
    }
  }

  /** Whatever EncodeToString produces, DecodeString accepts. */
  lemma {:induction false} EncodeIsValid(b: seq<byte>)
    ensures IsValid(Encode(b))
  {
    EncodeChars(b);
    StripNoNewlines(Encode(b));
    EncodeQuanta(b);
  }

  lemma {:induction false} EncodeQuanta(b: seq<byte>)
    ensures ValidQuanta(Encode(b))
    decreases |b|
  {
    if |b| > 2 {
      var t := Encode(b);
      EncodeQuanta(b[3..]);
      assert t[4..] == Encode(b[3..]);
    }
  }

  /** Non-empty input encodes to non-empty text. */
  lemma EncodeNonEmpty(b: seq<byte>)
    requires b != []
    ensures Encode(b) != ""
  {
  }

  /** Two strings from the validator's tests: "Zm9vOmJhcgo=" is accepted, a
      string holding ':' and a backslash is not. */
  lemma ValidityExamples(good: string, bad: string)
    requires good == "Zm9vOmJhcgo=" && bad == "ds:\\/onosc"
    ensures IsValid(good)
    ensures !IsValid(bad)
  {
    StripNoNewlines(good);
    StripNoNewlines(bad);
    assert good[4..][4..] == good[8..];
    assert !InAlphabet(bad[2]);
  }

  /** The UTF-8 bytes of one character (Go's `[]byte(string)`). */
  function EncodeRune(c: char): (r: seq<byte>)
    ensures 1 <= |r| <= 4
    ensures (c as int < 0x80) <==> |r| == 1
  {
    var n := c as int;
    if n < 0x80 then [n]
    else if n < 0x800 then [0xC0 + n / 64, 0x80 + n % 64]
    else if n < 0x10000 then [0xE0 + n / 4096, 0x80 + (n / 64) % 64, 0x80 + n % 64]
    else [0xF0 + n / 262144, 0x80 + (n / 4096) % 64, 0x80 + (n / 64) % 64, 0x80 + n % 64]
  }

  /** The UTF-8 bytes of a string. */
  function Utf8(s: string): (r: seq<byte>)
    ensures |s| <= |r| <= 4 * |s|
  {
    if s == [] then [] else EncodeRune(s[0]) + Utf8(s[1..])
  }
}
