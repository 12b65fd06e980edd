/** The text formatting the program relies on: `{}` of an unsigned integer,
    `{:016x}` of a 64-bit hash, the lower-hex rendering of a digest,
    `str::to_lowercase` restricted to ASCII, `str::lines().count()`, and
    `str::len`, the length of a string in UTF-8 bytes. */
module Format {

  type byte = x: nat | x < 256
  type u64 = x: nat | x < 0x1_0000_0000_0000_0000

  function Pow16(k: nat): (r: nat)
    ensures r >= 1
  {
    if k == 0 then 1 else 16 * Pow16(k - 1)
  }

  lemma Pow16Of16()
    ensures Pow16(16) == 0x1_0000_0000_0000_0000
  {
    assert Pow16(4) == 0x1_0000;
    assert Pow16(8) == 0x1_0000 * Pow16(4);
    assert Pow16(12) == 0x1_0000 * Pow16(8);
    assert Pow16(16) == 0x1_0000 * Pow16(12);
  }

  // ---------------------------------------------------------------- decimal

  predicate IsDigit(c: char) { '0' <= c <= '9' }

  function DigitChar(d: nat): (c: char)
    requires d < 10
    ensures IsDigit(c)
  {
    "0123456789"[d]
  }

  function DigitValue(c: char): (d: nat)
    requires IsDigit(c)
    ensures d < 10
  {
    (c as int - '0' as int) as nat
  }

  lemma DigitRoundTrip(d: nat)
    requires d < 10
    ensures DigitValue(DigitChar(d)) == d
  {
  }

  /** `format!("{}", n)` for an unsigned integer: decimal digits, no leading zero. */
  function Decimal(n: nat): (r: string)
    ensures |r| >= 1
    ensures forall i | 0 <= i < |r| :: IsDigit(r[i])
    ensures |r| > 1 ==> r[0] != '0'
  {
    if n < 10 then [DigitChar(n)] else Decimal(n / 10) + [DigitChar(n % 10)]
  }

  /** Reads a string of decimal digits back as a number. */
  function ParseDecimal(s: string): nat
    requires forall i | 0 <= i < |s| :: IsDigit(s[i])
  {
    if s == [] then 0 else 10 * ParseDecimal(s[..|s| - 1]) + DigitValue(s[|s| - 1])
  }

  lemma {:induction false} DecimalRoundTrip(n: nat)
    ensures ParseDecimal(Decimal(n)) == n
  {
    var r := Decimal(n);
    if n < 10 {
      assert r[..0] == [];
      DigitRoundTrip(n);
    } else {
      assert r[..|r| - 1] == Decimal(n / 10);
      DigitRoundTrip(n % 10);
      DecimalRoundTrip(n / 10);
    }
  }

  /** Different numbers print differently. */
  lemma DecimalInjective(m: nat, n: nat)
    requires Decimal(m) == Decimal(n)
    ensures m == n
  {
    DecimalRoundTrip(m);
    DecimalRoundTrip(n);
  }

  // -------------------------------------------------------------------- hex

  predicate IsHexDigit(c: char) { '0' <= c <= '9' || 'a' <= c <= 'f' }

  function HexChar(d: nat): (c: char)
    requires d < 16
    ensures IsHexDigit(c)
  {
    "0123456789abcdef"[d]
  }

  function HexValue(c: char): (d: nat)
    requires IsHexDigit(c)
    ensures d < 16
  {
    if c <= '9' then (c as int - '0' as int) as nat else (c as int - 'a' as int + 10) as nat
  }

  lemma HexCharRoundTrip(d: nat)
    requires d < 16
    ensures HexValue(HexChar(d)) == d
  {
  }

  /** `n` in lower-case hexadecimal, zero-padded to exactly `width` digits
      (`{:0<width>x}` of a number that fits in `width` digits). */
  function Hex(n: nat, width: nat): (r: string)
    requires n < Pow16(width)
    ensures |r| == width
    ensures forall i | 0 <= i < |r| :: IsHexDigit(r[i])
  {
    if width == 0 then [] else Hex(n / 16, width - 1) + [HexChar(n % 16)]
  }

  /** Reads a string of lower-case hex digits back as a number. */
  function ParseHex(s: string): nat
    requires forall i | 0 <= i < |s| :: IsHexDigit(s[i])
  {
    if s == [] then 0 else 16 * ParseHex(s[..|s| - 1]) + HexValue(s[|s| - 1])
  }

  lemma {:induction false} HexRoundTrip(n: nat, width: nat)
    requires n < Pow16(width)
    ensures ParseHex(Hex(n, width)) == n
  {
    if width > 0 {
      var r := Hex(n, width);
      assert r[..|r| - 1] == Hex(n / 16, width - 1);
      HexCharRoundTrip(n % 16);
      HexRoundTrip(n / 16, width - 1);
    }
  }

  /** `format!("{:016x}", h)` of a `u64`: always exactly sixteen hex digits,
      from which the hash can be read back. */
  function Hex16(h: u64): (r: string)
    ensures |r| == 16
    ensures forall i | 0 <= i < |r| :: IsHexDigit(r[i])
    ensures ParseHex(r) == h
  {
    Pow16Of16();
    HexRoundTrip(h, 16);
    Hex(h, 16)
  }

  /** Lower-hex rendering of a byte array: two digits per byte, in order. A
      minimum width such as the `016` of `{:016x}` never shortens it. */
  function HexBytes(bs: seq<byte>): (r: string)
    ensures |r| == 2 * |bs|
    ensures forall i | 0 <= i < |r| :: IsHexDigit(r[i])
    ensures forall k | 0 <= k < |bs| :: ParseHex(r[2 * k .. 2 * k + 2]) == bs[k]
  {
    if bs == [] then []
    else
      var head := Hex(bs[0], 2);
      var rest := HexBytes(bs[1..]);
      HexRoundTrip(bs[0], 2);
      assert forall k | 1 <= k < |bs| :: (head + rest)[2 * k .. 2 * k + 2] == rest[2 * (k - 1) .. 2 * (k - 1) + 2];
      assert (head + rest)[0..2] == head;
      head + rest
  }

  // ------------------------------------------------------------- lowercase

  /** `char::to_lowercase` on ASCII letters; every other character is kept. */
  function LowerChar(c: char): char
  {
    if 'A' <= c <= 'Z' then (c as int + 32) as char else c
  }

  /** `str::to_lowercase`, with case mapping limited to ASCII letters. */
  function AsciiLower(s: string): (r: string)
    ensures |r| == |s|
    ensures forall i | 0 <= i < |s| :: r[i] == LowerChar(s[i])
    ensures forall i | 0 <= i < |r| :: !('A' <= r[i] <= 'Z')
  {
    seq(|s|, i requires 0 <= i < |s| => LowerChar(s[i]))
  }

  /** Lower-casing twice is the same as lower-casing once. */
  lemma AsciiLowerIdempotent(s: string)
    ensures AsciiLower(AsciiLower(s)) == AsciiLower(s)
  {
  }

  // ----------------------------------------------------------------- lines

  function NewlineCount(s: string): nat
  {
    if s == [] then 0 else NewlineCount(s[..|s| - 1]) + (if s[|s| - 1] == '\n' then 1 else 0)
  }

  /** `s.lines().count()`: one line per `'\n'`, plus one for a final line
      without a terminator. */
  function LineCount(s: string): nat
  {
    NewlineCount(s) + (if s != [] && s[|s| - 1] != '\n' then 1 else 0)
  }

  predicate IsLine(l: string) { forall i | 0 <= i < |l| :: l[i] != '\n' }

  /** The text of the lines `ls`, each followed by a newline, as `ls` prints them. */
  function Terminated(ls: seq<string>): string
  {
    if ls == [] then [] else Terminated(ls[..|ls| - 1]) + ls[|ls| - 1] + "\n"
  }

  lemma {:induction false} NewlineCountOfLine(prefix: string, l: string)
    requires IsLine(l)
    ensures NewlineCount(prefix + l) == NewlineCount(prefix)
    decreases |l|
  {
    if l != [] {
      var s := prefix + l;
      assert s[..|s| - 1] == prefix + l[..|l| - 1];
      NewlineCountOfLine(prefix, l[..|l| - 1]);
    } else {
      assert prefix + l == prefix;
    }
  }

  /** Counting the lines of newline-terminated output recovers the number of
      lines printed, empty lines included. */
  lemma {:induction false} LineCountOfTerminated(ls: seq<string>)
    requires forall i | 0 <= i < |ls| :: IsLine(ls[i])
    ensures LineCount(Terminated(ls)) == |ls|
    ensures NewlineCount(Terminated(ls)) == |ls|
  {
    if ls != [] {
      var front := Terminated(ls[..|ls| - 1]);
      var s := Terminated(ls);
      assert s == (front + ls[|ls| - 1]) + "\n";
      assert s[..|s| - 1] == front + ls[|ls| - 1];
      NewlineCountOfLine(front, ls[|ls| - 1]);
      LineCountOfTerminated(ls[..|ls| - 1]);
    }
  }

  /** The number of bytes the UTF-8 encoding of `c` takes. */
  function Utf8Width(c: char): nat
  {
    if c as int < 0x80 then 1
    else if c as int < 0x800 then 2
    else if c as int < 0x1_0000 then 3
    else 4
  }

  /** `str::len`: the length of `s` in UTF-8 bytes, which equals its number
      of characters exactly when every character is ASCII. */
  function Utf8Length(s: string): (r: nat)
    ensures |s| <= r <= 4 * |s|
    ensures r == |s| <==> forall i | 0 <= i < |s| :: s[i] as int < 0x80
  {
    if s == [] then 0
    else
      var rest := Utf8Length(s[1..]);
      assert (forall i | 0 <= i < |s| :: s[i] as int < 0x80) <==>
             s[0] as int < 0x80 && forall i | 0 <= i < |s[1..]| :: s[1..][i] as int < 0x80 by {
        if s[0] as int < 0x80 && forall i | 0 <= i < |s[1..]| :: s[1..][i] as int < 0x80 {
          forall i | 0 <= i < |s| ensures s[i] as int < 0x80 {
            if i > 0 { assert s[i] == s[1..][i - 1]; }
          }
        }
      }
      Utf8Width(s[0]) + rest
  }

  /** The byte length of a concatenation is the sum of the byte lengths. */
  lemma {:induction false} Utf8LengthAppend(s: string, t: string)
    ensures Utf8Length(s + t) == Utf8Length(s) + Utf8Length(t)
  {
    if s != [] {
      assert (s + t)[0] == s[0] && (s + t)[1..] == s[1..] + t;
      Utf8LengthAppend(s[1..], t);
    } else {
      assert s + t == t;
    }
  }
}
