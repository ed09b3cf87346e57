/**
 * `btoa`: Base64 encoding as defined in section 4 of RFC 4648, applied to a
 * string whose characters are all Latin-1 code units (each one byte). The
 * launcher stores the encoding of the passcode as its "hash".
 */
module Base64 {

  /** `btoa` accepts only strings whose every character fits in one byte; otherwise it throws. */
  predicate IsLatin1(s: string) {
    forall i :: 0 <= i < |s| ==> s[i] as int < 256
  }

  /** The Base64 alphabet: A-Z, a-z, 0-9, '+', '/' (RFC 4648, Table 1). */
  function Digit(v: int): (c: char)
    requires 0 <= v < 64
    ensures c != '='
  {
    if v < 26 then ('A' as int + v) as char
    else if v < 52 then ('a' as int + (v - 26)) as char
    else if v < 62 then ('0' as int + (v - 52)) as char
    else if v == 62 then '+'
    else '/'
  }

  /** The value of an alphabet character; characters outside the alphabet read as 0. */
  function DigitValue(c: char): (v: int)
    ensures 0 <= v < 64
  {
    if 'A' <= c <= 'Z' then c as int - 'A' as int
    else if 'a' <= c <= 'z' then c as int - 'a' as int + 26
    else if '0' <= c <= '9' then c as int - '0' as int + 52
    else if c == '+' then 62
    else if c == '/' then 63
    else 0
  }

  lemma DigitValueOfDigit(v: int)
    requires 0 <= v < 64
    ensures DigitValue(Digit(v)) == v
  {
  }

  /** Three bytes become four alphabet characters. */
  function Quantum3(a: int, b: int, c: int): seq<char>
    requires 0 <= a < 256 && 0 <= b < 256 && 0 <= c < 256
  {
    [Digit(a / 4), Digit(a % 4 * 16 + b / 16), Digit(b % 16 * 4 + c / 64), Digit(c % 64)]
  }

  /** A final single byte becomes two characters and two pad characters. */
  function Quantum1(a: int): seq<char>
    requires 0 <= a < 256
  {
    [Digit(a / 4), Digit(a % 4 * 16), '=', '=']
  }

  /** A final pair of bytes becomes three characters and one pad character. */
  function Quantum2(a: int, b: int): seq<char>
    requires 0 <= a < 256 && 0 <= b < 256
  {
    [Digit(a / 4), Digit(a % 4 * 16 + b / 16), Digit(b % 16 * 4), '=']
  }

  /** `btoa(s)`. */
  function Btoa(s: string): (r: string)
    requires IsLatin1(s)
    ensures |r| == 4 * ((|s| + 2) / 3)
    ensures r == "" <==> s == ""
  {
    if |s| == 0 then ""
    else if |s| == 1 then Quantum1(s[0] as int)
    else if |s| == 2 then Quantum2(s[0] as int, s[1] as int)
    else Quantum3(s[0] as int, s[1] as int, s[2] as int) + Btoa(s[3..])
  }

  /** `atob`: decodes the quanta that `Btoa` produces, reading a pad character as the end. */
  function Atob(e: string): string
  {
    if |e| < 4 then ""
    else
      var d0, d1, d2, d3 := DigitValue(e[0]), DigitValue(e[1]), DigitValue(e[2]), DigitValue(e[3]);
      var a := (d0 * 4 + d1 / 16) as char;
      var b := (d1 % 16 * 16 + d2 / 4) as char;
      var c := (d2 % 4 * 64 + d3) as char;
      if e[2] == '=' then [a]
      else if e[3] == '=' then [a, b]
      else [a, b, c] + Atob(e[4..])
  }

  /** The bit arithmetic of one full quantum: the four 6-bit groups reassemble the three bytes. */
  lemma Regroup(a: int, b: int, c: int)
    requires 0 <= a < 256 && 0 <= b < 256 && 0 <= c < 256
    ensures a / 4 * 4 + (a % 4 * 16 + b / 16) / 16 == a
    ensures (a % 4 * 16 + b / 16) % 16 * 16 + (b % 16 * 4 + c / 64) / 4 == b
    ensures (b % 16 * 4 + c / 64) % 4 * 64 + c % 64 == c
  {
    var d1 := a % 4 * 16 + b / 16;
    assert d1 / 16 == a % 4 && d1 % 16 == b / 16;
    var d2 := b % 16 * 4 + c / 64;
    assert d2 / 4 == b % 16 && d2 % 4 == c / 64;
  }

  lemma Quantum3RoundTrip(a: int, b: int, c: int, rest: string)
    requires 0 <= a < 256 && 0 <= b < 256 && 0 <= c < 256
    ensures Atob(Quantum3(a, b, c) + rest) == [a as char, b as char, c as char] + Atob(rest)
  {
    var e := Quantum3(a, b, c) + rest;
    DigitValueOfDigit(a / 4);
    DigitValueOfDigit(a % 4 * 16 + b / 16);
    DigitValueOfDigit(b % 16 * 4 + c / 64);
    DigitValueOfDigit(c % 64);
    Regroup(a, b, c);
    assert e[4..] == rest;
  }

  /** Decoding undoes encoding, so the encoding loses nothing. */
  lemma {:induction false} AtobBtoa(s: string)
    requires IsLatin1(s)
    ensures Atob(Btoa(s)) == s
  {
    if |s| == 1 {
      DigitValueOfDigit(s[0] as int / 4);
      DigitValueOfDigit(s[0] as int % 4 * 16);
    } else if |s| == 2 {
      DigitValueOfDigit(s[0] as int / 4);
      DigitValueOfDigit(s[0] as int % 4 * 16 + s[1] as int / 16);
      DigitValueOfDigit(s[1] as int % 16 * 4);
    } else if |s| > 2 {
      Quantum3RoundTrip(s[0] as int, s[1] as int, s[2] as int, Btoa(s[3..]));
      AtobBtoa(s[3..]);
      assert s == s[..3] + s[3..];
    }
  }

  /** Two passcodes with the same encoding are the same passcode. */
  lemma BtoaInjective(s: string, t: string)
    requires IsLatin1(s) && IsLatin1(t)
    ensures Btoa(s) == Btoa(t) <==> s == t
  {
    if Btoa(s) == Btoa(t) {
      AtobBtoa(s);
      AtobBtoa(t);
    }
  }

  /** The test vectors of section 10 of RFC 4648. */
  lemma Rfc4648Vectors()
    ensures Btoa("f") == "Zg==" && Btoa("fo") == "Zm8=" && Btoa("foo") == "Zm9v"
    ensures Btoa("foob") == "Zm9vYg==" && Btoa("fooba") == "Zm9vYmE=" && Btoa("foobar") == "Zm9vYmFy"
  {
  }
}
