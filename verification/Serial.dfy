/**
 * The revocation index (`src/auth/crl.rs`): certificate serials of any size
 * as lower-case hexadecimal strings of their canonical big-endian bytes.
 */
module Serial {

  /** Canonical big-endian bytes; zero is one zero byte. */
  function BytesBe(n: nat): (bytes: seq<nat>)
    ensures |bytes| > 0 && forall i :: 0 <= i < |bytes| ==> bytes[i] < 256
  {
    if n < 256 then [n] else BytesBe(n / 256) + [n % 256]
  }

  function Digit(d: nat): char
    requires d < 16
  {
    if d < 10 then '0' + d as char else 'a' + (d - 10) as char
  }

  function Hex(bytes: seq<nat>): string
    requires forall i :: 0 <= i < |bytes| ==> bytes[i] < 256
    decreases |bytes|
  {
    if bytes == [] then ""
    else
      var last := bytes[|bytes| - 1];
      Hex(bytes[..|bytes| - 1]) + [Digit(last / 16), Digit(last % 16)]
  }

  /** `format_serial_hex` */
  function SerialHex(n: nat): string {
    Hex(BytesBe(n))
  }

  predicate IsHexDigit(c: char) {
    '0' <= c <= '9' || 'a' <= c <= 'f'
  }

  function DigitValue(c: char): (d: nat)
    requires IsHexDigit(c)
    ensures d < 16 && Digit(d) == c
  {
    if c <= '9' then (c - '0') as nat else (c - 'a') as nat + 10
  }

  predicate IsHex(s: string) {
    forall i :: 0 <= i < |s| ==> IsHexDigit(s[i])
  }

  /** The number a hexadecimal string denotes. */
  function Value(s: string): nat
    requires IsHex(s)
    decreases |s|
  {
    if s == "" then 0 else Value(s[..|s| - 1]) * 16 + DigitValue(s[|s| - 1])
  }

  /** Two lower-case digits per byte, and no leading zero byte unless it is the only one. */
  predicate IsCanonical(s: string) {
    |s| > 0 && |s| % 2 == 0 && IsHex(s) && (|s| > 2 ==> s[..2] != "00")
  }

  lemma DigitsRoundTrip(d: nat)
    requires d < 16
    ensures IsHexDigit(Digit(d)) && DigitValue(Digit(d)) == d
  {
  }

  lemma HexOfLast(bytes: seq<nat>, b: nat)
    requires b < 256 && forall i :: 0 <= i < |bytes| ==> bytes[i] < 256
    ensures Hex(bytes + [b]) == Hex(bytes) + [Digit(b / 16), Digit(b % 16)]
  {
    assert (bytes + [b])[..|bytes|] == bytes;
  }

  /** Appending one byte multiplies by 256. */
  lemma ValueOfByte(s: string, b: nat)
    requires IsHex(s) && b < 256
    ensures IsHex(s + [Digit(b / 16), Digit(b % 16)])
    ensures Value(s + [Digit(b / 16), Digit(b % 16)]) == Value(s) * 256 + b
  {
    var hi, lo := Digit(b / 16), Digit(b % 16);
    DigitsRoundTrip(b / 16);
    DigitsRoundTrip(b % 16);
    assert (s + [hi, lo])[..|s| + 1] == s + [hi];
    assert (s + [hi])[..|s|] == s;
    assert Value(s + [hi]) == Value(s) * 16 + b / 16;
    assert Value(s + [hi, lo]) == Value(s + [hi]) * 16 + b % 16;
  }

  lemma SerialHexSmall(n: nat)
    requires n < 256
    ensures SerialHex(n) == [Digit(n / 16), Digit(n % 16)]
  {
    assert BytesBe(n) == [] + [n];
    HexOfLast([], n);
  }

  lemma SerialHexLarge(n: nat)
    requires n >= 256
    ensures SerialHex(n) == SerialHex(n / 256) + [Digit(n % 256 / 16), Digit(n % 256 % 16)]
  {
    HexOfLast(BytesBe(n / 256), n % 256);
  }

  /** Formatting a serial of any size and reading it back yields the serial, in canonical form. */
  lemma {:induction false} ValueUndoesSerialHex(n: nat)
    ensures IsCanonical(SerialHex(n))
    ensures Value(SerialHex(n)) == n
    decreases n
  {
    if n < 256 {
      SerialHexSmall(n);
      ValueOfByte("", n);
      assert "" + [Digit(n / 16), Digit(n % 16)] == [Digit(n / 16), Digit(n % 16)];
    } else {
      var rest := SerialHex(n / 256);
      SerialHexLarge(n);
      ValueUndoesSerialHex(n / 256);
      ValueOfByte(rest, n % 256);
      assert SerialHex(n)[..2] == rest[..2];
      if rest == "00" {
        assert Value("00") == 0 by { ZeroByte(); }
      }
      assert |rest| == 2 ==> rest[..2] == rest;
    }
  }

  lemma ZeroByte()
    ensures Value("00") == 0 && SerialHex(0) == "00"
  {
    assert "00"[..1] == "0" && "0"[..0] == "";
    SerialHexSmall(0);
  }

  /** The last two digits of a string as one byte. */
  lemma LastByte(s: string) returns (b: nat)
    requires |s| >= 2 && IsHex(s)
    ensures b < 256 && s == s[..|s| - 2] + [Digit(b / 16), Digit(b % 16)]
    ensures Value(s) == Value(s[..|s| - 2]) * 256 + b
  {
    var hi, lo := DigitValue(s[|s| - 2]), DigitValue(s[|s| - 1]);
    b := hi * 16 + lo;
    assert b / 16 == hi && b % 16 == lo;
    ValueOfByte(s[..|s| - 2], b);
  }

  lemma DropLastByte(s: string)
    requires IsCanonical(s) && |s| > 2
    ensures IsCanonical(s[..|s| - 2]) && s[..|s| - 2] != "00"
  {
    var rest := s[..|s| - 2];
    assert s[..2] == rest[..2];
    assert |rest| == 2 ==> rest[..2] == rest;
  }

  lemma AppendByte(n: nat, b: nat)
    requires n > 0 && b < 256
    ensures SerialHex(n * 256 + b) == SerialHex(n) + [Digit(b / 16), Digit(b % 16)]
  {
    assert (n * 256 + b) / 256 == n && (n * 256 + b) % 256 == b;
    SerialHexLarge(n * 256 + b);
  }

  /** Reading a canonical string and formatting the number yields the string. */
  lemma {:induction false} SerialHexUndoesValue(s: string)
    requires IsCanonical(s)
    ensures SerialHex(Value(s)) == s
    decreases |s|
  {
    hide SerialHex, Digit, IsHexDigit;
    var b := LastByte(s);
    var rest := s[..|s| - 2];
    if |s| == 2 {
      assert rest == "";
      SerialHexSmall(b);
    } else {
      DropLastByte(s);
      SerialHexUndoesValue(rest);
      ZeroByte();
      AppendByte(Value(rest), b);
    }
  }

  lemma SerialHexIsInjective(m: nat, n: nat)
    requires SerialHex(m) == SerialHex(n)
    ensures m == n
  {
    ValueUndoesSerialHex(m);
    ValueUndoesSerialHex(n);
  }

  /** The index built from a revocation list. */
  function RevokedIndex(revoked: seq<nat>): set<string> {
    set serial | serial in revoked :: SerialHex(serial)
  }

  predicate IsRevoked(index: set<string>, serialHex: string) {
    serialHex in index
  }

  /** A certificate is found revoked if and only if its serial is on the list. */
  lemma RevocationIsExact(revoked: seq<nat>, serial: nat)
    ensures IsRevoked(RevokedIndex(revoked), SerialHex(serial)) <==> serial in revoked
  {
    if IsRevoked(RevokedIndex(revoked), SerialHex(serial)) {
      var other :| other in revoked && SerialHex(other) == SerialHex(serial);
      SerialHexIsInjective(other, serial);
    }
  }

  /** For arbitrary text the test holds exactly for the canonical form of a revoked serial. */
  lemma LookupNeedsCanonicalText(revoked: seq<nat>, text: string)
    ensures IsRevoked(RevokedIndex(revoked), text) <==> IsCanonical(text) && Value(text) in revoked
  {
    if IsRevoked(RevokedIndex(revoked), text) {
      var serial :| serial in revoked && SerialHex(serial) == text;
      ValueUndoesSerialHex(serial);
    }
    if IsCanonical(text) {
      SerialHexUndoesValue(text);
    }
  }
}
